# certhold: a verified model of trust, rotation and enrollment

certhold manages an SSH certificate authority for a fleet. A manager keeps a database and CA key
directories, signs a certificate for each peer, and writes one `cert-authority` line into each peer's
`authorized_keys`. This project models three connected parts and proves what they keep.

**Text.** `Text`, `Filters`, `Principals`, `AuthorizedKeys`, `TrustLaws`, `PrincipalLaws`, `Acceptance`,
`SshConfig` and `Install` model the scanners that rewrite `authorized_keys` and `ssh_config` line by line,
and what an sshd accepts, as sshd(8) describes it under AUTHORIZED_KEYS FILE FORMAT. The key parser is an
abstract `Codec`; the three properties assumed of it are the predicate `TrustLaws.Faithful`, and
`Consistency` gives a codec that has them.

**Database.** `Names`, `Tables`, `Database`, `Reachability`, `Enroll` and `CertLists` model the tables as maps
and sets with primary and foreign keys. `Tables.Apply` says what each transaction commits; class `Database.DB`
holds the statements, each of which the storage may refuse, and the rollbacks.

**Fleet.** `Fleet` puts the database, the CA directories `ca/`, `ca.next/`, `ca.old.*`, the files of every peer,
and every key, certificate and bundle ever made into one state `World`. Its steps are the single writes that
operations consist of. Class `Manager.Deps` performs them, each able to fail, a remote one also ambiguously,
and logs each as a step; its `Valid()` says that the state is what a legal run of steps made of a sound start.
Every write to an `authorized_keys` file that is issued is logged as well, landed or not.
`RekeyPeers`, `Rotation`, `Revoke`, `Groups`, `GroupDeletion`, `PeerUpdate`, `Enroll` and `Install` are the
operations over it. Since every write is a step, `Fleet.EveryLineHeld` covers every sequence of operations, each
stopped anywhere.

**Beside them.** `PassSession` is the prompt handoff of the terminal UI as a machine over its atomic steps.
`Migration` is the schema migration that may stop after any statement.

Conventions: new keys, tokens and the archive's time stamp are parameters; a failing unlock, dial, read, write or
query is a free choice. `Fate` names the kinds of choices; what is known of them is a parameter of the database and
of the manager, and a contract says what follows from it: what an operation leaves whatever fails, and exactly when it
succeeds if nothing does. Group and
principal names are trimmed, not empty, and free of commas, quotes, backslashes and newlines (`Text.PlainName`).

## Findings

Where the code does less than its text says, the exact condition is proved.

- The line scanners add a missing final newline, although the comment at internal/peerfiles/clear.go:30 says the
  input is returned unchanged (`TrustLaws.StripLaw`, `Text.UnlinesLines`).
- Replacing twice by one line is replacing once exactly if the line's own key is among the retired ones
  (`TrustLaws.ReplaceAgain`).
- The two builders of a trust line agree exactly when the key text ends in no stray carriage return
  (`Principals.BuildersAgree`).
- Stripping a config block by regular expression and deleting it by sed agree exactly when no range is left open
  (`SshConfig.StripIsSed`).
- The install script's append reaches the file as a line of its own exactly when the file ended its last line
  (`Install.AppendNeedsNewline`); otherwise a second install deletes the user's line it was glued to
  (`Install.InstallTwice`).
- The third field, which the script takes for the CA key, is the key exactly when no listed name has a blank in it
  (`Install.ThirdField`); exactly then an install spares every line that does not carry the key
  (`Install.SparesIff`).
- A converted client is closed to the instance exactly when it trusted no archived key (`Revoke.ClientClosedIff`).
- A rotation given up cleanly leaves the manager's own `authorized_keys` on a key that is held nowhere exactly when,
  of the manager's two file writes, the first landed and the second did not, and `ca.next` is gone
  (`RotationLaws.DanglesIff`); it happens when nobody can be dialed and the certificate file cannot be written
  (`RotationLaws.TornRekey`).
- A rotation that cannot read the manager's own `authorized_keys` takes it for empty and drops whatever other lines it
  had: they are kept exactly when it could be read, or there were none (`Rotation.OwnKeptIff`).
- A re-enroll with no option set keeps the peer's configuration, but for a client that still allows groups, which then
  allows none (`Enroll.BareReenroll`).
- A pushed peer is closed to the older keys of the instance exactly when the rotation could read every key that it
  trusted (`RotationLaws.PushedClosedIff`).
- ReachableHosts and sshd agree exactly when no dialable peer lists the bare name of a peer it does not admit
  otherwise (`Reachability.ReachableIsAccepted`).
- An update that fails between its two database writes leaves the certificate out of step exactly when the groups
  changed in more than the peer's own name (`CertLists.HalfUpdateOutOfStep`).
- A rename given an old name with blanks around it renames the database and succeeds without signing or pushing
  anything (`Groups.GroupRename`); certificates are in step afterwards exactly when the group had no live member but
  the manager (`Groups.UntrimmedOutOfStep`).
- No prompt blocks under the mutex, whoever holds it can go on, and neither close nor arm strands anybody, each exactly
  when at most one goroutine prompts at a time (`PassSession.SendsFreeIff`, `PassSession.LocksMoveIff`,
  `PassSession.CloseFreesIff`, `PassSession.ArmFreesIff`). A host-key confirm runs on the handshake's goroutine and may outlive its worker.
- The message at internal/ops/revoke.go:126 says that the CA was not rotated. A revocation that fails has rotated it
  exactly when the renames went through, and then recording the version or deleting the row failed
  (`Revoke.RevokeRekey`); with recording, the message is printed and wrong (`Revoke.UnrecordedRevoke`).

## Model

| member | source | states |
|---|---|---|
| `Text.LineScanner.Next` | internal/peerfiles/authorized.go:188-201 | the scanner yields the lines of the body in order, a final line without newline included, and then stops |
| `Text.UnlinesLines` | internal/peerfiles/authorized.go:180-208 | writing back every scanned line restores the body up to a missing final newline |
| `Text.TrimSpaceIs` | internal/peerfiles/authorized.go:85-88 | a trimmed text is the text without the white space, as Unicode has it, at either end |
| `AuthorizedKeys.LineMatchesCA` | internal/peerfiles/authorized.go:141-157 | a line matches exactly if it parses, holds this key, and one of its options is cert-authority, with a value or without |
| `AuthorizedKeys.TrustedKeySays` | internal/peerfiles/authorized.go:85-107 | a line of a file trusts a key exactly if, trimmed, it is not empty, no comment, and matches |
| `AuthorizedKeys.StripCALine` | internal/peerfiles/clear.go:31-60 | exactly the lines that trust one of the keys go, the others stay in order |
| `AuthorizedKeys.ReplaceCALines` | internal/peerfiles/authorized.go:77-120 | the new line stands where the first retired line stood, the other retired lines are gone, and it comes last when there was none |
| `AuthorizedKeys.RewritePrincipals` | internal/peerfiles/authorized.go:21-58 | every line for the key gets the new principals token; without such a line, or with one that has no token, the call fails |
| `TrustLaws.StripLaw` | internal/peerfiles/clear.go:25-60 | stripping leaves no line for the keys, every other line in order, and a body without such lines as it was up to a final newline |
| `TrustLaws.StrippedKeys` | internal/peerfiles/clear.go:31-60 | a stripped body trusts what it trusted but for the stripped keys |
| `TrustLaws.ReplacedKeys` | internal/peerfiles/authorized.go:77-120 | a replaced body trusts what it trusted but for the retired keys, and the new key |
| `TrustLaws.ReplaceHeals` | internal/peerfiles/authorized.go:68-120 | whatever lines of this instance the body had, a replacement leaves exactly the new one, every other line in place and in order |
| `TrustLaws.ReplaceAgain` | internal/peerfiles/authorized.go:77-120 | replacing again by the same line changes nothing if and only if its key is among the retired ones |
| `TrustLaws.RotationChain` | internal/peerfiles/authorized.go:77-120 | replacing K by a line for a fresh k1 and then K and k1 by a second line gives, byte for byte, what replacing K by the second line gives |
| `TrustLaws.RotationsCollapse` | internal/peerfiles/authorized.go:77-120 | any number of rotations leaves the body the last one alone would leave |
| `Principals.DedupPrincipals` | internal/peerfiles/authorized.go:122-137 | the list is the manager followed by the trimmed names, each once |
| `Principals.WithManagerLists` | internal/peerfiles/authorized.go:122-137 | such a list starts with the manager, repeats nothing, and holds nothing else but the names |
| `Principals.BuildAuthorizedKeysLine` | internal/peerfiles/usertar.go:154-171 | the bundle's line is the trust line for the key text and the deduplicated trimmed names |
| `Principals.UserAuthorizedKeysLine` | internal/ops/rekey.go:419-453 | the rotation's line is the trust line for the key text and the deduplicated names |
| `Principals.BuildersAgree` | internal/ops/rekey.go:415-453 | both builders agree on trimmed names if and only if the key text ends in no stray carriage return |
| `Principals.CertPrincipals` | internal/ops/selfguard.go:54-78 | the loop computes the name, then for the manager's own row its principal, then the groups, each once |
| `Principals.CertListHas` | internal/ops/selfguard.go:46-78 | a certificate lists its name and groups and nothing else, each once; the manager's own row the manager principal exactly once |
| `PrincipalLaws.RewriteLaw` | internal/peerfiles/authorized.go:21-58 | a rewrite keeps each line's place and trusted key, and any line for another key byte for byte |
| `PrincipalLaws.RewritesCompose` | internal/peerfiles/authorized.go:21-58 | two rewrites are the last one |
| `PrincipalLaws.RewriteBuiltLine` | internal/peerfiles/authorized.go:167-178 | rewriting a built trust line gives the line built from the new principals |
| `PrincipalLaws.RewriteOnlyLine` | internal/peerfiles/authorized.go:21-58 | a body whose one line for the key is a built line becomes the body with the newly built line, all else as it was |
| `PrincipalLaws.RewriteAfterReplace` | internal/ops/rekey.go:415-418 | a rotation followed by a rewrite is the rotation with the new principals |
| `Acceptance.TrustLineAdmits` | internal/peerfiles/usertar.go:150-171 | a written line admits exactly its key's certificates that carry the manager or a listed name |
| `Acceptance.AcceptsByOnlyLine` | internal/peerfiles/usertar.go:150-171 | a body whose one line for the key is the built line accepts that key's certificates as that line does |
| `Consistency.FaithfulExists` | internal/peerfiles/authorized.go:141-178 | the assumptions about the key parser do not contradict each other |
| `Consistency.StartExists` | internal/ops/rekey.go:42-82 | there is a sound fleet with a second peer in which a rotation can start |
| `SshConfig.V2SshClientBlockWithHosts` | internal/peerfiles/layout.go:39-68 | the renderer writes the sentinels, the header, a stanza for every entry that has an address or a user, and the identity lines |
| `SshConfig.BlockSays` | internal/peerfiles/layout.go:39-68 | in the block every such entry has a stanza with its name, address and user, and the identity for all hosts is the keyed one |
| `SshConfig.MarkIs` | internal/peerfiles/clear.go:11-23 | a sentinel is the marker with the key, alone or with a version number |
| `SshConfig.StripIsSed` | internal/peerfiles/clear.go:11-23 | the regular expression and the sed range agree on a text if and only if no range is left open |
| `SshConfig.DeletedIsOutside` | internal/sshpush/client.go:285-289 | the sed range keeps exactly the lines that have no begin line before them without an end line in between |
| `SshConfig.StripUndoesSplice` | internal/peerfiles/clear.go:11-23 | stripping after a splice removes exactly the rendered block |
| `SshConfig.SpliceTwice` | internal/sshpush/client.go:267-294 | two splices are the last one |
| `SshConfig.SpliceKeepsOthers` | internal/sshpush/client.go:267-294 | another instance's block and the user text around it stay byte for byte |
| `SshConfig.SpliceKeepsUserText` | internal/sshpush/client.go:267-294 | a splice keeps, in order, exactly the lines that lie in no range of this instance, then the block |
| `Tables.GroupListRoundTrip` | internal/db/tokens.go:201-209 | plain group names survive the comma-separated column of a token row |
| `Tables.GroupListHas` | internal/db/tokens.go:201-209 | the column is read back as its fields, trimmed, that are not empty |
| `Tables.RunKeepsSound` | internal/db/tokens.go:68-199 | every interleaving of transactions keeps the foreign keys, spent tokens free of staged material and bundles, and at most one pending staged token per peer |
| `Tables.RedeemOnce` | internal/db/tokens.go:75-135 | between two redeems of one token lies a mint of it |
| `Tables.RedeemScope` | internal/db/tokens.go:75-199 | a redeem creates no group, leaves every revoked and every other peer and token alone, spends the token, and gives its peer the staged key, certificate, serial, pull token, inbound flag, address if one was staged, groups and allowed set, and nothing else |
| `Tables.DeleteScope` | internal/db/peers.go:151-184 | a deleted peer leaves its row, its memberships and its tokens, and every other row stays |
| `Database.SplitGroupsCSV` | internal/db/tokens.go:201-209 | the loop computes the trimmed fields that are not empty, in order |
| `Database.DB.SetPeerGroupsTableTx` | internal/db/groups.go:95-107 | on success the memberships are exactly the list and missing groups exist; when no statement fails it succeeds unless a group is repeated or the peer unknown |
| `Database.DB.SetPeerGroupsTableStrictTx` | internal/db/groups.go:110-133 | on success the memberships are exactly the list and no group was created; when no statement fails it succeeds unless a group is missing or repeated |
| `Database.DB.CommitStagedReenroll` | internal/db/tokens.go:137-199 | on success the peer's row, groups and allowed set are the staged ones; the refusals are exactly a missing or revoked peer and a group list that does not fit |
| `Database.DB.ConsumeToken` | internal/db/tokens.go:68-135 | a redeem commits wholly and hands out the bundle, or changes nothing; when no statement fails it commits exactly if the token can be redeemed |
| `Database.DB.StageReenroll` | internal/ops/enroll.go:194-229 | the staging transaction supersedes the peer's pending tokens and inserts one, or changes nothing |
| `Database.DB.StageNew` | internal/ops/enroll.go:194-257 | the enrolling transaction inserts peer, certificate, groups, allowed set and token together, or changes nothing |
| `Database.DB.DeletePeer` | internal/db/peers.go:151-184 | the peer and every row that refers to it go together, and no foreign key can refuse it |
| `Database.DB.DeleteGroup` | internal/db/groups.go:162-189 | the group and its memberships go together, and no foreign key can refuse it |
| `Database.DB.RenameGroup` | internal/db/groups.go:191-237 | every membership is retargeted at once; no unique or foreign key can refuse it |
| `Reachability.ReachableHostsLists` | internal/db/peers_hosts.go:19-55 | the query lists once, in name order, each other live inbound peer that allows one of the peer's groups, or every such peer when the peer is in the manager's group, with the address and user of its row |
| `Names.LeSays` | internal/db/peers_hosts.go:31-42 | names are ordered by the first character in which they differ, a prefix first |
| `Reachability.ReachableHostEntries` | internal/ops/enroll.go:269-322 | the mint-time loops return the list, in order, that the query returns once the groups are set |
| `Reachability.RenameKeepsReach` | internal/db/groups.go:191-237 | a rename between names other than the manager's carries every membership, keeps the foreign keys, and changes nobody's reachable hosts |
| `Reachability.RenameUndone` | internal/db/groups.go:200-237 | renaming back restores the database |
| `Reachability.AcceptedIsReachable` | internal/db/peers_hosts.go:19-55 | an in-step peer accepts another's certificate if and only if the query lists it, or its trust line lists the bare name |
| `Reachability.ReachableIsAccepted` | internal/db/peers_hosts.go:19-55 | the accepting peers are the reachable ones if and only if no peer out of reach lists the bare name; always so for a name that is no group's and not the manager's |
| `Fleet.RunKeepsInv` | internal/ops/rekey.go:93-127 | every legal run keeps: each trusted key of this instance held, each line for one a built line that lists the manager, each bundle's key kept, each certificate from a key of this instance, rows and pending tokens with certificates of their own peer, the manager's with its principal |
| `Fleet.EveryLineHeld` | internal/ops/rekey.go:98-127 | at any point of any run a peer's line for a key of this instance is for a key in ca/, ca.next/ or an archive |
| `Fleet.RunKeepsKept` | internal/ops/rekey.go:245-264 | a key that was active stays in ca/ or an archive through any run |
| `Manager.Deps.InstanceCAPubKeys` | internal/ops/revoke.go:136-174 | the result is exactly the readable keys of the active and the archived directories; only an unreadable active one fails |
| `Manager.Deps.WriteKeys` | internal/sshpush/client.go:234-254 | a write lands wholly or not at all, a failed one either way; it is logged as issued, and adds no line of this instance but a built one for a key it may trust |
| `Manager.Deps.SpliceConfig` | internal/sshpush/client.go:267-294 | a splice deletes the range and appends the block; after a failed one the config is as before, without the range, or spliced |
| `RekeyPeers.PushPeerRekey` | internal/ops/rekey.go:375-413 | a push replaces the instance's lines, writes the certificate and splices the config; a failed one stopped after one of these writes, and until a write to authorized_keys was issued nothing changed; when nothing fails it goes through to a peer that has an account |
| `RekeyPeers.PushTrades` | internal/ops/rekey.go:394-402 | a push trades the retired keys for the new one and touches no other trust |
| `RekeyPeers.RekeyPeer` | internal/ops/rekey.go:155-215 | per peer: stored only, pushed and stored, failed, or given up, with what each leaves; a peer that is no inbound one or cannot be dialed back is neither dialed nor written to and only stored, any other is dialed before it counts as pushed, and only its own account is written to; when nothing fails it is stored or pushed |
| `RekeyPeers.ToldStep` | internal/ops/rekey.go:153-215 | each peer's turn keeps what is told of all before: who is updated or failed, their rows, their trust and their files |
| `RekeyPeers.Restore` | internal/ops/rekey.go:104-125 | undoing every noted row, if none fails, restores the database; none fails when statements are known to work |
| `Rotation.OthersAre` | internal/ops/rekey.go:68-78 | a rotation takes each peer that is not revoked, not the manager's and not excluded, once, in name order |
| `Rotation.FindArchiveName` | internal/ops/rekey.go:245-257 | the search ends, at the name with the time stamp or else with the first number behind it that no directory has |
| `Rotation.SwapDirs` | internal/ops/rekey.go:245-265 | the directories are swapped, untouched, or the old one archived under that name with the new one still staged; the last only if the undoing rename failed |
| `Rotation.RekeySelf` | internal/ops/rekey.go:217-242 | the manager's row gets a certificate with its own principal, or nothing is stored; its two files are as writeSelfRekey leaves them |
| `Rotation.WriteSelfRekey` | internal/ops/rekey.go:455-471 | of the manager's two files none, the first, or both are rewritten, and what is not rewritten is as it was; the first then keeps every line for no retired key, in order, and has one line of this instance, for the new key and the manager alone, if it could be read, and otherwise only that line |
| `Rotation.OwnKeptIff` | internal/ops/rekey.go:462-466 | the other lines of the manager's file are kept if and only if it could be read, or there were none |
| `Rotation.RotatePeers` | internal/ops/rekey.go:153-215 | the loop leaves everything told of all peers, or stops with enough noted to undo it; its flag says exactly whether a trust write was issued; no account and no host but those of inbound listed peers that can be dialed back is touched, and each of these was dialed if it counts as updated; when nothing fails everyone with an account is updated |
| `Rotation.GiveUp` | internal/ops/rekey.go:107-127 | before any trust write the staged key is dropped and the rows undone, as far as removing and storing work, afterwards it is kept |
| `Rotation.Rekey` | internal/ops/rekey.go:38-285 | a rotation ends as before, or given up with ca.next kept, or swapped; without a swap ca.next is kept if and only if a trust write was issued to a peer or both own files were rewritten; the manager's own files are as writeSelfRekey leaves them; success means swapped, recorded and the revision bumped; whatever undoing works was done; the manager then presents the certificate of its row; only accounts of inbound listed peers that can be dialed back are dialed or written to, each before it counts as updated |
| `RotationLaws.AllTrustKnown` | internal/ops/rekey.go:135-143 | every account trusts only keys that a rotation retires when each key of ca/ and the archives is readable and none is staged |
| `RotationLaws.EachPeerOnce` | internal/ops/rekey.go:153-215 | after the swap each listed peer is updated with a certificate of the new key for its own key, listing its name and groups, or failed with its row as before, never both; one that is never pushed to is updated; revoked and excluded rows stay |
| `RotationLaws.SwapKeepsAll` | internal/ops/rekey.go:245-265 | the new key is active, the old one archived under a name that was free, every other directory as it was |
| `RotationLaws.PushedTrustsOnlyNew` | internal/ops/rekey.go:135-143 | a pushed peer whose trust was among the readable keys trusts the new key and no other key of this instance |
| `RotationLaws.PushedClosedIff` | internal/ops/rekey.go:135-143 | at an account of its own it does so if and only if its trust was among them |
| `RotationLaws.PushHeals` | internal/ops/rekey.go:383-413 | a pushed peer has exactly one line of this instance, on the new key and the allowed groups, every other line in order, and the stored certificate |
| `RotationLaws.RevokedShutOut` | internal/ops/revoke.go:100-134 | no such peer accepts any certificate ever issued to a name the rotation did not take |
| `RotationLaws.ActiveIffSwapped` | internal/ops/rekey.go:245-265 | however a rotation ends, its key is the active one if and only if it swapped |
| `RotationLaws.RotationInStep` | internal/ops/rekey.go:383-413 | a push brings its peer's trust line in step with the database |
| `RotationLaws.RotatedFleetAgrees` | internal/db/peers_hosts.go:19-55 | after a rotation an updated peer is accepted by exactly those pushed peers that ReachableHosts lists for it |
| `RotationLaws.ManagerAccepted` | internal/ops/selfguard.go:46-78 | at any point of any run the manager's stored certificate carries its principal once, and every peer account that trusts its issuer accepts it |
| `RotationLaws.DanglesIff` | internal/ops/rekey.go:235-238 | after a clean ending the manager's own file names a key held nowhere if and only if its first local write landed, the second did not, and ca.next is gone |
| `RotationLaws.TornRekey` | internal/ops/rekey.go:455-471 | an execution that ends so |
| `Revoke.RevokeRekey` | internal/ops/revoke.go:100-134 | the outcome is the rotation's over the flagged database, the row goes only after a swap that was recorded; the CA was rotated if and only if it swapped, success or not, and then every pushed peer whose trust was known shuts the name out; only other peers are dialed or written to |
| `Revoke.UnrecordedRevoke` | internal/ops/revoke.go:125-127 | an execution that fails with the CA rotated, at recording the version |
| `Revoke.UndeletedRevoke` | internal/ops/revoke.go:129-131 | one that fails at deleting the row |
| `Revoke.FlaggedNotTaken` | internal/ops/rekey.go:72-78 | a flagged peer is not among those a rotation takes |
| `Revoke.ClearPeer` | internal/sshpush/client.go:296-347 | clearing strips the config block and the lines for the keys, removes the private key and the certificate, and touches no other account |
| `Revoke.RevokeClear` | internal/ops/revoke.go:50-98 | the row goes only once the inbound peer was dialed and cleared of every readable key; when nothing fails it does |
| `Revoke.ClearedAcceptsNothing` | internal/ops/revoke.go:136-143 | a cleared peer accepts no certificate of this instance when all it trusted of it was readable |
| `Revoke.RevokePeer` | internal/ops/revoke.go:32-48 | the manager's own row is refused; success with rekey shuts the name out, without it clears the peer, and bumps the revision; when nothing fails it succeeds if and only if the peer exists, is not the manager's and, without rekey, is inbound |
| `Revoke.RemovePeer` | internal/ops/remove.go:17-37 | the row goes, nobody is dialed and no file changes; when no statement fails it goes if and only if it is there and not the manager's |
| `Revoke.MakeClient` | internal/ops/peeredit.go:45-130 | the row becomes a client's only after the strip landed, and then the peer trusts all it trusted but the active key; a client already, or a peer that cannot be dialed back, is left alone; when nothing fails it succeeds if and only if the peer is a client or can be dialed back and has an account |
| `Revoke.ClientClosedIff` | internal/ops/peeredit.go:99-108 | a converted peer is closed to this instance if and only if it trusted no key of it but the active one |
| `Groups.SignAndStorePeerCert` | internal/ops/group.go:439-460 | the stored certificate lists the groups given, and the manager principal on the manager's own row |
| `Groups.PushGroupCascade` | internal/ops/group.go:462-507 | a push writes the certificate, rewrites the principals and splices the config of one account, and changes no trust |
| `Groups.RenameLoop` | internal/ops/group.go:119-167 | every live member has a certificate for the renamed groups, every live inbound peer that can be dialed back is pushed, dialed first, or a straggler, and no other account or host is touched |
| `Groups.RenamePeer` | internal/ops/group.go:119-167 | per peer: a live member gets its certificate, and a revoked peer, a client or a peer that cannot be dialed back is neither dialed nor written to |
| `Groups.GroupRename` | internal/ops/group.go:49-176 | a completed rename is the database rename with new certificates for the live members, an unfinished one the rename with some of them; success means every live inbound peer that can be dialed back was dialed and pushed to, unless the old name came with blanks: then only the database is renamed; no other account or host is touched; the revision is bumped before anybody is dialed; when nothing fails everybody is reached but who shares an account or whose line cannot be rewritten; the manager's name is refused |
| `Groups.UntrimmedOutOfStep` | internal/db/groups.go:200-202 | after such a rename certificates are in step if and only if the group had no live member but the manager |
| `Groups.RenameInStep` | internal/ops/group.go:119-167 | a peer in step that the rename reached is in step with the renamed database |
| `Groups.RemovedOrdered` | internal/ops/group.go:521-529 | removing a name from an ordered list orders the smaller set |
| `GroupDeletion.GroupDelete` | internal/ops/group.go:178-310 | the group row goes only when every live affected inbound peer that can be dialed back was dialed and pushed to in this call, and members then hold certificates without the group; no other account or host is touched; an unfinished delete keeps the row and took the group off some peers only; when nothing fails it goes through unless somebody shares an account or has a line that cannot be rewritten |
| `GroupDeletion.DeleteShare` | internal/ops/group.go:243-299 | per peer: the group comes off, and a client or a peer that cannot be dialed back is neither dialed nor written to |
| `GroupDeletion.ListAfter` | internal/ops/group.go:254-280 | a peer's list without the group, taken in the middle of the loop, is its list once the group is deleted |
| `PeerUpdate.UpdatePeer` | internal/ops/update.go:15-125 | only with both database writes does an update complete; success means both, the revision bumped and, for an inbound peer that can be dialed back, certificate and config delivered after a dial; any other peer is neither dialed nor written to; when nothing fails it succeeds if and only if the peer is live, not the manager's, and the groups exist, each once |
| `PeerUpdate.SetPeerAllowedGroups` | internal/ops/group.go:312-394 | the allowed set becomes the list and the revision is bumped, and the principals of an inbound peer that can be dialed back are rewritten to it after a dial; any other peer is neither dialed nor written to; when nothing fails it succeeds if and only if the peer exists, no group is repeated, and where it is pushed the line can be rewritten |
| `PeerUpdate.AllowInStep` | internal/ops/group.go:367-384 | an edit that reached a peer in step leaves its trust line in step with the new list |
| `CertLists.CompletesKeeps` | internal/ops/enroll.go:148-156 | mint, redeem, update, rename, delete and rotation, once complete, each keep every stored and staged certificate listing exactly its name and groups |
| `CertLists.RunKeepsInStep` | internal/ops/selfguard.go:46-78 | so does every sequence of them |
| `CertLists.EndedCompletes` | internal/ops/rekey.go:153-242 | a rotation is such an operation however it ends |
| `CertLists.HalfUpdateOutOfStep` | internal/ops/update.go:72-77 | an update stopped between its two writes is out of step if and only if the groups changed in more than the peer's own name |
| `Enroll.Defaults` | internal/ops/enroll.go:102-135 | the branches compute the defaulting table, and there are groups |
| `Enroll.MintEnroll` | internal/ops/enroll.go:58-267 | success commits one transaction: for a known peer its other pending tokens go and the staged row has, field by field, the options given or else what the peer has, with a certificate and bundle for exactly these; for a new name its row, groups, allowed set and a plain token; failure changes no row; when nothing fails it succeeds if and only if the options fit the database |
| `Enroll.MintRedeemAgree` | internal/ops/enroll.go:120-135 | with inbound flag and allowed set left alone, the bundle's line lists exactly the manager and what the redeem leaves allowed; a client's bundle has no line and ends with nothing allowed |
| `Enroll.BareReenroll` | internal/ops/enroll.go:102-135 | minting with no option set and redeeming keeps a peer's inbound flag, groups, user, address and, if and only if it is inbound or allows nobody, its allowed set |
| `Enroll.MintNewAgrees` | internal/ops/enroll.go:230-248 | for a new name that holds from the mint on |
| `Enroll.BundleHostsAfter` | internal/ops/enroll.go:170-173 | the hosts baked into a bundle are those ReachableHosts lists right after the mint of a new name, or the redeem of a re-enroll |
| `Enroll.RedeemEnroll` | internal/httpserver/server.go:271-346 | a redeem needs a user, the preset one if there is one; it commits, records that user, and writes the remote address if and only if none is known; otherwise nothing changes; when no statement fails such a redeem hands out the bundle |
| `Install.UserFileEntries` | internal/peerfiles/usertar.go:39-62 | an inbound bundle ships the trust line, a client's the bare key |
| `Install.InstalledLines` | internal/httpserver/server.go:193-220 | where the line arrives as a line of its own, it is there afterwards and every line that does not carry its key stays in order |
| `Install.Survives` | internal/httpserver/server.go:193-220 | any other line survives if and only if it does not carry the third field, or the bundle's line was there already |
| `Install.InstallConverges` | internal/httpserver/server.go:198-220 | an install that had to write leaves exactly one line for the key, the bundle's |
| `Install.InstallTwice` | internal/httpserver/server.go:198-220 | installing again changes nothing if and only if the first append arrived as a line of its own; otherwise the second install takes the user's last line away |
| `Install.ClientInstallStrips` | internal/httpserver/server.go:221-234 | a client's install leaves no line for the key |
| `Install.AppendNeedsNewline` | internal/httpserver/server.go:212-214 | an appended line arrives if and only if the file ended its last line |
| `Install.ThirdField` | internal/httpserver/server.go:198-210 | the third field of the line is the key if and only if no listed name has a blank in it |
| `Install.SparesIff` | internal/httpserver/server.go:215-217 | an install spares every line without the key if and only if no listed name has a blank in it |
| `Install.InstallBundle` | internal/httpserver/server.go:177-237 | installing a bundle, at any time and again, is a legal step of the fleet with exactly these three files |
| `PassSession.SendsFreeIff` | internal/tui/action.go:234-281 | for either prompt, a send finds its channel open and empty in every interleaving if and only if at most one goroutine prompts |
| `PassSession.SendNeverBlocks` | internal/tui/action.go:234-256 | in every interleaving of at most one worker a send finds its channel open and empty |
| `PassSession.LocksMoveIff` | internal/tui/action.go:133-200 | whoever holds the mutex can take its next step in every interleaving if and only if at most one goroutine prompts |
| `PassSession.CloseFreesIff` | internal/tui/action.go:124-167 | close leaves nobody parked without an answer, in every interleaving, if and only if at most one goroutine prompts |
| `PassSession.ClosedFreesWorker` | internal/tui/action.go:124-167 | once close had its turn a parked worker has its answer, which is acceptance exactly if the event loop accepted its own request and a cancellation otherwise, and no prompt is on its way to park |
| `PassSession.ArmFreesIff` | internal/tui/action.go:184-200 | arming a new action leaves no host-key confirm parked without an answer, in every interleaving, if and only if at most one goroutine confirms |
| `PassSession.ArmedFreesWorker` | internal/tui/action.go:184-200 | that answer is a rejection unless the event loop accepted |
| `PassSession.ReceivesAnswer` | internal/tui/action.go:234-281 | with any number of workers, a parked one receives acceptance exactly if the event loop accepted its own request, and otherwise a cancellation |
| `PassSession.NothingAcceptedUnasked` | internal/tui/action.go:133-200 | no reply and no leaving worker carries an acceptance that the event loop did not give |
| `PassSession.CanBeAnswered` | internal/tui/action.go:78-86 | a parked prompt without a reply can always be answered, and leaves with that answer |
| `PassSession.ReadersRetire` | internal/tui/action.go:124-200 | once arm or close is through, every request channel but the one in use is closed, so that no reader waits on it |
| `PassSession.LatePromptNeverParks` | internal/tui/action.go:245-250 | a prompt made after that never parks |
| `PassSession.TwoCanBlock` | internal/tui/action.go:266-280 | with two or more prompts the second send can find the channel full under the mutex |
| `PassSession.TwoCanStrand` | internal/tui/action.go:266-280 | with two or more prompts one's deferred clear can hide the other from close, which stays parked |
| `PassSession.TwoCanMiss` | internal/tui/action.go:177-192 | and from arm |
| `Migration.FullIsFinal` | internal/db/schema.go:76-125 | an uninterrupted migration leads to one database, whatever was there of its columns |
| `Migration.Migrated` | internal/db/schema.go:76-356 | that database has version 9, every column that the program uses, the rows and retained values it had, a first active CA version if it had peers and none, and the values of the next row |
| `Migration.NewColumns` | internal/db/schema.go:125-298 | in old rows an added column holds: inbound and push_reachable 1, certificate null, pull token empty, staged key, certificate and allowed set null, staged inbound 1, staged serial 0; below version 6 user and address empty, tarball null |
| `Migration.Resume` | internal/db/schema.go:76-125 | stopped after any statement and started over, it leads to the same database |
| `Migration.ResumeMany` | internal/db/schema.go:76-125 | so it does after any number of stopped opens |
| `Migration.NoRebuild` | internal/db/schema.go:82-103 | once version 6 is recorded no sequence of opens, finished or stopped anywhere, drops a table, a column, a row or a value, or goes back below version 6 |
| `Migration.ValuesKept` | internal/db/schema.go:299-356 | every row survives with every value, below version 6 with those of the columns that the rebuilt tables keep |
| `Migration.DbFile.Migrate` | internal/db/schema.go:76-125 | wherever it stops, a later full migration leads where one would have led, and a completed one keeps what `Migration.Migrated` promises; it completes when no statement fails |

## Left out

- Cryptography, PEM files, passphrases and certificate encoding: keys are abstract, a certificate is issuer, serial, key id, principals and subject; a new CA key is one that no file knows.
- SSH transport, host keys, time-outs, TLS, HTTP routing and JSON: a dial succeeds or fails, a remote write succeeds, fails, or fails after landing.
- SQLite itself: all-or-nothing transactions over maps; file modes, events, warnings and time stamps.
- The rest of the install script and the client command, archive packing, QR codes, systemd units, flag parsing, and the terminal UI but for the prompt handoff.
- Two manager processes at once, other than the transactions of `Tables.RunKeepsSound`; and edits of peer files in the middle of one operation.
- Operator recovery by hand, such as removing `ca.next`.
- fleet_rev as a staleness signal: a successful operation bumps it, but what a client makes of it is not modelled.
- Rotation.Rekey: the `ca` version rows written after the swap are only a step that may fail; hostname must be empty or the name persisted at init; the time stamp's uniqueness is not assumed; a trust write that was issued and failed may or may not have landed.
- RotationLaws.PushHeals: for a peer that shares its account with no other listed peer, and whose lines of this instance are for readable keys; the exact condition is `RotationLaws.PushedClosedIff`.
- Revoke.RevokePeer: pushed peers shut the name out if what they trusted of this instance was readable; a straggler is not pushed and keeps its trust.
- Revoke.MakeClient: the closing health check only warns and is not modelled.
- Install.InstallBundle: requires that a trust line glued to an unfinished last line (`Install.AppendNeedsNewline`, `Install.InstallTwice`) is not read as a line of this instance, which only a file that ends in bare options would make it.
- Install.InstallConverges: assumes that a line the parser reads as the key's carries the key's blob.
- Enroll.MintEnroll: whether the dial address is valid is a choice of the environment; the pull token and the configuration file in the bundle are not modelled beyond the peer row.
- Enroll.RedeemEnroll: the user name's syntax check and the reachability probe are not modelled.
- GroupDeletion.GroupDelete: its promise about stragglers is per call; a retry finds the memberships already gone.
- Database.DB.UpdatePeerRow: one method for the single-column setters of peers.
- Migration.DbFile.Migrate: the time stamp of a backfilled CA row is left blank, column order is not modelled, and a schema_version that is not a number is not modelled.
- PassSession.SendsFreeIff: the passphrase and the host-key prompt are one machine each; the mutex and the closed latch they share are not joined into one state.
