/** Taking a peer out of the fleet, and turning one into a client. */
module Revoke {
  import opened Wrappers
  import opened Text
  import opened Names
  import opened Principals
  import opened AuthorizedKeys
  import opened TrustLaws
  import opened Acceptance
  import opened SshConfig
  import opened Tables
  import opened Database
  import opened Reachability
  import opened Fleet
  import opened Manager
  import opened Fate
  import opened RekeyPeers
  import opened Rotation
  import opened RotationLaws
  import F = Filters

  // ---- Revoking by rotation ----

  /** No certificate ever issued to name is accepted by a peer that the rotation pushed to and whose trust it knew. */
  ghost predicate ShutOut(codec: Codec, w: World, w': World, name: string, ps: seq<Peer>, t: Tally) {
    forall p, cert ::
      p in ps && p.name in t.pushed && TrustKnown(codec, w, Home(p)) && cert in w'.issued && cert.keyId == name ==>
      Home(p) in w'.hosts && !Accepts(codec, w'.hosts[Home(p)].keys, cert)
  }

  lemma AllShutOut(codec: Codec, key: string, self: string, w: World, w': World, k: PublicKey, end: Ending,
                   name: string)
    requires Inv(codec, self, w) && k !in w.minted && Rotated(codec, key, self, w, w', {}, k, end)
    requires name != self && name in w.db.peers && w.db.peers[name].revoked
    ensures ShutOut(codec, w, w', name, Others(w.db, self, {}), end.tally)
  {
    forall p, cert | p in Others(w.db, self, {}) && p.name in end.tally.pushed && TrustKnown(codec, w, Home(p))
                     && cert in w'.issued && cert.keyId == name
      ensures Home(p) in w'.hosts && !Accepts(codec, w'.hosts[Home(p)].keys, cert)
    {
      RevokedShutOut(codec, key, self, w, w', {}, k, end, name, p, cert);
    }
  }

  /** The database once the peer is flagged. */
  function Flagged(t: Tables, name: string): Tables
    requires name in t.peers
  {
    PutRow(t, name, t.peers[name].(revoked := true))
  }

  /** What a revocation leaves once the peer is flagged: w is the flagged world, rotated the one after the rotation. */
  ghost predicate Revoked(codec: Codec, key: string, self: string, w: World, rotated: World, w': World, name: string,
                          k: PublicKey,
                          end: Ending, ok: bool) {
    && Ended(codec, key, self, w, rotated, {}, k, end)
    && w' == rotated.(db := if ok then PeerDeleted(rotated.db, name) else rotated.db)
    && (ok ==> end.Swapped? && end.recorded)
    && (HasKey(w'.dirs, "ca", k) <==> end.Swapped?)
    && (end.Swapped? ==> ShutOut(codec, w, w', name, Others(w.db, self, {}), end.tally))
    && (name in w'.db.peers <==> !ok)
  }

  /**
   revokeRekey: flag, rotate, delete. A failed call has rotated the CA exactly if the renames went through, and then
   it was recording the version or deleting the row that failed; the pushed peers shut the name out all the same. The
   revoked peer is not among those dialed or written to.
   */
  method RevokeRekey(d: Deps, name: string, hostname: string, key: PublicKey, stamp: string)
    returns (ok: bool, ghost ended: Option<Ending>, ghost rotated: World)
    requires d.Valid() && Fresh(d.codec, d.Now(), key) && name != d.selfName
             && (hostname == "" || hostname == d.selfName)
    modifies d`dirs, d`hosts, d`selfKeys, d`selfCert, d`rewrites, d`writes, d`dialed, d`minted, d`issued, d`log, d.db
    ensures d.Valid()
    ensures ended.None? ==> !ok && d.Now() == old(d.Now()) && d.AtDesk() == old(d.AtDesk())
    ensures ended.Some? ==> name in old(d.db.rows).peers
    ensures ended.Some? ==>
              Revoked(d.codec, d.instanceKey, d.selfName, old(d.Now()).(db := Flagged(old(d.db.rows), name)), rotated,
                      d.Now(),
                                    name, key, ended.value, ok)
    ensures ended.Some? ==>
              Visits(PeerSet(Others(Flagged(old(d.db.rows), name), d.selfName, {})), old(d.hosts), d.hosts,
                                   old(d.dialed), d.dialed, Updated(ended.value))
    ensures ended.Some? ==>
              Left(d.codec, d.fate, old(d.AtDesk()), d.AtDesk(), RetiredKeys(old(d.Now())), key, ended.value)
    ensures Foreseen(d.fate) && Ready(old(d.dirs)) && name in old(d.db.rows).peers ==>
              ended.Some? && Chosen(d.fate, ended.value)
    ensures Sunk(d.fate, RowRemoval) ==> !ok
    ensures Sure(d.fate, RowRemoval) && ended.Some? && ended.value.Swapped? && ended.value.recorded ==> ok
  {
    rotated := d.Now();
    ghost var w0 := d.Now();
    var flagged := d.SetPeerRevoked(name);
    if !flagged {
      return false, None, rotated;
    }
    ghost var w := d.Now();
    d.Sane();
    ghost var end;
    ok, end := Rekey(d, hostname, {}, key, stamp);
    rotated := d.Now();
    ended := Some(end);
    RevokedSoFar(d.codec, d.instanceKey, d.selfName, w, rotated, name, key, end);
    if ok {
      ok := d.DeletePeer(name);
    }
  }

  /** The manager's statements, the unlocking and the key generation are known to work. */
  predicate Foreseen(fate: Fates) {
    Sure(fate, Statement) && Sure(fate, Unlocking) && Sure(fate, KeyGeneration)
  }

  lemma RevokedSoFar(codec: Codec, key: string, self: string, w: World, rotated: World, name: string, k: PublicKey,
                     end: Ending)
    requires Inv(codec, self, w) && k !in w.minted && Ended(codec, key, self, w, rotated, {}, k, end)
    requires name != self && name in w.db.peers && w.db.peers[name].revoked
    ensures Revoked(codec, key, self, w, rotated, rotated, name, k, end, false)
  {
    ActiveIffSwapped(codec, key, self, w, rotated, {}, k, end);
    EndedKeeps(codec, key, self, w, rotated, {}, k, end);
    if end.Swapped? {
      AllShutOut(codec, key, self, w, rotated, k, end, name);
    }
  }

  /** It happens that a failed revocation has rotated the CA: everything works but recording the new version. */
  method UnrecordedRevoke(d: Deps, name: string, key: PublicKey, stamp: string) returns (ok: bool)
    requires d.Valid() && Fresh(d.codec, d.Now(), key) && Ready(d.dirs) && name in d.db.rows.peers && name != d.selfName
    requires Foreseen(d.fate) && Smooth(d.fate) && Sunk(d.fate, Recording)
    modifies d`dirs, d`hosts, d`selfKeys, d`selfCert, d`rewrites, d`writes, d`dialed, d`minted, d`issued, d`log, d.db
    ensures d.Valid() && !ok && HasKey(d.dirs, "ca", key) && name in d.db.rows.peers
  {
    ghost var ended, rotated;
    ok, ended, rotated := RevokeRekey(d, name, "", key, stamp);
  }

  /** So does a failure to delete the row. */
  method UndeletedRevoke(d: Deps, name: string, key: PublicKey, stamp: string) returns (ok: bool)
    requires d.Valid() && Fresh(d.codec, d.Now(), key) && Ready(d.dirs) && name in d.db.rows.peers && name != d.selfName
    requires Foreseen(d.fate) && Smooth(d.fate) && Sunk(d.fate, RowRemoval)
    modifies d`dirs, d`hosts, d`selfKeys, d`selfCert, d`rewrites, d`writes, d`dialed, d`minted, d`issued, d`log, d.db
    ensures d.Valid() && !ok && HasKey(d.dirs, "ca", key) && name in d.db.rows.peers
  {
    ghost var ended, rotated;
    ok, ended, rotated := RevokeRekey(d, name, "", key, stamp);
  }

  /** However a rotation ends, no peer row comes or goes. */
  lemma EndedKeeps(codec: Codec, key: string, self: string, w: World, w': World,
                   exclude: set<string>, k: PublicKey, end: Ending)
    requires Ended(codec, key, self, w, w', exclude, k, end)
    ensures w'.db.peers.Keys == w.db.peers.Keys
  {
  }

  /** A flagged peer is not taken by the rotation. */
  lemma FlaggedNotTaken(t: Tables, name: string, self: string)
    requires name in t.peers
    ensures name !in Named(Others(Flagged(t, name), self, {}))
    ensures forall p :: p in Others(Flagged(t, name), self, {}) ==>
              p.name != name && p.name in t.peers && p.row == t.peers[p.name]
  {
    OthersAre(Flagged(t, name), self, {});
    assert forall p :: p in Others(Flagged(t, name), self, {}) ==> p.name in Named(Others(Flagged(t, name), self, {}));
  }

  // ---- Clearing a peer ----

  /** What clearing leaves of a peer's files. */
  ghost predicate Cleared(codec: Codec, key: string, f: Files, f': Files, keys: set<PublicKey>) {
    && f'.config == StripBlock(f.config, key) && f'.cert == None && !f'.identity
    && (f'.keys == f.keys || f'.keys == Stripped(codec, f.keys, keys))
    && TrustedKeys(codec, f'.keys) == TrustedKeys(codec, f.keys) - keys
  }

  lemma StripShrinks(codec: Codec, w: World, a: Account, keys: set<PublicKey>)
    ensures MayWrite(codec, w, a, Stripped(codec, FilesAt(w.hosts, a).keys, keys))
  {
    var t := FilesAt(w.hosts, a).keys;
    StrippedLines(codec, t, keys);
    F.Members(Lines(t), Trusting(codec, keys));
  }

  lemma PutAt(hosts: map<Account, Files>, a: Account, f: Files)
    ensures OnlyAt(hosts, hosts[a := f], a) && FilesAt(hosts[a := f], a) == f
  {
  }

  /** Client.ClearPeer: the config block, the trust lines, the identity files. A failure stops it in between. */
  method ClearPeer(d: Deps, a: Account, caPubs: seq<PublicKey>) returns (ok: bool)
    requires d.Valid()
    modifies d`hosts, d`log, d`writes
    ensures d.Valid() && OnlyAt(old(d.hosts), d.hosts, a)
    ensures ok ==> Cleared(d.codec, d.instanceKey, FilesAt(old(d.hosts), a), FilesAt(d.hosts, a), SetOf(caPubs))
    ensures Sure(d.fate, Remote) ==> ok
  {
    ok := ClearConfig(d, a);
    if !ok {
      return false;
    }
    ok := ClearKeys(d, a, caPubs);
    if !ok {
      return false;
    }
    ok := RemoveOwn(d, a);
  }

  /** Its last step: the private key, then the certificate. */
  method RemoveOwn(d: Deps, a: Account) returns (ok: bool)
    requires d.Valid()
    modifies d`hosts, d`log
    ensures d.Valid() && OnlyAt(old(d.hosts), d.hosts, a)
    ensures ok ==> FilesAt(d.hosts, a) == FilesAt(old(d.hosts), a).(identity := false, cert := None)
    ensures Sure(d.fate, Remote) ==> ok
  {
    ghost var hosts := d.hosts;
    ok := d.RemoveIdentity(a);
    PutAt(hosts, a, FilesAt(hosts, a).(identity := false));
    if !ok {
      return false;
    }
    hosts := d.hosts;
    ok := d.RemoveCert(a);
    PutAt(hosts, a, FilesAt(hosts, a).(cert := None));
  }

  /** Its first step: strip the config block, writing only when that changes the file. */
  method ClearConfig(d: Deps, a: Account) returns (ok: bool)
    requires d.Valid()
    modifies d`hosts, d`log, d`writes
    ensures d.Valid() && OnlyAt(old(d.hosts), d.hosts, a)
    ensures ok ==> var f := FilesAt(old(d.hosts), a);
            FilesAt(d.hosts, a) == f.(config := StripBlock(f.config, d.instanceKey))
    ensures Remote in d.fate ==> ok == d.fate[Remote]
  {
    ok := Try(d.fate, Remote);
    if !ok {
      return false;
    }
    var cfg := FilesAt(d.hosts, a).config;
    var stripped := StripBlock(cfg, d.instanceKey);
    if stripped != cfg {
      ghost var hosts := d.hosts;
      ok := d.WriteConfig(a, stripped);
      PutAt(hosts, a, FilesAt(hosts, a).(config := stripped));
    }
  }

  /** Its second step: strip the trust lines, writing only when that changes the file. */
  method ClearKeys(d: Deps, a: Account, caPubs: seq<PublicKey>) returns (ok: bool)
    requires d.Valid()
    modifies d`hosts, d`log, d`writes
    ensures d.Valid() && OnlyAt(old(d.hosts), d.hosts, a)
    ensures ok ==> var f, f' := FilesAt(old(d.hosts), a), FilesAt(d.hosts, a);
                   f' == f.(keys := f'.keys)
                     && (f'.keys == f.keys || f'.keys == Stripped(d.codec, f.keys, SetOf(caPubs)))
                   && TrustedKeys(d.codec, f'.keys) == TrustedKeys(d.codec, f.keys) - SetOf(caPubs)
    ensures Remote in d.fate ==> ok == d.fate[Remote]
    ensures var f := FilesAt(old(d.hosts), a); Stripped(d.codec, f.keys, SetOf(caPubs)) == f.keys ==>
              d.writes == old(d.writes)
  {
    ok := Try(d.fate, Remote);
    if !ok {
      return false;
    }
    var ak := FilesAt(d.hosts, a).keys;
    var stripped := StripCALine(d.codec, ak, caPubs);
    StripShrinks(d.codec, d.Now(), a, SetOf(caPubs));
    StrippedKeys(d.codec, ak, SetOf(caPubs));
    if stripped != ak {
      ghost var hosts := d.hosts;
      ok := d.WriteKeys(a, stripped);
      PutAt(hosts, a, FilesAt(hosts, a).(keys := stripped));
    }
  }

  /** revokeClear: strip certhold off a reachable inbound peer, then forget it. */
  method RevokeClear(d: Deps, p: Peer) returns (ok: bool)
    requires d.Valid() && p.name in d.db.rows.peers && p.row == d.db.rows.peers[p.name] && p.name != d.selfName
    modifies d`hosts, d`dialed, d`writes, d`log, d.db
    ensures d.Valid() && OnlyAt(old(d.hosts), d.hosts, Home(p))
    ensures p.name !in d.db.rows.peers ==>
              && p.row.inbound && SetOfReadable(d.dirs, RetiredKeys(old(d.Now())))
              && Cleared(d.codec, d.instanceKey, FilesAt(old(d.hosts), Home(p)), FilesAt(d.hosts, Home(p)),
                         RetiredKeys(old(d.Now())))
    ensures p.name in d.db.rows.peers ==> d.db.rows == old(d.db.rows) && !ok
    ensures ok ==> d.db.rows.rev == old(d.db.rows).rev + 1
    ensures d.dialed == old(d.dialed) + (if d.dialed == old(d.dialed) then [] else [Home(p).host])
    ensures d.dialed == old(d.dialed) ==> d.hosts == old(d.hosts) && d.db.rows == old(d.db.rows)
    ensures !p.row.inbound ==> d.dialed == old(d.dialed)
    ensures CanClear(d.fate, d.dirs) && p.row.inbound ==> ok
    ensures Sunk(d.fate, Dialing) ==> !ok && d.hosts == old(d.hosts) && d.db.rows == old(d.db.rows)
  {
    if !p.row.inbound {
      return false;
    }
    var caPubs := d.InstanceCAPubKeys();
    if caPubs.Err? {
      return false;
    }
    RetiredNow(d, caPubs.value);
    ok := d.Dial(DialHost(p.name, p.row));
    if !ok {
      return false;
    }
    ok := ClearPeer(d, Home(p), caPubs.value);
    if !ok {
      return false;
    }
    ok := Forget(d, p.name);
  }

  /** A peer can be cleared and forgotten: nothing fails, and the active key can be read. */
  predicate CanClear(fate: Fates, dirs: map<string, Slot>) {
    Sure(fate, Statement) && Sure(fate, RowRemoval) && AllAnswer(fate) && CanSign(dirs)
  }

  lemma RetiredNow(d: Deps, keys: seq<PublicKey>)
    requires d.Valid() && forall k :: k in keys <==> Readable(d.dirs, k)
    ensures SetOf(keys) == RetiredKeys(d.Now()) && SetOfReadable(d.dirs, RetiredKeys(d.Now()))
  {
    d.Sane();
    RetiredAre(d.codec, d.selfName, d.Now(), keys);
    assert forall k :: k in SetOf(keys) <==> k in keys;
  }

  /** Deletes the row and bumps the revision. */
  method Forget(d: Deps, name: string) returns (ok: bool)
    requires d.Valid() && name != d.selfName
    modifies d`log, d.db
    ensures d.Valid()
    ensures name in d.db.rows.peers || name !in old(d.db.rows).peers ==> !ok && d.db.rows == old(d.db.rows)
    ensures d.db.rows == old(d.db.rows) || d.db.rows == PeerDeleted(old(d.db.rows), name).(rev := d.db.rows.rev)
    ensures ok ==> d.db.rows == PeerDeleted(old(d.db.rows), name).(rev := old(d.db.rows).rev + 1)
    ensures Sure(d.fate, Statement) && Sure(d.fate, RowRemoval) && name in old(d.db.rows).peers ==> ok
  {
    ok := d.DeletePeer(name);
    if !ok {
      return false;
    }
    ok := d.BumpFleetRev();
  }

  ghost predicate SetOfReadable(dirs: map<string, Slot>, keys: set<PublicKey>) {
    forall k :: k in keys <==> Readable(dirs, k)
  }

  /** A cleared account accepts no certificate of this instance, if all it trusted of it was known. */
  lemma ClearedAcceptsNothing(codec: Codec, key: string, self: string, w: World, a: Account, f': Files, cert: Cert)
    requires Inv(codec, self, w) && TrustKnown(codec, w, a)
    requires Cleared(codec, key, FilesAt(w.hosts, a), f', RetiredKeys(w)) && cert in w.issued
    ensures !Accepts(codec, f'.keys, cert)
  {
    NoTrustNoAccess(codec, f'.keys, cert);
  }

  /** guardNotSelfPeer. */
  method GuardNotSelfPeer(d: Deps, name: string, hostname: string) returns (ok: bool)
    requires hostname == "" || hostname == d.selfName
    ensures ok <==> name != d.selfName
  {
    var self := if hostname != "" then hostname else d.selfName;
    return name != self;
  }

  /**
   ops.RevokePeer. On success the row is gone; with rekey every pushed peer whose trust was known shuts the name out,
   without it the peer's own files are cleared of certhold.
   */
  method RevokePeer(d: Deps, name: string, hostname: string, rekey: bool, key: PublicKey, stamp: string)
    returns (ok: bool, ghost ended: Option<Ending>)
    requires d.Valid() && Fresh(d.codec, d.Now(), key) && (hostname == "" || hostname == d.selfName)
    modifies d`dirs, d`hosts, d`selfKeys, d`selfCert, d`rewrites, d`writes, d`dialed, d`minted, d`issued, d`log, d.db
    ensures d.Valid()
    ensures name == d.selfName ==> !ok && d.Now() == old(d.Now())
    ensures ok ==> name in old(d.db.rows).peers && name !in d.db.rows.peers
    ensures ok ==> d.db.rows.rev == old(d.db.rows).rev + 1
    ensures !rekey && CanClear(d.fate, old(d.dirs)) ==>
              (ok <==> name != d.selfName && name in old(d.db.rows).peers && old(d.db.rows).peers[name].inbound)
    ensures rekey && Foreseen(d.fate) && Smooth(d.fate) && Sure(d.fate, Recording) && Sure(d.fate, RowRemoval)
            && Ready(old(d.dirs)) ==>
              (ok <==> name != d.selfName && name in old(d.db.rows).peers)
    ensures ok && rekey ==>
              && HasKey(d.dirs, "ca", key) && ended.Some? && ended.value.Swapped?
              && ShutOut(d.codec, old(d.Now()).(db := Flagged(old(d.db.rows), name)), d.Now(), name,
                         Others(Flagged(old(d.db.rows), name), d.selfName, {}), ended.value.tally)
    ensures ok && !rekey ==>
              var a := AccountOf(name, old(d.db.rows).peers[name]);
              Cleared(d.codec, d.instanceKey, FilesAt(old(d.hosts), a), FilesAt(d.hosts, a), RetiredKeys(old(d.Now())))
  {
    ended := None;
    ok := GuardNotSelfPeer(d, name, hostname);
    if !ok {
      return false, None;
    }
    ok := d.db.Exec();
    if !ok || name !in d.db.rows.peers {
      return false, None;
    }
    if rekey {
      ghost var rotated;
      ok, ended, rotated := RevokeRekey(d, name, hostname, key, stamp);
    } else {
      ok := RevokeClear(d, Peer(name, d.db.rows.peers[name]));
    }
  }

  /** ops.RemovePeer: the row goes, nobody is dialed, no file changes. */
  method RemovePeer(d: Deps, name: string) returns (ok: bool)
    requires d.Valid()
    modifies d`log, d.db
    ensures d.Valid()
    ensures name == d.selfName || name !in old(d.db.rows).peers ==> !ok && d.db.rows == old(d.db.rows)
    ensures d.db.rows == old(d.db.rows) || d.db.rows == PeerDeleted(old(d.db.rows), name).(rev := d.db.rows.rev)
    ensures ok ==> name !in d.db.rows.peers
    ensures ok ==> d.db.rows == PeerDeleted(old(d.db.rows), name).(rev := old(d.db.rows).rev + 1)
    ensures Sure(d.fate, Statement) && Sure(d.fate, RowRemoval) ==>
              (ok <==> name != d.selfName && name in old(d.db.rows).peers)
  {
    ok := GuardNotSelfPeer(d, name, "");
    if !ok {
      return false;
    }
    ok := Forget(d, name);
  }

  // ---- Making a client ----

  /**
   ops.MakeClient: strip the active key's line, then record the conversion. Until the strip landed the row stays
   inbound; once it has, of what the peer trusted only the active key is gone.
   */
  method MakeClient(d: Deps, name: string, hostname: string) returns (ok: bool)
    requires d.Valid() && (hostname == "" || hostname == d.selfName)
    modifies d`hosts, d`dialed, d`writes, d`log, d.db
    ensures d.Valid()
    ensures name == d.selfName ==> !ok && d.Now() == old(d.Now())
    ensures d.db.rows == old(d.db.rows) ||
            (name in old(d.db.rows).peers && d.db.rows == Converted(old(d.db.rows), name).(rev := d.db.rows.rev))
    ensures ok ==> name in d.db.rows.peers && !d.db.rows.peers[name].inbound
    ensures ok && old(d.db.rows).peers[name].inbound ==> d.db.rows.rev == old(d.db.rows).rev + 1
    ensures CanClear(d.fate, d.dirs) && name != d.selfName && name in old(d.db.rows).peers ==>
              var row := old(d.db.rows).peers[name];
              ok <==> !row.inbound || (row.reachable && AccountOf(name, row) in old(d.hosts))
    ensures Sunk(d.fate, Dialing) ==> d.hosts == old(d.hosts) && d.db.rows == old(d.db.rows)
    ensures if name in old(d.db.rows).peers
            then Turn(name, old(d.db.rows).peers[name], "", old(d.hosts), d.hosts, old(d.dialed), d.dialed,
                      d.db.rows != old(d.db.rows) || (ok && old(d.db.rows).peers[name].inbound))
            else d.dialed == old(d.dialed)
    ensures if name in old(d.db.rows).peers
            then OnlyAt(old(d.hosts), d.hosts, AccountOf(name, old(d.db.rows).peers[name]))
            else d.hosts == old(d.hosts)
    ensures d.db.rows != old(d.db.rows) || (ok && old(d.db.rows).peers[name].inbound) ==>
              && name in old(d.db.rows).peers
              && Stripping(d.codec, old(d.Now()), d.Now(), AccountOf(name, old(d.db.rows).peers[name]))
  {
    ok := GuardNotSelfPeer(d, name, hostname);
    if !ok {
      return false;
    }
    ok := d.db.Exec();
    if !ok || name !in d.db.rows.peers {
      return false;
    }
    var row := d.db.rows.peers[name];
    if !row.inbound {
      return true;
    }
    if !row.reachable {
      return false;
    }
    ok := Convert(d, name, row);
    AccountTurn(name, row, old(d.hosts), d.hosts, old(d.dialed), d.dialed, d.db.rows != old(d.db.rows) || ok);
  }

  /** Its second half: dial, strip, and only then record. */
  method Convert(d: Deps, name: string, row: PeerRow) returns (ok: bool)
    requires d.Valid() && name in d.db.rows.peers && row == d.db.rows.peers[name]
    modifies d`hosts, d`dialed, d`writes, d`log, d.db
    ensures d.Valid()
    ensures d.db.rows == old(d.db.rows) || d.db.rows == Converted(old(d.db.rows), name).(rev := d.db.rows.rev)
    ensures ok ==> d.db.rows == Converted(old(d.db.rows), name).(rev := old(d.db.rows).rev + 1)
    ensures OnlyAt(old(d.hosts), d.hosts, AccountOf(name, row))
    ensures d.dialed == old(d.dialed) + [AccountOf(name, row).host]
    ensures CanClear(d.fate, d.dirs) && AccountOf(name, row) in old(d.hosts) ==> ok
    ensures Sunk(d.fate, Dialing) ==> d.hosts == old(d.hosts) && d.db.rows == old(d.db.rows)
    ensures ok || d.db.rows != old(d.db.rows) ==> Stripping(d.codec, old(d.Now()), d.Now(), AccountOf(name, row))
  {
    ok := d.Dial(DialHost(name, row));
    if !ok {
      return false;
    }
    ok := StripActive(d, AccountOf(name, row));
    if !ok {
      return false;
    }
    ok := d.SetPeerInbound(name, false);
    if !ok {
      return false;
    }
    ok := d.BumpFleetRev();
  }

  function Converted(t: Tables, name: string): Tables
    requires name in t.peers
  {
    PutRow(t, name, t.peers[name].(inbound := false))
  }

  /** The account trusts what it trusted, but for the active key; no other account changed. */
  ghost predicate Stripping(codec: Codec, w: World, w': World, a: Account) {
    && "ca" in w.dirs && w.dirs["ca"].Keyed? && a in w.hosts && a in w'.hosts
    && w'.hosts == w.hosts[a := w.hosts[a].(keys := Stripped(codec, w.hosts[a].keys, {w.dirs["ca"].key}))]
    && TrustedKeys(codec, w'.hosts[a].keys) == TrustedKeys(codec, w.hosts[a].keys) - {w.dirs["ca"].key}
  }

  method StripActive(d: Deps, a: Account) returns (ok: bool)
    requires d.Valid()
    modifies d`hosts, d`log, d`writes
    ensures d.Valid() && OnlyAt(old(d.hosts), d.hosts, a)
    ensures ok ==> Stripping(d.codec, old(d.Now()), d.Now(), a)
    ensures CanClear(d.fate, d.dirs) && a in old(d.hosts) ==> ok
  {
    if "ca" !in d.dirs || d.dirs["ca"].Partial? || !d.dirs["ca"].readable {
      return false;
    }
    var caPub := d.dirs["ca"].key;
    var existing := d.ReadKeys(a);
    if existing.None? {
      return false;
    }
    var stripped := StripCALine(d.codec, existing.value, [caPub]);
    assert SetOf([caPub]) == {caPub};
    StripShrinks(d.codec, d.Now(), a, {caPub});
    StrippedKeys(d.codec, existing.value, {caPub});
    ok := d.WriteKeys(a, stripped);
  }

  /**
   A converted peer still accepts the instance's certificates for the archived keys it trusted: it is closed to
   all of them exactly when it trusted no key but the active one.
   */
  lemma ClientClosedIff(codec: Codec, w: World, w': World, a: Account)
    requires Stripping(codec, w, w', a) && w'.minted == w.minted
    ensures TrustedKeys(codec, w'.hosts[a].keys) * w'.minted == {} <==>
            TrustedKeys(codec, w.hosts[a].keys) * w.minted <= {w.dirs["ca"].key}
  {
  }
}
