/** What a finished rotation means for the peers, for a revoked name, and for who reaches whom. */
module RotationLaws {
  import opened Wrappers
  import opened Text
  import opened Names
  import opened Principals
  import opened AuthorizedKeys
  import opened TrustLaws
  import opened PrincipalLaws
  import opened Acceptance
  import opened SshConfig
  import opened Tables
  import opened Reachability
  import opened Fleet
  import opened Manager
  import opened Fate
  import opened RekeyPeers
  import opened Rotation
  import F = Filters

  /** Every CA directory the manager keeps has a readable public key. */
  ghost predicate AllReadable(dirs: map<string, Slot>) {
    forall k :: Kept(dirs, k) ==> Readable(dirs, k)
  }

  /** What an account trusts of this instance is among the keys a rotation retires. */
  ghost predicate TrustKnown(codec: Codec, w: World, a: Account) {
    TrustedKeys(codec, FilesAt(w.hosts, a).keys) * w.minted <= RetiredKeys(w)
  }

  /** So it is for every account when each kept key is readable and none is staged. */
  lemma AllTrustKnown(codec: Codec, self: string, w: World, a: Account)
    requires Inv(codec, self, w) && AllReadable(w.dirs) && "ca.next" !in w.dirs
    ensures TrustKnown(codec, w, a)
  {
    NoLines(codec);
    forall k | k in TrustedKeys(codec, FilesAt(w.hosts, a).keys) && k in w.minted
      ensures k in RetiredKeys(w)
    {
      assert Held(w.dirs, k);
    }
  }

  /** A rotation that swapped. */
  ghost predicate Rotated(codec: Codec, key: string, self: string, w: World, w': World,
                          exclude: set<string>, k: PublicKey, end: Ending) {
    end.Swapped? && Ended(codec, key, self, w, w', exclude, k, end)
  }

  /**
   After the swap a pushed peer trusts the new key, and no other key of this instance if the rotation knew those it
   trusted.
   */
  lemma PushedTrustsOnlyNew(codec: Codec, key: string, self: string, w: World, w': World,
                            exclude: set<string>, k: PublicKey, end: Ending,
                            p: Peer)
    requires k !in w.minted && Rotated(codec, key, self, w, w', exclude, k, end)
    requires p in Others(w.db, self, exclude) && p.name in end.tally.pushed && TrustKnown(codec, w, Home(p))
    ensures Home(p) in w'.hosts && TrustedKeys(codec, w'.hosts[Home(p)].keys) * w'.minted == {k}
  {
    assert Traded(codec, Generated(w, k), w', RetiredKeys(w), k, Home(p));
    assert w.hosts[Home(p)] == FilesAt(w.hosts, Home(p));
  }

  /** After a revoking rotation no such peer accepts any certificate ever issued to a name it did not take. */
  lemma RevokedShutOut(codec: Codec, key: string, self: string, w: World, w': World,
                       exclude: set<string>, k: PublicKey, end: Ending,
                       name: string, p: Peer, cert: Cert)
    requires Inv(codec, self, w) && k !in w.minted && Rotated(codec, key, self, w, w', exclude, k, end)
    requires name != self && !Takes(w.db, self, exclude, name)
    requires cert in w'.issued && cert.keyId == name
    requires p in Others(w.db, self, exclude) && p.name in end.tally.pushed && TrustKnown(codec, w, Home(p))
    ensures Home(p) in w'.hosts && !Accepts(codec, w'.hosts[Home(p)].keys, cert)
  {
    OthersAre(w.db, self, exclude);
    assert cert in w.issued;
    assert cert.issuer in w.minted && cert.issuer != k;
    PushedTrustsOnlyNew(codec, key, self, w, w', exclude, k, end, p);
    NoTrustNoAccess(codec, w'.hosts[Home(p)].keys, cert);
  }

  /** What a push leaves at an account that no other listed peer shares. */
  lemma PushedHome(codec: Codec, key: string, self: string, w: World, w': World,
                   exclude: set<string>, k: PublicKey, end: Ending, i: nat)
    requires Rotated(codec, key, self, w, w', exclude, k, end)
    requires var ps := Others(w.db, self, exclude); i < |ps| && Alone(ps, i) && ps[i].name in end.tally.pushed
    ensures var p := Others(w.db, self, exclude)[i];
            && p.name in end.tally.certs && Home(p) in w.hosts && Home(p) in w'.hosts && w'.minted == w.minted + {k}
            && w'.hosts[Home(p)] == PushedFiles(codec, key, Generated(w, k), RetiredKeys(w), k, p,
                                                end.tally.certs[p.name])
            && w'.db.peers[p.name].cert == Some(end.tally.certs[p.name])
  {
    var ps, w0 := Others(w.db, self, exclude), Generated(w, k);
    var p := ps[i];
    assert p in ps;
    assert Traded(codec, w0, w', RetiredKeys(w), k, Home(p));
    assert FilesAt(w'.hosts, Home(p)) == PushedFiles(codec, key, w0, RetiredKeys(w), k, p, end.tally.certs[p.name]);
  }

  /**
   Whatever rotations a peer missed and however many lines its re-enrolls left, a push leaves exactly one
   line of this instance, for the new key and the allowed groups, and every other line in place and in order.
   */
  lemma PushHeals(codec: Codec, key: string, self: string, w: World, w': World,
                  exclude: set<string>, k: PublicKey, end: Ending, i: nat)
    requires Faithful(codec) && Inv(codec, self, w) && Fresh(codec, w, k)
             && Rotated(codec, key, self, w, w', exclude, k, end)
    requires var ps := Others(w.db, self, exclude);
             i < |ps| && Alone(ps, i) && ps[i].name in end.tally.pushed && TrustKnown(codec, w, Home(ps[i]))
    ensures var p := Others(w.db, self, exclude)[i];
            && Home(p) in w.hosts && Home(p) in w'.hosts
            && F.Only(Lines(w'.hosts[Home(p)].keys), Trusting(codec, w'.minted)) == [NewLine(codec, w.db, k, p.name)]
            && F.Without(Lines(w'.hosts[Home(p)].keys), Trusting(codec, w'.minted)) ==
               F.Without(Lines(w.hosts[Home(p)].keys), Trusting(codec, w'.minted))
            && w'.hosts[Home(p)].cert == w'.db.peers[p.name].cert
            && w'.hosts[Home(p)].config == Splice(w.hosts[Home(p)].config, key,
                                                  Block(key, ReachableHosts(w.db, p.name)))
  {
    var p := Others(w.db, self, exclude)[i];
    PushedHome(codec, key, self, w, w', exclude, k, end, i);
    HealsFile(codec, self, w, w.hosts[Home(p)].keys, k, p.name);
  }

  lemma HealsFile(codec: Codec, self: string, w: World, t: string, k: PublicKey, name: string)
    requires Faithful(codec) && Inv(codec, self, w) && TrustedKeys(codec, t) * w.minted <= RetiredKeys(w)
             && k !in TrustedKeys(codec, t)
    ensures var t' := ReplacedText(codec, t, RetiredKeys(w), NewLine(codec, w.db, k, name) + "\n");
            && F.Only(Lines(t'), Trusting(codec, w.minted + {k})) == [NewLine(codec, w.db, k, name)]
            && F.Without(Lines(t'), Trusting(codec, w.minted + {k})) ==
               F.Without(Lines(t), Trusting(codec, w.minted + {k}))
  {
    var line := NewLine(codec, w.db, k, name);
    AllowedPlain(w.db, name);
    TrustLineTrusts(codec, k, AllowedList(w.db, name));
    ReplaceHeals(codec, t, RetiredKeys(w), line + "\n", k, w.minted);
  }

  /** Such an account is closed to every other key of this instance exactly if the rotation knew all that it trusted. */
  lemma PushedClosedIff(codec: Codec, key: string, self: string, w: World, w': World,
                        exclude: set<string>, k: PublicKey, end: Ending, i: nat)
    requires Faithful(codec) && Inv(codec, self, w) && Fresh(codec, w, k)
             && Rotated(codec, key, self, w, w', exclude, k, end)
    requires var ps := Others(w.db, self, exclude); i < |ps| && Alone(ps, i) && ps[i].name in end.tally.pushed
    ensures var p := Others(w.db, self, exclude)[i];
            && Home(p) in w'.hosts
            && (TrustedKeys(codec, w'.hosts[Home(p)].keys) * w'.minted == {k} <==> TrustKnown(codec, w, Home(p)))
  {
    var p := Others(w.db, self, exclude)[i];
    PushedHome(codec, key, self, w, w', exclude, k, end, i);
    ClosesFile(codec, self, w, w.hosts[Home(p)].keys, k, p.name);
  }

  lemma ClosesFile(codec: Codec, self: string, w: World, t: string, k: PublicKey, name: string)
    requires Faithful(codec) && Inv(codec, self, w) && k !in w.minted && k !in TrustedKeys(codec, t)
    ensures var t' := ReplacedText(codec, t, RetiredKeys(w), NewLine(codec, w.db, k, name) + "\n");
            TrustedKeys(codec, t') * (w.minted + {k}) == {k} <==> TrustedKeys(codec, t) * w.minted <= RetiredKeys(w)
  {
    AllowedPlain(w.db, name);
    PushTrades(codec, t, RetiredKeys(w), k, AllowedList(w.db, name));
  }

  /**
   After the swap each listed peer is updated or failed, not both: an updated one holds a new certificate of
   the new key for its own key, listing its name and groups, a failed one what it had. One that is never pushed to is
   always updated. No other row has changed but the manager's own.
   */
  lemma EachPeerOnce(codec: Codec, key: string, self: string, w: World, w': World,
                     exclude: set<string>, k: PublicKey, end: Ending, p: Peer)
    requires Rotated(codec, key, self, w, w', exclude, k, end)
    requires p in Others(w.db, self, exclude)
    ensures p.name in end.tally.updated <==> p.name !in end.tally.failed
    ensures p.name in w'.db.peers
    ensures p.name in end.tally.failed ==> w'.db.peers[p.name] == w.db.peers[p.name]
    ensures p.name in end.tally.updated ==>
              var row := w'.db.peers[p.name];
              && row.cert.Some? && row.cert.value.issuer == k && row.serial == row.cert.value.serial
              && row.cert.value.keyId == p.name && row.cert.value.subject == row.key
              && row == w.db.peers[p.name].(cert := row.cert, serial := row.serial)
              && ListsExactly(row.cert.value, p.name, GroupsOf(w'.db.members, p.name))
    ensures !(p.row.inbound && p.row.reachable) ==> p.name in end.tally.updated
    ensures forall q :: q in w.db.peers && q != self && (w.db.peers[q].revoked || q in exclude) ==>
              q in w'.db.peers && w'.db.peers[q] == w.db.peers[q]
    ensures end.recorded ==> w'.db.rev == w.db.rev + 1
    ensures w'.db.members == w.db.members && w'.db.allowed == w.db.allowed && w'.db.tokens == w.db.tokens
  {
    var ps, t := Others(w.db, self, exclude), end.tally;
    OthersAre(w.db, self, exclude);
    assert p.name in Named(ps);
    CountedAll(ps, t, p.name);
    ToldOf(Generated(w, k), w', k, ps, t, self, p);
  }

  lemma CountedAll(ps: seq<Peer>, t: Tally, name: string)
    requires Counted(ps, |ps|, t) && name in Named(ps)
    ensures name in t.updated <==> name !in t.failed
  {
    assert ps[..|ps|] == ps;
  }

  lemma ToldOf(w0: World, w: World, k: PublicKey, ps: seq<Peer>, t: Tally, self: string, p: Peer)
    requires RowsTold(w0, w, k, ps, t, {self}) && p in ps && p.name != self && p.name in w0.db.peers
    ensures p.name in w.db.peers && (p.name !in t.updated ==> w.db.peers[p.name] == w0.db.peers[p.name])
    ensures p.name in t.updated ==>
              var row := w.db.peers[p.name];
              && row.cert.Some? && row.cert.value.issuer == k && row.serial == row.cert.value.serial
              && ListsExactly(row.cert.value, p.name, GroupsOf(w0.db.members, p.name))
  {
    if p.name in t.updated {
      PeerCertLists(w0.db, k, p, t.certs[p.name]);
    }
  }

  /** The directories after the swap: the new key is active, the old one archived, every other slot as it was. */
  lemma SwapKeepsAll(codec: Codec, key: string, self: string, w: World, w': World,
                     exclude: set<string>, k: PublicKey, end: Ending)
    requires Rotated(codec, key, self, w, w', exclude, k, end)
    ensures HasKey(w'.dirs, "ca", k) && "ca.next" !in w'.dirs && end.archive !in w.dirs
    ensures "ca" in w.dirs && end.archive in w'.dirs && w'.dirs[end.archive] == w.dirs["ca"]
    ensures forall name :: name in w.dirs && name != "ca" ==> name in w'.dirs && w'.dirs[name] == w.dirs[name]
  {
    NotArchives();
    assert DirsAt(w.dirs["ca.next" := Keyed(k, true)], w'.dirs, Both(end.archive));
  }

  /** However it ends, the new key is the active one exactly after a swap. */
  lemma ActiveIffSwapped(codec: Codec, key: string, self: string, w: World, w': World,
                         exclude: set<string>, k: PublicKey, end: Ending)
    requires Inv(codec, self, w) && k !in w.minted && Ended(codec, key, self, w, w', exclude, k, end)
    ensures HasKey(w'.dirs, "ca", k) <==> end.Swapped?
  {
    NotArchives();
    assert HasKey(w.dirs, "ca", k) ==> Held(w.dirs, k);
    if end.Swapped? {
      SwapKeepsAll(codec, key, self, w, w', exclude, k, end);
    } else if end.Staged? {
      assert DirsAt(w.dirs["ca.next" := Keyed(k, true)], w'.dirs, end.dirs);
    }
  }

  // ---- The manager's own files ----

  /** The file names a key of this instance that is held nowhere. */
  ghost predicate Dangles(codec: Codec, minted: set<PublicKey>, dirs: map<string, Slot>, keys: string) {
    exists k :: k in TrustedKeys(codec, keys) && k in minted && !Held(dirs, k)
  }

  lemma DroppedHolds(w: World, dirs: map<string, Slot>, k: PublicKey, removed: bool, x: PublicKey)
    requires Dropped(w, dirs, k, removed) && x != k
    ensures Held(w.dirs, x) ==> Held(dirs, x)
  {
    if !removed {
      NextKeeps(w.dirs, dirs, x);
    }
  }

  lemma DroppedNew(w: World, dirs: map<string, Slot>, k: PublicKey, removed: bool)
    requires Dropped(w, dirs, k, removed) && !Held(w.dirs, k)
    ensures Held(dirs, k) <==> HasKey(dirs, "ca.next", k)
    ensures removed ==> !HasKey(dirs, "ca.next", k)
  {
    if !removed {
      NextKeeps(w.dirs, dirs, k);
    }
  }

  lemma OwnTrusts(codec: Codec, fate: Fates, b: Desk, b': Desk, retired: set<PublicKey>, k: PublicKey, own: OwnPart)
    requires OwnFiles(codec, fate, b.keys, b'.keys, b.cert, b'.cert, retired, k, own)
    ensures TrustedKeys(codec, b'.keys) <= TrustedKeys(codec, b.keys) + {k}
    ensures if own.OwnNone? then b'.keys == b.keys else k in TrustedKeys(codec, b'.keys)
  {
  }

  /**
   A clean ending leaves the manager's own authorized_keys, which named only held keys before, on a key that is held
   nowhere if and only if of its two writes the first landed and the second did not, and ca.next is gone.
   */
  lemma DanglesIff(codec: Codec, key: string, self: string, w: World, w': World,
                   exclude: set<string>, k: PublicKey, end: Ending,
                   fate: Fates, b: Desk, b': Desk)
    requires Inv(codec, self, w) && Fresh(codec, w, k) && end.Clean? && Ended(codec, key, self, w, w', exclude, k, end)
    requires OwnFiles(codec, fate, b.keys, b'.keys, b.cert, b'.cert, RetiredKeys(w), k, Own(end))
    requires !Dangles(codec, w.minted, w.dirs, b.keys) && k !in TrustedKeys(codec, b.keys)
    ensures Dangles(codec, w.minted + {k}, w'.dirs, b'.keys) <==> end.own.OwnKeysOnly? && !HasKey(w'.dirs, "ca.next", k)
    ensures end.removed ==> !HasKey(w'.dirs, "ca.next", k)
  {
    assert !Held(w.dirs, k);
    OwnTrusts(codec, fate, b, b', RetiredKeys(w), k, end.own);
    DroppedNew(w, w'.dirs, k, end.removed);
    forall x | x in TrustedKeys(codec, b'.keys) && x in w.minted
      ensures Held(w'.dirs, x)
    {
      assert x in TrustedKeys(codec, b.keys) && Held(w.dirs, x);
      DroppedHolds(w, w'.dirs, k, end.removed, x);
    }
  }

  /** It happens: no peer can be dialed, and the manager's certificate file cannot be written. */
  method TornRekey(d: Deps, key: PublicKey, stamp: string) returns (ok: bool)
    requires d.Valid() && Fresh(d.codec, d.Now(), key) && Ready(d.dirs) && Torn(d.fate)
    requires Sure(d.fate, Unlocking) && Sure(d.fate, KeyGeneration) && Sure(d.fate, Discarding)
    modifies d`dirs, d`hosts, d`selfKeys, d`selfCert, d`rewrites, d`writes, d`dialed, d`minted, d`issued, d`log, d.db
    ensures d.Valid() && !ok && d.dirs == old(d.dirs) && d.hosts == old(d.hosts)
    ensures key in TrustedKeys(d.codec, d.selfKeys) && !Held(d.dirs, key)
  {
    ghost var w := d.Now();
    d.Sane();
    ghost var end;
    ok, end := Rekey(d, "", {}, key, stamp);
    assert Dropped(w, d.dirs, key, true);
    assert !Held(w.dirs, key);
  }

  // ---- The manager's own access ----

  /**
   At any point of any run the manager's stored certificate carries the manager principal once, and every account
   that trusts its issuer accepts it.
   */
  lemma ManagerAccepted(codec: Codec, self: string, w: World, acts: seq<Action>, n: nat, a: Account)
    requires Faithful(codec) && Legal(codec, self, w, acts) && n <= |acts|
    ensures var w' := Reached(w, acts[..n]);
            && self in w'.db.peers && w'.db.peers[self].cert.Some?
            && var cert := w'.db.peers[self].cert.value;
               && cert.keyId == self && ManagerOnce(cert.principals)
               && (a in w'.hosts && cert.issuer in TrustedKeys(codec, w'.hosts[a].keys) ==>
                   Accepts(codec, w'.hosts[a].keys, cert))
  {
    LegalPrefix(codec, self, w, acts, n);
    RunKeepsInv(codec, self, w, acts[..n]);
    var w' := Reached(w, acts[..n]);
    assert RowOwned(w'.issued, self, self, w'.db);
    var cert := w'.db.peers[self].cert.value;
    if a in w'.hosts && cert.issuer in TrustedKeys(codec, w'.hosts[a].keys) {
      BuiltAdmits(codec, w'.hosts[a].keys, w'.minted, cert);
    }
  }

  /** A file whose lines for a key are built ones accepts that key's certificates with the manager principal. */
  lemma BuiltAdmits(codec: Codec, t: string, keys: set<PublicKey>, cert: Cert)
    requires Faithful(codec) && BuiltLines(codec, t, keys) && cert.issuer in keys
             && cert.issuer in TrustedKeys(codec, t)
    requires MANAGER in cert.principals
    ensures Accepts(codec, t, cert)
  {
    var l :| l in Lines(t) && TrustedKey(codec, l) == Some(cert.issuer);
    assert Built(codec, l, cert.issuer);
    var ps :| PlainNames(ps) && l == TrustLine(codec, cert.issuer, ps);
    TrustLineAdmits(codec, cert.issuer, ps, cert);
    assert Admits(codec, l, cert);
  }

  // ---- In step ----

  lemma PushedLine(codec: Codec, key: string, self: string, w: World, w': World, k: PublicKey, end: Ending, i: nat)
    requires Faithful(codec) && Inv(codec, self, w) && Fresh(codec, w, k)
             && Rotated(codec, key, self, w, w', {}, k, end)
    requires var ps := Others(w.db, self, {});
             i < |ps| && Alone(ps, i) && ps[i].name in end.tally.pushed && TrustKnown(codec, w, Home(ps[i]))
    ensures var p := Others(w.db, self, {})[i];
            && Home(p) in w'.hosts && k in w'.minted && w'.db.allowed == w.db.allowed
            && F.Only(Lines(w'.hosts[Home(p)].keys), Trusting(codec, w'.minted)) == [NewLine(codec, w.db, k, p.name)]
  {
    PushHeals(codec, key, self, w, w', {}, k, end, i);
  }

  /** A push brings its peer's trust line in step with the database. */
  lemma RotationInStep(codec: Codec, key: string, self: string, w: World, w': World, k: PublicKey, end: Ending, i: nat)
    requires Faithful(codec) && Inv(codec, self, w) && Fresh(codec, w, k)
             && Rotated(codec, key, self, w, w', {}, k, end)
    requires var ps := Others(w.db, self, {});
             i < |ps| && Alone(ps, i) && ps[i].name in end.tally.pushed && TrustKnown(codec, w, Home(ps[i]))
    ensures var q := Others(w.db, self, {})[i];
            && Home(q) in w'.hosts
            && KeysInStep(codec, w'.db, q.name, k, w'.hosts[Home(q)].keys, AllowedList(w'.db, q.name))
  {
    var q := Others(w.db, self, {})[i];
    PushedLine(codec, key, self, w, w', k, end, i);
    LineInStep(codec, self, w, w'.minted, k, w'.hosts[Home(q)].keys, q.name);
  }

  lemma LineInStep(codec: Codec, self: string, w: World, all: set<PublicKey>, k: PublicKey, t: string, name: string)
    requires Faithful(codec) && Inv(codec, self, w) && k in all
    requires F.Only(Lines(t), Trusting(codec, all)) == [NewLine(codec, w.db, k, name)]
    ensures KeysInStep(codec, w.db, name, k, t, AllowedList(w.db, name))
  {
    AllowedPlain(w.db, name);
    OrderedIs(GroupsOf(w.db.allowed, name));
    OnlyOne(codec, Lines(t), all, k, NewLine(codec, w.db, k, name), AllowedList(w.db, name));
  }

  /** The one line of the instance is the one line of its key. */
  lemma OnlyOne(codec: Codec, ls: seq<string>, all: set<PublicKey>, k: PublicKey, line: string, ps: seq<string>)
    requires Faithful(codec) && PlainNames(ps) && line == TrustLine(codec, k, ps) && k in all
    requires F.Only(ls, Trusting(codec, all)) == [line]
    ensures F.Only(ls, Trusting(codec, {k})) == [line]
  {
    TrustLineTrusts(codec, k, ps);
    F.Members(ls, Trusting(codec, all));
    forall l | l in ls
      ensures Trusting(codec, {k})(l) == Trusting(codec, all)(l)
    {
      if Trusting(codec, all)(l) {
        assert l in F.Only(ls, Trusting(codec, all));
      }
    }
    F.Agree(ls, Trusting(codec, {k}), Trusting(codec, all));
  }

  ghost predicate AloneAs(ps: seq<Peer>, i: nat, name: string) {
    i < |ps| && Alone(ps, i) && ps[i].name == name
  }

  /** The peers pushed to at an account of their own whose trust the rotation knew, with what they trust now. */
  ghost function PushedFleet(codec: Codec, w: World, w': World, self: string, t: Tally): map<string, Standing> {
    map name | name in t.pushed && name in w.db.peers && TrustKnown(codec, w, AccountOf(name, w.db.peers[name]))
               && exists i :: AloneAs(Others(w.db, self, {}), i, name) ::
      Standing(FilesAt(w'.hosts, AccountOf(name, w.db.peers[name])).keys, AllowedList(w'.db, name))
  }

  lemma ListedRow(t: Tables, ps: seq<Peer>, i: nat)
    requires Listed(t, ps) && i < |ps|
    ensures ps[i].name in t.peers && Home(ps[i]) == AccountOf(ps[i].name, t.peers[ps[i].name])
  {
    assert ps[i] in ps;
  }

  lemma StandingIs(codec: Codec, w: World, w': World, self: string, t: Tally, q: string) returns (i: nat)
    requires q in PushedFleet(codec, w, w', self, t)
    ensures var ps := Others(w.db, self, {});
            && i < |ps| && Alone(ps, i) && ps[i].name == q && q in t.pushed && TrustKnown(codec, w, Home(ps[i]))
            && PushedFleet(codec, w, w', self, t)[q] == Standing(FilesAt(w'.hosts, Home(ps[i])).keys,
                                                                 AllowedList(w'.db, q))
  {
    i :| AloneAs(Others(w.db, self, {}), i, q);
    OthersAre(w.db, self, {});
    ListedRow(w.db, Others(w.db, self, {}), i);
  }

  lemma FleetInStep(codec: Codec, key: string, self: string, w: World, w': World, k: PublicKey, end: Ending, q: string)
    requires Faithful(codec) && Inv(codec, self, w) && Fresh(codec, w, k)
             && Rotated(codec, key, self, w, w', {}, k, end)
    requires q in PushedFleet(codec, w, w', self, end.tally)
    ensures var s := PushedFleet(codec, w, w', self, end.tally)[q]; KeysInStep(codec, w'.db, q, k, s.keys, s.ps)
  {
    var i := StandingIs(codec, w, w', self, end.tally, q);
    RotationInStep(codec, key, self, w, w', k, end, i);
  }

  lemma UpdatedInStep(codec: Codec, key: string, self: string, w: World, w': World, k: PublicKey, end: Ending, p: Peer)
    requires Inv(codec, self, w) && Rotated(codec, key, self, w, w', {}, k, end)
    requires p in Others(w.db, self, {}) && p.name in end.tally.updated && p.name != ""
    ensures p.name in w'.db.peers && w'.db.peers[p.name].cert.Some?
    ensures CertInStep(w'.db, p.name, k, w'.db.peers[p.name].cert.value)
    ensures Linked(w'.db) && w'.db.groups == w.db.groups
  {
    EachPeerOnce(codec, key, self, w, w', {}, k, end, p);
    NoEmptyGroups(w.db, p.name);
  }

  lemma NoEmptyGroups(t: Tables, p: string)
    requires Linked(t) && PlainGroups(t)
    ensures "" !in GroupsOf(t.members, p)
  {
  }

  /**
   After a rotation, an updated peer whose name is no group's and not the manager's is accepted by exactly
   those pushed peers that ReachableHosts lists for it.
   */
  lemma RotatedFleetAgrees(codec: Codec, key: string, self: string, w: World, w': World, k: PublicKey, end: Ending,
                           p: Peer)
    requires Faithful(codec) && Inv(codec, self, w) && Fresh(codec, w, k)
             && Rotated(codec, key, self, w, w', {}, k, end)
    requires p in Others(w.db, self, {}) && p.name in end.tally.updated && p.name != "" && p.name != MANAGER
             && p.name !in w.db.groups
    ensures p.name in w'.db.peers && w'.db.peers[p.name].cert.Some?
    ensures var fleet := PushedFleet(codec, w, w', self, end.tally);
            AcceptingPeers(codec, w'.db, p.name, w'.db.peers[p.name].cert.value, fleet) ==
            ReachableNames(w'.db, p.name) * fleet.Keys
  {
    var fleet := PushedFleet(codec, w, w', self, end.tally);
    UpdatedInStep(codec, key, self, w, w', k, end, p);
    forall q | q in fleet
      ensures KeysInStep(codec, w'.db, q, k, fleet[q].keys, fleet[q].ps)
    {
      FleetInStep(codec, key, self, w, w', k, end, q);
    }
    ReachableIsAccepted(codec, w'.db, p.name, k, w'.db.peers[p.name].cert.value, fleet);
  }
}
