/** Rekey as a whole: which peers it lists, how it ends, and what each ending leaves. */
module Rotation {
  import opened Wrappers
  import opened Text
  import opened Names
  import opened Principals
  import opened AuthorizedKeys
  import opened TrustLaws
  import opened SshConfig
  import opened Tables
  import opened Database
  import opened Reachability
  import opened Fleet
  import opened Manager
  import opened Fate
  import opened RekeyPeers
  import F = Filters

  // ---- The peers listed ----

  function Listing(t: Tables, self: string, exclude: set<string>, names: seq<string>): seq<Peer> {
    if names == [] then []
    else
      var n := |names| - 1;
      Listing(t, self, exclude, names[..n]) + (if Takes(t, self, exclude, names[n])
                                               then [Peer(names[n], t.peers[names[n]])] else [])
  }

  /** A peer that is rotated: known, not revoked, not the manager itself, not excluded. */
  predicate Takes(t: Tables, self: string, exclude: set<string>, name: string) {
    name in t.peers && !t.peers[name].revoked && name != self && name !in exclude
  }

  function Others(t: Tables, self: string, exclude: set<string>): seq<Peer> {
    Listing(t, self, exclude, Ordered(t.peers.Keys))
  }

  lemma {:induction false} ListingIs(t: Tables, self: string, exclude: set<string>, names: seq<string>)
    requires Ascending(names)
    ensures Listed(t, Listing(t, self, exclude, names)) && InOrder(Listing(t, self, exclude, names))
    ensures forall name :: name in Named(Listing(t, self, exclude, names)) <==>
              name in names && Takes(t, self, exclude, name)
  {
    if names != [] {
      var n := |names| - 1;
      var init, ps := names[..n], Listing(t, self, exclude, names[..n]);
      ListingIs(t, self, exclude, init);
      assert names == init + [names[n]];
      var all := Listing(t, self, exclude, names);
      if Takes(t, self, exclude, names[n]) {
        NamedSnoc(all, |ps|);
        assert all[..|ps|] == ps && all[..|all|] == all;
        assert names[n] !in init;
        forall i | 0 <= i < |ps|
          ensures ps[i].name != names[n] && Le(ps[i].name, names[n])
        {
          assert ps[i].name in Named(ps);
        }
      } else {
        assert all == ps;
      }
    }
  }

  ghost predicate InOrder(ps: seq<Peer>) {
    forall i, j :: 0 <= i < j < |ps| ==> Le(ps[i].name, ps[j].name)
  }

  /** The rotation takes every peer that is not revoked, not the manager's own and not excluded, once, in name order. */
  lemma OthersAre(t: Tables, self: string, exclude: set<string>)
    ensures Listed(t, Others(t, self, exclude)) && InOrder(Others(t, self, exclude))
    ensures forall name :: name in Named(Others(t, self, exclude)) <==>
              name in t.peers && !t.peers[name].revoked && name != self && name !in exclude
  {
    OrderedIs(t.peers.Keys);
    ListingIs(t, self, exclude, Ordered(t.peers.Keys));
  }

  // ---- The manager's own row ----

  ghost predicate IsSelfCert(t: Tables, k: PublicKey, self: string, cert: Cert) {
    self in t.peers && cert == Cert(k, cert.serial, self, CertList(self, GroupsList(t, self), true), t.peers[self].key)
  }

  /** How far the rewrite of the manager's own two files got. */
  datatype OwnPart = OwnNone | OwnKeysOnly | OwnBoth

  /**
   The manager's own authorized_keys after a rotation to k, when it could be read: every line for no retired key stays,
   in order, and the line for k, which admits the manager alone, stands for those for a retired one.
   */
  ghost predicate OwnHealed(codec: Codec, keys: string, keys': string, retired: set<PublicKey>, k: PublicKey) {
    var ours := Trusting(codec, retired + {k});
    && F.Without(Lines(keys'), ours) == F.Without(Lines(keys), ours)
    && ((k in TrustedKeys(codec, keys) ==> k in retired) ==> F.Only(Lines(keys'), ours) == [TrustLine(codec, k, [])])
    && TrustedKeys(codec, keys') == TrustedKeys(codec, keys) - retired + {k}
  }

  /** When it could not: nothing but that line. */
  ghost predicate OwnLost(codec: Codec, keys': string, k: PublicKey) {
    Lines(keys') == [TrustLine(codec, k, [])] && TrustedKeys(codec, keys') == {k}
  }

  ghost predicate OwnText(codec: Codec, fate: Fates, keys: string, keys': string,
                          retired: set<PublicKey>, k: PublicKey) {
    && (OwnHealed(codec, keys, keys', retired, k) || OwnLost(codec, keys', k))
    && (Sure(fate, OwnRead) ==> OwnHealed(codec, keys, keys', retired, k))
    && (Sunk(fate, OwnRead) ==> OwnLost(codec, keys', k))
  }

  lemma OwnHeals(codec: Codec, keys: string, retired: set<PublicKey>, k: PublicKey)
    requires Faithful(codec)
    ensures OwnHealed(codec, keys, ReplacedText(codec, keys, retired, TrustLine(codec, k, []) + "\n"), retired, k)
  {
    var line := TrustLine(codec, k, []);
    TrustLineTrusts(codec, k, []);
    PushTrades(codec, keys, retired, k, []);
    ReplacedLines(codec, keys, retired, line + "\n");
    F.ReplacedKeeps(Lines(keys), Trusting(codec, retired), line, Trusting(codec, retired + {k}));
    if k in TrustedKeys(codec, keys) ==> k in retired {
      ReplaceHeals(codec, keys, retired, line + "\n", k, retired);
    }
  }

  lemma OwnLoses(codec: Codec, retired: set<PublicKey>, k: PublicKey)
    requires Faithful(codec)
    ensures OwnLost(codec, ReplacedText(codec, "", retired, TrustLine(codec, k, []) + "\n"), k)
  {
    var line := TrustLine(codec, k, []);
    NoLines(codec);
    TrustLineTrusts(codec, k, []);
    PushTrades(codec, "", retired, k, []);
    ReplacedLines(codec, "", retired, line + "\n");
    F.SwappedAbsent(Lines(""), Trusting(codec, retired), line);
    assert {} - retired + {k} == {k};
  }

  /** Every line that trusts none of these keys is kept, in order, and no other such line is there. */
  ghost predicate OthersKept(codec: Codec, t: string, t': string, keys: set<PublicKey>) {
    F.Without(Lines(t'), Trusting(codec, keys)) == F.Without(Lines(t), Trusting(codec, keys))
  }

  lemma SomethingIn(ls: seq<string>)
    requires ls != []
    ensures exists l :: l in ls
  {
    assert ls[0] in ls;
  }

  /** The other lines of the manager's file are kept exactly if it could be read, or there were none. */
  lemma OwnKeptIff(codec: Codec, fate: Fates, keys: string, keys': string, retired: set<PublicKey>, k: PublicKey)
    requires Faithful(codec) && OwnRead in fate && OwnText(codec, fate, keys, keys', retired, k)
    ensures OthersKept(codec, keys, keys', retired + {k}) <==>
            fate[OwnRead] || forall l :: l in Lines(keys) ==> Trusts(codec, l, retired + {k})
  {
    var ours := Trusting(codec, retired + {k});
    F.Members(Lines(keys), ours);
    if !fate[OwnRead] {
      TrustLineTrusts(codec, k, []);
      F.One(TrustLine(codec, k, []), ours);
      if l :| l in Lines(keys) && !Trusts(codec, l, retired + {k}) {
        assert l in F.Without(Lines(keys), ours);
      } else if F.Without(Lines(keys), ours) != [] {
        SomethingIn(F.Without(Lines(keys), ours));
      }
    }
  }

  ghost predicate OwnFiles(codec: Codec, fate: Fates, keys: string, keys': string, cert: Option<Cert>,
                           cert': Option<Cert>, retired: set<PublicKey>, k: PublicKey, own: OwnPart) {
    match own
    case OwnNone => keys' == keys && cert' == cert
    case OwnKeysOnly => OwnText(codec, fate, keys, keys', retired, k) && cert' == cert
    case OwnBoth => OwnText(codec, fate, keys, keys', retired, k) && cert'.Some? && cert'.value.issuer == k
  }

  /** What a rotation does at the desk itself: the two files, the second rewrite counted, and nothing else. */
  ghost predicate OwnLeft(codec: Codec, fate: Fates, b: Desk, b': Desk,
                          retired: set<PublicKey>, k: PublicKey, own: OwnPart) {
    && OwnFiles(codec, fate, b.keys, b'.keys, b.cert, b'.cert, retired, k, own)
    && b'.rewrites == b.rewrites + (if own.OwnBoth? then 1 else 0)
    && b'.writes == b.writes && b'.dialed == b.dialed
  }

  lemma OwnUntouched(codec: Codec, fate: Fates, b: Desk, retired: set<PublicKey>, k: PublicKey)
    ensures OwnLeft(codec, fate, b, b, retired, k, OwnNone)
  {
  }

  /** The first write of writeSelfRekey: the trust line in the manager's own authorized_keys. */
  method WriteOwnKeys(d: Deps, retired: seq<PublicKey>, k: PublicKey) returns (ok: bool)
    requires Faithful(d.codec)
    modifies d`selfKeys
    ensures if ok then OwnText(d.codec, d.fate, old(d.selfKeys), d.selfKeys, SetOf(retired), k)
            else d.selfKeys == old(d.selfKeys)
    ensures OwnKeys in d.fate ==> ok == d.fate[OwnKeys]
  {
    var line := UserAuthorizedKeysLine(d.codec.marshal(k), []);
    NewKeyText(d.codec, k, []);
    var readable := Try(d.fate, OwnRead);
    var content := ReplaceCALines(d.codec, if readable then d.selfKeys else "", retired, line);
    ok := Try(d.fate, OwnKeys);
    OwnHeals(d.codec, d.selfKeys, SetOf(retired), k);
    OwnLoses(d.codec, SetOf(retired), k);
    if ok {
      d.selfKeys := content;
    }
  }

  /** writeSelfRekey: the trust line first, then the certificate. Either write may fail. */
  method WriteSelfRekey(d: Deps, retired: seq<PublicKey>, k: PublicKey, cert: Cert) returns (own: OwnPart)
    requires Faithful(d.codec) && cert.issuer == k
    modifies d`selfKeys, d`selfCert, d`rewrites
    ensures OwnLeft(d.codec, d.fate, old(d.AtDesk()), d.AtDesk(), SetOf(retired), k, own)
    ensures own.OwnBoth? ==> d.selfCert == Some(cert)
    ensures Sure(d.fate, OwnKeys) && Sure(d.fate, OwnCert) ==> own.OwnBoth?
    ensures Sure(d.fate, OwnKeys) && Sunk(d.fate, OwnCert) ==> own.OwnKeysOnly?
  {
    var ok := WriteOwnKeys(d, retired, k);
    if !ok {
      return OwnNone;
    }
    ok := Try(d.fate, OwnCert);
    if !ok {
      return OwnKeysOnly;
    }
    d.selfCert := Some(cert);
    d.rewrites := d.rewrites + 1;
    return OwnBoth;
  }

  lemma SelfCertFits(t: Tables, self: string, cert: Cert, k: PublicKey, issued: set<Cert>)
    requires IsSelfCert(t, k, self, cert) && cert in issued
    ensures RowCert(issued, self, self, Some(cert))
  {
    CertListHas(self, GroupsList(t, self), true);
  }

  /** Signs the manager's own certificate with the staged key. */
  method SignSelf(d: Deps, k: PublicKey) returns (r: Option<Cert>)
    requires d.Valid() && HasKey(d.dirs, "ca.next", k)
    modifies d`issued, d`log
    ensures d.Valid() && Signs(old(d.Now()), d.Now(), k, d.selfName)
    ensures r.Some? ==> IsSelfCert(d.db.rows, k, d.selfName, r.value) && r.value in d.issued
    ensures Steady(d.fate) ==> r.Some?
    ensures Balks(d.fate) ==> r.None?
  {
    var ok := d.db.Exec();
    if !ok {
      return None;
    }
    d.Tidy();
    var groups := GroupsList(d.db.rows, d.selfName);
    var principals := CertPrincipals(d.selfName, groups, true);
    var parsed := Try(d.fate, KeyParsing);
    if !parsed {
      return None;
    }
    var signed := d.SignCert(k, d.selfName, principals, d.db.rows.peers[d.selfName].key);
    return if signed.Ok? then Some(signed.value) else None;
  }

  /** The self part of Rekey. It reports what became of the local files, and the certificate if the row was stored. */
  method RekeySelf(d: Deps, retired: seq<PublicKey>, k: PublicKey) returns (own: OwnPart, r: Option<Cert>)
    requires d.Valid() && HasKey(d.dirs, "ca.next", k)
    modifies d`selfKeys, d`selfCert, d`rewrites, d`issued, d`log, d.db
    ensures d.Valid()
    ensures Signs(old(d.Now()), d.Now(), k, d.selfName)
    ensures OwnLeft(d.codec, d.fate, old(d.AtDesk()), d.AtDesk(), SetOf(retired), k, own)
    ensures r.None? ==> d.db.rows == old(d.db.rows)
    ensures r.Some? ==> own.OwnBoth? && d.selfCert == r
    ensures r.Some? ==>
              IsSelfCert(old(d.db.rows), k, d.selfName, r.value) && Stored(old(d.Now()), d.Now(), d.selfName, r.value)
    ensures Steady(d.fate) && Sure(d.fate, OwnKeys) && Sure(d.fate, OwnCert) ==> r.Some?
    ensures Steady(d.fate) && Sure(d.fate, OwnKeys) && Sunk(d.fate, OwnCert) ==> own.OwnKeysOnly?
  {
    var cert := SignSelf(d, k);
    if cert.None? {
      return OwnNone, None;
    }
    own := WriteSelfRekey(d, retired, k, cert.value);
    if !own.OwnBoth? {
      return own, None;
    }
    SelfCertFits(d.db.rows, d.selfName, cert.value, k, d.issued);
    var ok := d.SetPeerCert(d.selfName, cert, cert.value.serial);
    return own, if ok then cert else None;
  }

  // ---- Swapping the directories ----

  /** ca.old.<time>, then with .1, .2 and so on. */
  function ArchiveName(stamp: string, i: nat): string {
    "ca.old." + stamp + (if i == 0 then "" else "." + Decimal(i))
  }

  lemma ArchiveNamesDiffer(stamp: string, i: nat, j: nat)
    requires ArchiveName(stamp, i) == ArchiveName(stamp, j)
    ensures i == j
  {
    var base := "ca.old." + stamp;
    assert ArchiveName(stamp, i)[|base|..] == if i == 0 then "" else "." + Decimal(i);
    assert ArchiveName(stamp, j)[|base|..] == if j == 0 then "" else "." + Decimal(j);
    if i > 0 && j > 0 {
      assert ("." + Decimal(i))[1..] == Decimal(i) && ("." + Decimal(j))[1..] == Decimal(j);
      DecimalInjective(i, j);
    }
  }

  lemma ArchiveNameIs(stamp: string, i: nat)
    ensures IsArchive(ArchiveName(stamp, i))
  {
  }

  /** A name that is taken once more, and there are only so many directories. */
  lemma TakenOnce(dirs: map<string, Slot>, stamp: string, seen: set<string>, i: nat)
    requires seen == set j: nat | j < i :: ArchiveName(stamp, j)
    requires seen <= dirs.Keys && |seen| == i && ArchiveName(stamp, i) in dirs
    ensures ArchiveName(stamp, i) !in seen && i < |dirs|
    ensures (set j: nat | j < i + 1 :: ArchiveName(stamp, j)) == seen + {ArchiveName(stamp, i)}
  {
    var name := ArchiveName(stamp, i);
    if name in seen {
      var j: nat :| j < i && ArchiveName(stamp, j) == name;
      ArchiveNamesDiffer(stamp, i, j);
    }
    Within(seen + {name}, dirs.Keys);
    assert |dirs.Keys| == |dirs|;
  }

  lemma {:induction false} Within(a: set<string>, b: set<string>)
    requires a <= b
    ensures |a| <= |b|
    decreases |a|
  {
    if a != {} {
      var x :| x in a;
      Within(a - {x}, b - {x});
    }
  }

  /** The name with the time, or else with the first number behind it that no directory has. */
  ghost predicate FirstFree(dirs: map<string, Slot>, stamp: string, name: string) {
    name !in dirs &&
    (name == "ca.old." + stamp ||
     ("ca.old." + stamp in dirs &&
      exists i: nat :: i > 0 && name == "ca.old." + stamp + "." + Decimal(i)
                       && forall j: nat :: 0 < j < i ==> "ca.old." + stamp + "." + Decimal(j) in dirs))
  }

  lemma ArchiveFree(dirs: map<string, Slot>, stamp: string, i: nat)
    requires ArchiveName(stamp, i) !in dirs && forall j: nat :: j < i ==> ArchiveName(stamp, j) in dirs
    ensures FirstFree(dirs, stamp, ArchiveName(stamp, i))
  {
    assert "ca.old." + stamp + "" == "ca.old." + stamp;
    if i > 0 {
      assert ArchiveName(stamp, 0) in dirs;
      forall j: nat | 0 < j <= i
        ensures ArchiveName(stamp, j) == "ca.old." + stamp + "." + Decimal(j)
      {
        assert "ca.old." + stamp + ("." + Decimal(j)) == "ca.old." + stamp + "." + Decimal(j);
      }
    }
  }

  /** The search for an archive name ends, at the first one no directory has. */
  method FindArchiveName(dirs: map<string, Slot>, stamp: string, fate: Fates) returns (r: Option<string>)
    ensures r.Some? ==> FirstFree(dirs, stamp, r.value) && IsArchive(r.value)
    ensures Stating in fate ==> r.Some? == fate[Stating]
  {
    var i := 0;
    var name := ArchiveName(stamp, 0);
    ghost var seen: set<string> := {};
    while true
      invariant name == ArchiveName(stamp, i)
      invariant seen == (set j: nat | j < i :: ArchiveName(stamp, j)) && seen <= dirs.Keys && |seen| == i
      invariant i <= |dirs|
      decreases |dirs| - i
    {
      var ok := Try(fate, Stating);
      if !ok {
        return None;
      }
      if name !in dirs {
        ArchiveNameIs(stamp, i);
        ArchiveFree(dirs, stamp, i);
        return Some(name);
      }
      TakenOnce(dirs, stamp, seen, i);
      seen := seen + {name};
      i := i + 1;
      name := ArchiveName(stamp, i);
    }
  }

  /** Where the directories can stand: untouched, the old one archived, or swapped. */
  datatype SwapState = Neither | OldOnly(archive: string) | Both(archive: string)

  ghost predicate DirsAt(dirs: map<string, Slot>, dirs': map<string, Slot>, s: SwapState) {
    match s
    case Neither => dirs' == dirs
    case OldOnly(archive) => "ca" in dirs && archive !in dirs && IsArchive(archive)
      && dirs' == Move(dirs, "ca", archive)
    case Both(archive) =>
      "ca" in dirs && "ca.next" in dirs && archive !in dirs && IsArchive(archive) &&
      dirs' == (dirs - {"ca.next"})["ca" := dirs["ca.next"]][archive := dirs["ca"]]
  }

  lemma Renames(dirs: map<string, Slot>, archive: string)
    requires "ca" in dirs && "ca.next" in dirs && archive !in dirs && IsArchive(archive)
    ensures DirsAt(dirs, Move(dirs, "ca", archive), OldOnly(archive))
    ensures "ca.next" in Move(dirs, "ca", archive) && "ca" !in Move(dirs, "ca", archive)
            && archive in Move(dirs, "ca", archive)
    ensures DirsAt(dirs, Move(Move(dirs, "ca", archive), "ca.next", "ca"), Both(archive))
    ensures Move(Move(dirs, "ca", archive), archive, "ca") == dirs
  {
    NotArchives();
  }

  /** The two renames, with the first undone when the second fails. */
  method SwapDirs(d: Deps, stamp: string) returns (s: SwapState)
    requires d.Valid() && "ca" in d.dirs && "ca.next" in d.dirs
    modifies d`dirs, d`log
    ensures d.Valid() && DirsAt(old(d.dirs), d.dirs, s) && (!s.Neither? ==> FirstFree(old(d.dirs), stamp, s.archive))
    ensures Sure(d.fate, Stating) && Sure(d.fate, Archiving) && Sure(d.fate, Promoting) ==> s.Both?
    ensures Sure(d.fate, Unarchiving) ==> !s.OldOnly?
  {
    var found := FindArchiveName(d.dirs, stamp, d.fate);
    if found.None? {
      return Neither;
    }
    var archive := found.value;
    Renames(d.dirs, archive);
    var ok := d.RenameDir("ca", archive, Archiving, Archive(archive));
    if !ok {
      return Neither;
    }
    ok := d.RenameDir("ca.next", "ca", Promoting, Promote);
    if ok {
      return Both(archive);
    }
    ok := d.RenameDir(archive, "ca", Unarchiving, Unarchive(archive));
    return if ok then Neither else OldOnly(archive);
  }

  // ---- The loop over the peers ----

  /** The world right after the new key was generated. */
  function Generated(w: World, k: PublicKey): World {
    w.(dirs := w.dirs["ca.next" := Keyed(k, true)], minted := w.minted + {k})
  }

  /** Every peer updated in the database only was noted. */
  ghost predicate NotesAll(prior: seq<Prior>, t: Tally) {
    forall name :: name in t.updated && name !in t.pushed ==> NotedName(prior, name)
  }

  lemma NotesStep(self: string, w0: World, prior: seq<Prior>, prior': seq<Prior>, t: Tally, p: Peer, out: Outcome)
    requires Noted(self, w0, prior) && NotesAll(prior, t)
    requires p.name in w0.db.peers && p.row == w0.db.peers[p.name] && p.name != self && CertsOwned(self, w0)
    requires prior' == prior || prior' == prior + [Prior(p.name, p.row.cert, p.row.serial)]
    requires out.Skipped? ==> prior' != prior
    ensures Noted(self, w0, prior') && NotesAll(prior', Count(t, p, out))
  {
    var e := Prior(p.name, p.row.cert, p.row.serial);
    assert RowOwned(w0.issued, self, p.name, w0.db);
    assert prior' == prior + [e] ==> e in prior';
    forall name | NotedName(prior, name)
      ensures NotedName(prior', name)
    {
      var e' :| e' in prior && e'.name == name;
      assert e' in prior';
    }
  }

  ghost function PeerSet(ps: seq<Peer>): set<Peer> {
    set p | p in ps
  }

  lemma VisitsCount(db: Tables, ps: seq<Peer>, n: nat, t: Tally, out: Outcome,
                    hosts: map<Account, Files>, mid: map<Account, Files>, hosts': map<Account, Files>,
                    dialed: seq<string>, dialed1: seq<string>, dialed2: seq<string>)
    requires n < |ps| && Listed(db, ps) && !ps[n].row.revoked
    requires Visits(PeerSet(ps), hosts, mid, dialed, dialed1, t.updated)
    requires Turn(ps[n].name, ps[n].row, "", mid, hosts', dialed1, dialed2, out.Pushed?)
    requires out.Skipped? ==> !(ps[n].row.inbound && ps[n].row.reachable)
    ensures Visits(PeerSet(ps), hosts, hosts', dialed, dialed2, Count(t, ps[n], out).updated)
  {
    VisitsStep(PeerSet(ps), ps[n], hosts, mid, hosts', dialed, dialed1, dialed2, t.updated,
               Count(t, ps[n], out).updated, out.Pushed?);
  }

  /** When nothing fails on the way, everyone among the first n that has an account is updated. */
  ghost predicate NobodyLeft(fate: Fates, ps: seq<Peer>, n: nat, hosts: map<Account, Files>, updated: set<string>)
    requires n <= |ps|
  {
    Steady(fate) && AllAnswer(fate) ==>
      forall p :: p in ps[..n] && p.name != "" && Home(p) in hosts ==> p.name in updated
  }

  lemma NobodyStep(fate: Fates, w0: World, w: World, db: Tables, ps: seq<Peer>, n: nat, t: Tally, out: Outcome)
    requires n < |ps| && NobodyLeft(fate, ps, n, w0.hosts, t.updated) && w.hosts.Keys == w0.hosts.Keys
    requires Fated(fate, db, w.hosts, ps[n], out) && ps[n].name in db.peers
    ensures NobodyLeft(fate, ps, n + 1, w0.hosts, Count(t, ps[n], out).updated)
  {
    assert ps[..n + 1] == ps[..n] + [ps[n]];
  }

  /** Whom the loop has reached after n peers. */
  ghost predicate Toured(fate: Fates, ps: seq<Peer>, n: nat, hosts: map<Account, Files>, hosts': map<Account, Files>,
                         dialed: seq<string>, dialed': seq<string>, t: Tally)
    requires n <= |ps|
  {
    Visits(PeerSet(ps), hosts, hosts', dialed, dialed', t.updated) && NobodyLeft(fate, ps, n, hosts, t.updated)
  }

  lemma TouredStep(codec: Codec, fate: Fates, w0: World, w: World, w': World, k: PublicKey, names: set<string>,
                   rotated: bool, ps: seq<Peer>, n: nat, t: Tally, out: Outcome,
                   dialed: seq<string>, dialed1: seq<string>, dialed2: seq<string>)
    requires n < |ps| && Listed(w0.db, ps) && !ps[n].row.revoked
    requires Toured(fate, ps, n, w0.hosts, w.hosts, dialed, dialed1, t)
    requires Turn(ps[n].name, ps[n].row, "", w.hosts, w'.hosts, dialed1, dialed2, out.Pushed?)
    requires out.Skipped? ==> !(ps[n].row.inbound && ps[n].row.reachable)
    requires Underway(codec, w0, w, k, names, rotated)
    requires Fated(fate, w.db, w.hosts, ps[n], out)
    ensures Toured(fate, ps, n + 1, w0.hosts, w'.hosts, dialed, dialed2, Count(t, ps[n], out))
  {
    VisitsCount(w0.db, ps, n, t, out, w0.hosts, w.hosts, w'.hosts, dialed, dialed1, dialed2);
    assert ps[n] in ps;
    NobodyStep(fate, w0, w, w.db, ps, n, t, out);
  }

  lemma VisitsLess(ps: set<Peer>, hosts: map<Account, Files>, hosts': map<Account, Files>,
                   dialed: seq<string>, dialed': seq<string>, updated: set<string>, fewer: set<string>)
    requires Visits(ps, hosts, hosts', dialed, dialed', updated) && fewer <= updated
    ensures Visits(ps, hosts, hosts', dialed, dialed', fewer)
  {
  }

  lemma TouredNone(fate: Fates, ps: seq<Peer>, hosts: map<Account, Files>, dialed: seq<string>)
    ensures Toured(fate, ps, 0, hosts, hosts, dialed, dialed, Tally({}, {}, {}, map[]))
  {
  }

  /** Where the loop stands after n peers. */
  ghost predicate Looping(codec: Codec, key: string, self: string, w0: World, w: World,
                          retired: set<PublicKey>, k: PublicKey,
                          ps: seq<Peer>, n: nat, names: set<string>, rotated: bool, prior: seq<Prior>, t: Tally)
    requires n <= |ps|
  {
    && Underway(codec, w0, w, k, names, rotated) && Told(codec, key, w0, w, retired, k, ps, n, t)
    && Noted(self, w0, prior) && NotesAll(prior, t) && (!rotated ==> t.pushed == {})
  }

  lemma LoopStep(codec: Codec, key: string, self: string, w0: World, w: World, w': World,
                 retired: set<PublicKey>, k: PublicKey,
                 ps: seq<Peer>, n: nat,
                   names: set<string>, rotated: bool, prior: seq<Prior>, prior': seq<Prior>, t: Tally, out: Outcome)
    requires Faithful(codec) && Linked(w0.db) && PlainGroups(w0.db) && CertsOwned(self, w0)
    requires n < |ps| && Listed(w0.db, ps) && Named(ps) <= names && ps[n].name != self
    requires Looping(codec, key, self, w0, w, retired, k, ps, n, names, rotated, prior, t)
    requires PeerStep(codec, key, w, w', retired, k, ps[n], out)
    requires prior' == prior || prior' == prior + [Prior(ps[n].name, ps[n].row.cert, ps[n].row.serial)]
    requires out.Skipped? ==> prior' != prior
    ensures Underway(codec, w0, w', k, names, rotated || Rotates(out)) && Noted(self, w0, prior')
    ensures !out.Aborted? ==>
              Looping(codec, key, self, w0, w', retired, k, ps, n + 1, names, rotated
                      || Rotates(out), prior', Count(t, ps[n], out))
  {
    assert ps[n] in ps;
    assert ps[n].name in Named(ps);
    UnderwayStep(codec, key, w0, w, w', retired, k, ps[n], out, names, rotated);
    NotesStep(self, w0, prior, prior', t, ps[n], out);
    if !out.Aborted? {
      LinkedStays(w0.db, w.db, k);
      ToldStep(codec, key, w0, w, w', retired, k, ps, n, t, out, names, rotated);
      assert out.Pushed? ==> Rotates(out);
    }
  }

  lemma LinkedStays(t0: Tables, t: Tables, k: PublicKey)
    requires CertsOnly(t0, t, k) && Linked(t0) && PlainGroups(t0)
    ensures Linked(t) && PlainGroups(t)
  {
  }

  /** Where it stands when it gives up in the middle of peer n. */
  lemma LoopAbort(codec: Codec, key: string, self: string, w0: World, w: World, w': World,
                  retired: set<PublicKey>, k: PublicKey,
                  ps: seq<Peer>, n: nat,
                    names: set<string>, rotated: bool, prior: seq<Prior>, prior': seq<Prior>, t: Tally, out: Outcome)
    requires n < |ps| && Looping(codec, key, self, w0, w, retired, k, ps, n, names, rotated, prior, t)
    requires PeerStep(codec, key, w, w', retired, k, ps[n], out) && out.Aborted?
    requires prior' == prior || prior' == prior + [Prior(ps[n].name, ps[n].row.cert, ps[n].row.serial)]
    ensures RowsListed(self, w0.db, w'.db)
    ensures !(rotated || Rotates(out)) ==> forall name :: name in w0.db.peers && !NotedName(prior', name) ==>
              name in w'.db.peers && w'.db.peers[name] == w0.db.peers[name]
  {
    SameRows(w0, w, w', k, ps, t);
    forall name | NotedName(prior, name)
      ensures NotedName(prior', name)
    {
      var e :| e in prior && e.name == name;
      assert e in prior';
    }
    RowsSoFar(self, w0, w', k, ps, n, t, prior', rotated || Rotates(out));
  }

  lemma SameRows(w0: World, w: World, w': World, k: PublicKey, ps: seq<Peer>, t: Tally)
    requires RowsTold(w0, w, k, ps, t, {}) && w'.db == w.db && w.issued <= w'.issued
    ensures RowsTold(w0, w', k, ps, t, {})
  {
  }

  /** The loop of Rekey. done is false when it gave up in the middle. */
  method RotatePeers(d: Deps, ps: seq<Peer>, retired: seq<PublicKey>, k: PublicKey, ghost names: set<string>)
    returns (done: bool, rotatedAny: bool, prior: seq<Prior>, ghost t: Tally)
    requires d.Valid() && HasKey(d.dirs, "ca.next", k) && Listed(d.db.rows, ps) && Named(ps) <= names
    requires forall p :: p in ps ==> p.name != d.selfName && !p.row.revoked
    modifies d`hosts, d`issued, d`log, d`dialed, d`writes, d.db
    ensures d.Valid()
    ensures old(d.writes) <= d.writes && (rotatedAny <==> d.writes != old(d.writes))
    ensures Sunk(d.fate, Dialing) ==> !rotatedAny
    ensures Steady(d.fate) ==> done
    ensures Underway(d.codec, old(d.Now()), d.Now(), k, names, rotatedAny)
    ensures Noted(d.selfName, old(d.Now()), prior)
    ensures RowsListed(d.selfName, old(d.db.rows), d.db.rows)
    ensures !rotatedAny ==> forall name :: name in old(d.db.rows).peers && !NotedName(prior, name) ==>
                              d.db.rows.peers[name] == old(d.db.rows).peers[name]
    ensures done ==> Told(d.codec, d.instanceKey, old(d.Now()), d.Now(), SetOf(retired), k, ps, |ps|, t)
    ensures Visits(PeerSet(ps), old(d.hosts), d.hosts, old(d.dialed), d.dialed, t.updated)
    ensures done ==> Toured(d.fate, ps, |ps|, old(d.hosts), d.hosts, old(d.dialed), d.dialed, t)
  {
    ghost var w0 := d.Now();
    rotatedAny, prior, t := false, [], Tally({}, {}, {}, map[]);
    ToldNone(d.codec, d.instanceKey, w0, SetOf(retired), k, ps, names);
    TouredNone(d.fate, ps, d.hosts, d.dialed);
    d.Owned();
    d.Tidy();
    for i := 0 to |ps|
      invariant d.Valid() && HasKey(d.dirs, "ca.next", k)
      invariant Looping(d.codec, d.instanceKey, d.selfName, w0, d.Now(), SetOf(retired), k, ps, i, names, rotatedAny,
                        prior, t)
      invariant Toured(d.fate, ps, i, w0.hosts, d.hosts, old(d.dialed), d.dialed, t)
      invariant old(d.writes) <= d.writes && (rotatedAny <==> d.writes != old(d.writes))
      invariant Sunk(d.fate, Dialing) ==> !rotatedAny
    {
      ghost var w := d.Now();
      var p := ps[i];
      assert p in ps;
      ghost var desk := d.AtDesk();
      var out, prior' := RekeyPeer(d, p, retired, k, prior);
      assert Tried(desk, d.AtDesk(), p, Rotates(out));
      TouredStep(d.codec, d.fate, w0, w, d.Now(), k, names, rotatedAny, ps, i, t, out, old(d.dialed), desk.dialed,
                 d.dialed);
      LoopStep(d.codec, d.instanceKey, d.selfName, w0, w, d.Now(), SetOf(retired), k, ps, i, names, rotatedAny, prior,
               prior', t, out);
      if out.Aborted? {
        LoopAbort(d.codec, d.instanceKey, d.selfName, w0, w, d.Now(), SetOf(retired), k, ps, i, names, rotatedAny,
                  prior, prior', t, out);
        return false, rotatedAny || Rotates(out), prior', t;
      }
      prior := prior';
      rotatedAny := rotatedAny || Rotates(out);
      t := Count(t, p, out);
    }
    RowsSoFar(d.selfName, w0, d.Now(), k, ps, |ps|, t, prior, rotatedAny);
    return true, rotatedAny, prior, t;
  }

  lemma UnnotedRows(w0: World, w: World, k: PublicKey, ps: seq<Peer>, t: Tally, prior: seq<Prior>, rotated: bool)
    requires RowsTold(w0, w, k, ps, t, {}) && NotesAll(prior, t) && (!rotated ==> t.pushed == {})
    ensures !rotated ==> forall name :: name in w0.db.peers && !NotedName(prior, name) ==>
                           name in w.db.peers && w.db.peers[name] == w0.db.peers[name]
  {
  }

  lemma RowsSoFar(self: string, w0: World, w: World, k: PublicKey, ps: seq<Peer>, n: nat, t: Tally, prior: seq<Prior>,
                  rotated: bool)
    requires n <= |ps| && RowsTold(w0, w, k, ps, t, {}) && t.updated <= Named(ps[..n])
    requires NotesAll(prior, t) && (!rotated ==> t.pushed == {})
    ensures RowsListed(self, w0.db, w.db)
    ensures !rotated ==> forall name :: name in w0.db.peers && !NotedName(prior, name) ==>
                           name in w.db.peers && w.db.peers[name] == w0.db.peers[name]
  {
    assert Named(ps[..n]) <= Named(ps);
    ToldListed(self, w0, w, k, ps, t);
    UnnotedRows(w0, w, k, ps, t, prior, rotated);
  }

  // ---- The endings ----

  /**
   How a rotation ends. Clean: given up before any trust write was issued; rows and removed tell whether the rows
   and the directories are as before. Staged: given up later, the new key kept. Swapped: the new key is active;
   recorded tells whether the version was recorded too. own: what became of the manager's own files.
   */
  datatype Ending =
    | Clean(rows: bool, removed: bool, own: OwnPart)
    | Staged(dirs: SwapState, own: OwnPart)
    | Swapped(archive: string, tally: Tally, recorded: bool)

  function Updated(end: Ending): set<string> {
    if end.Swapped? then end.tally.updated else {}
  }

  function Own(end: Ending): OwnPart {
    if end.Swapped? then OwnBoth else end.own
  }

  ghost predicate SelfTold(w0: World, w: World, self: string, k: PublicKey) {
    self in w.db.peers && w.db.peers[self].cert.Some? &&
    var cert := w.db.peers[self].cert.value;
    IsSelfCert(w0.db, k, self, cert) && cert in w.issued && w.db.peers[self].serial == cert.serial
  }

  /** Everything a finished rotation leaves, but for the directories: w0 is the world right after key generation. */
  ghost predicate Finished(codec: Codec, key: string, self: string, w0: World, w: World,
                           retired: set<PublicKey>, k: PublicKey,
                           ps: seq<Peer>, t: Tally) {
    && w.minted == w0.minted && w.bundles == w0.bundles && w0.issued <= w.issued
    && (forall c :: c in w.issued && c !in w0.issued ==> c.issuer == k && c.keyId in Named(ps) + {self})
    && CertsOnly(w0.db.(rev := w.db.rev), w.db, k) && TrustGrows(codec, w0, w, k)
    && Counted(ps, |ps|, t) && t.pushed <= t.updated && self !in t.updated
    && RowsTold(w0, w, k, ps, t, {self}) && SelfTold(w0, w, self, k)
    && TrustTold(codec, w0, w, retired, k, ps, t)
    && FilesTold(codec, key, w0, w, retired, k, ps, |ps|, t)
  }

  lemma FinishSelf(codec: Codec, key: string, self: string, w: World, w1: World, w2: World,
                   retired: set<PublicKey>, k: PublicKey,
                   ps: seq<Peer>, t: Tally, rotated: bool, cert: Cert)
    requires Listed(w.db, ps) && (forall p :: p in ps ==> p.name != self) && self in w.db.peers
    requires Underway(codec, Generated(w, k), w1, k, Named(ps) + {self}, rotated)
    requires Told(codec, key, Generated(w, k), w1, retired, k, ps, |ps|, t)
    requires Signs(w1, w2, k, self) && Stored(w1, w2, self, cert) && IsSelfCert(w1.db, k, self, cert)
             && w2.hosts == w1.hosts
    ensures Finished(codec, key, self, Generated(w, k), w2, retired, k, ps, t)
  {
    var w0 := Generated(w, k);
    assert ps[..|ps|] == ps;
    assert self !in Named(ps) && self !in t.updated;
    SelfWorld(codec, self, w0, w1, w2, k, Named(ps) + {self}, rotated, cert);
    SelfRows(self, w0, w1, w2, k, ps, t, cert);
    TradesStay(codec, w0, w1, w2, retired, k, ps, t);
    FilesStay(codec, key, w0, w1, w2, retired, k, ps, |ps|, t);
  }

  /** The world after the manager's own row was stored. */
  lemma SelfWorld(codec: Codec, self: string, w0: World, w1: World, w2: World, k: PublicKey,
                  names: set<string>, rotated: bool, cert: Cert)
    requires self in w0.db.peers && self in names && Underway(codec, w0, w1, k, names, rotated)
    requires Signs(w1, w2, k, self) && Stored(w1, w2, self, cert) && cert.issuer == k && w2.hosts == w1.hosts
    ensures w2.minted == w0.minted && w2.bundles == w0.bundles && w0.issued <= w2.issued && w2.dirs == w0.dirs
            && w2.db.rev == w0.db.rev
    ensures forall c :: c in w2.issued && c !in w0.issued ==> c.issuer == k && c.keyId in names
    ensures CertsOnly(w0.db, w2.db, k) && CertsOnly(w0.db.(rev := w2.db.rev), w2.db, k) && TrustGrows(codec, w0, w2, k)
  {
    StoreMoves(w0.db, w1.db, self, cert);
    assert w0.db.(rev := w2.db.rev) == w0.db;
  }

  lemma FilesStay(codec: Codec, key: string, w0: World, w1: World, w2: World,
                  retired: set<PublicKey>, k: PublicKey, ps: seq<Peer>, n: nat, t: Tally)
    requires n <= |ps| && FilesTold(codec, key, w0, w1, retired, k, ps, n, t) && w2.hosts == w1.hosts
    ensures FilesTold(codec, key, w0, w2, retired, k, ps, n, t)
  {
  }

  /** No other row moves with it. */
  lemma SelfListed(codec: Codec, self: string, w: World, w1: World, w2: World, k: PublicKey,
                   names: set<string>, rotated: bool, cert: Cert)
    requires Underway(codec, Generated(w, k), w1, k, names, rotated) && RowsListed(self, w.db, w1.db)
    requires Signs(w1, w2, k, self) && Stored(w1, w2, self, cert)
    ensures w2.dirs == Generated(w, k).dirs && w2.db.rev == w.db.rev && RowsListed(self, w.db, w2.db)
  {
  }

  lemma TradesStay(codec: Codec, w0: World, w1: World, w2: World,
                   retired: set<PublicKey>, k: PublicKey, ps: seq<Peer>, t: Tally)
    requires TrustTold(codec, w0, w1, retired, k, ps, t) && w2.hosts == w1.hosts
    ensures TrustTold(codec, w0, w2, retired, k, ps, t)
  {
    forall p | p in ps && p.name in t.pushed
      ensures Traded(codec, w0, w2, retired, k, Home(p))
    {
      assert Traded(codec, w0, w1, retired, k, Home(p));
    }
  }

  lemma SelfRows(self: string, w0: World, w1: World, w2: World, k: PublicKey, ps: seq<Peer>, t: Tally, cert: Cert)
    requires RowsTold(w0, w1, k, ps, t, {}) && self in w0.db.peers && self !in t.updated && forall p :: p in ps ==>
               p.name != self
    requires CertsOnly(w0.db, w1.db, k) && w1.issued <= w2.issued
    requires Stored(w1, w2, self, cert) && IsSelfCert(w1.db, k, self, cert)
    ensures RowsTold(w0, w2, k, ps, t, {self}) && SelfTold(w0, w2, self, k)
  {
  }

  /** Moving directories and bumping the revision changes none of it. */
  lemma FinishedStays(codec: Codec, key: string, self: string, w0: World, w: World, w': World,
                      retired: set<PublicKey>, k: PublicKey,
                      ps: seq<Peer>, t: Tally)
    requires Finished(codec, key, self, w0, w, retired, k, ps, t)
    requires w' == w.(dirs := w'.dirs, db := w.db.(rev := w'.db.rev))
    ensures Finished(codec, key, self, w0, w', retired, k, ps, t)
  {
    assert w0.db.(rev := w.db.rev).(rev := w'.db.rev) == w0.db.(rev := w'.db.rev);
  }

  /** What is left of the staged key when a rotation is given up cleanly. */
  ghost predicate Dropped(w: World, dirs: map<string, Slot>, k: PublicKey, removed: bool) {
    if removed then dirs == w.dirs
    else "ca.next" !in w.dirs && dirs in {Generated(w, k).dirs, w.dirs["ca.next" := Partial]}
  }

  /**
   The three ways a rotation can end, from the world w it started in: as before; given up with ca.next kept;
   or swapped, each listed peer either updated or failed. Every certificate it issued is of the new key.
   */
  ghost predicate Ended(codec: Codec, key: string, self: string, w: World, w': World,
                        exclude: set<string>, k: PublicKey, end: Ending) {
    var w0, ps := Generated(w, k), Others(w.db, self, exclude);
    && (forall c :: c in w'.issued && c !in w.issued ==> c.issuer == k)
    && match end
       case Clean(rows, removed, own) =>
         && w'.hosts == w.hosts && CertsOnly(w.db, w'.db, k) && RowsListed(self, w.db, w'.db)
         && (rows ==> w'.db == w.db) && Dropped(w, w'.dirs, k, removed) && !own.OwnBoth?
       case Staged(s, _) =>
         && "ca.next" !in w.dirs && DirsAt(w0.dirs, w'.dirs, s) && !s.Both? && HasKey(w'.dirs, "ca.next", k)
         && CertsOnly(w.db, w'.db, k) && RowsListed(self, w.db, w'.db) && TrustGrows(codec, w, w', k)
       case Swapped(archive, t, recorded) =>
         && (recorded ==> w'.db.rev == w.db.rev + 1) && "ca.next" !in w.dirs && DirsAt(w0.dirs, w'.dirs, Both(archive))
         && Finished(codec, key, self, w0, w', RetiredKeys(w), k, ps, t)
  }

  /**
   Without a swap ca.next is kept if and only if a trust write was issued to a peer or both own files were rewritten.
   */
  ghost predicate Traced(writes: seq<Account>, writes': seq<Account>, rewrites: nat, rewrites': nat, end: Ending) {
    && writes <= writes' && rewrites' == rewrites + (if Own(end).OwnBoth? then 1 else 0)
    && (!end.Swapped? ==> (end.Staged? <==> writes' != writes || rewrites' != rewrites))
  }

  /** What a rotation leaves at the desk: its own two files, and why it kept or dropped the key. */
  ghost predicate Left(codec: Codec, fate: Fates, b: Desk, b': Desk,
                       retired: set<PublicKey>, k: PublicKey, end: Ending) {
    && OwnFiles(codec, fate, b.keys, b'.keys, b.cert, b'.cert, retired, k, Own(end))
    && Traced(b.writes, b'.writes, b.rewrites, b'.rewrites, end)
  }

  lemma LeftBy(codec: Codec, fate: Fates, b: Desk, b1: Desk, b': Desk,
               retired: set<PublicKey>, k: PublicKey, rotated: bool, end: Ending)
    requires b1 == b.(writes := b1.writes, dialed := b1.dialed)
    requires b.writes <= b1.writes && (rotated <==> b1.writes != b.writes)
    requires OwnLeft(codec, fate, b1, b', retired, k, Own(end))
    requires !end.Swapped? ==> (end.Staged? <==> rotated || Own(end).OwnBoth?)
    ensures Left(codec, fate, b, b', retired, k, end)
  {
  }

  /** What a rotation of these peers leaves at the desk and whom it reaches. */
  ghost predicate Course(codec: Codec, fate: Fates, b: Desk, b': Desk,
                         hosts: map<Account, Files>, hosts': map<Account, Files>,
                         retired: set<PublicKey>, k: PublicKey, ps: seq<Peer>, end: Ending) {
    && Left(codec, fate, b, b', retired, k, end)
    && Visits(PeerSet(ps), hosts, hosts', b.dialed, b'.dialed, Updated(end))
    && (end.Swapped? ==> NobodyLeft(fate, ps, |ps|, hosts, end.tally.updated))
  }

  lemma CourseNone(codec: Codec, fate: Fates, b: Desk, hosts: map<Account, Files>,
                   retired: set<PublicKey>, k: PublicKey, ps: seq<Peer>)
    ensures forall removed :: Course(codec, fate, b, b, hosts, hosts, retired, k, ps, Clean(true, removed, OwnNone))
  {
    VisitsNone(PeerSet(ps), hosts, b.dialed);
  }

  lemma CourseBy(codec: Codec, fate: Fates, b: Desk, b1: Desk, b': Desk,
                 hosts: map<Account, Files>, hosts': map<Account, Files>,
                 retired: set<PublicKey>, k: PublicKey, ps: seq<Peer>, rotated: bool, done: bool, t: Tally, end: Ending)
    requires b1 == b.(writes := b1.writes, dialed := b1.dialed)
    requires b.writes <= b1.writes && (rotated <==> b1.writes != b.writes)
    requires OwnLeft(codec, fate, b1, b', retired, k, Own(end))
    requires !end.Swapped? ==> (end.Staged? <==> rotated || Own(end).OwnBoth?)
    requires Visits(PeerSet(ps), hosts, hosts', b.dialed, b1.dialed, t.updated)
    requires done ==> Toured(fate, ps, |ps|, hosts, hosts', b.dialed, b1.dialed, t)
    requires (Steady(fate) ==> done) && (end.Swapped? ==> end.tally == t)
    ensures Course(codec, fate, b, b', hosts, hosts', retired, k, ps, end)
  {
    LeftBy(codec, fate, b, b1, b', retired, k, rotated, end);
    VisitsLess(PeerSet(ps), hosts, hosts', b.dialed, b1.dialed, t.updated, Updated(end));
  }

  /** The keys a rotation retires: those it can read in ca/ and the archives. */
  ghost function RetiredKeys(w: World): set<PublicKey> {
    set k | k in w.minted && Readable(w.dirs, k)
  }

  lemma RetiredAre(codec: Codec, self: string, w: World, keys: seq<PublicKey>)
    requires Inv(codec, self, w) && forall k :: k in keys <==> Readable(w.dirs, k)
    ensures SetOf(keys) == RetiredKeys(w)
  {
    forall k | Readable(w.dirs, k)
      ensures k in w.minted
    {
      var name :| (name == "ca" || IsArchive(name)) && ReadableAt(w.dirs, name, k);
      assert HasKey(w.dirs, name, k);
      assert Held(w.dirs, k);
    }
  }

  lemma ReadableStays(dirs: map<string, Slot>, slot: Slot, k: PublicKey)
    ensures Readable(dirs["ca.next" := slot], k) <==> Readable(dirs, k)
  {
    NotArchives();
    forall name | name == "ca" || IsArchive(name)
      ensures ReadableAt(dirs["ca.next" := slot], name, k) <==> ReadableAt(dirs, name, k)
    {
    }
  }

  // ---- Giving up ----

  lemma UnusedWhenFresh(codec: Codec, w: World, w': World, k: PublicKey)
    requires Fresh(codec, w, k) && w'.hosts == w.hosts
    requires forall x :: HasKey(w'.dirs, "ca.next", x) ==> x == k
    ensures StagedUnused(codec, w')
  {
  }

  /** Where a rotation that has not swapped can stand. */
  ghost predicate Unswapped(codec: Codec, self: string, w: World, w1: World, k: PublicKey, s: SwapState) {
    && "ca.next" !in w.dirs && DirsAt(Generated(w, k).dirs, w1.dirs, s) && !s.Both?
    && w.issued <= w1.issued && (forall c :: c in w1.issued && c !in w.issued ==> c.issuer == k)
    && CertsOnly(w.db, w1.db, k) && RowsListed(self, w.db, w1.db) && TrustGrows(codec, w, w1, k)
  }

  lemma StagedEnds(codec: Codec, key: string, self: string, w: World, w1: World,
                   exclude: set<string>, k: PublicKey, s: SwapState, own: OwnPart)
    requires Unswapped(codec, self, w, w1, k, s)
    ensures Ended(codec, key, self, w, w1, exclude, k, Staged(s, own))
  {
    NotArchives();
  }

  /** What removing ca.next leaves. */
  lemma RemovalLeaves(w: World, dirs: map<string, Slot>, dirs': map<string, Slot>, k: PublicKey, ok: bool)
    requires "ca.next" !in w.dirs && dirs in {w.dirs, w.dirs["ca.next" := Partial], Generated(w, k).dirs}
    requires if ok then dirs' == dirs - {"ca.next"} else dirs' == dirs || dirs' == dirs["ca.next" := Partial]
    ensures (ok ==> dirs' == w.dirs) && Dropped(w, dirs', k, dirs' == w.dirs)
    ensures dirs == Generated(w, k).dirs ==> Dropped(w, dirs', k, ok)
  {
    assert w.dirs["ca.next" := Partial]["ca.next" := Partial] == w.dirs["ca.next" := Partial];
    assert Generated(w, k).dirs["ca.next" := Partial] == w.dirs["ca.next" := Partial];
    assert ok ==> dirs' == w.dirs;
  }

  /** No row but the noted ones has changed. */
  ghost predicate NotedOnly(t0: Tables, t: Tables, prior: seq<Prior>) {
    forall name :: name in t0.peers && !NotedName(prior, name) ==> name in t.peers && t.peers[name] == t0.peers[name]
  }

  /** Whatever undoing is known to work was done. */
  ghost predicate CleanedUp(fate: Fates, end: Ending) {
    && (end.Clean? ==> (Sure(fate, Discarding) ==> end.removed) && (Sure(fate, Statement) ==> end.rows))
    && (end.Staged? && Sure(fate, Unarchiving) ==> !end.dirs.OldOnly?)
  }

  /** Nothing but noted rows has to be undone. */
  ghost predicate Undoable(codec: Codec, self: string, w: World, w1: World, k: PublicKey, prior: seq<Prior>) {
    Fresh(codec, w, k) && w1.hosts == w.hosts && Noted(self, w, prior) && NotedOnly(w.db, w1.db, prior)
  }

  /** The deferred cleanup when nothing was committed. */
  method GiveUp(d: Deps, rotatedAny: bool, prior: seq<Prior>, k: PublicKey, ghost w: World, ghost exclude: set<string>,
                ghost s: SwapState, ghost own: OwnPart)
    returns (ghost end: Ending)
    requires d.Valid() && Unswapped(d.codec, d.selfName, w, d.Now(), k, s)
    requires !rotatedAny ==> Undoable(d.codec, d.selfName, w, d.Now(), k, prior) && s.Neither? && !own.OwnBoth?
    modifies d`dirs, d`log, d.db
    ensures d.Valid() && (if rotatedAny then end.Staged? else end.Clean?) && Own(end) == own
    ensures Ended(d.codec, d.instanceKey, d.selfName, w, d.Now(), exclude, k, end)
    ensures (s.OldOnly? ==> !Sure(d.fate, Unarchiving)) ==> CleanedUp(d.fate, end)
  {
    if rotatedAny {
      StagedEnds(d.codec, d.instanceKey, d.selfName, w, d.Now(), exclude, k, s, own);
      return Staged(s, own);
    }
    var restored := Restore(d, prior, w, k);
    NotArchives();
    UnusedWhenFresh(d.codec, w, d.Now(), k);
    var removed := d.DiscardNext();
    RemovalLeaves(w, old(d.dirs), d.dirs, k, removed);
    return Clean(restored, removed, own);
  }

  // ---- Rekey ----

  /** What follows the swap: the CA version rows and the fleet revision. Failing here does not undo the swap. */
  method RecordVersion(d: Deps) returns (ok: bool)
    requires d.Valid()
    modifies d`log, d.db
    ensures d.Valid() && d.db.rows == old(d.db.rows).(rev := d.db.rows.rev)
    ensures ok ==> d.db.rows.rev == old(d.db.rows).rev + 1
    ensures Sure(d.fate, Recording) && Sure(d.fate, Statement) ==> ok
    ensures Sunk(d.fate, Recording) ==> !ok
  {
    var recorded := Try(d.fate, Recording);
    if !recorded {
      return false;
    }
    ok := d.BumpFleetRev();
  }

  /** The directories a rotation can start from. */
  predicate Ready(dirs: map<string, Slot>) {
    "ca.next" !in dirs && "ca" in dirs && dirs["ca"].Keyed? && dirs["ca"].readable
  }

  /** The preconditions and the key generation; nothing is rotated yet. */
  method StageKey(d: Deps, key: PublicKey) returns (r: Result<seq<PublicKey>, OpError>, ghost removed: bool)
    requires d.Valid() && Fresh(d.codec, d.Now(), key)
    modifies d`dirs, d`minted, d`log
    ensures d.Valid()
    ensures r.Ok? ==> d.Now() == Generated(old(d.Now()), key)
    ensures r.Ok? ==> "ca.next" !in old(d.dirs) && "ca" in d.dirs && SetOf(r.value) == RetiredKeys(old(d.Now()))
    ensures r.Err? ==> Dropped(old(d.Now()), d.dirs, key, removed) && (Sure(d.fate, Discarding) ==> removed)
    ensures Ready(old(d.dirs)) && Sure(d.fate, KeyGeneration) ==> r.Ok?
  {
    removed := true;
    if "ca.next" in d.dirs {
      return Err(Refused), true;
    }
    ghost var w := d.Now();
    d.Sane();
    var generated := d.GenerateCA(key);
    if !generated {
      ghost var dirs := d.dirs;
      var discarded := d.DiscardNext();
      RemovalLeaves(w, dirs, d.dirs, key, discarded);
      return Err(Failed), d.dirs == w.dirs;
    }
    r := d.InstanceCAPubKeys();
    if r.Err? {
      UnusedWhenFresh(d.codec, w, d.Now(), key);
      ghost var dirs := d.dirs;
      var discarded := d.DiscardNext();
      RemovalLeaves(w, dirs, d.dirs, key, discarded);
      return r, d.dirs == w.dirs;
    }
    forall k
      ensures k in r.value <==> Readable(w.dirs, k)
    {
      ReadableStays(w.dirs, Keyed(key, true), k);
    }
    RetiredAre(d.codec, d.selfName, w, r.value);
  }

  /** The manager presents the certificate its own row holds. */
  ghost predicate PresentsRow(d: Deps)
    reads d, d.db
  {
    d.selfName in d.db.rows.peers && d.selfCert == d.db.rows.peers[d.selfName].cert
  }

  /** Everything before the swap is known to work, up to the manager's own certificate. */
  predicate Smooth(fate: Fates) {
    Steady(fate) && Sure(fate, OwnKeys) && Sure(fate, OwnCert) && Sure(fate, Stating) && Sure(fate, Archiving)
      && Sure(fate, Promoting)
  }

  /** No peer can be dialed, and of the manager's own two files only the first can be written. */
  predicate Torn(fate: Fates) {
    Steady(fate) && Sunk(fate, Dialing) && Sure(fate, OwnKeys) && Sunk(fate, OwnCert)
  }

  /** The peers are through: w1 is where that left the world w. */
  ghost predicate PeersDone(codec: Codec, key: string, self: string, w: World, w1: World,
                            retired: set<PublicKey>, k: PublicKey,
                            ps: seq<Peer>, rotated: bool, prior: seq<Prior>, t: Tally) {
    && Underway(codec, Generated(w, k), w1, k, Named(ps) + {self}, rotated)
    && Told(codec, key, Generated(w, k), w1, retired, k, ps, |ps|, t)
    && RowsListed(self, w.db, w1.db) && Noted(self, w, prior) && (!rotated ==> NotedOnly(w.db, w1.db, prior))
  }

  /** What a rotation of these peers starts from. */
  ghost predicate Staging(codec: Codec, self: string, w: World,
                          retired: set<PublicKey>, k: PublicKey, ps: seq<Peer>, exclude: set<string>) {
    && Fresh(codec, w, k) && Inv(codec, self, w) && "ca.next" !in w.dirs && "ca" in w.dirs
    && retired == RetiredKeys(w) && ps == Others(w.db, self, exclude)
  }

  /** The rotation once the key is staged. */
  method RotateFleet(d: Deps, ps: seq<Peer>, retired: seq<PublicKey>, k: PublicKey, stamp: string,
                     exclude: set<string>, ghost w: World)
    returns (ok: bool, ghost end: Ending)
    requires d.Valid() && d.Now() == Generated(w, k) && Staging(d.codec, d.selfName, w, SetOf(retired), k, ps, exclude)
    modifies d`dirs, d`hosts, d`selfKeys, d`selfCert, d`rewrites, d`writes, d`dialed, d`issued, d`log, d.db
    ensures d.Valid()
    ensures Ended(d.codec, d.instanceKey, d.selfName, w, d.Now(), exclude, k, end)
    ensures ok <==> end.Swapped? && end.recorded
    ensures end.Swapped? ==> PresentsRow(d)
    ensures Course(d.codec, d.fate, old(d.AtDesk()), d.AtDesk(), w.hosts, d.hosts, SetOf(retired), k, ps, end)
    ensures Chosen(d.fate, end)
  {
    ghost var names := Named(ps) + {d.selfName};
    ghost var before := d.AtDesk();
    OthersListed(w.db, d.selfName, exclude);
    var done, rotatedAny, prior, t := RotatePeers(d, ps, retired, k, names);
    ghost var mid := d.AtDesk();
    UnswappedYet(d.codec, d.selfName, w, d.Now(), k, names, rotatedAny);
    ghost var own;
    ok, end, own := Conclude(d, done, ps, retired, k, stamp, prior, rotatedAny, t, exclude, w);
    CourseBy(d.codec, d.fate, before, mid, d.AtDesk(), w.hosts, d.hosts, SetOf(retired), k, ps, rotatedAny, done, t,
             end);
  }

  /**
   What follows the loop over the peers: give up if it was left in the middle, otherwise go on to the manager's own
   row.
   */
  method Conclude(d: Deps, done: bool, ps: seq<Peer>, retired: seq<PublicKey>, k: PublicKey, stamp: string,
                  prior: seq<Prior>,
                  rotatedAny: bool, ghost t: Tally, ghost exclude: set<string>, ghost w: World)
    returns (ok: bool, ghost end: Ending, ghost own: OwnPart)
    requires d.Valid() && Staging(d.codec, d.selfName, w, SetOf(retired), k, ps, exclude)
    requires Unswapped(d.codec, d.selfName, w, d.Now(), k, Neither)
    requires !rotatedAny ==> Undoable(d.codec, d.selfName, w, d.Now(), k, prior)
    requires done ==>
               PeersDone(d.codec, d.instanceKey, d.selfName, w, d.Now(), SetOf(retired), k, ps, rotatedAny, prior, t)
    requires (Steady(d.fate) ==> done) && (Torn(d.fate) ==> !rotatedAny)
    modifies d`dirs, d`selfKeys, d`selfCert, d`rewrites, d`issued, d`log, d.db
    ensures d.Valid()
    ensures Ended(d.codec, d.instanceKey, d.selfName, w, d.Now(), exclude, k, end)
    ensures ok <==> end.Swapped? && end.recorded
    ensures end.Swapped? ==> PresentsRow(d)
    ensures OwnLeft(d.codec, d.fate, old(d.AtDesk()), d.AtDesk(), SetOf(retired), k, own) && Own(end) == own
    ensures !end.Swapped? ==> (end.Staged? <==> rotatedAny || own.OwnBoth?)
    ensures Chosen(d.fate, end) && (end.Swapped? ==> end.tally == t)
  {
    if done {
      ok, end, own := SelfAndSwap(d, ps, retired, k, stamp, prior, rotatedAny, t, exclude, w);
    } else {
      ok, own := false, OwnNone;
      OwnUntouched(d.codec, d.fate, d.AtDesk(), SetOf(retired), k);
      end := GiveUp(d, rotatedAny, prior, k, w, exclude, Neither, own);
    }
  }

  /** What knowing the environment's decisions says about the ending of a rotation that got as far as its peers. */
  ghost predicate Chosen(fate: Fates, end: Ending) {
    && CleanedUp(fate, end)
    && (Smooth(fate) ==> end.Swapped?)
    && (Torn(fate) ==> end.Clean? && end.own.OwnKeysOnly?)
    && (end.Swapped? && Sure(fate, Recording) && Sure(fate, Statement) ==> end.recorded)
    && (end.Swapped? && Sunk(fate, Recording) ==> !end.recorded)
  }

  lemma OthersListed(t: Tables, self: string, exclude: set<string>)
    ensures Listed(t, Others(t, self, exclude))
    ensures forall p :: p in Others(t, self, exclude) ==> p.name != self && !p.row.revoked
  {
    OthersAre(t, self, exclude);
    assert forall p :: p in Others(t, self, exclude) ==> p.name in Named(Others(t, self, exclude));
  }

  lemma UnswappedYet(codec: Codec, self: string, w: World, w1: World, k: PublicKey, names: set<string>, rotated: bool)
    requires "ca.next" !in w.dirs && Underway(codec, Generated(w, k), w1, k, names, rotated)
             && RowsListed(self, w.db, w1.db)
    ensures Unswapped(codec, self, w, w1, k, Neither)
  {
  }

  /** The rotation once the peers are through: the manager's own row, then the swap. */
  method SelfAndSwap(d: Deps, ps: seq<Peer>, retired: seq<PublicKey>, k: PublicKey, stamp: string, prior: seq<Prior>,
                     rotatedAny: bool,
                     ghost t: Tally, ghost exclude: set<string>, ghost w: World)
    returns (ok: bool, ghost end: Ending, ghost own: OwnPart)
    requires d.Valid() && Staging(d.codec, d.selfName, w, SetOf(retired), k, ps, exclude)
    requires PeersDone(d.codec, d.instanceKey, d.selfName, w, d.Now(), SetOf(retired), k, ps, rotatedAny, prior, t)
    requires Torn(d.fate) ==> !rotatedAny
    modifies d`dirs, d`selfKeys, d`selfCert, d`rewrites, d`issued, d`log, d.db
    ensures d.Valid()
    ensures Ended(d.codec, d.instanceKey, d.selfName, w, d.Now(), exclude, k, end)
    ensures ok <==> end.Swapped? && end.recorded
    ensures end.Swapped? ==> PresentsRow(d)
    ensures OwnLeft(d.codec, d.fate, old(d.AtDesk()), d.AtDesk(), SetOf(retired), k, own) && Own(end) == own
    ensures !end.Swapped? ==> (end.Staged? <==> rotatedAny || own.OwnBoth?)
    ensures Chosen(d.fate, end) && (end.Swapped? ==> end.tally == t)
  {
    ghost var w1 := d.Now();
    var part, cert := RekeySelf(d, retired, k);
    own := part;
    ok, end := AfterSelf(d, ps, retired, k, stamp, prior, rotatedAny, t, exclude, w, w1, part, cert);
  }

  /** What follows the manager's own row, which is stored or not: w1 is the world before it. */
  method AfterSelf(d: Deps, ps: seq<Peer>, retired: seq<PublicKey>, k: PublicKey, stamp: string, prior: seq<Prior>,
                   rotatedAny: bool,
                   ghost t: Tally,
                     ghost exclude: set<string>, ghost w: World, ghost w1: World, part: OwnPart, cert: Option<Cert>)
    returns (ok: bool, ghost end: Ending)
    requires d.Valid() && Staging(d.codec, d.selfName, w, SetOf(retired), k, ps, exclude)
    requires PeersDone(d.codec, d.instanceKey, d.selfName, w, w1, SetOf(retired), k, ps, rotatedAny, prior, t)
    requires Signs(w1, d.Now(), k, d.selfName) && d.hosts == w1.hosts
    requires if cert.None? then d.db.rows == w1.db
             else part.OwnBoth? && d.selfCert == cert && IsSelfCert(w1.db, k, d.selfName, cert.value)
                  && Stored(w1, d.Now(), d.selfName, cert.value)
    requires (Smooth(d.fate) ==> cert.Some?) && (Torn(d.fate) ==> !rotatedAny && part.OwnKeysOnly?)
    modifies d`dirs, d`log, d.db
    ensures d.Valid() && Own(end) == part
    ensures Ended(d.codec, d.instanceKey, d.selfName, w, d.Now(), exclude, k, end)
    ensures ok <==> end.Swapped? && end.recorded
    ensures end.Swapped? ==> PresentsRow(d)
    ensures !end.Swapped? ==> (end.Staged? <==> rotatedAny || part.OwnBoth?)
    ensures Chosen(d.fate, end) && (end.Swapped? ==> end.tally == t)
  {
    if cert.None? {
      ok := false;
      end := GiveUpSelf(d, ps, retired, k, prior, rotatedAny, t, exclude, w, w1, part);
    } else {
      ok, end := SwapAndRecord(d, ps, retired, k, stamp, prior, rotatedAny, t, exclude, w, w1, cert.value);
    }
  }

  /** Giving up once the peers are through and the manager's own row is not stored: w1 is the world before that. */
  method GiveUpSelf(d: Deps, ps: seq<Peer>, retired: seq<PublicKey>, k: PublicKey, prior: seq<Prior>, rotatedAny: bool,
                    ghost t: Tally, ghost exclude: set<string>, ghost w: World, ghost w1: World, part: OwnPart)
    returns (ghost end: Ending)
    requires d.Valid() && Staging(d.codec, d.selfName, w, SetOf(retired), k, ps, exclude)
    requires PeersDone(d.codec, d.instanceKey, d.selfName, w, w1, SetOf(retired), k, ps, rotatedAny, prior, t)
    requires Signs(w1, d.Now(), k, d.selfName) && d.db.rows == w1.db && d.hosts == w1.hosts
    requires !Smooth(d.fate) && (Torn(d.fate) ==> !rotatedAny && part.OwnKeysOnly?)
    modifies d`dirs, d`log, d.db
    ensures d.Valid() && (if rotatedAny || part.OwnBoth? then end.Staged? else end.Clean?) && Own(end) == part
    ensures Ended(d.codec, d.instanceKey, d.selfName, w, d.Now(), exclude, k, end)
    ensures Chosen(d.fate, end) && (end.Swapped? ==> end.tally == t)
  {
    SelfUnswapped(d.codec, d.instanceKey, d.selfName, w, w1, d.Now(), SetOf(retired), k, ps, rotatedAny, prior, t,
                  exclude);
    end := GiveUp(d, rotatedAny || part.OwnBoth?, prior, k, w, exclude, Neither, part);
  }

  lemma SelfUnswapped(codec: Codec, key: string, self: string, w: World, w1: World, w2: World,
                      retired: set<PublicKey>, k: PublicKey,
                      ps: seq<Peer>, rotated: bool, prior: seq<Prior>, t: Tally, exclude: set<string>)
    requires Staging(codec, self, w, retired, k, ps, exclude)
             && PeersDone(codec, key, self, w, w1, retired, k, ps, rotated, prior, t)
    requires Signs(w1, w2, k, self) && w2.db == w1.db && w2.hosts == w1.hosts
    ensures Unswapped(codec, self, w, w2, k, Neither) && (!rotated ==> Undoable(codec, self, w, w2, k, prior))
  {
  }

  lemma SelfStored(codec: Codec, key: string, self: string, w: World, w1: World, w2: World,
                   retired: set<PublicKey>, k: PublicKey,
                   ps: seq<Peer>, rotated: bool, prior: seq<Prior>, t: Tally, exclude: set<string>, cert: Cert)
    requires Staging(codec, self, w, retired, k, ps, exclude)
             && PeersDone(codec, key, self, w, w1, retired, k, ps, rotated, prior, t)
    requires Signs(w1, w2, k, self) && Stored(w1, w2, self, cert) && IsSelfCert(w1.db, k, self, cert)
             && w2.hosts == w1.hosts
    ensures Finished(codec, key, self, Generated(w, k), w2, retired, k, ps, t)
    ensures w2.dirs == Generated(w, k).dirs && w2.db.rev == w.db.rev && RowsListed(self, w.db, w2.db)
  {
    OthersListed(w.db, self, exclude);
    FinishSelf(codec, key, self, w, w1, w2, retired, k, ps, t, rotated, cert);
    SelfListed(codec, self, w, w1, w2, k, Named(ps) + {self}, rotated, cert);
  }

  /** The last part: swap the directories, then record the version. */
  method SwapAndRecord(d: Deps, ps: seq<Peer>, retired: seq<PublicKey>, k: PublicKey, stamp: string, prior: seq<Prior>,
                       ghost rotated: bool,
                       ghost t: Tally, ghost exclude: set<string>, ghost w: World, ghost w1: World, ghost cert: Cert)
    returns (ok: bool, ghost end: Ending)
    requires d.Valid() && Staging(d.codec, d.selfName, w, SetOf(retired), k, ps, exclude)
    requires PeersDone(d.codec, d.instanceKey, d.selfName, w, w1, SetOf(retired), k, ps, rotated, prior, t)
    requires Signs(w1, d.Now(), k, d.selfName) && Stored(w1, d.Now(), d.selfName, cert)
    requires IsSelfCert(w1.db, k, d.selfName, cert) && d.hosts == w1.hosts && !Torn(d.fate)
    modifies d`dirs, d`log, d.db
    ensures d.Valid()
    ensures Ended(d.codec, d.instanceKey, d.selfName, w, d.Now(), exclude, k, end)
    ensures ok <==> end.Swapped? && end.recorded
    ensures Own(end).OwnBoth? && !end.Clean? && (end.Swapped? ==> d.db.rows.peers == old(d.db.rows).peers)
    ensures Chosen(d.fate, end) && (end.Swapped? ==> end.tally == t)
  {
    ghost var w2 := d.Now();
    SelfStored(d.codec, d.instanceKey, d.selfName, w, w1, w2, SetOf(retired), k, ps, rotated, prior, t, exclude, cert);
    var s := SwapDirs(d, stamp);
    if !s.Both? {
      FinishedUnswapped(d.codec, d.instanceKey, d.selfName, w, w2, d.Now(), SetOf(retired), k, ps, t, s);
      ok := false;
      end := GiveUp(d, true, prior, k, w, exclude, s, OwnBoth);
    } else {
      ok := RecordVersion(d);
      end := Swapped(s.archive, t, ok);
      SwappedEnds(d.codec, d.instanceKey, d.selfName, w, w2, d.Now(), retired, k, ps, t, exclude, s.archive, ok);
    }
  }

  lemma SwappedEnds(codec: Codec, key: string, self: string, w: World, w2: World, w3: World, retired: seq<PublicKey>,
                    k: PublicKey,
                    ps: seq<Peer>, t: Tally, exclude: set<string>, archive: string, recorded: bool)
    requires "ca.next" !in w.dirs && SetOf(retired) == RetiredKeys(w) && ps == Others(w.db, self, exclude)
    requires Finished(codec, key, self, Generated(w, k), w2, SetOf(retired), k, ps, t)
    requires w3 == w2.(dirs := w3.dirs, db := w2.db.(rev := w3.db.rev))
             && DirsAt(Generated(w, k).dirs, w3.dirs, Both(archive))
    requires recorded ==> w3.db.rev == w.db.rev + 1
    ensures Ended(codec, key, self, w, w3, exclude, k, Swapped(archive, t, recorded))
  {
    FinishedStays(codec, key, self, Generated(w, k), w2, w3, SetOf(retired), k, ps, t);
  }

  lemma FinishedUnswapped(codec: Codec, key: string, self: string, w: World, w2: World, w3: World,
                          retired: set<PublicKey>, k: PublicKey,
                          ps: seq<Peer>, t: Tally, s: SwapState)
    requires "ca.next" !in w.dirs && Finished(codec, key, self, Generated(w, k), w2, retired, k, ps, t)
    requires w2.db.rev == w.db.rev && RowsListed(self, w.db, w2.db)
    requires w3 == w2.(dirs := w3.dirs) && DirsAt(Generated(w, k).dirs, w3.dirs, s) && !s.Both?
    ensures Unswapped(codec, self, w, w3, k, s)
  {
    assert w.db.(rev := w2.db.rev) == w.db;
  }

  /**
   ops.Rekey. key is the key pair that generation will come up with, stamp the time of the swap. It succeeds exactly
   if it swapped and recorded the version.
   */
  method Rekey(d: Deps, hostname: string, exclude: set<string>, key: PublicKey, stamp: string)
    returns (ok: bool, ghost end: Ending)
    requires d.Valid() && Fresh(d.codec, d.Now(), key)
    requires hostname == "" || hostname == d.selfName
    modifies d`dirs, d`hosts, d`selfKeys, d`selfCert, d`rewrites, d`writes, d`dialed, d`minted, d`issued, d`log, d.db
    ensures d.Valid()
    ensures Ended(d.codec, d.instanceKey, d.selfName, old(d.Now()), d.Now(), exclude, key, end)
    ensures ok <==> end.Swapped? && end.recorded
    ensures end.Swapped? ==> PresentsRow(d)
    ensures Course(d.codec, d.fate, old(d.AtDesk()), d.AtDesk(), old(d.hosts), d.hosts, RetiredKeys(old(d.Now())), key,
                   Others(old(d.db.rows), d.selfName, exclude), end)
    ensures CleanedUp(d.fate, end)
    ensures Sunk(d.fate, Unlocking) || Sunk(d.fate, Statement) ==> end == Clean(true, true, OwnNone)
    ensures Sure(d.fate, Unlocking) && Sure(d.fate, Statement) && Sure(d.fate, KeyGeneration) && Ready(old(d.dirs)) ==>
              Chosen(d.fate, end)
  {
    ghost var w := d.Now();
    ghost var early := Clean(true, true, OwnNone);
    CourseNone(d.codec, d.fate, d.AtDesk(), d.hosts, RetiredKeys(w), key, Others(d.db.rows, d.selfName, exclude));
    var unlocked := Try(d.fate, Unlocking);
    if !unlocked {
      return false, early;
    }
    d.Sane();
    var self := if hostname != "" then hostname else d.selfName;
    var read := d.db.Exec();
    if !read || self !in d.db.rows.peers {
      return false, early;
    }
    var ps := Others(d.db.rows, self, exclude);
    var retired, removed := StageKey(d, key);
    if retired.Err? {
      return false, Clean(true, removed, OwnNone);
    }
    ok, end := RotateFleet(d, ps, retired.value, key, stamp, exclude, w);
  }
}
