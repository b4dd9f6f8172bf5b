/** The CA rotation: new certificates for every peer, a push to each, and the swap of the CA directories. */
module RekeyPeers {
  import opened Wrappers
  import opened Text
  import opened Names
  import opened Principals
  import opened AuthorizedKeys
  import opened TrustLaws
  import opened PrincipalLaws
  import opened SshConfig
  import opened Tables
  import opened Database
  import opened Reachability
  import opened Fleet
  import opened Manager
  import opened Fate
  import F = Filters

  datatype Peer = Peer(name: string, row: PeerRow)

  /** What became of one peer. rotated: a write to its authorized_keys was issued. */
  datatype Outcome = Skipped(cert: Cert) | Pushed(cert: Cert) | Straggled(rotated: bool) | Aborted(rotated: bool)

  /** The certificate and serial a peer had before it was updated in the database only. */
  datatype Prior = Prior(name: string, cert: Option<Cert>, serial: nat)

  /** skipPushNotice: a client peer, or one that cannot be dialed back, is never pushed to. */
  predicate Pushable(row: PeerRow) {
    row.inbound && row.reachable
  }

  function Home(p: Peer): Account {
    AccountOf(p.name, p.row)
  }

  function AllowedList(t: Tables, p: string): seq<string> {
    Ordered(GroupsOf(t.allowed, p))
  }

  function GroupsList(t: Tables, p: string): seq<string> {
    Ordered(GroupsOf(t.members, p))
  }

  /** The line a rotation to k writes on peer p. */
  function NewLine(codec: Codec, t: Tables, k: PublicKey, p: string): string {
    TrustLine(codec, k, AllowedList(t, p))
  }

  // ---- Whom a push may reach ----

  /** Where the push for a row goes: to the host given, or else the peer's address, or else its name. */
  predicate GoesTo(a: Account, name: string, row: PeerRow, host: string) {
    && a.host == (if host != "" then host else if row.address == "" then name else row.address)
    && a.home == (if row.user == "" || row.user == "root" then "/root" else "/home/" + row.user)
  }

  /** No account but a has changed. */
  ghost predicate OnlyAt(hosts: map<Account, Files>, hosts': map<Account, Files>, a: Account) {
    forall b :: b != a ==> FilesAt(hosts', b) == FilesAt(hosts, b)
  }

  /**
   One peer's turn. A client, or a peer that cannot be dialed back, is neither dialed nor written to. Any other is
   dialed at most once, written to at no account but its own and only once dialed, and not served without.
   */
  ghost predicate Turn(name: string, row: PeerRow, host: string,
                       hosts: map<Account, Files>, hosts': map<Account, Files>,
                       dialed: seq<string>, dialed': seq<string>, served: bool) {
    if dialed' == dialed then hosts' == hosts && !served
    else row.inbound && row.reachable
         && exists a :: GoesTo(a, name, row, host) && dialed' == dialed + [a.host] && OnlyAt(hosts, hosts', a)
  }

  /** A dial and a push to the peer's own account is its turn. */
  lemma AccountTurn(name: string, row: PeerRow, hosts: map<Account, Files>, hosts': map<Account, Files>,
                    dialed: seq<string>, dialed': seq<string>, served: bool)
    requires row.inbound && row.reachable
    requires dialed' == dialed + [AccountOf(name, row).host] && OnlyAt(hosts, hosts', AccountOf(name, row))
    ensures Turn(name, row, "", hosts, hosts', dialed, dialed', served)
  {
    assert GoesTo(AccountOf(name, row), name, row, "");
  }

  /** One of these peers is live, lets others in, can be dialed back, and has this account. */
  ghost predicate Serves(ps: set<Peer>, a: Account) {
    exists p :: p in ps && !p.row.revoked && p.row.inbound && p.row.reachable && GoesTo(a, p.name, p.row, "")
  }

  /**
   What an operation over these peers leaves: no account but such ones was written to, no host but theirs was dialed,
   and whoever of them counts as updated was.
   */
  ghost predicate Visits(ps: set<Peer>, hosts: map<Account, Files>, hosts': map<Account, Files>,
                         dialed: seq<string>, dialed': seq<string>, updated: set<string>) {
    && (forall a :: !Serves(ps, a) ==> FilesAt(hosts', a) == FilesAt(hosts, a))
    && dialed <= dialed'
    && (forall host :: host in dialed'[|dialed|..] ==> exists a :: Serves(ps, a) && a.host == host)
    && (forall p :: p in ps && p.name in updated && p.row.inbound && p.row.reachable ==>
          exists a :: GoesTo(a, p.name, p.row, "") && a.host in dialed'[|dialed|..])
  }

  lemma VisitsNone(ps: set<Peer>, hosts: map<Account, Files>, dialed: seq<string>)
    ensures Visits(ps, hosts, hosts, dialed, dialed, {})
  {
  }

  lemma NewDials(dialed: seq<string>, dialed1: seq<string>, host: string)
    requires dialed <= dialed1
    ensures dialed <= dialed1 + [host]
    ensures forall h :: h in (dialed1 + [host])[|dialed|..] <==> h in dialed1[|dialed|..] || h == host
  {
    assert (dialed1 + [host])[|dialed|..] == dialed1[|dialed|..] + [host];
  }

  lemma VisitsStep(ps: set<Peer>, p: Peer, hosts: map<Account, Files>, mid: map<Account, Files>,
                   hosts': map<Account, Files>, dialed: seq<string>, dialed1: seq<string>, dialed2: seq<string>,
                   updated: set<string>, updated': set<string>, served: bool)
    requires Visits(ps, hosts, mid, dialed, dialed1, updated) && p in ps
    requires Turn(p.name, p.row, "", mid, hosts', dialed1, dialed2, served)
    requires p.row.revoked ==> dialed2 == dialed1
    requires updated' <= updated + {p.name}
    requires p.name in updated' && p.name !in updated && p.row.inbound && p.row.reachable ==> served
    requires forall q :: q in ps && q.name == p.name ==> q == p
    ensures Visits(ps, hosts, hosts', dialed, dialed2, updated')
  {
    if dialed2 != dialed1 {
      var a :| GoesTo(a, p.name, p.row, "") && dialed2 == dialed1 + [a.host] && OnlyAt(mid, hosts', a);
      assert Serves(ps, a);
      NewDials(dialed, dialed1, a.host);
      forall q | q in ps && q.name in updated' && q.row.inbound && q.row.reachable
        ensures exists b :: GoesTo(b, q.name, q.row, "") && b.host in dialed2[|dialed|..]
      {
        if q.name in updated {
          var b :| GoesTo(b, q.name, q.row, "") && b.host in dialed1[|dialed|..];
        } else {
          assert q == p;
        }
      }
    }
  }

  // ---- One push ----

  /** The files of a peer after a push that went through. */
  ghost function Delivered(codec: Codec, f: Files,
                           retired: set<PublicKey>, line: string, cert: Cert, config: string): Files {
    f.(keys := ReplacedText(codec, f.keys, retired, line + "\n"), cert := Some(cert), config := config)
  }

  /** The certificate and config part of a push, after each of its writes. */
  ghost predicate CertPart(key: string, f: Files, f': Files, cert: Cert, block: string) {
    var c := f.(cert := Some(cert));
    f' in {f, c, c.(config := SedDelete(f.config, key, false)), c.(config := Splice(f.config, key, block))}
  }

  /** A push that stopped after any of its writes. */
  ghost predicate PushPart(codec: Codec, key: string, f: Files, f': Files, retired: set<PublicKey>, line: string,
                           cert: Cert, block: string) {
    f' == f || CertPart(key, f.(keys := ReplacedText(codec, f.keys, retired, line + "\n")), f', cert, block)
  }

  /** The files after a push that stopped somewhere: authorized_keys is as before or wholly replaced. */
  ghost predicate Touched(codec: Codec, hosts: map<Account, Files>, hosts': map<Account, Files>, a: Account,
                          retired: set<PublicKey>, line: string) {
    || hosts' == hosts
    || (&& a in hosts && a in hosts' && hosts' == hosts[a := hosts'[a]]
        && (hosts'[a].keys == hosts[a].keys
            || hosts'[a].keys == ReplacedText(codec, hosts[a].keys, retired, line + "\n")))
  }

  /** Replacing by the line for k trades the retired keys for k. */
  lemma PushTrades(codec: Codec, t: string, retired: set<PublicKey>, k: PublicKey, ps: seq<string>)
    requires Faithful(codec) && PlainNames(ps)
    ensures TrustedKeys(codec, ReplacedText(codec, t, retired, TrustLine(codec, k, ps) + "\n")) ==
            TrustedKeys(codec, t) - retired + {k}
  {
    TrustLineTrusts(codec, k, ps);
    ReplacedKeys(codec, t, retired, TrustLine(codec, k, ps) + "\n", k);
  }

  /** The manager may write that text while it holds k in ca.next. */
  lemma PushMayWrite(codec: Codec, w: World, a: Account, retired: set<PublicKey>, k: PublicKey, ps: seq<string>)
    requires Faithful(codec) && PlainNames(ps) && HasKey(w.dirs, "ca.next", k)
    ensures MayWrite(codec, w, a,
                     ReplacedText(codec, FilesAt(w.hosts, a).keys, retired, TrustLine(codec, k, ps) + "\n"))
  {
    var t, line := FilesAt(w.hosts, a).keys, TrustLine(codec, k, ps);
    TrustLineTrusts(codec, k, ps);
    ReplacedLines(codec, t, retired, line + "\n");
    F.ReplacedMembers(Lines(t), Trusting(codec, retired), line);
    assert Built(codec, line, k);
    assert MayTrust(codec, w, a, k);
  }

  lemma NewKeyText(codec: Codec, k: PublicKey, ps: seq<string>)
    requires Faithful(codec)
    ensures TrustText(TrimEnd(codec.marshal(k), "\n\r"), JoinCSV(WithManager(ps))) == TrustLine(codec, k, ps)
  {
    var ct := KeyText(codec, k);
    assert ct[|ct| - 1] != '\r';
    KeyTrimsAgree(codec.marshal(k));
  }

  lemma AllowedPlain(t: Tables, p: string)
    requires Linked(t) && PlainGroups(t)
    ensures PlainNames(AllowedList(t, p)) && PlainNames(GroupsList(t, p))
  {
    OrderedIs(GroupsOf(t.allowed, p));
    OrderedIs(GroupsOf(t.members, p));
  }

  /** The first part of a push: read authorized_keys, swap the trust lines, write. */
  method PushTrust(d: Deps, a: Account, retired: seq<PublicKey>, k: PublicKey, allowed: seq<string>)
    returns (rotated: bool, ok: bool)
    requires d.Valid() && HasKey(d.dirs, "ca.next", k) && PlainNames(allowed)
    modifies d`hosts, d`log, d`writes
    ensures d.Valid()
    ensures ok ==> rotated
    ensures rotated ==> a in old(d.hosts) && d.writes == old(d.writes) + [a]
    ensures !rotated ==> d.hosts == old(d.hosts) && d.writes == old(d.writes)
    ensures rotated ==>
              var f := old(d.hosts)[a];
              var f' := f.(keys := ReplacedText(d.codec, f.keys, SetOf(retired),
                                                TrustLine(d.codec, k, allowed) + "\n"));
              d.hosts == old(d.hosts)[a := f'] || (!ok && d.hosts == old(d.hosts))
    ensures Sure(d.fate, Remote) && a in old(d.hosts) ==> ok
  {
    var line := UserAuthorizedKeysLine(d.codec.marshal(k), allowed);
    NewKeyText(d.codec, k, allowed);
    var existing := d.ReadKeys(a);
    if existing.None? {
      return false, false;
    }
    var content := ReplaceCALines(d.codec, existing.value, retired, line);
    PushMayWrite(d.codec, d.Now(), a, SetOf(retired), k, allowed);
    ok := d.WriteKeys(a, content);
    return true, ok;
  }

  /** The part of a push after authorized_keys: the certificate, the config block, a health check. */
  method PushCertAndConfig(d: Deps, a: Account, cert: Cert, block: string) returns (ok: bool)
    requires d.Valid() && a in d.hosts
    modifies d`hosts, d`log
    ensures d.Valid()
    ensures a in d.hosts && d.hosts == old(d.hosts)[a := d.hosts[a]]
    ensures CertPart(d.instanceKey, old(d.hosts)[a], d.hosts[a], cert, block)
    ensures ok ==> var f := old(d.hosts)[a];
                   d.hosts[a] == f.(cert := Some(cert), config := Splice(f.config, d.instanceKey, block))
    ensures Remote in d.fate ==> ok == d.fate[Remote]
  {
    ok := d.WriteCert(a, cert);
    if !ok {
      return false;
    }
    ok := d.SpliceConfig(a, block);
    if !ok {
      return false;
    }
    ok := Try(d.fate, Remote);
  }

  /** What a peer's turn leaves at the desk: a write logged if one was issued, a dial if it was tried. */
  ghost predicate Tried(b: Desk, b': Desk, p: Peer, rotated: bool) {
    && b' == b.(writes := b.writes + (if rotated then [Home(p)] else []), dialed := b'.dialed)
    && (b'.dialed == b.dialed + [DialHost(p.name, p.row)] || (b'.dialed == b.dialed && !rotated))
  }

  /** What a push leaves of the files. rotated: the write to authorized_keys was issued. */
  ghost predicate PushLeft(codec: Codec, key: string,
                           hosts: map<Account, Files>, hosts': map<Account, Files>, a: Account,
                           retired: set<PublicKey>, line: string, cert: Cert, block: string, rotated: bool, ok: bool) {
    && (ok ==> rotated) && (!rotated ==> hosts' == hosts)
    && (rotated ==> a in hosts && a in hosts' && hosts' == hosts[a := hosts'[a]]
                    && PushPart(codec, key, hosts[a], hosts'[a], retired, line, cert, block))
    && (ok ==> hosts'[a] == Delivered(codec, hosts[a], retired, line, cert, Splice(hosts[a].config, key, block)))
  }

  /** Both parts of a push, one after the other. */
  lemma PartsPushed(codec: Codec, key: string,
                    hosts: map<Account, Files>, mid: map<Account, Files>, hosts': map<Account, Files>, a: Account,
                    retired: set<PublicKey>, line: string, cert: Cert, block: string, ok: bool)
    requires a in hosts && a in hosts' && hosts' == mid[a := hosts'[a]]
    requires mid == hosts[a := hosts[a].(keys := ReplacedText(codec, hosts[a].keys, retired, line + "\n"))]
    requires CertPart(key, mid[a], hosts'[a], cert, block)
    requires ok ==> hosts'[a] == mid[a].(cert := Some(cert), config := Splice(mid[a].config, key, block))
    ensures PushLeft(codec, key, hosts, hosts', a, retired, line, cert, block, true, ok)
  {
  }

  /** The first part alone, landed or not. */
  lemma FirstPushed(codec: Codec, key: string, hosts: map<Account, Files>, hosts': map<Account, Files>, a: Account,
                    retired: set<PublicKey>, line: string, cert: Cert, block: string)
    requires a in hosts
    requires hosts' == hosts
             || hosts' == hosts[a := hosts[a].(keys := ReplacedText(codec, hosts[a].keys, retired, line + "\n"))]
    ensures PushLeft(codec, key, hosts, hosts', a, retired, line, cert, block, true, false)
  {
  }

  /** The writes of a push. It can stop after any of them. */
  method PushFiles(d: Deps, a: Account, retired: seq<PublicKey>, k: PublicKey, cert: Cert, allowed: seq<string>,
                   block: string)
    returns (rotated: bool, ok: bool)
    requires d.Valid() && HasKey(d.dirs, "ca.next", k) && PlainNames(allowed)
    modifies d`hosts, d`log, d`writes
    ensures d.Valid() && d.writes == old(d.writes) + (if rotated then [a] else [])
    ensures PushLeft(d.codec, d.instanceKey, old(d.hosts), d.hosts, a, SetOf(retired), TrustLine(d.codec, k, allowed),
                     cert, block, rotated, ok)
    ensures Sure(d.fate, Remote) && a in old(d.hosts) ==> ok
  {
    ghost var hosts := d.hosts;
    rotated, ok := PushTrust(d, a, retired, k, allowed);
    if rotated && !ok {
      FirstPushed(d.codec, d.instanceKey, hosts, d.hosts, a, SetOf(retired), TrustLine(d.codec, k, allowed), cert,
                  block);
    }
    if ok {
      ghost var mid := d.hosts;
      ok := PushCertAndConfig(d, a, cert, block);
      PartsPushed(d.codec, d.instanceKey, hosts, mid, d.hosts, a, SetOf(retired), TrustLine(d.codec, k, allowed), cert,
                  block, ok);
    }
  }

  /** pushPeerRekey. */
  method PushPeerRekey(d: Deps, p: Peer, retired: seq<PublicKey>, k: PublicKey, cert: Cert, allowed: seq<string>,
                       block: string)
    returns (rotated: bool, ok: bool)
    requires d.Valid() && HasKey(d.dirs, "ca.next", k) && PlainNames(allowed)
    modifies d`hosts, d`log, d`dialed, d`writes
    ensures d.Valid() && (Sunk(d.fate, Dialing) ==> !rotated) && (p.name == "" ==> d.dialed == old(d.dialed))
    ensures AllAnswer(d.fate) && p.name != "" && Home(p) in old(d.hosts) ==> ok
    ensures Tried(old(d.AtDesk()), d.AtDesk(), p, rotated)
    ensures PushLeft(d.codec, d.instanceKey, old(d.hosts), d.hosts, Home(p), SetOf(retired),
                     TrustLine(d.codec, k, allowed), cert, block,
                     rotated, ok)
  {
    rotated, ok := false, false;
    if p.name != "" {
      var dialed := d.Dial(DialHost(p.name, p.row));
      if dialed {
        rotated, ok := PushFiles(d, Home(p), retired, k, cert, allowed, block);
      }
    }
  }

  /** What a push that stopped somewhere means for the trust lines. */
  lemma PartTouches(codec: Codec, key: string, hosts: map<Account, Files>, hosts': map<Account, Files>, a: Account,
                    retired: set<PublicKey>, line: string, cert: Cert, block: string)
    requires a in hosts && a in hosts' && hosts' == hosts[a := hosts'[a]]
    requires PushPart(codec, key, hosts[a], hosts'[a], retired, line, cert, block)
    ensures Touched(codec, hosts, hosts', a, retired, line)
  {
  }

  // ---- One peer ----

  /** The certificate a rotation signs for a peer. */
  ghost predicate IsPeerCert(t: Tables, k: PublicKey, p: Peer, cert: Cert) {
    cert == Cert(k, cert.serial, p.name, CertList(p.name, GroupsList(t, p.name), false), p.row.key)
  }

  /** What a rotation may write: nothing but certificates of k for name is issued, directories stay. */
  ghost predicate Signs(w: World, w': World, k: PublicKey, name: string) {
    && w'.dirs == w.dirs && w'.minted == w.minted && w'.bundles == w.bundles && w.issued <= w'.issued
    && forall c :: c in w'.issued && c !in w.issued ==> c.issuer == k && c.keyId == name
  }

  ghost predicate Stored(w: World, w': World, name: string, cert: Cert) {
    cert in w'.issued && name in w.db.peers && w'.db == WithCert(w.db, name, Some(cert), cert.serial)
  }

  ghost function PushedFiles(codec: Codec, key: string, w: World,
                             retired: set<PublicKey>, k: PublicKey, p: Peer, cert: Cert): Files {
    var f := FilesAt(w.hosts, Home(p));
    Delivered(codec, f, retired, NewLine(codec, w.db, k, p.name), cert,
              Splice(f.config, key, Block(key, ReachableHosts(w.db, p.name))))
  }

  /** What the loop body does for one peer, case by case. */
  ghost predicate PeerStep(codec: Codec, key: string, w: World, w': World,
                           retired: set<PublicKey>, k: PublicKey, p: Peer, out: Outcome) {
    && Signs(w, w', k, p.name)
    && match out
       case Skipped(cert) =>
         !Pushable(p.row) && IsPeerCert(w.db, k, p, cert) && Stored(w, w', p.name, cert) && w'.hosts == w.hosts
       case Pushed(cert) =>
         && Pushable(p.row) && IsPeerCert(w.db, k, p, cert) && Stored(w, w', p.name, cert)
         && Home(p) in w.hosts && w'.hosts == w.hosts[Home(p) := PushedFiles(codec, key, w, retired, k, p, cert)]
       case Straggled(rotated) =>
         && Pushable(p.row) && w'.db == w.db && (!rotated ==> w'.hosts == w.hosts)
         && Touched(codec, w.hosts, w'.hosts, Home(p), retired, NewLine(codec, w.db, k, p.name))
       case Aborted(rotated) =>
         && w'.db == w.db && (!rotated ==> w'.hosts == w.hosts)
         && (w'.hosts != w.hosts ==>
               && Home(p) in w.hosts && Home(p) in w'.hosts && w'.hosts == w.hosts[Home(p) := w'.hosts[Home(p)]]
               && w'.hosts[Home(p)].keys == ReplacedText(codec, w.hosts[Home(p)].keys, retired,
                                                         NewLine(codec, w.db, k, p.name) + "\n"))
  }

  /** Whether the loop sets rotatedAny for this outcome. */
  predicate Rotates(out: Outcome) {
    match out
    case Skipped(_) => false
    case Pushed(_) => true
    case Straggled(rotated) => rotated
    case Aborted(rotated) => rotated
  }

  /** The manager's side of a peer's turn is known to work: statements, key parsing, signing. */
  predicate Steady(fate: Fates) {
    Sure(fate, Statement) && Sure(fate, KeyParsing) && Sure(fate, Signing)
  }

  /** One of these is known to fail. */
  predicate Balks(fate: Fates) {
    Sunk(fate, Statement) || Sunk(fate, KeyParsing) || Sunk(fate, Signing)
  }

  /** Every peer can be dialed, and whatever is done there works. */
  predicate AllAnswer(fate: Fates) {
    Sure(fate, Dialing) && Sure(fate, Remote)
  }

  /** What knowing the environment's decisions says about a peer's turn: when nothing fails, it is updated. */
  ghost predicate Fated(fate: Fates, t: Tables, hosts: map<Account, Files>, p: Peer, out: Outcome) {
    && (Sunk(fate, Dialing) ==> !Rotates(out))
    && (Steady(fate) && p.name in t.peers ==> !out.Aborted?)
    && (Steady(fate) && AllAnswer(fate) && p.name in t.peers && p.name != "" && Home(p) in hosts ==>
        out.Skipped? || out.Pushed?)
  }

  lemma AbortedEarly(codec: Codec, key: string, w: World, w': World, retired: set<PublicKey>, k: PublicKey, p: Peer)
    requires Signs(w, w', k, p.name) && w'.db == w.db && w'.hosts == w.hosts
    ensures PeerStep(codec, key, w, w', retired, k, p, Aborted(false))
  {
  }

  /** Signs a peer's certificate with the staged key. */
  method SignPeer(d: Deps, p: Peer, k: PublicKey) returns (r: Option<Cert>)
    requires d.Valid() && HasKey(d.dirs, "ca.next", k)
    modifies d`issued, d`log
    ensures d.Valid() && Signs(old(d.Now()), d.Now(), k, p.name)
    ensures r.Some? ==> IsPeerCert(d.db.rows, k, p, r.value) && r.value in d.issued
    ensures Steady(d.fate) ==> r.Some?
    ensures Balks(d.fate) ==> r.None?
  {
    var ok := d.db.Exec();
    if !ok {
      return None;
    }
    var groups := GroupsList(d.db.rows, p.name);
    var parsed := Try(d.fate, KeyParsing);
    if !parsed {
      return None;
    }
    var principals := CertPrincipals(p.name, groups, false);
    var signed := d.SignCert(k, p.name, principals, p.row.key);
    return if signed.Ok? then Some(signed.value) else None;
  }

  /** The loop body of Rekey: sign, then store only, or push and store. */
  method RekeyPeer(d: Deps, p: Peer, retired: seq<PublicKey>, k: PublicKey, prior: seq<Prior>)
    returns (out: Outcome, prior': seq<Prior>)
    requires d.Valid() && HasKey(d.dirs, "ca.next", k) && p.name != d.selfName
    modifies d`hosts, d`issued, d`log, d`dialed, d`writes, d.db
    ensures d.Valid()
    ensures PeerStep(d.codec, d.instanceKey, old(d.Now()), d.Now(), SetOf(retired), k, p, out)
    ensures Tried(old(d.AtDesk()), d.AtDesk(), p, Rotates(out)) && Fated(d.fate, old(d.db.rows), old(d.hosts), p, out)
    ensures prior' == prior || (prior' == prior + [Prior(p.name, p.row.cert, p.row.serial)] && !Pushable(p.row))
    ensures (out.Skipped? ==> prior' != prior) && (!Pushable(p.row) ==> d.dialed == old(d.dialed))
    ensures Turn(p.name, p.row, "", old(d.hosts), d.hosts, old(d.dialed), d.dialed, out.Pushed?)
    ensures out.Skipped? ==> !(p.row.inbound && p.row.reachable)
  {
    ghost var desk := d.AtDesk();
    ghost var w := d.Now();
    prior' := prior;
    var cert := SignPeer(d, p, k);
    ghost var w1 := d.Now();
    if cert.None? {
      AbortedEarly(d.codec, d.instanceKey, w, w1, SetOf(retired), k, p);
      return Aborted(false), prior';
    }
    if Pushable(p.row) {
      out := PushAndStore(d, p, retired, k, cert.value);
    } else {
      prior' := prior + [Prior(p.name, p.row.cert, p.row.serial)];
      out := StoreOnly(d, p, retired, k, cert.value);
    }
    SignedFirst(d.codec, d.instanceKey, w, w1, d.Now(), SetOf(retired), k, p, out);
    IsTurn(d.codec, d.instanceKey, w, d.Now(), SetOf(retired), k, p, out, desk, d.AtDesk());
  }

  /** That is a turn as said above. */
  lemma IsTurn(codec: Codec, key: string, w: World, w': World, retired: set<PublicKey>, k: PublicKey, p: Peer,
               out: Outcome, b: Desk, b': Desk)
    requires PeerStep(codec, key, w, w', retired, k, p, out) && Tried(b, b', p, Rotates(out))
    requires !Pushable(p.row) ==> b'.dialed == b.dialed
    ensures Turn(p.name, p.row, "", w.hosts, w'.hosts, b.dialed, b'.dialed, out.Pushed?)
    ensures out.Skipped? ==> !(p.row.inbound && p.row.reachable)
  {
    StepTouches(codec, key, w, w', retired, k, p, out);
    if b'.dialed != b.dialed {
      assert GoesTo(Home(p), p.name, p.row, "") && OnlyAt(w.hosts, w'.hosts, Home(p));
    }
  }

  /** What follows the signing is the peer's turn. */
  lemma SignedFirst(codec: Codec, key: string, w: World, w1: World, w': World,
                    retired: set<PublicKey>, k: PublicKey, p: Peer, out: Outcome)
    requires Signs(w, w1, k, p.name) && w1.db == w.db && w1.hosts == w.hosts
    requires PeerStep(codec, key, w1, w', retired, k, p, out)
    ensures PeerStep(codec, key, w, w', retired, k, p, out)
  {
  }

  /**
   The second half of the loop body, for a client or a peer that cannot be dialed back: the certificate is only
   stored.
   */
  method StoreOnly(d: Deps, p: Peer, retired: seq<PublicKey>, k: PublicKey, cert: Cert) returns (out: Outcome)
    requires d.Valid() && p.name != d.selfName && !Pushable(p.row) && cert in d.issued
             && IsPeerCert(d.db.rows, k, p, cert)
    modifies d`log, d.db
    ensures d.Valid() && PeerStep(d.codec, d.instanceKey, old(d.Now()), d.Now(), SetOf(retired), k, p, out)
    ensures !Rotates(out) && Fated(d.fate, old(d.db.rows), old(d.hosts), p, out)
  {
    var ok := d.SetPeerCert(p.name, Some(cert), cert.serial);
    return if ok then Skipped(cert) else Aborted(false);
  }

  /** The two queries a push is made of. */
  method ReadPush(d: Deps, p: Peer) returns (r: Option<(seq<string>, string)>)
    requires d.Valid()
    ensures r.Some? ==>
              r.value == (AllowedList(d.db.rows, p.name), Block(d.instanceKey, ReachableHosts(d.db.rows, p.name)))
    ensures r.Some? ==> PlainNames(r.value.0)
    ensures Statement in d.fate ==> r.Some? == d.fate[Statement]
  {
    var ok := d.db.Exec();
    if !ok {
      return None;
    }
    d.Tidy();
    AllowedPlain(d.db.rows, p.name);
    ok := d.db.Exec();
    if !ok {
      return None;
    }
    var block := V2SshClientBlockWithHosts(d.instanceKey, ReachableHosts(d.db.rows, p.name));
    return Some((AllowedList(d.db.rows, p.name), block));
  }

  /** The same for a peer the manager dials: push, then store. */
  method PushAndStore(d: Deps, p: Peer, retired: seq<PublicKey>, k: PublicKey, cert: Cert) returns (out: Outcome)
    requires d.Valid() && HasKey(d.dirs, "ca.next", k) && p.name != d.selfName && Pushable(p.row)
    requires cert in d.issued && IsPeerCert(d.db.rows, k, p, cert)
    modifies d`hosts, d`log, d`dialed, d`writes, d.db
    ensures d.Valid() && !out.Skipped?
    ensures PeerStep(d.codec, d.instanceKey, old(d.Now()), d.Now(), SetOf(retired), k, p, out)
    ensures Tried(old(d.AtDesk()), d.AtDesk(), p, Rotates(out)) && Fated(d.fate, old(d.db.rows), old(d.hosts), p, out)
  {
    ghost var w := d.Now();
    var read := ReadPush(d, p);
    if read.None? {
      AbortedEarly(d.codec, d.instanceKey, w, w, SetOf(retired), k, p);
      return Aborted(false);
    }
    out := PushRead(d, p, retired, k, cert, read.value.0, read.value.1);
  }

  /** Once the lists are read: allowed is the peer's allow list, block its config block. */
  method PushRead(d: Deps, p: Peer, retired: seq<PublicKey>, k: PublicKey, cert: Cert, allowed: seq<string>,
                  block: string)
    returns (out: Outcome)
    requires d.Valid() && HasKey(d.dirs, "ca.next", k) && p.name != d.selfName && Pushable(p.row)
    requires cert in d.issued && IsPeerCert(d.db.rows, k, p, cert) && PlainNames(allowed)
    requires allowed == AllowedList(d.db.rows, p.name)
             && block == Block(d.instanceKey, ReachableHosts(d.db.rows, p.name))
    modifies d`hosts, d`log, d`dialed, d`writes, d.db
    ensures d.Valid() && !out.Skipped?
    ensures PeerStep(d.codec, d.instanceKey, old(d.Now()), d.Now(), SetOf(retired), k, p, out)
    ensures Tried(old(d.AtDesk()), d.AtDesk(), p, Rotates(out)) && Fated(d.fate, old(d.db.rows), old(d.hosts), p, out)
  {
    ghost var w := d.Now();
    var rotated, ok := PushPeerRekey(d, p, retired, k, cert, allowed, block);
    ghost var pushed := d.Now();
    if !ok {
      StraggledThere(d.codec, d.instanceKey, w, pushed, SetOf(retired), k, p, cert, block, rotated);
      return Straggled(rotated);
    }
    PushedThere(d.codec, d.instanceKey, w, pushed, SetOf(retired), k, p, cert, block, rotated);
    out := StorePushed(d, p, retired, k, cert, w);
  }

  lemma PushedThere(codec: Codec, key: string, w: World, pushed: World, retired: set<PublicKey>, k: PublicKey, p: Peer,
                    cert: Cert, block: string, rotated: bool)
    requires pushed == w.(hosts := pushed.hosts) && block == Block(key, ReachableHosts(w.db, p.name))
    requires PushLeft(codec, key, w.hosts, pushed.hosts, Home(p), retired, NewLine(codec, w.db, k, p.name), cert,
                      block, rotated, true)
    ensures Home(p) in w.hosts
    ensures pushed == w.(hosts := w.hosts[Home(p) := PushedFiles(codec, key, w, retired, k, p, cert)])
  {
  }

  /** Its last step, once the push went through: w is the world before the push. */
  method StorePushed(d: Deps, p: Peer, retired: seq<PublicKey>, k: PublicKey, cert: Cert, ghost w: World)
    returns (out: Outcome)
    requires d.Valid() && p.name != d.selfName && Pushable(p.row)
    requires cert in d.issued && IsPeerCert(w.db, k, p, cert) && Home(p) in w.hosts
    requires d.Now() == w.(hosts := w.hosts[Home(p) := PushedFiles(d.codec, d.instanceKey, w, SetOf(retired), k, p,
                                                                   cert)])
    modifies d`log, d.db
    ensures d.Valid() && Rotates(out) && !out.Straggled?
    ensures Steady(d.fate) && p.name in w.db.peers ==> !out.Aborted?
    ensures PeerStep(d.codec, d.instanceKey, w, d.Now(), SetOf(retired), k, p, out)
  {
    ghost var pushed := d.Now();
    var ok := d.SetPeerCert(p.name, Some(cert), cert.serial);
    if !ok {
      PushedOnly(d.codec, d.instanceKey, w, pushed, SetOf(retired), k, p, cert);
      return Aborted(true);
    }
    PushedAndStored(d.codec, d.instanceKey, w, pushed, d.Now(), SetOf(retired), k, p, cert);
    return Pushed(cert);
  }

  lemma StraggledThere(codec: Codec, key: string, w: World, pushed: World,
                       retired: set<PublicKey>, k: PublicKey, p: Peer, cert: Cert,
                       block: string, rotated: bool)
    requires Pushable(p.row) && pushed == w.(hosts := pushed.hosts)
    requires PushLeft(codec, key, w.hosts, pushed.hosts, Home(p), retired, NewLine(codec, w.db, k, p.name), cert,
                      block, rotated, false)
    ensures PeerStep(codec, key, w, pushed, retired, k, p, Straggled(rotated))
  {
    if rotated {
      PartTouches(codec, key, w.hosts, pushed.hosts, Home(p), retired, NewLine(codec, w.db, k, p.name), cert, block);
    }
  }

  lemma PushedOnly(codec: Codec, key: string, w: World, pushed: World,
                   retired: set<PublicKey>, k: PublicKey, p: Peer, cert: Cert)
    requires Home(p) in w.hosts
    requires pushed == w.(hosts := w.hosts[Home(p) := PushedFiles(codec, key, w, retired, k, p, cert)])
    ensures PeerStep(codec, key, w, pushed, retired, k, p, Aborted(true))
  {
  }

  lemma PushedAndStored(codec: Codec, key: string, w: World, pushed: World, w': World,
                        retired: set<PublicKey>, k: PublicKey, p: Peer, cert: Cert)
    requires Home(p) in w.hosts && Pushable(p.row) && IsPeerCert(w.db, k, p, cert) && cert in w.issued
             && p.name in w.db.peers
    requires pushed == w.(hosts := w.hosts[Home(p) := PushedFiles(codec, key, w, retired, k, p, cert)])
    requires w' == pushed.(db := WithCert(w.db, p.name, Some(cert), cert.serial))
    ensures PeerStep(codec, key, w, w', retired, k, p, Pushed(cert))
  {
  }

  // ---- The loop, at any point ----

  ghost predicate RowMoved(r0: PeerRow, r: PeerRow, k: PublicKey) {
    r == r0 || (r.cert.Some? && r.cert.value.issuer == k && r == r0.(cert := r.cert, serial := r.serial))
  }

  /** The database differs from t0 in certificates of k, and in nothing else. */
  ghost predicate CertsOnly(t0: Tables, t: Tables, k: PublicKey) {
    && t == t0.(peers := t.peers) && t.peers.Keys == t0.peers.Keys
    && forall p :: p in t0.peers ==> RowMoved(t0.peers[p], t.peers[p], k)
  }

  /** No file trusts more than it did, but for k. */
  ghost predicate TrustGrows(codec: Codec, w0: World, w: World, k: PublicKey) {
    && w.hosts.Keys == w0.hosts.Keys
    && forall a :: a in w0.hosts ==> TrustedKeys(codec, w.hosts[a].keys) <= TrustedKeys(codec, w0.hosts[a].keys) + {k}
  }

  /** What holds wherever the rotation stops: w0 is the state right after the new key was generated. */
  ghost predicate Underway(codec: Codec, w0: World, w: World, k: PublicKey, names: set<string>, rotated: bool) {
    && w.dirs == w0.dirs && w.minted == w0.minted && w.bundles == w0.bundles && w0.issued <= w.issued
    && (forall c :: c in w.issued && c !in w0.issued ==> c.issuer == k && c.keyId in names)
    && CertsOnly(w0.db, w.db, k) && TrustGrows(codec, w0, w, k)
    && (!rotated ==> w.hosts == w0.hosts)
  }

  lemma StepTouches(codec: Codec, key: string, w: World, w': World,
                    retired: set<PublicKey>, k: PublicKey, p: Peer, out: Outcome)
    requires PeerStep(codec, key, w, w', retired, k, p, out)
    ensures Touched(codec, w.hosts, w'.hosts, Home(p), retired, NewLine(codec, w.db, k, p.name))
    ensures !Rotates(out) ==> w'.hosts == w.hosts
  {
  }

  lemma TouchTrades(codec: Codec, t: Tables,
                    hosts: map<Account, Files>, hosts': map<Account, Files>, p: Peer,
                    retired: set<PublicKey>, k: PublicKey)
    requires Faithful(codec) && Linked(t) && PlainGroups(t)
    requires Touched(codec, hosts, hosts', Home(p), retired, NewLine(codec, t, k, p.name))
    ensures hosts'.Keys == hosts.Keys && forall a :: a in hosts && a != Home(p) ==> hosts'[a] == hosts[a]
    ensures Home(p) in hosts ==>
              var was, now := TrustedKeys(codec, hosts[Home(p)].keys), TrustedKeys(codec, hosts'[Home(p)].keys);
              now == was || now == was - retired + {k}
  {
    AllowedPlain(t, p.name);
    if Home(p) in hosts {
      PushTrades(codec, hosts[Home(p)].keys, retired, k, AllowedList(t, p.name));
    }
  }

  lemma UnderwayStep(codec: Codec, key: string, w0: World, w: World, w': World, retired: set<PublicKey>, k: PublicKey,
                     p: Peer, out: Outcome, names: set<string>, rotated: bool)
    requires Faithful(codec) && Linked(w0.db) && PlainGroups(w0.db)
    requires Underway(codec, w0, w, k, names, rotated) && p.name in names && p.name in w0.db.peers
    requires PeerStep(codec, key, w, w', retired, k, p, out)
    ensures Underway(codec, w0, w', k, names, rotated || Rotates(out))
  {
    StepTouches(codec, key, w, w', retired, k, p, out);
    TouchTrades(codec, w.db, w.hosts, w'.hosts, p, retired, k);
    if out.Skipped? || out.Pushed? {
      StoreMoves(w0.db, w.db, p.name, out.cert);
    }
    TouchGrows(codec, w0, w, w', retired, k, p);
  }

  lemma TouchGrows(codec: Codec, w0: World, w: World, w': World, retired: set<PublicKey>, k: PublicKey, p: Peer)
    requires TrustGrows(codec, w0, w, k)
    requires w'.hosts.Keys == w.hosts.Keys && forall a :: a in w.hosts && a != Home(p) ==> w'.hosts[a] == w.hosts[a]
    requires Home(p) in w.hosts ==>
               var was, now := TrustedKeys(codec, w.hosts[Home(p)].keys), TrustedKeys(codec, w'.hosts[Home(p)].keys);
               now == was || now == was - retired + {k}
    ensures TrustGrows(codec, w0, w', k)
  {
  }

  lemma StoreMoves(t0: Tables, t: Tables, name: string, cert: Cert)
    requires CertsOnly(t0, t, cert.issuer) && name in t0.peers
    ensures CertsOnly(t0, WithCert(t, name, Some(cert), cert.serial), cert.issuer)
  {
  }

  // ---- The loop, peer by peer ----

  /** Who came out how so far. */
  datatype Tally = Tally(updated: set<string>, failed: set<string>, pushed: set<string>, certs: map<string, Cert>)

  function Count(t: Tally, p: Peer, out: Outcome): Tally {
    match out
    case Skipped(cert) => Tally(t.updated + {p.name}, t.failed, t.pushed, t.certs[p.name := cert])
    case Pushed(cert) => Tally(t.updated + {p.name}, t.failed, t.pushed + {p.name}, t.certs[p.name := cert])
    case Straggled(_) => t.(failed := t.failed + {p.name})
    case Aborted(_) => t
  }

  function Named(ps: seq<Peer>): set<string> {
    set p | p in ps :: p.name
  }

  /** The listed peers: distinct rows of the database. */
  ghost predicate Listed(t: Tables, ps: seq<Peer>) {
    && (forall p :: p in ps ==> p.name in t.peers && p.row == t.peers[p.name])
    && forall i, j :: 0 <= i < j < |ps| ==> ps[i].name != ps[j].name
  }

  /** Each peer so far is either updated or failed, and was pushed to exactly if it could be and was updated. */
  ghost predicate Counted(ps: seq<Peer>, n: nat, t: Tally)
    requires n <= |ps|
  {
    && t.updated + t.failed == Named(ps[..n]) && t.updated !! t.failed
    && forall p :: p in ps[..n] ==> (p.name in t.pushed <==> p.name in t.updated && Pushable(p.row))
                                    && (p.name in t.failed ==> Pushable(p.row))
  }

  lemma NamedSnoc(ps: seq<Peer>, n: nat)
    requires n < |ps|
    ensures Named(ps[..n + 1]) == Named(ps[..n]) + {ps[n].name}
    ensures forall p :: p in ps[..n + 1] <==> p in ps[..n] || p == ps[n]
  {
    assert ps[..n + 1] == ps[..n] + [ps[n]];
  }

  lemma Unnamed(t: Tables, ps: seq<Peer>, n: nat)
    requires Listed(t, ps) && n < |ps|
    ensures ps[n].name !in Named(ps[..n])
  {
  }

  lemma CountedStep(db: Tables, ps: seq<Peer>, n: nat, t: Tally, out: Outcome)
    requires Listed(db, ps) && n < |ps| && Counted(ps, n, t) && t.pushed <= t.updated && !out.Aborted?
    requires out.Skipped? <==> !Pushable(ps[n].row)
    ensures Counted(ps, n + 1, Count(t, ps[n], out)) && Count(t, ps[n], out).pushed <= Count(t, ps[n], out).updated
  {
    NamedSnoc(ps, n);
    Unnamed(db, ps, n);
    var t' := Count(t, ps[n], out);
    forall p | p in ps[..n]
      ensures p.name in Named(ps[..n]) && p.name != ps[n].name
    {
    }
  }

  /** An updated peer's row carries its new certificate; any other row is as it was. */
  ghost predicate RowsTold(w0: World, w: World, k: PublicKey, ps: seq<Peer>, t: Tally, spared: set<string>) {
    && (forall name :: name in w0.db.peers && name !in t.updated && name !in spared ==>
        name in w.db.peers && w.db.peers[name] == w0.db.peers[name])
    && forall p :: p in ps && p.name in t.updated ==>
         && p.name in t.certs && p.name in w.db.peers && t.certs[p.name] in w.issued
         && IsPeerCert(w0.db, k, p, t.certs[p.name])
         && w.db.peers[p.name] == p.row.(cert := Some(t.certs[p.name]), serial := t.certs[p.name].serial)
  }

  /** Wherever the rotation stops, a row has its old certificate or one that lists the peer and its groups. */
  ghost predicate RowsListed(self: string, t0: Tables, t: Tables) {
    forall p :: p in t0.peers && p != self && p in t.peers ==>
      t.peers[p].cert == t0.peers[p].cert
      || (t.peers[p].cert.Some? && ListsExactly(t.peers[p].cert.value, p, GroupsOf(t0.members, p)))
  }

  lemma PeerCertLists(t: Tables, k: PublicKey, p: Peer, cert: Cert)
    requires IsPeerCert(t, k, p, cert)
    ensures ListsExactly(cert, p.name, GroupsOf(t.members, p.name))
  {
    CertListHas(p.name, GroupsList(t, p.name), false);
    OrderedIs(GroupsOf(t.members, p.name));
  }

  lemma ToldListed(self: string, w0: World, w: World, k: PublicKey, ps: seq<Peer>, t: Tally)
    requires RowsTold(w0, w, k, ps, t, {self}) && t.updated <= Named(ps)
    ensures RowsListed(self, w0.db, w.db)
  {
    forall p | p in w0.db.peers && p != self && p in w.db.peers && p in t.updated
      ensures w.db.peers[p].cert.Some? && ListsExactly(w.db.peers[p].cert.value, p, GroupsOf(w0.db.members, p))
    {
      var q :| q in ps && q.name == p;
      PeerCertLists(w0.db, k, q, t.certs[p]);
    }
  }

  lemma RowsStep(codec: Codec, key: string, w0: World, w: World, w': World, retired: set<PublicKey>, k: PublicKey,
                 ps: seq<Peer>, n: nat, t: Tally, out: Outcome)
    requires n < |ps| && Listed(w0.db, ps) && t.updated <= Named(ps[..n])
    requires w.db == w0.db.(peers := w.db.peers) && RowsTold(w0, w, k, ps, t, {})
    requires PeerStep(codec, key, w, w', retired, k, ps[n], out)
    ensures RowsTold(w0, w', k, ps, Count(t, ps[n], out), {})
  {
    var p := ps[n];
    Unnamed(w0.db, ps, n);
    assert p in ps;
    forall q | q in ps && q.name == p.name
      ensures q == p
    {
    }
    if out.Skipped? || out.Pushed? {
      RowStored(w0, w, w', k, ps, t, p, out);
    }
  }

  lemma RowStored(w0: World, w: World, w': World, k: PublicKey, ps: seq<Peer>, t: Tally, p: Peer, out: Outcome)
    requires out.Skipped? || out.Pushed?
    requires w.db == w0.db.(peers := w.db.peers) && RowsTold(w0, w, k, ps, t, {}) && w.issued <= w'.issued
    requires p in ps && p.name in w0.db.peers && p.row == w0.db.peers[p.name] && p.name !in t.updated
    requires forall q :: q in ps && q.name == p.name ==> q == p
    requires IsPeerCert(w.db, k, p, out.cert) && Stored(w, w', p.name, out.cert)
    ensures RowsTold(w0, w', k, ps, Count(t, p, out), {})
  {
  }

  /** A pushed peer trusts k, and of what it trusted none of the retired keys. */
  ghost predicate Traded(codec: Codec, w0: World, w: World, retired: set<PublicKey>, k: PublicKey, a: Account) {
    a in w0.hosts && a in w.hosts &&
    var was, now := TrustedKeys(codec, w0.hosts[a].keys), TrustedKeys(codec, w.hosts[a].keys);
    k in now && now <= was - retired + {k}
  }

  ghost predicate TrustTold(codec: Codec, w0: World, w: World,
                            retired: set<PublicKey>, k: PublicKey, ps: seq<Peer>, t: Tally) {
    forall p :: p in ps && p.name in t.pushed ==> Traded(codec, w0, w, retired, k, Home(p))
  }

  lemma TradedStays(codec: Codec, w0: World, w: World, w': World, retired: set<PublicKey>, k: PublicKey, a: Account)
    requires Traded(codec, w0, w, retired, k, a) && a in w'.hosts
    requires var was, now := TrustedKeys(codec, w.hosts[a].keys), TrustedKeys(codec, w'.hosts[a].keys);
             now == was || now == was - retired + {k}
    ensures Traded(codec, w0, w', retired, k, a)
  {
  }

  lemma TrustStep(codec: Codec, key: string, w0: World, w: World, w': World, retired: set<PublicKey>, k: PublicKey,
                  ps: seq<Peer>, n: nat, t: Tally, out: Outcome)
    requires Faithful(codec) && Linked(w.db) && PlainGroups(w.db)
    requires n < |ps| && Listed(w0.db, ps) && t.pushed <= Named(ps[..n])
    requires TrustGrows(codec, w0, w, k) && TrustTold(codec, w0, w, retired, k, ps, t)
    requires PeerStep(codec, key, w, w', retired, k, ps[n], out)
    ensures TrustTold(codec, w0, w', retired, k, ps, Count(t, ps[n], out))
  {
    var p := ps[n];
    forall q | q in ps && q.name in Count(t, p, out).pushed
      ensures Traded(codec, w0, w', retired, k, Home(q))
    {
      if q.name in t.pushed {
        TradedOn(codec, key, w0, w, w', retired, k, p, out, Home(q));
      } else {
        assert q == p;
        TradedNow(codec, key, w0, w, w', retired, k, p, out);
      }
    }
  }

  /** A peer pushed to before keeps its trade through another's turn. */
  lemma TradedOn(codec: Codec, key: string, w0: World, w: World, w': World, retired: set<PublicKey>, k: PublicKey,
                 p: Peer, out: Outcome, a: Account)
    requires Faithful(codec) && Linked(w.db) && PlainGroups(w.db)
    requires PeerStep(codec, key, w, w', retired, k, p, out) && Traded(codec, w0, w, retired, k, a)
    ensures Traded(codec, w0, w', retired, k, a)
  {
    StepTouches(codec, key, w, w', retired, k, p, out);
    TouchTrades(codec, w.db, w.hosts, w'.hosts, p, retired, k);
    TradedStays(codec, w0, w, w', retired, k, a);
  }

  /** A peer just pushed to made the trade. */
  lemma TradedNow(codec: Codec, key: string, w0: World, w: World, w': World,
                  retired: set<PublicKey>, k: PublicKey, p: Peer, out: Outcome)
    requires Faithful(codec) && Linked(w.db) && PlainGroups(w.db) && TrustGrows(codec, w0, w, k)
    requires PeerStep(codec, key, w, w', retired, k, p, out) && out.Pushed?
    ensures Traded(codec, w0, w', retired, k, Home(p))
  {
    AllowedPlain(w.db, p.name);
    PushTrades(codec, w.hosts[Home(p)].keys, retired, k, AllowedList(w.db, p.name));
  }

  /** No other listed peer shares the account. */
  ghost predicate Alone(ps: seq<Peer>, i: nat)
    requires i < |ps|
  {
    forall j :: 0 <= j < |ps| && j != i ==> Home(ps[j]) != Home(ps[i])
  }

  /** Accounts not yet visited are as they were; a pushed peer's own account holds exactly what was pushed. */
  ghost predicate FilesTold(codec: Codec, key: string, w0: World, w: World, retired: set<PublicKey>, k: PublicKey,
                            ps: seq<Peer>, n: nat, t: Tally)
    requires n <= |ps|
  {
    && (forall a :: (forall j :: 0 <= j < n ==> Home(ps[j]) != a) ==> FilesAt(w.hosts, a) == FilesAt(w0.hosts, a))
    && forall i :: 0 <= i < n && Alone(ps, i) && ps[i].name in t.pushed ==>
         ps[i].name in t.certs
           && FilesAt(w.hosts, Home(ps[i])) == PushedFiles(codec, key, w0, retired, k, ps[i], t.certs[ps[i].name])
  }

  lemma SameReach(t0: Tables, t: Tables, k: PublicKey, p: string)
    requires CertsOnly(t0, t, k)
    ensures ReachableHosts(t, p) == ReachableHosts(t0, p)
  {
    assert forall q :: q in t0.peers ==>
      t.peers[q].revoked == t0.peers[q].revoked && t.peers[q].inbound == t0.peers[q].inbound;
    assert ReachableNames(t, p) == ReachableNames(t0, p);
    SameEntriesCerts(t0, t, k, Ordered(ReachableNames(t, p)));
  }

  lemma {:induction false} SameEntriesCerts(t0: Tables, t: Tables, k: PublicKey, names: seq<string>)
    requires CertsOnly(t0, t, k)
    ensures Entries(t, names) == Entries(t0, names)
  {
    if names != [] {
      SameEntriesCerts(t0, t, k, names[..|names| - 1]);
    }
  }

  lemma FilesStep(codec: Codec, key: string, w0: World, w: World, w': World, retired: set<PublicKey>, k: PublicKey,
                  ps: seq<Peer>, n: nat, t: Tally, out: Outcome)
    requires n < |ps| && Listed(w0.db, ps) && t.pushed <= Named(ps[..n])
    requires CertsOnly(w0.db, w.db, k) && FilesTold(codec, key, w0, w, retired, k, ps, n, t)
    requires PeerStep(codec, key, w, w', retired, k, ps[n], out)
    ensures FilesTold(codec, key, w0, w', retired, k, ps, n + 1, Count(t, ps[n], out))
  {
    var p, t' := ps[n], Count(t, ps[n], out);
    OthersKeep(codec, key, w, w', retired, k, p, out);
    Unnamed(w0.db, ps, n);
    forall i | 0 <= i < n + 1 && Alone(ps, i) && ps[i].name in t'.pushed
      ensures ps[i].name in t'.certs
              && FilesAt(w'.hosts, Home(ps[i])) == PushedFiles(codec, key, w0, retired, k, ps[i], t'.certs[ps[i].name])
    {
      if i < n {
        assert ps[i].name != p.name && Home(ps[i]) != Home(p);
      } else {
        FilesNow(codec, key, w0, w, w', retired, k, ps, n, t, out);
      }
    }
  }

  /** A peer's turn leaves every other account alone. */
  lemma OthersKeep(codec: Codec, key: string, w: World, w': World,
                   retired: set<PublicKey>, k: PublicKey, p: Peer, out: Outcome)
    requires PeerStep(codec, key, w, w', retired, k, p, out)
    ensures forall a :: a != Home(p) ==> FilesAt(w'.hosts, a) == FilesAt(w.hosts, a)
  {
    StepTouches(codec, key, w, w', retired, k, p, out);
  }

  lemma FilesNow(codec: Codec, key: string, w0: World, w: World, w': World, retired: set<PublicKey>, k: PublicKey,
                 ps: seq<Peer>, n: nat, t: Tally, out: Outcome)
    requires n < |ps| && Alone(ps, n) && CertsOnly(w0.db, w.db, k) && FilesTold(codec, key, w0, w, retired, k, ps, n, t)
    requires PeerStep(codec, key, w, w', retired, k, ps[n], out) && out.Pushed?
    ensures FilesAt(w'.hosts, Home(ps[n])) == PushedFiles(codec, key, w0, retired, k, ps[n], out.cert)
  {
    SameReach(w0.db, w.db, k, ps[n].name);
    assert FilesAt(w.hosts, Home(ps[n])) == FilesAt(w0.hosts, Home(ps[n]));
  }

  /** All that is told of the first n peers. */
  ghost predicate Told(codec: Codec, key: string, w0: World, w: World, retired: set<PublicKey>, k: PublicKey,
                       ps: seq<Peer>, n: nat, t: Tally)
    requires n <= |ps|
  {
    && Counted(ps, n, t) && t.pushed <= t.updated
    && RowsTold(w0, w, k, ps, t, {}) && TrustTold(codec, w0, w, retired, k, ps, t)
    && FilesTold(codec, key, w0, w, retired, k, ps, n, t)
  }

  lemma ToldStep(codec: Codec, key: string, w0: World, w: World, w': World, retired: set<PublicKey>, k: PublicKey,
                 ps: seq<Peer>, n: nat, t: Tally, out: Outcome, names: set<string>, rotated: bool)
    requires Faithful(codec) && Linked(w.db) && PlainGroups(w.db)
    requires n < |ps| && Listed(w0.db, ps) && Underway(codec, w0, w, k, names, rotated)
    requires Told(codec, key, w0, w, retired, k, ps, n, t) && !out.Aborted?
    requires PeerStep(codec, key, w, w', retired, k, ps[n], out)
    ensures Told(codec, key, w0, w', retired, k, ps, n + 1, Count(t, ps[n], out))
  {
    CountedStep(w0.db, ps, n, t, out);
    RowsStep(codec, key, w0, w, w', retired, k, ps, n, t, out);
    TrustStep(codec, key, w0, w, w', retired, k, ps, n, t, out);
    FilesStep(codec, key, w0, w, w', retired, k, ps, n, t, out);
  }

  lemma ToldNone(codec: Codec, key: string, w0: World,
                 retired: set<PublicKey>, k: PublicKey, ps: seq<Peer>, names: set<string>)
    ensures Told(codec, key, w0, w0, retired, k, ps, 0, Tally({}, {}, {}, map[]))
    ensures Underway(codec, w0, w0, k, names, false)
  {
    assert ps[..0] == [];
  }

  // ---- Giving up ----

  /** What was noted of the peers updated in the database only. */
  ghost predicate Noted(self: string, w0: World, prior: seq<Prior>) {
    forall e :: e in prior ==>
      && e.name in w0.db.peers && e.name != self
      && e == Prior(e.name, w0.db.peers[e.name].cert, w0.db.peers[e.name].serial)
      && RowCert(w0.issued, self, e.name, e.cert)
  }

  ghost predicate NotedName(prior: seq<Prior>, name: string) {
    exists e :: e in prior && e.name == name
  }

  lemma RestoreRow(self: string, t0: Tables, t: Tables, k: PublicKey, e: Prior)
    requires CertsOnly(t0, t, k) && e.name in t0.peers
    requires e == Prior(e.name, t0.peers[e.name].cert, t0.peers[e.name].serial)
    ensures var t' := WithCert(t, e.name, e.cert, e.serial);
            && CertsOnly(t0, t', k) && t'.peers[e.name] == t0.peers[e.name]
            && (RowsListed(self, t0, t) ==> RowsListed(self, t0, t'))
            && forall name :: name in t.peers && name != e.name ==> t'.peers[name] == t.peers[name]
  {
  }

  /** The deferred restore of an abort that leaves no trace: every noted row, best effort. */
  method Restore(d: Deps, prior: seq<Prior>, ghost w0: World, k: PublicKey) returns (restored: bool)
    requires d.Valid() && Noted(d.selfName, w0, prior) && CertsOnly(w0.db, d.db.rows, k) && w0.issued <= d.issued
    modifies d`log, d.db
    ensures d.Valid()
    ensures CertsOnly(w0.db, d.db.rows, k)
    ensures RowsListed(d.selfName, w0.db, old(d.db.rows)) ==> RowsListed(d.selfName, w0.db, d.db.rows)
    ensures restored
            && (forall name :: name in w0.db.peers && !NotedName(prior, name) ==>
                old(d.db.rows).peers[name] == w0.db.peers[name])
            ==> d.db.rows == w0.db
    ensures Sure(d.fate, Statement) ==> restored
  {
    restored := true;
    ghost var before := d.db.rows;
    for i := 0 to |prior|
      invariant d.Valid() && CertsOnly(w0.db, d.db.rows, k)
      invariant RowsListed(d.selfName, w0.db, before) ==> RowsListed(d.selfName, w0.db, d.db.rows)
      invariant restored ==> Undone(w0.db, before, d.db.rows, prior, i)
      invariant Sure(d.fate, Statement) ==> restored
    {
      var e := prior[i];
      assert e in prior;
      RestoreStep(d.selfName, w0.db, before, d.db.rows, k, prior, i);
      var ok := d.SetPeerCert(e.name, e.cert, e.serial);
      if !ok {
        restored := false;
      }
    }
    if restored {
      UndoneAll(w0.db, before, d.db.rows, k, prior);
    }
  }

  lemma UndoneAll(t0: Tables, before: Tables, t: Tables, k: PublicKey, prior: seq<Prior>)
    requires CertsOnly(t0, t, k) && CertsOnly(t0, before, k) && Undone(t0, before, t, prior, |prior|)
    ensures (forall name :: name in t0.peers && !NotedName(prior, name) ==> before.peers[name] == t0.peers[name]) ==>
              t == t0
  {
    assert prior[..|prior|] == prior;
    if forall name :: name in t0.peers && !NotedName(prior, name) ==> before.peers[name] == t0.peers[name] {
      assert forall name :: name in t0.peers ==> t.peers[name] == t0.peers[name];
      assert t.peers == t0.peers;
    }
  }

  /** Of the noted rows the first n are as in t0 again, all others as they were before the undo. */
  ghost predicate Undone(t0: Tables, before: Tables, t: Tables, prior: seq<Prior>, n: nat)
    requires n <= |prior|
  {
    forall name :: name in t0.peers && name in before.peers && name in t.peers ==>
      t.peers[name] == if NotedName(prior[..n], name) then t0.peers[name] else before.peers[name]
  }

  lemma RestoreStep(self: string, t0: Tables, before: Tables, t: Tables, k: PublicKey, prior: seq<Prior>, i: nat)
    requires i < |prior| && CertsOnly(t0, t, k) && CertsOnly(t0, before, k)
    requires var e := prior[i]; e.name in t0.peers && e == Prior(e.name, t0.peers[e.name].cert, t0.peers[e.name].serial)
    ensures var t' := WithCert(t, prior[i].name, prior[i].cert, prior[i].serial);
            && CertsOnly(t0, t', k)
            && (RowsListed(self, t0, t) ==> RowsListed(self, t0, t'))
            && (Undone(t0, before, t, prior, i) ==> Undone(t0, before, t', prior, i + 1))
  {
    RestoreRow(self, t0, t, k, prior[i]);
    NotedSnoc(prior, i);
  }

  lemma NotedSnoc(prior: seq<Prior>, i: nat)
    requires i < |prior|
    ensures forall name :: NotedName(prior[..i + 1], name) <==> NotedName(prior[..i], name) || name == prior[i].name
  {
    var next := prior[..i + 1];
    assert next == prior[..i] + [prior[i]];
    assert prior[i] in next;
    forall name | NotedName(prior[..i], name)
      ensures NotedName(next, name)
    {
      var e :| e in prior[..i] && e.name == name;
      assert e in next;
    }
  }
}
