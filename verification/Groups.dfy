/** Group operations that reach the peers: rename, delete, and the edit of one peer's groups. */
module Groups {
  import opened Wrappers
  import opened Text
  import opened Names
  import opened Principals
  import opened AuthorizedKeys
  import opened TrustLaws
  import opened PrincipalLaws
  import opened SshConfig
  import opened Tables
  import opened Database
  import opened Reachability
  import opened Fleet
  import opened Manager
  import opened Fate
  import opened RekeyPeers
  import opened Rotation
  import opened CertLists
  import opened Revoke
  import F = Filters

  // ---- Affected peers ----

  datatype Cascade = Cascade(members: set<string>, allowedBy: set<string>, affected: seq<string>)

  function CascadeOf(t: Tables, group: string): Cascade {
    Cascade(PeersOf(t.members, group), PeersOf(t.allowed, group),
            Ordered(PeersOf(t.members, group) + PeersOf(t.allowed, group)))
  }

  /** loadGroupCascade. */
  method LoadGroupCascade(d: Deps, group: string) returns (r: Option<Cascade>)
    ensures r.Some? ==> r.value == CascadeOf(d.db.rows, group)
    ensures Statement in d.db.fate ==> r.Some? == d.db.fate[Statement]
  {
    var ok := d.db.Exec();
    if !ok {
      return None;
    }
    return Some(CascadeOf(d.db.rows, group));
  }

  /** Xs without v, in order. */
  function Removed(xs: seq<string>, v: string): seq<string> {
    if xs == [] then []
    else Removed(xs[..|xs| - 1], v) + (if xs[|xs| - 1] == v then [] else [xs[|xs| - 1]])
  }

  /** removeStr. */
  method RemoveStr(xs: seq<string>, v: string) returns (out: seq<string>)
    ensures out == Removed(xs, v)
  {
    out := [];
    for i := 0 to |xs|
      invariant out == Removed(xs[..i], v)
    {
      assert xs[..i + 1][..i] == xs[..i];
      if xs[i] != v {
        out := out + [xs[i]];
      }
    }
    assert xs[..|xs|] == xs;
  }

  lemma {:induction false} RemovedIs(xs: seq<string>, v: string)
    requires Ascending(xs)
    ensures Ascending(Removed(xs, v)) && forall x :: x in Removed(xs, v) <==> x in xs && x != v
  {
    if xs != [] {
      var n := |xs| - 1;
      RemovedIs(xs[..n], v);
      assert xs == xs[..n] + [xs[n]];
      var r := Removed(xs[..n], v);
      forall i | 0 <= i < |r|
        ensures Le(r[i], xs[n]) && r[i] != xs[n]
      {
        assert r[i] in xs[..n];
        var j :| 0 <= j < n && xs[..n][j] == r[i];
        assert xs[j] == r[i];
      }
    }
  }

  /** Removing from an ordered list is ordering the smaller set. */
  lemma RemovedOrdered(s: set<string>, v: string)
    ensures Removed(Ordered(s), v) == Ordered(s - {v})
  {
    OrderedIs(s);
    RemovedIs(Ordered(s), v);
    OrderedUnique(Removed(Ordered(s), v), s - {v});
  }

  // ---- Signing and pushing ----

  /** The certificate a cascade signs for a member: t is what the database will say. */
  ghost predicate IsCascadeCert(t: Tables, self: string, k: PublicKey, name: string, cert: Cert) {
    name in t.peers
      && cert == Cert(k, cert.serial, name, CertList(name, GroupsList(t, name), name == self), t.peers[name].key)
  }

  lemma CascadeCertLists(t: Tables, self: string, k: PublicKey, name: string, cert: Cert)
    requires IsCascadeCert(t, self, k, name, cert)
    ensures name != self ==> ListsExactly(cert, name, GroupsOf(t.members, name))
    ensures name == self ==> ManagerOnce(cert.principals)
  {
    CertListHas(name, GroupsList(t, name), name == self);
    OrderedIs(GroupsOf(t.members, name));
  }

  /** signAndStorePeerCert: the manager's own row keeps its principal whatever its groups. */
  method SignAndStorePeerCert(d: Deps, k: PublicKey, name: string, groups: seq<string>, ghost t: Tables)
    returns (r: Option<Cert>)
    requires d.Valid() && HasKey(d.dirs, "ca", k) && name in d.db.rows.peers
    requires name in t.peers && t.peers[name].key == d.db.rows.peers[name].key && groups == GroupsList(t, name)
    modifies d`issued, d`log, d.db
    ensures d.Valid()
    ensures r.None? ==> d.db.rows == old(d.db.rows)
    ensures r.Some? ==> IsCascadeCert(t, d.selfName, k, name, r.value)
                        && d.db.rows == WithCert(old(d.db.rows), name, r, r.value.serial)
    ensures Steady(d.fate) ==> r.Some?
    ensures Sunk(d.fate, KeyParsing) || Sunk(d.fate, Signing) ==> r.None?
  {
    var parsed := Try(d.fate, KeyParsing);
    if !parsed {
      return None;
    }
    var principals := CertPrincipals(name, groups, name == d.selfName);
    var signed := d.SignCert(k, name, principals, d.db.rows.peers[name].key);
    if signed.Err? {
      return None;
    }
    CascadeCertLists(t, d.selfName, k, name, signed.value);
    var ok := d.SetPeerCert(name, Some(signed.value), signed.value.serial);
    return if ok then Some(signed.value) else None;
  }

  /** A peer's files after a cascade push that went through. */
  ghost predicate Cascaded(codec: Codec, key: string, f: Files, f': Files, cert: Option<Cert>, k: PublicKey,
                           allowed: Option<seq<string>>, block: Option<string>) {
    && f'.cert == (if cert.Some? then cert else f.cert)
    && (if allowed.Some? then RewrittenText(codec, f.keys, k, allowed.value) == Ok(f'.keys) else f'.keys == f.keys)
    && f'.config == if block.Some? then Splice(f.config, key, block.value) else f.config
  }

  /** No file trusts other keys than it did. */
  ghost predicate TrustSame(codec: Codec, hosts: map<Account, Files>, hosts': map<Account, Files>) {
    forall a :: TrustedKeys(codec, FilesAt(hosts', a).keys) == TrustedKeys(codec, FilesAt(hosts, a).keys)
  }

  /** A principal rewrite for the active key puts only built lines. */
  lemma RewriteMayWrite(codec: Codec, self: string, w: World, a: Account, k: PublicKey, qs: seq<string>)
    requires Faithful(codec) && Inv(codec, self, w) && HasKey(w.dirs, "ca", k) && a in w.hosts && PlainNames(qs)
    requires RewrittenText(codec, w.hosts[a].keys, k, qs).Ok?
    ensures MayWrite(codec, w, a, RewrittenText(codec, w.hosts[a].keys, k, qs).value)
    ensures BlindLines(codec, w.hosts[a].keys, k)
  {
    assert Held(w.dirs, k);
    RewriteBuilds(codec, w.hosts[a].keys, w.minted, k, qs);
    TrustLineTrusts(codec, k, qs);
    assert Built(codec, TrustLine(codec, k, qs), k);
  }

  lemma NothingRewritten(codec: Codec, k: PublicKey, ps: seq<string>)
    ensures RewrittenText(codec, "", k, ps).Err?
  {
    assert Lines("") == [];
  }

  /** Rewrites the principals on a peer's line for the active key. */
  method RewriteRemote(d: Deps, a: Account, k: PublicKey, allowed: seq<string>) returns (ok: bool)
    requires d.Valid() && PlainNames(allowed) && HasKey(d.dirs, "ca", k)
    modifies d`hosts, d`writes, d`log
    ensures d.Valid() && OnlyAt(old(d.hosts), d.hosts, a) && TrustSame(d.codec, old(d.hosts), d.hosts)
    ensures ok ==> var f, f' := FilesAt(old(d.hosts), a), FilesAt(d.hosts, a);
                   f' == f.(keys := f'.keys) && RewrittenText(d.codec, f.keys, k, allowed) == Ok(f'.keys)
    ensures Sure(d.fate, Remote) && RewrittenText(d.codec, FilesAt(old(d.hosts), a).keys, k, allowed).Ok? ==> ok
  {
    NothingRewritten(d.codec, k, allowed);
    var existing := d.ReadKeys(a);
    if existing.None? {
      return false;
    }
    var content := RewritePrincipals(d.codec, existing.value, k, allowed);
    if content.Err? {
      return false;
    }
    d.Sane();
    RewriteMayWrite(d.codec, d.selfName, d.Now(), a, k, allowed);
    RewriteLaw(d.codec, existing.value, k, allowed);
    ghost var hosts := d.hosts;
    ok := d.WriteKeys(a, content.value);
    PutAt(hosts, a, FilesAt(hosts, a).(keys := content.value));
  }

  /** The write of a member's new certificate. */
  method PushMemberCert(d: Deps, a: Account, cert: Cert) returns (ok: bool)
    requires d.Valid()
    modifies d`hosts, d`log
    ensures d.Valid() && OnlyAt(old(d.hosts), d.hosts, a) && TrustSame(d.codec, old(d.hosts), d.hosts)
    ensures ok ==> FilesAt(d.hosts, a) == FilesAt(old(d.hosts), a).(cert := Some(cert))
    ensures Sure(d.fate, Remote) ==> ok
  {
    ghost var hosts := d.hosts;
    ok := d.WriteCert(a, cert);
    PutAt(hosts, a, FilesAt(hosts, a).(cert := Some(cert)));
  }

  /** SplicePeerConfig, once the block is rendered. */
  method PushConfig(d: Deps, a: Account, block: string) returns (ok: bool)
    requires d.Valid()
    modifies d`hosts, d`log
    ensures d.Valid() && OnlyAt(old(d.hosts), d.hosts, a) && TrustSame(d.codec, old(d.hosts), d.hosts)
    ensures ok ==> var f := FilesAt(old(d.hosts), a);
            FilesAt(d.hosts, a) == f.(config := Splice(f.config, d.instanceKey, block))
    ensures Sure(d.fate, Remote) ==> ok
  {
    ok := d.SpliceConfig(a, block);
  }

  /** The principals, if they are to be rewritten, can be: the file has a line for the key, and each has a token. */
  ghost predicate Rewritable(codec: Codec, f: Files, k: PublicKey, allowed: Option<seq<string>>) {
    allowed.Some? ==> RewrittenText(codec, f.keys, k, allowed.value).Ok?
  }

  /** pushGroupCascade. */
  method PushGroupCascade(d: Deps, p: Peer, cert: Option<Cert>, k: PublicKey, allowed: Option<seq<string>>,
                          block: Option<string>)
    returns (ok: bool)
    requires d.Valid() && (allowed.Some? ==> PlainNames(allowed.value) && HasKey(d.dirs, "ca", k))
    modifies d`hosts, d`dialed, d`writes, d`log
    ensures d.Valid() && OnlyAt(old(d.hosts), d.hosts, Home(p)) && TrustSame(d.codec, old(d.hosts), d.hosts)
    ensures ok ==> Cascaded(d.codec, d.instanceKey, FilesAt(old(d.hosts), Home(p)), FilesAt(d.hosts, Home(p)), cert, k,
                            allowed, block)
    ensures d.dialed == old(d.dialed) + [Home(p).host]
    ensures AllAnswer(d.fate) && Rewritable(d.codec, FilesAt(old(d.hosts), Home(p)), k, allowed) ==> ok
    ensures Sunk(d.fate, Dialing) ==> !ok && d.hosts == old(d.hosts)
    ensures Sunk(d.fate, Remote) ==> !ok
  {
    ok := d.Dial(DialHost(p.name, p.row));
    if !ok {
      return false;
    }
    if cert.Some? {
      ok := PushMemberCert(d, Home(p), cert.value);
      if !ok {
        return false;
      }
    }
    if allowed.Some? {
      ok := RewriteRemote(d, Home(p), k, allowed.value);
      if !ok {
        return false;
      }
    }
    if block.Some? {
      ok := PushConfig(d, Home(p), block.value);
      if !ok {
        return false;
      }
    }
    ok := Try(d.fate, Remote);
  }

  // ---- The loops ----

  function Place(t: Tables, name: string): Account {
    if name in t.peers then AccountOf(name, t.peers[name]) else Account(name, "")
  }

  /** No other affected peer shares the account. */
  ghost predicate Apart(t: Tables, names: seq<string>, i: nat)
    requires i < |names|
  {
    forall j :: 0 <= j < |names| && j != i ==> Place(t, names[j]) != Place(t, names[i])
  }

  /** The rows of these peers. */
  ghost function PeersAt(t: Tables, names: seq<string>): set<Peer> {
    set p | p in names && p in t.peers :: Peer(p, t.peers[p])
  }

  lemma VisitsShare(t: Tables, names: seq<string>, name: string, out: Share,
                    hosts: map<Account, Files>, mid: map<Account, Files>, hosts': map<Account, Files>,
                    dialed: seq<string>, dialed1: seq<string>, dialed2: seq<string>, pushed: set<string>)
    requires Visits(PeersAt(t, names), hosts, mid, dialed, dialed1, pushed) && name in names && name in t.peers
    requires Turn(name, t.peers[name], "", mid, hosts', dialed1, dialed2, out.Reached?)
    requires t.peers[name].revoked ==> dialed2 == dialed1
    ensures Visits(PeersAt(t, names), hosts, hosts', dialed, dialed2,
                   if out.Reached? then pushed + {name} else pushed)
  {
    VisitsStep(PeersAt(t, names), Peer(name, t.peers[name]), hosts, mid, hosts', dialed, dialed1, dialed2, pushed,
               if out.Reached? then pushed + {name} else pushed, out.Reached?);
  }

  function CertFor(certs: map<string, Cert>, name: string): Option<Cert> {
    if name in certs then Some(certs[name]) else None
  }

  function AllowedFor(t: Tables, casc: Cascade, name: string): Option<seq<string>> {
    if name in casc.allowedBy then Some(AllowedList(t, name)) else None
  }

  function BlockFor(t: Tables, key: string, splice: bool, name: string): Option<string> {
    if splice then Some(Block(key, ReachableHosts(t, name))) else None
  }

  /** t is what the database says in the end: accounts not visited are as they were, pushed ones hold their share. */
  ghost predicate PushTold(codec: Codec, key: string, t: Tables,
                           hosts: map<Account, Files>, hosts': map<Account, Files>, k: PublicKey,
                           casc: Cascade, n: nat, certs: map<string, Cert>, pushed: set<string>, splice: bool)
    requires n <= |casc.affected|
  {
    var names := casc.affected;
    && (forall a :: (forall j :: 0 <= j < n ==> Place(t, names[j]) != a) ==> FilesAt(hosts', a) == FilesAt(hosts, a))
    && forall i :: 0 <= i < n && Apart(t, names, i) && names[i] in pushed ==>
         var a := Place(t, names[i]);
         Cascaded(codec, key, FilesAt(hosts, a), FilesAt(hosts', a), CertFor(certs, names[i]), k,
                  AllowedFor(t, casc, names[i]), BlockFor(t, key, splice, names[i]))
  }

  /** What one peer came to. Passed over when revoked; Broke ends the whole operation. */
  datatype Share =
    | Passed
    | Broke(cert: Option<Cert>)
    | Stored(cert: Option<Cert>)
    | Reached(cert: Option<Cert>)
    | Straggler(cert: Option<Cert>)

  /**
   When nothing fails, a peer's share is done unless its principals cannot be rewritten; when nobody can be dialed, no
   file changes.
   */
  ghost predicate ShareFated(codec: Codec, fate: Fates, t: Tables,
                             hosts: map<Account, Files>, hosts': map<Account, Files>,
                             k: PublicKey, casc: Cascade, name: string, out: Share) {
    && (Steady(fate) ==>
          && !out.Broke?
          && (AllAnswer(fate) && Rewritable(codec, FilesAt(hosts, Place(t, name)), k, AllowedFor(t, casc, name)) ==>
              !out.Straggler?))
    && (Sunk(fate, Dialing) ==> hosts' == hosts && !out.Reached?)
  }

  function Signed(certs: map<string, Cert>, name: string, out: Share): map<string, Cert> {
    if !out.Passed? && out.cert.Some? then certs[name := out.cert.value] else certs
  }

  lemma PushStep(codec: Codec, key: string, t: Tables,
                 hosts: map<Account, Files>, mid: map<Account, Files>, hosts': map<Account, Files>,
                 k: PublicKey, casc: Cascade, n: nat,
                   certs: map<string, Cert>, pushed: set<string>, splice: bool, out: Share)
    requires n < |casc.affected| && NoDup(casc.affected) && casc.affected[n] !in certs
    requires pushed <= AsSet(casc.affected[..n])
    requires PushTold(codec, key, t, hosts, mid, k, casc, n, certs, pushed, splice)
    requires var name := casc.affected[n];
             && OnlyAt(mid, hosts', Place(t, name))
             && (out.Reached? ==>
                 Cascaded(codec, key, FilesAt(mid, Place(t, name)), FilesAt(hosts', Place(t, name)), out.cert, k,
                                           AllowedFor(t, casc, name), BlockFor(t, key, splice, name)))
    ensures PushTold(codec, key, t, hosts, hosts', k, casc, n + 1, Signed(certs, casc.affected[n], out),
                     if out.Reached? then pushed + {casc.affected[n]} else pushed, splice)
  {
    var names, name := casc.affected, casc.affected[n];
    assert forall j :: 0 <= j < n ==> names[..n][j] != name;
    var certs', pushed' := Signed(certs, name, out), if out.Reached? then pushed + {name} else pushed;
    forall i | 0 <= i < n + 1 && Apart(t, names, i) && names[i] in pushed'
      ensures var a := Place(t, names[i]);
              Cascaded(codec, key, FilesAt(hosts, a), FilesAt(hosts', a), CertFor(certs', names[i]), k,
                       AllowedFor(t, casc, names[i]), BlockFor(t, key, splice, names[i]))
    {
      if i < n {
        assert Place(t, names[i]) != Place(t, name);
      } else {
        assert FilesAt(mid, Place(t, name)) == FilesAt(hosts, Place(t, name));
      }
    }
  }

  lemma RecertReach(t: Tables, certs: map<string, Cert>, p: string)
    ensures ReachableHosts(Recert(t, certs), p) == ReachableHosts(t, p)
  {
    var t' := Recert(t, certs);
    assert ReachableNames(t', p) == ReachableNames(t, p);
    RecertEntries(t, certs, Ordered(ReachableNames(t, p)));
  }

  /** New certificates change nothing of a peer's share but the certificate. */
  lemma RecertShare(t: Tables, certs: map<string, Cert>, name: string, casc: Cascade, key: string)
    requires name in t.peers
    ensures var t' := Recert(t, certs);
            && Place(t', name) == Place(t, name) && Pushable(t'.peers[name]) == Pushable(t.peers[name])
            && AllowedFor(t', casc, name) == AllowedFor(t, casc, name)
            && BlockFor(t', key, true, name) == BlockFor(t, key, true, name)
  {
    RecertReach(t, certs, name);
  }

  lemma {:induction false} RecertEntries(t: Tables, certs: map<string, Cert>, names: seq<string>)
    ensures Entries(Recert(t, certs), names) == Entries(t, names)
  {
    if names != [] {
      RecertEntries(t, certs, names[..|names| - 1]);
    }
  }

  lemma RecertMore(t: Tables, certs: map<string, Cert>, name: string, cert: Cert)
    requires name in t.peers
    ensures WithCert(Recert(t, certs), name, Some(cert), cert.serial) == Recert(t, certs[name := cert])
    ensures Recert(t, certs).peers[name].key == t.peers[name].key
            && AccountOf(name, Recert(t, certs).peers[name]) == Place(t, name)
  {
    assert WithCert(Recert(t, certs), name, Some(cert), cert.serial).peers == Recert(t, certs[name := cert]).peers;
  }

  /** A live affected member gets a certificate for t; a peer that is only allowing gets none. */
  ghost predicate ShareCert(t: Tables, self: string, k: PublicKey, casc: Cascade, name: string, cert: Option<Cert>) {
    && (cert.Some? <==> name in casc.members)
    && (cert.Some? ==> IsCascadeCert(t, self, k, name, cert.value))
  }

  /** The body of GroupRename's loop, for a peer that exists. */
  method RenamePeer(d: Deps, name: string, casc: Cascade, k: PublicKey, ghost t: Tables,
                    ghost certs: map<string, Cert>) returns (out: Share)
    requires d.Valid() && HasKey(d.dirs, "ca", k) && d.db.rows == Recert(t, certs) && name in t.peers && name !in certs
    modifies d`hosts, d`dialed, d`writes, d`issued, d`log, d.db
    ensures d.Valid() && d.db.rows == Recert(t, Signed(certs, name, out))
    ensures OnlyAt(old(d.hosts), d.hosts, Place(t, name)) && TrustSame(d.codec, old(d.hosts), d.hosts)
    ensures out.Passed? <==> t.peers[name].revoked
    ensures out.Broke? ==> out.cert.Some? ==>
              name in casc.members && IsCascadeCert(t, d.selfName, k, name, out.cert.value)
    ensures !out.Passed? && !out.Broke? ==> ShareCert(t, d.selfName, k, casc, name, out.cert)
    ensures out.Reached? ==>
              Cascaded(d.codec, d.instanceKey, FilesAt(old(d.hosts), Place(t, name)), FilesAt(d.hosts, Place(t, name)),
                                      out.cert, k, AllowedFor(t, casc, name), BlockFor(t, d.instanceKey, true, name))
    ensures Turn(name, t.peers[name], "", old(d.hosts), d.hosts, old(d.dialed), d.dialed, out.Reached?)
    ensures t.peers[name].revoked ==> d.dialed == old(d.dialed)
    ensures out.Stored? ==> !(t.peers[name].inbound && t.peers[name].reachable)
    ensures ShareFated(d.codec, d.fate, t, old(d.hosts), d.hosts, k, casc, name, out)
  {
    var row := d.db.rows.peers[name];
    if row.revoked {
      return Passed;
    }
    var cert: Option<Cert> := None;
    if name in casc.members {
      var ok := d.db.Exec();
      if !ok {
        return Broke(None);
      }
      var groups := GroupsList(d.db.rows, name);
      cert := SignAndStorePeerCert(d, k, name, groups, t);
      if cert.None? {
        return Broke(None);
      }
      RecertMore(t, certs, name, cert.value);
    }
    out := RenamePush(d, name, casc, k, cert, t, Signed(certs, name, Stored(cert)));
  }

  /** The principals for a peer that allows the group. */
  method ReadAllowed(d: Deps, name: string, casc: Cascade) returns (r: Option<Option<seq<string>>>)
    requires d.Valid()
    ensures r.Some? ==> r.value == AllowedFor(d.db.rows, casc, name) && (r.value.Some? ==> PlainNames(r.value.value))
    ensures Sure(d.fate, Statement) ==> r.Some?
  {
    if name !in casc.allowedBy {
      return Some(None);
    }
    var ok := d.db.Exec();
    if !ok {
      return None;
    }
    d.Tidy();
    AllowedPlain(d.db.rows, name);
    return Some(Some(AllowedList(d.db.rows, name)));
  }

  /** Its second half: the push to a peer that can be dialed. */
  method RenamePush(d: Deps, name: string, casc: Cascade, k: PublicKey, cert: Option<Cert>, ghost t: Tables,
                    ghost certs: map<string, Cert>)
    returns (out: Share)
    requires d.Valid() && HasKey(d.dirs, "ca", k) && d.db.rows == Recert(t, certs) && name in t.peers
             && !t.peers[name].revoked
    modifies d`hosts, d`dialed, d`writes, d`log
    ensures d.Valid() && OnlyAt(old(d.hosts), d.hosts, Place(t, name)) && TrustSame(d.codec, old(d.hosts), d.hosts)
    ensures !out.Passed? && out.cert == cert
    ensures out.Reached? ==>
              Cascaded(d.codec, d.instanceKey, FilesAt(old(d.hosts), Place(t, name)), FilesAt(d.hosts, Place(t, name)),
                                      cert, k, AllowedFor(t, casc, name), BlockFor(t, d.instanceKey, true, name))
    ensures Turn(name, t.peers[name], "", old(d.hosts), d.hosts, old(d.dialed), d.dialed, out.Reached?)
    ensures out.Stored? ==> !(t.peers[name].inbound && t.peers[name].reachable)
    ensures ShareFated(d.codec, d.fate, t, old(d.hosts), d.hosts, k, casc, name, out)
  {
    RecertShare(t, certs, name, casc, d.instanceKey);
    ghost var hosts, dialed := d.hosts, d.dialed;
    var allowed := ReadAllowed(d, name, casc);
    if allowed.None? {
      return Broke(cert);
    }
    if !Pushable(d.db.rows.peers[name]) {
      return Stored(cert);
    }
    var ok := PushShare(d, name, k, cert, allowed.value);
    AccountTurn(name, t.peers[name], hosts, d.hosts, dialed, d.dialed, ok);
    return if ok then Reached(cert) else Straggler(cert);
  }

  /** The push itself, with the config block the database calls for. */
  method PushShare(d: Deps, name: string, k: PublicKey, cert: Option<Cert>, allowed: Option<seq<string>>)
    returns (ok: bool)
    requires d.Valid() && HasKey(d.dirs, "ca", k) && name in d.db.rows.peers
             && (allowed.Some? ==> PlainNames(allowed.value))
    modifies d`hosts, d`dialed, d`writes, d`log
    ensures d.Valid() && OnlyAt(old(d.hosts), d.hosts, Place(d.db.rows, name))
            && TrustSame(d.codec, old(d.hosts), d.hosts)
    ensures ok ==> var a := Place(d.db.rows, name);
                   Cascaded(d.codec, d.instanceKey, FilesAt(old(d.hosts), a), FilesAt(d.hosts, a), cert, k, allowed,
                            BlockFor(d.db.rows, d.instanceKey, true, name))
    ensures d.dialed == old(d.dialed) + [Place(d.db.rows, name).host]
    ensures AllAnswer(d.fate) && Rewritable(d.codec, FilesAt(old(d.hosts), Place(d.db.rows, name)), k, allowed) ==> ok
    ensures Sunk(d.fate, Dialing) ==> !ok && d.hosts == old(d.hosts)
  {
    var block := V2SshClientBlockWithHosts(d.instanceKey, ReachableHosts(d.db.rows, name));
    ok := PushGroupCascade(d, Peer(name, d.db.rows.peers[name]), cert, k, allowed, Some(block));
  }

  /** Who of the affected is still to be served with a certificate, up to n. */
  ghost function LiveMembers(t: Tables, casc: Cascade, names: seq<string>): set<string> {
    set p | p in names && p in casc.members && p in t.peers && !t.peers[p].revoked
  }

  lemma LiveStep(t: Tables, casc: Cascade, n: nat)
    requires n < |casc.affected|
    ensures var names, p := casc.affected, casc.affected[n];
            LiveMembers(t, casc, names[..n + 1]) ==
            LiveMembers(t, casc, names[..n]) + (if p in casc.members && p in t.peers && !t.peers[p].revoked then {p}
                                                else {})
    ensures AsSet(casc.affected[..n + 1]) == AsSet(casc.affected[..n]) + {casc.affected[n]}
  {
    assert casc.affected[..n + 1] == casc.affected[..n] + [casc.affected[n]];
  }

  ghost predicate AllSigned(t: Tables, self: string, k: PublicKey, certs: map<string, Cert>) {
    forall p :: p in certs ==> IsCascadeCert(t, self, k, p, certs[p])
  }

  /** Every live pushable peer served so far was pushed to or is a straggler. */
  ghost predicate AllTried(t: Tables, names: seq<string>, pushed: set<string>, stragglers: seq<string>) {
    forall p :: p in names && p in t.peers && !t.peers[p].revoked && t.peers[p].inbound && t.peers[p].reachable ==>
      p in pushed || p in stragglers
  }

  lemma NoDupAt(names: seq<string>, n: nat)
    requires NoDup(names) && n < |names|
    ensures names[n] !in names[..n] && names[n] !in AsSet(names[..n])
  {
    assert forall j :: 0 <= j < n ==> names[..n][j] != names[n];
  }

  /** Where a cascade stands after n peers; t is what the database will say in the end. */
  ghost predicate Cascading(codec: Codec, key: string, self: string, t: Tables,
                            hosts: map<Account, Files>, hosts': map<Account, Files>,
                            k: PublicKey, casc: Cascade, n: nat, certs: map<string, Cert>, pushed: set<string>,
                            stragglers: seq<string>, splice: bool)
    requires n <= |casc.affected|
  {
    && certs.Keys == LiveMembers(t, casc, casc.affected[..n]) && AllSigned(t, self, k, certs)
    && pushed <= AsSet(casc.affected[..n]) && AllTried(t, casc.affected[..n], pushed, stragglers)
    && PushTold(codec, key, t, hosts, hosts', k, casc, n, certs, pushed, splice)
  }

  /** What one peer's turn must have done for the cascade to go on. */
  ghost predicate Shared(codec: Codec, key: string, self: string, t: Tables,
                         mid: map<Account, Files>, hosts': map<Account, Files>,
                         k: PublicKey, casc: Cascade, name: string, out: Share, splice: bool) {
    && name in t.peers && !out.Broke? && (out.Passed? <==> t.peers[name].revoked)
    && OnlyAt(mid, hosts', Place(t, name))
    && (!out.Passed? ==> ShareCert(t, self, k, casc, name, out.cert))
    && (out.Reached? ==>
        Cascaded(codec, key, FilesAt(mid, Place(t, name)), FilesAt(hosts', Place(t, name)), out.cert, k,
                                  AllowedFor(t, casc, name), BlockFor(t, key, splice, name)))
    && (out.Stored? ==> !(t.peers[name].inbound && t.peers[name].reachable))
  }

  lemma SignedStep(t: Tables, self: string, k: PublicKey, casc: Cascade, n: nat, certs: map<string, Cert>, out: Share)
    requires n < |casc.affected| && casc.affected[n] in t.peers && !out.Broke?
             && (out.Passed? <==> t.peers[casc.affected[n]].revoked)
    requires !out.Passed? ==> ShareCert(t, self, k, casc, casc.affected[n], out.cert)
    requires certs.Keys == LiveMembers(t, casc, casc.affected[..n]) && AllSigned(t, self, k, certs)
    ensures var certs' := Signed(certs, casc.affected[n], out);
            certs'.Keys == LiveMembers(t, casc, casc.affected[..n + 1]) && AllSigned(t, self, k, certs')
  {
    LiveStep(t, casc, n);
  }

  lemma TriedStep(t: Tables, names: seq<string>, n: nat, pushed: set<string>, stragglers: seq<string>, out: Share)
    requires n < |names| && names[n] in t.peers && !out.Broke? && (out.Passed? <==> t.peers[names[n]].revoked)
    requires out.Stored? ==> !(t.peers[names[n]].inbound && t.peers[names[n]].reachable)
    requires AllTried(t, names[..n], pushed, stragglers)
    ensures AllTried(t, names[..n + 1], if out.Reached? then pushed + {names[n]} else pushed,
                     if out.Straggler? then stragglers + [names[n]] else stragglers)
  {
    assert names[..n + 1] == names[..n] + [names[n]];
  }

  lemma CascadingStep(codec: Codec, key: string, self: string, t: Tables,
                      hosts: map<Account, Files>, mid: map<Account, Files>,
                      hosts': map<Account, Files>, k: PublicKey, casc: Cascade, n: nat, certs: map<string, Cert>,
                      pushed: set<string>, stragglers: seq<string>, splice: bool, out: Share)
    requires n < |casc.affected| && NoDup(casc.affected)
    requires Cascading(codec, key, self, t, hosts, mid, k, casc, n, certs, pushed, stragglers, splice)
    requires Shared(codec, key, self, t, mid, hosts', k, casc, casc.affected[n], out, splice)
    ensures Cascading(codec, key, self, t, hosts, hosts', k, casc, n + 1, Signed(certs, casc.affected[n], out),
                      if out.Reached? then pushed + {casc.affected[n]} else pushed,
                      if out.Straggler? then stragglers + [casc.affected[n]] else stragglers, splice)
  {
    LiveStep(t, casc, n);
    NoDupAt(casc.affected, n);
    SignedStep(t, self, k, casc, n, certs, out);
    TriedStep(t, casc.affected, n, pushed, stragglers, out);
    assert casc.affected[n] !in certs.Keys;
    PushStep(codec, key, t, hosts, mid, hosts', k, casc, n, certs, pushed, splice, out);
  }

  lemma AffectedIs(t: Tables, group: string)
    requires Linked(t)
    ensures var casc := CascadeOf(t, group);
            && NoDup(casc.affected)
            && (forall p :: p in casc.affected <==> p in casc.members || p in casc.allowedBy)
            && (forall p :: p in casc.affected ==> p in t.peers)
  {
    OrderedIs(PeersOf(t.members, group) + PeersOf(t.allowed, group));
    forall p | p in PeersOf(t.members, group) || p in PeersOf(t.allowed, group)
      ensures p in t.peers
    {
      assert Membership(p, group) in t.members || Membership(p, group) in t.allowed;
    }
  }

  lemma CascadingNone(codec: Codec, key: string, self: string, t: Tables,
                      hosts: map<Account, Files>, k: PublicKey, casc: Cascade, splice: bool)
    ensures Cascading(codec, key, self, t, hosts, hosts, k, casc, 0, map[], {}, [], splice)
    ensures Recert(t, map[]) == t
  {
    assert Recert(t, map[]).peers == t.peers;
  }

  /** Somebody shares the account of the i-th peer, or its principals cannot be rewritten. */
  ghost predicate Unservable(codec: Codec, t: Tables, hosts: map<Account, Files>, k: PublicKey, casc: Cascade, i: nat)
    requires i < |casc.affected|
  {
    var name := casc.affected[i];
    !Apart(t, casc.affected, i) || !Rewritable(codec, FilesAt(hosts, Place(t, name)), k, AllowedFor(t, casc, name))
  }

  /** When nothing fails, only such peers are stragglers. */
  ghost predicate Blamed(codec: Codec, fate: Fates, t: Tables, hosts: map<Account, Files>, k: PublicKey, casc: Cascade,
                         stragglers: seq<string>) {
    Steady(fate) && AllAnswer(fate) ==>
      forall s :: s in stragglers ==>
        exists i: nat :: i < |casc.affected| && casc.affected[i] == s && Unservable(codec, t, hosts, k, casc, i)
  }

  /** Whom a cascade has reached so far. */
  ghost predicate Rounds(codec: Codec, fate: Fates, t: Tables, hosts: map<Account, Files>, hosts': map<Account, Files>,
                         dialed: seq<string>, dialed': seq<string>, k: PublicKey, casc: Cascade, pushed: set<string>,
                         stragglers: seq<string>) {
    && Visits(PeersAt(t, casc.affected), hosts, hosts', dialed, dialed', pushed)
    && (Sunk(fate, Dialing) ==> hosts' == hosts)
    && Blamed(codec, fate, t, hosts, k, casc, stragglers)
  }

  lemma RoundsStep(codec: Codec, fate: Fates, t: Tables, hosts: map<Account, Files>, mid: map<Account, Files>,
                   hosts': map<Account, Files>, dialed: seq<string>, dialed1: seq<string>, dialed2: seq<string>,
                   k: PublicKey, casc: Cascade, n: nat, key: string, certs: map<string, Cert>, pushed: set<string>,
                   stragglers: seq<string>, splice: bool, out: Share)
    requires n < |casc.affected| && casc.affected[n] in t.peers
    requires Rounds(codec, fate, t, hosts, mid, dialed, dialed1, k, casc, pushed, stragglers)
    requires PushTold(codec, key, t, hosts, mid, k, casc, n, certs, pushed, splice)
    requires var name := casc.affected[n];
             && Turn(name, t.peers[name], "", mid, hosts', dialed1, dialed2, out.Reached?)
             && (t.peers[name].revoked ==> dialed2 == dialed1)
             && ShareFated(codec, fate, t, mid, hosts', k, casc, name, out)
    ensures Rounds(codec, fate, t, hosts, hosts', dialed, dialed2, k, casc,
                   if out.Reached? then pushed + {casc.affected[n]} else pushed,
                   if out.Straggler? then stragglers + [casc.affected[n]] else stragglers)
  {
    var name := casc.affected[n];
    VisitsShare(t, casc.affected, name, out, hosts, mid, hosts', dialed, dialed1, dialed2, pushed);
    if Steady(fate) && AllAnswer(fate) && out.Straggler? {
      if Apart(t, casc.affected, n) {
        assert FilesAt(mid, Place(t, name)) == FilesAt(hosts, Place(t, name));
      }
      assert Unservable(codec, t, hosts, k, casc, n);
    }
  }

  /**
   Who was served in the end: when nothing fails, every live affected peer that can be dialed but those; and without
   any of them the call succeeds.
   */
  ghost predicate Served(codec: Codec, fate: Fates, t: Tables, hosts: map<Account, Files>, k: PublicKey, casc: Cascade,
                         pushed: set<string>, ok: bool) {
    Steady(fate) && AllAnswer(fate) ==>
      && (forall i: nat :: i < |casc.affected| && casc.affected[i] in t.peers && !t.peers[casc.affected[i]].revoked
                           && t.peers[casc.affected[i]].inbound && t.peers[casc.affected[i]].reachable ==>
            casc.affected[i] in pushed || Unservable(codec, t, hosts, k, casc, i))
      && ((forall i: nat :: i < |casc.affected| ==> !Unservable(codec, t, hosts, k, casc, i)) ==> ok)
  }

  lemma IsServed(codec: Codec, fate: Fates, t: Tables, hosts: map<Account, Files>, k: PublicKey, casc: Cascade,
                 pushed: set<string>, stragglers: seq<string>)
    requires NoDup(casc.affected) && Blamed(codec, fate, t, hosts, k, casc, stragglers)
    requires AllTried(t, casc.affected, pushed, stragglers)
    ensures Served(codec, fate, t, hosts, k, casc, pushed, stragglers == [])
  {
    if Steady(fate) && AllAnswer(fate) {
      forall i: nat | i < |casc.affected| && casc.affected[i] in stragglers
        ensures Unservable(codec, t, hosts, k, casc, i)
      {
        var j: nat :| j < |casc.affected| && casc.affected[j] == casc.affected[i]
                      && Unservable(codec, t, hosts, k, casc, j);
      }
      if stragglers != [] {
        assert stragglers[0] in stragglers;
      }
    }
  }

  /** The loop of GroupRename. done is false when it gave up in the middle. */
  method RenameLoop(d: Deps, casc: Cascade, k: PublicKey)
    returns (done: bool, stragglers: seq<string>, ghost certs: map<string, Cert>, ghost pushed: set<string>)
    requires d.Valid() && HasKey(d.dirs, "ca", k) && NoDup(casc.affected)
    requires forall p :: p in casc.affected ==> p in d.db.rows.peers
    modifies d`hosts, d`dialed, d`writes, d`issued, d`log, d.db
    ensures d.Valid() && d.db.rows == Recert(old(d.db.rows), certs) && AllSigned(old(d.db.rows), d.selfName, k, certs)
    ensures TrustSame(d.codec, old(d.hosts), d.hosts)
    ensures Rounds(d.codec, d.fate, old(d.db.rows), old(d.hosts), d.hosts, old(d.dialed), d.dialed, k, casc, pushed,
                   stragglers)
    ensures Steady(d.fate) ==> done
    ensures done ==>
              Cascading(d.codec, d.instanceKey, d.selfName, old(d.db.rows), old(d.hosts), d.hosts, k, casc,
                        |casc.affected|,
                               certs, pushed, stragglers, true)
  {
    ghost var t := d.db.rows;
    stragglers, certs, pushed := [], map[], {};
    CascadingNone(d.codec, d.instanceKey, d.selfName, t, d.hosts, k, casc, true);
    VisitsNone(PeersAt(t, casc.affected), d.hosts, d.dialed);
    for i := 0 to |casc.affected|
      invariant d.Valid() && d.db.rows == Recert(t, certs)
      invariant TrustSame(d.codec, old(d.hosts), d.hosts)
      invariant Rounds(d.codec, d.fate, t, old(d.hosts), d.hosts, old(d.dialed), d.dialed, k, casc, pushed, stragglers)
      invariant Cascading(d.codec, d.instanceKey, d.selfName, t, old(d.hosts), d.hosts, k, casc, i, certs, pushed,
                          stragglers, true)
    {
      var name := casc.affected[i];
      ghost var mid, dialed := d.hosts, d.dialed;
      NoDupAt(casc.affected, i);
      assert name in casc.affected;
      var ok := d.db.Exec();
      if !ok {
        return false, stragglers, certs, pushed;
      }
      var out := RenamePeer(d, name, casc, k, t, certs);
      RoundsStep(d.codec, d.fate, t, old(d.hosts), mid, d.hosts, old(d.dialed), dialed, d.dialed, k, casc, i,
                 d.instanceKey, certs, pushed, stragglers, true, out);
      if out.Broke? {
        certs := Signed(certs, name, out);
        return false, stragglers, certs, pushed;
      }
      CascadingStep(d.codec, d.instanceKey, d.selfName, t, old(d.hosts), mid, d.hosts, k, casc, i, certs, pushed,
                    stragglers, true, out);
      certs := Signed(certs, name, out);
      pushed := if out.Reached? then pushed + {name} else pushed;
      stragglers := if out.Straggler? then stragglers + [name] else stragglers;
    }
    return true, stragglers, certs, pushed;
  }

  // ---- Renaming ----

  lemma CascadeRecerts(self: string, t: Tables, k: PublicKey, casc: Cascade, certs: map<string, Cert>)
    requires certs.Keys == LiveMembers(t, casc, casc.affected) && AllSigned(t, self, k, certs)
    requires forall p :: p in casc.members ==> p in casc.affected
    ensures Recerts(self, t, certs, casc.members)
  {
    forall p | p in certs
      ensures p != self ==> ListsExactly(certs[p], p, GroupsOf(t.members, p))
    {
      CascadeCertLists(t, self, k, p, certs[p]);
    }
  }

  /** Everybody live that can be dialed was pushed to. */
  ghost predicate AllPushed(t: Tables, names: seq<string>, pushed: set<string>) {
    AllTried(t, names, pushed, [])
  }

  /** What a finished rename leaves: t is the database before it. */
  ghost predicate RenameTold(codec: Codec, key: string, self: string, w: World, w': World, o: string, n: string,
                             certs: map<string, Cert>, pushed: set<string>) {
    var t1, casc := GroupRenamed(w.db, o, n), CascadeOf(w.db, o);
    && Completes(self, w.db, Rename(o, n, certs), w'.db) && TrustSame(codec, w.hosts, w'.hosts)
    && (casc.affected != [] ==>
          && "ca" in w.dirs && w.dirs["ca"].Keyed?
          && PushTold(codec, key, t1, w.hosts, w'.hosts, w.dirs["ca"].key, casc, |casc.affected|, certs, pushed, true))
  }

  /** No membership is under a name that is not trimmed. */
  lemma UntrimmedNobody(t: Tables, g: string)
    requires Linked(t) && PlainGroups(t) && TrimSpace(g) != g
    ensures CascadeOf(t, g).affected == []
  {
    assert g !in t.groups;
    assert PeersOf(t.members, g) + PeersOf(t.allowed, g) == {};
  }

  /**
   What a rename leaves of the database when it did not complete: as before, or renamed with some of the certificates.
   */
  ghost predicate Unrenamed(self: string, w: World, w': World, o: string, n: string, certs: map<string, Cert>) {
    w'.db == w.db || HalfRenamed(self, w, w', o, n, certs)
  }

  /** What a call to rename o, given as oldName, to n comes to: w is the world before it, w' after it. */
  ghost predicate RenameCall(codec: Codec, key: string, self: string, w: World, w': World,
                             dialed: seq<string>, dialed': seq<string>, oldName: string, o: string, n: string,
                             ok: bool, done: bool, certs: map<string, Cert>, pushed: set<string>) {
    && (!done ==> Unrenamed(self, w, w', o, n, certs))
    && (done ==> oldName == o != n && RenameTold(codec, key, self, w, w', o, n, certs, pushed))
    && (done || dialed' != dialed ==> w'.db.rev == w.db.rev + 1)
    && (ok && oldName == o != n ==> done && AllPushed(GroupRenamed(w.db, o, n), CascadeOf(w.db, o).affected, pushed))
    && Visits(PeersAt(w.db, CascadeOf(w.db, o).affected), w.hosts, w'.hosts, dialed, dialed', pushed)
    && (oldName != o ==> w'.hosts == w.hosts && dialed' == dialed && w'.issued == w.issued)
    && (oldName != o && ok ==>
          o in w.db.groups && n !in w.db.groups - {o}
          && w'.db == GroupRenamed(w.db, o, n).(rev := w.db.rev + 1))
  }

  /**
   When nothing fails, the call to rename a group to a new name goes through, but for who cannot be served. When nobody
   can be dialed, no file changes; when no statement works, nothing does.
   */
  ghost predicate RenameGoes(codec: Codec, fate: Fates, w: World, w': World, oldName: string, o: string, n: string,
                             ok: bool, done: bool, pushed: set<string>) {
    && (Sunk(fate, Dialing) ==> w'.hosts == w.hosts)
    && (Sunk(fate, Statement) ==> w' == w && !ok)
    && (Steady(fate) && Sure(fate, Unlocking) && CanSign(w.dirs) && o in w.db.groups && n !in w.db.groups ==>
          if oldName == o
          then done && Served(codec, fate, GroupRenamed(w.db, o, n), w.hosts, w.dirs["ca"].key, CascadeOf(w.db, o),
                              pushed, ok)
          else ok)
  }

  /**
   ops.GroupRename. done: the database part completed, whoever could not be pushed to. With blanks around the old name
   the database is renamed all the same, but the cascade looks for the name as given, finds nobody, and the call
   succeeds.
   */
  method GroupRename(d: Deps, oldName: string, newName: string, hostname: string)
    returns (ok: bool, ghost done: bool, ghost certs: map<string, Cert>, ghost pushed: set<string>)
    requires d.Valid() && (hostname == "" || hostname == d.selfName)
    requires TrimSpace(newName) != "" ==> PlainName(TrimSpace(newName))
    modifies d`hosts, d`dialed, d`writes, d`issued, d`log, d.db
    ensures d.Valid()
    ensures RenameCall(d.codec, d.instanceKey, d.selfName, old(d.Now()), d.Now(), old(d.dialed), d.dialed, oldName,
                       TrimSpace(oldName), TrimSpace(newName), ok, done, certs, pushed)
    ensures var n := TrimSpace(newName);
            && (oldName == MANAGER || n == MANAGER || n == "" ==> !ok && d.Now() == old(d.Now()))
            && (oldName == n ==> d.Now() == old(d.Now()) && (ok ==> n in d.db.rows.groups))
            && (oldName != MANAGER && n != MANAGER && n != "" ==>
                  RenameGoes(d.codec, d.fate, old(d.Now()), d.Now(), oldName, TrimSpace(oldName), n, ok, done, pushed))
  {
    done, certs, pushed := false, map[], {};
    var n := TrimSpace(newName);
    RenameNone(d.codec, d.instanceKey, d.selfName, d.Now(), d.dialed, oldName, TrimSpace(oldName), n);
    if oldName == MANAGER || n == MANAGER || n == "" {
      return false, false, certs, pushed;
    }
    if oldName == n {
      ok := d.db.Exec();
      return ok && oldName in d.db.rows.groups, false, certs, pushed;
    }
    ok, done, certs, pushed := RenameLoaded(d, oldName, n);
  }

  lemma RenameNone(codec: Codec, key: string, self: string, w: World, dialed: seq<string>, oldName: string, o: string,
                   n: string)
    requires o == TrimSpace(oldName) && n == TrimSpace(n)
    ensures RenameCall(codec, key, self, w, w, dialed, dialed, oldName, o, n, false, false, map[], {})
    ensures oldName == n ==> RenameCall(codec, key, self, w, w, dialed, dialed, oldName, o, n, true, false, map[], {})
  {
    VisitsNone(PeersAt(w.db, CascadeOf(w.db, o).affected), w.hosts, dialed);
  }

  /** What follows for two different names: the cascade is looked up, the database renamed, the revision bumped. */
  method RenameLoaded(d: Deps, oldName: string, n: string)
    returns (ok: bool, ghost done: bool, ghost certs: map<string, Cert>, ghost pushed: set<string>)
    requires d.Valid() && oldName != n && PlainName(n)
    modifies d`hosts, d`dialed, d`writes, d`issued, d`log, d.db
    ensures d.Valid()
    ensures RenameCall(d.codec, d.instanceKey, d.selfName, old(d.Now()), d.Now(), old(d.dialed), d.dialed, oldName,
                       TrimSpace(oldName), n, ok, done, certs, pushed)
    ensures RenameGoes(d.codec, d.fate, old(d.Now()), d.Now(), oldName, TrimSpace(oldName), n, ok, done, pushed)
  {
    ghost var w := d.Now();
    done, certs, pushed := false, map[], {};
    ghost var o := TrimSpace(oldName);
    RenameNone(d.codec, d.instanceKey, d.selfName, w, d.dialed, oldName, o, n);
    var loaded := LoadGroupCascade(d, oldName);
    if loaded.None? {
      return false, false, certs, pushed;
    }
    var casc := loaded.value;
    d.Tidy();
    AffectedIs(d.db.rows, oldName);
    if oldName != o {
      UntrimmedNobody(d.db.rows, oldName);
    }
    ok, done, certs, pushed := RenameRow(d, oldName, n, casc);
  }

  /** The database is renamed and the revision bumped, then come the peers. */
  method RenameRow(d: Deps, oldName: string, n: string, casc: Cascade)
    returns (ok: bool, ghost done: bool, ghost certs: map<string, Cert>, ghost pushed: set<string>)
    requires d.Valid() && oldName != n && PlainName(n) && casc == CascadeOf(d.db.rows, oldName) && Linked(d.db.rows)
    requires (oldName != TrimSpace(oldName) ==> casc.affected == []) && !Sunk(d.fate, Statement)
    modifies d`hosts, d`dialed, d`writes, d`issued, d`log, d.db
    ensures d.Valid()
    ensures RenameCall(d.codec, d.instanceKey, d.selfName, old(d.Now()), d.Now(), old(d.dialed), d.dialed, oldName,
                       TrimSpace(oldName), n, ok, done, certs, pushed)
    ensures RenameGoes(d.codec, d.fate, old(d.Now()), d.Now(), oldName, TrimSpace(oldName), n, ok, done, pushed)
  {
    ghost var w := d.Now();
    done, certs, pushed := false, map[], {};
    ghost var o := TrimSpace(oldName);
    RenameNone(d.codec, d.instanceKey, d.selfName, w, d.dialed, oldName, o, n);
    ok := d.RenameGroup(oldName, n);
    if !ok {
      return false, false, certs, pushed;
    }
    RenameUnbumped(d.codec, d.instanceKey, d.selfName, d.fate, w, d.Now(), d.dialed, oldName, o, n);
    ok := d.BumpFleetRev();
    if !ok {
      return false, false, certs, pushed;
    }
    ok, done, certs, pushed := RenameBumped(d, oldName, n, casc, w);
  }

  /** The peers' part: nobody may be affected. */
  method RenameBumped(d: Deps, oldName: string, n: string, casc: Cascade, ghost w: World)
    returns (ok: bool, ghost done: bool, ghost certs: map<string, Cert>, ghost pushed: set<string>)
    requires d.Valid() && oldName != n && PlainName(n) && casc == CascadeOf(w.db, oldName) && Linked(w.db)
    requires (oldName != TrimSpace(oldName) ==> casc.affected == []) && !Sunk(d.fate, Statement)
    requires TrimSpace(oldName) in w.db.groups && (TrimSpace(oldName) != n ==> n !in w.db.groups)
    requires d.Now() == w.(db := GroupRenamed(w.db, TrimSpace(oldName), n).(rev := w.db.rev + 1))
    modifies d`hosts, d`dialed, d`writes, d`issued, d`log, d.db
    ensures d.Valid()
    ensures RenameCall(d.codec, d.instanceKey, d.selfName, w, d.Now(), old(d.dialed), d.dialed, oldName,
                       TrimSpace(oldName), n, ok, done, certs, pushed)
    ensures RenameGoes(d.codec, d.fate, w, d.Now(), oldName, TrimSpace(oldName), n, ok, done, pushed)
  {
    ghost var o := TrimSpace(oldName);
    ghost var dialed := d.dialed;
    done, certs, pushed := false, map[], {};
    if casc.affected == [] {
      RenamedNobody(d.codec, d.instanceKey, d.selfName, d.fate, w, d.Now(), dialed, oldName, o, n);
      return true, oldName == o, certs, pushed;
    }
    ok, done, certs, pushed := RenameRest(d, oldName, n, casc, w);
    RenamedSome(d.codec, d.instanceKey, d.selfName, d.fate, w, d.Now(), dialed, d.dialed, o, n, ok, done, certs,
                pushed);
  }

  /** The call that stops before the revision is bumped. */
  lemma RenameUnbumped(codec: Codec, key: string, self: string, fate: Fates, w: World, w': World, dialed: seq<string>,
                       oldName: string, o: string, n: string)
    requires o == TrimSpace(oldName) && n == TrimSpace(n) && oldName != n && w' == w.(db := GroupRenamed(w.db, o, n))
    ensures RenameCall(codec, key, self, w, w', dialed, dialed, oldName, o, n, false, false, map[], {})
  {
    VisitsNone(PeersAt(w.db, CascadeOf(w.db, o).affected), w.hosts, dialed);
    RecertNone(GroupRenamed(w.db, o, n));
  }

  /** The call that serves somebody. */
  lemma RenamedSome(codec: Codec, key: string, self: string, fate: Fates, w: World, w': World,
                    dialed: seq<string>, dialed': seq<string>, o: string, n: string,
                    ok: bool, done: bool, certs: map<string, Cert>, pushed: set<string>)
    requires o != n && w'.db.rev == w.db.rev + 1
    requires done ==> RenameTold(codec, key, self, w, w', o, n, certs, pushed)
    requires !done ==> HalfRenamed(self, w, w', o, n, certs)
    requires ok ==> done && AllPushed(GroupRenamed(w.db, o, n), CascadeOf(w.db, o).affected, pushed)
    requires Visits(PeersAt(w.db, CascadeOf(w.db, o).affected), w.hosts, w'.hosts, dialed, dialed', pushed)
    requires !Sunk(fate, Statement) && (Sunk(fate, Dialing) ==> w'.hosts == w.hosts)
    requires Steady(fate) && Sure(fate, Unlocking) && CanSign(w.dirs) ==>
               done && Served(codec, fate, GroupRenamed(w.db, o, n), w.hosts, w.dirs["ca"].key, CascadeOf(w.db, o),
                              pushed, ok)
    ensures RenameCall(codec, key, self, w, w', dialed, dialed', o, o, n, ok, done, certs, pushed)
    ensures RenameGoes(codec, fate, w, w', o, o, n, ok, done, pushed)
  {
  }

  /** The call that finds nobody affected. */
  lemma RenamedNobody(codec: Codec, key: string, self: string, fate: Fates, w: World, w': World, dialed: seq<string>,
                      oldName: string, o: string, n: string)
    requires o == TrimSpace(oldName) && n == TrimSpace(n) && oldName != n && CascadeOf(w.db, oldName).affected == []
    requires Linked(w.db) && o in w.db.groups && (o != n ==> n !in w.db.groups)
    requires w' == w.(db := GroupRenamed(w.db, o, n).(rev := w.db.rev + 1))
    ensures RenameCall(codec, key, self, w, w', dialed, dialed, oldName, o, n, true, oldName == o, map[], {})
    requires !Sunk(fate, Statement)
    ensures RenameGoes(codec, fate, w, w', oldName, o, n, true, oldName == o, {})
  {
    VisitsNone(PeersAt(w.db, CascadeOf(w.db, o).affected), w.hosts, dialed);
    RecertNone(GroupRenamed(w.db, o, n));
    if oldName == o {
      RenameNobody(self, w.db, w'.db, o, n);
    }
  }

  /**
   Certificates in step before such a rename with blanks are in step after it exactly if the group had no live member
   but the manager itself.
   */
  lemma UntrimmedOutOfStep(self: string, t: Tables, t': Tables, o: string, n: string)
    requires CertsInStep(self, t) && PlainGroups(t) && Linked(t) && PlainName(n)
    requires o in t.groups && o != n && n !in t.groups && t' == GroupRenamed(t, o, n).(rev := t'.rev)
    ensures CertsInStep(self, t') <==> forall p :: p in PeersOf(t.members, o) && !t.peers[p].revoked ==> p == self
  {
    MembersKnown(t, o);
    forall p | p in t.peers && !t.peers[p].revoked && p != self
      ensures ListsExactly(t.peers[p].cert.value, p, GroupsOf(t'.members, p)) <==> p !in PeersOf(t.members, o)
    {
      if p in PeersOf(t.members, o) {
        RenamedMember(t, o, n, p, t.peers[p].cert.value);
      } else {
        NotInRenamed(t.members, o, n, p);
      }
    }
  }

  lemma MembersKnown(t: Tables, o: string)
    requires Linked(t)
    ensures forall p :: p in PeersOf(t.members, o) ==> p in t.peers
  {
    forall p | p in PeersOf(t.members, o)
      ensures p in t.peers
    {
      assert Membership(p, o) in t.members;
    }
  }

  lemma RenamedMember(t: Tables, o: string, n: string, p: string, cert: Cert)
    requires p in PeersOf(t.members, o) && o != n && n !in t.groups && Linked(t) && PlainGroups(t) && PlainName(n)
    requires ListsExactly(cert, p, GroupsOf(t.members, p))
    ensures !ListsExactly(cert, p, GroupsOf(Retargeted(t.members, o, n), p))
  {
    var was, now := GroupsOf(t.members, p), GroupsOf(Retargeted(t.members, o, n), p);
    RetargetedGroups(t.members, o, n, p);
    assert Membership(p, o) in t.members;
    assert o in was && n !in was;
    assert Swap(o, o, n) == n && n in now;
    assert o !in now;
    if p == n {
      assert o in cert.principals;
    } else {
      assert n !in cert.principals;
    }
  }

  /**
   A rename that did not finish: renamed in the database, and beyond that only certificates changed, each for the new
   names.
   */
  ghost predicate HalfRenamed(self: string, w: World, w': World, o: string, n: string, certs: map<string, Cert>) {
    && w'.db == Recert(GroupRenamed(w.db, o, n), certs).(rev := w'.db.rev)
    && (certs != map[] ==>
        "ca" in w.dirs && w.dirs["ca"].Keyed? && AllSigned(GroupRenamed(w.db, o, n), self, w.dirs["ca"].key, certs))
  }

  lemma RecertNone(t: Tables)
    ensures Recert(t, map[]) == t
  {
    assert Recert(t, map[]).peers == t.peers;
  }

  lemma RenameNobody(self: string, t: Tables, t': Tables, o: string, n: string)
    requires CascadeOf(t, o).affected == [] && Linked(t)
    requires o in t.groups && (o != n ==> n !in t.groups) && t' == GroupRenamed(t, o, n).(rev := t'.rev)
    ensures Completes(self, t, Rename(o, n, map[]), t')
  {
    AffectedIs(t, o);
    var t1 := GroupRenamed(t, o, n);
    assert Recert(t1, map[]).peers == t1.peers;
    assert forall p :: p !in PeersOf(t.members, o);
  }

  /** GroupRename after the database rename, when somebody is affected. */
  method RenameRest(d: Deps, o: string, n: string, casc: Cascade, ghost w: World)
    returns (ok: bool, ghost done: bool, ghost certs: map<string, Cert>, ghost pushed: set<string>)
    requires d.Valid() && casc == CascadeOf(w.db, o) && casc.affected != [] && Linked(w.db)
    requires o in w.db.groups && (o != n ==> n !in w.db.groups)
    requires d.Now() == w.(db := GroupRenamed(w.db, o, n).(rev := d.db.rows.rev))
    modifies d`hosts, d`dialed, d`writes, d`issued, d`log, d.db
    ensures d.Valid()
    ensures done ==> RenameTold(d.codec, d.instanceKey, d.selfName, w, d.Now(), o, n, certs, pushed)
    ensures !done ==> HalfRenamed(d.selfName, w, d.Now(), o, n, certs)
    ensures ok ==> done && AllPushed(GroupRenamed(w.db, o, n), casc.affected, pushed)
    ensures Visits(PeersAt(w.db, casc.affected), w.hosts, d.hosts, old(d.dialed), d.dialed, pushed)
    ensures d.db.rows.rev == old(d.db.rows).rev
    ensures Sunk(d.fate, Dialing) ==> d.hosts == w.hosts
    ensures Steady(d.fate) && Sure(d.fate, Unlocking) && CanSign(w.dirs) ==>
              done && Served(d.codec, d.fate, GroupRenamed(w.db, o, n), w.hosts, w.dirs["ca"].key, casc, pushed, ok)
  {
    done, certs, pushed := false, map[], {};
    RecertNone(GroupRenamed(w.db, o, n));
    VisitsNone(PeersAt(w.db, casc.affected), d.hosts, d.dialed);
    var unlocked := Try(d.fate, Unlocking);
    if !unlocked || "ca" !in d.dirs || d.dirs["ca"].Partial? || !d.dirs["ca"].readable {
      return false, false, certs, pushed;
    }
    var k := d.dirs["ca"].key;
    AffectedIs(w.db, o);
    ghost var t := d.db.rows;
    assert PeersAt(t, casc.affected) == PeersAt(w.db, casc.affected);
    var finished, stragglers;
    finished, stragglers, certs, pushed := RenameLoop(d, casc, k);
    if !finished {
      return false, false, certs, pushed;
    }
    assert casc.affected[..|casc.affected|] == casc.affected;
    CascadeRecerts(d.selfName, t, k, casc, certs);
    IsServed(d.codec, d.fate, t, w.hosts, k, casc, pushed, stragglers);
    ServedSame(d.codec, d.fate, t, GroupRenamed(w.db, o, n), w.hosts, k, casc, pushed, stragglers == []);
    RenameIsTold(d.codec, d.instanceKey, d.selfName, w, d.Now(), t, o, n, k, casc, certs, pushed, stragglers);
    return stragglers == [], true, certs, pushed;
  }

  /** The revision plays no part in who is served. */
  lemma ServedSame(codec: Codec, fate: Fates, t: Tables, t1: Tables, hosts: map<Account, Files>, k: PublicKey,
                   casc: Cascade, pushed: set<string>, ok: bool)
    requires t == t1.(rev := t.rev) && Served(codec, fate, t, hosts, k, casc, pushed, ok)
    ensures Served(codec, fate, t1, hosts, k, casc, pushed, ok)
  {
    forall i: nat | i < |casc.affected|
      ensures Unservable(codec, t1, hosts, k, casc, i) <==> Unservable(codec, t, hosts, k, casc, i)
    {
      assert Apart(t1, casc.affected, i) <==> Apart(t, casc.affected, i);
    }
  }

  lemma RenameIsTold(codec: Codec, key: string, self: string, w: World, w': World, t: Tables, o: string, n: string,
                     k: PublicKey,
                     casc: Cascade, certs: map<string, Cert>, pushed: set<string>, stragglers: seq<string>)
    requires casc == CascadeOf(w.db, o) && t == GroupRenamed(w.db, o, n).(rev := t.rev)
    requires o in w.db.groups && (o != n ==> n !in w.db.groups)
    requires HasKey(w.dirs, "ca", k) && w'.db == Recert(t, certs) && TrustSame(codec, w.hosts, w'.hosts)
    requires Recerts(self, t, certs, casc.members)
    requires Cascading(codec, key, self, t, w.hosts, w'.hosts, k, casc, |casc.affected|, certs, pushed, stragglers,
                       true)
    ensures RenameTold(codec, key, self, w, w', o, n, certs, pushed)
    ensures stragglers == [] ==> AllPushed(GroupRenamed(w.db, o, n), casc.affected, pushed)
  {
    var t1 := GroupRenamed(w.db, o, n);
    assert casc.affected[..|casc.affected|] == casc.affected;
    PushToldSame(codec, key, t, t1, w.hosts, w'.hosts, k, casc, certs, pushed);
    RenameCompletes(self, w.db, t, w'.db, o, n, casc, certs);
  }

  lemma RenameCompletes(self: string, t0: Tables, t: Tables, t': Tables, o: string, n: string, casc: Cascade,
                        certs: map<string, Cert>)
    requires casc == CascadeOf(t0, o) && t == GroupRenamed(t0, o, n).(rev := t.rev) && o in t0.groups
             && (o != n ==> n !in t0.groups)
    requires t' == Recert(t, certs) && Recerts(self, t, certs, casc.members)
    ensures Completes(self, t0, Rename(o, n, certs), t')
  {
    assert Recert(t, certs).peers == Recert(GroupRenamed(t0, o, n), certs).peers;
  }

  lemma PushToldSame(codec: Codec, key: string, t: Tables, t1: Tables,
                     hosts: map<Account, Files>, hosts': map<Account, Files>,
                     k: PublicKey, casc: Cascade, certs: map<string, Cert>, pushed: set<string>)
    requires t1 == t.(rev := t1.rev)
    requires PushTold(codec, key, t, hosts, hosts', k, casc, |casc.affected|, certs, pushed, true)
    ensures PushTold(codec, key, t1, hosts, hosts', k, casc, |casc.affected|, certs, pushed, true)
  {
    var names := casc.affected;
    forall i | 0 <= i < |names| && Apart(t1, names, i) && names[i] in pushed
      ensures var a := Place(t1, names[i]);
              Cascaded(codec, key, FilesAt(hosts, a), FilesAt(hosts', a), CertFor(certs, names[i]), k,
                       AllowedFor(t1, casc, names[i]), BlockFor(t1, key, true, names[i]))
    {
      assert Apart(t, names, i);
      RevReach(t, t1, names[i]);
    }
  }

  lemma RevReach(t: Tables, t1: Tables, p: string)
    requires t1 == t.(rev := t1.rev)
    ensures ReachableHosts(t1, p) == ReachableHosts(t, p)
  {
    assert ReachableNames(t1, p) == ReachableNames(t, p);
    SameEntries(t, t1, Ordered(ReachableNames(t, p)));
  }

  /** After a rename that reached a peer, the peer's trust line is in step with the renamed database. */
  lemma RenameInStep(codec: Codec, key: string, self: string, w: World, w': World, o: string, n: string,
                     certs: map<string, Cert>,
                     pushed: set<string>, i: nat, ps: seq<string>)
    requires Faithful(codec) && Linked(w.db) && PlainGroups(w.db) && PlainName(n)
    requires RenameTold(codec, key, self, w, w', o, n, certs, pushed)
    requires var names := CascadeOf(w.db, o).affected;
             && i < |names| && Apart(GroupRenamed(w.db, o, n), names, i) && names[i] in pushed
             && KeysInStep(codec, w.db, names[i], w.dirs["ca"].key, FilesAt(w.hosts, Place(w.db, names[i])).keys, ps)
    ensures var q := CascadeOf(w.db, o).affected[i];
            exists qs :: KeysInStep(codec, w'.db, q, w.dirs["ca"].key, FilesAt(w'.hosts, Place(w.db, q)).keys, qs)
  {
    var casc, k, t1 := CascadeOf(w.db, o), w.dirs["ca"].key, GroupRenamed(w.db, o, n);
    var q, a := casc.affected[i], Place(w.db, casc.affected[i]);
    assert Place(t1, q) == a;
    LineInStep(codec, key, w.db, t1, o, n, q, k, FilesAt(w.hosts, a), FilesAt(w'.hosts, a), CertFor(certs, q),
               BlockFor(t1, key, true, q), ps);
    var qs :| KeysInStep(codec, t1, q, k, FilesAt(w'.hosts, a).keys, qs);
    SameAllowed(codec, t1, w'.db, q, k, FilesAt(w'.hosts, a).keys, qs);
  }

  lemma SameAllowed(codec: Codec, t: Tables, t': Tables, q: string, k: PublicKey, keys: string, ps: seq<string>)
    requires t'.allowed == t.allowed && KeysInStep(codec, t, q, k, keys, ps)
    ensures KeysInStep(codec, t', q, k, keys, ps)
  {
  }

  lemma RenamedPlain(t: Tables, o: string, n: string, q: string)
    requires Linked(t) && PlainGroups(t) && PlainName(n) && o in t.groups && (o != n ==> n !in t.groups)
    ensures var t1 := GroupRenamed(t, o, n);
            PlainNames(AllowedList(t1, q)) && AsSet(AllowedList(t1, q)) == GroupsOf(t1.allowed, q)
  {
    var t1 := GroupRenamed(t, o, n);
    OrderedIs(GroupsOf(t1.allowed, q));
    RenameApplies(t, o, n);
    ApplyKeepsLinks(t, RenameGroup(o, n));
    AllowedPlain(t1, q);
  }

  /** One peer's share of a rename keeps its trust line in step. */
  lemma LineInStep(codec: Codec, key: string, t: Tables, t1: Tables, o: string, n: string, q: string, k: PublicKey,
                   f: Files, f': Files,
                   cert: Option<Cert>, block: Option<string>, ps: seq<string>)
    requires Faithful(codec) && Linked(t) && PlainGroups(t) && PlainName(n)
    requires o in t.groups && (o != n ==> n !in t.groups) && t1 == GroupRenamed(t, o, n)
    requires Cascaded(codec, key, f, f', cert, k, AllowedFor(t1, CascadeOf(t, o), q), block)
    requires KeysInStep(codec, t, q, k, f.keys, ps)
    ensures exists qs :: KeysInStep(codec, t1, q, k, f'.keys, qs)
  {
    if q in PeersOf(t.allowed, o) {
      var qs := AllowedList(t1, q);
      RenamedPlain(t, o, n, q);
      RewriteOnlyLine(codec, f.keys, k, ps, qs);
      assert KeysInStep(codec, t1, q, k, f'.keys, qs);
    } else {
      NotInRenamed(t.allowed, o, n, q);
      assert KeysInStep(codec, t1, q, k, f'.keys, ps);
    }
  }

  lemma RenameApplies(t: Tables, o: string, n: string)
    requires o in t.groups && (o != n ==> n !in t.groups) && PlainName(n) && PlainGroups(t)
    ensures Apply(t, RenameGroup(o, n)) == Some(GroupRenamed(t, o, n))
  {
  }
}
