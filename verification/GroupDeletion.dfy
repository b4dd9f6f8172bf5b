/** Deleting a group: every affected peer is served first, the group row goes last. */
module GroupDeletion {
  import opened Wrappers
  import opened Text
  import opened Names
  import opened Principals
  import opened AuthorizedKeys
  import opened TrustLaws
  import opened SshConfig
  import opened Tables
  import opened Database
  import opened Reachability
  import opened Fleet
  import opened Manager
  import opened Fate
  import opened RekeyPeers
  import opened CertLists
  import opened Revoke
  import opened Groups

  function Pairs(peers: set<string>, g: string): set<Membership> {
    set p | p in peers :: Membership(p, g)
  }

  /** The database while the group is being taken off its peers, those in ms and as done. */
  function Thinned(t: Tables, g: string, ms: set<string>, as': set<string>): Tables {
    t.(members := t.members - Pairs(ms, g), allowed := t.allowed - Pairs(as', g))
  }

  lemma AssignedWithout(table: set<Membership>, p: string, g: string)
    ensures Assigned(table, p, Ordered(GroupsOf(table, p) - {g})) == table - {Membership(p, g)}
  {
    var xs := Ordered(GroupsOf(table, p) - {g});
    OrderedIs(GroupsOf(table, p) - {g});
    forall m
      ensures m in Assigned(table, p, xs) <==> m in table - {Membership(p, g)}
    {
      assert m.peer == p ==> (m.group in GroupsOf(table, p) <==> Membership(p, m.group) in table);
    }
  }

  lemma ThinnedGroups(table: set<Membership>, ms: set<string>, g: string, p: string)
    ensures GroupsOf(table - Pairs(ms, g), p) - {g} == GroupsOf(table, p) - {g}
    ensures table - Pairs(ms, g) - {Membership(p, g)} == table - Pairs(ms + {p}, g)
  {
    forall x
      ensures x in GroupsOf(table - Pairs(ms, g), p) - {g} <==> x in GroupsOf(table, p) - {g}
    {
      assert x in GroupsOf(table, p) <==> Membership(p, x) in table;
      assert x in GroupsOf(table - Pairs(ms, g), p) <==> Membership(p, x) in table - Pairs(ms, g);
    }
  }

  /** A peer's list without the group is its list once the group is deleted. */
  lemma ListAfter(t: Tables, g: string, ms: set<string>, as': set<string>, p: string)
    ensures Removed(GroupsList(Thinned(t, g, ms, as'), p), g) == GroupsList(GroupDeleted(t, g), p)
    ensures Removed(AllowedList(Thinned(t, g, ms, as'), p), g) == AllowedList(GroupDeleted(t, g), p)
  {
    ThinnedGroups(t.members, ms, g, p);
    ThinnedGroups(t.allowed, as', g, p);
    RemovedOrdered(GroupsOf(t.members - Pairs(ms, g), p), g);
    RemovedOrdered(GroupsOf(t.allowed - Pairs(as', g), p), g);
    WithoutGroups(t.members, g, p);
    WithoutGroups(t.allowed, g, p);
  }

  /** Writing that list takes the one membership away. */
  lemma WriteAfter(t: Tables, g: string, ms: set<string>, as': set<string>, p: string)
    requires Linked(t)
    ensures var th := Thinned(t, g, ms, as');
            && Assigned(th.members, p, GroupsList(GroupDeleted(t, g), p)) == Thinned(t, g, ms + {p}, as').members
            && Assigned(th.allowed, p, AllowedList(GroupDeleted(t, g), p)) == Thinned(t, g, ms, as' + {p}).allowed
            && AsSet(GroupsList(GroupDeleted(t, g), p)) <= t.groups
            && AsSet(AllowedList(GroupDeleted(t, g), p)) <= t.groups
  {
    var th := Thinned(t, g, ms, as');
    ThinnedGroups(t.members, ms, g, p);
    ThinnedGroups(t.allowed, as', g, p);
    WithoutGroups(t.members, g, p);
    WithoutGroups(t.allowed, g, p);
    AssignedWithout(th.members, p, g);
    AssignedWithout(th.allowed, p, g);
    OrderedIs(GroupsOf(GroupDeleted(t, g).members, p));
    OrderedIs(GroupsOf(GroupDeleted(t, g).allowed, p));
    ListsKnown(t, g, p);
  }

  lemma ListsKnown(t: Tables, g: string, p: string)
    requires Linked(t)
    ensures GroupsOf(GroupDeleted(t, g).members, p) <= t.groups && GroupsOf(GroupDeleted(t, g).allowed, p) <= t.groups
  {
  }

  lemma AnyThinned(t: Tables, g: string, ms: set<string>, as': set<string>, certs: map<string, Cert>)
    ensures GroupDeleted(Recert(Thinned(t, g, ms, as'), certs), g) == Recert(GroupDeleted(t, g), certs)
  {
    assert WithoutGroup(t.members - Pairs(ms, g), g) == WithoutGroup(t.members, g);
    assert WithoutGroup(t.allowed - Pairs(as', g), g) == WithoutGroup(t.allowed, g);
  }

  // ---- One peer ----

  /** Re-signs a member without the group, then takes the membership away. */
  method ThinMember(d: Deps, name: string, g: string, k: PublicKey, ghost t: Tables, ghost certs: map<string, Cert>,
                    ghost ms: set<string>, ghost as': set<string>)
    returns (cert: Option<Cert>, ghost certs': map<string, Cert>, ghost ms': set<string>)
    requires d.Valid() && HasKey(d.dirs, "ca", k) && d.db.rows == Recert(Thinned(t, g, ms, as'), certs)
    requires name in t.peers && Linked(t) && PlainGroups(t)
    modifies d`issued, d`log, d.db
    ensures d.Valid() && d.db.rows.groups == old(d.db.rows).groups
    ensures d.db.rows == Recert(Thinned(t, g, ms', as'), certs')
    ensures certs' == certs || OneMore(GroupDeleted(t, g), d.selfName, k, certs, certs', name)
    ensures cert.Some? ==> IsCascadeCert(GroupDeleted(t, g), d.selfName, k, name, cert.value)
                           && ms' == ms + {name} && certs' == certs[name := cert.value]
    ensures Steady(d.fate) ==> cert.Some?
    ensures Balks(d.fate) ==> cert.None?
  {
    certs', ms' := certs, ms;
    var ok := d.db.Exec();
    if !ok {
      return None, certs, ms;
    }
    var current := GroupsList(d.db.rows, name);
    var newGroups := RemoveStr(current, g);
    ListAfter(t, g, ms, as', name);
    cert := SignAndStorePeerCert(d, k, name, newGroups, GroupDeleted(t, g));
    if cert.None? {
      return None, certs, ms;
    }
    RecertMore(Thinned(t, g, ms, as'), certs, name, cert.value);
    WriteAfter(t, g, ms, as', name);
    DeletedPlain(t, g, name);
    certs' := certs[name := cert.value];
    ok := d.SetPeerGroupsTable(PeerGroups, name, newGroups);
    if !ok {
      return None, certs', ms;
    }
    ThinnedRows(t, g, ms, as', name, certs', d.db.rows);
    ms' := ms + {name};
  }

  /** One more peer has its cascade certificate. */
  ghost predicate OneMore(t: Tables, self: string, k: PublicKey,
                          certs: map<string, Cert>, certs': map<string, Cert>, name: string) {
    name in certs' && certs' == certs[name := certs'[name]] && IsCascadeCert(t, self, k, name, certs'[name])
  }

  lemma DeletedPlain(t: Tables, g: string, p: string)
    requires Linked(t) && PlainGroups(t)
    ensures PlainNames(GroupsList(GroupDeleted(t, g), p)) && PlainNames(AllowedList(GroupDeleted(t, g), p))
    ensures NoDup(GroupsList(GroupDeleted(t, g), p)) && NoDup(AllowedList(GroupDeleted(t, g), p))
  {
    var t1 := GroupDeleted(t, g);
    OrderedIs(GroupsOf(t1.members, p));
    OrderedIs(GroupsOf(t1.allowed, p));
    assert Linked(t1) && PlainGroups(t1);
    AllowedPlain(t1, p);
  }

  lemma ThinnedRows(t: Tables, g: string,
                    ms: set<string>, as': set<string>, p: string, certs: map<string, Cert>, rows: Tables)
    requires Linked(t)
    requires var before, xs := Recert(Thinned(t, g, ms, as'), certs), GroupsList(GroupDeleted(t, g), p);
             rows == before.(members := Assigned(before.members, p, xs), groups := before.groups + AsSet(xs))
    ensures rows == Recert(Thinned(t, g, ms + {p}, as'), certs)
  {
    WriteAfter(t, g, ms, as', p);
    var xs := GroupsList(GroupDeleted(t, g), p);
    assert t.groups + AsSet(xs) == t.groups;
  }

  lemma ThinnedAllowed(t: Tables, g: string,
                       ms: set<string>, as': set<string>, p: string, certs: map<string, Cert>, rows: Tables)
    requires Linked(t)
    requires var before, xs := Recert(Thinned(t, g, ms, as'), certs), AllowedList(GroupDeleted(t, g), p);
             rows == before.(allowed := Assigned(before.allowed, p, xs), groups := before.groups + AsSet(xs))
    ensures rows == Recert(Thinned(t, g, ms, as' + {p}), certs)
  {
    WriteAfter(t, g, ms, as', p);
    var xs := AllowedList(GroupDeleted(t, g), p);
    assert t.groups + AsSet(xs) == t.groups;
  }

  /** Takes the group off an allowing peer's list. */
  method ThinAllowed(d: Deps, name: string, g: string, ghost t: Tables, ghost certs: map<string, Cert>,
                     ghost ms: set<string>, ghost as': set<string>) returns (r: Option<seq<string>>)
    requires d.Valid() && d.db.rows == Recert(Thinned(t, g, ms, as'), certs) && Linked(t) && PlainGroups(t)
    requires name in t.peers
    modifies d`log, d.db
    ensures d.Valid() && d.db.rows.groups == old(d.db.rows).groups
    ensures r.None? ==> d.db.rows == old(d.db.rows)
    ensures r.Some? ==> r.value == AllowedList(GroupDeleted(t, g), name)
                        && d.db.rows == Recert(Thinned(t, g, ms, as' + {name}), certs)
    ensures Steady(d.fate) ==> r.Some?
    ensures Sunk(d.fate, Statement) ==> r.None?
  {
    var ok := d.db.Exec();
    if !ok {
      return None;
    }
    var current := AllowedList(d.db.rows, name);
    var newAllowed := RemoveStr(current, g);
    ListAfter(t, g, ms, as', name);
    DeletedPlain(t, g, name);
    ok := d.SetPeerGroupsTable(PeerAllowedGroups, name, newAllowed);
    if !ok {
      return None;
    }
    ThinnedAllowed(t, g, ms, as', name, certs, d.db.rows);
    return Some(newAllowed);
  }

  /** The body of GroupDelete's loop. */
  method DeleteShare(d: Deps, name: string, g: string, casc: Cascade, k: PublicKey, ghost t: Tables,
                     ghost certs: map<string, Cert>,
                     ghost ms: set<string>, ghost as': set<string>)
    returns (out: Share, ghost certs': map<string, Cert>, ghost ms': set<string>, ghost as'': set<string>)
    requires d.Valid() && HasKey(d.dirs, "ca", k) && d.db.rows == Recert(Thinned(t, g, ms, as'), certs)
    requires name in t.peers && Linked(t) && PlainGroups(t) && name !in certs
    modifies d`hosts, d`dialed, d`writes, d`issued, d`log, d.db
    ensures d.Valid() && TrustSame(d.codec, old(d.hosts), d.hosts) && d.db.rows.groups == old(d.db.rows).groups
    ensures d.db.rows == Recert(Thinned(t, g, ms', as''), certs')
    ensures certs' == certs || OneMore(GroupDeleted(t, g), d.selfName, k, certs, certs', name)
    ensures !out.Broke? ==> certs' == Signed(certs, name, out)
    ensures !out.Broke? ==>
              Shared(d.codec, d.instanceKey, d.selfName, GroupDeleted(t, g), old(d.hosts), d.hosts, k, casc, name, out,
                     false)
    ensures Turn(name, t.peers[name], "", old(d.hosts), d.hosts, old(d.dialed), d.dialed, out.Reached?)
    ensures t.peers[name].revoked ==> d.dialed == old(d.dialed)
    ensures out.Stored? ==> !(t.peers[name].inbound && t.peers[name].reachable)
    ensures ShareFated(d.codec, d.fate, GroupDeleted(t, g), old(d.hosts), d.hosts, k, casc, name, out)
  {
    certs', ms', as'' := certs, ms, as';
    if d.db.rows.peers[name].revoked {
      return Passed, certs, ms, as';
    }
    var ok, cert, allowed;
    ok, cert, allowed, certs', ms', as'' := ThinShare(d, name, g, casc, k, t, certs, ms, as');
    if !ok {
      return Broke(cert), certs', ms', as'';
    }
    out := DeletePush(d, Peer(name, d.db.rows.peers[name]), g, casc, k, cert, allowed, t);
  }

  /** The database part of that share: a member's new certificate, and what an allowing peer still allows. */
  method ThinShare(d: Deps, name: string, g: string, casc: Cascade, k: PublicKey, ghost t: Tables,
                   ghost certs: map<string, Cert>, ghost ms: set<string>, ghost as': set<string>)
    returns (ok: bool, cert: Option<Cert>, allowed: Option<seq<string>>,
             ghost certs': map<string, Cert>, ghost ms': set<string>, ghost as'': set<string>)
    requires d.Valid() && HasKey(d.dirs, "ca", k) && d.db.rows == Recert(Thinned(t, g, ms, as'), certs)
    requires name in t.peers && Linked(t) && PlainGroups(t) && name !in certs
    modifies d`issued, d`log, d.db
    ensures d.Valid() && d.db.rows.groups == old(d.db.rows).groups
    ensures d.db.rows == Recert(Thinned(t, g, ms', as''), certs')
    ensures certs' == certs || OneMore(GroupDeleted(t, g), d.selfName, k, certs, certs', name)
    ensures ok ==> certs' == Signed(certs, name, Stored(cert))
                   && allowed == AllowedFor(GroupDeleted(t, g), casc, name)
                   && ShareCert(GroupDeleted(t, g), d.selfName, k, casc, name, cert)
    ensures Steady(d.fate) ==> ok
    ensures AccountOf(name, d.db.rows.peers[name]) == Place(t, name)
            && Pushable(d.db.rows.peers[name]) == Pushable(t.peers[name])
  {
    certs', ms', as'' := certs, ms, as';
    cert, allowed := None, None;
    RecertPlace(t, name, Thinned(t, g, ms, as'), certs);
    if name in casc.members {
      cert, certs', ms' := ThinMember(d, name, g, k, t, certs, ms, as');
      RecertPlace(t, name, Thinned(t, g, ms', as'), certs');
      if cert.None? {
        return false, None, None, certs', ms', as';
      }
    }
    if name in casc.allowedBy {
      allowed := ThinAllowed(d, name, g, t, certs', ms', as');
      if allowed.None? {
        return false, cert, None, certs', ms', as';
      }
      as'' := as' + {name};
    }
    RecertPlace(t, name, Thinned(t, g, ms', as''), certs');
    ok := true;
  }

  lemma RecertPlace(t: Tables, name: string, th: Tables, certs: map<string, Cert>)
    requires name in t.peers && th.peers == t.peers
    ensures AccountOf(name, Recert(th, certs).peers[name]) == Place(t, name)
    ensures Pushable(Recert(th, certs).peers[name]) == Pushable(t.peers[name])
  {
  }

  /** The push of that share. */
  method DeletePush(d: Deps, p: Peer, g: string, casc: Cascade, k: PublicKey, cert: Option<Cert>,
                    allowed: Option<seq<string>>, ghost t: Tables)
    returns (out: Share)
    requires d.Valid() && HasKey(d.dirs, "ca", k) && Linked(t) && PlainGroups(t) && p.name in t.peers
             && !t.peers[p.name].revoked
    requires Home(p) == Place(t, p.name) && Pushable(p.row) == Pushable(t.peers[p.name])
    requires allowed == AllowedFor(GroupDeleted(t, g), casc, p.name)
    requires ShareCert(GroupDeleted(t, g), d.selfName, k, casc, p.name, cert)
    modifies d`hosts, d`dialed, d`writes, d`log
    ensures d.Valid() && TrustSame(d.codec, old(d.hosts), d.hosts)
    ensures !out.Passed? && !out.Broke? && out.cert == cert
    ensures Shared(d.codec, d.instanceKey, d.selfName, GroupDeleted(t, g), old(d.hosts), d.hosts, k, casc, p.name, out,
                   false)
    ensures Turn(p.name, t.peers[p.name], "", old(d.hosts), d.hosts, old(d.dialed), d.dialed, out.Reached?)
    ensures ShareFated(d.codec, d.fate, GroupDeleted(t, g), old(d.hosts), d.hosts, k, casc, p.name, out)
  {
    ghost var hosts, dialed := d.hosts, d.dialed;
    if !Pushable(p.row) {
      return Stored(cert);
    }
    DeletedPlain(t, g, p.name);
    var ok := PushGroupCascade(d, p, cert, k, allowed, None);
    AccountTurn(p.name, t.peers[p.name], hosts, d.hosts, dialed, d.dialed, ok);
    return if ok then Reached(cert) else Straggler(cert);
  }

  // ---- The whole ----

  /** The loop of GroupDelete. done is false when it gave up in the middle. */
  method DeleteLoop(d: Deps, g: string, casc: Cascade, k: PublicKey)
    returns (done: bool, stragglers: seq<string>, ghost certs: map<string, Cert>, ghost pushed: set<string>,
             ghost ms: set<string>, ghost as': set<string>)
    requires d.Valid() && HasKey(d.dirs, "ca", k) && NoDup(casc.affected) && Linked(d.db.rows) && PlainGroups(d.db.rows)
    requires forall p :: p in casc.affected ==> p in d.db.rows.peers
    modifies d`hosts, d`dialed, d`writes, d`issued, d`log, d.db
    ensures d.Valid() && TrustSame(d.codec, old(d.hosts), d.hosts) && d.db.rows.groups == old(d.db.rows).groups
    ensures d.db.rows == Recert(Thinned(old(d.db.rows), g, ms, as'), certs)
    ensures AllSigned(GroupDeleted(old(d.db.rows), g), d.selfName, k, certs)
    ensures Rounds(d.codec, d.fate, GroupDeleted(old(d.db.rows), g), old(d.hosts), d.hosts, old(d.dialed), d.dialed, k,
                   casc, pushed, stragglers)
    ensures Steady(d.fate) ==> done
    ensures done ==>
              Cascading(d.codec, d.instanceKey, d.selfName, GroupDeleted(old(d.db.rows), g), old(d.hosts), d.hosts, k,
                        casc,
                               |casc.affected|, certs, pushed, stragglers, false)
  {
    ghost var t, t1 := d.db.rows, GroupDeleted(d.db.rows, g);
    stragglers, certs, pushed, ms, as' := [], map[], {}, {}, {};
    CascadingNone(d.codec, d.instanceKey, d.selfName, t1, d.hosts, k, casc, false);
    ThinnedNone(t, g);
    VisitsNone(PeersAt(t1, casc.affected), d.hosts, d.dialed);
    for i := 0 to |casc.affected|
      invariant d.Valid() && d.db.rows == Recert(Thinned(t, g, ms, as'), certs)
      invariant TrustSame(d.codec, old(d.hosts), d.hosts)
      invariant Rounds(d.codec, d.fate, t1, old(d.hosts), d.hosts, old(d.dialed), d.dialed, k, casc, pushed, stragglers)
      invariant Cascading(d.codec, d.instanceKey, d.selfName, t1, old(d.hosts), d.hosts, k, casc, i, certs, pushed,
                          stragglers, false)
    {
      var name := casc.affected[i];
      ghost var mid, dialed := d.hosts, d.dialed;
      NoDupAt(casc.affected, i);
      assert name in casc.affected;
      var ok := d.db.Exec();
      if !ok {
        return false, stragglers, certs, pushed, ms, as';
      }
      var out;
      ghost var certs';
      out, certs', ms, as' := DeleteShare(d, name, g, casc, k, t, certs, ms, as');
      RoundsStep(d.codec, d.fate, t1, old(d.hosts), mid, d.hosts, old(d.dialed), dialed, d.dialed, k, casc, i,
                 d.instanceKey, certs, pushed, stragglers, false, out);
      if out.Broke? {
        return false, stragglers, certs', pushed, ms, as';
      }
      CascadingStep(d.codec, d.instanceKey, d.selfName, t1, old(d.hosts), mid, d.hosts, k, casc, i, certs, pushed,
                    stragglers, false, out);
      certs := Signed(certs, name, out);
      pushed := if out.Reached? then pushed + {name} else pushed;
      stragglers := if out.Straggler? then stragglers + [name] else stragglers;
    }
    return true, stragglers, certs, pushed, ms, as';
  }

  lemma ThinnedNone(t: Tables, g: string)
    ensures Recert(Thinned(t, g, {}, {}), map[]) == t
  {
    assert Recert(t, map[]).peers == t.peers;
    assert t.members - Pairs({}, g) == t.members && t.allowed - Pairs({}, g) == t.allowed;
  }

  /** What a finished delete leaves: t is the database before it. */
  ghost predicate DeleteTold(codec: Codec, key: string, self: string, w: World, w': World, g: string,
                             certs: map<string, Cert>, pushed: set<string>) {
    var t1, casc := GroupDeleted(w.db, g), CascadeOf(w.db, g);
    && Completes(self, w.db, Drop(g, certs), w'.db) && TrustSame(codec, w.hosts, w'.hosts)
    && AllPushed(t1, casc.affected, pushed)
    && (casc.affected != [] ==>
          && "ca" in w.dirs && w.dirs["ca"].Keyed?
          && PushTold(codec, key, t1, w.hosts, w'.hosts, w.dirs["ca"].key, casc, |casc.affected|, certs, pushed, false))
  }

  /**
   When nothing fails, the call to delete a group goes through unless somebody cannot be served. When nobody can be
   dialed, no file changes; when no statement works, nothing does.
   */
  ghost predicate DeleteGoes(codec: Codec, fate: Fates, w: World, w': World, g: string, ok: bool, pushed: set<string>) {
    && (Sunk(fate, Dialing) ==> w'.hosts == w.hosts)
    && (Sunk(fate, Statement) ==> w' == w && !ok)
    && (Steady(fate) && Sure(fate, Unlocking) && CanSign(w.dirs) && g in w.db.groups ==>
          Served(codec, fate, GroupDeleted(w.db, g), w.hosts, w.dirs["ca"].key, CascadeOf(w.db, g), pushed, ok))
  }

  /**
   ops.GroupDelete. done: the group row is gone, which it otherwise is not. That happens only once every affected live
   peer that can be dialed was pushed to in this call.
   */
  method GroupDelete(d: Deps, g: string, hostname: string)
    returns (ok: bool, ghost done: bool,
             ghost certs: map<string, Cert>, ghost pushed: set<string>, ghost ms: set<string>, ghost as': set<string>)
    requires d.Valid() && (hostname == "" || hostname == d.selfName)
    modifies d`hosts, d`dialed, d`writes, d`issued, d`log, d.db
    ensures d.Valid()
    ensures g == MANAGER ==> !ok && d.Now() == old(d.Now())
    ensures done ==> DeleteTold(d.codec, d.instanceKey, d.selfName, old(d.Now()), d.Now(), g, certs, pushed)
    ensures ok ==> done && d.db.rows.rev == old(d.db.rows).rev + 1
    ensures !done ==> HalfDeleted(d.selfName, old(d.Now()), d.Now(), g, certs, ms, as')
    ensures Visits(PeersAt(old(d.db.rows), CascadeOf(old(d.db.rows), g).affected), old(d.hosts), d.hosts, old(d.dialed),
                   d.dialed, pushed)
    ensures g != MANAGER ==> DeleteGoes(d.codec, d.fate, old(d.Now()), d.Now(), g, ok, pushed)
  {
    done, certs, pushed, ms, as' := false, map[], {}, {}, {};
    ThinnedNone(d.db.rows, g);
    VisitsNone(PeersAt(d.db.rows, CascadeOf(d.db.rows, g).affected), d.hosts, d.dialed);
    if g == MANAGER {
      return false, false, certs, pushed, ms, as';
    }
    ok := d.db.Exec();
    if !ok || g !in d.db.rows.groups {
      return false, false, certs, pushed, ms, as';
    }
    var loaded := LoadGroupCascade(d, g);
    if loaded.None? {
      return false, false, certs, pushed, ms, as';
    }
    var casc := loaded.value;
    d.Sane();
    AffectedIs(d.db.rows, g);
    if casc.affected == [] {
      ok := d.DeleteGroup(g);
      if !ok {
        return false, false, certs, pushed, ms, as';
      }
      DeleteNobody(d.selfName, old(d.db.rows), g);
      ok := d.BumpFleetRev();
      return ok, true, certs, pushed, ms, as';
    }
    ok, done, certs, pushed, ms, as' := DeleteRest(d, g, casc);
  }

  /**
   A delete that did not finish: the group is there, some peers lost it, and beyond that only certificates changed,
   each listing its peer's groups without it.
   */
  ghost predicate HalfDeleted(self: string, w: World, w': World, g: string,
                              certs: map<string, Cert>, ms: set<string>, as': set<string>) {
    && w'.db == Recert(Thinned(w.db, g, ms, as'), certs)
    && (certs != map[] ==>
        "ca" in w.dirs && w.dirs["ca"].Keyed? && AllSigned(GroupDeleted(w.db, g), self, w.dirs["ca"].key, certs))
  }

  lemma DeleteNobody(self: string, t: Tables, g: string)
    requires CascadeOf(t, g).affected == [] && Linked(t)
    ensures Recert(GroupDeleted(t, g), map[]) == GroupDeleted(t, g)
    ensures Recerts(self, GroupDeleted(t, g), map[], PeersOf(t.members, g))
  {
    AffectedIs(t, g);
    assert Recert(GroupDeleted(t, g), map[]).peers == t.peers;
    assert forall p :: p !in PeersOf(t.members, g);
  }

  /** GroupDelete when somebody is affected. */
  method DeleteRest(d: Deps, g: string, casc: Cascade)
    returns (ok: bool, ghost done: bool,
             ghost certs: map<string, Cert>, ghost pushed: set<string>, ghost ms: set<string>, ghost as': set<string>)
    requires d.Valid() && casc == CascadeOf(d.db.rows, g) && casc.affected != [] && !Sunk(d.fate, Statement)
    modifies d`hosts, d`dialed, d`writes, d`issued, d`log, d.db
    ensures d.Valid()
    ensures done ==> DeleteTold(d.codec, d.instanceKey, d.selfName, old(d.Now()), d.Now(), g, certs, pushed)
    ensures ok ==> done && d.db.rows.rev == old(d.db.rows).rev + 1
    ensures !done ==> HalfDeleted(d.selfName, old(d.Now()), d.Now(), g, certs, ms, as')
    ensures Visits(PeersAt(old(d.db.rows), casc.affected), old(d.hosts), d.hosts, old(d.dialed), d.dialed, pushed)
    ensures DeleteGoes(d.codec, d.fate, old(d.Now()), d.Now(), g, ok, pushed)
  {
    done, certs, pushed, ms, as' := false, map[], {}, {}, {};
    ThinnedNone(d.db.rows, g);
    VisitsNone(PeersAt(d.db.rows, casc.affected), d.hosts, d.dialed);
    var unlocked := Try(d.fate, Unlocking);
    if !unlocked || "ca" !in d.dirs || d.dirs["ca"].Partial? || !d.dirs["ca"].readable {
      return false, false, certs, pushed, ms, as';
    }
    ok, done, certs, pushed, ms, as' := DeleteUnlocked(d, g, casc, d.dirs["ca"].key);
  }

  /** Once the active key is read. */
  method DeleteUnlocked(d: Deps, g: string, casc: Cascade, k: PublicKey)
    returns (ok: bool, ghost done: bool,
             ghost certs: map<string, Cert>, ghost pushed: set<string>, ghost ms: set<string>, ghost as': set<string>)
    requires d.Valid() && casc == CascadeOf(d.db.rows, g) && casc.affected != [] && !Sunk(d.fate, Statement)
    requires HasKey(d.dirs, "ca", k)
    modifies d`hosts, d`dialed, d`writes, d`issued, d`log, d.db
    ensures d.Valid()
    ensures done ==> DeleteTold(d.codec, d.instanceKey, d.selfName, old(d.Now()), d.Now(), g, certs, pushed)
    ensures ok ==> done && d.db.rows.rev == old(d.db.rows).rev + 1
    ensures !done ==> HalfDeleted(d.selfName, old(d.Now()), d.Now(), g, certs, ms, as')
    ensures Visits(PeersAt(old(d.db.rows), casc.affected), old(d.hosts), d.hosts, old(d.dialed), d.dialed, pushed)
    ensures DeleteGoes(d.codec, d.fate, old(d.Now()), d.Now(), g, ok, pushed)
  {
    done := false;
    d.Sane();
    AffectedIs(d.db.rows, g);
    ghost var w := d.Now();
    var finished, stragglers;
    finished, stragglers, certs, pushed, ms, as' := DeleteLoop(d, g, casc, k);
    if finished {
      assert casc.affected[..|casc.affected|] == casc.affected;
      IsServed(d.codec, d.fate, GroupDeleted(w.db, g), w.hosts, k, casc, pushed, stragglers);
    }
    assert PeersAt(GroupDeleted(w.db, g), casc.affected) == PeersAt(w.db, casc.affected);
    if !finished || stragglers != [] {
      return false, false, certs, pushed, ms, as';
    }
    ok, done := DropRow(d, g, casc, k, w, certs, pushed, ms, as');
  }

  /** Its end, with everybody served: the group row, then the revision. */
  method DropRow(d: Deps, g: string, casc: Cascade, ghost k: PublicKey, ghost w: World, ghost certs: map<string, Cert>,
                 ghost pushed: set<string>, ghost ms: set<string>, ghost as': set<string>)
    returns (ok: bool, ghost done: bool)
    requires d.Valid() && Linked(w.db) && casc == CascadeOf(w.db, g) && HasKey(w.dirs, "ca", k)
    requires d.db.rows == Recert(Thinned(w.db, g, ms, as'), certs) && TrustSame(d.codec, w.hosts, d.hosts)
    requires Cascading(d.codec, d.instanceKey, d.selfName, GroupDeleted(w.db, g), w.hosts, d.hosts, k, casc,
                       |casc.affected|, certs, pushed, [], false)
    modifies d`log, d.db
    ensures d.Valid() && (!done ==> d.db.rows == old(d.db.rows))
    ensures done ==> DeleteTold(d.codec, d.instanceKey, d.selfName, w, d.Now(), g, certs, pushed)
    ensures ok ==> done && d.db.rows.rev == w.db.rev + 1
    ensures Sure(d.fate, Statement) && g in w.db.groups ==> ok
  {
    ok := d.DeleteGroup(g);
    if !ok {
      return false, false;
    }
    AnyThinned(w.db, g, ms, as', certs);
    ok := d.BumpFleetRev();
    DeleteIsTold(d.codec, d.instanceKey, d.selfName, w, d.Now(), g, k, casc, certs, pushed);
    return ok, true;
  }

  lemma DeleteIsTold(codec: Codec, key: string, self: string, w: World, w': World, g: string, k: PublicKey,
                     casc: Cascade, certs: map<string, Cert>, pushed: set<string>)
    requires Linked(w.db) && casc == CascadeOf(w.db, g) && HasKey(w.dirs, "ca", k)
             && TrustSame(codec, w.hosts, w'.hosts)
    requires w'.db == Recert(GroupDeleted(w.db, g), certs).(rev := w'.db.rev)
    requires Cascading(codec, key, self, GroupDeleted(w.db, g), w.hosts, w'.hosts, k, casc, |casc.affected|, certs,
                       pushed, [], false)
    ensures DeleteTold(codec, key, self, w, w', g, certs, pushed)
  {
    assert casc.affected[..|casc.affected|] == casc.affected;
    DropCompletes(self, w.db, w'.db, g, k, casc, certs);
  }

  lemma DropCompletes(self: string, t: Tables, t': Tables, g: string, k: PublicKey, casc: Cascade,
                      certs: map<string, Cert>)
    requires Linked(t) && casc == CascadeOf(t, g) && t' == Recert(GroupDeleted(t, g), certs).(rev := t'.rev)
    requires certs.Keys == LiveMembers(GroupDeleted(t, g), casc, casc.affected)
             && AllSigned(GroupDeleted(t, g), self, k, certs)
    ensures Completes(self, t, Drop(g, certs), t')
  {
    AffectedIs(t, g);
    CascadeRecerts(self, GroupDeleted(t, g), k, casc, certs);
  }
}
