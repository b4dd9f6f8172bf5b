/**
 Who may reach whom: the ReachableHosts query, its hand-written mirror for a peer not yet stored, and
 what the remote sshd decides.
 */
module Reachability {
  import opened Wrappers
  import opened Text
  import opened Names
  import opened Principals
  import opened AuthorizedKeys
  import opened TrustLaws
  import opened Acceptance
  import opened SshConfig
  import opened Tables
  import opened Fate
  import opened Database
  import F = Filters

  // ---- The query ----

  predicate Dialable(t: Tables, q: string) {
    q in t.peers && !t.peers[q].revoked && t.peers[q].inbound
  }

  predicate SharesGroup(t: Tables, p: string, q: string) {
    exists m :: m in t.allowed && m.peer == q && Membership(p, m.group) in t.members
  }

  predicate Reaches(t: Tables, p: string, q: string) {
    Dialable(t, q) && q != p && (Membership(p, MANAGER) in t.members || SharesGroup(t, p, q))
  }

  function ReachableNames(t: Tables, p: string): set<string> {
    set q | q in t.peers && Reaches(t, p, q)
  }

  function Entry(t: Tables, q: string): HostEntry {
    if q in t.peers then HostEntry(q, t.peers[q].address, t.peers[q].user) else HostEntry(q, "", "")
  }

  /** The entries of the names that are dialable, in the order of the list. */
  function Entries(t: Tables, names: seq<string>): seq<HostEntry> {
    if names == [] then []
    else Entries(t, names[..|names| - 1]) +
         (if Dialable(t, names[|names| - 1]) then [Entry(t, names[|names| - 1])] else [])
  }

  /** DB.ReachableHosts. */
  function ReachableHosts(t: Tables, p: string): seq<HostEntry> {
    Entries(t, Ordered(ReachableNames(t, p)))
  }

  lemma {:induction false} EntriesAll(t: Tables, names: seq<string>)
    requires forall q :: q in names ==> Dialable(t, q)
    ensures |Entries(t, names)| == |names|
    ensures forall i :: 0 <= i < |names| ==> Entries(t, names)[i] == Entry(t, names[i])
  {
    if names != [] {
      EntriesAll(t, names[..|names| - 1]);
    }
  }

  /** q is another peer that is live, can be logged into, and lets p in. */
  ghost predicate LetsIn(t: Tables, p: string, q: string) {
    && q in t.peers && q != p && !t.peers[q].revoked && t.peers[q].inbound
    && ("manager" in GroupsOf(t.members, p) || GroupsOf(t.members, p) * GroupsOf(t.allowed, q) != {})
  }

  lemma ReachesSays(t: Tables, p: string, q: string)
    ensures Reaches(t, p, q) <==> LetsIn(t, p, q)
  {
    assert forall g :: g in GroupsOf(t.members, p) <==> Membership(p, g) in t.members;
    assert forall g :: g in GroupsOf(t.allowed, q) <==> Membership(q, g) in t.allowed;
    if GroupsOf(t.members, p) * GroupsOf(t.allowed, q) != {} {
      var g :| g in GroupsOf(t.members, p) * GroupsOf(t.allowed, q);
      assert Membership(q, g) in t.allowed;
    }
    if SharesGroup(t, p, q) {
      var m :| m in t.allowed && m.peer == q && Membership(p, m.group) in t.members;
      assert m.group in GroupsOf(t.members, p) * GroupsOf(t.allowed, q);
    }
  }

  /** The names of the entries, in their order. */
  ghost function NamesIn(hosts: seq<HostEntry>): seq<string> {
    seq(|hosts|, i requires 0 <= i < |hosts| => hosts[i].name)
  }

  /** The query lists each peer that lets p in once, in name order, with the address and user of its row. */
  lemma ReachableHostsLists(t: Tables, p: string)
    ensures Ascending(NamesIn(ReachableHosts(t, p)))
    ensures forall q :: q in NamesIn(ReachableHosts(t, p)) <==> LetsIn(t, p, q)
    ensures forall h :: h in ReachableHosts(t, p) ==>
              h.name in t.peers && h.address == t.peers[h.name].address && h.user == t.peers[h.name].user
  {
    var names := Ordered(ReachableNames(t, p));
    OrderedIs(ReachableNames(t, p));
    forall q
      ensures q in names <==> LetsIn(t, p, q)
    {
      ReachesSays(t, p, q);
      assert q in ReachableNames(t, p) <==> Reaches(t, p, q);
    }
    var hosts := ReachableHosts(t, p);
    EntriesAll(t, names);
    assert NamesIn(hosts) == names;
    forall i: nat | i < |hosts|
      ensures hosts[i].name in t.peers && hosts[i] == HostEntry(hosts[i].name, t.peers[hosts[i].name].address,
                                                                t.peers[hosts[i].name].user)
    {
      assert names[i] in names;
    }
  }

  // ---- The mirror ----

  lemma EntriesSnoc(t: Tables, names: seq<string>, last: string)
    ensures Entries(t, names + [last]) == Entries(t, names) + (if Dialable(t, last) then [Entry(t, last)] else [])
  {
    assert (names + [last])[..|names|] == names;
  }

  /** Keeping what is dialable of an ordered set orders what is kept. */
  lemma {:induction false} EntriesFilter(t: Tables, names: seq<string>, kept: set<string>)
    requires Ascending(names)
    requires forall q :: q in kept <==> q in names && Dialable(t, q)
    ensures Entries(t, names) == Entries(t, Ordered(kept))
    decreases |names|
  {
    if names == [] {
      assert kept == {};
    } else {
      var n := |names| - 1;
      var init, last := names[..n], names[n];
      assert names == init + [last];
      assert forall q :: q in names <==> q in init || q == last;
      EntriesFilter(t, init, kept - {last});
      EntriesSnoc(t, init, last);
      if Dialable(t, last) {
        OrderedLast(init, last, kept);
        EntriesSnoc(t, Ordered(kept - {last}), last);
      } else {
        assert kept - {last} == kept;
        assert Entries(t, init) + [] == Entries(t, init);
      }
    }
  }

  lemma OrderedLast(init: seq<string>, last: string, kept: set<string>)
    requires Ascending(init + [last]) && last in kept
    requires forall q :: q in kept ==> q in init + [last]
    ensures Ordered(kept) == Ordered(kept - {last}) + [last]
  {
    var rest := kept - {last};
    OrderedIs(rest);
    var xs := Ordered(rest) + [last];
    forall i, j | 0 <= i < j < |xs|
      ensures Le(xs[i], xs[j]) && xs[i] != xs[j]
    {
      assert xs[i] in rest;
      if j == |xs| - 1 {
        var a :| 0 <= a < |init| && init[a] == xs[i];
        assert (init + [last])[a] == xs[i] && (init + [last])[|init|] == last;
      }
    }
    OrderedUnique(xs, kept);
  }

  /** Whom the mirror's loops collect for the groups. */
  ghost function Collected(t: Tables, p: string, groups: seq<string>): set<string> {
    ByGroups(t, p, groups)
    + (if MANAGER in groups then set q | q in t.peers && Dialable(t, q) && q != p else {})
  }

  ghost function WithGroups(t: Tables, p: string, groups: seq<string>): Tables {
    t.(members := Assigned(t.members, p, groups))
  }

  lemma CollectedReach(t: Tables, p: string, groups: seq<string>, q: string)
    ensures q in Collected(t, p, groups) && Dialable(t, q) <==> Reaches(WithGroups(t, p, groups), p, q)
  {
    var t' := WithGroups(t, p, groups);
    assert forall g :: Membership(p, g) in t'.members <==> g in groups;
    if q in Collected(t, p, groups) && Dialable(t, q) {
      if q in ByGroups(t, p, groups) {
        var g :| g in groups && q in PeersOf(t.allowed, g);
        assert Membership(q, g) in t'.allowed && Membership(p, g) in t'.members;
      }
    }
    if Reaches(t', p, q) && SharesGroup(t', p, q) {
      var m :| m in t'.allowed && m.peer == q && Membership(p, m.group) in t'.members;
      assert q in PeersOf(t.allowed, m.group);
    }
  }

  lemma MirrorAgrees(t: Tables, p: string, groups: seq<string>)
    ensures Entries(t, Ordered(Collected(t, p, groups))) == ReachableHosts(WithGroups(t, p, groups), p)
  {
    var all, t' := Collected(t, p, groups), WithGroups(t, p, groups);
    OrderedIs(all);
    forall q
      ensures q in ReachableNames(t', p) <==> q in Ordered(all) && Dialable(t, q)
    {
      CollectedReach(t, p, groups, q);
    }
    EntriesFilter(t, Ordered(all), ReachableNames(t', p));
    SameEntries(t, t', Ordered(ReachableNames(t', p)));
  }

  lemma {:induction false} SameEntries(t: Tables, t': Tables, names: seq<string>)
    requires t.peers == t'.peers
    ensures Entries(t, names) == Entries(t', names)
  {
    if names != [] {
      SameEntries(t, t', names[..|names| - 1]);
    }
  }

  /** Appends n unless it is the peer itself or already listed. */
  method Add(n: string, peerName: string, seen: set<string>, names: seq<string>)
    returns (seen': set<string>, names': seq<string>)
    requires seen == AsSet(names) && NoDup(names)
    ensures seen' == AsSet(names') && NoDup(names')
    ensures seen' == if n == peerName then seen else seen + {n}
  {
    if n == peerName || n in seen {
      return seen, names;
    }
    assert forall i :: 0 <= i < |names| ==> names[i] in AsSet(names);
    return seen + {n}, names + [n];
  }

  lemma CollectedStep(t: Tables, p: string, groups: seq<string>, i: nat, list: seq<string>)
    requires i < |groups| && forall q :: q in list <==> q in PeersOf(t.allowed, groups[i])
    ensures ByGroups(t, p, groups[..i + 1]) == ByGroups(t, p, groups[..i]) + (AsSet(list) - {p})
  {
    assert groups[..i + 1] == groups[..i] + [groups[i]];
    forall q
      ensures q in ByGroups(t, p, groups[..i + 1]) <==> q in ByGroups(t, p, groups[..i]) || (q in list && q != p)
    {
      assert groups[i] in groups[..i + 1];
    }
  }

  lemma AsSetStep(xs: seq<string>, i: nat)
    requires i < |xs|
    ensures AsSet(xs[..i + 1]) == AsSet(xs[..i]) + {xs[i]}
  {
    assert xs[..i + 1] == xs[..i] + [xs[i]];
  }

  ghost function ByGroups(t: Tables, p: string, groups: seq<string>): set<string> {
    set q, g | g in groups && q in PeersOf(t.allowed, g) && q != p :: q
  }

  lemma DialableStep(t: Tables, p: string, peers: seq<string>, j: nat)
    requires j < |peers|
    ensures DialableOf(t, p, peers[..j + 1]) ==
            DialableOf(t, p, peers[..j]) + (if Dialable(t, peers[j]) && peers[j] != p then {peers[j]} else {})
  {
    assert peers[..j + 1] == peers[..j] + [peers[j]];
  }

  ghost function DialableOf(t: Tables, p: string, peers: seq<string>): set<string> {
    set q | q in peers && Dialable(t, q) && q != p
  }

  /** The loop inside it, over the peers that allow one group. */
  method AddAll(list: seq<string>, peerName: string, seen: set<string>, names: seq<string>)
    returns (seen': set<string>, names': seq<string>)
    requires seen == AsSet(names) && NoDup(names)
    ensures seen' == AsSet(names') && NoDup(names') && seen' == seen + (AsSet(list) - {peerName})
  {
    seen', names' := seen, names;
    for j := 0 to |list|
      invariant seen' == AsSet(names') && NoDup(names')
      invariant seen' == seen + (AsSet(list[..j]) - {peerName})
    {
      AsSetStep(list, j);
      seen', names' := Add(list[j], peerName, seen', names');
    }
    assert list[..|list|] == list;
  }

  /** The first loop: whoever allows one of the groups. */
  method CollectAllowing(d: DB, peerName: string, groups: seq<string>)
    returns (r: Result<(set<string>, seq<string>), DbError>)
    ensures r.Ok? ==> r.value.0 == AsSet(r.value.1) && NoDup(r.value.1)
    ensures r.Ok? ==> r.value.0 == ByGroups(d.rows, peerName, groups)
    ensures r.Err? ==> r.error == Storage && !Sure(d.fate, Statement)
  {
    var seen: set<string>, names: seq<string> := {}, [];
    for i := 0 to |groups|
      invariant seen == AsSet(names) && NoDup(names)
      invariant seen == ByGroups(d.rows, peerName, groups[..i])
    {
      var ok := d.Exec();
      if !ok {
        return Err(Storage);
      }
      var allowedBy := Ordered(PeersOf(d.rows.allowed, groups[i]));
      OrderedIs(PeersOf(d.rows.allowed, groups[i]));
      CollectedStep(d.rows, peerName, groups, i, allowedBy);
      seen, names := AddAll(allowedBy, peerName, seen, names);
    }
    assert groups[..|groups|] == groups;
    return Ok((seen, names));
  }

  /** The second loop: for the manager group, every dialable peer. */
  method CollectAll(d: DB, peerName: string, seen: set<string>, names: seq<string>)
    returns (r: Result<(set<string>, seq<string>), DbError>)
    requires seen == AsSet(names) && NoDup(names)
    ensures r.Ok? ==> r.value.0 == AsSet(r.value.1) && NoDup(r.value.1)
    ensures r.Ok? ==> r.value.0 == seen + set q | q in d.rows.peers && Dialable(d.rows, q) && q != peerName
    ensures r.Err? ==> r.error == Storage && !Sure(d.fate, Statement)
  {
    var ok := d.Exec();
    if !ok {
      return Err(Storage);
    }
    var peers := Ordered(d.rows.peers.Keys);
    OrderedIs(d.rows.peers.Keys);
    var seen', names' := AddDialable(d.rows, peers, peerName, seen, names);
    return Ok((seen', names'));
  }

  /** Its loop. */
  method AddDialable(t: Tables, peers: seq<string>, peerName: string, seen: set<string>, names: seq<string>)
    returns (seen': set<string>, names': seq<string>)
    requires seen == AsSet(names) && NoDup(names) && forall p :: p in peers ==> p in t.peers
    ensures seen' == AsSet(names') && NoDup(names') && seen' == seen + DialableOf(t, peerName, peers)
  {
    seen', names' := seen, names;
    for j := 0 to |peers|
      invariant seen' == AsSet(names') && NoDup(names')
      invariant seen' == seen + DialableOf(t, peerName, peers[..j])
    {
      DialableStep(t, peerName, peers, j);
      assert peers[j] in t.peers;
      var p := t.peers[peers[j]];
      if p.inbound && !p.revoked {
        seen', names' := Add(peers[j], peerName, seen', names');
      }
    }
    assert peers[..|peers|] == peers;
  }

  /** The last loop: the entries of the sorted names that are still dialable. */
  method LookUp(d: DB, names: seq<string>) returns (r: Result<seq<HostEntry>, DbError>)
    requires forall n :: n in names ==> n in d.rows.peers
    ensures r.Ok? ==> r.value == Entries(d.rows, names)
    ensures r.Err? ==> r.error == Storage && !Sure(d.fate, Statement)
  {
    var hosts := [];
    for i := 0 to |names|
      invariant hosts == Entries(d.rows, names[..i])
    {
      assert names[..i + 1][..i] == names[..i];
      var n := names[i];
      var ok := d.Exec();
      if !ok {
        return Err(Storage);
      }
      assert n in names;
      var p := d.rows.peers[n];
      if p.revoked || !p.inbound {
        continue;
      }
      hosts := hosts + [HostEntry(n, p.address, p.user)];
    }
    assert names[..|names|] == names;
    return Ok(hosts);
  }

  lemma CollectedExist(t: Tables, p: string, groups: seq<string>)
    requires Linked(t)
    ensures forall n :: n in Collected(t, p, groups) ==> n in t.peers
  {
    forall n | n in Collected(t, p, groups)
      ensures n in t.peers
    {
      if n in ByGroups(t, p, groups) {
        var g :| g in groups && n in PeersOf(t.allowed, g);
        assert Membership(n, g) in t.allowed;
      }
    }
  }

  /** ops.reachableHostEntries: the same list, in the same order, as the query once the groups are set. */
  method ReachableHostEntries(d: DB, peerName: string, groups: seq<string>) returns (r: Result<seq<HostEntry>, DbError>)
    requires Linked(d.rows)
    ensures r.Ok? ==> r.value == ReachableHosts(WithGroups(d.rows, peerName, groups), peerName)
    ensures r.Err? ==> r.error == Storage && !Sure(d.fate, Statement)
  {
    var found := CollectAllowing(d, peerName, groups);
    if found.Err? {
      return Err(Storage);
    }
    if MANAGER in groups {
      found := CollectAll(d, peerName, found.value.0, found.value.1);
      if found.Err? {
        return Err(Storage);
      }
    }
    var names := Ordered(found.value.0);
    OrderedIs(found.value.0);
    CollectedIs(d.rows, peerName, groups, found.value.0);
    CollectedExist(d.rows, peerName, groups);
    MirrorAgrees(d.rows, peerName, groups);
    r := LookUp(d, names);
  }

  lemma CollectedIs(t: Tables, p: string, groups: seq<string>, s: set<string>)
    requires s == ByGroups(t, p, groups) + (if MANAGER in groups then set q | q in t.peers && Dialable(t, q) && q != p
                                            else {})
    ensures s == Collected(t, p, groups)
  {
  }

  // ---- Renaming keeps who reaches whom ----

  lemma RetargetedBack(table: set<Membership>, o: string, n: string)
    requires forall m :: m in table ==> m.group != n
    ensures Retargeted(Retargeted(table, o, n), n, o) == table
  {
    var there := Retargeted(table, o, n);
    forall m
      ensures m in Retargeted(there, n, o) <==> m in table
    {
      if m in table {
        var m1 := Membership(m.peer, Swap(m.group, o, n));
        assert m1 in there;
        assert Membership(m1.peer, Swap(m1.group, n, o)) == m;
      }
    }
  }

  /** Renaming back restores the database. */
  lemma RenameUndone(t: Tables, o: string, n: string)
    requires Linked(t) && Apply(t, RenameGroup(o, n)).Some?
    requires TrimSpace(o) == o && TrimSpace(n) == n && o != n && o != ""
    ensures Apply(Apply(t, RenameGroup(o, n)).value, RenameGroup(n, o)) == Some(t)
  {
    RetargetedBack(t.members, o, n);
    RetargetedBack(t.allowed, o, n);
    assert t.groups - {o} + {n} - {n} + {o} == t.groups;
  }

  lemma RenamedShare(t: Tables, o: string, n: string, p: string, q: string)
    requires Linked(t) && o in t.groups && (o != n ==> n !in t.groups)
    ensures SharesGroup(GroupRenamed(t, o, n), p, q) <==> SharesGroup(t, p, q)
  {
    var t' := GroupRenamed(t, o, n);
    if SharesGroup(t, p, q) {
      var m :| m in t.allowed && m.peer == q && Membership(p, m.group) in t.members;
      assert Membership(q, Swap(m.group, o, n)) in t'.allowed && Membership(p, Swap(m.group, o, n)) in t'.members;
    }
    if SharesGroup(t', p, q) {
      var m :| m in t'.allowed && m.peer == q && Membership(p, m.group) in t'.members;
      var a :| a in t.allowed && Membership(a.peer, Swap(a.group, o, n)) == m;
      var b :| b in t.members && Membership(b.peer, Swap(b.group, o, n)) == Membership(p, m.group);
      assert a.group == b.group;
      assert a.peer == q && Membership(p, a.group) == b;
    }
  }

  /** A rename carries every membership across and changes no peer's reachable hosts. */
  lemma RenameKeepsReach(t: Tables, o: string, n: string, p: string)
    requires Linked(t) && Apply(t, RenameGroup(o, n)).Some?
    requires TrimSpace(o) == o && TrimSpace(n) == n && o != MANAGER && n != MANAGER
    ensures var t' := Apply(t, RenameGroup(o, n)).value;
            && GroupsOf(t'.members, p) == (set g | g in GroupsOf(t.members, p) :: Swap(g, o, n))
            && GroupsOf(t'.allowed, p) == (set g | g in GroupsOf(t.allowed, p) :: Swap(g, o, n))
            && Linked(t')
            && ReachableHosts(t', p) == ReachableHosts(t, p)
  {
    RenameIs(t, o, n);
    RetargetedGroups(t.members, o, n, p);
    RetargetedGroups(t.allowed, o, n, p);
    ApplyKeepsLinks(t, RenameGroup(o, n));
    RenamedReach(t, o, n, p);
  }

  lemma RenameIs(t: Tables, o: string, n: string)
    requires Apply(t, RenameGroup(o, n)).Some? && TrimSpace(o) == o && TrimSpace(n) == n
    ensures Apply(t, RenameGroup(o, n)) == Some(GroupRenamed(t, o, n)) && o in t.groups && (o != n ==> n !in t.groups)
  {
  }

  lemma RenamedReach(t: Tables, o: string, n: string, p: string)
    requires Linked(t) && o in t.groups && (o != n ==> n !in t.groups) && o != MANAGER && n != MANAGER
    ensures ReachableHosts(GroupRenamed(t, o, n), p) == ReachableHosts(t, p)
  {
    var t' := GroupRenamed(t, o, n);
    assert Membership(p, MANAGER) in t'.members <==> Membership(p, MANAGER) in t.members;
    forall q
      ensures Reaches(t', p, q) <==> Reaches(t, p, q)
    {
      RenamedShare(t, o, n, p, q);
    }
    assert ReachableNames(t', p) == ReachableNames(t, p);
    SameEntries(t, t', Ordered(ReachableNames(t, p)));
  }

  // ---- What the remote sshd decides ----

  /** A peer's certificate from k lists its name and its groups. */
  ghost predicate CertInStep(t: Tables, p: string, k: PublicKey, cert: Cert) {
    cert.issuer == k && forall x :: x in cert.principals <==> x == p || x in GroupsOf(t.members, p)
  }

  /** A peer's authorized_keys has one line for k, listing the manager and its allowed groups. */
  ghost predicate KeysInStep(codec: Codec, t: Tables, q: string, k: PublicKey, keys: string, ps: seq<string>) {
    && PlainNames(ps) && AsSet(ps) == GroupsOf(t.allowed, q)
    && F.Only(Lines(keys), Trusting(codec, {k})) == [TrustLine(codec, k, ps)]
  }

  /** A name that a trust line of q lists without q allowing one of its groups. */
  ghost predicate NameListed(t: Tables, p: string, q: string) {
    p == MANAGER || p in GroupsOf(t.allowed, q)
  }

  /** An in-step peer is accepted exactly where the query says, or where a trust line happens to list its name. */
  lemma AcceptedIsReachable(codec: Codec, t: Tables, p: string, q: string, k: PublicKey, cert: Cert, keys: string,
                            ps: seq<string>)
    requires Faithful(codec) && Dialable(t, q) && q != p
    requires CertInStep(t, p, k, cert) && KeysInStep(codec, t, q, k, keys, ps)
    ensures Accepts(codec, keys, cert) <==> Reaches(t, p, q) || NameListed(t, p, q)
  {
    AcceptsByOnlyLine(codec, keys, k, ps, cert);
    assert forall g :: g in ps <==> g in AsSet(ps);
    assert forall x, g :: g in GroupsOf(t.allowed, x) <==> Membership(x, g) in t.allowed;
    assert forall x, g :: g in GroupsOf(t.members, x) <==> Membership(x, g) in t.members;
    if Accepts(codec, keys, cert) && !NameListed(t, p, q) {
      var x :| x in cert.principals && (x == MANAGER || x in ps);
      assert Membership(p, x) in t.members;
      assert x == MANAGER || Membership(q, x) in t.allowed;
    }
    if Membership(p, MANAGER) in t.members || p == MANAGER {
      assert MANAGER in cert.principals;
    } else if Reaches(t, p, q) {
      var m :| m in t.allowed && m.peer == q && Membership(p, m.group) in t.members;
      assert Membership(q, m.group) == m;
      assert m.group in cert.principals && m.group in ps;
    } else if p in GroupsOf(t.allowed, q) {
      assert p in cert.principals && p in ps;
    }
  }

  datatype Standing = Standing(keys: string, ps: seq<string>)

  /** The peers that accept the certificate, of those the fleet can dial. */
  ghost function AcceptingPeers(codec: Codec, t: Tables, p: string, cert: Cert,
                                fleet: map<string, Standing>): set<string> {
    set q | q in t.peers && q in fleet && Dialable(t, q) && q != p && Accepts(codec, fleet[q].keys, cert)
  }

  /**
   On a fleet in step with the database, the peers that accept p are the reachable ones, exactly when no
   dialable peer it cannot reach lists its bare name. That cannot happen when p is not also a group's name.
   */
  lemma ReachableIsAccepted(codec: Codec, t: Tables, p: string, k: PublicKey, cert: Cert, fleet: map<string, Standing>)
    requires Faithful(codec) && CertInStep(t, p, k, cert)
    requires forall q :: q in fleet && Dialable(t, q) && q != p ==>
               KeysInStep(codec, t, q, k, fleet[q].keys, fleet[q].ps)
    ensures AcceptingPeers(codec, t, p, cert, fleet) == ReachableNames(t, p) * fleet.Keys <==>
            forall q :: q in fleet && Dialable(t, q) && q != p && NameListed(t, p, q) ==> Reaches(t, p, q)
    ensures p != MANAGER && p !in t.groups && Linked(t) ==>
              AcceptingPeers(codec, t, p, cert, fleet) == ReachableNames(t, p) * fleet.Keys
  {
    forall q | q in fleet && Dialable(t, q) && q != p
      ensures q in AcceptingPeers(codec, t, p, cert, fleet) <==> q in ReachableNames(t, p) || NameListed(t, p, q)
    {
      AcceptedIsReachable(codec, t, p, q, k, cert, fleet[q].keys, fleet[q].ps);
    }
    if p != MANAGER && p !in t.groups && Linked(t) {
      assert forall q :: NameListed(t, p, q) ==> Membership(q, p) in t.allowed;
    }
  }
}
