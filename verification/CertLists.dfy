/** Stored certificates list their peer's name and groups: what every completed operation keeps. */
module CertLists {
  import opened Wrappers
  import opened Text
  import opened Names
  import opened Principals
  import opened AuthorizedKeys
  import opened TrustLaws
  import opened Tables
  import opened Fleet
  import opened RekeyPeers
  import opened Rotation

  /** Every live peer's stored certificate lists exactly its name and its groups. */
  ghost predicate CertsInStep(self: string, t: Tables) {
    forall p :: p in t.peers && !t.peers[p].revoked && p != self ==>
      t.peers[p].cert.Some? && ListsExactly(t.peers[p].cert.value, p, GroupsOf(t.members, p))
  }

  /** Every pending re-enroll carries a certificate that lists exactly the name and the groups it will set. */
  ghost predicate StagedInStep(t: Tables) {
    forall k :: k in t.tokens && t.tokens[k].stagedKey.Some? ==>
      t.tokens[k].stagedCert.Some?
      && ListsExactly(t.tokens[k].stagedCert.value, t.tokens[k].peer, AsSet(GroupList(t.tokens[k].groups)))
  }

  ghost predicate InStep(self: string, t: Tables) {
    CertsInStep(self, t) && StagedInStep(t)
  }

  /** New certificates for some peers. */
  function Recert(t: Tables, certs: map<string, Cert>): Tables {
    t.(peers := map p | p in t.peers ::
         if p in certs then t.peers[p].(cert := Some(certs[p]), serial := certs[p].serial) else t.peers[p])
  }

  /** Every live peer of the group has a new certificate listing its groups in t, and nobody else has. */
  ghost predicate Recerts(self: string, t: Tables, certs: map<string, Cert>, affected: set<string>) {
    && certs.Keys <= affected
    && forall p :: p in affected && p in t.peers && !t.peers[p].revoked ==>
         p in certs && (p != self ==> ListsExactly(certs[p], p, GroupsOf(t.members, p)))
  }

  /** The operations, as what they leave in the database once they completed. */
  datatype Op =
    | Single(txn: Txn)
    | Update(name: string, groups: seq<string>, cert: Cert)
    | Rename(old': string, new': string, certs: map<string, Cert>)
    | Drop(group: string, certs: map<string, Cert>)
    | Rotate

  /** Transactions that are an operation of their own. A mint signs for the groups it stages. */
  ghost predicate Whole(txn: Txn) {
    match txn
    case MintNew(_, name, row, groups, _, _, _) =>
      row.cert.Some? && ListsExactly(row.cert.value, name, AsSet(groups))
    case MintAgain(_, _, _, staged) =>
      staged.stagedCert.Some? && ListsExactly(staged.stagedCert.value, staged.peer, AsSet(GroupList(staged.groups)))
    case StoreCert(_, _, _) => false
    case SetGroups(_, _) => false
    case DeleteGroup(_) => false
    case RenameGroup(_, _) => false
    case _ => true
  }

  /** op takes t to t'; the fleet revision may be bumped on the way. */
  ghost predicate Completes(self: string, t: Tables, op: Op, t': Tables) {
    match op
    case Single(txn) => Whole(txn) && Apply(t, txn) == Some(t')
    case Update(name, groups, cert) =>
      && name in t.peers && ListsExactly(cert, name, AsSet(groups))
      && t' == WithCert(t, name, Some(cert), cert.serial)
               .(groups := t.groups + AsSet(groups), members := Assigned(t.members, name, groups), rev := t'.rev)
    case Rename(o, n, certs) =>
      var t1 := GroupRenamed(t, o, n);
      o in t.groups && (o != n ==> n !in t.groups) && Recerts(self, t1, certs, PeersOf(t.members, o))
      && t' == Recert(t1, certs).(rev := t'.rev)
    case Drop(g, certs) =>
      var t1 := GroupDeleted(t, g);
      Recerts(self, t1, certs, PeersOf(t.members, g)) && t' == Recert(t1, certs).(rev := t'.rev)
    case Rotate =>
      && t' == t.(peers := t'.peers, rev := t'.rev) && t'.peers.Keys == t.peers.Keys && RowsListed(self, t, t')
      && forall p :: p in t.peers ==> t'.peers[p].revoked == t.peers[p].revoked
  }

  // ---- Each operation keeps it ----

  lemma UpdateKeeps(self: string, t: Tables, name: string, groups: seq<string>, cert: Cert, t': Tables)
    requires InStep(self, t) && Completes(self, t, Update(name, groups, cert), t')
    ensures InStep(self, t')
  {
    forall p | p in t'.peers && !t'.peers[p].revoked && p != self
      ensures t'.peers[p].cert.Some? && ListsExactly(t'.peers[p].cert.value, p, GroupsOf(t'.members, p))
    {
      AssignedGroups(t.members, name, groups, p);
    }
  }

  lemma RecertKeeps(self: string, t: Tables, t1: Tables, certs: map<string, Cert>, affected: set<string>, t': Tables)
    requires InStep(self, t) && t1 == t.(groups := t1.groups, members := t1.members, allowed := t1.allowed)
    requires Recerts(self, t1, certs, affected) && t' == Recert(t1, certs).(rev := t'.rev)
    requires forall p :: p !in affected ==> GroupsOf(t1.members, p) == GroupsOf(t.members, p)
    ensures InStep(self, t')
  {
  }

  lemma NotInRenamed(table: set<Membership>, o: string, n: string, p: string)
    requires p !in PeersOf(table, o)
    ensures GroupsOf(Retargeted(table, o, n), p) == GroupsOf(table, p)
    ensures GroupsOf(WithoutGroup(table, o), p) == GroupsOf(table, p)
  {
    RetargetedGroups(table, o, n, p);
    WithoutGroups(table, o, p);
    forall g | g in GroupsOf(table, p)
      ensures g != o && Swap(g, o, n) == g
    {
      assert Membership(p, g) in table;
    }
    assert (set g | g in GroupsOf(table, p) :: Swap(g, o, n)) == GroupsOf(table, p);
  }

  lemma RotateKeeps(self: string, t: Tables, t': Tables)
    requires InStep(self, t) && Completes(self, t, Rotate, t')
    ensures InStep(self, t')
  {
  }

  lemma SingleKeepsCerts(self: string, t: Tables, txn: Txn, p: string)
    requires InStep(self, t) && Whole(txn) && Apply(t, txn).Some?
    requires var t' := Apply(t, txn).value; p in t'.peers && !t'.peers[p].revoked && p != self
    ensures var t' := Apply(t, txn).value;
            t'.peers[p].cert.Some? && ListsExactly(t'.peers[p].cert.value, p, GroupsOf(t'.members, p))
  {
    match txn
    case MintNew(_, name, _, groups, _, _, _) => AssignedGroups(t.members, name, groups, p);
    case Redeem(tok) =>
      var r := t.tokens[tok];
      if r.stagedKey.Some? {
        AssignedGroups(t.members, r.peer, GroupList(r.groups), p);
      }
    case Delete(name) => WithoutPeerGroups(t.members, name, p);
    case _ =>
  }

  lemma WithoutPeerGroups(table: set<Membership>, peer: string, p: string)
    requires p != peer
    ensures GroupsOf(WithoutPeer(table, peer), p) == GroupsOf(table, p)
  {
    forall g
      ensures g in GroupsOf(WithoutPeer(table, peer), p) <==> g in GroupsOf(table, p)
    {
      assert g in GroupsOf(WithoutPeer(table, peer), p) <==> Membership(p, g) in WithoutPeer(table, peer);
      assert g in GroupsOf(table, p) <==> Membership(p, g) in table;
    }
  }

  lemma SingleKeepsStaged(t: Tables, txn: Txn)
    requires StagedInStep(t) && Whole(txn) && Apply(t, txn).Some?
    ensures StagedInStep(Apply(t, txn).value)
  {
  }

  lemma CompletesKeeps(self: string, t: Tables, op: Op, t': Tables)
    requires InStep(self, t) && Completes(self, t, op, t')
    ensures InStep(self, t')
  {
    match op
    case Single(txn) =>
      SingleKeepsStaged(t, txn);
      forall p | p in t'.peers && !t'.peers[p].revoked && p != self
        ensures t'.peers[p].cert.Some? && ListsExactly(t'.peers[p].cert.value, p, GroupsOf(t'.members, p))
      {
        SingleKeepsCerts(self, t, txn, p);
      }
    case Update(name, groups, cert) => UpdateKeeps(self, t, name, groups, cert, t');
    case Rename(o, n, certs) =>
      forall p | p !in PeersOf(t.members, o)
        ensures GroupsOf(GroupRenamed(t, o, n).members, p) == GroupsOf(t.members, p)
      {
        NotInRenamed(t.members, o, n, p);
      }
      RecertKeeps(self, t, GroupRenamed(t, o, n), certs, PeersOf(t.members, o), t');
    case Drop(g, certs) =>
      forall p | p !in PeersOf(t.members, g)
        ensures GroupsOf(GroupDeleted(t, g).members, p) == GroupsOf(t.members, p)
      {
        NotInRenamed(t.members, g, g, p);
      }
      RecertKeeps(self, t, GroupDeleted(t, g), certs, PeersOf(t.members, g), t');
    case Rotate => RotateKeeps(self, t, t');
  }

  /** In every state that completed operations reach, stored certificates list exactly name and groups. */
  lemma {:induction false} RunKeepsInStep(self: string, ts: seq<Tables>, ops: seq<Op>)
    requires |ts| == |ops| + 1 && InStep(self, ts[0])
    requires forall i :: 0 <= i < |ops| ==> Completes(self, ts[i], ops[i], ts[i + 1])
    ensures InStep(self, ts[|ops|])
    decreases |ops|
  {
    if ops != [] {
      CompletesKeeps(self, ts[0], ops[0], ts[1]);
      RunKeepsInStep(self, ts[1..], ops[1..]);
    }
  }

  /** A rotation is such an operation however it ends. */
  lemma EndedCompletes(codec: Codec, key: string, self: string, w: World, w': World,
                       exclude: set<string>, k: PublicKey, end: Ending)
    requires Ended(codec, key, self, w, w', exclude, k, end)
    ensures Completes(self, w.db, Rotate, w'.db)
  {
    if end.Swapped? {
      var ps := Others(w.db, self, exclude);
      assert ps[..|ps|] == ps;
      ToldListed(self, Generated(w, k), w', k, ps, end.tally);
    }
  }

  /**
   An update that stored the groups but failed before storing the certificate leaves the peer out of step,
   exactly when the groups differ from the old ones in more than the peer's own name.
   */
  lemma HalfUpdateOutOfStep(self: string, t: Tables, name: string, groups: seq<string>)
    requires InStep(self, t) && PlainGroups(t) && name in t.peers && !t.peers[name].revoked && name != self
             && name != ""
    requires NoDup(groups) && PlainNames(groups) && LinkedTable(t, t.members)
    ensures var t' := t.(groups := t.groups + AsSet(groups), members := Assigned(t.members, name, groups));
            Apply(t, SetGroups(name, groups)) == Some(t') && 
            (CertsInStep(self, t') <==> AsSet(groups) + {name} == GroupsOf(t.members, name) + {name})
  {
    var t' := t.(groups := t.groups + AsSet(groups), members := Assigned(t.members, name, groups));
    forall p
      ensures GroupsOf(t'.members, p) == if p == name then AsSet(groups) else GroupsOf(t.members, p)
    {
      AssignedGroups(t.members, name, groups, p);
    }
    var cert := t.peers[name].cert.value;
    if CertsInStep(self, t') {
      forall g
        ensures g in AsSet(groups) + {name} <==> g in GroupsOf(t.members, name) + {name}
      {
        assert g in cert.principals <==> g != "" && (g == name || g in GroupsOf(t.members, name));
        assert g in cert.principals <==> g != "" && (g == name || g in AsSet(groups));
        assert g in GroupsOf(t.members, name) ==> Membership(name, g) in t.members;
      }
    }
  }
}
