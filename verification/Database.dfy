/** The database object: statements that may fail, and transactions that commit or roll back. */
module Database {
  import opened Wrappers
  import opened Text
  import opened Principals
  import opened AuthorizedKeys
  import opened Tables
  import opened Fate

  datatype DbError =
    | Storage | NotFound | AlreadyConsumed | Exists | Invalid | Missing(group: string) | RevokedPeer | Constraint

  datatype Table = PeerGroups | PeerAllowedGroups

  function Get(t: Tables, table: Table): set<Membership> {
    if table == PeerGroups then t.members else t.allowed
  }

  function Put(t: Tables, table: Table, rows: set<Membership>): Tables {
    if table == PeerGroups then t.(members := rows) else t.(allowed := rows)
  }

  /** What redeeming a token hands to the installer. */
  datatype Handed = Handed(peer: string, groups: string, user: string, bundle: Option<Bundle>)

  lemma AssignedStep(table: set<Membership>, peer: string, groups: seq<string>, i: nat)
    requires i < |groups|
    ensures Assigned(table, peer, groups[..i + 1]) == Assigned(table, peer, groups[..i]) + {Membership(peer, groups[i])}
    ensures AsSet(groups[..i + 1]) == AsSet(groups[..i]) + {groups[i]}
    ensures Membership(peer, groups[i]) in Assigned(table, peer, groups[..i]) <==> groups[i] in groups[..i]
    ensures NoDup(groups[..i]) ==> (NoDup(groups[..i + 1]) <==> groups[i] !in groups[..i])
    ensures NoDup(groups) ==> NoDup(groups[..i + 1])
  {
    assert groups[..i + 1] == groups[..i] + [groups[i]];
    if groups[i] !in groups[..i] {
      assert forall j :: 0 <= j < i ==> groups[..i][j] != groups[i];
    }
  }

  lemma AssignedNone(table: set<Membership>, peer: string)
    ensures Assigned(table, peer, []) == WithoutPeer(table, peer)
    ensures AsSet([]) == {}
  {
  }

  /** splitGroupsCSV. */
  method SplitGroupsCSV(csv: string) returns (out: seq<string>)
    ensures out == GroupList(csv)
  {
    var fields := SplitCSV(csv);
    out := [];
    for i := 0 to |fields|
      invariant out == Fields(fields[..i])
    {
      assert fields[..i + 1][..i] == fields[..i];
      var g := TrimSpace(fields[i]);
      if g != "" {
        out := out + [g];
      }
    }
    assert fields[..|fields|] == fields;
  }

  class DB {
    var rows: Tables
    const fate: Fates

    constructor (rows: Tables, fate: Fates)
      ensures this.rows == rows && this.fate == fate
    {
      this.rows, this.fate := rows, fate;
    }

    /** A statement the storage may refuse. */
    method Exec() returns (ok: bool)
      ensures Statement in fate ==> ok == fate[Statement]
    {
      ok := Try(fate, Statement);
    }

    /** A statement that writes: it takes effect, or the storage refuses it. */
    method Write(next: Tables) returns (ok: bool)
      modifies this
      ensures rows == if ok then next else old(rows)
      ensures Statement in fate ==> ok == fate[Statement]
    {
      ok := Try(fate, Statement);
      rows := if ok then next else rows;
    }

    /** One that removes rows of a peer. */
    method Remove(next: Tables) returns (ok: bool)
      modifies this
      ensures rows == if ok then next else old(rows)
      ensures RowRemoval in fate ==> ok == fate[RowRemoval]
    {
      ok := Try(fate, RowRemoval);
      rows := if ok then next else rows;
    }

    /** The end of a transaction: a commit that fails leaves what was there at its start. */
    method Commit(saved: Tables, site: Site) returns (ok: bool)
      modifies this
      ensures rows == if ok then old(rows) else saved
      ensures site in fate ==> ok == fate[site]
    {
      ok := Try(fate, site);
      rows := if ok then rows else saved;
    }

    // ---- Memberships ----

    /** setPeerGroupsTableTx: delete, then ensure and insert each group. A caller rolls back on failure. */
    method SetPeerGroupsTableTx(table: Table, peer: string, groups: seq<string>) returns (r: Result<(), DbError>)
      modifies this
      ensures r.Ok? ==> NoDup(groups) && (groups != [] ==> peer in old(rows).peers)
      ensures r.Ok? ==> rows == Put(old(rows), table, Assigned(Get(old(rows), table), peer, groups))
                                .(groups := old(rows).groups + AsSet(groups))
      ensures r.Err? && (r.error != Storage || Sure(fate, Statement)) ==>
                !NoDup(groups) || (groups != [] && peer !in old(rows).peers)
      ensures Sunk(fate, Statement) ==> r.Err?
    {
      var ok := Write(Put(rows, table, WithoutPeer(Get(rows, table), peer)));
      if !ok {
        return Err(Storage);
      }
      AssignedNone(Get(old(rows), table), peer);
      for i := 0 to |groups|
        invariant NoDup(groups[..i]) && (i > 0 ==> peer in old(rows).peers)
        invariant rows == Put(old(rows), table, Assigned(Get(old(rows), table), peer, groups[..i]))
                          .(groups := old(rows).groups + AsSet(groups[..i]))
      {
        AssignedStep(Get(old(rows), table), peer, groups, i);
        ok := Write(rows.(groups := rows.groups + {groups[i]}));
        if !ok {
          return Err(Storage);
        }
        if Membership(peer, groups[i]) in Get(rows, table) || peer !in rows.peers {
          return Err(Constraint);
        }
        ok := Write(Put(rows, table, Get(rows, table) + {Membership(peer, groups[i])}));
        if !ok {
          return Err(Storage);
        }
      }
      assert groups[..|groups|] == groups;
      return Ok(());
    }

    /** setPeerGroupsTableStrictTx: the same without creating missing groups. */
    method SetPeerGroupsTableStrictTx(table: Table, peer: string, groups: seq<string>) returns (r: Result<(), DbError>)
      requires peer in rows.peers
      modifies this
      ensures r.Ok? ==> Fits(old(rows), groups)
      ensures r.Ok? ==> rows == Put(old(rows), table, Assigned(Get(old(rows), table), peer, groups))
      ensures r.Err? && (r.error != Storage || Sure(fate, Statement)) ==>
                !Fits(old(rows), groups) && r.error != AlreadyConsumed
      ensures Sunk(fate, Statement) ==> r.Err?
    {
      var ok := Write(Put(rows, table, WithoutPeer(Get(rows, table), peer)));
      if !ok {
        return Err(Storage);
      }
      AssignedNone(Get(old(rows), table), peer);
      for i := 0 to |groups|
        invariant Fits(old(rows), groups[..i])
        invariant rows == Put(old(rows), table, Assigned(Get(old(rows), table), peer, groups[..i]))
      {
        AssignedStep(Get(old(rows), table), peer, groups, i);
        ok := Exec();
        if !ok {
          return Err(Storage);
        }
        if groups[i] !in rows.groups {
          return Err(Missing(groups[i]));
        }
        if Membership(peer, groups[i]) in Get(rows, table) {
          return Err(Constraint);
        }
        ok := Write(Put(rows, table, Get(rows, table) + {Membership(peer, groups[i])}));
        if !ok {
          return Err(Storage);
        }
      }
      assert groups[..|groups|] == groups;
      return Ok(());
    }

    /** DB.SetPeerGroups and DB.SetPeerAllowedGroups: the same in a transaction of its own. */
    method SetPeerGroupsTable(table: Table, peer: string, groups: seq<string>) returns (r: Result<(), DbError>)
      modifies this
      ensures var txn := if table == PeerGroups then SetGroups(peer, groups) else SetAllowed(peer, groups);
              && (r.Ok? ==> Apply(old(rows), txn) == Some(rows))
              && (r.Err? ==> rows == old(rows))
              && (r.Err? && (r.error != Storage || Sure(fate, Statement)) ==> Apply(old(rows), txn) == None)
      ensures Sunk(fate, Statement) ==> r.Err?
    {
      var saved := rows;
      r := SetPeerGroupsTableTx(table, peer, groups);
      if r.Err? {
        rows := saved;
        return;
      }
      var ok := Commit(saved, Statement);
      if !ok {
        return Err(Storage);
      }
    }

    // ---- Redeeming ----

    /** commitStagedReenroll. */
    method CommitStagedReenroll(peerName: string, groupsCSV: string, staged: TokenRow) returns (r: Result<(), DbError>)
      requires staged.stagedKey.Some? && staged.groups == groupsCSV && staged.peer == peerName
      modifies this
      ensures r.Ok? ==>
                peerName in old(rows).peers && !old(rows).peers[peerName].revoked
                  && Fits(old(rows), GroupList(groupsCSV))
      ensures r.Ok? ==> var allowed := NewAllowed(staged, old(rows).peers[peerName].inbound);
                        && (allowed.Some? ==> Fits(old(rows), allowed.value))
                        && rows == old(rows).(
                          peers := old(rows).peers[peerName := StagedRow(old(rows).peers[peerName], staged)],
                          members := Assigned(old(rows).members, peerName, GroupList(groupsCSV)),
                          allowed := if allowed.Some? then Assigned(old(rows).allowed, peerName, allowed.value)
                            else old(rows).allowed,
                          rev := old(rows).rev + 1)
      ensures r.Err? && (r.error != Storage || Sure(fate, Statement)) ==>
                || peerName !in old(rows).peers || old(rows).peers[peerName].revoked
                || !Fits(old(rows), GroupList(groupsCSV))
                || (NewAllowed(staged, old(rows).peers[peerName].inbound).Some?
                    && !Fits(old(rows), NewAllowed(staged, old(rows).peers[peerName].inbound).value))
      ensures r.Err? ==> r.error != AlreadyConsumed
      ensures Sunk(fate, Statement) ==> r.Err?
    {
      var ok := Exec();
      if !ok {
        return Err(Storage);
      }
      if peerName !in rows.peers {
        return Err(NotFound);
      }
      var was := rows.peers[peerName];
      if was.revoked {
        return Err(RevokedPeer);
      }
      ok := StoreStagedRow(peerName, staged);
      if !ok {
        return Err(Storage);
      }
      var groups := SplitGroupsCSV(groupsCSV);
      r := SetPeerGroupsTableStrictTx(PeerGroups, peerName, groups);
      if r.Err? {
        return;
      }
      if !staged.stagedInbound {
        r := SetPeerGroupsTableStrictTx(PeerAllowedGroups, peerName, []);
      } else if staged.stagedAllowed.Some? {
        var allowed := SplitGroupsCSV(staged.stagedAllowed.value);
        r := SetPeerGroupsTableStrictTx(PeerAllowedGroups, peerName, allowed);
      } else if !was.inbound {
        r := SetPeerGroupsTableStrictTx(PeerAllowedGroups, peerName, groups);
      }
      if r.Err? {
        return;
      }
      ok := Write(rows.(rev := rows.rev + 1));
      if !ok {
        return Err(Storage);
      }
      return Ok(());
    }

    /** Its updates of the peer row: the staged material, and the address if one is staged. */
    method StoreStagedRow(peerName: string, staged: TokenRow) returns (ok: bool)
      requires peerName in rows.peers && staged.stagedKey.Some?
      modifies this
      ensures ok ==> rows == PutRow(old(rows), peerName, StagedRow(old(rows).peers[peerName], staged))
      ensures Sure(fate, Statement) ==> ok
      ensures Sunk(fate, Statement) ==> !ok
    {
      ok := Write(PutRow(rows, peerName,
                     rows.peers[peerName].(key := staged.stagedKey.value, cert := staged.stagedCert,
                                           serial := staged.stagedSerial, pullToken := staged.stagedPull,
                                           inbound := staged.stagedInbound)));
      if !ok {
        return false;
      }
      if staged.stagedAddress != "" {
        ok := Write(PutRow(rows, peerName, rows.peers[peerName].(address := staged.stagedAddress)));
        if !ok {
          return false;
        }
      }
    }

    /** DB.ConsumeToken: redeems once, atomically, or changes nothing. */
    method ConsumeToken(token: string) returns (r: Result<Handed, DbError>)
      modifies this
      ensures r.Ok? ==> Apply(old(rows), Redeem(token)) == Some(rows)
      ensures r.Ok? ==> var row := old(rows).tokens[token];
              r.value == Handed(row.peer, row.groups, row.user, row.bundle)
      ensures r.Err? ==> rows == old(rows)
      ensures r.Err? && (r.error != Storage || Sure(fate, Statement)) ==>
                Apply(old(rows), Redeem(token)) == None
      ensures r == Err(AlreadyConsumed) ==> token in rows.tokens && rows.tokens[token].consumed
      ensures Sunk(fate, Statement) ==> r.Err?
    {
      var saved := rows;
      var ok := Exec();
      if !ok {
        return Err(Storage);
      }
      if token !in rows.tokens {
        return Err(NotFound);
      }
      var row := rows.tokens[token];
      if row.consumed {
        return Err(AlreadyConsumed);
      }
      ok := Write(rows.(tokens := rows.tokens[token := Spent(row)]));
      if !ok {
        return Err(Storage);
      }
      assert forall gs :: Fits(rows, gs) == Fits(saved, gs);
      if row.stagedKey.Some? {
        var done := CommitStagedReenroll(row.peer, row.groups, row);
        if done.Err? {
          rows := saved;
          return Err(done.error);
        }
      }
      ok := Commit(saved, Statement);
      if !ok {
        return Err(Storage);
      }
      return Ok(Handed(row.peer, row.groups, row.user, row.bundle));
    }

    // ---- Minting ----

    /** Every listed group exists; a name already seen is not looked up again. */
    method CheckNames(names: seq<string>) returns (r: Result<(), DbError>)
      ensures r.Ok? ==> Known(rows, names)
      ensures r.Err? && (r.error != Storage || Sure(fate, Statement)) ==> !Known(rows, names)
    {
      var seen: set<string> := {};
      for i := 0 to |names|
        invariant seen == AsSet(names[..i]) && Known(rows, names[..i])
      {
        assert names[..i + 1] == names[..i] + [names[i]];
        if names[i] in seen {
          continue;
        }
        seen := seen + {names[i]};
        var ok := Exec();
        if !ok {
          return Err(Storage);
        }
        if names[i] !in rows.groups {
          return Err(Missing(names[i]));
        }
      }
      assert names[..|names|] == names;
      return Ok(());
    }

    /** The staging transaction of MintEnroll for an existing peer: supersede its tokens, insert the new one. */
    method StageReenroll(tok: string, groups: seq<string>, chosen: Option<seq<string>>, staged: TokenRow)
      returns (r: Result<(), DbError>)
      requires Stages(staged, groups, chosen)
      modifies this
      ensures r.Ok? ==> Apply(old(rows), MintAgain(tok, groups, chosen, staged)) == Some(rows)
      ensures r.Err? ==> rows == old(rows)
      ensures r.Err? && (r.error != Storage || Sure(fate, Statement)) ==>
                Apply(old(rows), MintAgain(tok, groups, chosen, staged)) == None
      ensures Sunk(fate, Statement) ==> r.Err?
    {
      var saved := rows;
      var names := groups + (if chosen.Some? then chosen.value else []);
      r := CheckNames(names);
      if r.Err? {
        return;
      }
      var ok := Write(rows.(tokens := Superseded(rows.tokens, staged.peer)));
      if !ok {
        return Err(Storage);
      }
      if tok in rows.tokens {
        rows := saved;
        return Err(Exists);
      }
      ok := Write(rows.(tokens := rows.tokens[tok := staged]));
      if !ok {
        rows := saved;
        return Err(Storage);
      }
      ok := Commit(saved, Statement);
      if !ok {
        return Err(Storage);
      }
      return Ok(());
    }

    /** The statements of that transaction for a new name; the caller rolls back on failure. */
    method StageNewRows(tok: string, name: string, row: PeerRow, groups: seq<string>, allowed: seq<string>,
                        bundle: Bundle)
      returns (r: Result<(), DbError>)
      requires row.cert.Some? && !row.revoked && row.reachable && Known(rows, groups)
      modifies this
      ensures r.Ok? ==> Apply(old(rows), MintNew(tok, name, row, groups, allowed, false, bundle)) == Some(rows)
      ensures r.Err? && (r.error != Storage || Sure(fate, Statement)) ==>
                Apply(old(rows), MintNew(tok, name, row, groups, allowed, false, bundle)) == None
      ensures Sunk(fate, Statement) ==> r.Err?
    {
      if name in rows.peers {
        return Err(Exists);
      }
      var ok := InsertPeer(name, row);
      if !ok {
        return Err(Storage);
      }
      r := SetPeerGroupsTableTx(PeerGroups, name, groups);
      if r.Err? {
        return;
      }
      assert rows.groups == old(rows).groups;
      if row.inbound {
        r := SetPeerGroupsTableTx(PeerAllowedGroups, name, allowed);
        if r.Err? {
          return;
        }
      }
      if tok in rows.tokens {
        return Err(Exists);
      }
      ok := Write(rows.(tokens := rows.tokens[tok := PlainToken(name, JoinCSV(groups), row.user, bundle)]));
      if !ok {
        return Err(Storage);
      }
      ok := Write(rows.(rev := rows.rev + 1));
      if !ok {
        return Err(Storage);
      }
      assert rows.groups == if row.inbound then old(rows).groups + AsSet(allowed) else old(rows).groups;
      return Ok(());
    }

    /** Its statements for the peer row: the insert, the certificate, and the address if there is one. */
    method InsertPeer(name: string, row: PeerRow) returns (ok: bool)
      requires name !in rows.peers && row.cert.Some? && !row.revoked && row.reachable
      modifies this
      ensures ok ==> rows == PutRow(old(rows), name, row)
      ensures Statement in fate ==> ok == fate[Statement]
    {
      ok := Write(PutRow(rows, name, PeerRow(None, row.serial, row.key, false, row.user, "", row.inbound,
                                             row.pullToken, true)));
      if !ok {
        return false;
      }
      ok := Write(PutRow(rows, name, rows.peers[name].(cert := row.cert, serial := row.serial)));
      if !ok {
        return false;
      }
      if row.address != "" {
        ok := Write(PutRow(rows, name, rows.peers[name].(address := row.address)));
      }
    }

    /** The staging transaction of MintEnroll for a new name. */
    method StageNew(tok: string, name: string, row: PeerRow, groups: seq<string>, allowed: seq<string>, checked: bool,
                    bundle: Bundle)
      returns (r: Result<(), DbError>)
      requires row.cert.Some? && !row.revoked && row.reachable
      modifies this
      ensures var txn := MintNew(tok, name, row, groups, allowed, checked, bundle);
              && (r.Ok? ==> Apply(old(rows), txn) == Some(rows))
              && (r.Err? ==> rows == old(rows))
              && (r.Err? && (r.error != Storage || Sure(fate, Statement)) ==> Apply(old(rows), txn) == None)
      ensures Sunk(fate, Statement) ==> r.Err?
    {
      var saved := rows;
      var names := groups + (if checked then allowed else []);
      r := CheckNames(names);
      if r.Err? {
        return;
      }
      assert Known(rows, groups) by {
        assert forall g :: g in groups ==> g in names;
      }
      r := StageNewRows(tok, name, row, groups, allowed, bundle);
      if r.Err? {
        rows := saved;
        return;
      }
      var ok := Commit(saved, Statement);
      if !ok {
        return Err(Storage);
      }
    }

    // ---- Peers ----

    /** DB.DeletePeer: the peer and every row that references it, at once. It never trips a foreign key. */
    method DeletePeer(name: string) returns (r: Result<(), DbError>)
      requires Linked(rows)
      modifies this
      ensures r.Ok? ==> Apply(old(rows), Delete(name)) == Some(rows)
      ensures r.Err? ==> rows == old(rows) && (r.error == Storage || (r.error == NotFound && name !in rows.peers))
      ensures Sure(fate, RowRemoval) && name in old(rows).peers ==> r.Ok?
      ensures Sunk(fate, RowRemoval) ==> r.Err?
    {
      var saved := rows;
      var ok := Remove(rows.(members := WithoutPeer(rows.members, name)));
      if !ok {
        return Err(Storage);
      }
      ok := Remove(rows.(allowed := WithoutPeer(rows.allowed, name)));
      if !ok {
        rows := saved;
        return Err(Storage);
      }
      ok := Remove(rows.(tokens := map k | k in rows.tokens && rows.tokens[k].peer != name :: rows.tokens[k]));
      if !ok {
        rows := saved;
        return Err(Storage);
      }
      assert forall m :: m in rows.members + rows.allowed ==> m.peer != name;
      if name !in rows.peers {
        rows := saved;
        return Err(NotFound);
      }
      ok := Remove(rows.(peers := rows.peers - {name}));
      if !ok {
        rows := saved;
        return Err(Storage);
      }
      ok := Commit(saved, RowRemoval);
      if !ok {
        return Err(Storage);
      }
      return Ok(());
    }

    /** One UPDATE of a peer row: SetPeerRevoked, SetPeerCert, SetPeerInbound and their like. */
    method UpdatePeerRow(txn: Txn) returns (r: Result<(), DbError>)
      requires txn.Revoke? || txn.StoreCert? || txn.SetInbound? || txn.SetAddress? || txn.SetUser?
      modifies this
      ensures r.Ok? ==> Apply(old(rows), txn) == Some(rows)
      ensures r.Err? ==> rows == old(rows) && (r.error == Storage || (r.error == NotFound && txn.name !in rows.peers))
      ensures Sure(fate, Statement) && txn.name in rows.peers ==> r.Ok?
      ensures Sunk(fate, Statement) ==> r.Err?
    {
      if txn.name !in rows.peers {
        return Err(NotFound);
      }
      var row := rows.peers[txn.name];
      if txn.Revoke? {
        row := row.(revoked := true);
      } else if txn.StoreCert? {
        row := row.(cert := txn.cert, serial := txn.serial);
      } else if txn.SetInbound? {
        row := row.(inbound := txn.inbound);
      } else if txn.SetAddress? {
        row := row.(address := txn.address);
      } else {
        row := row.(user := txn.user);
      }
      var ok := Write(PutRow(rows, txn.name, row));
      return if ok then Ok(()) else Err(Storage);
    }

    method BumpFleetRev() returns (r: Result<(), DbError>)
      modifies this
      ensures r.Ok? ==> rows == old(rows).(rev := old(rows).rev + 1)
      ensures r.Err? ==> rows == old(rows)
      ensures Sure(fate, Statement) ==> r.Ok?
      ensures Sunk(fate, Statement) ==> r.Err?
    {
      var ok := Write(rows.(rev := rows.rev + 1));
      if !ok {
        return Err(Storage);
      }
      return Ok(());
    }

    // ---- Groups ----

    /** createGroupTx. */
    method CreateGroup(name: string) returns (r: Result<(), DbError>)
      modifies this
      ensures r.Ok? ==> Apply(old(rows), Txn.CreateGroup(name)) == Some(rows)
      ensures r.Err? ==> rows == old(rows)
      ensures r.Err? && (r.error != Storage || Sure(fate, Statement)) ==>
                Apply(old(rows), Txn.CreateGroup(name)) == None
      ensures Sunk(fate, Statement) ==> r.Err?
    {
      var trimmed := TrimSpace(name);
      if trimmed == "" {
        return Err(Invalid);
      }
      var ok := Exec();
      if !ok {
        return Err(Storage);
      }
      if trimmed in rows.groups {
        return Err(Exists);
      }
      ok := Write(rows.(groups := rows.groups + {trimmed}));
      if !ok {
        return Err(Storage);
      }
      return Ok(());
    }

    /** deleteGroupTx in its transaction. It never trips a foreign key. */
    method DeleteGroup(name: string) returns (r: Result<(), DbError>)
      modifies this
      ensures r.Ok? ==> Apply(old(rows), Txn.DeleteGroup(name)) == Some(rows)
      ensures r.Err? ==> rows == old(rows) && (r.error == Storage || (r.error == NotFound && name !in rows.groups))
      ensures Sure(fate, Statement) && name in old(rows).groups ==> r.Ok?
      ensures Sunk(fate, Statement) ==> r.Err?
    {
      var saved := rows;
      var ok := Exec();
      if !ok {
        return Err(Storage);
      }
      if name !in rows.groups {
        return Err(NotFound);
      }
      ok := Write(rows.(members := WithoutGroup(rows.members, name)));
      if !ok {
        return Err(Storage);
      }
      ok := Write(rows.(allowed := WithoutGroup(rows.allowed, name)));
      if !ok {
        rows := saved;
        return Err(Storage);
      }
      assert forall m :: m in rows.members + rows.allowed ==> m.group != name;
      ok := Write(rows.(groups := rows.groups - {name}));
      if !ok {
        rows := saved;
        return Err(Storage);
      }
      ok := Commit(saved, Statement);
      if !ok {
        return Err(Storage);
      }
      return Ok(());
    }

    /** renameGroupTx in its transaction. It never trips a unique or a foreign key. */
    method RenameGroup(oldName: string, newName: string) returns (r: Result<(), DbError>)
      requires Linked(rows)
      modifies this
      ensures r.Ok? ==> Apply(old(rows), Txn.RenameGroup(oldName, newName)) == Some(rows)
      ensures r.Err? ==> rows == old(rows)
      ensures r.Err? && (r.error != Storage || Sure(fate, Statement)) ==>
                Apply(old(rows), Txn.RenameGroup(oldName, newName)) == None
      ensures Sunk(fate, Statement) ==> r.Err?
    {
      var saved := rows;
      var o, n := TrimSpace(oldName), TrimSpace(newName);
      if n == "" {
        return Err(Invalid);
      }
      var ok := Exec();
      if !ok {
        return Err(Storage);
      }
      if o !in rows.groups {
        return Err(NotFound);
      }
      if o != n {
        ok := Exec();
        if !ok {
          return Err(Storage);
        }
        if n in rows.groups {
          return Err(Exists);
        }
      }
      ok := Write(rows.(groups := rows.groups + {n}));
      if !ok {
        return Err(Storage);
      }
      assert !Collides(rows.members, o, n);
      ok := Write(rows.(members := Retargeted(rows.members, o, n)));
      if !ok {
        rows := saved;
        return Err(Storage);
      }
      assert !Collides(rows.allowed, o, n);
      ok := Write(rows.(allowed := Retargeted(rows.allowed, o, n)));
      if !ok {
        rows := saved;
        return Err(Storage);
      }
      if o != n {
        RetargetedLeaves(saved.members, o, n);
        RetargetedLeaves(saved.allowed, o, n);
        ok := Write(rows.(groups := rows.groups - {o}));
        if !ok {
          rows := saved;
          return Err(Storage);
        }
      }
      assert rows.groups == saved.groups - {o} + {n};
      ok := Commit(saved, Statement);
      if !ok {
        return Err(Storage);
      }
      return Ok(());
    }
  }

  /** Retargeting would make two rows equal. */
  predicate Collides(table: set<Membership>, o: string, n: string) {
    o != n && exists m :: m in table && m.group == o && Membership(m.peer, n) in table
  }

  /** After retargeting no row references the old group. */
  lemma RetargetedLeaves(table: set<Membership>, o: string, n: string)
    requires o != n
    ensures forall m :: m in Retargeted(table, o, n) ==> m.group != o
  {
  }
}
