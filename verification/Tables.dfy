/**
 The database as certhold's transactions see it: what each one does when it commits, and what every
 interleaving of them keeps.
 */
module Tables {
  import opened Wrappers
  import opened Text
  import opened Principals
  import opened AuthorizedKeys
  import opened SshConfig

  // ---- Rows ----

  datatype Membership = Membership(peer: string, group: string)

  datatype PeerRow = PeerRow(
    cert: Option<Cert>, serial: nat, key: string, revoked: bool, user: string,
    address: string, inbound: bool, pullToken: string, reachable: bool)

  /** What an install bundle carries; ca and principals make its trust line unless noInbound. */
  datatype Bundle = Bundle(cert: Cert, ca: PublicKey, principals: seq<string>, noInbound: bool, user: string,
                           hosts: seq<HostEntry>)

  datatype TokenRow = TokenRow(
    peer: string, groups: string, consumed: bool, user: string, bundle: Option<Bundle>,
    stagedKey: Option<string>, stagedSerial: nat, stagedCert: Option<Cert>, stagedPull: string,
    stagedInbound: bool, stagedAddress: string, stagedAllowed: Option<string>)

  datatype Tables = Tables(
    peers: map<string, PeerRow>, groups: set<string>, members: set<Membership>, allowed: set<Membership>,
    tokens: map<string, TokenRow>, rev: nat)

  // ---- Membership tables ----

  function GroupsOf(table: set<Membership>, peer: string): set<string> {
    set m | m in table && m.peer == peer :: m.group
  }

  function PeersOf(table: set<Membership>, group: string): set<string> {
    set m | m in table && m.group == group :: m.peer
  }

  /** The peer's memberships become exactly groups. */
  function Assigned(table: set<Membership>, peer: string, groups: seq<string>): set<Membership> {
    (set m | m in table && m.peer != peer) + (set g | g in groups :: Membership(peer, g))
  }

  function WithoutGroup(table: set<Membership>, group: string): set<Membership> {
    set m | m in table && m.group != group
  }

  function WithoutPeer(table: set<Membership>, peer: string): set<Membership> {
    set m | m in table && m.peer != peer
  }

  function Swap(g: string, old': string, new': string): string {
    if g == old' then new' else g
  }

  function Retargeted(table: set<Membership>, old': string, new': string): set<Membership> {
    set m | m in table :: Membership(m.peer, Swap(m.group, old', new'))
  }

  lemma AssignedGroups(table: set<Membership>, peer: string, groups: seq<string>, p: string)
    ensures GroupsOf(Assigned(table, peer, groups), p) ==
            if p == peer then (set g | g in groups) else GroupsOf(table, p)
  {
    var t := Assigned(table, peer, groups);
    forall g
      ensures g in GroupsOf(t, p) <==> if p == peer then g in groups else g in GroupsOf(table, p)
    {
      assert g in GroupsOf(t, p) <==> Membership(p, g) in t;
      assert g in GroupsOf(table, p) <==> Membership(p, g) in table;
    }
  }

  lemma RetargetedGroups(table: set<Membership>, old': string, new': string, p: string)
    ensures GroupsOf(Retargeted(table, old', new'), p) == set g | g in GroupsOf(table, p) :: Swap(g, old', new')
  {
    var t := Retargeted(table, old', new');
    forall g | g in GroupsOf(table, p)
      ensures Swap(g, old', new') in GroupsOf(t, p)
    {
      assert Membership(p, g) in table;
      assert Membership(p, Swap(g, old', new')) in t;
    }
  }

  lemma WithoutGroups(table: set<Membership>, group: string, p: string)
    ensures GroupsOf(WithoutGroup(table, group), p) == GroupsOf(table, p) - {group}
  {
    forall g
      ensures g in GroupsOf(WithoutGroup(table, group), p) <==> g in GroupsOf(table, p) && g != group
    {
      assert g in GroupsOf(WithoutGroup(table, group), p) <==> Membership(p, g) in WithoutGroup(table, group);
      assert g in GroupsOf(table, p) <==> Membership(p, g) in table;
    }
  }

  /** The certificate lists the name and the groups, and nothing else. */
  ghost predicate ListsExactly(cert: Cert, name: string, groups: set<string>) {
    forall x :: x in cert.principals <==> x != "" && (x == name || x in groups)
  }

  // ---- Group lists in a token row ----

  /** The trimmed fields that are not empty, in order. */
  function Fields(fs: seq<string>): seq<string> {
    if fs == [] then []
    else Fields(fs[..|fs| - 1]) +
         (if TrimSpace(fs[|fs| - 1]) == "" then [] else [TrimSpace(fs[|fs| - 1])])
  }

  /** splitGroupsCSV. */
  function GroupList(csv: string): seq<string> {
    Fields(SplitCSV(csv))
  }

  lemma {:induction false} FieldsPlain(gs: seq<string>)
    requires forall g :: g in gs ==> PlainName(g)
    ensures Fields(gs) == gs
  {
    if gs != [] {
      var n := |gs| - 1;
      FieldsPlain(gs[..n]);
      assert PlainName(gs[n]);
      assert gs[..n] + [gs[n]] == gs;
    }
  }

  /** What splitGroupsCSV lists: each field of the text, trimmed, if anything is left of it. */
  lemma GroupListHas(csv: string)
    ensures forall g :: g in GroupList(csv) <==> g != "" && exists f :: f in SplitCSV(csv) && g == TrimSpace(f)
  {
    FieldsHas(SplitCSV(csv));
  }

  lemma {:induction false} FieldsHas(fs: seq<string>)
    ensures forall g :: g in Fields(fs) <==> g != "" && exists f :: f in fs && g == TrimSpace(f)
  {
    if fs != [] {
      var n := |fs| - 1;
      FieldsHas(fs[..n]);
      assert fs == fs[..n] + [fs[n]];
      forall g
        ensures g in Fields(fs) <==> g != "" && exists f :: f in fs && g == TrimSpace(f)
      {
        assert g in Fields(fs) <==> g in Fields(fs[..n]) || (g == TrimSpace(fs[n]) && g != "");
        if f :| f in fs && g == TrimSpace(f) {
          assert f in fs[..n] || f == fs[n];
        }
      }
    }
  }

  /** Plain group names survive the token row. */
  lemma GroupListRoundTrip(gs: seq<string>)
    requires forall g :: g in gs ==> PlainName(g)
    ensures GroupList(JoinCSV(gs)) == gs
  {
    if gs == [] {
      assert SplitCSV("") == [""];
      assert Fields([""]) == Fields([]) + [];
    } else {
      SplitJoin(gs);
      FieldsPlain(gs);
    }
  }

  // ---- Transactions ----

  datatype Txn =
    | MintNew(tok: string, name: string, row: PeerRow, groups: seq<string>, allowed: seq<string>, checked: bool,
              bundle: Bundle)
    | MintAgain(tok: string, groups: seq<string>, chosen: Option<seq<string>>, staged: TokenRow)
    | Redeem(tok: string)
    | Delete(name: string)
    | Revoke(name: string)
    | StoreCert(name: string, cert: Option<Cert>, serial: nat)
    | SetInbound(name: string, inbound: bool)
    | SetAddress(name: string, address: string)
    | SetUser(name: string, user: string)
    | SetReachable(name: string, reachable: bool)
    | SetGroups(name: string, groups: seq<string>)
    | SetAllowed(name: string, groups: seq<string>)
    | CreateGroup(name: string)
    | DeleteGroup(name: string)
    | RenameGroup(old': string, new': string)
    | Bump

  /** A list of existing groups. */
  ghost predicate Known(t: Tables, gs: seq<string>) {
    forall g :: g in gs ==> g in t.groups
  }

  /** A group list that a strict insert accepts. */
  ghost predicate Fits(t: Tables, gs: seq<string>) {
    NoDup(gs) && Known(t, gs)
  }

  /** A fresh row that stages a key, these groups and, when chosen, this allowed set. */
  ghost predicate Stages(r: TokenRow, groups: seq<string>, chosen: Option<seq<string>>) {
    && !r.consumed && r.stagedKey.Some? && r.groups == JoinCSV(groups)
    && r.stagedAllowed == if chosen.Some? then Some(JoinCSV(chosen.value)) else None
  }

  /** A token row once consumed; staged_inbound alone keeps its value. */
  function Spent(r: TokenRow): TokenRow {
    r.(consumed := true, bundle := None, stagedKey := None, stagedSerial := 0, stagedCert := None,
       stagedPull := "", stagedAddress := "", stagedAllowed := None)
  }

  /** The allowed set a redeem writes; None leaves the peer's as it is. */
  function NewAllowed(r: TokenRow, wasInbound: bool): Option<seq<string>> {
    if !r.stagedInbound then Some([])
    else if r.stagedAllowed.Some? then Some(GroupList(r.stagedAllowed.value))
    else if !wasInbound then Some(GroupList(r.groups))
    else None
  }

  ghost predicate Redeemable(t: Tables, tok: string) {
    tok in t.tokens &&
    var r := t.tokens[tok];
    && !r.consumed
    && (r.stagedKey.Some? ==>
          && r.peer in t.peers && !t.peers[r.peer].revoked
          && Fits(t, GroupList(r.groups))
          && (NewAllowed(r, t.peers[r.peer].inbound).Some? ==> Fits(t, NewAllowed(r, t.peers[r.peer].inbound).value)))
  }

  function StagedRow(row: PeerRow, r: TokenRow): PeerRow
    requires r.stagedKey.Some?
  {
    row.(key := r.stagedKey.value, cert := r.stagedCert, serial := r.stagedSerial, pullToken := r.stagedPull,
         inbound := r.stagedInbound, address := if r.stagedAddress != "" then r.stagedAddress else row.address)
  }

  /** The database after a redeem: the token is spent and the staged material is the peer's. */
  function Redeemed(t: Tables, tok: string): Tables
    requires tok in t.tokens
    requires t.tokens[tok].stagedKey.Some? ==> t.tokens[tok].peer in t.peers
  {
    var r := t.tokens[tok];
    var spent := t.(tokens := t.tokens[tok := Spent(r)]);
    if r.stagedKey.None? then spent
    else
      var row, allowed := t.peers[r.peer], NewAllowed(r, t.peers[r.peer].inbound);
      spent.(peers := t.peers[r.peer := StagedRow(row, r)],
             members := Assigned(t.members, r.peer, GroupList(r.groups)),
             allowed := if allowed.Some? then Assigned(t.allowed, r.peer, allowed.value) else t.allowed,
             rev := t.rev + 1)
  }

  /** The tokens that a new mint for the peer leaves. */
  function Superseded(tokens: map<string, TokenRow>, peer: string): map<string, TokenRow> {
    map k | k in tokens && (tokens[k].peer != peer || tokens[k].consumed) :: tokens[k]
  }

  function PlainToken(peer: string, groups: string, user: string, bundle: Bundle): TokenRow {
    TokenRow(peer, groups, false, user, Some(bundle), None, 0, None, "", false, "", None)
  }

  function AsSet(gs: seq<string>): set<string> {
    set g | g in gs
  }

  function PutRow(t: Tables, name: string, row: PeerRow): Tables {
    t.(peers := t.peers[name := row])
  }

  function WithCert(t: Tables, name: string, cert: Option<Cert>, serial: nat): Tables
    requires name in t.peers
  {
    PutRow(t, name, t.peers[name].(cert := cert, serial := serial))
  }

  function PeerDeleted(t: Tables, name: string): Tables {
    t.(peers := t.peers - {name}, members := WithoutPeer(t.members, name), allowed := WithoutPeer(t.allowed, name),
       tokens := map k | k in t.tokens && t.tokens[k].peer != name :: t.tokens[k])
  }

  function GroupDeleted(t: Tables, name: string): Tables {
    t.(groups := t.groups - {name}, members := WithoutGroup(t.members, name), allowed := WithoutGroup(t.allowed, name))
  }

  function GroupRenamed(t: Tables, old': string, new': string): Tables {
    t.(groups := t.groups - {old'} + {new'},
       members := Retargeted(t.members, old', new'), allowed := Retargeted(t.allowed, old', new'))
  }

  /** What the transaction commits; None when it is refused and rolls back. */
  ghost function Apply(t: Tables, txn: Txn): Option<Tables> {
    match txn
    case MintNew(tok, name, row, groups, allowed, checked, bundle) =>
      if name in t.peers || tok in t.tokens || !Fits(t, groups) || (row.inbound && !NoDup(allowed))
         || (checked && !Known(t, allowed)) then None
      else Some(t.(peers := t.peers[name := row],
                   groups := if row.inbound then t.groups + AsSet(allowed) else t.groups,
                   members := Assigned(t.members, name, groups),
                   allowed := if row.inbound then Assigned(t.allowed, name, allowed) else t.allowed,
                   tokens := t.tokens[tok := PlainToken(name, JoinCSV(groups), row.user, bundle)],
                   rev := t.rev + 1))
    case MintAgain(tok, groups, chosen, staged) =>
      if !Stages(staged, groups, chosen) || !Known(t, groups) || (chosen.Some? && !Known(t, chosen.value))
         || tok in Superseded(t.tokens, staged.peer) then None
      else Some(t.(tokens := Superseded(t.tokens, staged.peer)[tok := staged]))
    case Redeem(tok) =>
      if Redeemable(t, tok) then Some(Redeemed(t, tok)) else None
    case Delete(name) =>
      if name in t.peers then Some(PeerDeleted(t, name)) else None
    case Revoke(name) =>
      if name in t.peers then Some(PutRow(t, name, t.peers[name].(revoked := true))) else None
    case StoreCert(name, cert, serial) =>
      if name in t.peers then Some(WithCert(t, name, cert, serial)) else None
    case SetInbound(name, inbound) =>
      if name in t.peers then Some(PutRow(t, name, t.peers[name].(inbound := inbound))) else None
    case SetAddress(name, address) =>
      if name in t.peers then Some(PutRow(t, name, t.peers[name].(address := address))) else None
    case SetUser(name, user) =>
      if name in t.peers then Some(PutRow(t, name, t.peers[name].(user := user))) else None
    case SetReachable(name, reachable) =>
      Some(if name in t.peers then PutRow(t, name, t.peers[name].(reachable := reachable)) else t)
    case SetGroups(name, groups) =>
      if NoDup(groups) && (groups != [] ==> name in t.peers)
      then Some(t.(groups := t.groups + AsSet(groups), members := Assigned(t.members, name, groups)))
      else None
    case SetAllowed(name, groups) =>
      if NoDup(groups) && (groups != [] ==> name in t.peers)
      then Some(t.(groups := t.groups + AsSet(groups), allowed := Assigned(t.allowed, name, groups)))
      else None
    case CreateGroup(name) =>
      if TrimSpace(name) == "" || TrimSpace(name) in t.groups then None
      else Some(t.(groups := t.groups + {TrimSpace(name)}))
    case DeleteGroup(name) =>
      if name in t.groups then Some(GroupDeleted(t, name)) else None
    case RenameGroup(old', new') =>
      var o, n := TrimSpace(old'), TrimSpace(new');
      if n == "" || o !in t.groups || (o != n && n in t.groups) then None
      else Some(GroupRenamed(t, o, n))
    case Bump => Some(t.(rev := t.rev + 1))
  }

  // ---- Interleavings ----

  /** One transaction of a run and whether it committed. A refused or failed one leaves the database as it was. */
  datatype Event = Event(txn: Txn, committed: bool)

  ghost predicate Happens(t: Tables, e: Event) {
    e.committed ==> Apply(t, e.txn).Some?
  }

  ghost function Next(t: Tables, e: Event): Tables {
    if e.committed && Apply(t, e.txn).Some? then Apply(t, e.txn).value else t
  }

  ghost predicate Run(t: Tables, es: seq<Event>)
    decreases |es|
  {
    es == [] || (Happens(t, es[0]) && Run(Next(t, es[0]), es[1..]))
  }

  ghost function After(t: Tables, es: seq<Event>): Tables
    decreases |es|
  {
    if es == [] then t else After(Next(t, es[0]), es[1..])
  }

  /** Foreign keys: memberships are of peers and groups that exist. */
  ghost predicate LinkedTable(t: Tables, table: set<Membership>) {
    forall m :: m in table ==> m.peer in t.peers && m.group in t.groups
  }

  ghost predicate Linked(t: Tables) {
    LinkedTable(t, t.members) && LinkedTable(t, t.allowed)
  }

  /** No staged material and no bundle outlives a redeem. */
  ghost predicate SpentClean(t: Tables) {
    forall k :: k in t.tokens && t.tokens[k].consumed ==> t.tokens[k] == Spent(t.tokens[k])
  }

  ghost predicate Pending(t: Tables, tok: string) {
    tok in t.tokens && !t.tokens[tok].consumed && t.tokens[tok].stagedKey.Some?
  }

  /** A peer has at most one unconsumed staged token. */
  ghost predicate OneStaged(t: Tables) {
    forall a, b :: Pending(t, a) && Pending(t, b) && t.tokens[a].peer == t.tokens[b].peer ==> a == b
  }

  ghost predicate Sound(t: Tables) {
    Linked(t) && SpentClean(t) && OneStaged(t)
  }

  lemma ApplyKeepsLinks(t: Tables, txn: Txn)
    requires Linked(t) && Apply(t, txn).Some?
    ensures Linked(Apply(t, txn).value)
  {
  }

  lemma ApplyKeepsClean(t: Tables, txn: Txn)
    requires SpentClean(t) && Apply(t, txn).Some?
    ensures SpentClean(Apply(t, txn).value)
  {
  }

  lemma ApplyKeepsOneStaged(t: Tables, txn: Txn)
    requires OneStaged(t) && Apply(t, txn).Some?
    ensures OneStaged(Apply(t, txn).value)
  {
    if txn.MintAgain? {
      MintKeepsOneStaged(t, txn);
    } else {
      forall k | Pending(Apply(t, txn).value, k)
        ensures Pending(t, k) && t.tokens[k].peer == Apply(t, txn).value.tokens[k].peer
      {
        PendingBefore(t, txn, k);
      }
    }
  }

  lemma PendingBefore(t: Tables, txn: Txn, k: string)
    requires Apply(t, txn).Some? && !txn.MintAgain? && Pending(Apply(t, txn).value, k)
    ensures Pending(t, k) && t.tokens[k].peer == Apply(t, txn).value.tokens[k].peer
  {
  }

  lemma MintKeepsOneStaged(t: Tables, txn: Txn)
    requires OneStaged(t) && txn.MintAgain? && Apply(t, txn).Some?
    ensures OneStaged(Apply(t, txn).value)
  {
    var t' := Apply(t, txn).value;
    forall a | Pending(t', a) && t'.tokens[a].peer == txn.staged.peer
      ensures a == txn.tok
    {
    }
  }

  /** Every interleaving keeps the foreign keys, clean spent tokens and single staged tokens. */
  lemma {:induction false} RunKeepsSound(t: Tables, es: seq<Event>)
    requires Sound(t) && Run(t, es)
    ensures Sound(After(t, es))
    decreases |es|
  {
    if es != [] {
      if es[0].committed {
        ApplyKeepsLinks(t, es[0].txn);
        ApplyKeepsClean(t, es[0].txn);
        ApplyKeepsOneStaged(t, es[0].txn);
      }
      RunKeepsSound(Next(t, es[0]), es[1..]);
    }
  }

  // ---- Single use ----

  predicate Mints(txn: Txn, tok: string) {
    (txn.MintNew? || txn.MintAgain?) && txn.tok == tok
  }

  predicate Redeems(e: Event, tok: string) {
    e.committed && e.txn == Redeem(tok)
  }

  predicate Gone(t: Tables, tok: string) {
    tok in t.tokens ==> t.tokens[tok].consumed
  }

  lemma StaysGone(t: Tables, e: Event, tok: string)
    requires Gone(t, tok) && Happens(t, e) && !(e.committed && Mints(e.txn, tok))
    ensures Gone(Next(t, e), tok) && !Redeems(e, tok)
  {
  }

  lemma {:induction false} GoneUntilMinted(t: Tables, es: seq<Event>, j: nat, tok: string)
    requires Run(t, es) && Gone(t, tok) && j < |es| && Redeems(es[j], tok)
    ensures exists m :: 0 <= m < j && es[m].committed && Mints(es[m].txn, tok)
    decreases |es|
  {
    if !(es[0].committed && Mints(es[0].txn, tok)) {
      StaysGone(t, es[0], tok);
      GoneUntilMinted(Next(t, es[0]), es[1..], j - 1, tok);
      var m :| 0 <= m < j - 1 && es[1..][m].committed && Mints(es[1..][m].txn, tok);
      assert es[m + 1] == es[1..][m];
    }
  }

  /** A token is redeemed at most once per mint, whatever runs in between. */
  lemma {:induction false} RedeemOnce(t: Tables, es: seq<Event>, i: nat, j: nat, tok: string)
    requires Run(t, es) && i < j < |es| && Redeems(es[i], tok) && Redeems(es[j], tok)
    ensures exists m :: i < m < j && es[m].committed && Mints(es[m].txn, tok)
    decreases |es|
  {
    var rest := es[1..];
    var m: int;
    if i > 0 {
      RedeemOnce(Next(t, es[0]), rest, i - 1, j - 1, tok);
      m :| i - 1 < m < j - 1 && rest[m].committed && Mints(rest[m].txn, tok);
    } else {
      GoneUntilMinted(Next(t, es[0]), rest, j - 1, tok);
      m :| 0 <= m < j - 1 && rest[m].committed && Mints(rest[m].txn, tok);
    }
    assert es[m + 1] == rest[m];
  }

  /** The peer's row takes the staged material; an address only if one was staged. */
  ghost predicate TakesStaged(r: TokenRow, row: PeerRow, row': PeerRow) {
    && Some(row'.key) == r.stagedKey && row'.cert == r.stagedCert && row'.serial == r.stagedSerial
    && row'.pullToken == r.stagedPull && row'.inbound == r.stagedInbound
    && row'.address == (if r.stagedAddress == "" then row.address else r.stagedAddress)
    && row'.user == row.user && row'.revoked == row.revoked && row'.reachable == row.reachable
  }

  /**
   What a redeem touches: its own token, and for a staged one the row and memberships of its peer,
   which is not revoked and whose groups all exist; and what it writes there.
   */
  lemma RedeemScope(t: Tables, tok: string)
    requires Redeemable(t, tok)
    ensures var r, t' := t.tokens[tok], Redeemed(t, tok);
            && t'.groups == t.groups && t'.peers.Keys == t.peers.Keys
            && t'.tokens[tok] == TokenRow(r.peer, r.groups, true, r.user, None, None, 0, None, "", r.stagedInbound, "",
                                          None)
            && (forall p :: p in t.peers && (p != r.peer || r.stagedKey.None? || t.peers[p].revoked) ==>
                  && t'.peers[p] == t.peers[p]
                  && GroupsOf(t'.members, p) == GroupsOf(t.members, p)
                  && GroupsOf(t'.allowed, p) == GroupsOf(t.allowed, p))
            && (forall o :: o != tok ==> (o in t'.tokens <==> o in t.tokens)
                                         && (o in t.tokens ==> t'.tokens[o] == t.tokens[o]))
            && (r.stagedKey.None? ==> t' == t.(tokens := t'.tokens))
            && (r.stagedKey.Some? ==>
                  && AsSet(GroupList(r.groups)) <= t.groups
                  && GroupsOf(t'.members, r.peer) == AsSet(GroupList(r.groups))
                  && TakesStaged(r, t.peers[r.peer], t'.peers[r.peer]) && t'.rev == t.rev + 1
                  && GroupsOf(t'.allowed, r.peer) ==
                     (if !r.stagedInbound then {}
                      else if r.stagedAllowed.Some? then AsSet(GroupList(r.stagedAllowed.value))
                      else if !t.peers[r.peer].inbound then AsSet(GroupList(r.groups))
                      else GroupsOf(t.allowed, r.peer)))
  {
    var r := t.tokens[tok];
    if r.stagedKey.Some? {
      var allowed := NewAllowed(r, t.peers[r.peer].inbound);
      forall p
        ensures GroupsOf(Redeemed(t, tok).members, p) == if p == r.peer then AsSet(GroupList(r.groups))
                else GroupsOf(t.members, p)
        ensures p != r.peer ==> GroupsOf(Redeemed(t, tok).allowed, p) == GroupsOf(t.allowed, p)
      {
        AssignedGroups(t.members, r.peer, GroupList(r.groups), p);
        if allowed.Some? {
          AssignedGroups(t.allowed, r.peer, allowed.value, p);
        }
      }
    }
  }

  /** A deleted peer leaves its row, its memberships and its tokens, and nothing else changes. */
  lemma DeleteScope(t: Tables, name: string)
    requires name in t.peers
    ensures Apply(t, Delete(name)).Some?
    ensures var t' := Apply(t, Delete(name)).value;
            && t'.groups == t.groups && t'.rev == t.rev
            && (forall p :: p in t'.peers <==> p in t.peers && p != name)
            && (forall p :: p in t'.peers ==> t'.peers[p] == t.peers[p])
            && (forall p :: GroupsOf(t'.members, p) == if p == name then {} else GroupsOf(t.members, p))
            && (forall p :: GroupsOf(t'.allowed, p) == if p == name then {} else GroupsOf(t.allowed, p))
            && (forall k :: k in t'.tokens <==> k in t.tokens && t.tokens[k].peer != name)
            && (forall k :: k in t'.tokens ==> t'.tokens[k] == t.tokens[k])
  {
    forall p
      ensures GroupsOf(WithoutPeer(t.members, name), p) == if p == name then {} else GroupsOf(t.members, p)
      ensures GroupsOf(WithoutPeer(t.allowed, name), p) == if p == name then {} else GroupsOf(t.allowed, p)
    {
      AssignedGroups(t.members, name, [], p);
      AssignedGroups(t.allowed, name, [], p);
      assert Assigned(t.members, name, []) == WithoutPeer(t.members, name);
      assert Assigned(t.allowed, name, []) == WithoutPeer(t.allowed, name);
    }
  }
}
