/** Minting an enrollment and redeeming it. */
module Enroll {
  import opened Wrappers
  import opened Text
  import opened Names
  import opened Principals
  import opened AuthorizedKeys
  import opened TrustLaws
  import opened SshConfig
  import opened Tables
  import opened Fate
  import opened Database
  import opened Reachability
  import opened Fleet
  import opened Manager
  import opened RekeyPeers
  import opened CertLists
  import opened Revoke

  datatype EnrollSpec = EnrollSpec(
    name: string, groups: seq<string>, allowed: seq<string>, user: string, address: string,
    client: bool, clientSet: bool, allowedSet: bool)

  /** What an enrollment comes down to once unset fields took the peer's current configuration. */
  datatype Resolved = Resolved(groups: seq<string>, allowed: seq<string>, client: bool, user: string)

  function Resolve(t: Tables, spec: EnrollSpec): Resolved {
    if spec.name !in t.peers then Resolved(spec.groups, spec.allowed, spec.client, spec.user)
    else
      var row := t.peers[spec.name];
      var client := if spec.clientSet then spec.client else !row.inbound;
      var groups := if spec.groups == [] then GroupsList(t, spec.name) else spec.groups;
      var allowed :=
        if spec.allowedSet then spec.allowed
        else if row.inbound && !client then AllowedList(t, spec.name)
        else groups;
      Resolved(groups, allowed, client, if spec.user == "" then row.user else spec.user)
  }

  /** The defaulting table of MintEnroll; None when there are no groups to enroll with. */
  method Defaults(d: Deps, spec: EnrollSpec) returns (r: Option<Resolved>)
    ensures r.Some? ==> r.value == Resolve(d.db.rows, spec) && r.value.groups != []
    ensures r.None? && Sure(d.db.fate, Statement) ==> forall tok :: !Mintable(d.db.rows, spec, tok)
  {
    Groupless(d.db.rows, spec);
    var groups, allowed, client, user := spec.groups, spec.allowed, spec.client, spec.user;
    if spec.name !in d.db.rows.peers {
      if |spec.groups| == 0 {
        return None;
      }
    } else {
      var existing := d.db.rows.peers[spec.name];
      if !spec.clientSet {
        client := !existing.inbound;
      }
      if |groups| == 0 {
        var ok := d.db.Exec();
        if !ok {
          return None;
        }
        groups := GroupsList(d.db.rows, spec.name);
        if |groups| == 0 {
          return None;
        }
      }
      if user == "" {
        user := existing.user;
      }
      if spec.allowedSet {
        allowed := spec.allowed;
      } else if existing.inbound && !client {
        var ok := d.db.Exec();
        if !ok {
          return None;
        }
        allowed := AllowedList(d.db.rows, spec.name);
      } else {
        allowed := groups;
      }
    }
    return Some(Resolved(groups, allowed, client, user));
  }

  lemma Groupless(t: Tables, spec: EnrollSpec)
    ensures Resolve(t, spec).groups == [] ==> forall tok :: !Mintable(t, spec, tok)
  {
    OrderedIs(GroupsOf(t.members, spec.name));
    if Resolve(t, spec).groups == [] && spec.name in t.peers {
      assert forall g :: g !in GroupsOf(t.members, spec.name);
    }
  }

  lemma ResolvePlain(t: Tables, spec: EnrollSpec)
    requires Linked(t) && PlainGroups(t) && PlainNames(spec.groups) && PlainNames(spec.allowed)
    ensures PlainNames(Resolve(t, spec).groups) && PlainNames(Resolve(t, spec).allowed)
  {
    AllowedPlain(t, spec.name);
  }

  /** The row a new peer gets. */
  function NewRow(spec: EnrollSpec, r: Resolved, cert: Cert, key: string, pullToken: string): PeerRow {
    PeerRow(Some(cert), cert.serial, key, false, r.user, spec.address, !r.client, pullToken, true)
  }

  function Chosen(spec: EnrollSpec, r: Resolved): Option<seq<string>> {
    if spec.allowedSet then Some(r.allowed) else None
  }

  /** The token row of a re-enroll. */
  function StagedToken(spec: EnrollSpec, r: Resolved, cert: Cert, key: string, pullToken: string,
                       bundle: Bundle): TokenRow {
    TokenRow(spec.name, JoinCSV(r.groups), false, r.user, Some(bundle), Some(key), cert.serial, Some(cert), pullToken,
             !r.client, spec.address, if spec.allowedSet then Some(JoinCSV(r.allowed)) else None)
  }

  /** The transaction that a mint from database t commits. */
  ghost function MintTxn(t: Tables, spec: EnrollSpec, tok: string, cert: Cert, key: string, pullToken: string,
                         bundle: Bundle): Txn {
    var r := Resolve(t, spec);
    if spec.name in t.peers
      then MintAgain(tok, r.groups, Chosen(spec, r), StagedToken(spec, r, cert, key, pullToken, bundle))
    else MintNew(tok, spec.name, NewRow(spec, r, cert, key, pullToken), r.groups, r.allowed, spec.allowedSet, bundle)
  }

  /** What the bundle of a mint from t carries. */
  ghost predicate MintBundle(t: Tables, spec: EnrollSpec, k: PublicKey, cert: Cert, key: string, bundle: Bundle) {
    var r := Resolve(t, spec);
    && cert == Cert(k, cert.serial, spec.name, CertList(spec.name, r.groups, false), key)
    && bundle == Bundle(cert, k, r.allowed, r.client, r.user,
                        ReachableHosts(WithGroups(t, spec.name, r.groups), spec.name))
  }

  /** What both kinds of mint hand out: a certificate for the groups gs, and a bundle that carries it. */
  ghost predicate HandsOut(bundle: Bundle, spec: EnrollSpec, gs: set<string>, k: PublicKey, key: string) {
    && bundle.ca == k && bundle.cert.issuer == k && bundle.cert.subject == key && bundle.cert.keyId == spec.name
    && ListsExactly(bundle.cert, spec.name, gs)
  }

  /**
   A mint for a peer already there changes the tokens alone: every other unconsumed token of the peer goes, and
   tok stages the peer's configuration with the chosen parts exchanged.
   */
  ghost predicate Restaged(t: Tables, t': Tables, spec: EnrollSpec, tok: string, k: PublicKey, key: string,
                           pullToken: string, bundle: Bundle)
    requires spec.name in t.peers
  {
    && t' == t.(tokens := t'.tokens) && tok in t'.tokens
    && (forall o :: o != tok ==> (o in t'.tokens <==>
          o in t.tokens && (t.tokens[o].peer != spec.name || t.tokens[o].consumed)))
    && (forall o :: o != tok && o in t'.tokens && o in t.tokens ==> t'.tokens[o] == t.tokens[o])
    && RestagedRow(t, spec, key, pullToken, t'.tokens[tok], bundle)
    && HandsOut(bundle, spec, AsSet(GroupList(t'.tokens[tok].groups)), k, key)
  }

  /** The staged row s of such a mint, field by field. */
  ghost predicate RestagedRow(t: Tables, spec: EnrollSpec, key: string, pullToken: string, s: TokenRow, bundle: Bundle)
    requires spec.name in t.peers
  {
    var row := t.peers[spec.name];
    && s.peer == spec.name && !s.consumed && s.bundle == Some(bundle)
    && s.stagedKey == Some(key) && s.stagedCert == Some(bundle.cert) && s.stagedSerial == bundle.cert.serial
    && s.stagedPull == pullToken && s.stagedAddress == spec.address
    && s.stagedInbound == (if spec.clientSet then !spec.client else row.inbound)
    && bundle.noInbound == !s.stagedInbound
    && s.user == (if spec.user == "" then row.user else spec.user) && bundle.user == s.user
    && AsSet(GroupList(s.groups)) ==
         (if spec.groups == [] then GroupsOf(t.members, spec.name) else AsSet(spec.groups))
    && (if spec.allowedSet then s.stagedAllowed.Some? && GroupList(s.stagedAllowed.value) == spec.allowed
        else s.stagedAllowed == None)
    && AsSet(bundle.principals) ==
         (if spec.allowedSet then AsSet(spec.allowed)
          else if row.inbound && s.stagedInbound then GroupsOf(t.allowed, spec.name)
          else AsSet(GroupList(s.groups)))
  }

  /** A mint for a new name adds its row, its memberships, the allowed groups of an inbound peer, and a plain token. */
  ghost predicate Opened(t: Tables, t': Tables, spec: EnrollSpec, tok: string, k: PublicKey, key: string,
                         pullToken: string, bundle: Bundle)
  {
    && t'.peers == t.peers[spec.name := PeerRow(Some(bundle.cert), bundle.cert.serial, key, false, spec.user,
                                                spec.address, !spec.client, pullToken, true)]
    && (forall p :: p != spec.name ==> GroupsOf(t'.members, p) == GroupsOf(t.members, p)
                                       && GroupsOf(t'.allowed, p) == GroupsOf(t.allowed, p))
    && GroupsOf(t'.members, spec.name) == AsSet(spec.groups)
    && GroupsOf(t'.allowed, spec.name) == (if spec.client then {} else AsSet(spec.allowed))
    && t'.groups == t.groups + (if spec.client then {} else AsSet(spec.allowed)) && t'.rev == t.rev + 1
    && tok !in t.tokens
    && t'.tokens == t.tokens[tok := TokenRow(spec.name, JoinCSV(spec.groups), false, spec.user, Some(bundle), None, 0,
                                             None, "", false, "", None)]
    && bundle.noInbound == spec.client && bundle.user == spec.user && bundle.principals == spec.allowed
    && HandsOut(bundle, spec, AsSet(spec.groups), k, key)
  }

  /** What a committed mint comes to. */
  ghost predicate Minting(t: Tables, t': Tables, spec: EnrollSpec, tok: string, k: PublicKey, key: string,
                          pullToken: string, bundle: Bundle)
  {
    if spec.name in t.peers then Restaged(t, t', spec, tok, k, key, pullToken, bundle)
    else Opened(t, t', spec, tok, k, key, pullToken, bundle)
  }

  /** What the database must look like for a mint to go through. */
  ghost predicate Mintable(t: Tables, spec: EnrollSpec, tok: string) {
    && (spec.allowedSet ==> Known(t, spec.allowed))
    && if spec.name in t.peers
       then && !t.peers[spec.name].revoked && Known(t, spec.groups)
            && (spec.groups != [] || GroupsOf(t.members, spec.name) != {})
            && (tok in t.tokens ==> t.tokens[tok].peer == spec.name && !t.tokens[tok].consumed)
       else && spec.groups != [] && Fits(t, spec.groups) && (!spec.client ==> NoDup(spec.allowed))
            && tok !in t.tokens
  }

  lemma MintableIs(t: Tables, spec: EnrollSpec, tok: string, cert: Cert, key: string, pullToken: string,
                   bundle: Bundle)
    requires Linked(t)
    ensures Mintable(t, spec, tok) <==>
            && Resolve(t, spec).groups != [] && (spec.name in t.peers ==> !t.peers[spec.name].revoked)
            && Apply(t, MintTxn(t, spec, tok, cert, key, pullToken, bundle)).Some?
  {
    OrderedIs(GroupsOf(t.members, spec.name));
    forall g | g in GroupsOf(t.members, spec.name)
      ensures g in t.groups
    {
      assert Membership(spec.name, g) in t.members;
    }
    assert GroupsOf(t.members, spec.name) != {} <==> GroupsList(t, spec.name) != [] by {
      if GroupsList(t, spec.name) != [] {
        assert GroupsList(t, spec.name)[0] in GroupsList(t, spec.name);
      }
    }
  }

  lemma MintRestages(t: Tables, spec: EnrollSpec, tok: string, k: PublicKey, cert: Cert, key: string,
                     pullToken: string, bundle: Bundle)
    requires PlainNames(Resolve(t, spec).groups) && PlainNames(Resolve(t, spec).allowed)
    requires spec.name in t.peers && MintBundle(t, spec, k, cert, key, bundle)
    requires Apply(t, MintTxn(t, spec, tok, cert, key, pullToken, bundle)).Some?
    ensures Restaged(t, Apply(t, MintTxn(t, spec, tok, cert, key, pullToken, bundle)).value, spec, tok, k, key,
                     pullToken, bundle)
  {
    StagedFields(t, spec, k, cert, key, pullToken, bundle);
  }

  lemma StagedFields(t: Tables, spec: EnrollSpec, k: PublicKey, cert: Cert, key: string, pullToken: string,
                     bundle: Bundle)
    requires PlainNames(Resolve(t, spec).groups) && PlainNames(Resolve(t, spec).allowed)
    requires spec.name in t.peers && MintBundle(t, spec, k, cert, key, bundle)
    ensures var s := StagedToken(spec, Resolve(t, spec), cert, key, pullToken, bundle);
            RestagedRow(t, spec, key, pullToken, s, bundle)
              && HandsOut(bundle, spec, AsSet(GroupList(s.groups)), k, key)
  {
    var r := Resolve(t, spec);
    GroupListRoundTrip(r.groups);
    GroupListRoundTrip(r.allowed);
    CertListHas(spec.name, r.groups, false);
    ResolvedSets(t, spec);
  }

  lemma ResolvedSets(t: Tables, spec: EnrollSpec)
    requires spec.name in t.peers
    ensures var r, row := Resolve(t, spec), t.peers[spec.name];
            && AsSet(r.groups) == (if spec.groups == [] then GroupsOf(t.members, spec.name) else AsSet(spec.groups))
            && AsSet(r.allowed) ==
               (if spec.allowedSet then AsSet(spec.allowed)
                else if row.inbound && !r.client then GroupsOf(t.allowed, spec.name) else AsSet(r.groups))
  {
    OrderedIs(GroupsOf(t.members, spec.name));
    OrderedIs(GroupsOf(t.allowed, spec.name));
  }

  lemma MintOpens(t: Tables, spec: EnrollSpec, tok: string, k: PublicKey, cert: Cert, key: string,
                  pullToken: string, bundle: Bundle)
    requires Linked(t) && PlainNames(spec.groups) && PlainNames(spec.allowed)
    requires spec.name !in t.peers && MintBundle(t, spec, k, cert, key, bundle)
    requires Apply(t, MintTxn(t, spec, tok, cert, key, pullToken, bundle)).Some?
    ensures Opened(t, Apply(t, MintTxn(t, spec, tok, cert, key, pullToken, bundle)).value, spec, tok, k, key,
                   pullToken, bundle)
  {
    CertListHas(spec.name, spec.groups, false);
    forall p
      ensures GroupsOf(Assigned(t.members, spec.name, spec.groups), p) ==
              if p == spec.name then AsSet(spec.groups) else GroupsOf(t.members, p)
      ensures GroupsOf(Assigned(t.allowed, spec.name, spec.allowed), p) ==
              if p == spec.name then AsSet(spec.allowed) else GroupsOf(t.allowed, p)
    {
      AssignedGroups(t.members, spec.name, spec.groups, p);
      AssignedGroups(t.allowed, spec.name, spec.allowed, p);
    }
    forall g
      ensures g !in GroupsOf(t.allowed, spec.name)
    {
      assert Membership(spec.name, g) !in t.allowed;
    }
  }

  lemma MintDoes(t: Tables, spec: EnrollSpec, tok: string, k: PublicKey, cert: Cert, key: string,
                 pullToken: string, bundle: Bundle)
    requires Linked(t) && PlainGroups(t) && PlainNames(spec.groups) && PlainNames(spec.allowed)
    requires MintBundle(t, spec, k, cert, key, bundle)
    requires Apply(t, MintTxn(t, spec, tok, cert, key, pullToken, bundle)).Some?
    ensures Minting(t, Apply(t, MintTxn(t, spec, tok, cert, key, pullToken, bundle)).value, spec, tok, k, key,
                    pullToken, bundle)
  {
    ResolvePlain(t, spec);
    if spec.name in t.peers {
      MintRestages(t, spec, tok, k, cert, key, pullToken, bundle);
    } else {
      MintOpens(t, spec, tok, k, cert, key, pullToken, bundle);
    }
  }

  /** Everything a mint asks the environment for is known to work. */
  predicate MintSure(fate: Fates) {
    Sure(fate, Statement) && Sure(fate, Addresses) && Sure(fate, Unlocking) && Sure(fate, Signing)
  }

  predicate MintBalks(fate: Fates) {
    Sunk(fate, Statement) || Sunk(fate, Addresses) || Sunk(fate, Unlocking) || Sunk(fate, Signing)
  }

  /** A minted enrollment: all its randomness, and what was built of it. */
  datatype Minted = Minted(cert: Cert, bundle: Bundle)

  /**
   ops.MintEnroll. tok, pullToken and key are what generation will come up with. A success commits one
   transaction, which signs for exactly the groups it stages; a failure changes no row.
   */
  method MintEnroll(d: Deps, spec: EnrollSpec, tok: string, pullToken: string, key: string)
    returns (ok: bool, ghost m: Option<Minted>)
    requires d.Valid() && PlainNames(spec.groups) && PlainNames(spec.allowed)
    modifies d`issued, d`bundles, d`log, d.db
    ensures d.Valid()
    ensures !ok ==> d.db.rows == old(d.db.rows)
    ensures ok ==> m.Some? && "ca" in d.dirs && d.dirs["ca"].Keyed?
                   && MintBundle(old(d.db.rows), spec, d.dirs["ca"].key, m.value.cert, key, m.value.bundle)
                   && var txn := MintTxn(old(d.db.rows), spec, tok, m.value.cert, key, pullToken, m.value.bundle);
                      Whole(txn) && Apply(old(d.db.rows), txn) == Some(d.db.rows)
    ensures ok ==> Minting(old(d.db.rows), d.db.rows, spec, tok, d.dirs["ca"].key, key, pullToken, m.value.bundle)
    ensures ok ==> spec.name != d.selfName && !MintBalks(d.fate)
    ensures MintSure(d.fate) && CanSign(d.dirs) ==>
              (ok <==> Mintable(old(d.db.rows), spec, tok) && spec.name != d.selfName
                       && (d.selfCert.Some? && spec.name in old(d.db.rows).peers ==>
                           d.selfCert.value.keyId != spec.name))
    ensures ok && spec.name in old(d.db.rows).peers ==>
              !old(d.db.rows).peers[spec.name].revoked && d.db.rows.peers == old(d.db.rows).peers
              && (d.selfCert.Some? ==> d.selfCert.value.keyId != spec.name)
  {
    m := None;
    var validAddress := Try(d.fate, Addresses);
    if !validAddress {
      return false, None;
    }
    ok := d.db.Exec();
    if !ok {
      return false, None;
    }
    if spec.name in d.db.rows.peers {
      ok := GuardNotSelfPeer(d, spec.name, "");
      if !ok || (d.selfCert.Some? && d.selfCert.value.keyId == spec.name) {
        return false, None;
      }
      if d.db.rows.peers[spec.name].revoked {
        return false, None;
      }
    }
    var resolved := Defaults(d, spec);
    if resolved.None? {
      return false, None;
    }
    var unlocked := Try(d.fate, Unlocking);
    if !unlocked || "ca" !in d.dirs || d.dirs["ca"].Partial? {
      return false, None;
    }
    ok, m := Stage(d, spec, resolved.value, tok, pullToken, key);
  }

  /** The second half: sign, build the bundle, stage. */
  method Stage(d: Deps, spec: EnrollSpec, r: Resolved, tok: string, pullToken: string, key: string)
    returns (ok: bool, ghost m: Option<Minted>)
    requires d.Valid() && PlainNames(spec.groups) && PlainNames(spec.allowed)
    requires "ca" in d.dirs && d.dirs["ca"].Keyed? && r == Resolve(d.db.rows, spec) && r.groups != []
    requires spec.name in d.db.rows.peers ==> !d.db.rows.peers[spec.name].revoked
    requires spec.name in d.db.rows.peers ==> spec.name != d.selfName
    modifies d`issued, d`bundles, d`log, d.db
    ensures d.Valid()
    ensures !ok ==> d.db.rows == old(d.db.rows)
    ensures (MintSure(d.fate) && Mintable(old(d.db.rows), spec, tok) ==> ok)
            && (ok ==> Mintable(old(d.db.rows), spec, tok))
    ensures ok ==> !Sunk(d.fate, Statement) && !Sunk(d.fate, Signing)
    ensures ok ==> m.Some? && spec.name != d.selfName
                   && MintBundle(old(d.db.rows), spec, d.dirs["ca"].key, m.value.cert, key, m.value.bundle)
                   && var txn := MintTxn(old(d.db.rows), spec, tok, m.value.cert, key, pullToken, m.value.bundle);
                      Whole(txn) && Apply(old(d.db.rows), txn) == Some(d.db.rows)
    ensures ok ==> Minting(old(d.db.rows), d.db.rows, spec, tok, d.dirs["ca"].key, key, pullToken, m.value.bundle)
  {
    m := None;
    d.Sane();
    ResolvePlain(d.db.rows, spec);
    ghost var k := d.dirs["ca"].key;
    var packed := Prepare(d, spec, r, key);
    if packed.None? {
      return false, None;
    }
    var cert, bundle := packed.value.cert, packed.value.bundle;
    MintIsWhole(d.db.rows, spec, tok, k, cert, key, pullToken, bundle);
    MintableIs(d.db.rows, spec, tok, cert, key, pullToken, bundle);
    if spec.name in d.db.rows.peers {
      ok := d.StageReenroll(tok, r.groups, Chosen(spec, r), StagedToken(spec, r, cert, key, pullToken, bundle));
    } else {
      ok := d.StageNew(tok, spec.name, NewRow(spec, r, cert, key, pullToken), r.groups, r.allowed, spec.allowedSet,
                       bundle);
    }
    if ok {
      MintDoes(old(d.db.rows), spec, tok, k, cert, key, pullToken, bundle);
    }
    return ok, Some(Minted(cert, bundle));
  }

  /** Signs the certificate and builds the bundle. */
  method Prepare(d: Deps, spec: EnrollSpec, r: Resolved, key: string) returns (m: Option<Minted>)
    requires d.Valid() && "ca" in d.dirs && d.dirs["ca"].Keyed? && r == Resolve(d.db.rows, spec)
    modifies d`issued, d`bundles, d`log
    ensures d.Valid()
    ensures m.Some? ==> MintBundle(d.db.rows, spec, d.dirs["ca"].key, m.value.cert, key, m.value.bundle)
                        && m.value.cert in d.issued && m.value.bundle in d.bundles
    ensures Sure(d.fate, Statement) && Sure(d.fate, Signing) ==> m.Some?
    ensures Sunk(d.fate, Signing) ==> m.None?
  {
    d.Sane();
    var k := d.dirs["ca"].key;
    var principals := CertPrincipals(spec.name, r.groups, false);
    var signed := d.SignCert(k, spec.name, principals, key);
    if signed.Err? {
      return None;
    }
    var hosts := ReachableHostEntries(d.db, spec.name, r.groups);
    if hosts.Err? {
      return None;
    }
    var bundle := Bundle(signed.value, k, r.allowed, r.client, r.user, hosts.value);
    d.Pack(bundle);
    return Some(Minted(signed.value, bundle));
  }

  lemma MintIsWhole(t: Tables, spec: EnrollSpec, tok: string, k: PublicKey, cert: Cert, key: string, pullToken: string,
                    bundle: Bundle)
    requires PlainNames(Resolve(t, spec).groups)
    requires cert == Cert(k, cert.serial, spec.name, CertList(spec.name, Resolve(t, spec).groups, false), key)
    ensures Whole(MintTxn(t, spec, tok, cert, key, pullToken, bundle))
  {
    CertListHas(spec.name, Resolve(t, spec).groups, false);
    GroupListRoundTrip(Resolve(t, spec).groups);
  }

  // ---- Mint time and redeem time ----

  /** The trust line of a bundle lists exactly the manager and what the database allows; a client's has none. */
  ghost predicate LineAgrees(t: Tables, name: string, bundle: Bundle) {
    && name in t.peers && t.peers[name].inbound == !bundle.noInbound
    && (bundle.noInbound ==> GroupsOf(t.allowed, name) == {})
    && (!bundle.noInbound ==> forall x :: x in WithManager(bundle.principals) <==>
        x == MANAGER || x in GroupsOf(t.allowed, name))
  }

  lemma LineLists(ps: seq<string>)
    requires PlainNames(ps)
    ensures forall x :: x in WithManager(ps) <==> x == MANAGER || x in AsSet(ps)
  {
    WithManagerLists(ps);
  }

  /**
   The trust line built at mint time is the one the redeem's allowed set calls for, whatever else happened in
   between, if the peer's inbound flag and allowed set were left alone.
   */
  lemma MintRedeemAgree(t0: Tables, t: Tables, spec: EnrollSpec, tok: string, k: PublicKey, cert: Cert, key: string,
                        pullToken: string, bundle: Bundle)
    requires Linked(t0) && PlainGroups(t0) && PlainNames(spec.groups) && PlainNames(spec.allowed)
    requires spec.name in t0.peers && MintBundle(t0, spec, k, cert, key, bundle)
    requires tok in t.tokens && t.tokens[tok] == StagedToken(spec, Resolve(t0, spec), cert, key, pullToken, bundle)
    requires Redeemable(t, tok)
    requires t.peers[spec.name].inbound == t0.peers[spec.name].inbound
    requires GroupsOf(t.allowed, spec.name) == GroupsOf(t0.allowed, spec.name)
    ensures LineAgrees(Redeemed(t, tok), spec.name, bundle)
    ensures ListsExactly(bundle.cert, spec.name, GroupsOf(Redeemed(t, tok).members, spec.name))
    ensures Redeemed(t, tok).peers[spec.name].cert == Some(bundle.cert)
  {
    var r, row := Resolve(t0, spec), t.tokens[tok];
    ResolvePlain(t0, spec);
    GroupListRoundTrip(r.groups);
    GroupListRoundTrip(r.allowed);
    CertListHas(spec.name, r.groups, false);
    AssignedGroups(t.members, spec.name, r.groups, spec.name);
    LineLists(r.allowed);
    var allowed := NewAllowed(row, t.peers[spec.name].inbound);
    if allowed.Some? {
      AssignedGroups(t.allowed, spec.name, allowed.value, spec.name);
    } else {
      OrderedIs(GroupsOf(t0.allowed, spec.name));
    }
  }

  /** The spec that names a peer and sets no option. */
  predicate Bare(spec: EnrollSpec) {
    && spec.groups == [] && spec.user == "" && spec.address == "" && !spec.clientSet && !spec.allowedSet
  }

  /**
   Minting for a peer with no option set and redeeming leaves its configuration as it was, except that the
   groups allowed into a client, if any are left, are cleared.
   */
  lemma BareReenroll(t0: Tables, t1: Tables, t: Tables, spec: EnrollSpec, tok: string, k: PublicKey, key: string,
                     pullToken: string, bundle: Bundle)
    requires Bare(spec) && spec.name in t0.peers && Restaged(t0, t1, spec, tok, k, key, pullToken, bundle)
    requires Redeemable(t, tok) && t.tokens[tok] == t1.tokens[tok] && t.peers[spec.name] == t0.peers[spec.name]
    requires GroupsOf(t.allowed, spec.name) == GroupsOf(t0.allowed, spec.name)
    ensures var t', row := Redeemed(t, tok), t0.peers[spec.name];
            && spec.name in t'.peers
            && t'.peers[spec.name] == row.(key := key, cert := Some(bundle.cert), serial := bundle.cert.serial,
                                           pullToken := pullToken)
            && t'.tokens[tok].user == row.user
            && GroupsOf(t'.members, spec.name) == GroupsOf(t0.members, spec.name)
            && (GroupsOf(t'.allowed, spec.name) == GroupsOf(t0.allowed, spec.name) <==>
                row.inbound || GroupsOf(t0.allowed, spec.name) == {})
  {
    var s := t.tokens[tok];
    AssignedGroups(t.members, spec.name, GroupList(s.groups), spec.name);
    AssignedGroups(t.allowed, spec.name, [], spec.name);
  }

  /** For a new name the agreement holds from the mint on. */
  lemma MintNewAgrees(t0: Tables, spec: EnrollSpec, tok: string, k: PublicKey, cert: Cert, key: string,
                      pullToken: string, bundle: Bundle)
    requires Linked(t0) && PlainNames(spec.groups) && PlainNames(spec.allowed)
    requires spec.name !in t0.peers && MintBundle(t0, spec, k, cert, key, bundle)
    requires Apply(t0, MintTxn(t0, spec, tok, cert, key, pullToken, bundle)).Some?
    ensures LineAgrees(Apply(t0, MintTxn(t0, spec, tok, cert, key, pullToken, bundle)).value, spec.name, bundle)
  {
    var r := Resolve(t0, spec);
    LineLists(r.allowed);
    AssignedGroups(t0.allowed, spec.name, r.allowed, spec.name);
    forall g
      ensures g !in GroupsOf(t0.allowed, spec.name)
    {
      assert Membership(spec.name, g) !in t0.allowed;
    }
  }

  /**
   The hosts in a bundle are those the query lists once the enrollment is in the database, if nothing else changed.
   */
  lemma BundleHostsCurrent(t0: Tables, t: Tables, spec: EnrollSpec, k: PublicKey, cert: Cert, key: string,
                           bundle: Bundle)
    requires MintBundle(t0, spec, k, cert, key, bundle)
    requires forall q :: q != spec.name ==>
               (q in t.peers <==> q in t0.peers) && (q in t.peers ==> t.peers[q] == t0.peers[q])
    requires forall m: Membership :: m.peer != spec.name ==> (m in t.allowed <==> m in t0.allowed)
    requires GroupsOf(t.members, spec.name) == AsSet(Resolve(t0, spec).groups)
    ensures ReachableHosts(t, spec.name) == bundle.hosts
  {
    var p, t1 := spec.name, WithGroups(t0, spec.name, Resolve(t0, spec).groups);
    AssignedGroups(t0.members, p, Resolve(t0, spec).groups, p);
    forall q
      ensures Reaches(t, p, q) <==> Reaches(t1, p, q)
    {
      assert forall g :: Membership(p, g) in t.members <==> g in GroupsOf(t.members, p);
      assert forall g :: Membership(p, g) in t1.members <==> g in GroupsOf(t1.members, p);
      assert q != p ==> (SharesGroup(t, p, q) <==> SharesGroup(t1, p, q));
    }
    assert ReachableNames(t, p) == ReachableNames(t1, p);
    OrderedIs(ReachableNames(t, p));
    OthersEntries(t, t1, p, Ordered(ReachableNames(t, p)));
  }

  lemma {:induction false} OthersEntries(t: Tables, t1: Tables, p: string, names: seq<string>)
    requires forall q :: q != p ==> (q in t.peers <==> q in t1.peers) && (q in t.peers ==> t.peers[q] == t1.peers[q])
    requires p !in names
    ensures Entries(t, names) == Entries(t1, names)
  {
    if names != [] {
      OthersEntries(t, t1, p, names[..|names| - 1]);
    }
  }

  /** So it is right after the mint of a new name, and right after the redeem of a re-enroll. */
  lemma BundleHostsAfter(t0: Tables, spec: EnrollSpec, tok: string, k: PublicKey, cert: Cert, key: string,
                         pullToken: string, bundle: Bundle)
    requires MintBundle(t0, spec, k, cert, key, bundle) && PlainNames(Resolve(t0, spec).groups)
    requires Apply(t0, MintTxn(t0, spec, tok, cert, key, pullToken, bundle)).Some?
    ensures var t := Apply(t0, MintTxn(t0, spec, tok, cert, key, pullToken, bundle)).value;
            && (spec.name !in t0.peers ==> ReachableHosts(t, spec.name) == bundle.hosts)
            && (spec.name in t0.peers && Redeemable(t, tok) ==>
                ReachableHosts(Redeemed(t, tok), spec.name) == bundle.hosts)
  {
    var r, t := Resolve(t0, spec), Apply(t0, MintTxn(t0, spec, tok, cert, key, pullToken, bundle)).value;
    AssignedGroups(t0.members, spec.name, r.groups, spec.name);
    if spec.name !in t0.peers {
      BundleHostsCurrent(t0, t, spec, k, cert, key, bundle);
    } else if Redeemable(t, tok) {
      GroupListRoundTrip(r.groups);
      BundleHostsCurrent(t0, Redeemed(t, tok), spec, k, cert, key, bundle);
    }
  }

  // ---- Redeeming ----

  /** The enroll endpoint: check the user, redeem, record the user and, if none is known, the address. */
  method RedeemEnroll(d: Deps, tok: string, user: string, remote: string) returns (r: Option<Bundle>)
    requires d.Valid()
    modifies d`log, d.db
    ensures d.Valid()
    ensures r.Some? ==> Redeemable(old(d.db.rows), tok) && Some(r.value) == old(d.db.rows).tokens[tok].bundle
                        && UserRecorded(d.db.rows, old(d.db.rows).tokens[tok].peer, user)
    ensures r.Some? && Sure(d.fate, Statement) ==>
              AddressRecorded(Redeemed(old(d.db.rows), tok), d.db.rows, old(d.db.rows).tokens[tok].peer, remote)
    ensures Sure(d.fate, Statement) && Redeemable(old(d.db.rows), tok) && user != ""
            && old(d.db.rows).tokens[tok].user in {"", user}
            && old(d.db.rows).tokens[tok].peer in old(d.db.rows).peers ==>
              r == old(d.db.rows).tokens[tok].bundle
    ensures r.Some? || d.db.rows != old(d.db.rows) ==>
              && Redeemable(old(d.db.rows), tok) && user != "" && old(d.db.rows).tokens[tok].user in {"", user}
              && Placed(Redeemed(old(d.db.rows), tok), d.db.rows, old(d.db.rows).tokens[tok].peer, user, remote)
  {
    var ok := d.db.Exec();
    if !ok || tok !in d.db.rows.tokens {
      return None;
    }
    var row := d.db.rows.tokens[tok];
    if !row.consumed && (user == "" || (row.user != "" && row.user != user)) {
      return None;
    }
    var handed := d.ConsumeToken(tok);
    if handed.Err? {
      return None;
    }
    ok := RecordPlace(d, handed.value.peer, user, remote);
    return if ok then handed.value.bundle else None;
  }

  /** Records the login user and, if there is none yet, the address. */
  method RecordPlace(d: Deps, name: string, user: string, remote: string) returns (ok: bool)
    requires d.Valid()
    modifies d`log, d.db
    ensures d.Valid() && Placed(old(d.db.rows), d.db.rows, name, user, remote)
    ensures ok ==> UserRecorded(d.db.rows, name, user)
    ensures Sure(d.fate, Statement) && name in old(d.db.rows).peers ==>
              ok && AddressRecorded(old(d.db.rows), d.db.rows, name, remote)
  {
    ok := d.SetPeerTargetUser(name, user);
    if !ok {
      return false;
    }
    d.SetPeerAddressIfEmpty(name, remote);
  }

  ghost predicate UserRecorded(t: Tables, name: string, user: string) {
    name in t.peers && t.peers[name].user == user
  }

  /** The address that is there, or else the remote one. */
  ghost predicate AddressRecorded(t: Tables, t': Tables, name: string, remote: string) {
    name in t.peers && name in t'.peers &&
    t'.peers[name].address == (if t.peers[name].address == "" then remote else t.peers[name].address)
  }

  /**
   What recording the place may do: nothing, or name's user becomes the given one, and then an empty address
   may become the remote one; an address that is there stays.
   */
  ghost predicate Placed(t: Tables, t': Tables, name: string, user: string, remote: string) {
    t' == t ||
    (name in t.peers &&
     var row := t.peers[name].(user := user);
     || t' == t.(peers := t.peers[name := row])
     || (row.address == "" && t' == t.(peers := t.peers[name := row.(address := remote)])))
  }
}
