/** Editing one peer: its groups, and the groups it allows. */
module PeerUpdate {
  import opened Wrappers
  import opened Text
  import opened Names
  import opened Principals
  import opened AuthorizedKeys
  import opened TrustLaws
  import opened PrincipalLaws
  import opened SshConfig
  import opened Tables
  import opened Database
  import opened Reachability
  import opened Fleet
  import opened Manager
  import opened Fate
  import opened RekeyPeers
  import opened CertLists
  import opened Revoke
  import opened Groups
  import F = Filters

  /** The account an edit dials: host overrides the recorded address. */
  function DialedAt(name: string, row: PeerRow, host: string): Account {
    Account(if host == "" then DialHost(name, row) else host, HomeOf(row.user))
  }

  /**
   An edit of one peer: a client, one that cannot be dialed back and one that is not there are left alone, any other is
   dialed before the edit succeeds.
   */
  ghost predicate TurnOf(t: Tables, name: string, host: string, hosts: map<Account, Files>, hosts': map<Account, Files>,
                         dialed: seq<string>, dialed': seq<string>, ok: bool) {
    if name !in t.peers then hosts' == hosts && dialed' == dialed && !ok
    else
      var row := t.peers[name];
      Turn(name, row, host, hosts, hosts', dialed, dialed', ok && row.inbound && row.reachable)
  }

  lemma EditIsTurn(name: string, row: PeerRow, host: string, hosts: map<Account, Files>, hosts': map<Account, Files>,
                   dialed: seq<string>, dialed': seq<string>, served: bool)
    requires row.inbound && row.reachable && dialed' == dialed + [DialedAt(name, row, host).host]
    requires OnlyAt(hosts, hosts', DialedAt(name, row, host))
    ensures Turn(name, row, host, hosts, hosts', dialed, dialed', served)
  {
    assert GoesTo(DialedAt(name, row, host), name, row, host);
  }

  /** How far an update came in the database. */
  datatype Progress = Untouched | GroupsOnly | Both(cert: Cert)

  /** The database after SetPeerGroups alone. */
  function Regrouped(t: Tables, name: string, groups: seq<string>): Tables {
    t.(groups := t.groups + AsSet(groups), members := Assigned(t.members, name, groups))
  }

  /** The rows UpdatePeer can leave. */
  ghost predicate UpdateRows(self: string, t: Tables, t': Tables, name: string, groups: seq<string>, at: Progress) {
    match at
    case Untouched => t' == t
    case GroupsOnly => name in t.peers && t' == Regrouped(t, name, groups)
    case Both(cert) => Completes(self, t, Update(name, groups, cert), t')
  }

  lemma UpdateCert(name: string, groups: seq<string>, cert: Cert)
    requires cert.principals == CertList(name, groups, false)
    ensures ListsExactly(cert, name, AsSet(groups))
  {
    CertListHas(name, groups, false);
  }

  /** The database part of UpdatePeer: two separate writes. */
  method StoreUpdate(d: Deps, name: string, groups: seq<string>, k: PublicKey)
    returns (ghost at: Progress, cert: Option<Cert>)
    requires d.Valid() && HasKey(d.dirs, "ca", k) && name != d.selfName && PlainNames(groups) && name in d.db.rows.peers
    modifies d`issued, d`log, d.db
    ensures d.Valid() && UpdateRows(d.selfName, old(d.db.rows), d.db.rows, name, groups, at)
    ensures (cert.Some? <==> at.Both?) && d.db.rows.rev == old(d.db.rows).rev
    ensures cert.Some? ==> NoDup(groups) && !Balks(d.fate)
    ensures Steady(d.fate) && Known(old(d.db.rows), groups) && NoDup(groups) ==> cert.Some?
    ensures cert.Some? ==> at.cert == cert.value && cert.value.issuer == k && Known(old(d.db.rows), groups)
    ensures cert.Some? ==>
              cert.value == Cert(k, cert.value.serial, name, CertList(name, groups, false),
                                 old(d.db.rows).peers[name].key)
  {
    var parsed := Try(d.fate, KeyParsing);
    if !parsed {
      return Untouched, None;
    }
    var principals := CertPrincipals(name, groups, false);
    var signed := d.SignCert(k, name, principals, d.db.rows.peers[name].key);
    if signed.Err? {
      return Untouched, None;
    }
    var checked := d.db.CheckNames(groups);
    if checked.Err? {
      return Untouched, None;
    }
    var ok := d.SetPeerGroupsTable(PeerGroups, name, groups);
    if !ok {
      return Untouched, None;
    }
    UpdateCert(name, groups, signed.value);
    ok := d.SetPeerCert(name, Some(signed.value), signed.value.serial);
    if !ok {
      return GroupsOnly, None;
    }
    return Both(signed.value), Some(signed.value);
  }

  /** The pushed share of an update: the new certificate and the new config block. */
  ghost predicate UpdatePushed(key: string, f: Files, f': Files, cert: Cert, t: Tables, name: string) {
    f' == f.(cert := Some(cert), config := Splice(f.config, key, Block(key, ReachableHosts(t, name))))
  }

  /** No peer can be dialed, what is done there fails, or no statement works. */
  predicate Silent(fate: Fates) {
    Sunk(fate, Dialing) || Sunk(fate, Remote) || Sunk(fate, Statement)
  }

  method PushUpdate(d: Deps, name: string, row: PeerRow, host: string, cert: Cert) returns (ok: bool)
    requires d.Valid()
    modifies d`hosts, d`dialed, d`writes, d`log
    ensures d.Valid()
    ensures OnlyAt(old(d.hosts), d.hosts, DialedAt(name, row, host)) && TrustSame(d.codec, old(d.hosts), d.hosts)
    ensures ok ==> UpdatePushed(d.instanceKey, FilesAt(old(d.hosts), DialedAt(name, row, host)),
                                FilesAt(d.hosts, DialedAt(name, row, host)), cert, d.db.rows, name)
    ensures d.dialed == old(d.dialed) + [DialedAt(name, row, host).host]
    ensures Steady(d.fate) && AllAnswer(d.fate) ==> ok
    ensures Sunk(d.fate, Dialing) ==> d.hosts == old(d.hosts)
    ensures ok ==> !Silent(d.fate)
  {
    var a := DialedAt(name, row, host);
    ok := d.Dial(a.host);
    if !ok {
      return false;
    }
    ok := WriteUpdate(d, name, a, cert);
  }

  /** Once the peer is dialed: its certificate, its config block, a health check. */
  method WriteUpdate(d: Deps, name: string, a: Account, cert: Cert) returns (ok: bool)
    requires d.Valid()
    modifies d`hosts, d`writes, d`log
    ensures d.Valid() && OnlyAt(old(d.hosts), d.hosts, a) && TrustSame(d.codec, old(d.hosts), d.hosts)
    ensures ok ==> UpdatePushed(d.instanceKey, FilesAt(old(d.hosts), a), FilesAt(d.hosts, a), cert, d.db.rows, name)
    ensures Steady(d.fate) && AllAnswer(d.fate) ==> ok
    ensures Sunk(d.fate, Remote) || Sunk(d.fate, Statement) ==> !ok
  {
    ok := PushMemberCert(d, a, cert);
    if !ok {
      return false;
    }
    ok := d.db.Exec();
    if !ok {
      return false;
    }
    var block := V2SshClientBlockWithHosts(d.instanceKey, ReachableHosts(d.db.rows, name));
    ok := PushConfig(d, a, block);
    if !ok {
      return false;
    }
    ok := Try(d.fate, Remote);
  }

  /**
   ops.UpdatePeer. at tells how far the database came: only with both writes does it complete, and then the
   stored certificate lists exactly the name and the new groups.
   */
  method UpdatePeer(d: Deps, name: string, groups: seq<string>, host: string, hostname: string)
    returns (ok: bool, ghost at: Progress)
    requires d.Valid() && (hostname == "" || hostname == d.selfName) && PlainNames(groups)
    modifies d`hosts, d`dialed, d`writes, d`issued, d`log, d.db
    ensures d.Valid() && TrustSame(d.codec, old(d.hosts), d.hosts)
    ensures UpdateRows(d.selfName, old(d.db.rows), d.db.rows, name, groups, at)
    ensures ok ==> at.Both? && name != d.selfName && name in old(d.db.rows).peers && !old(d.db.rows).peers[name].revoked
                   && Known(old(d.db.rows), groups)
    ensures name == d.selfName ==> !ok && d.Now() == old(d.Now())
    ensures ok || d.dialed != old(d.dialed) ==> d.db.rows.rev == old(d.db.rows).rev + 1
    ensures Steady(d.fate) && Sure(d.fate, Unlocking) && AllAnswer(d.fate) && CanSign(d.dirs) ==>
              (ok <==> name != d.selfName && name in old(d.db.rows).peers && !old(d.db.rows).peers[name].revoked
                       && Known(old(d.db.rows), groups) && NoDup(groups))
    ensures ok ==> !Balks(d.fate) && !Sunk(d.fate, Unlocking)
    ensures ok && old(d.db.rows).peers[name].inbound && old(d.db.rows).peers[name].reachable ==> !Silent(d.fate)
    ensures Sunk(d.fate, Dialing) ==> d.hosts == old(d.hosts)
    ensures TurnOf(old(d.db.rows), name, host, old(d.hosts), d.hosts, old(d.dialed), d.dialed, ok)
    ensures ok && old(d.db.rows).peers[name].inbound && old(d.db.rows).peers[name].reachable ==>
              var a := DialedAt(name, old(d.db.rows).peers[name], host);
              UpdatePushed(d.instanceKey, FilesAt(old(d.hosts), a), FilesAt(d.hosts, a), at.cert, d.db.rows, name)
  {
    ok := GuardNotSelfPeer(d, name, hostname);
    if !ok {
      return false, Untouched;
    }
    var unlocked := Try(d.fate, Unlocking);
    if !unlocked || "ca" !in d.dirs || d.dirs["ca"].Partial? {
      return false, Untouched;
    }
    ok := d.db.Exec();
    if !ok || name !in d.db.rows.peers || d.db.rows.peers[name].revoked {
      return false, Untouched;
    }
    var row := d.db.rows.peers[name];
    var cert;
    at, cert := StoreUpdate(d, name, groups, d.dirs["ca"].key);
    if cert.None? {
      return false, at;
    }
    ok := d.BumpFleetRev();
    if !ok {
      return false, at;
    }
    if !Pushable(row) {
      return true, at;
    }
    ghost var hosts := d.hosts;
    ok := PushUpdate(d, name, row, host, cert.value);
    EditIsTurn(name, row, host, hosts, d.hosts, old(d.dialed), d.dialed, ok);
  }

  // ---- The groups a peer allows ----

  /** The pushed share of an allow-list edit: rewritten principals and the config block. */
  ghost predicate AllowPushed(codec: Codec, key: string, k: PublicKey, f: Files, f': Files, groups: seq<string>,
                              t: Tables, name: string) {
    && f'.cert == f.cert && RewrittenText(codec, f.keys, k, groups) == Ok(f'.keys)
    && f'.config == Splice(f.config, key, Block(key, ReachableHosts(t, name)))
  }

  /** Where the edit is pushed the principals can be rewritten. */
  ghost predicate AllowGoes(codec: Codec, k: PublicKey, hosts: map<Account, Files>, row: PeerRow, name: string,
                            host: string, groups: seq<string>) {
    row.inbound && row.reachable ==>
      Rewritable(codec, FilesAt(hosts, DialedAt(name, row, host)), k, Some(groups))
  }

  method PushAllowed(d: Deps, name: string, row: PeerRow, host: string, groups: seq<string>) returns (ok: bool)
    requires d.Valid() && PlainNames(groups)
    modifies d`hosts, d`dialed, d`writes, d`log
    ensures d.Valid()
    ensures OnlyAt(old(d.hosts), d.hosts, DialedAt(name, row, host)) && TrustSame(d.codec, old(d.hosts), d.hosts)
    ensures ok ==> && "ca" in d.dirs && d.dirs["ca"].Keyed?
                   && AllowPushed(d.codec, d.instanceKey, d.dirs["ca"].key,
                                  FilesAt(old(d.hosts), DialedAt(name, row, host)),
                                  FilesAt(d.hosts, DialedAt(name, row, host)), groups, d.db.rows, name)
    ensures d.dialed == old(d.dialed) + [DialedAt(name, row, host).host]
    ensures Steady(d.fate) && AllAnswer(d.fate) && CanSign(d.dirs)
            && Rewritable(d.codec, FilesAt(old(d.hosts), DialedAt(name, row, host)), d.dirs["ca"].key, Some(groups)) ==>
              ok
    ensures Sunk(d.fate, Dialing) ==> d.hosts == old(d.hosts)
    ensures ok ==> !Silent(d.fate)
  {
    var a := DialedAt(name, row, host);
    ok := d.Dial(a.host);
    if !ok || "ca" !in d.dirs || d.dirs["ca"].Partial? || !d.dirs["ca"].readable {
      return false;
    }
    ok := WriteAllowed(d, name, a, d.dirs["ca"].key, groups);
  }

  /** Once the peer is dialed: its principals, its config block, a health check. */
  method WriteAllowed(d: Deps, name: string, a: Account, k: PublicKey, groups: seq<string>) returns (ok: bool)
    requires d.Valid() && PlainNames(groups) && HasKey(d.dirs, "ca", k)
    modifies d`hosts, d`writes, d`log
    ensures d.Valid() && OnlyAt(old(d.hosts), d.hosts, a) && TrustSame(d.codec, old(d.hosts), d.hosts)
    ensures ok ==> AllowPushed(d.codec, d.instanceKey, k, FilesAt(old(d.hosts), a), FilesAt(d.hosts, a), groups,
                               d.db.rows, name)
    ensures Steady(d.fate) && AllAnswer(d.fate) && Rewritable(d.codec, FilesAt(old(d.hosts), a), k, Some(groups)) ==> ok
    ensures Sunk(d.fate, Remote) || Sunk(d.fate, Statement) ==> !ok
  {
    ok := RewriteRemote(d, a, k, groups);
    if !ok {
      return false;
    }
    ok := d.db.Exec();
    if !ok {
      return false;
    }
    var block := V2SshClientBlockWithHosts(d.instanceKey, ReachableHosts(d.db.rows, name));
    ok := PushConfig(d, a, block);
    if !ok {
      return false;
    }
    ok := Try(d.fate, Remote);
  }

  /** ops.SetPeerAllowedGroups: the database first, then the trust line of a peer that can be dialed. */
  method SetPeerAllowedGroups(d: Deps, name: string, groups: seq<string>, host: string) returns (ok: bool)
    requires d.Valid() && PlainNames(groups)
    modifies d`hosts, d`dialed, d`writes, d`log, d.db
    ensures d.Valid() && TrustSame(d.codec, old(d.hosts), d.hosts)
    ensures var t := old(d.db.rows);
            d.db.rows == t ||
            d.db.rows == t.(allowed := Assigned(t.allowed, name, groups), groups := t.groups + AsSet(groups),
                            rev := d.db.rows.rev)
    ensures ok ==> name in old(d.db.rows).peers && GroupsOf(d.db.rows.allowed, name) == AsSet(groups)
    ensures ok || d.dialed != old(d.dialed) ==> d.db.rows.rev == old(d.db.rows).rev + 1
    ensures Steady(d.fate) && AllAnswer(d.fate) && CanSign(d.dirs) ==>
              (ok <==> name in old(d.db.rows).peers && NoDup(groups)
                       && AllowGoes(d.codec, d.dirs["ca"].key, old(d.hosts), old(d.db.rows).peers[name], name, host,
                                    groups))
    ensures ok ==> !Sunk(d.fate, Statement)
    ensures ok && old(d.db.rows).peers[name].inbound && old(d.db.rows).peers[name].reachable ==> !Silent(d.fate)
    ensures Sunk(d.fate, Dialing) ==> d.hosts == old(d.hosts)
    ensures TurnOf(old(d.db.rows), name, host, old(d.hosts), d.hosts, old(d.dialed), d.dialed, ok)
    ensures ok && old(d.db.rows).peers[name].inbound && old(d.db.rows).peers[name].reachable ==>
              var a := DialedAt(name, old(d.db.rows).peers[name], host);
              && "ca" in d.dirs && d.dirs["ca"].Keyed?
              && AllowPushed(d.codec, d.instanceKey, d.dirs["ca"].key, FilesAt(old(d.hosts), a), FilesAt(d.hosts, a),
                             groups, d.db.rows, name)
  {
    ok := d.db.Exec();
    if !ok || name !in d.db.rows.peers {
      return false;
    }
    var row := d.db.rows.peers[name];
    ok := d.SetPeerGroupsTable(PeerAllowedGroups, name, groups);
    if !ok {
      return false;
    }
    AssignedGroups(old(d.db.rows).allowed, name, groups, name);
    ok := d.BumpFleetRev();
    if !ok {
      return false;
    }
    if !Pushable(row) {
      return true;
    }
    ghost var hosts := d.hosts;
    ok := PushAllowed(d, name, row, host, groups);
    EditIsTurn(name, row, host, hosts, d.hosts, old(d.dialed), d.dialed, ok);
  }

  /** An edit that reached a peer in step leaves its trust line in step with the new allow list. */
  lemma AllowInStep(codec: Codec, key: string, t: Tables, t': Tables, name: string, k: PublicKey, f: Files, f': Files,
                    ps: seq<string>, groups: seq<string>)
    requires Faithful(codec) && PlainNames(groups) && KeysInStep(codec, t, name, k, f.keys, ps)
    requires GroupsOf(t'.allowed, name) == AsSet(groups) && AllowPushed(codec, key, k, f, f', groups, t', name)
    ensures KeysInStep(codec, t', name, k, f'.keys, groups)
    ensures F.Without(Lines(f'.keys), Trusting(codec, {k})) == F.Without(Lines(f.keys), Trusting(codec, {k}))
  {
    RewriteOnlyLine(codec, f.keys, k, ps, groups);
  }
}
