/**
 What the operations work with: the database, the CA directories, the manager's own files and the peers
 it can dial. Every write may fail, and a failed remote write may or may not have landed. Each write is
 one step of the fleet, logged in order.
 */
module Manager {
  import opened Wrappers
  import opened Text
  import opened Names
  import opened Principals
  import opened AuthorizedKeys
  import opened TrustLaws
  import opened SshConfig
  import opened Tables
  import opened Database
  import opened Fleet
  import opened Fate

  datatype OpError = Refused | Failed

  /** The keys of the active and the archived directories whose public half can be read. */
  ghost predicate Readable(dirs: map<string, Slot>, k: PublicKey) {
    exists name :: (name == "ca" || IsArchive(name)) && ReadableAt(dirs, name, k)
  }

  ghost predicate ReadableAt(dirs: map<string, Slot>, name: string, k: PublicKey) {
    HasKey(dirs, name, k) && dirs[name].readable
  }

  /** The active key is there and can be read. */
  predicate CanSign(dirs: map<string, Slot>) {
    "ca" in dirs && dirs["ca"].Keyed? && dirs["ca"].readable
  }

  lemma ReadableIs(dirs: map<string, Slot>, k: PublicKey)
    ensures Readable(dirs, k) <==>
            exists name :: name in dirs && (name == "ca" || "ca.old." <= name) && dirs[name] == Keyed(k, true)
  {
    if Readable(dirs, k) {
      var name :| (name == "ca" || IsArchive(name)) && ReadableAt(dirs, name, k);
      assert dirs[name] == Keyed(k, true);
    }
    if name :| name in dirs && (name == "ca" || "ca.old." <= name) && dirs[name] == Keyed(k, true) {
      assert ReadableAt(dirs, name, k);
    }
  }

  /** What lies beside the fleet: the manager's own two files, and what was tried so far. */
  datatype Desk = Desk(keys: string, cert: Option<Cert>, rewrites: nat, writes: seq<Account>, dialed: seq<string>)

  class Deps {
    const codec: Codec
    const selfName: string      // the name persisted at init
    const instanceKey: string
    const db: DB
    const fate: Fates           // what is known of the environment's decisions
    var dirs: map<string, Slot>
    var hosts: map<Account, Files>
    var selfKeys: string        // the manager's own authorized_keys
    var selfCert: Option<Cert>  // and its certificate file
    var dialed: seq<string>
    ghost var minted: set<PublicKey>
    ghost var issued: set<Cert>
    ghost var bundles: set<Bundle>
    ghost const start: World
    ghost var log: seq<Action>
    ghost var writes: seq<Account>  // every write to an authorized_keys file that was issued, landed or not
    ghost var rewrites: nat         // how often both of the manager's own files were rewritten

    ghost function Now(): World
      reads this, db
    {
      World(db.rows, dirs, hosts, minted, issued, bundles)
    }

    ghost function AtDesk(): Desk
      reads this
    {
      Desk(selfKeys, selfCert, rewrites, writes, dialed)
    }

    /** The state is what a run of allowed steps made of a sound start. */
    ghost predicate Valid()
      reads this, db
    {
      && Faithful(codec) && db.fate == fate
      && Legal(codec, selfName, start, log) && Reached(start, log) == Now()
    }

    lemma Sane()
      requires Valid()
      ensures Inv(codec, selfName, Now())
    {
      RunKeepsInv(codec, selfName, start, log);
    }

    lemma Tidy()
      requires Valid()
      ensures Linked(db.rows) && PlainGroups(db.rows) && selfName in db.rows.peers
    {
      Sane();
    }

    lemma Owned()
      requires Valid()
      ensures CertsOwned(selfName, Now())
    {
      Sane();
    }

    constructor (codec: Codec, selfName: string, instanceKey: string, rows: Tables, dirs: map<string, Slot>,
                 hosts: map<Account, Files>, ghost minted: set<PublicKey>, ghost issued: set<Cert>,
                 ghost bundles: set<Bundle>, selfKeys: string, fate: Fates)
      requires Faithful(codec) && Inv(codec, selfName, World(rows, dirs, hosts, minted, issued, bundles))
      ensures Valid() && Now() == World(rows, dirs, hosts, minted, issued, bundles) && fresh(db)
      ensures this.codec == codec && this.selfName == selfName && this.selfKeys == selfKeys && this.fate == fate
    {
      this.codec, this.selfName, this.instanceKey := codec, selfName, instanceKey;
      this.dirs, this.hosts := dirs, hosts;
      this.minted, this.issued, this.bundles := minted, issued, bundles;
      this.db := new DB(rows, fate);
      this.fate := fate;
      this.selfKeys, this.selfCert, this.dialed := selfKeys, None, [];
      this.writes, this.rewrites := [], 0;
      this.start, this.log := World(rows, dirs, hosts, minted, issued, bundles), [];
    }

    /** Logs the step that was just made. */
    ghost method Did(act: Action)
      requires Faithful(codec) && db.fate == fate && Legal(codec, selfName, start, log)
      requires Allowed(codec, selfName, Reached(start, log), act)
      requires Step(Reached(start, log), act) == Now()
      modifies this`log
      ensures Valid() && log == old(log) + [act]
    {
      LegalSnoc(codec, selfName, start, log, act);
      log := log + [act];
    }

    // ---- Keys and certificates ----

    /** SignCert with the active or the staged key; the serial is random. */
    method SignCert(signer: PublicKey, name: string, principals: seq<string>, subject: string)
      returns (r: Result<Cert, OpError>)
      requires Valid() && (HasKey(dirs, "ca", signer) || HasKey(dirs, "ca.next", signer))
      modifies this`issued, this`log
      ensures Valid()
      ensures r.Err? ==> issued == old(issued)
      ensures Signing in fate ==> r.Ok? == fate[Signing]
      ensures r.Ok? ==>
                r.value == Cert(signer, r.value.serial, name, principals, subject) && issued == old(issued) + {r.value}
    {
      var ok := Try(fate, Signing);
      if !ok {
        return Err(Failed);
      }
      var serial: nat := *;
      var cert := Cert(signer, serial, name, principals, subject);
      issued := issued + {cert};
      Did(Sign(cert));
      return Ok(cert);
    }

    // ---- Database ----

    /** DB.SetPeerCert. */
    method SetPeerCert(name: string, cert: Option<Cert>, serial: nat) returns (ok: bool)
      requires Valid()
      requires RowCert(issued, selfName, name, cert) && (name == selfName ==> cert.Some?)
      modifies this`log, db
      ensures Valid()
      ensures ok ==> name in old(db.rows).peers && db.rows == WithCert(old(db.rows), name, cert, serial)
      ensures !ok ==> db.rows == old(db.rows)
      ensures Sure(fate, Statement) && name in old(db.rows).peers ==> ok
      ensures Sunk(fate, Statement) ==> !ok
    {
      var r := db.UpdatePeerRow(StoreCert(name, cert, serial));
      if r.Ok? {
        Did(Commit(StoreCert(name, cert, serial)));
      }
      return r.Ok?;
    }

    method BumpFleetRev() returns (ok: bool)
      requires Valid()
      modifies this`log, db
      ensures Valid()
      ensures ok ==> db.rows == old(db.rows).(rev := old(db.rows).rev + 1)
      ensures !ok ==> db.rows == old(db.rows)
      ensures Sure(fate, Statement) ==> ok
      ensures Sunk(fate, Statement) ==> !ok
    {
      var r := db.BumpFleetRev();
      if r.Ok? {
        Did(Commit(Bump));
      }
      return r.Ok?;
    }

    method SetPeerRevoked(name: string) returns (ok: bool)
      requires Valid() && name != selfName
      modifies this`log, db
      ensures Valid()
      ensures ok ==> name in old(db.rows).peers
      ensures ok ==> db.rows == PutRow(old(db.rows), name, old(db.rows).peers[name].(revoked := true))
      ensures !ok ==> db.rows == old(db.rows)
      ensures Sure(fate, Statement) && name in old(db.rows).peers ==> ok
    {
      var r := db.UpdatePeerRow(Revoke(name));
      if r.Ok? {
        Did(Commit(Revoke(name)));
      }
      return r.Ok?;
    }

    method DeletePeer(name: string) returns (ok: bool)
      requires Valid() && name != selfName
      modifies this`log, db
      ensures Valid()
      ensures ok ==> name in old(db.rows).peers && db.rows == PeerDeleted(old(db.rows), name)
      ensures name !in old(db.rows).peers ==> !ok
      ensures !ok ==> db.rows == old(db.rows)
      ensures Sure(fate, RowRemoval) && name in old(db.rows).peers ==> ok
      ensures Sunk(fate, RowRemoval) ==> !ok
    {
      Sane();
      var r := db.DeletePeer(name);
      if r.Ok? {
        Did(Commit(Delete(name)));
      }
      return r.Ok?;
    }

    method SetPeerInbound(name: string, inbound: bool) returns (ok: bool)
      requires Valid()
      modifies this`log, db
      ensures Valid()
      ensures ok ==> name in old(db.rows).peers
      ensures ok ==> db.rows == PutRow(old(db.rows), name, old(db.rows).peers[name].(inbound := inbound))
      ensures !ok ==> db.rows == old(db.rows)
      ensures Sure(fate, Statement) && name in old(db.rows).peers ==> ok
    {
      var r := db.UpdatePeerRow(SetInbound(name, inbound));
      if r.Ok? {
        Did(Commit(SetInbound(name, inbound)));
      }
      return r.Ok?;
    }

    /** DB.SetPeerGroups and DB.SetPeerAllowedGroups. */
    method SetPeerGroupsTable(table: Table, name: string, groups: seq<string>) returns (ok: bool)
      requires Valid() && PlainNames(groups)
      modifies this`log, db
      ensures Valid()
      ensures ok ==> NoDup(groups) && (groups != [] ==> name in old(db.rows).peers)
      ensures ok ==> db.rows == Put(old(db.rows), table, Assigned(Get(old(db.rows), table), name, groups))
                                .(groups := old(db.rows).groups + AsSet(groups))
      ensures !ok ==> db.rows == old(db.rows)
      ensures Sure(fate, Statement) && NoDup(groups) && name in old(db.rows).peers ==> ok
      ensures Sunk(fate, Statement) ==> !ok
    {
      var r := db.SetPeerGroupsTable(table, name, groups);
      if r.Ok? {
        Did(Commit(if table == PeerGroups then SetGroups(name, groups) else SetAllowed(name, groups)));
      }
      return r.Ok?;
    }

    /** DB.RenameGroup, which trims the old name itself. */
    method RenameGroup(oldName: string, newName: string) returns (ok: bool)
      requires Valid() && PlainName(newName)
      modifies this`log, db
      ensures Valid()
      ensures ok ==> TrimSpace(oldName) in old(db.rows).groups
                     && (TrimSpace(oldName) != newName ==> newName !in old(db.rows).groups)
      ensures ok ==> db.rows == GroupRenamed(old(db.rows), TrimSpace(oldName), newName)
      ensures !ok ==> db.rows == old(db.rows)
      ensures !ok && Sure(fate, Statement) ==>
                || TrimSpace(oldName) !in old(db.rows).groups
                || (TrimSpace(oldName) != newName && newName in old(db.rows).groups)
      ensures Sunk(fate, Statement) ==> !ok
    {
      Sane();
      var r := db.RenameGroup(oldName, newName);
      if r.Ok? {
        Did(Commit(Txn.RenameGroup(oldName, newName)));
      }
      return r.Ok?;
    }

    /** DB.DeleteGroup. */
    method DeleteGroup(name: string) returns (ok: bool)
      requires Valid()
      modifies this`log, db
      ensures Valid()
      ensures ok ==> name in old(db.rows).groups && db.rows == GroupDeleted(old(db.rows), name)
      ensures !ok ==> db.rows == old(db.rows)
      ensures Sure(fate, Statement) && name in old(db.rows).groups ==> ok
      ensures Sunk(fate, Statement) ==> !ok
    {
      var r := db.DeleteGroup(name);
      if r.Ok? {
        Did(Commit(Txn.DeleteGroup(name)));
      }
      return r.Ok?;
    }

    /** DB.CreateGroup. */
    method CreateGroup(name: string) returns (ok: bool)
      requires Valid() && (TrimSpace(name) != "" ==> PlainName(TrimSpace(name)))
      modifies this`log, db
      ensures Valid()
      ensures ok ==> TrimSpace(name) != "" && TrimSpace(name) !in old(db.rows).groups
      ensures ok ==> db.rows == old(db.rows).(groups := old(db.rows).groups + {TrimSpace(name)})
      ensures !ok ==> db.rows == old(db.rows)
      ensures Sure(fate, Statement) && TrimSpace(name) != "" && TrimSpace(name) !in old(db.rows).groups ==> ok
    {
      var r := db.CreateGroup(name);
      if r.Ok? {
        Did(Commit(Txn.CreateGroup(name)));
      }
      return r.Ok?;
    }

    // ---- The peers ----

    /** Dials a host; only the fact that it was tried is kept. */
    method Dial(host: string) returns (ok: bool)
      requires Valid()
      modifies this`dialed
      ensures Valid() && dialed == old(dialed) + [host]
      ensures Dialing in fate ==> ok == fate[Dialing]
    {
      dialed := dialed + [host];
      ok := Try(fate, Dialing);
    }

    /** Reads a peer's authorized_keys. */
    method ReadKeys(a: Account) returns (r: Option<string>)
      ensures r.Some? ==> a in hosts && r.value == hosts[a].keys
      ensures Sure(fate, Remote) && a in hosts ==> r.Some?
    {
      var ok := Try(fate, Remote);
      if !ok || a !in hosts {
        return None;
      }
      return Some(hosts[a].keys);
    }

    /** WriteFileAtomic on a peer's authorized_keys. */
    method WriteKeys(a: Account, text: string) returns (ok: bool)
      requires Valid()
      requires MayWrite(codec, Now(), a, text)
      modifies this`hosts, this`log, this`writes
      ensures Valid() && writes == old(writes) + [a]
      ensures ok ==> hosts == old(hosts)[a := FilesAt(old(hosts), a).(keys := text)]
      ensures !ok ==> hosts == old(hosts) || hosts == old(hosts)[a := FilesAt(old(hosts), a).(keys := text)]
      ensures Sure(fate, Remote) ==> ok
    {
      writes := writes + [a];
      ok := Try(fate, Remote);
      var landed: bool := *;
      if ok || landed {
        hosts := hosts[a := FilesAt(hosts, a).(keys := text)];
        Did(PutKeys(a, text));
      }
    }

    /** WriteFileAtomic on a peer's certificate. */
    method WriteCert(a: Account, cert: Cert) returns (ok: bool)
      requires Valid()
      modifies this`hosts, this`log
      ensures Valid()
      ensures ok ==> hosts == old(hosts)[a := FilesAt(old(hosts), a).(cert := Some(cert))]
      ensures !ok ==> hosts == old(hosts) || hosts == old(hosts)[a := FilesAt(old(hosts), a).(cert := Some(cert))]
      ensures Sure(fate, Remote) ==> ok
    {
      ok := Try(fate, Remote);
      var landed: bool := *;
      if ok || landed {
        hosts := hosts[a := FilesAt(hosts, a).(cert := Some(cert))];
        Did(PutCert(a, Some(cert)));
      }
    }

    /** WriteFileAtomic on a peer's ssh config. */
    method WriteConfig(a: Account, text: string) returns (ok: bool)
      requires Valid()
      modifies this`hosts, this`log
      ensures Valid()
      ensures ok ==> hosts == old(hosts)[a := FilesAt(old(hosts), a).(config := text)]
      ensures !ok ==> hosts == old(hosts) || hosts == old(hosts)[a := FilesAt(old(hosts), a).(config := text)]
      ensures Sure(fate, Remote) ==> ok
    {
      ok := Try(fate, Remote);
      var landed: bool := *;
      if ok || landed {
        hosts := hosts[a := FilesAt(hosts, a).(config := text)];
        Did(PutConfig(a, text));
      }
    }

    /** Removes a peer's certificate file. */
    method RemoveCert(a: Account) returns (ok: bool)
      requires Valid()
      modifies this`hosts, this`log
      ensures Valid()
      ensures ok ==> hosts == old(hosts)[a := FilesAt(old(hosts), a).(cert := None)]
      ensures !ok ==> hosts == old(hosts) || hosts == old(hosts)[a := FilesAt(old(hosts), a).(cert := None)]
      ensures Sure(fate, Remote) ==> ok
    {
      ok := Try(fate, Remote);
      var landed: bool := *;
      if ok || landed {
        hosts := hosts[a := FilesAt(hosts, a).(cert := None)];
        Did(PutCert(a, None));
      }
    }

    /** Removes a peer's private key file. */
    method RemoveIdentity(a: Account) returns (ok: bool)
      requires Valid()
      modifies this`hosts, this`log
      ensures Valid()
      ensures ok ==> hosts == old(hosts)[a := FilesAt(old(hosts), a).(identity := false)]
      ensures !ok ==> hosts == old(hosts) || hosts == old(hosts)[a := FilesAt(old(hosts), a).(identity := false)]
      ensures Sure(fate, Remote) ==> ok
    {
      ok := Try(fate, Remote);
      var landed: bool := *;
      if ok || landed {
        hosts := hosts[a := FilesAt(hosts, a).(identity := false)];
        Did(PutIdentity(a, false));
      }
    }

    /** SpliceConfigBlock: a sed delete and an append, either of which may be the last thing that landed. */
    method SpliceConfig(a: Account, block: string) returns (ok: bool)
      requires Valid()
      modifies this`hosts, this`log
      ensures Valid()
      ensures ok ==> hosts == old(hosts)[a := FilesAt(old(hosts), a).(config := Splice(FilesAt(old(hosts), a).config,
                                                                                       instanceKey, block))]
      ensures !ok ==>
                var f := FilesAt(old(hosts), a);
                || hosts == old(hosts)
                || hosts == old(hosts)[a := f.(config := SedDelete(f.config, instanceKey, false))]
                || hosts == old(hosts)[a := f.(config := Splice(f.config, instanceKey, block))]
      ensures Sure(fate, Remote) ==> ok
    {
      var before := FilesAt(hosts, a);
      ok := Try(fate, Remote);
      var deleted: bool, appended: bool := *, *;
      if ok || deleted {
        var kept := SedDelete(before.config, instanceKey, false);
        PutConfigText(a, kept);
        if ok || appended {
          PutConfigText(a, kept + block);
        }
      }
    }

    method PutConfigText(a: Account, text: string)
      requires Valid()
      modifies this`hosts, this`log
      ensures Valid() && hosts == old(hosts)[a := FilesAt(old(hosts), a).(config := text)]
    {
      hosts := hosts[a := FilesAt(hosts, a).(config := text)];
      Did(PutConfig(a, text));
    }

    // ---- Enrollment ----

    /** BuildUser: an install bundle with the active key and an issued certificate. */
    ghost method Pack(bundle: Bundle)
      requires Valid() && HasKey(dirs, "ca", bundle.ca) && bundle.cert in issued
      modifies this`bundles, this`log
      ensures Valid() && bundles == old(bundles) + {bundle}
    {
      bundles := bundles + {bundle};
      Did(Bundled(bundle));
    }

    /** The staging transaction for a new name. */
    method StageNew(tok: string, name: string, row: PeerRow, groups: seq<string>, allowed: seq<string>, checked: bool,
                    bundle: Bundle)
      returns (ok: bool)
      requires Valid() && name != selfName && row.cert.Some? && !row.revoked && row.reachable
      requires RowCert(issued, selfName, name, row.cert) && bundle in bundles && PlainNames(allowed)
      modifies this`log, db
      ensures Valid()
      ensures ok ==> Apply(old(db.rows), MintNew(tok, name, row, groups, allowed, checked, bundle)) == Some(db.rows)
      ensures !ok ==> db.rows == old(db.rows)
      ensures !ok && Sure(fate, Statement) ==>
                Apply(old(db.rows), MintNew(tok, name, row, groups, allowed, checked, bundle)) == None
      ensures Sunk(fate, Statement) ==> !ok
    {
      var r := db.StageNew(tok, name, row, groups, allowed, checked, bundle);
      if r.Ok? {
        Did(Commit(MintNew(tok, name, row, groups, allowed, checked, bundle)));
      }
      return r.Ok?;
    }

    /** The staging transaction for an existing peer. */
    method StageReenroll(tok: string, groups: seq<string>, chosen: Option<seq<string>>, staged: TokenRow)
      returns (ok: bool)
      requires Valid() && Stages(staged, groups, chosen) && staged.peer != selfName
      requires RowCert(issued, selfName, staged.peer, staged.stagedCert)
      requires staged.bundle.Some? && staged.bundle.value in bundles
      modifies this`log, db
      ensures Valid()
      ensures ok ==> Apply(old(db.rows), MintAgain(tok, groups, chosen, staged)) == Some(db.rows)
      ensures !ok ==> db.rows == old(db.rows)
      ensures !ok && Sure(fate, Statement) ==> Apply(old(db.rows), MintAgain(tok, groups, chosen, staged)) == None
      ensures Sunk(fate, Statement) ==> !ok
    {
      var r := db.StageReenroll(tok, groups, chosen, staged);
      if r.Ok? {
        Did(Commit(MintAgain(tok, groups, chosen, staged)));
      }
      return r.Ok?;
    }

    /** DB.ConsumeToken. */
    method ConsumeToken(tok: string) returns (r: Result<Handed, DbError>)
      requires Valid()
      modifies this`log, db
      ensures Valid()
      ensures r.Ok? ==> Redeemable(old(db.rows), tok) && db.rows == Redeemed(old(db.rows), tok)
                        && r.value.peer == old(db.rows).tokens[tok].peer
                        && r.value.bundle == old(db.rows).tokens[tok].bundle
      ensures r.Err? ==> db.rows == old(db.rows)
      ensures Sure(fate, Statement) && Redeemable(old(db.rows), tok) ==> r.Ok?
    {
      r := db.ConsumeToken(tok);
      if r.Ok? {
        Did(Commit(Redeem(tok)));
      }
    }

    /** DB.SetPeerTargetUser. */
    method SetPeerTargetUser(name: string, user: string) returns (ok: bool)
      requires Valid()
      modifies this`log, db
      ensures Valid()
      ensures ok ==> name in old(db.rows).peers
      ensures ok ==> db.rows == PutRow(old(db.rows), name, old(db.rows).peers[name].(user := user))
      ensures Sure(fate, Statement) && name in old(db.rows).peers ==> ok
      ensures !ok ==> db.rows == old(db.rows)
      ensures Sunk(fate, Statement) ==> !ok
    {
      var r := db.UpdatePeerRow(SetUser(name, user));
      if r.Ok? {
        Did(Commit(SetUser(name, user)));
      }
      return r.Ok?;
    }

    /** DB.SetPeerAddressIfEmpty; a missing peer or a recorded address is no error. */
    method SetPeerAddressIfEmpty(name: string, address: string)
      requires Valid()
      modifies this`log, db
      ensures Valid()
      ensures db.rows == old(db.rows) ||
              (name in old(db.rows).peers && old(db.rows).peers[name].address == ""
               && db.rows == PutRow(old(db.rows), name, old(db.rows).peers[name].(address := address)))
      ensures Sure(fate, Statement) && name in old(db.rows).peers && old(db.rows).peers[name].address == "" ==>
                db.rows == PutRow(old(db.rows), name, old(db.rows).peers[name].(address := address))
    {
      if name in db.rows.peers && db.rows.peers[name].address == "" {
        var r := db.UpdatePeerRow(SetAddress(name, address));
        if r.Ok? {
          Did(Commit(SetAddress(name, address)));
        }
      }
    }

    // ---- CA directories ----

    /** GenerateWithPassphrase into ca.next; a failure may leave a partial directory behind. */
    method GenerateCA(key: PublicKey) returns (ok: bool)
      requires Valid() && "ca.next" !in dirs && Fresh(codec, Now(), key)
      modifies this`dirs, this`minted, this`log
      ensures Valid()
      ensures ok ==> dirs == old(dirs)["ca.next" := Keyed(key, true)] && minted == old(minted) + {key}
      ensures !ok ==> minted == old(minted) && (dirs == old(dirs) || dirs == old(dirs)["ca.next" := Partial])
      ensures Sure(fate, KeyGeneration) ==> ok
    {
      ok := Try(fate, KeyGeneration);
      var made: bool := *;
      if ok {
        dirs := dirs["ca.next" := Keyed(key, true)];
        minted := minted + {key};
        Did(Generate(key));
      } else if made {
        dirs := dirs["ca.next" := Partial];
        Did(GeneratePart);
      }
    }

    /** RemoveAll of ca.next; a failure may leave part of it. */
    method DiscardNext() returns (ok: bool)
      requires Valid() && StagedUnused(codec, Now())
      modifies this`dirs, this`log
      ensures Valid()
      ensures ok ==> dirs == old(dirs) - {"ca.next"}
      ensures !ok ==> dirs == old(dirs) || ("ca.next" in old(dirs) && dirs == old(dirs)["ca.next" := Partial])
      ensures Sure(fate, Discarding) ==> ok
    {
      ok := Try(fate, Discarding);
      var torn: bool := *;
      if ok {
        dirs := dirs - {"ca.next"};
        Did(Discard);
      } else if torn && "ca.next" in dirs {
        dirs := dirs["ca.next" := Partial];
        Did(DiscardPart);
      }
    }

    /** Rename of a CA directory onto an unused name. */
    method RenameDir(from': string, to': string, site: Site, ghost act: Action) returns (ok: bool)
      requires Valid() && from' in dirs && to' !in dirs
      requires || (act == Archive(to') && from' == "ca" && IsArchive(to'))
               || (act == Unarchive(from') && to' == "ca" && IsArchive(from'))
               || (act == Promote && from' == "ca.next" && to' == "ca")
      modifies this`dirs, this`log
      ensures Valid()
      ensures ok ==> dirs == Move(old(dirs), from', to')
      ensures !ok ==> dirs == old(dirs)
      ensures site in fate ==> ok == fate[site]
    {
      ok := Try(fate, site);
      if ok {
        dirs := Move(dirs, from', to');
        Did(act);
      }
    }

    /** ops.instanceCAPubKeys: the active key, which must be readable, and every readable archived one. */
    method InstanceCAPubKeys() returns (r: Result<seq<PublicKey>, OpError>)
      ensures r.Ok? <==> "ca" in dirs && dirs["ca"].Keyed? && dirs["ca"].readable
      ensures r.Ok? ==> forall k :: k in r.value <==> Readable(dirs, k)
      ensures r.Ok? ==> forall k :: k in r.value <==>
                          exists name :: name in dirs && (name == "ca" || "ca.old." <= name)
                            && dirs[name] == Keyed(k, true)
    {
      if "ca" !in dirs || dirs["ca"].Partial? || !dirs["ca"].readable {
        return Err(Failed);
      }
      var keys := [dirs["ca"].key];
      assert ReadableAt(dirs, "ca", keys[0]);
      var archives := Ordered(set name | name in dirs && IsArchive(name));
      OrderedIs(set name | name in dirs && IsArchive(name));
      for i := 0 to |archives|
        invariant forall k :: k in keys ==> Readable(dirs, k)
        invariant forall k :: ReadableAt(dirs, "ca", k) ==> k in keys
        invariant forall j, k :: 0 <= j < i && ReadableAt(dirs, archives[j], k) ==> k in keys
      {
        var name := archives[i];
        assert name in archives;
        var slot := dirs[name];
        if slot.Partial? || !slot.readable {
          continue;
        }
        assert ReadableAt(dirs, name, slot.key);
        keys := keys + [slot.key];
      }
      forall k | Readable(dirs, k)
        ensures k in keys
      {
        var name :| (name == "ca" || IsArchive(name)) && ReadableAt(dirs, name, k);
        if name != "ca" {
          assert name in archives;
          var j :| 0 <= j < |archives| && archives[j] == name;
        }
      }
      forall k
        ensures Readable(dirs, k) <==>
                exists name :: name in dirs && (name == "ca" || "ca.old." <= name) && dirs[name] == Keyed(k, true)
      {
        ReadableIs(dirs, k);
      }
      return Ok(keys);
    }
  }
}
