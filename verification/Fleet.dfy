/**
 The whole fleet as one state: the manager's database and CA directories, the files on the peers, and
 every key, certificate and bundle that ever came into being. Its steps are the single writes that
 certhold's operations are made of, so a run of steps covers every operation stopped at any point.
 */
module Fleet {
  import opened Wrappers
  import opened Text
  import opened Principals
  import opened AuthorizedKeys
  import opened TrustLaws
  import opened PrincipalLaws
  import opened Tables

  // ---- State ----

  /** A CA directory: a leftover without usable keys, or a key pair whose public half can be read or not. */
  datatype Slot = Partial | Keyed(key: PublicKey, readable: bool)

  /** Where a peer's files are: the host the manager dials and the login user's home. */
  datatype Account = Account(host: string, home: string)

  /** authorized_keys, the certificate, the ssh config, and whether the private key is there. */
  datatype Files = Files(keys: string, cert: Option<Cert>, config: string, identity: bool)

  datatype World = World(
    db: Tables, dirs: map<string, Slot>, hosts: map<Account, Files>,
    minted: set<PublicKey>, issued: set<Cert>, bundles: set<Bundle>)

  function HomeOf(user: string): string {
    if user == "root" || user == "" then "/root" else "/home/" + user
  }

  function DialHost(name: string, row: PeerRow): string {
    if row.address != "" then row.address else name
  }

  function AccountOf(name: string, row: PeerRow): Account {
    Account(DialHost(name, row), HomeOf(row.user))
  }

  function FilesAt(hosts: map<Account, Files>, a: Account): Files {
    if a in hosts then hosts[a] else Files("", None, "", false)
  }

  // ---- CA directories ----

  predicate IsArchive(name: string) {
    "ca.old." <= name
  }

  predicate HasKey(dirs: map<string, Slot>, name: string, k: PublicKey) {
    name in dirs && dirs[name].Keyed? && dirs[name].key == k
  }

  /** A key the manager keeps for good: the active one or an archived one. */
  ghost predicate Kept(dirs: map<string, Slot>, k: PublicKey) {
    exists name :: (name == "ca" || IsArchive(name)) && HasKey(dirs, name, k)
  }

  /** A key in ca/, ca.next/ or some ca.old.*. */
  ghost predicate Held(dirs: map<string, Slot>, k: PublicKey) {
    HasKey(dirs, "ca.next", k) || Kept(dirs, k)
  }

  // ---- Steps ----

  datatype Action =
    | Commit(txn: Txn)
    | Sign(cert: Cert)
    | Bundled(bundle: Bundle)
    | Generate(key: PublicKey)
    | GeneratePart
    | Discard
    | DiscardPart
    | Archive(name: string)
    | Unarchive(name: string)
    | Promote
    | Damage(name: string)
    | PutKeys(at: Account, text: string)
    | PutCert(at: Account, file: Option<Cert>)
    | PutConfig(at: Account, text: string)
    | PutIdentity(at: Account, present: bool)

  ghost predicate ManagerOnce(ps: seq<string>) {
    MANAGER in ps && NoDup(ps)
  }

  /** A certificate that may stand in the row of name. */
  ghost predicate RowCert(issued: set<Cert>, self: string, name: string, cert: Option<Cert>) {
    cert.Some? ==>
      && cert.value in issued && cert.value.keyId == name
      && (name == self ==> ManagerOnce(cert.value.principals))
  }

  /** Groups come in under names that are trimmed, not empty, and free of commas, quotes and newlines. */
  ghost predicate PlainTxn(txn: Txn) {
    match txn
    case SetGroups(_, groups) => PlainNames(groups)
    case SetAllowed(_, groups) => PlainNames(groups)
    case MintNew(_, _, _, _, allowed, _, _) => PlainNames(allowed)
    case CreateGroup(name) => PlainName(TrimSpace(name))
    case RenameGroup(_, new') => PlainName(TrimSpace(new'))
    case _ => true
  }

  /** What the operations see to before they commit a transaction. */
  ghost predicate MayCommit(w: World, self: string, txn: Txn) {
    && Apply(w.db, txn).Some?
    && PlainTxn(txn)
    && (txn.StoreCert? ==> RowCert(w.issued, self, txn.name, txn.cert) && (txn.name == self ==> txn.cert.Some?))
    && (txn.MintNew? ==>
        txn.row.cert.Some? && RowCert(w.issued, self, txn.name, txn.row.cert) && txn.bundle in w.bundles)
    && (txn.MintAgain? ==>
          && txn.staged.peer != self && RowCert(w.issued, self, txn.staged.peer, txn.staged.stagedCert)
          && (txn.staged.bundle.Some? ==> txn.staged.bundle.value in w.bundles))
    && (txn.Delete? || txn.Revoke? ==> txn.name != self)
  }

  /** The trust a write may add to a file: a key that the file has, the staged key, or the key of a bundle. */
  ghost predicate MayTrust(codec: Codec, w: World, at: Account, k: PublicKey) {
    || k in TrustedKeys(codec, FilesAt(w.hosts, at).keys)
    || HasKey(w.dirs, "ca.next", k)
    || exists b :: b in w.bundles && b.ca == k
  }

  /**
   A line for a key of this instance that a write may put: one the file has, or a built one for a key it may trust.
   */
  ghost predicate MayPut(codec: Codec, w: World, at: Account, l: string, k: PublicKey) {
    || l in Lines(FilesAt(w.hosts, at).keys)
    || (Built(codec, l, k) && MayTrust(codec, w, at, k))
  }

  /** The text may be written to authorized_keys. */
  ghost predicate MayWrite(codec: Codec, w: World, at: Account, text: string) {
    forall l, k :: l in Lines(text) && TrustedKey(codec, l) == Some(k) && k in w.minted ==> MayPut(codec, w, at, l, k)
  }

  /** No peer trusts the staged key. */
  ghost predicate StagedUnused(codec: Codec, w: World) {
    forall a, k :: a in w.hosts && HasKey(w.dirs, "ca.next", k) ==> k !in TrustedKeys(codec, w.hosts[a].keys)
  }

  /** A key that no file knows yet. */
  ghost predicate Fresh(codec: Codec, w: World, k: PublicKey) {
    k !in w.minted && forall a :: a in w.hosts ==> k !in TrustedKeys(codec, w.hosts[a].keys)
  }

  ghost predicate Allowed(codec: Codec, self: string, w: World, act: Action) {
    match act
    case Commit(txn) => MayCommit(w, self, txn)
    case Sign(cert) => HasKey(w.dirs, "ca", cert.issuer) || HasKey(w.dirs, "ca.next", cert.issuer)
    case Bundled(bundle) => HasKey(w.dirs, "ca", bundle.ca) && bundle.cert in w.issued
    case Generate(key) => "ca.next" !in w.dirs && Fresh(codec, w, key)
    case GeneratePart => "ca.next" !in w.dirs
    case Discard => StagedUnused(codec, w)
    case DiscardPart => StagedUnused(codec, w) && "ca.next" in w.dirs
    case Archive(name) => "ca" in w.dirs && name !in w.dirs && IsArchive(name)
    case Unarchive(name) => name in w.dirs && IsArchive(name) && "ca" !in w.dirs
    case Promote => "ca.next" in w.dirs && "ca" !in w.dirs
    case Damage(name) => name in w.dirs && w.dirs[name].Keyed?
    case PutKeys(at, text) => MayWrite(codec, w, at, text)
    case PutCert(_, _) => true
    case PutConfig(_, _) => true
    case PutIdentity(_, _) => true
  }

  function Move(dirs: map<string, Slot>, from': string, to': string): map<string, Slot>
    requires from' in dirs
  {
    (dirs - {from'})[to' := dirs[from']]
  }

  ghost function Step(w: World, act: Action): World {
    match act
    case Commit(txn) => if Apply(w.db, txn).Some? then w.(db := Apply(w.db, txn).value) else w
    case Sign(cert) => w.(issued := w.issued + {cert})
    case Bundled(bundle) => w.(bundles := w.bundles + {bundle})
    case Generate(key) => w.(dirs := w.dirs["ca.next" := Keyed(key, true)], minted := w.minted + {key})
    case GeneratePart => w.(dirs := w.dirs["ca.next" := Partial])
    case Discard => w.(dirs := w.dirs - {"ca.next"})
    case DiscardPart => w.(dirs := w.dirs["ca.next" := Partial])
    case Archive(name) => if "ca" in w.dirs then w.(dirs := Move(w.dirs, "ca", name)) else w
    case Unarchive(name) => if name in w.dirs then w.(dirs := Move(w.dirs, name, "ca")) else w
    case Promote => if "ca.next" in w.dirs then w.(dirs := Move(w.dirs, "ca.next", "ca")) else w
    case Damage(name) =>
      if name in w.dirs && w.dirs[name].Keyed? then w.(dirs := w.dirs[name := w.dirs[name].(readable := false)]) else w
    case PutKeys(at, text) => w.(hosts := w.hosts[at := FilesAt(w.hosts, at).(keys := text)])
    case PutCert(at, file) => w.(hosts := w.hosts[at := FilesAt(w.hosts, at).(cert := file)])
    case PutConfig(at, text) => w.(hosts := w.hosts[at := FilesAt(w.hosts, at).(config := text)])
    case PutIdentity(at, present) => w.(hosts := w.hosts[at := FilesAt(w.hosts, at).(identity := present)])
  }

  /** A run of allowed steps from a sound start. */
  ghost predicate Legal(codec: Codec, self: string, w: World, acts: seq<Action>)
    decreases |acts|
  {
    if acts == [] then Inv(codec, self, w)
    else
      var init := acts[..|acts| - 1];
      Legal(codec, self, w, init) && Allowed(codec, self, Reached(w, init), acts[|acts| - 1])
  }

  ghost function Reached(w: World, acts: seq<Action>): World
    decreases |acts|
  {
    if acts == [] then w else Step(Reached(w, acts[..|acts| - 1]), acts[|acts| - 1])
  }

  lemma LegalSnoc(codec: Codec, self: string, w: World, acts: seq<Action>, act: Action)
    requires Legal(codec, self, w, acts) && Allowed(codec, self, Reached(w, acts), act)
    ensures Legal(codec, self, w, acts + [act]) && Reached(w, acts + [act]) == Step(Reached(w, acts), act)
  {
    assert (acts + [act])[..|acts|] == acts;
  }

  // ---- What every step keeps ----

  /** Each line of this instance on a peer is for a key that the manager still holds. */
  ghost predicate TrustHeld(codec: Codec, w: World) {
    forall a, k :: a in w.hosts && k in TrustedKeys(codec, w.hosts[a].keys) && k in w.minted ==> Held(w.dirs, k)
  }

  /** Each line of this instance on a peer is one that certhold built: it lists the manager first. */
  ghost predicate LinesBuilt(codec: Codec, w: World) {
    forall a :: a in w.hosts ==> BuiltLines(codec, w.hosts[a].keys, w.minted)
  }

  /** So is the key of every bundle, and it is there to stay. */
  ghost predicate BundlesKept(w: World) {
    forall b :: b in w.bundles ==> b.ca in w.minted && Kept(w.dirs, b.ca)
  }

  /** Every certificate came from a key of this instance, and every held key is one. */
  ghost predicate Provenance(w: World) {
    && (forall c :: c in w.issued ==> c.issuer in w.minted)
    && (forall k :: Held(w.dirs, k) ==> k in w.minted)
  }

  /** Rows and pending tokens hold issued certificates of their own peer; the manager's keeps its principal. */
  ghost predicate CertsOwned(self: string, w: World) {
    && (forall p :: RowOwned(w.issued, self, p, w.db))
    && (forall k :: TokenOwned(w.issued, self, k, w.db))
    && self in w.db.peers
  }

  ghost predicate RowOwned(issued: set<Cert>, self: string, p: string, t: Tables) {
    p in t.peers ==> RowCert(issued, self, p, t.peers[p].cert) && (p == self ==> t.peers[p].cert.Some?)
  }

  ghost predicate TokenOwned(issued: set<Cert>, self: string, k: string, t: Tables) {
    k in t.tokens && t.tokens[k].stagedKey.Some? ==>
      t.tokens[k].peer != self && RowCert(issued, self, t.tokens[k].peer, t.tokens[k].stagedCert)
  }

  ghost predicate PlainGroups(t: Tables) {
    forall g :: g in t.groups ==> PlainName(g)
  }

  ghost predicate Inv(codec: Codec, self: string, w: World) {
    Sound(w.db) && PlainGroups(w.db) && TrustHeld(codec, w) && LinesBuilt(codec, w) && BundlesKept(w) && Provenance(w)
      && CertsOwned(self, w)
  }

  lemma NotArchives()
    ensures !IsArchive("ca.next") && !IsArchive("ca")
  {
    assert "ca.old."[3] != "ca.next"[3];
  }

  lemma MoveKeeps(dirs: map<string, Slot>, from': string, to': string, k: PublicKey)
    requires from' in dirs && to' !in dirs
    ensures forall name :: name != from' && name != to' ==>
              (HasKey(Move(dirs, from', to'), name, k) <==> HasKey(dirs, name, k))
    ensures HasKey(Move(dirs, from', to'), to', k) <==> HasKey(dirs, from', k)
    ensures !HasKey(Move(dirs, from', to'), from', k)
  {
  }

  /** Moving between the active and the archived slots keeps every kept key, and the staged one. */
  lemma SwapKeeps(dirs: map<string, Slot>, from': string, to': string, k: PublicKey)
    requires from' in dirs && to' !in dirs
    requires (to' == "ca" || IsArchive(to')) && (from' == "ca" || IsArchive(from'))
    ensures Kept(Move(dirs, from', to'), k) <==> Kept(dirs, k)
    ensures HasKey(Move(dirs, from', to'), "ca.next", k) <==> HasKey(dirs, "ca.next", k)
  {
    MoveKeeps(dirs, from', to', k);
    NotArchives();
    if Kept(dirs, k) {
      var name :| (name == "ca" || IsArchive(name)) && HasKey(dirs, name, k);
      assert name == from' || HasKey(Move(dirs, from', to'), name, k);
    }
    if Kept(Move(dirs, from', to'), k) {
      var name :| (name == "ca" || IsArchive(name)) && HasKey(Move(dirs, from', to'), name, k);
      assert name == to' || HasKey(dirs, name, k);
    }
  }

  lemma PromoteKeeps(dirs: map<string, Slot>, k: PublicKey)
    requires "ca.next" in dirs && "ca" !in dirs
    ensures Kept(dirs, k) ==> Kept(Move(dirs, "ca.next", "ca"), k)
    ensures Held(Move(dirs, "ca.next", "ca"), k) <==> Held(dirs, k)
  {
    var dirs' := Move(dirs, "ca.next", "ca");
    MoveKeeps(dirs, "ca.next", "ca", k);
    NotArchives();
    if Kept(dirs, k) {
      var name :| (name == "ca" || IsArchive(name)) && HasKey(dirs, name, k);
      assert HasKey(dirs', name, k);
    }
    if Kept(dirs', k) {
      var name :| (name == "ca" || IsArchive(name)) && HasKey(dirs', name, k);
      assert name != "ca" ==> HasKey(dirs, name, k);
    }
    if HasKey(dirs, "ca.next", k) {
      assert HasKey(dirs', "ca", k);
    }
  }

  /** Adding, dropping or damaging a slot outside the kept ones does not touch them. */
  lemma NextKeeps(dirs: map<string, Slot>, dirs': map<string, Slot>, k: PublicKey)
    requires forall name :: name != "ca.next" ==> (HasKey(dirs, name, k) <==> HasKey(dirs', name, k))
    ensures Kept(dirs, k) <==> Kept(dirs', k)
  {
    NotArchives();
    assert forall name :: name == "ca" || IsArchive(name) ==> (HasKey(dirs, name, k) <==> HasKey(dirs', name, k));
  }

  /** The directory steps: kept keys stay kept, and held ones held unless the unused staged one is discarded. */
  lemma StepKeepsDirs(codec: Codec, self: string, w: World, act: Action, k: PublicKey)
    requires Allowed(codec, self, w, act)
    ensures Kept(w.dirs, k) ==> Kept(Step(w, act).dirs, k)
    ensures Held(w.dirs, k) ==>
              Held(Step(w, act).dirs, k) || ((act.Discard? || act.DiscardPart?) && HasKey(w.dirs, "ca.next", k))
    ensures Held(Step(w, act).dirs, k) ==> Held(w.dirs, k) || act == Generate(k)
  {
    var dirs' := Step(w, act).dirs;
    match act
    case Archive(name) => SwapKeeps(w.dirs, "ca", name, k);
    case Unarchive(name) => SwapKeeps(w.dirs, name, "ca", k);
    case Promote => PromoteKeeps(w.dirs, k);
    case Generate(key) => NextKeeps(w.dirs, dirs', k);
    case GeneratePart => NextKeeps(w.dirs, dirs', k);
    case Discard => NextKeeps(w.dirs, dirs', k);
    case DiscardPart => NextKeeps(w.dirs, dirs', k);
    case Damage(name) =>
      assert forall n :: HasKey(w.dirs, n, k) <==> HasKey(dirs', n, k);
      NextKeeps(w.dirs, dirs', k);
    case _ =>
  }

  /**
   Where a line for a key of this instance comes from: it was there, or it was built for a key that may be trusted.
   */
  lemma StepLines(codec: Codec, self: string, w: World, act: Action, a: Account, l: string, k: PublicKey)
    requires Allowed(codec, self, w, act) && a in Step(w, act).hosts && l in Lines(Step(w, act).hosts[a].keys)
    requires TrustedKey(codec, l) == Some(k) && k in Step(w, act).minted
    ensures k in w.minted
    ensures || (a in w.hosts && l in Lines(w.hosts[a].keys))
            || (Built(codec, l, k) && MayTrust(codec, w, a, k))
  {
    if act.PutKeys? && a == act.at {
      assert MayPut(codec, w, a, l, k);
    }
    assert l in Lines(FilesAt(w.hosts, a).keys) ==> a in w.hosts;
    assert act.Generate? ==> k in TrustedKeys(codec, w.hosts[a].keys);
  }

  lemma TrustedBefore(codec: Codec, w: World, a: Account, k: PublicKey)
    requires TrustHeld(codec, w) && BundlesKept(w) && k in w.minted
    requires (a in w.hosts && k in TrustedKeys(codec, w.hosts[a].keys)) || MayTrust(codec, w, a, k)
    ensures Held(w.dirs, k)
  {
    NoLines(codec);
    assert k in TrustedKeys(codec, FilesAt(w.hosts, a).keys) ==> a in w.hosts;
  }

  lemma StepKeepsTrust(codec: Codec, self: string, w: World, act: Action)
    requires TrustHeld(codec, w) && BundlesKept(w) && Allowed(codec, self, w, act)
    ensures TrustHeld(codec, Step(w, act))
  {
    var w' := Step(w, act);
    forall a, k | a in w'.hosts && k in TrustedKeys(codec, w'.hosts[a].keys) && k in w'.minted
      ensures Held(w'.dirs, k)
    {
      var l :| l in Lines(w'.hosts[a].keys) && TrustedKey(codec, l) == Some(k);
      StepLines(codec, self, w, act, a, l, k);
      TrustedBefore(codec, w, a, k);
      StepKeepsDirs(codec, self, w, act, k);
    }
  }

  lemma StepKeepsBuilt(codec: Codec, self: string, w: World, act: Action)
    requires LinesBuilt(codec, w) && Allowed(codec, self, w, act)
    ensures LinesBuilt(codec, Step(w, act))
  {
    var w' := Step(w, act);
    forall a, l, k | a in w'.hosts && l in Lines(w'.hosts[a].keys) && TrustedKey(codec, l) == Some(k) && k in w'.minted
      ensures Built(codec, l, k)
    {
      StepLines(codec, self, w, act, a, l, k);
    }
  }

  lemma NoLines(codec: Codec)
    ensures TrustedKeys(codec, "") == {}
  {
  }

  lemma StepKeepsProvenance(codec: Codec, self: string, w: World, act: Action)
    requires Inv(codec, self, w) && Allowed(codec, self, w, act)
    ensures Provenance(Step(w, act)) && BundlesKept(Step(w, act))
  {
    var w' := Step(w, act);
    forall k | Held(w'.dirs, k)
      ensures k in w'.minted
    {
      StepKeepsDirs(codec, self, w, act, k);
    }
    forall b | b in w'.bundles
      ensures b.ca in w'.minted && Kept(w'.dirs, b.ca)
    {
      StepKeepsDirs(codec, self, w, act, b.ca);
    }
  }

  lemma CommitKeepsRow(w: World, self: string, txn: Txn, p: string)
    requires CertsOwned(self, w) && MayCommit(w, self, txn)
    ensures RowOwned(w.issued, self, p, Apply(w.db, txn).value)
  {
    assert RowOwned(w.issued, self, p, w.db);
    if txn.Redeem? {
      assert TokenOwned(w.issued, self, txn.tok, w.db);
    }
  }

  lemma CommitKeepsToken(w: World, self: string, txn: Txn, k: string)
    requires CertsOwned(self, w) && MayCommit(w, self, txn)
    ensures TokenOwned(w.issued, self, k, Apply(w.db, txn).value)
  {
    assert TokenOwned(w.issued, self, k, w.db);
  }

  lemma CommitKeepsCerts(w: World, self: string, txn: Txn)
    requires CertsOwned(self, w) && MayCommit(w, self, txn)
    ensures CertsOwned(self, w.(db := Apply(w.db, txn).value))
  {
    forall p
      ensures RowOwned(w.issued, self, p, Apply(w.db, txn).value)
    {
      CommitKeepsRow(w, self, txn, p);
    }
    forall k
      ensures TokenOwned(w.issued, self, k, Apply(w.db, txn).value)
    {
      CommitKeepsToken(w, self, txn, k);
    }
  }

  lemma MoreIssued(self: string, w: World, w': World)
    requires CertsOwned(self, w) && w.db == w'.db && w.issued <= w'.issued
    ensures CertsOwned(self, w')
  {
    forall p
      ensures RowOwned(w'.issued, self, p, w'.db)
    {
      assert RowOwned(w.issued, self, p, w.db);
    }
    forall k
      ensures TokenOwned(w'.issued, self, k, w'.db)
    {
      assert TokenOwned(w.issued, self, k, w.db);
    }
  }

  lemma StepKeepsCerts(codec: Codec, self: string, w: World, act: Action)
    requires CertsOwned(self, w) && Allowed(codec, self, w, act)
    ensures CertsOwned(self, Step(w, act))
  {
    if act.Commit? {
      CommitKeepsCerts(w, self, act.txn);
    } else {
      MoreIssued(self, w, Step(w, act));
    }
  }

  lemma CommitKeepsPlain(w: World, self: string, txn: Txn)
    requires PlainGroups(w.db) && MayCommit(w, self, txn)
    ensures PlainGroups(Apply(w.db, txn).value)
  {
  }

  lemma StepKeepsInv(codec: Codec, self: string, w: World, act: Action)
    requires Inv(codec, self, w) && Allowed(codec, self, w, act)
    ensures Inv(codec, self, Step(w, act))
  {
    if act.Commit? {
      CommitKeepsPlain(w, self, act.txn);
      ApplyKeepsLinks(w.db, act.txn);
      ApplyKeepsClean(w.db, act.txn);
      ApplyKeepsOneStaged(w.db, act.txn);
    }
    StepKeepsTrust(codec, self, w, act);
    StepKeepsBuilt(codec, self, w, act);
    StepKeepsProvenance(codec, self, w, act);
    StepKeepsCerts(codec, self, w, act);
  }

  /** Whatever runs, and wherever it stops, every trusted key of this instance is still held. */
  lemma {:induction false} RunKeepsInv(codec: Codec, self: string, w: World, acts: seq<Action>)
    requires Legal(codec, self, w, acts)
    ensures Inv(codec, self, Reached(w, acts))
    decreases |acts|
  {
    if acts != [] {
      RunKeepsInv(codec, self, w, acts[..|acts| - 1]);
      StepKeepsInv(codec, self, Reached(w, acts[..|acts| - 1]), acts[|acts| - 1]);
    }
  }

  lemma {:induction false} LegalPrefix(codec: Codec, self: string, w: World, acts: seq<Action>, n: nat)
    requires Legal(codec, self, w, acts) && n <= |acts|
    ensures Legal(codec, self, w, acts[..n])
    decreases |acts|
  {
    if n < |acts| {
      LegalPrefix(codec, self, w, acts[..|acts| - 1], n);
      assert acts[..|acts| - 1][..n] == acts[..n];
    } else {
      assert acts[..n] == acts;
    }
  }

  /**
   At any point of any run: a line on a peer for a key of this instance is for a key in ca/, ca.next/ or an archive.
   */
  lemma EveryLineHeld(codec: Codec, self: string, w: World, acts: seq<Action>, n: nat, a: Account, k: PublicKey)
    requires Legal(codec, self, w, acts) && n <= |acts|
    requires var w' := Reached(w, acts[..n]);
             a in w'.hosts && k in TrustedKeys(codec, w'.hosts[a].keys) && k in w'.minted
    ensures Held(Reached(w, acts[..n]).dirs, k)
  {
    LegalPrefix(codec, self, w, acts, n);
    RunKeepsInv(codec, self, w, acts[..n]);
  }

  /** A key once active stays in ca/ or an archive through any run. */
  lemma {:induction false} RunKeepsKept(codec: Codec, self: string, w: World, acts: seq<Action>, k: PublicKey)
    requires Legal(codec, self, w, acts) && Kept(w.dirs, k)
    ensures Kept(Reached(w, acts).dirs, k)
    decreases |acts|
  {
    if acts != [] {
      var init := acts[..|acts| - 1];
      RunKeepsKept(codec, self, w, init, k);
      StepKeepsDirs(codec, self, Reached(w, init), acts[|acts| - 1], k);
    }
  }
}
