/**
 The schema migration that runs at every open: one statement after the other, and it may stop after any of
 them. What it leads to does not depend on how often it was stopped.
 */
module Migration {
  import opened Wrappers
  import opened Fate

  datatype Value = Null | Int(n: int) | Text(s: string)

  /** A table: its columns, and its rows by primary key. */
  datatype Grid = Grid(cols: set<string>, rows: map<string, map<string, Value>>)

  /** The database file: its tables, and the schema_version recorded in meta. */
  datatype Base = Base(tables: map<string, Grid>, version: Option<nat>)

  // ---- Statements ----

  datatype Step =
    | Create(table: string)
    | Add(table: string, col: string)
    | Rebuild
    | Backfill
    | Stamp

  /** The tables of the base schema, and the columns they are created with. */
  function BaseCols(table: string): set<string> {
    match table
    case "peers" => {"name", "cert_serial", "pubkey_fingerprint", "authorized_key", "revoked", "created_at",
                     "last_krl_version"}
    case "groups" => {"name"}
    case "peer_groups" => {"peer_name", "group_name"}
    case "peer_allowed_groups" => {"peer_name", "group_name"}
    case "tokens" => {"token", "peer_name", "groups", "tarball", "consumed", "created_at"}
    case "ca" => {"version", "active", "created_at"}
    case _ => {}
  }

  const BASE: set<string> := {"peers", "groups", "peer_groups", "peer_allowed_groups", "tokens", "ca"}

  /** The columns of the rebuilt tables. */
  function RetainedCols(table: string): set<string> {
    match table
    case "peers" => {"name", "cert_serial", "pubkey_fingerprint", "authorized_key", "revoked", "created_at",
                     "target_user", "address"}
    case "tokens" => {"token", "peer_name", "groups", "tarball", "consumed", "created_at", "target_user"}
    case _ => {}
  }

  /** The columns that later versions add on top. */
  function ModernCols(table: string): set<string> {
    match table
    case "peers" => {"inbound", "pull_token", "cert", "push_reachable"}
    case "tokens" => {"staged_authorized_key", "staged_fingerprint", "staged_serial", "staged_cert",
                      "staged_pull_token", "staged_inbound", "staged_address", "staged_allowed"}
    case _ => {}
  }

  /** What a column added by the migration holds in old rows. */
  function Default(col: string): Value {
    match col
    case "mode" => Text("root")
    case "layout_version" => Int(1)
    case "inbound" => Int(1)
    case "push_reachable" => Int(1)
    case "staged_inbound" => Int(1)
    case "staged_serial" => Int(0)
    case "target_user" => Text("")
    case "address" => Text("")
    case "pull_token" => Text("")
    case "staged_fingerprint" => Text("")
    case "staged_pull_token" => Text("")
    case "staged_address" => Text("")
    case _ => Null
  }

  function ValueAt(row: map<string, Value>, col: string): Value {
    if col in row then row[col] else Default(col)
  }

  /** The table with exactly these columns; a missing one gets its default. */
  function Shaped(g: Grid, cols: set<string>): Grid {
    Grid(cols, map k | k in g.rows :: ShapedRow(g.rows[k], cols))
  }

  function ShapedRow(row: map<string, Value>, cols: set<string>): map<string, Value> {
    map c | c in cols :: ValueAt(row, c)
  }

  function Get(b: Base, table: string): Grid {
    if table in b.tables then b.tables[table] else Grid(BaseCols(table), map[])
  }

  predicate Dead(cols: set<string>) {
    "mode" in cols || "layout_version" in cols || "last_krl_version" in cols
  }

  /** Both tables cut down to the retained columns, and the krl_version table gone. */
  function Rebuilt(b: Base): Base {
    b.(tables := (b.tables - {"krl_version"})
         ["peers" := Shaped(Get(b, "peers"), RetainedCols("peers"))]
         ["tokens" := Shaped(Get(b, "tokens"), RetainedCols("tokens"))])
  }

  const FIRST_CA: map<string, map<string, Value>> :=
    map["1" := map["version" := Int(1), "active" := Int(1), "created_at" := Null]]

  function WithCA(b: Base, g: Grid): Base {
    b.(tables := b.tables["ca" := g])
  }

  /** A database with peers but no CA version gets version 1, active. */
  function Backfilled(b: Base): Base {
    if Get(b, "ca").rows == map[] && Get(b, "peers").rows != map[]
    then WithCA(b, Get(b, "ca").(rows := FIRST_CA))
    else b
  }

  function Do(b: Base, s: Step): Base {
    match s
    case Create(table) => if table in b.tables then b else b.(tables := b.tables[table := Get(b, table)])
    case Add(table, col) =>
      if col in Get(b, table).cols then b
      else b.(tables := b.tables[table := Shaped(Get(b, table), Get(b, table).cols + {col})])
    case Rebuild => if Dead(Get(b, "peers").cols) then Rebuilt(b) else b
    case Backfill => Backfilled(b)
    case Stamp => b.(version := Some(9))
  }

  // ---- The program ----

  const CREATES: seq<Step> :=
    [Create("peers"), Create("groups"), Create("peer_groups"), Create("peer_allowed_groups"), Create("tokens"),
     Create("ca")]

  const LEGACY: seq<Step> :=
    [Add("peers", "mode"), Add("peers", "target_user"), Add("tokens", "mode"), Add("tokens", "target_user"),
     Add("tokens", "tarball"), Add("peers", "layout_version"), Add("peers", "address")]

  const MODERN: seq<Step> :=
    [Add("peers", "inbound"), Add("peers", "pull_token"), Add("peers", "cert"), Add("peers", "push_reachable"),
     Add("tokens", "staged_authorized_key"), Add("tokens", "staged_fingerprint"), Add("tokens", "staged_serial"),
     Add("tokens", "staged_cert"), Add("tokens", "staged_pull_token"), Add("tokens", "staged_inbound"),
     Add("tokens", "staged_address"), Add("tokens", "staged_allowed")]

  /** Whether the version recorded is below the rebuilt shape. */
  predicate Old(b: Base) {
    b.version.None? || b.version.value < 6
  }

  function Program(old': bool): seq<Step> {
    CREATES + (if old' then LEGACY + [Rebuild] else []) + MODERN + [Backfill, Stamp]
  }

  function RunSteps(b: Base, steps: seq<Step>): Base {
    if steps == [] then b else Do(RunSteps(b, steps[..|steps| - 1]), steps[|steps| - 1])
  }

  /** An uninterrupted migration. */
  function Full(b: Base): Base {
    RunSteps(b, Program(Old(b)))
  }

  // ---- What it leads to ----

  function Created(b: Base): Base {
    b.(tables := map t | t in b.tables.Keys + BASE :: Get(b, t))
  }

  function Extended(b: Base): Base {
    b.(tables := b.tables["peers" := Shaped(Get(b, "peers"), Get(b, "peers").cols + ModernCols("peers"))]
                         ["tokens" := Shaped(Get(b, "tokens"), Get(b, "tokens").cols + ModernCols("tokens"))])
  }

  /** The migrated database, said outright. */
  function Final(b: Base): Base {
    Backfilled(Extended(if Old(b) then Rebuilt(Created(b)) else Created(b))).(version := Some(9))
  }

  /** Each row has a value for exactly the table's columns. */
  ghost predicate Sane(b: Base) {
    && Get(b, "ca").cols == BaseCols("ca")
    && forall t, k :: t in b.tables && k in b.tables[t].rows ==> b.tables[t].rows[k].Keys == b.tables[t].cols
  }

  lemma ShapedTwice(g: Grid, a: set<string>, b: set<string>)
    requires b <= a || forall k :: k in g.rows ==> g.rows[k].Keys <= a
    ensures Shaped(Shaped(g, a), b) == Shaped(g, b)
  {
    forall k | k in g.rows
      ensures ShapedRow(ShapedRow(g.rows[k], a), b) == ShapedRow(g.rows[k], b)
    {
      RowTwice(g.rows[k], a, b);
    }
    assert Shaped(Shaped(g, a), b).rows == Shaped(g, b).rows;
  }

  lemma RowTwice(row: map<string, Value>, a: set<string>, b: set<string>)
    requires b <= a || row.Keys <= a
    ensures ShapedRow(ShapedRow(row, a), b) == ShapedRow(row, b)
  {
  }

  lemma ShapedSame(g: Grid)
    requires forall k :: k in g.rows ==> g.rows[k].Keys == g.cols
    ensures Shaped(g, g.cols) == g
  {
    forall k | k in g.rows
      ensures ShapedRow(g.rows[k], g.cols) == g.rows[k]
    {
    }
    assert Shaped(g, g.cols).rows == g.rows;
  }

  // ---- Running parts of the program ----

  lemma {:induction false} RunAppend(b: Base, a: seq<Step>, c: seq<Step>)
    ensures RunSteps(b, a + c) == RunSteps(RunSteps(b, a), c)
  {
    if c == [] {
      assert a + c == a;
    } else {
      var n := |c| - 1;
      assert (a + c)[..|a + c| - 1] == a + c[..n];
      RunAppend(b, a, c[..n]);
    }
  }

  /** A statement that only adds tables or columns. */
  predicate Grows(s: Step) {
    (s.Create? && s.table in BASE) || (s.Add? && s.table in {"peers", "tokens"})
  }

  predicate Present(b: Base, s: Step) {
    match s
    case Create(table) => table in b.tables
    case Add(table, col) => table in b.tables && col in b.tables[table].cols
    case _ => true
  }

  /** Afterwards everything such statements add is there. */
  lemma {:induction false} GrownPresent(b: Base, steps: seq<Step>)
    requires Sane(b) && forall s :: s in steps ==> Grows(s)
    ensures var c := RunSteps(b, steps);
            && Sane(c) && c.version == b.version && b.tables.Keys <= c.tables.Keys
            && (forall t :: t in b.tables ==> b.tables[t].cols <= c.tables[t].cols)
            && (forall s :: s in steps && s.Create? ==> Present(c, s))
            && (forall s :: s in steps && s.Add? && s.table in b.tables ==> Present(c, s))
  {
    if steps != [] {
      var n := |steps| - 1;
      var init, s := steps[..n], steps[n];
      assert steps == init + [s];
      assert s in steps;
      assert forall x :: x in init ==> x in steps;
      GrownPresent(b, init);
      GrowsMore(RunSteps(b, init), s);
    }
  }

  lemma GrowsMore(b: Base, s: Step)
    requires Sane(b) && Grows(s)
    ensures Sane(Do(b, s)) && Do(b, s).version == b.version && b.tables.Keys <= Do(b, s).tables.Keys
    ensures forall t :: t in b.tables ==> b.tables[t].cols <= Do(b, s).tables[t].cols
    ensures s.Create? || s.table in b.tables ==> Present(Do(b, s), s)
    ensures forall x :: Present(b, x) ==> Present(Do(b, s), x)
  {
  }

  // ---- The creates ----

  lemma CreateKeeps(b: Base, table: string)
    requires table in BASE
    ensures Created(Do(b, Create(table))) == Created(b)
  {
    assert Created(Do(b, Create(table))).tables == Created(b).tables;
  }

  lemma {:induction false} CreatesKeep(b: Base, steps: seq<Step>)
    requires forall s :: s in steps ==> s.Create? && s.table in BASE
    ensures Created(RunSteps(b, steps)) == Created(b)
  {
    if steps != [] {
      var n := |steps| - 1;
      CreatesKeep(b, steps[..n]);
      assert steps[n] in steps;
      CreateKeeps(RunSteps(b, steps[..n]), steps[n].table);
    }
  }

  lemma CreatesMake(b: Base)
    requires Sane(b)
    ensures RunSteps(b, CREATES) == Created(b)
  {
    var c := RunSteps(b, CREATES);
    CreatesKeep(b, CREATES);
    GrownPresent(b, CREATES);
    forall t | t in BASE
      ensures t in c.tables
    {
      assert Create(t) in CREATES;
    }
    CreatedSame(c);
  }

  // ---- The legacy columns and the rebuild ----

  lemma AddKeepsRebuilt(b: Base, table: string, col: string)
    requires Sane(b) && table in {"peers", "tokens"} && table in b.tables
    ensures Rebuilt(Do(b, Add(table, col))) == Rebuilt(b)
  {
    var g := Get(b, table);
    if col !in g.cols {
      ShapedTwice(g, g.cols + {col}, RetainedCols(table));
      assert Rebuilt(Do(b, Add(table, col))).tables == Rebuilt(b).tables;
    }
  }

  lemma {:induction false} AddsKeepRebuilt(b: Base, steps: seq<Step>)
    requires Sane(b) && "peers" in b.tables && "tokens" in b.tables
    requires forall s :: s in steps ==> s.Add? && s.table in {"peers", "tokens"}
    ensures Rebuilt(RunSteps(b, steps)) == Rebuilt(b)
  {
    if steps != [] {
      var n := |steps| - 1;
      var init, s := steps[..n], steps[n];
      assert s in steps;
      assert forall x :: x in init ==> x in steps;
      AddsKeepRebuilt(b, init);
      GrownPresent(b, init);
      AddKeepsRebuilt(RunSteps(b, init), s.table, s.col);
    }
  }

  /** Below version 6 the legacy part always ends in the rebuild. */
  lemma LegacyRebuilds(b: Base)
    requires Sane(b) && "peers" in b.tables && "tokens" in b.tables
    ensures RunSteps(b, LEGACY + [Rebuild]) == Rebuilt(b)
  {
    var c := RunSteps(b, LEGACY);
    AddsKeepRebuilt(b, LEGACY);
    GrownPresent(b, LEGACY);
    assert Add("peers", "mode") in LEGACY;
    assert (LEGACY + [Rebuild])[..|LEGACY|] == LEGACY;
    assert Do(c, Rebuild) == Rebuilt(c);
  }

  // ---- The modern columns ----

  lemma AddKeepsExtended(b: Base, table: string, col: string)
    requires Sane(b) && table in {"peers", "tokens"} && table in b.tables && col in ModernCols(table)
    ensures Extended(Do(b, Add(table, col))) == Extended(b)
  {
    var g := Get(b, table);
    if col !in g.cols {
      assert g.cols + {col} + ModernCols(table) == g.cols + ModernCols(table);
      ShapedTwice(g, g.cols + {col}, g.cols + ModernCols(table));
      assert Extended(Do(b, Add(table, col))).tables == Extended(b).tables;
    }
  }

  predicate Modern(s: Step) {
    s.Add? && s.table in {"peers", "tokens"} && s.col in ModernCols(s.table)
  }

  lemma {:induction false} AddsKeepExtended(b: Base, steps: seq<Step>)
    requires Sane(b) && "peers" in b.tables && "tokens" in b.tables && forall s :: s in steps ==> Modern(s)
    ensures Extended(RunSteps(b, steps)) == Extended(b)
  {
    if steps != [] {
      var n := |steps| - 1;
      var init, s := steps[..n], steps[n];
      assert s in steps;
      assert forall x :: x in init ==> x in steps;
      AddsKeepExtended(b, init);
      GrownPresent(b, init);
      AddKeepsExtended(RunSteps(b, init), s.table, s.col);
    }
  }

  lemma ExtendedSame(b: Base)
    requires Sane(b) && "peers" in b.tables && "tokens" in b.tables
    requires ModernCols("peers") <= b.tables["peers"].cols && ModernCols("tokens") <= b.tables["tokens"].cols
    ensures Extended(b) == b
  {
    assert b.tables["peers"].cols + ModernCols("peers") == b.tables["peers"].cols;
    assert b.tables["tokens"].cols + ModernCols("tokens") == b.tables["tokens"].cols;
    ShapedSame(b.tables["peers"]);
    ShapedSame(b.tables["tokens"]);
    assert Extended(b).tables == b.tables;
  }

  lemma ModernListed()
    ensures forall s :: s in MODERN ==> Modern(s) && Grows(s)
    ensures forall col :: col in ModernCols("peers") ==> Add("peers", col) in MODERN
    ensures forall col :: col in ModernCols("tokens") ==> Add("tokens", col) in MODERN
  {
    ModernOf();
    ModernHas("peers");
    ModernHas("tokens");
  }

  lemma ModernOf()
    ensures forall i :: 0 <= i < |MODERN| ==> Modern(MODERN[i])
  {
  }

  lemma ModernHas(table: string)
    requires table in {"peers", "tokens"}
    ensures forall col :: col in ModernCols(table) ==> Add(table, col) in MODERN
  {
  }

  lemma ModernExtends(b: Base)
    requires Sane(b) && "peers" in b.tables && "tokens" in b.tables
    ensures RunSteps(b, MODERN) == Extended(b)
  {
    var c := RunSteps(b, MODERN);
    ModernListed();
    AddsKeepExtended(b, MODERN);
    GrownPresent(b, MODERN);
    forall col | col in ModernCols("peers")
      ensures col in c.tables["peers"].cols
    {
      assert Present(c, Add("peers", col));
    }
    forall col | col in ModernCols("tokens")
      ensures col in c.tables["tokens"].cols
    {
      assert Present(c, Add("tokens", col));
    }
    ExtendedSame(c);
  }

  // ---- The whole ----

  /** The database after the part that depends on the version recorded. */
  function Front(b: Base): Base {
    if Old(b) then Rebuilt(Created(b)) else Created(b)
  }

  lemma FrontSane(b: Base)
    requires Sane(b)
    ensures Sane(Created(b)) && Sane(Front(b)) && "peers" in Front(b).tables && "tokens" in Front(b).tables
  {
  }

  /** An uninterrupted migration leads to the database said outright. */
  lemma FullIsFinal(b: Base)
    requires Sane(b)
    ensures Full(b) == Final(b)
  {
    var mid := if Old(b) then LEGACY + [Rebuild] else [];
    CreatesMake(b);
    FrontSane(b);
    RunAppend(b, CREATES, mid);
    if Old(b) {
      LegacyRebuilds(Created(b));
    }
    assert RunSteps(b, CREATES + mid) == Front(b);
    RunAppend(b, CREATES + mid, MODERN);
    ModernExtends(Front(b));
    RunLast(RunSteps(b, CREATES + mid + MODERN), b, CREATES + mid + MODERN);
  }

  lemma RunLast(c: Base, b: Base, steps: seq<Step>)
    requires c == RunSteps(b, steps)
    ensures RunSteps(b, steps + [Backfill, Stamp]) == Backfilled(c).(version := Some(9))
  {
    assert (steps + [Backfill, Stamp])[..|steps| + 1] == steps + [Backfill];
    assert (steps + [Backfill])[..|steps|] == steps;
  }

  // ---- Each statement keeps where the migration leads ----

  lemma AddKeepsRetained(b: Base, table: string, col: string)
    requires Sane(b) && table in {"peers", "tokens"}
    ensures Rebuilt(Created(Do(b, Add(table, col)))) == Rebuilt(Created(b))
  {
    FrontSane(b);
    AddCreated(b, table, col);
    AddKeepsRebuilt(Created(b), table, col);
  }

  lemma AddCreated(b: Base, table: string, col: string)
    requires table in {"peers", "tokens"}
    ensures Created(Do(b, Add(table, col))) == Do(Created(b), Add(table, col))
    ensures "peers" in Created(b).tables && "tokens" in Created(b).tables
  {
    assert Created(Do(b, Add(table, col))).tables == Do(Created(b), Add(table, col)).tables;
  }

  lemma AddKeepsAll(b: Base, table: string, col: string)
    requires Sane(b) && table in {"peers", "tokens"} && col in ModernCols(table)
    ensures Extended(Created(Do(b, Add(table, col)))) == Extended(Created(b))
  {
    FrontSane(b);
    AddCreated(b, table, col);
    AddKeepsExtended(Created(b), table, col);
  }

  lemma RebuildAgain(b: Base)
    requires Sane(b)
    ensures Rebuilt(Created(Rebuilt(b))) == Rebuilt(Created(b))
  {
    ShapedTwice(Get(b, "peers"), RetainedCols("peers"), RetainedCols("peers"));
    ShapedTwice(Get(b, "tokens"), RetainedCols("tokens"), RetainedCols("tokens"));
    assert Rebuilt(Created(Rebuilt(b))).tables == Rebuilt(Created(b)).tables;
  }

  lemma CreatedAside(b: Base, g: Grid)
    ensures Created(WithCA(b, g)) == WithCA(Created(b), g)
  {
    assert Created(WithCA(b, g)).tables == WithCA(Created(b), g).tables;
  }

  lemma RebuiltAside(b: Base, g: Grid)
    ensures Rebuilt(WithCA(b, g)) == WithCA(Rebuilt(b), g)
  {
    assert Rebuilt(WithCA(b, g)).tables == WithCA(Rebuilt(b), g).tables;
  }

  lemma ExtendedAside(b: Base, g: Grid)
    ensures Extended(WithCA(b, g)) == WithCA(Extended(b), g)
  {
    assert Extended(WithCA(b, g)).tables == WithCA(Extended(b), g).tables;
  }

  /** A CA row put in first is still the only difference at the end. */
  lemma FrontAside(b: Base, g: Grid)
    ensures Extended(Front(WithCA(b, g))) == WithCA(Extended(Front(b)), g)
  {
    CreatedAside(b, g);
    RebuiltAside(Created(b), g);
    ExtendedAside(Front(b), g);
  }

  lemma SamePeers(b: Base)
    ensures Get(Extended(Front(b)), "peers").rows.Keys == Get(b, "peers").rows.Keys
    ensures Get(Extended(Front(b)), "ca") == Get(b, "ca")
  {
  }

  lemma BackfillsAlike(b: Base, e: Base)
    requires Backfilled(b) != b && Get(e, "ca") == Get(b, "ca")
             && Get(e, "peers").rows.Keys == Get(b, "peers").rows.Keys
    ensures var g := Get(b, "ca").(rows := FIRST_CA);
            Backfilled(b) == WithCA(b, g) && Backfilled(e) == WithCA(e, g) && Backfilled(WithCA(e, g)) == WithCA(e, g)
  {
    assert Get(b, "peers").rows.Keys != {};
  }

  lemma BackfillKeeps(b: Base)
    ensures Final(Backfilled(b)) == Final(b)
  {
    var g := Get(b, "ca").(rows := FIRST_CA);
    SamePeers(b);
    if Backfilled(b) != b {
      FrontAside(b, g);
      BackfillsAlike(b, Extended(Front(b)));
    }
  }

  lemma LegacyListed()
    ensures forall s :: s in LEGACY ==> s.Add? && s.table in {"peers", "tokens"}
    ensures forall s :: s in CREATES ==> s.Create? && s.table in BASE
  {
  }

  /** The statements of the program, by kind. */
  lemma ProgramSteps(old': bool, s: Step)
    requires s in Program(old') && s != Stamp
    ensures || (s.Create? && s.table in BASE) || (s.Add? && s.table in {"peers", "tokens"} && (old' || Modern(s)))
            || (s.Rebuild? && old') || s.Backfill?
  {
    ModernListed();
    LegacyListed();
    assert s in CREATES || (old' && (s in LEGACY || s in [Rebuild])) || s in MODERN || s in [Backfill, Stamp];
  }

  lemma RebuiltSane(b: Base)
    requires Sane(b)
    ensures Sane(Rebuilt(b))
  {
  }

  lemma StepKeepsSane(b: Base, s: Step)
    requires Sane(b) && s in Program(Old(b)) && s != Stamp
    ensures Sane(Do(b, s)) && Do(b, s).version == b.version
  {
    ProgramSteps(Old(b), s);
    if s.Rebuild? {
      RebuiltSane(b);
    } else if s.Create? || s.Add? {
      GrowsMore(b, s);
    }
  }

  lemma StepKeepsFinal(b: Base, s: Step)
    requires Sane(b) && s in Program(Old(b)) && s != Stamp
    ensures Sane(Do(b, s)) && Do(b, s).version == b.version && Final(Do(b, s)) == Final(b)
  {
    ProgramSteps(Old(b), s);
    StepKeepsSane(b, s);
    if s.Create? {
      CreateKeeps(b, s.table);
    } else if s.Add? {
      if Old(b) {
        AddKeepsRetained(b, s.table, s.col);
      } else {
        AddKeepsAll(b, s.table, s.col);
      }
    } else if s.Rebuild? {
      RebuildAgain(b);
    } else {
      BackfillKeeps(b);
    }
  }

  lemma {:induction false} PartKeepsFinal(b: Base, n: nat)
    requires Sane(b) && n < |Program(Old(b))|
    ensures var c := RunSteps(b, Program(Old(b))[..n]); Sane(c) && c.version == b.version && Final(c) == Final(b)
  {
    var p := Program(Old(b));
    if n > 0 {
      PartKeepsFinal(b, n - 1);
      assert p[..n][..n - 1] == p[..n - 1];
      OnlyLastStamps(Old(b), n - 1);
      var c := RunSteps(b, p[..n - 1]);
      assert Old(c) == Old(b);
      StepKeepsFinal(c, p[n - 1]);
    }
  }

  lemma OnlyLastStamps(old': bool, i: nat)
    requires i < |Program(old')| - 1
    ensures Program(old')[i] != Stamp
  {
    var mid := if old' then LEGACY + [Rebuild] else [];
    assert Program(old') == CREATES + mid + MODERN + [Backfill] + [Stamp];
    NoStamp(old');
    assert Program(old')[i] == (CREATES + mid + MODERN + [Backfill])[i];
  }

  lemma NoStamp(old': bool)
    ensures Stamp !in CREATES + (if old' then LEGACY + [Rebuild] else []) + MODERN + [Backfill]
  {
  }

  lemma ExtendedSane(b: Base)
    requires Sane(b)
    ensures Sane(Extended(b))
    ensures ModernCols("peers") <= Extended(b).tables["peers"].cols
            && ModernCols("tokens") <= Extended(b).tables["tokens"].cols
  {
  }

  lemma BackfilledSane(b: Base)
    requires Sane(b) && "peers" in b.tables && "tokens" in b.tables
    ensures var c := Backfilled(b);
            && Sane(c) && c.tables.Keys == b.tables.Keys + (if c == b then {} else {"ca"})
            && c.tables["peers"] == b.tables["peers"] && c.tables["tokens"] == b.tables["tokens"] && Backfilled(c) == c
  {
  }

  lemma FinalSane(b: Base)
    requires Sane(b)
    ensures Sane(Final(b)) && !Old(Final(b))
  {
    FrontSane(b);
    ExtendedSane(Front(b));
    BackfilledSane(Extended(Front(b)));
  }

  /** A migrated database is left alone. */
  lemma FinalStable(b: Base)
    requires Sane(b)
    ensures Final(Final(b)) == Final(b)
  {
    var f := Final(b);
    FinalSane(b);
    FrontSane(b);
    ExtendedSane(Front(b));
    BackfilledSane(Extended(Front(b)));
    BasePresent(b);
    CreatedSame(f);
    ExtendedSame(f);
    BackfilledSane(f);
  }

  lemma CreatedSame(b: Base)
    requires BASE <= b.tables.Keys
    ensures Created(b) == b
  {
    assert Created(b).tables == b.tables;
  }

  lemma BasePresent(b: Base)
    ensures BASE <= Extended(Front(b)).tables.Keys
  {
  }

  /** Stopped after any number of statements and run again from the start, the migration leads to the same database. */
  lemma Resume(b: Base, n: nat)
    requires Sane(b) && n <= |Program(Old(b))|
    ensures var c := RunSteps(b, Program(Old(b))[..n]); Sane(c) && Full(c) == Full(b)
  {
    var p := Program(Old(b));
    FullIsFinal(b);
    if n < |p| {
      PartKeepsFinal(b, n);
      FullIsFinal(RunSteps(b, p[..n]));
    } else {
      assert p[..n] == p;
      FinalSane(b);
      FullIsFinal(Final(b));
      FinalStable(b);
    }
  }

  /** A history of opens, each of which stopped after some number of statements. */
  function Opens(b: Base, stops: seq<nat>): Base
    decreases |stops|
  {
    if stops == [] then b
    else
      var p := Program(Old(b));
      Opens(RunSteps(b, p[..if stops[0] < |p| then stops[0] else |p|]), stops[1..])
  }

  /** However many opens were stopped, and wherever, the next full one leads where one full open would have led. */
  lemma {:induction false} ResumeMany(b: Base, stops: seq<nat>)
    requires Sane(b)
    ensures Sane(Opens(b, stops)) && Full(Opens(b, stops)) == Full(b)
    decreases |stops|
  {
    if stops != [] {
      var p := Program(Old(b));
      var n := if stops[0] < |p| then stops[0] else |p|;
      Resume(b, n);
      ResumeMany(RunSteps(b, p[..n]), stops[1..]);
    }
  }

  // ---- What is kept ----

  /** The row has every value it had. */
  ghost predicate RowKept(row: map<string, Value>, row': map<string, Value>) {
    forall col :: col in row ==> col in row' && row'[col] == row[col]
  }

  /** The table has every column and every row it had, with every value, and no other row unless it had none. */
  ghost predicate GridKept(g: Grid, g': Grid) {
    && g.cols <= g'.cols && (forall k :: k in g.rows ==> k in g'.rows && RowKept(g.rows[k], g'.rows[k]))
    && (g.rows != map[] ==> g'.rows.Keys == g.rows.Keys)
  }

  /** So has every table. */
  ghost predicate AllKept(b: Base, c: Base) {
    forall t :: t in b.tables ==> t in c.tables && GridKept(b.tables[t], c.tables[t])
  }

  lemma KeptOn(b: Base, c: Base, e: Base)
    requires AllKept(b, c) && AllKept(c, e)
    ensures AllKept(b, e)
  {
    forall t | t in b.tables
      ensures GridKept(b.tables[t], e.tables[t])
    {
      GridOn(b.tables[t], c.tables[t], e.tables[t]);
    }
  }

  lemma GridOn(g: Grid, g1: Grid, g2: Grid)
    requires GridKept(g, g1) && GridKept(g1, g2)
    ensures GridKept(g, g2)
  {
    forall k | k in g.rows
      ensures RowKept(g.rows[k], g2.rows[k])
    {
      assert RowKept(g1.rows[k], g2.rows[k]);
    }
    assert g.rows != map[] ==> g1.rows.Keys != {};
  }

  lemma AddKeeps(g: Grid, col: string)
    requires forall k :: k in g.rows ==> g.rows[k].Keys == g.cols
    ensures GridKept(g, Shaped(g, g.cols + {col}))
  {
  }

  /** A statement of the program from version 6 on. */
  lemma StepKeepsAll(b: Base, s: Step)
    requires Sane(b) && !Old(b) && s in Program(false)
    ensures Sane(Do(b, s)) && !Old(Do(b, s)) && AllKept(b, Do(b, s))
  {
    if s != Stamp {
      StepKeepsSane(b, s);
      ProgramSteps(false, s);
      if s.Add? {
        AddKeeps(Get(b, s.table), s.col);
      }
    }
  }

  lemma {:induction false} PartKeepsAll(b: Base, n: nat)
    requires Sane(b) && !Old(b) && n <= |Program(false)|
    ensures var c := RunSteps(b, Program(false)[..n]); Sane(c) && !Old(c) && AllKept(b, c)
  {
    var p := Program(false);
    if n > 0 {
      PartKeepsAll(b, n - 1);
      assert p[..n][..n - 1] == p[..n - 1];
      var c := RunSteps(b, p[..n - 1]);
      StepKeepsAll(c, p[n - 1]);
      KeptOn(b, c, Do(c, p[n - 1]));
    }
  }

  /**
   Once version 6 or later is recorded no open, finished or stopped anywhere, rebuilds or drops a table, loses a column,
   a row or a value, or goes back below version 6.
   */
  lemma {:induction false} NoRebuild(b: Base, stops: seq<nat>)
    requires Sane(b) && b.version.Some? && b.version.value >= 6
    ensures var c := Opens(b, stops); c.version.Some? && c.version.value >= 6 && AllKept(b, c)
    decreases |stops|
  {
    if stops != [] {
      var p := Program(Old(b));
      var n := if stops[0] < |p| then stops[0] else |p|;
      PartKeepsAll(b, n);
      NoRebuild(RunSteps(b, p[..n]), stops[1..]);
      KeptOn(b, RunSteps(b, p[..n]), Opens(b, stops));
    }
  }

  /** The table has this row, with this value in the column. */
  ghost predicate HasValue(b: Base, table: string, k: string, col: string, v: Value) {
    && table in b.tables && k in b.tables[table].rows
    && col in b.tables[table].rows[k] && b.tables[table].rows[k][col] == v
  }

  lemma FrontKeepsValue(b: Base, table: string, k: string, col: string, v: Value)
    requires Sane(b) && HasValue(b, table, k, col, v) && table != "krl_version"
    requires Old(b) && table in {"peers", "tokens"} ==> col in RetainedCols(table)
    ensures HasValue(Front(b), table, k, col, v)
  {
  }

  lemma ExtendedKeepsValue(b: Base, table: string, k: string, col: string, v: Value)
    requires Sane(b) && HasValue(b, table, k, col, v)
    ensures HasValue(Extended(b), table, k, col, v)
  {
  }

  /** The columns that a migration keeps: below version 6 two tables are rebuilt with these, and one goes. */
  predicate Carried(version: Option<nat>, table: string, col: string) {
    version.None? || version.value < 6 ==>
      && table != "krl_version"
      && (table == "peers" ==>
            col in {"name", "cert_serial", "pubkey_fingerprint", "authorized_key", "revoked", "created_at",
                    "target_user", "address"})
      && (table == "tokens" ==>
            col in {"token", "peer_name", "groups", "tarball", "consumed", "created_at", "target_user"})
  }

  /** Every row survives with every value in these columns. */
  lemma ValuesKept(b: Base, table: string, k: string, col: string)
    requires Sane(b) && table in b.tables && k in b.tables[table].rows && col in b.tables[table].rows[k]
    requires Carried(b.version, table, col)
    ensures HasValue(Full(b), table, k, col, b.tables[table].rows[k][col])
  {
    var v := b.tables[table].rows[k][col];
    FullIsFinal(b);
    FrontSane(b);
    if Old(b) {
      FrontKeepsValue(b, table, k, col, v);
    }
    ExtendedKeepsValue(Front(b), table, k, col, v);
  }

  // ---- What is new ----

  /** Each row of the table has v in a column that the migration had to add. */
  ghost predicate Filled(b: Base, f: Base, table: string, col: string, v: Value) {
    table in f.tables &&
    forall k :: table in b.tables && k in b.tables[table].rows && col !in b.tables[table].cols ==>
      HasValue(f, table, k, col, v)
  }

  /**
   What the added columns hold in the rows that were there: every peer can log in and be dialed, has no certificate on
   file and nothing to pull with, and every token is an ordinary one.
   */
  ghost predicate NewValues(b: Base, f: Base) {
    && Filled(b, f, "peers", "inbound", Int(1)) && Filled(b, f, "peers", "push_reachable", Int(1))
    && Filled(b, f, "peers", "pull_token", Text("")) && Filled(b, f, "peers", "cert", Null)
    && Filled(b, f, "tokens", "staged_authorized_key", Null) && Filled(b, f, "tokens", "staged_cert", Null)
    && Filled(b, f, "tokens", "staged_allowed", Null) && Filled(b, f, "tokens", "staged_inbound", Int(1))
    && Filled(b, f, "tokens", "staged_serial", Int(0)) && Filled(b, f, "tokens", "staged_fingerprint", Text(""))
    && Filled(b, f, "tokens", "staged_pull_token", Text("")) && Filled(b, f, "tokens", "staged_address", Text(""))
  }

  /** Below version 6 these are added too. */
  ghost predicate LegacyValues(b: Base, f: Base) {
    && Filled(b, f, "peers", "target_user", Text("")) && Filled(b, f, "peers", "address", Text(""))
    && Filled(b, f, "tokens", "target_user", Text("")) && Filled(b, f, "tokens", "tarball", Null)
  }

  lemma ExtendedFills(b: Base, table: string, k: string, col: string)
    requires Sane(b) && table in {"peers", "tokens"} && table in b.tables && k in b.tables[table].rows
    requires col in ModernCols(table) && col !in b.tables[table].cols
    ensures HasValue(Extended(b), table, k, col, Default(col))
  {
    var row := b.tables[table].rows[k];
    assert ShapedRow(row, b.tables[table].cols + ModernCols(table))[col] == Default(col);
  }

  /** The row of a table is there before the modern columns are, without one that it did not have. */
  lemma FrontLacks(b: Base, table: string, k: string, col: string)
    requires Sane(b) && table in {"peers", "tokens"} && table in b.tables && k in b.tables[table].rows
    requires col !in b.tables[table].cols && (Old(b) ==> col !in RetainedCols(table))
    ensures table in Front(b).tables && k in Front(b).tables[table].rows && col !in Front(b).tables[table].cols
  {
  }

  lemma ModernFilled(b: Base, table: string, k: string, col: string)
    requires Sane(b) && table in {"peers", "tokens"} && table in b.tables && k in b.tables[table].rows
    requires col in ModernCols(table) && col !in b.tables[table].cols
    ensures HasValue(Extended(Front(b)), table, k, col, Default(col))
  {
    FrontSane(b);
    FrontLacks(b, table, k, col);
    ExtendedFills(Front(b), table, k, col);
  }

  lemma LegacyFilled(b: Base, table: string, k: string, col: string)
    requires Sane(b) && Old(b) && table in {"peers", "tokens"} && table in b.tables && k in b.tables[table].rows
    requires col in RetainedCols(table) && col !in b.tables[table].cols
    ensures HasValue(Extended(Front(b)), table, k, col, Default(col))
  {
    FrontSane(b);
    assert HasValue(Front(b), table, k, col, Default(col));
    ExtendedKeepsValue(Front(b), table, k, col, Default(col));
  }

  lemma AllFilled(b: Base, table: string, col: string, v: Value)
    requires Sane(b) && table in {"peers", "tokens"} && v == Default(col)
    requires col in ModernCols(table) || (Old(b) && col in RetainedCols(table))
    ensures Filled(b, Full(b), table, col, v)
  {
    FullIsFinal(b);
    FrontSane(b);
    forall k | table in b.tables && k in b.tables[table].rows && col !in b.tables[table].cols
      ensures HasValue(Full(b), table, k, col, v)
    {
      if col in ModernCols(table) {
        ModernFilled(b, table, k, col);
      } else {
        LegacyFilled(b, table, k, col);
      }
    }
  }

  lemma PeersFilled(b: Base)
    requires Sane(b)
    ensures Filled(b, Full(b), "peers", "inbound", Int(1)) && Filled(b, Full(b), "peers", "push_reachable", Int(1))
    ensures Filled(b, Full(b), "peers", "pull_token", Text("")) && Filled(b, Full(b), "peers", "cert", Null)
  {
    AllFilled(b, "peers", "inbound", Int(1));
    AllFilled(b, "peers", "push_reachable", Int(1));
    AllFilled(b, "peers", "pull_token", Text(""));
    AllFilled(b, "peers", "cert", Null);
  }

  lemma TokensFilled(b: Base)
    requires Sane(b)
    ensures var f := Full(b);
            && Filled(b, f, "tokens", "staged_authorized_key", Null) && Filled(b, f, "tokens", "staged_cert", Null)
            && Filled(b, f, "tokens", "staged_allowed", Null) && Filled(b, f, "tokens", "staged_inbound", Int(1))
            && Filled(b, f, "tokens", "staged_serial", Int(0))
  {
    AllFilled(b, "tokens", "staged_authorized_key", Null);
    AllFilled(b, "tokens", "staged_cert", Null);
    AllFilled(b, "tokens", "staged_allowed", Null);
    AllFilled(b, "tokens", "staged_inbound", Int(1));
    AllFilled(b, "tokens", "staged_serial", Int(0));
  }

  lemma TextsFilled(b: Base)
    requires Sane(b)
    ensures var f := Full(b);
            && Filled(b, f, "tokens", "staged_fingerprint", Text(""))
            && Filled(b, f, "tokens", "staged_pull_token", Text(""))
            && Filled(b, f, "tokens", "staged_address", Text(""))
  {
    AllFilled(b, "tokens", "staged_fingerprint", Text(""));
    AllFilled(b, "tokens", "staged_pull_token", Text(""));
    AllFilled(b, "tokens", "staged_address", Text(""));
  }

  /** A migration leaves old rows with these values in the columns that they did not have. */
  lemma NewColumns(b: Base)
    requires Sane(b)
    ensures NewValues(b, Full(b))
    ensures b.version.None? || b.version.value < 6 ==> LegacyValues(b, Full(b))
  {
    PeersFilled(b);
    TokensFilled(b);
    TextsFilled(b);
    if Old(b) {
      AllFilled(b, "peers", "target_user", Text(""));
      AllFilled(b, "peers", "address", Text(""));
      AllFilled(b, "tokens", "target_user", Text(""));
      AllFilled(b, "tokens", "tarball", Null);
    }
  }

  /** The columns that the program works with are there afterwards. */
  ghost predicate Usable(f: Base) {
    && {"peers", "groups", "peer_groups", "peer_allowed_groups", "tokens", "ca"} <= f.tables.Keys
    && {"inbound", "pull_token", "cert", "push_reachable"} <= f.tables["peers"].cols
    && {"staged_authorized_key", "staged_fingerprint", "staged_serial", "staged_cert", "staged_pull_token",
        "staged_inbound", "staged_address", "staged_allowed"} <= f.tables["tokens"].cols
  }

  /** A database that is new, or from before version 6, has exactly these columns in its two rebuilt tables. */
  ghost predicate Clean(f: Base) {
    && "peers" in f.tables && "tokens" in f.tables && "krl_version" !in f.tables
    && f.tables["peers"].cols ==
         {"name", "cert_serial", "pubkey_fingerprint", "authorized_key", "revoked", "created_at", "target_user",
          "address", "inbound", "pull_token", "cert", "push_reachable"}
    && f.tables["tokens"].cols ==
         {"token", "peer_name", "groups", "tarball", "consumed", "created_at", "target_user",
          "staged_authorized_key", "staged_fingerprint", "staged_serial", "staged_cert", "staged_pull_token",
          "staged_inbound", "staged_address", "staged_allowed"}
  }

  /** A table that was missing is created with these columns, and the group and CA tables are otherwise as they were. */
  ghost predicate Made(b: Base, f: Base) {
    && Known(b, f, "groups", {"name"})
    && Known(b, f, "peer_groups", {"peer_name", "group_name"})
    && Known(b, f, "peer_allowed_groups", {"peer_name", "group_name"})
  }

  ghost predicate Known(b: Base, f: Base, table: string, cols: set<string>) {
    table in f.tables && f.tables[table] == if table in b.tables then b.tables[table] else Grid(cols, map[])
  }

  /** No row of a peer or a token came or went. */
  ghost predicate SameRows(b: Base, f: Base) {
    forall t :: t in {"peers", "tokens"} ==>
      t in f.tables && f.tables[t].rows.Keys == if t in b.tables then b.tables[t].rows.Keys else {}
  }

  /** A database with peers but no CA version has got the first one, active; any other keeps its CA versions. */
  ghost predicate HasCA(b: Base, f: Base) {
    "ca" in f.tables &&
    if "ca" in b.tables && b.tables["ca"].rows != map[] then f.tables["ca"] == b.tables["ca"]
    else f.tables["ca"].rows ==
         if "peers" in b.tables && b.tables["peers"].rows != map[]
         then map["1" := map["version" := Int(1), "active" := Int(1), "created_at" := Null]] else map[]
  }

  ghost predicate Survives(b: Base, f: Base) {
    forall table, k, col :: table in b.tables && k in b.tables[table].rows && col in b.tables[table].rows[k]
                            && Carried(b.version, table, col) ==>
      HasValue(f, table, k, col, b.tables[table].rows[k][col])
  }

  /** What a migration of b promises of the database f: version, columns, rows, old values and new ones. */
  ghost predicate Promised(b: Base, f: Base) {
    && f.version == Some(9) && Usable(f) && Made(b, f) && SameRows(b, f) && HasCA(b, f)
    && Survives(b, f) && NewValues(b, f)
    && (b.version.None? || b.version.value < 6 ==> Clean(f) && LegacyValues(b, f))
  }

  /** An uninterrupted migration keeps the promise. */
  lemma Migrated(b: Base)
    requires Sane(b)
    ensures Promised(b, Full(b))
  {
    FullIsFinal(b);
    FinalUsable(b);
    if Old(b) {
      FinalClean(b);
    }
    FinalMade(b);
    FinalCA(b);
    NewColumns(b);
    forall table, k, col | table in b.tables && k in b.tables[table].rows && col in b.tables[table].rows[k]
                           && Carried(b.version, table, col)
      ensures HasValue(Full(b), table, k, col, b.tables[table].rows[k][col])
    {
      ValuesKept(b, table, k, col);
    }
  }

  lemma FinalMade(b: Base)
    ensures Made(b, Final(b)) && SameRows(b, Final(b))
  {
    FrontMade(b);
    MadeOn(Front(b));
  }

  lemma FrontMade(b: Base)
    ensures Made(b, Front(b)) && SameRows(b, Front(b))
  {
  }

  /** The modern columns and the CA version touch none of this. */
  lemma MadeOn(c: Base)
    requires "peers" in c.tables && "tokens" in c.tables
    ensures var f := Backfilled(Extended(c));
            && SameRows(c, f)
            && forall t :: t in {"groups", "peer_groups", "peer_allowed_groups"} && t in c.tables ==>
                 t in f.tables && f.tables[t] == c.tables[t]
  {
  }

  lemma FinalCA(b: Base)
    ensures HasCA(b, Final(b))
  {
    BasePresent(b);
    SamePeers(b);
    assert Get(b, "peers").rows.Keys == {} <==> Get(b, "peers").rows == map[];
  }

  lemma FinalUsable(b: Base)
    requires Sane(b)
    ensures Usable(Final(b))
  {
    FrontSane(b);
    ExtendedSane(Front(b));
    BasePresent(b);
    ModernSaid();
  }

  lemma ModernSaid()
    ensures ModernCols("peers") == {"inbound", "pull_token", "cert", "push_reachable"}
    ensures ModernCols("tokens") == {"staged_authorized_key", "staged_fingerprint", "staged_serial", "staged_cert",
                                     "staged_pull_token", "staged_inbound", "staged_address", "staged_allowed"}
  {
  }

  lemma FinalClean(b: Base)
    requires Sane(b) && Old(b)
    ensures Clean(Final(b))
  {
    ModernSaid();
    ExtendedCols(Rebuilt(Created(b)));
    assert "krl_version" !in Front(b).tables;
  }

  lemma ExtendedCols(b: Base)
    requires "peers" in b.tables && "tokens" in b.tables
    ensures Extended(b).tables.Keys == b.tables.Keys
    ensures forall t :: t in {"peers", "tokens"} ==> Extended(b).tables[t].cols == b.tables[t].cols + ModernCols(t)
  {
  }

  // ---- The migration as it runs ----

  /** The database file while it is opened. */
  class DbFile {
    var base: Base
    const fate: Fates
    ghost const start: Base       // the file as it was found
    ghost var done: seq<Step>     // the statements that took effect, in order
    ghost var todo: seq<Step>     // those still to come

    ghost predicate Valid()
      reads this
    {
      Sane(start) && done + todo == Program(Old(start)) && base == RunSteps(start, done)
    }

    constructor (base: Base, fate: Fates)
      requires Sane(base)
      ensures Valid() && this.base == start == base && done == [] && this.fate == fate
    {
      this.base, this.start, this.fate := base, base, fate;
      this.done, this.todo := [], Program(Old(base));
    }

    /**
     One statement that takes effect, or fails and has none. A column is added only where it is missing, and tables
     are rebuilt only for a dead one.
     */
    method Exec(s: Step) returns (ok: bool)
      requires Valid() && todo != [] && todo[0] == s
      requires s.Add? ==> s.col !in Get(base, s.table).cols
      requires s.Rebuild? ==> Dead(Get(base, "peers").cols)
      modifies this
      ensures Valid() && (if ok then todo == old(todo)[1..] else todo == old(todo))
      ensures Sure(fate, Statement) ==> ok
    {
      ok := Try(fate, Statement);
      if ok {
        base := Do(base, s);
        assert (done + [s])[..|done|] == done;
        assert done + [s] + todo[1..] == done + todo;
        done := done + [s];
        todo := todo[1..];
      }
    }

    /** A statement that is left out because its effect is there already. */
    ghost method Skip(s: Step)
      requires Valid() && todo != [] && todo[0] == s && Do(base, s) == base
      modifies this`done, this`todo
      ensures Valid() && todo == old(todo)[1..]
    {
      assert (done + [s])[..|done|] == done;
      assert done + [s] + todo[1..] == done + todo;
      done := done + [s];
      todo := todo[1..];
    }

    /** ALTER TABLE ADD COLUMN behind a presence check. */
    method AddColumn(table: string, col: string) returns (ok: bool)
      requires Valid() && todo != [] && todo[0] == Add(table, col)
      modifies this
      ensures Valid() && (if ok then todo == old(todo)[1..] else todo == old(todo))
      ensures Sure(fate, Statement) ==> ok
    {
      if col in Get(base, table).cols {
        Skip(Add(table, col));
        return true;
      }
      ok := Exec(Add(table, col));
    }

    /** A run of column additions. */
    method AddColumns(adds: seq<(string, string)>) returns (ok: bool)
      requires Valid() && |adds| <= |todo| && forall i :: 0 <= i < |adds| ==> todo[i] == Add(adds[i].0, adds[i].1)
      modifies this
      ensures Valid() && (ok ==> todo == old(todo)[|adds|..])
      ensures Sure(fate, Statement) ==> ok
    {
      for i := 0 to |adds|
        invariant Valid() && todo == old(todo)[i..]
      {
        ok := AddColumn(adds[i].0, adds[i].1);
        if !ok {
          return false;
        }
      }
      return true;
    }

    /** CREATE TABLE IF NOT EXISTS for every base table. */
    method ApplySchema() returns (ok: bool)
      requires Valid() && CREATES <= todo
      modifies this
      ensures Valid() && (ok ==> todo == old(todo)[|CREATES|..])
      ensures Sure(fate, Statement) ==> ok
    {
      for i := 0 to |CREATES|
        invariant Valid() && todo == old(todo)[i..]
      {
        assert todo[0] == CREATES[i];
        ok := Exec(CREATES[i]);
        if !ok {
          return false;
        }
      }
      return true;
    }

    /**
     The add steps for databases below version 6, then dropDeadColumns: one transaction, skipped when no dead column
     is left.
     */
    method MigrateLegacy() returns (ok: bool)
      requires Valid() && LEGACY + [Rebuild] <= todo
      modifies this
      ensures Valid() && (ok ==> todo == old(todo)[|LEGACY| + 1..])
      ensures Sure(fate, Statement) ==> ok
    {
      var adds := [("peers", "mode"), ("peers", "target_user"), ("tokens", "mode"), ("tokens", "target_user"),
                   ("tokens", "tarball"), ("peers", "layout_version"), ("peers", "address")];
      LegacyAt(todo);
      ok := AddColumns(adds);
      if !ok {
        return false;
      }
      assert todo[0] == old(todo)[|LEGACY|];
      if !Dead(Get(base, "peers").cols) {
        Skip(Rebuild);
        return true;
      }
      ok := Exec(Rebuild);
      if !ok {
        return false;
      }
      var foreignKeysHold := Try(fate, Statement);
      return foreignKeysHold;
    }

    /** The columns of versions 7 to 9, on every open. */
    method AddModernColumns() returns (ok: bool)
      requires Valid() && MODERN <= todo
      modifies this
      ensures Valid() && (ok ==> todo == old(todo)[|MODERN|..])
      ensures Sure(fate, Statement) ==> ok
    {
      var adds := [("peers", "inbound"), ("peers", "pull_token"), ("peers", "cert"), ("peers", "push_reachable"),
                   ("tokens", "staged_authorized_key"), ("tokens", "staged_fingerprint"), ("tokens", "staged_serial"),
                   ("tokens", "staged_cert"), ("tokens", "staged_pull_token"), ("tokens", "staged_inbound"),
                   ("tokens", "staged_address"), ("tokens", "staged_allowed")];
      ModernAt(todo);
      ok := AddColumns(adds);
    }

    /** The part that every open runs: the modern columns, the CA version, the recorded version. */
    method MigrateModern() returns (ok: bool)
      requires Valid() && todo == MODERN + [Backfill, Stamp]
      modifies this
      ensures Valid() && (ok ==> todo == [])
      ensures Sure(fate, Statement) ==> ok
    {
      ok := AddModernColumns();
      if !ok {
        return false;
      }
      ok := Exec(Backfill);
      if !ok {
        return false;
      }
      ok := Exec(Stamp);
    }

    /**
     DB.migrate. It may stop anywhere; a later full run from what it left leads to the database that one
     uninterrupted run leads to, and a run that went through is there.
     */
    method Migrate() returns (ok: bool)
      requires Valid() && done == [] && base == start
      modifies this
      ensures Valid() && Full(base) == Full(old(base)) && (Sure(fate, Statement) ==> ok)
      ensures ok ==> base == Final(old(base)) && Promised(old(base), base)
    {
      var legacy := Old(base);
      ProgramParts(legacy);
      ok := ApplySchema();
      if ok && legacy {
        ok := MigrateLegacy();
      }
      if ok {
        ok := MigrateModern();
      }
      Stopped(start, done, todo);
      FullIsFinal(start);
      Migrated(start);
    }
  }

  lemma Stopped(b: Base, done: seq<Step>, todo: seq<Step>)
    requires Sane(b) && done + todo == Program(Old(b))
    ensures Full(RunSteps(b, done)) == Full(b)
    ensures todo == [] ==> RunSteps(b, done) == Final(b)
  {
    Resume(b, |done|);
    assert (done + todo)[..|done|] == done;
    if todo == [] {
      assert done + [] == done;
      FullIsFinal(b);
    }
  }

  lemma LegacyAt(todo: seq<Step>)
    requires LEGACY + [Rebuild] <= todo
    ensures forall i :: 0 <= i < |LEGACY| ==> todo[i] == LEGACY[i]
    ensures todo[|LEGACY|] == Rebuild
  {
    assert forall i :: 0 <= i < |LEGACY| ==> (LEGACY + [Rebuild])[i] == LEGACY[i];
    assert (LEGACY + [Rebuild])[|LEGACY|] == Rebuild;
  }

  lemma ModernAt(todo: seq<Step>)
    requires MODERN <= todo
    ensures forall i :: 0 <= i < |MODERN| ==> todo[i] == MODERN[i]
  {
  }

  /** The program falls into its parts in order. */
  lemma ProgramParts(old': bool)
    ensures CREATES <= Program(old')
    ensures var rest := Program(old')[|CREATES|..];
            && (old' ==> LEGACY + [Rebuild] <= rest && rest[|LEGACY| + 1..] == MODERN + [Backfill, Stamp])
            && (!old' ==> rest == MODERN + [Backfill, Stamp])
    ensures MODERN <= MODERN + [Backfill, Stamp] && (MODERN + [Backfill, Stamp])[|MODERN|..] == [Backfill, Stamp]
    ensures [Backfill, Stamp][1..] == [Stamp] && [Stamp][1..] == []
  {
    var mid := if old' then LEGACY + [Rebuild] else [];
    assert Program(old') == CREATES + (mid + (MODERN + [Backfill, Stamp]));
  }
}
