/** `migrate`: the schema upgrade that `NewSQLStore` runs at every start. It may die after
    any statement; running it again ends where an uninterrupted run would have ended. */
module Migration {
  import opened Domain

  datatype TableName = Users | ApiKeys | Environments | Snapshots | Skills

  /** Rows are maps from column to value. Constraints are the named foreign keys. */
  datatype Table = Table(cols: set<string>, rows: seq<map<string, string>>, constraints: set<string>)

  datatype Database = Database(tables: map<TableName, Table>, indexes: map<string, (TableName, string)>)

  datatype Stmt =
    | Pragma
    | CreateTable(t: TableName, cols: set<string>)
    | AddColumn(t: TableName, col: string)       // `addColumnIfMissing`, default ''
    | CreateIndex(name: string, t: TableName, col: string)
    | Backfill(t: TableName)                     // tenant_id = user_id where tenant_id = ''
    | DropConstraint(t: TableName, name: string)

  // ---- The statements -----------------------------------------------------------------

  function EnvironmentColumns(): set<string> {
    {"id", "user_id", "tenant_id", "status", "container_id", "created_at", "last_used_at", "expires_at", "spec_image",
     "spec_cpu", "spec_memory_mb", "spec_disk_mb", "spec_network_policy", "spec_env_vars"}
  }

  function SnapshotColumns(): set<string> {
    {"id", "user_id", "tenant_id", "environment_id", "image_id", "label", "size", "created_at"}
  }

  function SkillColumns(): set<string> {
    {"id", "user_id", "tenant_id", "name", "archive", "size", "created_at", "updated_at"}
  }

  function TableStmts(isPG: bool): seq<Stmt> {
    (if isPG then [] else [Pragma]) +
    [CreateTable(Users, {"id", "created_at"}),
     CreateTable(ApiKeys, {"key_hash", "user_id", "created_at"}),
     CreateTable(Environments, EnvironmentColumns()),
     CreateTable(Snapshots, SnapshotColumns()),
     CreateTable(Skills, SkillColumns())]
  }

  function ColumnStmts(): seq<Stmt> {
    [AddColumn(Environments, "user_id"), AddColumn(Environments, "tenant_id"), AddColumn(Snapshots, "tenant_id")]
  }

  function IndexStmts(): seq<Stmt> {
    [CreateIndex("idx_environments_user_id", Environments, "user_id"),
     CreateIndex("idx_environments_tenant_id", Environments, "tenant_id"),
     CreateIndex("idx_snapshots_user_id", Snapshots, "user_id"),
     CreateIndex("idx_snapshots_tenant_id", Snapshots, "tenant_id"),
     CreateIndex("idx_skills_user_id", Skills, "user_id"),
     CreateIndex("idx_skills_tenant_id", Skills, "tenant_id")]
  }

  function BackfillStmts(): seq<Stmt> { [Backfill(Environments), Backfill(Snapshots)] }

  function ConstraintStmts(isPG: bool): seq<Stmt> {
    if isPG then [DropConstraint(Environments, "environments_user_id_fkey"),
                  DropConstraint(Snapshots, "snapshots_user_id_fkey")]
    else []
  }

  function Statements(isPG: bool): seq<Stmt> {
    TableStmts(isPG) + ColumnStmts() + IndexStmts() + BackfillStmts() + ConstraintStmts(isPG)
  }

  // ---- Executing one -------------------------------------------------------------------

  predicate HasColumn(db: Database, t: TableName, col: string) { t in db.tables && col in db.tables[t].cols }

  /** Every row has exactly the table's columns, and every index is on an existing column. */
  ghost predicate WellFormed(db: Database) {
    && (forall t, i :: t in db.tables && 0 <= i < |db.tables[t].rows| ==> db.tables[t].rows[i].Keys == db.tables[t].cols)
    && (forall x :: x in db.indexes ==> HasColumn(db, db.indexes[x].0, db.indexes[x].1))
  }

  function Extend(rows: seq<map<string, string>>, col: string): (out: seq<map<string, string>>)
    ensures |out| == |rows| && forall i :: 0 <= i < |rows| ==> out[i] == rows[i][col := ""]
  {
    seq(|rows|, i requires 0 <= i < |rows| => rows[i][col := ""])
  }

  function FillRow(r: map<string, string>): map<string, string> {
    if "tenant_id" in r && "user_id" in r && r["tenant_id"] == "" then r["tenant_id" := r["user_id"]] else r
  }

  function Fill(rows: seq<map<string, string>>): (out: seq<map<string, string>>)
    ensures |out| == |rows| && forall i :: 0 <= i < |rows| ==> out[i] == FillRow(rows[i])
  {
    seq(|rows|, i requires 0 <= i < |rows| => FillRow(rows[i]))
  }

  function Put(db: Database, t: TableName, table: Table): Database { db.(tables := db.tables[t := table]) }

  /** `None` is an error from the database, which changes nothing. */
  function Exec(db: Database, s: Stmt): Option<Database> {
    match s
    case Pragma => Some(db)
    case CreateTable(t, cols) =>
      Some(if t in db.tables then db else Put(db, t, Table(cols, [], {})))
    case AddColumn(t, col) =>
      if t !in db.tables then None
      else if col in db.tables[t].cols then Some(db)
      else Some(Put(db, t, db.tables[t].(cols := db.tables[t].cols + {col}, rows := Extend(db.tables[t].rows, col))))
    case CreateIndex(name, t, col) =>
      if name in db.indexes then Some(db)
      else if HasColumn(db, t, col) then Some(db.(indexes := db.indexes[name := (t, col)]))
      else None
    case Backfill(t) =>
      if HasColumn(db, t, "tenant_id") && HasColumn(db, t, "user_id")
      then Some(Put(db, t, db.tables[t].(rows := Fill(db.tables[t].rows)))) else None
    case DropConstraint(t, name) =>
      if t in db.tables then Some(Put(db, t, db.tables[t].(constraints := db.tables[t].constraints - {name})))
      else None
  }

  /** Runs statements until the first error. */
  function Run(db: Database, ss: seq<Stmt>): (Database, bool)
    decreases |ss|
  {
    if ss == [] then (db, true)
    else
      match Exec(db, ss[0])
      case None => (db, false)
      case Some(next) => Run(next, ss[1..])
  }

  lemma {:induction false} RunAppend(db: Database, a: seq<Stmt>, b: seq<Stmt>)
    ensures Run(db, a + b) == if Run(db, a).1 then Run(Run(db, a).0, b) else Run(db, a)
    decreases |a|
  {
    if a == [] {
      assert a + b == b;
    } else {
      assert (a + b)[1..] == a[1..] + b;
      match Exec(db, a[0])
      case None =>
      case Some(next) => RunAppend(next, a[1..], b);
    }
  }

  /** The loops of `migrate`. */
  method ExecAll(db: Database, ss: seq<Stmt>) returns (after: Database, ok: bool)
    ensures (after, ok) == Run(db, ss)
  {
    after, ok := db, true;
    for i := 0 to |ss|
      invariant ok && Run(after, ss[i..]) == Run(db, ss)
    {
      assert ss[i..][1..] == ss[i + 1..];
      match Exec(after, ss[i]) {
        case None => return after, false;
        case Some(next) => after := next;
      }
    }
  }

  method Migrate(db: Database, isPG: bool) returns (after: Database, ok: bool)
    ensures (after, ok) == Run(db, Statements(isPG))
  {
    var p1, p2, p3, p4, p5 := TableStmts(isPG), ColumnStmts(), IndexStmts(), BackfillStmts(), ConstraintStmts(isPG);
    RunAppend(db, p1 + p2 + p3 + p4, p5);
    RunAppend(db, p1 + p2 + p3, p4);
    RunAppend(db, p1 + p2, p3);
    RunAppend(db, p1, p2);
    after, ok := ExecAll(db, p1);
    if ok { after, ok := ExecAll(after, p2); }
    if ok { after, ok := ExecAll(after, p3); }
    if ok { after, ok := ExecAll(after, p4); }
    if ok { after, ok := ExecAll(after, p5); }
  }

  // ---- Running again ----------------------------------------------------------------------

  /** The statement has nothing left to do. */
  ghost predicate Settled(db: Database, s: Stmt) { Exec(db, s) == Some(db) }

  lemma ExecWellFormed(db: Database, s: Stmt)
    requires WellFormed(db) && Exec(db, s).Some?
    ensures WellFormed(Exec(db, s).value)
  {
  }

  lemma PutSame(db: Database, t: TableName)
    requires t in db.tables
    ensures Put(db, t, db.tables[t]) == db
  {
    assert db.tables[t := db.tables[t]] == db.tables;
  }

  lemma FillTwice(r: map<string, string>)
    ensures FillRow(FillRow(r)) == FillRow(r)
  {
    var f := FillRow(r);
    if "tenant_id" in f && "user_id" in f && f["tenant_id"] == "" {
      assert f["tenant_id" := f["user_id"]] == f;
    }
  }

  /** What is left for a backfill to do, row by row. */
  lemma FillSettled(db: Database, t: TableName)
    requires HasColumn(db, t, "tenant_id") && HasColumn(db, t, "user_id")
    ensures Settled(db, Backfill(t)) <==> forall i :: 0 <= i < |db.tables[t].rows| ==> FillRow(db.tables[t].rows[i]) == db.tables[t].rows[i]
  {
    var rows := db.tables[t].rows;
    if Fill(rows) == rows {
      PutSame(db, t);
    } else {
      assert Exec(db, Backfill(t)).value.tables[t].rows == Fill(rows);
    }
  }

  lemma DropSettled(db: Database, t: TableName, name: string)
    requires t in db.tables
    ensures Settled(db, DropConstraint(t, name)) <==> name !in db.tables[t].constraints
  {
    var cs := db.tables[t].constraints;
    if name !in cs {
      assert cs - {name} == cs;
      PutSame(db, t);
    } else {
      assert Exec(db, DropConstraint(t, name)).value.tables[t].constraints == cs - {name};
    }
  }

  lemma ExecSettles(db: Database, s: Stmt)
    requires Exec(db, s).Some?
    ensures Settled(Exec(db, s).value, s)
  {
    var next := Exec(db, s).value;
    match s
    case Backfill(t) =>
      forall i | 0 <= i < |next.tables[t].rows| ensures FillRow(next.tables[t].rows[i]) == next.tables[t].rows[i] {
        FillTwice(db.tables[t].rows[i]);
      }
      FillSettled(next, t);
    case DropConstraint(t, name) => DropSettled(next, t, name);
    case _ =>
  }

  lemma SettledStays(db: Database, s: Stmt, other: Stmt)
    requires WellFormed(db) && Settled(db, s) && Exec(db, other).Some?
    ensures Settled(Exec(db, other).value, s)
  {
    var next := Exec(db, other).value;
    match s
    case Backfill(t) =>
      FillSettled(db, t);
      FillSettled(next, t);
      forall i | 0 <= i < |next.tables[t].rows| ensures FillRow(next.tables[t].rows[i]) == next.tables[t].rows[i] {
        RowStaysFilled(db, other, t, i);
      }
    case DropConstraint(t, name) =>
      DropSettled(db, t, name);
      DropSettled(next, t, name);
    case _ =>
  }

  lemma RowStaysFilled(db: Database, other: Stmt, t: TableName, i: nat)
    requires WellFormed(db) && Exec(db, other).Some?
    requires HasColumn(db, t, "tenant_id") && HasColumn(db, t, "user_id") && i < |db.tables[t].rows|
    requires FillRow(db.tables[t].rows[i]) == db.tables[t].rows[i]
    ensures var rows := Exec(db, other).value.tables[t].rows;
            i < |rows| && FillRow(rows[i]) == rows[i]
  {
    var r := db.tables[t].rows[i];
    if other.AddColumn? && other.t == t && other.col !in db.tables[t].cols {
      var x := r[other.col := ""];
      if x["tenant_id"] == "" { assert r["tenant_id" := r["user_id"]]["tenant_id"] == r["tenant_id"]; assert x["tenant_id" := x["user_id"]] == x; }
    }
  }

  lemma {:induction false} SettledThroughRun(db: Database, s: Stmt, ss: seq<Stmt>)
    requires WellFormed(db) && Settled(db, s)
    ensures Settled(Run(db, ss).0, s) && WellFormed(Run(db, ss).0)
    decreases |ss|
  {
    if ss != [] && Exec(db, ss[0]).Some? {
      ExecWellFormed(db, ss[0]);
      SettledStays(db, s, ss[0]);
      SettledThroughRun(Exec(db, ss[0]).value, s, ss[1..]);
    }
  }

  /** Dying after `k` statements and starting over is no different from one run. */
  lemma {:induction false} Restart(db: Database, ss: seq<Stmt>, k: nat)
    requires WellFormed(db) && k <= |ss|
    ensures WellFormed(Run(db, ss[..k]).0)
    ensures Run(Run(db, ss[..k]).0, ss) == Run(db, ss)
    decreases |ss|
  {
    if k > 0 && Exec(db, ss[0]).Some? {
      var next := Exec(db, ss[0]).value;
      assert ss[..k][1..] == ss[1..][..k - 1];
      ExecWellFormed(db, ss[0]);
      ExecSettles(db, ss[0]);
      Restart(next, ss[1..], k - 1);
      SettledThroughRun(next, ss[0], ss[1..][..k - 1]);
    }
  }

  /** The database after a series of starts that died after `ks[0]`, `ks[1]`, ... statements. */
  ghost function Crashed(db: Database, ss: seq<Stmt>, ks: seq<nat>): Database
    requires forall i :: 0 <= i < |ks| ==> ks[i] <= |ss|
    decreases |ks|
  {
    if ks == [] then db else Crashed(Run(db, ss[..ks[0]]).0, ss, ks[1..])
  }

  /** Each start goes on from where the one before it died. */
  lemma {:induction false} CrashedSnoc(db: Database, ss: seq<Stmt>, ks: seq<nat>, k: nat)
    requires (forall i :: 0 <= i < |ks| ==> ks[i] <= |ss|) && k <= |ss|
    ensures Crashed(db, ss, ks + [k]) == Run(Crashed(db, ss, ks), ss[..k]).0
    decreases |ks|
  {
    if ks == [] {
      assert (ks + [k])[1..] == [];
    } else {
      assert (ks + [k])[1..] == ks[1..] + [k];
      CrashedSnoc(Run(db, ss[..ks[0]]).0, ss, ks[1..], k);
    }
  }

  /** Migration converges: however often and wherever it died, the next complete run gives
      the schema, the rows and the verdict of one uninterrupted run. */
  lemma {:induction false} Converges(db: Database, isPG: bool, ks: seq<nat>)
    requires WellFormed(db) && forall i :: 0 <= i < |ks| ==> ks[i] <= |Statements(isPG)|
    ensures Run(Crashed(db, Statements(isPG), ks), Statements(isPG)) == Run(db, Statements(isPG))
    ensures WellFormed(Run(db, Statements(isPG)).0)
    decreases |ks|
  {
    var ss := Statements(isPG);
    if ks == [] {
      Restart(db, ss, |ss|);
      assert ss[..|ss|] == ss;
    } else {
      Restart(db, ss, ks[0]);
      Converges(Run(db, ss[..ks[0]]).0, isPG, ks[1..]);
    }
  }

  // ---- What may change in the rows -----------------------------------------------------------

  /** Values stay, except that an empty tenant_id may become the row's user_id; a new column is
      empty, or again a tenant_id that has become the user_id. */
  ghost predicate RowKept(r: map<string, string>, later: map<string, string>) {
    && r.Keys <= later.Keys
    && forall col :: col in later ==>
         || later[col] == Old(r, col)
         || (col == "tenant_id" && Old(r, col) == "" && "user_id" in later && later[col] == later["user_id"])
  }

  /** A value before the migration, empty where the column was missing. */
  function Old(r: map<string, string>, col: string): string { if col in r then r[col] else "" }

  ghost predicate RowsKept(db: Database, later: Database) {
    forall t :: t in db.tables ==>
      && t in later.tables && |later.tables[t].rows| == |db.tables[t].rows|
      && forall i :: 0 <= i < |db.tables[t].rows| ==> RowKept(db.tables[t].rows[i], later.tables[t].rows[i])
  }

  lemma ExecKeeps(db: Database, s: Stmt)
    requires WellFormed(db) && Exec(db, s).Some?
    ensures RowsKept(db, Exec(db, s).value)
  {
  }

  lemma RowsKeptTrans(a: Database, b: Database, c: Database)
    requires RowsKept(a, b) && RowsKept(b, c)
    ensures RowsKept(a, c)
  {
    forall t, i | t in a.tables && 0 <= i < |a.tables[t].rows|
      ensures RowKept(a.tables[t].rows[i], c.tables[t].rows[i])
    {
      assert RowKept(a.tables[t].rows[i], b.tables[t].rows[i]);
      assert RowKept(b.tables[t].rows[i], c.tables[t].rows[i]);
    }
  }

  /** No run, complete or not, loses a row or changes anything but empty tenant IDs. */
  lemma {:induction false} RunKeeps(db: Database, ss: seq<Stmt>)
    requires WellFormed(db)
    ensures RowsKept(db, Run(db, ss).0)
    decreases |ss|
  {
    if ss != [] && Exec(db, ss[0]).Some? {
      var next := Exec(db, ss[0]).value;
      ExecWellFormed(db, ss[0]);
      ExecKeeps(db, ss[0]);
      RunKeeps(next, ss[1..]);
      RowsKeptTrans(db, next, Run(next, ss[1..]).0);
    }
  }

  // ---- When it succeeds --------------------------------------------------------------------------

  lemma {:induction false} CreateRun(db: Database, ss: seq<Stmt>, t: TableName, cols: set<string>)
    requires forall s :: s in ss ==> s.Pragma? || (s.CreateTable? && (s.t == t ==> s.cols == cols))
    ensures Run(db, ss).1 && Run(db, ss).0.indexes == db.indexes
    ensures t in db.tables ==> t in Run(db, ss).0.tables && Run(db, ss).0.tables[t] == db.tables[t]
    ensures t !in db.tables && CreateTable(t, cols) in ss ==> t in Run(db, ss).0.tables && Run(db, ss).0.tables[t].cols == cols
    decreases |ss|
  {
    if ss != [] {
      CreateRun(Exec(db, ss[0]).value, ss[1..], t, cols);
    }
  }

  lemma {:induction false} ColumnRun(db: Database, ss: seq<Stmt>)
    requires forall s :: s in ss ==> s.AddColumn? && s.t in db.tables
    ensures Run(db, ss).1 && Run(db, ss).0.indexes == db.indexes
    ensures forall t, c :: HasColumn(Run(db, ss).0, t, c) <==> HasColumn(db, t, c) || AddColumn(t, c) in ss
    decreases |ss|
  {
    if ss != [] {
      var next := Exec(db, ss[0]).value;
      ColumnRun(next, ss[1..]);
      forall t, c ensures HasColumn(Run(db, ss).0, t, c) <==> HasColumn(db, t, c) || AddColumn(t, c) in ss {
        assert HasColumn(next, t, c) <==> HasColumn(db, t, c) || AddColumn(t, c) == ss[0];
        assert AddColumn(t, c) in ss <==> AddColumn(t, c) == ss[0] || AddColumn(t, c) in ss[1..];
      }
    }
  }

  ghost predicate CanIndex(db: Database, s: Stmt)
    requires s.CreateIndex?
  {
    s.name in db.indexes || HasColumn(db, s.t, s.col)
  }

  lemma {:induction false} IndexRun(db: Database, ss: seq<Stmt>)
    requires forall s :: s in ss ==> s.CreateIndex?
    requires forall i, j :: 0 <= i < j < |ss| ==> ss[i].name != ss[j].name
    ensures Run(db, ss).1 <==> forall s :: s in ss ==> CanIndex(db, s)
    ensures Run(db, ss).0.tables == db.tables
    decreases |ss|
  {
    if ss != [] {
      var first, rest := ss[0], ss[1..];
      assert Exec(db, first).Some? <==> CanIndex(db, first);
      if CanIndex(db, first) {
        var next := Exec(db, first).value;
        assert next.tables == db.tables;
        assert Run(db, ss) == Run(next, rest);
        IndexRun(next, rest);
        SameIndexable(db, first, rest);
        assert forall s :: s in ss <==> s == first || s in rest;
      } else {
        assert Run(db, ss) == (db, false);
        assert first in ss;
      }
    }
  }

  /** Creating one index makes no difference to the others. */
  lemma SameIndexable(db: Database, first: Stmt, rest: seq<Stmt>)
    requires first.CreateIndex? && CanIndex(db, first)
    requires forall s :: s in rest ==> s.CreateIndex?
    requires forall i :: 0 <= i < |rest| ==> rest[i].name != first.name
    ensures forall s :: s in rest ==> (CanIndex(Exec(db, first).value, s) <==> CanIndex(db, s))
  {
    forall s | s in rest
      ensures CanIndex(Exec(db, first).value, s) <==> CanIndex(db, s)
    {
      var i :| 0 <= i < |rest| && rest[i] == s;
    }
  }

  /** What a pre-existing schema must bring along, because no statement adds it. */
  ghost predicate OldSchemaFits(db: Database) {
    && (Snapshots in db.tables ==> HasColumn(db, Snapshots, "user_id"))
    && (Skills in db.tables ==>
          && (HasColumn(db, Skills, "user_id") || "idx_skills_user_id" in db.indexes)
          && (HasColumn(db, Skills, "tenant_id") || "idx_skills_tenant_id" in db.indexes))
  }

  lemma AfterTables(db: Database, isPG: bool, t: TableName, cols: set<string>)
    requires CreateTable(t, cols) in TableStmts(isPG)
    ensures var r := Run(db, TableStmts(isPG));
            && r.1 && r.0.indexes == db.indexes && t in r.0.tables
            && r.0.tables[t].cols == if t in db.tables then db.tables[t].cols else cols
  {
    CreateRun(db, TableStmts(isPG), t, cols);
  }

  /** The columns that matter once phases 1 and 2 are over. */
  lemma AfterColumns(db: Database, isPG: bool)
    ensures var r := Run(db, TableStmts(isPG) + ColumnStmts());
            && r.1 && r.0.indexes == db.indexes
            && HasColumn(r.0, Environments, "user_id") && HasColumn(r.0, Environments, "tenant_id")
            && HasColumn(r.0, Snapshots, "tenant_id")
            && (HasColumn(r.0, Snapshots, "user_id") <==> Snapshots !in db.tables || HasColumn(db, Snapshots, "user_id"))
            && (HasColumn(r.0, Skills, "user_id") <==> Skills !in db.tables || HasColumn(db, Skills, "user_id"))
            && (HasColumn(r.0, Skills, "tenant_id") <==> Skills !in db.tables || HasColumn(db, Skills, "tenant_id"))
  {
    var mid := AfterPhaseOne(db, isPG);
    ColumnRun(mid, ColumnStmts());
    RunAppend(db, TableStmts(isPG), ColumnStmts());
    var cs := ColumnStmts();
    assert cs[0] in cs && cs[1] in cs && cs[2] in cs;
    assert AddColumn(Snapshots, "user_id") !in cs;
  }

  lemma AfterPhaseOne(db: Database, isPG: bool) returns (mid: Database)
    ensures Run(db, TableStmts(isPG)) == (mid, true) && mid.indexes == db.indexes
    ensures Environments in mid.tables && Snapshots in mid.tables && Skills in mid.tables
    ensures HasColumn(mid, Snapshots, "user_id") <==> Snapshots !in db.tables || HasColumn(db, Snapshots, "user_id")
    ensures HasColumn(mid, Skills, "user_id") <==> Skills !in db.tables || HasColumn(db, Skills, "user_id")
    ensures HasColumn(mid, Skills, "tenant_id") <==> Skills !in db.tables || HasColumn(db, Skills, "tenant_id")
  {
    mid := Run(db, TableStmts(isPG)).0;
    var ss := TableStmts(isPG);
    var o := if isPG then 0 else 1;
    assert ss[o + 2] in ss && ss[o + 3] in ss && ss[o + 4] in ss;
    AfterTables(db, isPG, Environments, EnvironmentColumns());
    AfterTables(db, isPG, Snapshots, SnapshotColumns());
    AfterTables(db, isPG, Skills, SkillColumns());
  }

  lemma BackfillRun(db: Database)
    requires HasColumn(db, Environments, "user_id") && HasColumn(db, Environments, "tenant_id") && HasColumn(db, Snapshots, "tenant_id")
    ensures Run(db, BackfillStmts()).1 <==> HasColumn(db, Snapshots, "user_id")
    ensures Environments in Run(db, BackfillStmts()).0.tables && Snapshots in Run(db, BackfillStmts()).0.tables
  {
    var ss := BackfillStmts();
    var next := Exec(db, ss[0]).value;
    assert ss[1..] == [Backfill(Snapshots)] && ss[1..][1..] == [];
    assert Run(db, ss) == Run(next, ss[1..]);
    assert Run(next, ss[1..]) == match Exec(next, Backfill(Snapshots)) case None => (next, false) case Some(x) => Run(x, []);
  }

  lemma ConstraintRun(db: Database, isPG: bool)
    requires Environments in db.tables && Snapshots in db.tables
    ensures Run(db, ConstraintStmts(isPG)).1
  {
    if isPG {
      var ss := ConstraintStmts(isPG);
      var next := Exec(db, ss[0]).value;
      assert ss[1..][1..] == [];
      assert Run(db, ss) == Run(next, ss[1..]);
      assert Run(next, ss[1..]) == Run(Exec(next, ss[1]).value, []);
    }
  }

  /** `migrate` succeeds on a database exactly when the tables it finds already have the
      columns that it indexes or reads but never adds. */
  lemma MigrateSucceeds(db: Database, isPG: bool)
    ensures Run(db, Statements(isPG)).1 <==> OldSchemaFits(db)
  {
    var p1, p2, p3, p4, p5 := TableStmts(isPG), ColumnStmts(), IndexStmts(), BackfillStmts(), ConstraintStmts(isPG);
    RunAppend(db, p1 + p2 + p3 + p4, p5);
    RunAppend(db, p1 + p2 + p3, p4);
    RunAppend(db, p1 + p2, p3);
    AfterColumns(db, isPG);
    var d2 := Run(db, p1 + p2).0;
    IndexRun(d2, p3);
    IndexesFit(db, d2);
    var (d3, ok3) := Run(d2, p3);
    assert forall t, c :: HasColumn(d3, t, c) == HasColumn(d2, t, c);
    BackfillRun(d3);
    var (d4, ok4) := Run(d3, p4);
    ConstraintRun(d4, isPG);
  }

  lemma IndexesFit(db: Database, d: Database)
    requires d.indexes == db.indexes
    requires HasColumn(d, Environments, "user_id") && HasColumn(d, Environments, "tenant_id") && HasColumn(d, Snapshots, "tenant_id")
    ensures (forall s :: s in IndexStmts() ==> CanIndex(d, s)) <==>
              && CanIndex(d, CreateIndex("idx_snapshots_user_id", Snapshots, "user_id"))
              && CanIndex(d, CreateIndex("idx_skills_user_id", Skills, "user_id"))
              && CanIndex(d, CreateIndex("idx_skills_tenant_id", Skills, "tenant_id"))
  {
    var ss := IndexStmts();
    assert ss[2] in ss && ss[4] in ss && ss[5] in ss;
  }

  // ---- What a completed run has achieved ------------------------------------------------------------

  /** Every statement of a completed run has nothing left to do. */
  lemma {:induction false} AllSettled(db: Database, ss: seq<Stmt>)
    requires WellFormed(db) && Run(db, ss).1
    ensures forall s :: s in ss ==> Settled(Run(db, ss).0, s)
    decreases |ss|
  {
    if ss != [] {
      var next := Exec(db, ss[0]).value;
      ExecWellFormed(db, ss[0]);
      ExecSettles(db, ss[0]);
      SettledThroughRun(next, ss[0], ss[1..]);
      AllSettled(next, ss[1..]);
      assert forall s :: s in ss <==> s == ss[0] || s in ss[1..];
    }
  }

  /** The tenant of a row: the one it had, or else its user. */
  ghost predicate HasTenant(r: map<string, string>, later: map<string, string>) {
    && "tenant_id" in later && "user_id" in later && later["user_id"] == Old(r, "user_id")
    && later["tenant_id"] == if Old(r, "tenant_id") != "" then Old(r, "tenant_id") else Old(r, "user_id")
  }

  /** No row of the table is lost, and each has its tenant. */
  ghost predicate AllHaveTenants(db: Database, later: Database, t: TableName) {
    t in db.tables ==>
      && t in later.tables && |later.tables[t].rows| == |db.tables[t].rows|
      && forall i :: 0 <= i < |db.tables[t].rows| ==> HasTenant(db.tables[t].rows[i], later.tables[t].rows[i])
  }

  lemma RowFilled(r: map<string, string>, later: map<string, string>)
    requires RowKept(r, later) && FillRow(later) == later && "tenant_id" in later && "user_id" in later
    ensures HasTenant(r, later)
  {
    if later["tenant_id"] == "" {
      assert later["tenant_id" := later["user_id"]]["tenant_id"] == later["user_id"];
    }
  }

  /** A settled backfill leaves no row without its tenant. */
  lemma TableFilled(db: Database, later: Database, t: TableName)
    requires RowsKept(db, later) && WellFormed(later) && Settled(later, Backfill(t)) && t in db.tables
    ensures AllHaveTenants(db, later, t)
  {
    assert HasColumn(later, t, "tenant_id") && HasColumn(later, t, "user_id");
    FillSettled(later, t);
    forall i | 0 <= i < |db.tables[t].rows|
      ensures HasTenant(db.tables[t].rows[i], later.tables[t].rows[i])
    {
      RowFilled(db.tables[t].rows[i], later.tables[t].rows[i]);
    }
  }

  /** An index that a run made is the one some statement asks for; older ones stay. */
  lemma {:induction false} IndexOrigin(db: Database, ss: seq<Stmt>, x: string)
    requires x in Run(db, ss).0.indexes
    ensures if x in db.indexes then Run(db, ss).0.indexes[x] == db.indexes[x]
            else CreateIndex(x, Run(db, ss).0.indexes[x].0, Run(db, ss).0.indexes[x].1) in ss
    decreases |ss|
  {
    if ss != [] && Exec(db, ss[0]).Some? {
      IndexOrigin(Exec(db, ss[0]).value, ss[1..], x);
    }
  }

  lemma {:induction false} ColumnsStay(db: Database, ss: seq<Stmt>)
    ensures forall t, c :: HasColumn(db, t, c) ==> HasColumn(Run(db, ss).0, t, c)
    decreases |ss|
  {
    if ss != [] && Exec(db, ss[0]).Some? {
      ColumnsStay(Exec(db, ss[0]).value, ss[1..]);
    }
  }

  /** The columns that the store's statements name. */
  function NamedColumns(t: TableName): set<string> {
    match t
    case Users => {"id", "created_at"}
    case ApiKeys => {"key_hash", "user_id", "created_at"}
    case Environments =>
      {"id", "user_id", "tenant_id", "status", "container_id", "created_at", "last_used_at", "expires_at",
       "spec_image", "spec_cpu", "spec_memory_mb", "spec_disk_mb", "spec_network_policy", "spec_env_vars"}
    case Snapshots => {"id", "user_id", "tenant_id", "environment_id", "image_id", "label", "size", "created_at"}
    case Skills => {"id", "user_id", "tenant_id", "name", "archive", "size", "created_at", "updated_at"}
  }

  lemma CreatesNamed(isPG: bool, t: TableName)
    ensures CreateTable(t, NamedColumns(t)) in TableStmts(isPG)
  {
    var ss, o := TableStmts(isPG), if isPG then 0 else 1;
    var k := match t case Users => o case ApiKeys => o + 1 case Environments => o + 2 case Snapshots => o + 3 case Skills => o + 4;
    assert ss[k] == CreateTable(t, NamedColumns(t));
  }

  /** A table that was missing has every column that the store's statements name. */
  lemma NewTable(db: Database, isPG: bool, t: TableName)
    requires t !in db.tables
    ensures forall c :: c in NamedColumns(t) ==> HasColumn(Run(db, Statements(isPG)).0, t, c)
  {
    var ss, rest := TableStmts(isPG), ColumnStmts() + IndexStmts() + BackfillStmts() + ConstraintStmts(isPG);
    CreatesNamed(isPG, t);
    AfterTables(db, isPG, t, NamedColumns(t));
    assert Statements(isPG) == ss + rest;
    RunAppend(db, ss, rest);
    ColumnsStay(Run(db, ss).0, rest);
  }

  /** The index `x` on column `c` exists, unless one of that name was there before. */
  ghost predicate Indexed(db: Database, later: Database, x: string, t: TableName, c: string) {
    x in later.indexes && later.indexes[x] == if x in db.indexes then db.indexes[x] else (t, c)
  }

  ghost predicate AllIndexed(db: Database, later: Database) {
    && Indexed(db, later, "idx_environments_user_id", Environments, "user_id")
    && Indexed(db, later, "idx_environments_tenant_id", Environments, "tenant_id")
    && Indexed(db, later, "idx_snapshots_user_id", Snapshots, "user_id")
    && Indexed(db, later, "idx_snapshots_tenant_id", Snapshots, "tenant_id")
    && Indexed(db, later, "idx_skills_user_id", Skills, "user_id")
    && Indexed(db, later, "idx_skills_tenant_id", Skills, "tenant_id")
  }

  lemma SixIndexes(db: Database, isPG: bool)
    requires WellFormed(db) && Run(db, Statements(isPG)).1
    ensures AllIndexed(db, Run(db, Statements(isPG)).0)
  {
    IndexMade(db, isPG, 0);
    IndexMade(db, isPG, 1);
    IndexMade(db, isPG, 2);
    IndexMade(db, isPG, 3);
    IndexMade(db, isPG, 4);
    IndexMade(db, isPG, 5);
  }

  lemma IndexMade(db: Database, isPG: bool, k: nat)
    requires WellFormed(db) && Run(db, Statements(isPG)).1 && k < |IndexStmts()|
    ensures var s := IndexStmts()[k]; Indexed(db, Run(db, Statements(isPG)).0, s.name, s.t, s.col)
  {
    var s, ss := IndexStmts()[k], Statements(isPG);
    var p := |TableStmts(isPG) + ColumnStmts()|;
    assert ss[p + k] == s;
    AllSettled(db, ss);
    var later := Run(db, ss).0;
    assert Settled(later, s);
    assert s.name in later.indexes;
    IndexOrigin(db, ss, s.name);
    if s.name !in db.indexes {
      OneIndexEach(isPG, s, CreateIndex(s.name, later.indexes[s.name].0, later.indexes[s.name].1));
    }
  }

  lemma OneIndexEach(isPG: bool, s: Stmt, other: Stmt)
    requires s in Statements(isPG) && other in Statements(isPG) && s.CreateIndex? && other.CreateIndex? && s.name == other.name
    ensures s == other
  {
    OnlyIndexStmts(isPG, s);
    OnlyIndexStmts(isPG, other);
  }

  lemma OnlyIndexStmts(isPG: bool, s: Stmt)
    requires s in Statements(isPG) && s.CreateIndex?
    ensures s in IndexStmts()
  {
    var a, b, c, d, e := TableStmts(isPG), ColumnStmts(), IndexStmts(), BackfillStmts(), ConstraintStmts(isPG);
    assert forall x :: x in a || x in b || x in d || x in e ==> !x.CreateIndex?;
  }

  /** After a completed migration every row of environments and snapshots has its tenant, the
      six indexes exist, PostgreSQL holds neither foreign key on the user, and a table that
      was missing has all columns the store works with. */
  lemma MigrateAchieves(db: Database, isPG: bool)
    requires WellFormed(db) && Run(db, Statements(isPG)).1
    ensures AllHaveTenants(db, Run(db, Statements(isPG)).0, Environments)
    ensures AllHaveTenants(db, Run(db, Statements(isPG)).0, Snapshots)
    ensures AllIndexed(db, Run(db, Statements(isPG)).0)
    ensures var later := Run(db, Statements(isPG)).0;
            forall t: TableName :: t in later.tables
    ensures isPG ==> var later := Run(db, Statements(isPG)).0;
              && "environments_user_id_fkey" !in later.tables[Environments].constraints
              && "snapshots_user_id_fkey" !in later.tables[Snapshots].constraints
    ensures forall t, c :: t !in db.tables && c in NamedColumns(t) ==> HasColumn(Run(db, Statements(isPG)).0, t, c)
  {
    TenantsFilled(db, isPG);
    TablesThere(db, isPG);
    if isPG { ConstraintsDropped(db, isPG); }
    SixIndexes(db, isPG);
    forall t | t !in db.tables ensures forall c :: c in NamedColumns(t) ==> HasColumn(Run(db, Statements(isPG)).0, t, c) {
      NewTable(db, isPG, t);
    }
  }

  lemma InStatements(isPG: bool)
    ensures forall s :: s in TableStmts(isPG) || s in ColumnStmts() || s in IndexStmts() || s in BackfillStmts() || s in ConstraintStmts(isPG)
              ==> s in Statements(isPG)
  {
  }

  lemma TenantsFilled(db: Database, isPG: bool)
    requires WellFormed(db) && Run(db, Statements(isPG)).1
    ensures AllHaveTenants(db, Run(db, Statements(isPG)).0, Environments)
    ensures AllHaveTenants(db, Run(db, Statements(isPG)).0, Snapshots)
  {
    var ss := Statements(isPG);
    AllSettled(db, ss);
    RunKeeps(db, ss);
    Converges(db, isPG, []);
    InStatements(isPG);
    var b := BackfillStmts();
    assert b[0] in b && b[1] in b;
    if Environments in db.tables { TableFilled(db, Run(db, ss).0, Environments); }
    if Snapshots in db.tables { TableFilled(db, Run(db, ss).0, Snapshots); }
  }

  lemma TablesThere(db: Database, isPG: bool)
    requires WellFormed(db) && Run(db, Statements(isPG)).1
    ensures forall t: TableName :: t in Run(db, Statements(isPG)).0.tables
  {
    var ss, a, o := Statements(isPG), TableStmts(isPG), if isPG then 0 else 1;
    AllSettled(db, ss);
    InStatements(isPG);
    assert a[o] in a && a[o + 1] in a && a[o + 2] in a && a[o + 3] in a && a[o + 4] in a;
    var later := Run(db, ss).0;
    forall t: TableName ensures t in later.tables {
      var k := match t case Users => o case ApiKeys => o + 1 case Environments => o + 2 case Snapshots => o + 3 case Skills => o + 4;
      assert Settled(later, a[k]);
    }
  }

  lemma ConstraintsDropped(db: Database, isPG: bool)
    requires WellFormed(db) && Run(db, Statements(isPG)).1 && isPG
    ensures var later := Run(db, Statements(isPG)).0;
            && Environments in later.tables && "environments_user_id_fkey" !in later.tables[Environments].constraints
            && Snapshots in later.tables && "snapshots_user_id_fkey" !in later.tables[Snapshots].constraints
  {
    var ss, e := Statements(isPG), ConstraintStmts(isPG);
    AllSettled(db, ss);
    InStatements(isPG);
    TablesThere(db, isPG);
    assert e[0] in e && e[1] in e;
    DropSettled(Run(db, ss).0, Environments, "environments_user_id_fkey");
    DropSettled(Run(db, ss).0, Snapshots, "snapshots_user_id_fkey");
  }
}
