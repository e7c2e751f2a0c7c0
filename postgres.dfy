/** An abstract PostgreSQL server, as far as the helper's statements touch it:
    relations holding records, the effect and row count of each statement, the
    server's own refusals, and sessions whose open transaction is committed or
    rolled back. */
module Postgres {
  import opened Wrappers

  /** A stored value: SQL NULL or text. */
  datatype Value = Null | Text(text: string)

  /** A row as the client sends it, one value per column of the column list. */
  type Row = seq<Value>

  /** A stored row: column name to value; a column without an entry holds NULL. */
  type Record = map<string, Value>

  datatype Table = Table(columns: seq<string>, rows: seq<Record>)

  /** `schema.name`, or a session's temporary table. */
  datatype Relation = Permanent(schema: string, name: string) | Temporary(name: string)

  type Tables = map<Relation, Table>

  /** The conflict action of `INSERT ... ON CONFLICT`: skip the row, or set the listed
      columns of the existing row to the proposed row's values. */
  datatype Action = DoNothing | DoUpdate(assign: seq<string>)

  /** The statements the helper issues, by what they do (their text is built in
      module Statements). A copy's `columnList` of `None` means the table's own order. */
  datatype Command =
    | CreateStaging(staging: string, source: Relation)
    | Copy(into: Relation, columnList: Option<seq<string>>, rows: seq<Row>)
    | Upsert(into: Relation, from: Relation, keys: seq<string>, action: Action)
    | DeleteMatching(from: Relation, using: Relation, columns: seq<string>)
    | InsertSelect(into: Relation, columns: seq<string>, from: Relation)
    | Truncate(table: Relation)

  /** A statement's result: the new state and `cursor.rowcount`, or the error raised. */
  datatype Reply = Done(tables: Tables, rowcount: int) | Failed(message: string)

  /** A server: `step` is what a statement does on a session in a given state. The
      model leaves it open; `Standard` below says what PostgreSQL guarantees of it. */
  datatype Server = Server(step: (Tables, Command) -> Reply)

  datatype Merged = Merged(rows: seq<Record>, count: nat)

  function Get(r: Record, c: string): Value {
    if c in r then r[c] else Null
  }

  /** The record a row becomes when copied under a column list (a copy checks first
      that the widths agree). */
  function Zip(columns: seq<string>, row: Row): Record
    decreases |columns|
  {
    if |columns| == 0 || |row| == 0 then map[] else Zip(columns[1..], row[1..])[columns[0] := row[0]]
  }

  function ToRecords(columns: seq<string>, rows: seq<Row>): (r: seq<Record>)
    ensures |r| == |rows|
    decreases |rows|
  {
    if |rows| == 0 then [] else [Zip(columns, rows[0])] + ToRecords(columns, rows[1..])
  }

  /** The record restricted to `columns`. */
  function Project(r: Record, columns: seq<string>): Record
    decreases |columns|
  {
    if |columns| == 0 then map[] else Project(r, columns[1..])[columns[0] := Get(r, columns[0])]
  }

  function Projected(rows: seq<Record>, columns: seq<string>): seq<Record>
    decreases |rows|
  {
    if |rows| == 0 then [] else [Project(rows[0], columns)] + Projected(rows[1..], columns)
  }

  predicate Distinct(s: seq<string>) {
    forall i, j :: 0 <= i < j < |s| ==> s[i] != s[j]
  }

  predicate Within(columns: seq<string>, of: seq<string>) {
    forall c :: c in columns ==> c in of
  }

  /** SQL `a = b`: true only for two equal non-null values. */
  predicate SqlEqual(a: Value, b: Value) {
    a.Text? && b.Text? && a == b
  }

  /** `a.c = b.c` for every listed column; for key columns this is a unique-index
      conflict, since NULL never conflicts with anything. */
  predicate Matches(a: Record, b: Record, columns: seq<string>) {
    forall c :: c in columns ==> SqlEqual(Get(a, c), Get(b, c))
  }

  predicate MatchesAny(a: Record, rows: seq<Record>, columns: seq<string>) {
    exists j :: 0 <= j < |rows| && Matches(a, rows[j], columns)
  }

  /** No two proposed rows conflict with each other. */
  predicate KeysDistinct(rows: seq<Record>, keys: seq<string>) {
    forall i, j :: 0 <= i < j < |rows| ==> !Matches(rows[i], rows[j], keys)
  }

  /** The first existing row the proposed row conflicts with. */
  function FirstConflict(rows: seq<Record>, r: Record, keys: seq<string>): (k: Option<nat>)
    ensures k.Some? ==> k.value < |rows| && Matches(rows[k.value], r, keys)
    ensures k.None? ==> forall j :: 0 <= j < |rows| ==> !Matches(rows[j], r, keys)
    decreases |rows|
  {
    if |rows| == 0 then None
    else if Matches(rows[0], r, keys) then Some(0)
    else match FirstConflict(rows[1..], r, keys)
      case None => None
      case Some(j) => Some(j + 1)
  }

  /** The existing row with the `assign` columns taken from the proposed one (`EXCLUDED`). */
  function Overwrite(existing: Record, proposed: Record, assign: seq<string>): Record
    decreases |assign|
  {
    if |assign| == 0 then existing
    else Overwrite(existing[assign[0] := Get(proposed, assign[0])], proposed, assign[1..])
  }

  /** `INSERT INTO target SELECT * FROM staged ON CONFLICT (keys) action`, row by row:
      a row without conflict is inserted, a conflicting one is skipped or overwrites the
      existing row; the count is the number of rows inserted or updated. */
  function Merge(target: seq<Record>, staged: seq<Record>, keys: seq<string>, action: Action): Merged
    decreases |staged|
  {
    if |staged| == 0 then Merged(target, 0)
    else
      match FirstConflict(target, staged[0], keys)
      case None =>
        var m := Merge(target + [staged[0]], staged[1..], keys, action);
        Merged(m.rows, m.count + 1)
      case Some(i) =>
        if action.DoNothing? then Merge(target, staged[1..], keys, action)
        else
          var m := Merge(target[i := Overwrite(target[i], staged[0], action.assign)], staged[1..], keys, action);
          Merged(m.rows, m.count + 1)
  }

  /** The rows that `DELETE FROM ... USING staged WHERE ...` keeps. */
  function Unmatched(rows: seq<Record>, staged: seq<Record>, columns: seq<string>): seq<Record>
    decreases |rows|
  {
    if |rows| == 0 then []
    else (if MatchesAny(rows[0], staged, columns) then [] else [rows[0]]) + Unmatched(rows[1..], staged, columns)
  }

  /** What a statement does when the server does not refuse it. Besides the server's
      own refusals, PostgreSQL always rejects a missing relation, an unknown or
      repeated column, a row of the wrong width, an empty column or SET list, and a
      DO UPDATE that would touch one row twice. */
  function Apply(tables: Tables, cmd: Command): Reply {
    match cmd
    case CreateStaging(name, source) => ApplyCreate(tables, name, source)
    case Copy(into, columns, rows) => ApplyCopy(tables, into, columns, rows)
    case Upsert(into, from, keys, action) => ApplyUpsert(tables, into, from, keys, action)
    case DeleteMatching(from, using, columns) => ApplyDelete(tables, from, using, columns)
    case InsertSelect(into, columns, from) => ApplyInsertSelect(tables, into, columns, from)
    case Truncate(rel) => ApplyTruncate(tables, rel)
  }

  /** `create temporary table if not exists name as select * from source where 1=2`. */
  function ApplyCreate(tables: Tables, name: string, source: Relation): Reply {
    if Temporary(name) in tables then Done(tables, 0)
    else if source !in tables then Failed("relation does not exist")
    else Done(tables[Temporary(name) := Table(tables[source].columns, [])], 0)
  }

  /** `copy into (columns) from stdin ... csv`: one record per row. */
  function ApplyCopy(tables: Tables, into: Relation, columns: Option<seq<string>>, rows: seq<Row>): Reply {
    if into !in tables then Failed("relation does not exist")
    else if columns == Some([]) then Failed("syntax error")
    else
      var t := tables[into];
      var cols := if columns.Some? then columns.value else t.columns;
      if !Within(cols, t.columns) then Failed("column does not exist")
      else if !Distinct(cols) then Failed("column specified more than once")
      else if !(forall r :: r in rows ==> |r| == |cols|) then Failed("missing or extra data")
      else Done(tables[into := t.(rows := t.rows + ToRecords(cols, rows))], |rows|)
  }

  /** `INSERT INTO into SELECT * FROM from ON CONFLICT (keys) action`. */
  function ApplyUpsert(tables: Tables, into: Relation, from: Relation, keys: seq<string>, action: Action): Reply {
    if into !in tables || from !in tables then Failed("relation does not exist")
    else if |keys| == 0 || (action.DoUpdate? && |action.assign| == 0) then Failed("syntax error")
    else
      var t := tables[into];
      var staged := tables[from].rows;
      if !Within(keys, t.columns) || (action.DoUpdate? && !Within(action.assign, t.columns)) then
        Failed("column does not exist")
      else if action.DoUpdate? && !KeysDistinct(staged, keys) then
        Failed("ON CONFLICT DO UPDATE command cannot affect row a second time")
      else
        var m := Merge(t.rows, staged, keys, action);
        Done(tables[into := t.(rows := m.rows)], m.count)
  }

  /** `DELETE FROM from a USING using b WHERE true AND a.c = b.c AND ...`. */
  function ApplyDelete(tables: Tables, from: Relation, using: Relation, columns: seq<string>): Reply {
    if from !in tables || using !in tables then Failed("relation does not exist")
    else if |columns| == 0 then Failed("syntax error")
    else if !Within(columns, tables[from].columns) || !Within(columns, tables[using].columns) then
      Failed("column does not exist")
    else
      var t := tables[from];
      var kept := Unmatched(t.rows, tables[using].rows, columns);
      Done(tables[from := t.(rows := kept)], |t.rows| - |kept|)
  }

  /** `INSERT INTO into (columns) SELECT columns FROM from`. */
  function ApplyInsertSelect(tables: Tables, into: Relation, columns: seq<string>, from: Relation): Reply {
    if into !in tables || from !in tables then Failed("relation does not exist")
    else if |columns| == 0 then Failed("syntax error")
    else if !Within(columns, tables[into].columns) || !Within(columns, tables[from].columns) then
      Failed("column does not exist")
    else
      var t := tables[into];
      var staged := tables[from].rows;
      Done(tables[into := t.(rows := t.rows + Projected(staged, columns))], |staged|)
  }

  /** `truncate table rel`. */
  function ApplyTruncate(tables: Tables, rel: Relation): Reply {
    if rel !in tables then Failed("relation does not exist")
    else Done(tables[rel := tables[rel].(rows := [])], 0)
  }

  /** `cursor.execute` / `cursor.copy_expert` on a session in state `tables`. */
  function Exec(server: Server, tables: Tables, cmd: Command): Reply {
    server.step(tables, cmd)
  }

  /** Names one statement on one state; proofs mention it to apply `Standard` there. */
  predicate Step(tables: Tables, cmd: Command) {
    true
  }

  /** Every statement either does what `Apply` says or fails: the server may still
      refuse a statement for a reason of its own (a constraint, a type mismatch, a
      missing unique index, a lost connection, ...). */
  ghost predicate Standard(server: Server) {
    forall t, c {:trigger Step(t, c)} :: Step(t, c) ==> Exec(server, t, c).Failed? || Exec(server, t, c) == Apply(t, c)
  }

  /** The durable part of a session's state: temporary tables end with the session. */
  function Permanents(tables: Tables): Tables {
    map r | r in tables && r.Permanent? :: tables[r]
  }

  /** A call the helper makes on a connection or its cursor; `Executed` records the
      SQL text sent and whether the statement succeeded. */
  datatype Event =
    | Connected
    | CursorOpened
    | Executed(sql: string, ok: bool)
    | CursorClosed
    | Committed
    | RolledBack
    | Closed

  // ---------------------------------------------------------------- lemmas about the server

  /** A session never starts with a temporary table. */
  lemma NoTemporaryOnConnect(tables: Tables, name: string)
    ensures Temporary(name) !in Permanents(tables)
  {
  }

  /** A successful copy appends the copied rows, one record per row, and reports their number. */
  lemma CopyAppends(server: Server, tables: Tables, into: Relation, columns: Option<seq<string>>, rows: seq<Row>)
    requires Standard(server) && Exec(server, tables, Copy(into, columns, rows)).Done?
    ensures into in tables
    ensures var cols := if columns.Some? then columns.value else tables[into].columns;
      (forall r :: r in rows ==> |r| == |cols|) &&
      Exec(server, tables, Copy(into, columns, rows)) ==
        Done(tables[into := tables[into].(rows := tables[into].rows + ToRecords(cols, rows))], |rows|)
  {
    assert Step(tables, Copy(into, columns, rows));
    CopyApplies(tables, into, columns, rows);
  }

  lemma CopyApplies(tables: Tables, into: Relation, columns: Option<seq<string>>, rows: seq<Row>)
    requires ApplyCopy(tables, into, columns, rows).Done?
    ensures into in tables
    ensures var cols := if columns.Some? then columns.value else tables[into].columns;
      (forall r :: r in rows ==> |r| == |cols|) &&
      ApplyCopy(tables, into, columns, rows) ==
        Done(tables[into := tables[into].(rows := tables[into].rows + ToRecords(cols, rows))], |rows|)
  {
  }

  /** A successful CREATE ... IF NOT EXISTS on a session without that temporary table
      creates it empty, with the source table's columns. */
  lemma StagingCreated(server: Server, tables: Tables, name: string, source: Relation)
    requires Standard(server) && Exec(server, tables, CreateStaging(name, source)).Done?
    requires Temporary(name) !in tables
    ensures source in tables
    ensures Exec(server, tables, CreateStaging(name, source)) ==
      Done(tables[Temporary(name) := Table(tables[source].columns, [])], 0)
  {
    assert Step(tables, CreateStaging(name, source));
  }

  /** A successful upsert merges the staged rows into the target and reports the
      number of rows inserted or updated. */
  lemma UpsertMerges(server: Server, tables: Tables, into: Relation, from: Relation, keys: seq<string>, action: Action)
    requires Standard(server) && Exec(server, tables, Upsert(into, from, keys, action)).Done?
    ensures into in tables && from in tables
    ensures var m := Merge(tables[into].rows, tables[from].rows, keys, action);
      Exec(server, tables, Upsert(into, from, keys, action)) == Done(tables[into := tables[into].(rows := m.rows)], m.count)
  {
    assert Step(tables, Upsert(into, from, keys, action));
    UpsertApplies(tables, into, from, keys, action);
  }

  lemma UpsertApplies(tables: Tables, into: Relation, from: Relation, keys: seq<string>, action: Action)
    requires ApplyUpsert(tables, into, from, keys, action).Done?
    ensures into in tables && from in tables
    ensures var m := Merge(tables[into].rows, tables[from].rows, keys, action);
      ApplyUpsert(tables, into, from, keys, action) == Done(tables[into := tables[into].(rows := m.rows)], m.count)
  {
  }

  /** A successful truncate empties the table and touches nothing else. */
  lemma TruncateEmpties(server: Server, tables: Tables, rel: Relation)
    requires Standard(server) && Exec(server, tables, Truncate(rel)).Done?
    ensures rel in tables
    ensures Exec(server, tables, Truncate(rel)) == Done(tables[rel := tables[rel].(rows := [])], 0)
  {
    assert Step(tables, Truncate(rel));
  }

  /** A successful DELETE ... USING keeps exactly the unmatched rows. */
  lemma DeleteKeepsUnmatched(server: Server, tables: Tables, from: Relation, using: Relation, columns: seq<string>)
    requires Standard(server) && Exec(server, tables, DeleteMatching(from, using, columns)).Done?
    ensures from in tables && using in tables
    ensures Exec(server, tables, DeleteMatching(from, using, columns)).tables ==
      tables[from := tables[from].(rows := Unmatched(tables[from].rows, tables[using].rows, columns))]
  {
    assert Step(tables, DeleteMatching(from, using, columns));
    DeleteApplies(tables, from, using, columns);
  }

  lemma DeleteApplies(tables: Tables, from: Relation, using: Relation, columns: seq<string>)
    requires ApplyDelete(tables, from, using, columns).Done?
    ensures from in tables && using in tables
    ensures ApplyDelete(tables, from, using, columns).tables ==
      tables[from := tables[from].(rows := Unmatched(tables[from].rows, tables[using].rows, columns))]
  {
  }

  /** A successful INSERT ... SELECT appends every source row, restricted to the columns. */
  lemma InsertSelectAppends(server: Server, tables: Tables, into: Relation, columns: seq<string>, from: Relation)
    requires Standard(server) && Exec(server, tables, InsertSelect(into, columns, from)).Done?
    ensures into in tables && from in tables
    ensures Exec(server, tables, InsertSelect(into, columns, from)) ==
      Done(tables[into := tables[into].(rows := tables[into].rows + Projected(tables[from].rows, columns))],
           |tables[from].rows|)
  {
    assert Step(tables, InsertSelect(into, columns, from));
    InsertSelectApplies(tables, into, columns, from);
  }

  lemma InsertSelectApplies(tables: Tables, into: Relation, columns: seq<string>, from: Relation)
    requires ApplyInsertSelect(tables, into, columns, from).Done?
    ensures into in tables && from in tables
    ensures ApplyInsertSelect(tables, into, columns, from) ==
      Done(tables[into := tables[into].(rows := tables[into].rows + Projected(tables[from].rows, columns))],
           |tables[from].rows|)
  {
  }

  lemma {:induction false} ToRecordsAppend(columns: seq<string>, a: seq<Row>, b: seq<Row>)
    ensures ToRecords(columns, a + b) == ToRecords(columns, a) + ToRecords(columns, b)
    decreases |a|
  {
    if |a| > 0 {
      assert (a + b)[0] == a[0];
      assert (a + b)[1..] == a[1..] + b;
      ToRecordsAppend(columns, a[1..], b);
    } else {
      assert a + b == b;
    }
  }

  /** ON CONFLICT DO NOTHING never touches an existing row: the old rows stay, in
      place, and the count is the number of rows added. */
  lemma {:induction false} DoNothingKeepsRows(target: seq<Record>, staged: seq<Record>, keys: seq<string>)
    ensures var m := Merge(target, staged, keys, DoNothing);
      |m.rows| >= |target| && m.rows[..|target|] == target && m.count == |m.rows| - |target|
    decreases |staged|
  {
    if |staged| > 0 {
      match FirstConflict(target, staged[0], keys)
      case None =>
        DoNothingKeepsRows(target + [staged[0]], staged[1..], keys);
        var m := Merge(target + [staged[0]], staged[1..], keys, DoNothing);
        assert m.rows[..|target|] == m.rows[..|target| + 1][..|target|];
      case Some(i) =>
        DoNothingKeepsRows(target, staged[1..], keys);
    }
  }

  /** ON CONFLICT DO UPDATE inserts or updates every proposed row, so it reports one
      row per proposed row and never removes a row. */
  lemma {:induction false} DoUpdateCountsEveryRow(target: seq<Record>, staged: seq<Record>, keys: seq<string>, assign: seq<string>)
    ensures var m := Merge(target, staged, keys, DoUpdate(assign));
      m.count == |staged| && |m.rows| >= |target|
    decreases |staged|
  {
    if |staged| > 0 {
      match FirstConflict(target, staged[0], keys)
      case None =>
        DoUpdateCountsEveryRow(target + [staged[0]], staged[1..], keys, assign);
      case Some(i) =>
        DoUpdateCountsEveryRow(target[i := Overwrite(target[i], staged[0], assign)], staged[1..], keys, assign);
    }
  }

  /** The row DO UPDATE leaves in place carries the proposed value in every SET column
      and keeps its own value elsewhere. */
  lemma {:induction false} OverwriteSets(existing: Record, proposed: Record, assign: seq<string>, c: string)
    ensures Get(Overwrite(existing, proposed, assign), c) ==
      if c in assign then Get(proposed, c) else Get(existing, c)
    decreases |assign|
  {
    if |assign| > 0 {
      OverwriteSets(existing[assign[0] := Get(proposed, assign[0])], proposed, assign[1..], c);
    }
  }

  /** The DELETE keeps exactly the rows that match no staged row, in order. */
  lemma {:induction false} UnmatchedKeeps(rows: seq<Record>, staged: seq<Record>, columns: seq<string>)
    ensures forall a :: a in Unmatched(rows, staged, columns) ==> a in rows && !MatchesAny(a, staged, columns)
    ensures forall a :: a in rows && !MatchesAny(a, staged, columns) ==> a in Unmatched(rows, staged, columns)
    decreases |rows|
  {
    if |rows| > 0 {
      UnmatchedKeeps(rows[1..], staged, columns);
      assert rows == [rows[0]] + rows[1..];
    }
  }

  // ---------------------------------------------------------------- database and sessions

  /** The database: its committed relations, and the log of every call made on a
      connection to it. */
  class Database {
    const server: Server
    var tables: Tables
    var log: seq<Event>

    constructor (server: Server, tables: Tables)
      ensures this.server == server && this.tables == Permanents(tables) && log == []
    {
      this.server := server;
      this.tables := Permanents(tables);
      log := [];
    }
  }

  /** A psycopg2 connection together with its cursor. `work` is what the session sees
      (the committed state plus its open transaction); `snapshot` is the state of its
      last commit, to which a rollback returns. */
  class Connection {
    const db: Database
    var work: Tables
    var snapshot: Tables

    /** `psycopg2.connect(...)`: a new session over the committed state. */
    constructor Open(db: Database)
      modifies db
      ensures this.db == db
      ensures work == Permanents(old(db.tables)) && snapshot == work
      ensures db.tables == old(db.tables) && db.log == old(db.log) + [Connected]
    {
      this.db := db;
      work := Permanents(db.tables);
      snapshot := Permanents(db.tables);
      new;
      db.log := db.log + [Connected];
    }

    /** `conn.cursor()`. */
    method Cursor()
      modifies db
      ensures db.tables == old(db.tables) && db.log == old(db.log) + [CursorOpened]
    {
      db.log := db.log + [CursorOpened];
    }

    /** `cursor.close()`. */
    method CloseCursor()
      modifies db
      ensures db.tables == old(db.tables) && db.log == old(db.log) + [CursorClosed]
    {
      db.log := db.log + [CursorClosed];
    }

    /** `cursor.execute(sql)` or `cursor.copy_expert(sql, rows)`, where `cmd` is what
        the text `sql` asks for. */
    method Execute(sql: string, cmd: Command) returns (reply: Reply)
      modifies this, db
      ensures reply == Exec(db.server, old(work), cmd)
      ensures work == (if reply.Done? then reply.tables else old(work)) && snapshot == old(snapshot)
      ensures db.tables == old(db.tables) && db.log == old(db.log) + [Executed(sql, reply.Done?)]
    {
      reply := Exec(db.server, work, cmd);
      if reply.Done? {
        work := reply.tables;
      }
      db.log := db.log + [Executed(sql, reply.Done?)];
    }

    /** `conn.commit()`: the session's permanent relations become the database's. */
    method Commit()
      modifies this, db
      ensures db.tables == Permanents(old(work)) && work == old(work) && snapshot == old(work)
      ensures db.log == old(db.log) + [Committed]
    {
      db.tables := Permanents(work);
      snapshot := work;
      db.log := db.log + [Committed];
    }

    /** `conn.rollback()`: everything since the last commit is undone. */
    method Rollback()
      modifies this, db
      ensures work == old(snapshot) && snapshot == old(snapshot)
      ensures db.tables == old(db.tables) && db.log == old(db.log) + [RolledBack]
    {
      work := snapshot;
      db.log := db.log + [RolledBack];
    }

    /** `conn.close()`: an open transaction is discarded with the session, so nothing
        of it is left to commit. */
    method Close()
      modifies this, db
      ensures work == old(snapshot) && snapshot == old(snapshot)
      ensures db.tables == old(db.tables) && db.log == old(db.log) + [Closed]
    {
      work := snapshot;
      db.log := db.log + [Closed];
    }
  }
}
