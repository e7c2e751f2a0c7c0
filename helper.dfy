/** The bulk-load engine of postgres_helper.py: `__insert_list` (append by COPY),
    `upsert_dataframe` (COPY into a staging table, then INSERT ... ON CONFLICT, per
    batch) and `insert_dataframe` (COPY everything into staging, then DELETE the
    matching rows and INSERT the staged ones). Each is a method over a Database and
    its Connections, proved equal to a function (`InsertListRun`, `UpsertRun`,
    `InsertFrameRun`) that describes the whole run from the database's state and event
    log before the call: what it returns or raises, the event log after it, what it
    commits, and the state it leaves its session in. */
module PostgresHelper {
  import opened Wrappers
  import opened Text
  import opened Statements
  import opened Batching
  import opened Postgres

  /** `batch=50000`, the default of `__insert_list`; `upsert_dataframe` relies on it
      when it delegates. */
  const InsertListBatch := 50000

  /** `batch= 10000`, fixed inside `insert_dataframe`. */
  const InsertFrameBatch := 10000

  /** A session's state: what it sees, and what a rollback returns it to. */
  datatype Session = Session(work: Tables, snapshot: Tables)

  /** Everything a helper call does: its return value or exception, the event log once
      it is over, the state it commits (`None` when it commits nothing), and the state
      in which it leaves the session it used. */
  datatype Effect<T> = Effect(result: Result<T>, log: seq<Event>, committed: Option<Tables>, session: Session)

  /** A run of a batch loop: the session state reached, the summed row count, the
      event log, and the error that stopped the loop, if any. */
  datatype Outcome = Outcome(tables: Tables, count: int, log: seq<Event>, failure: Option<string>)

  /** `data` after the `isinstance` dispatch: a DataFrame (its labels and
      `values.tolist()`), a list of dicts (with the labels and rows pandas builds from
      it), or a list of rows. */
  datatype Source =
    | DataFrame(labels: seq<string>, values: seq<Row>)
    | RecordList(labels: seq<string>, values: seq<Row>)
    | RowList(values: seq<Row>)

  datatype Input = Input(rows: seq<Row>, columns: Option<seq<string>>)

  /** The statements of one upsert batch. */
  datatype Plan = Plan(target: Relation, staging: Relation, columns: seq<string>, keys: seq<string>,
                       action: Action, copySql: string, upsertSql: string, truncateSql: string)

  /** The batches still to go once the loop offset has reached `i`. */
  ghost function Remaining(data: seq<Row>, batch: int, i: nat): seq<seq<Row>> {
    if batch > 0 then BatchesFrom(data, batch, i) else []
  }

  /** The column list a COPY gets: none when `columnString` is empty. */
  function CopyColumns(columns: Option<seq<string>>): Option<seq<string>> {
    if columns.Some? && |columns.value| > 0 then columns else None
  }

  // ---------------------------------------------------------------- __insert_list

  /** The copy loop, from the state `tables` reached after `count` rows with the event
      log `log`: one COPY per batch, summing `cursor.rowcount`, stopping at the first
      error. */
  function CopyFrom(server: Server, tables: Tables, into: Relation, columns: Option<seq<string>>,
                    sql: string, count: int, log: seq<Event>, batches: seq<seq<Row>>): Outcome
    decreases |batches|
  {
    if |batches| == 0 then Outcome(tables, count, log, None)
    else match Exec(server, tables, Copy(into, columns, batches[0]))
      case Failed(m) => Outcome(tables, count, log + [Executed(sql, false)], Some(m))
      case Done(t, n) => CopyFrom(server, t, into, columns, sql, count + n, log + [Executed(sql, true)], batches[1..])
  }

  /** The whole copy loop. */
  function CopyAll(server: Server, tables: Tables, into: Relation, columns: Option<seq<string>>,
                   sql: string, log: seq<Event>, batches: seq<seq<Row>>): Outcome
  {
    CopyFrom(server, tables, into, columns, sql, 0, log, batches)
  }

  /** The `for i in range(0, len(data), batch)` copy loop of `__insert_list` and
      `insert_dataframe` (its `range` raising for a zero step is left to the caller). */
  method CopyLoop(conn: Connection, into: Relation, columns: Option<seq<string>>, sql: string,
                  data: seq<Row>, batch: int) returns (total: int, failure: Option<string>)
    requires batch != 0
    modifies conn, conn.db
    ensures var o := CopyAll(conn.db.server, old(conn.work), into, columns, sql, old(conn.db.log),
                             Slices(data, batch).value);
      total == o.count && failure == o.failure && conn.work == o.tables && conn.db.log == o.log
    ensures conn.snapshot == old(conn.snapshot) && conn.db.tables == old(conn.db.tables)
  {
    ghost var rest := Slices(data, batch).value;
    ghost var goal := CopyAll(conn.db.server, conn.work, into, columns, sql, conn.db.log, rest);
    total := 0;
    var i := 0;
    while i < |data| && batch > 0
      invariant conn.snapshot == old(conn.snapshot) && conn.db.tables == old(conn.db.tables)
      invariant rest == Remaining(data, batch, i)
      invariant goal == CopyFrom(conn.db.server, conn.work, into, columns, sql, total, conn.db.log, rest)
      decreases |data| - i
    {
      var subData := data[i..Min(i + batch, |data|)];
      assert rest[0] == subData;
      var reply := conn.Execute(sql, Copy(into, columns, subData));
      if reply.Failed? {
        return total, Some(reply.message);
      }
      total := total + reply.rowcount;
      i := i + batch;
      rest := rest[1..];
    }
    return total, None;
  }

  /** The log after closing a connection the helper opened itself. */
  function Release(owned: bool, log: seq<Event>): seq<Event> {
    if owned then log + [Closed] else log
  }

  /** `__insert_list(data, schema, table, columns, external_connection, batch)` on a
      database in state `committed` with event log `log`. With `owned` the helper opens
      its own connection (`external_connection is None`); otherwise it works in
      `session`, the caller's connection. */
  function InsertListRun(server: Server, committed: Tables, log: seq<Event>, session: Session, owned: bool,
                         data: seq<Row>, schema: string, table: string,
                         columns: Option<seq<string>>, batch: int): Effect<int>
  {
    if |data| == 0 then Effect(Ok(0), log, None, session)
    else
      var s := if owned then Session(Permanents(committed), Permanents(committed)) else session;
      var started := (if owned then log + [Connected] else log) + [CursorOpened];
      var rolledBack := Session(s.snapshot, s.snapshot);
      match Slices(data, batch)
      case None =>
        Effect(Err(ValueError), Release(owned, started + [RolledBack] + [CursorClosed]), None, rolledBack)
      case Some(batches) =>
        var o := CopyAll(server, s.work, Permanent(schema, table), CopyColumns(columns),
                         CopyText(schema + "." + table, ColumnString(columns)), started, batches);
        if o.failure.Some? then
          Effect(Err(Raised(o.failure.value)), Release(owned, o.log + [RolledBack] + [CursorClosed]), None, rolledBack)
        else if owned then
          Effect(Ok(o.count), o.log + [CursorClosed] + [Committed] + [Closed],
                 Some(Permanents(o.tables)), Session(o.tables, o.tables))
        else
          Effect(Ok(o.count), o.log + [CursorClosed], None, Session(o.tables, s.snapshot))
  }

  /** With a connection of its own, `__insert_list` does not look at the caller's session. */
  lemma OwnedIgnoresSession(server: Server, committed: Tables, log: seq<Event>, s1: Session, s2: Session,
                            data: seq<Row>, schema: string, table: string, columns: Option<seq<string>>, batch: int)
    ensures var a := InsertListRun(server, committed, log, s1, true, data, schema, table, columns, batch);
      var b := InsertListRun(server, committed, log, s2, true, data, schema, table, columns, batch);
      a.result == b.result && a.log == b.log && a.committed == b.committed
  {
  }

  method InsertList(db: Database, data: seq<Row>, schema: string, table: string,
                    columns: Option<seq<string>>, external: Connection?, batch: int) returns (rows: Result<int>)
    requires external != null ==> external.db == db
    modifies db, external
    ensures var e := InsertListRun(db.server, old(db.tables), old(db.log),
                                   old(if external != null then Session(external.work, external.snapshot)
                                       else Session(db.tables, db.tables)),
                                   external == null, data, schema, table, columns, batch);
      rows == e.result && db.log == e.log &&
      db.tables == (if e.committed.Some? then e.committed.value else old(db.tables)) &&
      (external != null ==> external.work == e.session.work && external.snapshot == e.session.snapshot)
  {
    if |data| == 0 {
      return Ok(0);
    }
    var conn: Connection;
    if external == null {
      conn := new Connection.Open(db);
    } else {
      conn := external;
    }
    conn.Cursor();
    var columnString := ColumnString(columns);
    var sql := CopyText(schema + "." + table, columnString);
    if batch == 0 {
      // range() raises ValueError inside the try
      conn.Rollback();
      conn.CloseCursor();
      if external == null {
        conn.Close();
      }
      return Err(ValueError);
    }
    var total, failure := CopyLoop(conn, Permanent(schema, table), CopyColumns(columns), sql, data, batch);
    if failure.Some? {
      conn.Rollback();
      conn.CloseCursor();
      if external == null {
        conn.Close();
      }
      return Err(Raised(failure.value));
    }
    conn.CloseCursor();
    if external == null {
      conn.Commit();
      conn.Close();
    }
    return Ok(total);
  }

  // ---------------------------------------------------------------- upsert_dataframe

  /** The `isinstance` dispatch: a DataFrame brings its own labels; a list is probed
      with `data[0]`, so an empty list raises IndexError; a list of rows keeps the
      `columns` argument. */
  function Normalize(data: Source, columns: Option<seq<string>>): Result<Input> {
    match data
    case DataFrame(labels, values) => Ok(Input(values, Some(labels)))
    case RecordList(labels, values) => if |values| == 0 then Err(IndexError) else Ok(Input(values, Some(labels)))
    case RowList(values) => if |values| == 0 then Err(IndexError) else Ok(Input(values, columns))
  }

  /** The statements of the keyed path. */
  function UpsertPlan(schema: string, table: string, columns: seq<string>, keys: seq<string>, doNothing: bool): Plan {
    var staging := StagingName(table);
    Plan(Permanent(schema, table), Temporary(staging), columns, keys,
         if doNothing then DoNothing else DoUpdate(NonKey(columns, keys)),
         CopyText(staging, "(" + Join(", ", columns) + ")"),
         UpsertText(schema, table, staging, keys, ActionText(doNothing, Assignments(NonKey(columns, keys)))),
         TruncateText(staging))
  }

  /** The upsert loop, from the state `tables` reached after `count` upserted rows with
      the event log `log`: per batch, COPY into staging, upsert into the target (adding
      the upsert's row count), truncate staging; the first error stops it. */
  function UpsertFrom(server: Server, tables: Tables, p: Plan, count: int, log: seq<Event>,
                      batches: seq<seq<Row>>): Outcome
    decreases |batches|
  {
    if |batches| == 0 then Outcome(tables, count, log, None)
    else match Exec(server, tables, Copy(p.staging, Some(p.columns), batches[0]))
      case Failed(m) => Outcome(tables, count, log + [Executed(p.copySql, false)], Some(m))
      case Done(t1, _) =>
        var copied := log + [Executed(p.copySql, true)];
        match Exec(server, t1, Upsert(p.target, p.staging, p.keys, p.action))
        case Failed(m) => Outcome(t1, count, copied + [Executed(p.upsertSql, false)], Some(m))
        case Done(t2, n) =>
          var upserted := copied + [Executed(p.upsertSql, true)];
          match Exec(server, t2, Truncate(p.staging))
          case Failed(m) => Outcome(t2, count + n, upserted + [Executed(p.truncateSql, false)], Some(m))
          case Done(t3, _) => UpsertFrom(server, t3, p, count + n, upserted + [Executed(p.truncateSql, true)], batches[1..])
  }

  /** The whole upsert loop. */
  function UpsertAll(server: Server, tables: Tables, p: Plan, log: seq<Event>, batches: seq<seq<Row>>): Outcome {
    UpsertFrom(server, tables, p, 0, log, batches)
  }

  /** The `for i in range(0, len(rows), batch)` loop of `upsert_dataframe`. */
  method UpsertLoop(conn: Connection, p: Plan, data: seq<Row>, batch: int) returns (total: int, failure: Option<string>)
    requires batch != 0
    modifies conn, conn.db
    ensures var o := UpsertAll(conn.db.server, old(conn.work), p, old(conn.db.log), Slices(data, batch).value);
      total == o.count && failure == o.failure && conn.work == o.tables && conn.db.log == o.log
    ensures conn.snapshot == old(conn.snapshot) && conn.db.tables == old(conn.db.tables)
  {
    ghost var rest := Slices(data, batch).value;
    ghost var goal := UpsertAll(conn.db.server, conn.work, p, conn.db.log, rest);
    total := 0;
    var i := 0;
    while i < |data| && batch > 0
      invariant conn.snapshot == old(conn.snapshot) && conn.db.tables == old(conn.db.tables)
      invariant rest == Remaining(data, batch, i)
      invariant goal == UpsertFrom(conn.db.server, conn.work, p, total, conn.db.log, rest)
      decreases |data| - i
    {
      var batchData := data[i..Min(i + batch, |data|)];
      assert rest[0] == batchData;
      var copied := conn.Execute(p.copySql, Copy(p.staging, Some(p.columns), batchData));
      if copied.Failed? {
        return total, Some(copied.message);
      }
      var upserted := conn.Execute(p.upsertSql, Upsert(p.target, p.staging, p.keys, p.action));
      if upserted.Failed? {
        return total, Some(upserted.message);
      }
      total := total + upserted.rowcount;
      var truncated := conn.Execute(p.truncateSql, Truncate(p.staging));
      if truncated.Failed? {
        return total, Some(truncated.message);
      }
      i := i + batch;
      rest := rest[1..];
    }
    return total, None;
  }

  /** The keyed branch of `upsert_dataframe`: staging table, then the batch loop, then
      one commit. */
  function UpsertKeyedRun(server: Server, committed: Tables, log: seq<Event>, rows: seq<Row>, columns: seq<string>,
                          schema: string, table: string, keys: seq<string>, batch: int, doNothing: bool): Effect<int>
  {
    var initial := Session(Permanents(committed), Permanents(committed));
    var p := UpsertPlan(schema, table, columns, keys, doNothing);
    var started := log + [Connected] + [CursorOpened];
    var create := CreateStagingText(StagingName(table), schema, table);
    match Exec(server, initial.work, CreateStaging(StagingName(table), p.target))
    case Failed(m) => Effect(Err(Raised(m)), started + [Executed(create, false)], None, initial)
    case Done(t0, _) =>
      var created := started + [Executed(create, true)];
      match Slices(rows, batch)
      case None => Effect(Err(ValueError), created, None, Session(t0, initial.snapshot))
      case Some(batches) =>
        var o := UpsertAll(server, t0, p, created, batches);
        if o.failure.Some? then
          Effect(Err(Raised(o.failure.value)), o.log + [RolledBack] + [CursorClosed] + [Closed], None, initial)
        else
          Effect(Ok(o.count), o.log + [Committed] + [CursorClosed] + [Closed],
                 Some(Permanents(o.tables)), Session(o.tables, o.tables))
  }

  /** `upsert_dataframe(data, schema, table, key_columns, batch, columns, do_nothing)`
      on a database in state `committed` with event log `log`. */
  function UpsertRun(server: Server, committed: Tables, log: seq<Event>, data: Source, schema: string, table: string,
                     keys: seq<string>, batch: int, columns: Option<seq<string>>, doNothing: bool): Effect<int>
  {
    var initial := Session(Permanents(committed), Permanents(committed));
    match Normalize(data, columns)
    case Err(e) => Effect(Err(e), log, None, initial)
    case Ok(input) =>
      if input.columns.None? then Effect(Err(TypeError), log, None, initial)
      else if |keys| == 0 then
        InsertListRun(server, committed, log, initial, true, input.rows, schema, table, input.columns, InsertListBatch)
      else
        UpsertKeyedRun(server, committed, log, input.rows, input.columns.value, schema, table, keys, batch, doNothing)
  }

  method UpsertDataframe(db: Database, data: Source, schema: string, table: string, keys: seq<string>,
                         batch: int, columns: Option<seq<string>>, doNothing: bool) returns (changes: Result<int>)
    modifies db
    ensures var e := UpsertRun(db.server, old(db.tables), old(db.log), data, schema, table, keys, batch, columns, doNothing);
      changes == e.result && db.log == e.log &&
      db.tables == (if e.committed.Some? then e.committed.value else old(db.tables))
  {
    var input := Normalize(data, columns);
    if input.Err? {
      return Err(input.error);
    }
    var rows := input.value.rows;
    if input.value.columns.None? {
      // list(None) on the append path, ", ".join(None) on the keyed path
      return Err(TypeError);
    }
    var cols := input.value.columns.value;
    if |keys| == 0 {
      OwnedIgnoresSession(db.server, db.tables, db.log, Session(db.tables, db.tables),
                          Session(Permanents(db.tables), Permanents(db.tables)),
                          rows, schema, table, Some(cols), InsertListBatch);
      changes := InsertList(db, rows, schema, table, Some(cols), null, InsertListBatch);
    } else {
      changes := UpsertKeyed(db, rows, cols, schema, table, keys, batch, doNothing);
    }
  }

  method UpsertKeyed(db: Database, rows: seq<Row>, cols: seq<string>, schema: string, table: string,
                     keys: seq<string>, batch: int, doNothing: bool) returns (changes: Result<int>)
    modifies db
    ensures var e := UpsertKeyedRun(db.server, old(db.tables), old(db.log), rows, cols, schema, table, keys, batch, doNothing);
      changes == e.result && db.log == e.log &&
      db.tables == (if e.committed.Some? then e.committed.value else old(db.tables))
  {
    var originColumns := Join(", ", cols);
    var action: string;
    if !doNothing {
      var excludes := BuildExcludes(cols, keys);
      var excludedColumns := Join(",\n\t", excludes);
      action := "DO UPDATE SET\n\t" + excludedColumns;
    } else {
      action := "DO NOTHING";
    }
    var conn := new Connection.Open(db);
    conn.Cursor();
    var tmpTable := StagingName(table);
    var sql := CreateStagingText(tmpTable, schema, table);
    var created := conn.Execute(sql, CreateStaging(tmpTable, Permanent(schema, table)));
    if created.Failed? {
      // outside any try: the exception escapes and the connection stays open
      return Err(Raised(created.message));
    }
    var upsertSql := UpsertText(schema, table, tmpTable, keys, action);
    if batch == 0 {
      // range() raises ValueError outside the try
      return Err(ValueError);
    }
    var conflictAction := if doNothing then DoNothing else DoUpdate(NonKey(cols, keys));
    var plan := Plan(Permanent(schema, table), Temporary(tmpTable), cols, keys, conflictAction,
                     CopyText(tmpTable, "(" + originColumns + ")"), upsertSql, TruncateText(tmpTable));
    assert plan == UpsertPlan(schema, table, cols, keys, doNothing);
    var total, failure := UpsertLoop(conn, plan, rows, batch);
    if failure.Some? {
      conn.Rollback();
      conn.CloseCursor();
      conn.Close();
      return Err(Raised(failure.value));
    }
    conn.Commit();
    conn.CloseCursor();
    conn.Close();
    return Ok(total);
  }

  // ---------------------------------------------------------------- insert_dataframe

  /** `insert_dataframe(df, schema, table, columns)` on a database in state `committed`
      with event log `log`, where `labels` and `values` are `df.columns` and
      `df.values.tolist()` and `matchColumns` is `columns`. */
  function InsertFrameRun(server: Server, committed: Tables, log: seq<Event>, labels: seq<string>, values: seq<Row>,
                          schema: string, table: string, matchColumns: seq<string>): Effect<Option<int>>
  {
    var initial := Session(Permanents(committed), Permanents(committed));
    if |values| == 0 then Effect(Ok(None), log, None, initial)
    else
      var originColumns := Join(", ", labels);
      var staging := StagingName(table);
      var target := Permanent(schema, table);
      var started := log + [Connected] + [CursorOpened];
      var create := CreateStagingText(staging, schema, table);
      match Exec(server, initial.work, CreateStaging(staging, target))
      case Failed(m) => Effect(Err(Raised(m)), started + [Executed(create, false)], None, initial)
      case Done(t0, _) =>
        var o := CopyAll(server, t0, Temporary(staging), Some(labels), CopyText(staging, "(" + originColumns + ")"),
                         started + [Executed(create, true)], Batches(values, InsertFrameBatch));
        if o.failure.Some? then
          Effect(Err(Raised(o.failure.value)), o.log + [RolledBack] + [CursorClosed] + [Closed], None, initial)
        else ReplaceRun(server, initial, o.tables, o.log, labels, schema, table, matchColumns)
  }

  /** The rest of `insert_dataframe` once every batch is staged, from the session state
      `tables` and the event log `log`: the DELETE of the matching rows when `columns`
      is not empty, then the INSERT ... SELECT, then the commit; a failure of either
      statement rolls back and closes the connection, but not the cursor. */
  function ReplaceRun(server: Server, initial: Session, tables: Tables, log: seq<Event>, labels: seq<string>,
                      schema: string, table: string, matchColumns: seq<string>): Effect<Option<int>>
  {
    var staging := StagingName(table);
    var target := Permanent(schema, table);
    var deleteSql := DeleteText(schema, table, staging, Conditions(matchColumns));
    var deleted := if |matchColumns| > 0 then Exec(server, tables, DeleteMatching(target, Temporary(staging), matchColumns))
                   else Done(tables, 0);
    var afterDelete := if |matchColumns| > 0 then log + [Executed(deleteSql, deleted.Done?)] else log;
    if deleted.Failed? then
      Effect(Err(Wrapped(deleted.message)), afterDelete + [RolledBack] + [Closed], None, initial)
    else
      var insertSql := InsertSelectText(schema, table, Join(", ", labels), staging);
      match Exec(server, deleted.tables, InsertSelect(target, labels, Temporary(staging)))
      case Failed(m) =>
        Effect(Err(Wrapped(m)), afterDelete + [Executed(insertSql, false)] + [RolledBack] + [Closed], None, initial)
      case Done(t, _) =>
        Effect(Ok(Some(0)), afterDelete + [Executed(insertSql, true)] + [Committed] + [CursorClosed] + [Closed],
               Some(Permanents(t)), Session(t, t))
  }

  method InsertDataframe(db: Database, labels: seq<string>, values: seq<Row>, schema: string, table: string,
                         matchColumns: seq<string>) returns (r: Result<Option<int>>)
    modifies db
    ensures var e := InsertFrameRun(db.server, old(db.tables), old(db.log), labels, values, schema, table, matchColumns);
      r == e.result && db.log == e.log &&
      db.tables == (if e.committed.Some? then e.committed.value else old(db.tables))
  {
    if |values| == 0 {
      return Ok(None);
    }
    var originColumns := Join(", ", labels);
    var rows := values;
    var conn := new Connection.Open(db);
    conn.Cursor();
    var tmpTable := StagingName(table);
    var sql := CreateStagingText(tmpTable, schema, table);
    var created := conn.Execute(sql, CreateStaging(tmpTable, Permanent(schema, table)));
    if created.Failed? {
      // outside any try: the exception escapes and the connection stays open
      return Err(Raised(created.message));
    }
    var changes := 0;
    var batch := InsertFrameBatch;
    var copySql := CopyText(tmpTable, "(" + originColumns + ")");
    var copied, failure := CopyLoop(conn, Temporary(tmpTable), Some(labels), copySql, rows, batch);
    if failure.Some? {
      conn.Rollback();
      conn.CloseCursor();
      conn.Close();
      return Err(Raised(failure.value));
    }
    if |matchColumns| > 0 {
      var conditions := BuildConditions(matchColumns);
      var deleteSql := DeleteText(schema, table, tmpTable, conditions);
      var deleted := conn.Execute(deleteSql, DeleteMatching(Permanent(schema, table), Temporary(tmpTable), matchColumns));
      if deleted.Failed? {
        conn.Rollback();
        conn.Close();
        return Err(Wrapped(deleted.message));
      }
    }
    var insertSql := InsertSelectText(schema, table, originColumns, tmpTable);
    var inserted := conn.Execute(insertSql, InsertSelect(Permanent(schema, table), labels, Temporary(tmpTable)));
    if inserted.Failed? {
      conn.Rollback();
      conn.Close();
      return Err(Wrapped(inserted.message));
    }
    conn.Commit();
    conn.CloseCursor();
    conn.Close();
    return Ok(Some(changes));
  }
}
