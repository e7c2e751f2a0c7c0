/** What the three loaders promise: the transaction rule (who commits, who rolls back,
    who closes), what each successful run leaves in the target and staging tables,
    and which statements it sends. */
module LoaderProperties {
  import opened Wrappers
  import opened Text
  import opened Statements
  import opened Batching
  import opened Postgres
  import opened PostgresHelper
  import opened Merging

  // ---------------------------------------------------------------- event logs

  /** Events that are all statements: no connection, cursor or transaction event. */
  predicate OnlyStatements(events: seq<Event>) {
    forall k :: 0 <= k < |events| ==> events[k].Executed?
  }

  /** `long` is `short` followed by statements only. */
  predicate ExtendsByStatements(long: seq<Event>, short: seq<Event>) {
    |short| <= |long| && long[..|short|] == short && OnlyStatements(long[|short|..])
  }

  /** The SQL texts sent, in order. */
  function Sent(events: seq<Event>): (r: seq<string>)
    ensures |r| <= |events|
    decreases |events|
  {
    if |events| == 0 then []
    else (if events[0].Executed? then [events[0].sql] else []) + Sent(events[1..])
  }

  /** `n` copies of a statement. */
  function Repeat(sql: string, n: nat): (r: seq<string>)
    ensures |r| == n && forall k :: 0 <= k < n ==> r[k] == sql
  {
    seq(n, _ => sql)
  }

  lemma {:induction false} SentAppend(a: seq<Event>, b: seq<Event>)
    ensures Sent(a + b) == Sent(a) + Sent(b)
    decreases |a|
  {
    if |a| == 0 {
      assert a + b == b;
    } else {
      assert (a + b)[0] == a[0];
      assert (a + b)[1..] == a[1..] + b;
      SentAppend(a[1..], b);
    }
  }

  lemma ExtendsTrans(a: seq<Event>, b: seq<Event>, c: seq<Event>)
    requires ExtendsByStatements(a, b) && ExtendsByStatements(b, c)
    ensures ExtendsByStatements(a, c)
  {
    assert a[..|c|] == a[..|b|][..|c|];
    forall k | 0 <= k < |a| - |c|
      ensures a[|c|..][k].Executed?
    {
      if |c| + k < |b| {
        assert a[|c|..][k] == b[|c|..][k];
      } else {
        assert a[|c|..][k] == a[|b|..][|c| + k - |b|];
      }
    }
  }

  lemma StatementsAfter(log: seq<Event>, extra: seq<Event>)
    requires OnlyStatements(extra)
    ensures ExtendsByStatements(log + extra, log)
  {
    assert (log + extra)[..|log|] == log;
    assert (log + extra)[|log|..] == extra;
  }

  /** The copy loop only sends statements; when it runs to the end it has sent its
      statement once per batch. */
  lemma {:induction false} CopyFromLog(server: Server, tables: Tables, into: Relation, columns: Option<seq<string>>,
                                       sql: string, count: int, log: seq<Event>, batches: seq<seq<Row>>)
    ensures var o := CopyFrom(server, tables, into, columns, sql, count, log, batches);
      ExtendsByStatements(o.log, log) &&
      (o.failure.None? ==> Sent(o.log) == Sent(log) + Repeat(sql, |batches|))
    decreases |batches|
  {
    var o := CopyFrom(server, tables, into, columns, sql, count, log, batches);
    if |batches| == 0 {
      assert o.log == log;
      assert log[|log|..] == [];
    } else {
      match Exec(server, tables, Copy(into, columns, batches[0]))
      case Failed(m) =>
        assert o.log == log + [Executed(sql, false)];
        assert o.log[|log|..] == [Executed(sql, false)];
      case Done(t, n) =>
        var next := log + [Executed(sql, true)];
        CopyFromLog(server, t, into, columns, sql, count + n, next, batches[1..]);
        assert next[|log|..] == [Executed(sql, true)];
        ExtendsTrans(o.log, next, log);
        if o.failure.None? {
          SentAppend(log, [Executed(sql, true)]);
          assert Sent([Executed(sql, true)]) == [sql];
          assert [sql] + Repeat(sql, |batches| - 1) == Repeat(sql, |batches|);
        }
    }
  }

  /** `events` is `opening`, then statements only, then `closing`. */
  predicate Framed(events: seq<Event>, opening: seq<Event>, closing: seq<Event>) {
    |opening| + |closing| <= |events| &&
    events[..|opening|] == opening &&
    events[|events| - |closing|..] == closing &&
    OnlyStatements(events[|opening|..|events| - |closing|])
  }

  /** A run that only adds statements to `log + opening`, followed by `closing`, is
      framed by the two once `log` is set aside. */
  lemma Frames(log: seq<Event>, opening: seq<Event>, run: seq<Event>, closing: seq<Event>)
    requires ExtendsByStatements(run, log + opening)
    ensures |log| <= |run + closing| && (run + closing)[..|log|] == log
    ensures Framed((run + closing)[|log|..], opening, closing)
  {
    var events := (run + closing)[|log|..];
    assert run[..|log + opening|] == log + opening;
    assert events[..|opening|] == run[..|log + opening|][|log|..];
    assert events[|events| - |closing|..] == closing;
    assert events[|opening|..|events| - |closing|] == run[|log + opening|..];
  }

  /** In a framed log, a connection, cursor or transaction event occurs exactly when
      it occurs in the opening or in the closing. */
  lemma FramedMembership(events: seq<Event>, opening: seq<Event>, closing: seq<Event>, x: Event)
    requires Framed(events, opening, closing) && !x.Executed?
    ensures x in events <==> x in opening || x in closing
  {
    var mid := events[|opening|..|events| - |closing|];
    assert events == opening + mid + closing;
    assert x !in mid;
  }

  // ---------------------------------------------------------------- __insert_list

  /** What `__insert_list` does before its copies: connect when it owns the
      connection, then open a cursor. */
  function Opening(owned: bool): seq<Event> {
    if owned then [Connected, CursorOpened] else [CursorOpened]
  }

  /** What `__insert_list` does after its copies: on error roll back, close the cursor
      and close an owned connection; on success close the cursor, and commit and close
      an owned connection. */
  function Closing(owned: bool, ok: bool): seq<Event> {
    if !ok then [RolledBack, CursorClosed] + (if owned then [Closed] else [])
    else if owned then [CursorClosed, Committed, Closed]
    else [CursorClosed]
  }

  /** The event log of a non-empty `__insert_list`: it keeps what came before, then
      opens, sends nothing but statements, and closes as `Closing` says. */
  lemma InsertListFramed(server: Server, committed: Tables, log: seq<Event>, session: Session, owned: bool,
                         data: seq<Row>, schema: string, table: string, columns: Option<seq<string>>, batch: int)
    requires |data| > 0
    ensures var e := InsertListRun(server, committed, log, session, owned, data, schema, table, columns, batch);
      |log| <= |e.log| && e.log[..|log|] == log &&
      Framed(e.log[|log|..], Opening(owned), Closing(owned, e.result.Ok?))
  {
    var e := InsertListRun(server, committed, log, session, owned, data, schema, table, columns, batch);
    var s := if owned then Session(Permanents(committed), Permanents(committed)) else session;
    var started := (if owned then log + [Connected] else log) + [CursorOpened];
    assert started == log + Opening(owned);
    var closing := Closing(owned, e.result.Ok?);
    if batch == 0 {
      assert started[|started|..] == [];
      assert e.log == started + closing;
      Frames(log, Opening(owned), started, closing);
    } else {
      var sql := CopyText(schema + "." + table, ColumnString(columns));
      var o := CopyAll(server, s.work, Permanent(schema, table), CopyColumns(columns), sql, started, Slices(data, batch).value);
      CopyFromLog(server, s.work, Permanent(schema, table), CopyColumns(columns), sql, 0, started, Slices(data, batch).value);
      assert e.result.Ok? == o.failure.None?;
      assert e.log == Finish(owned, o.failure.None?, o.log);
      FinishCloses(owned, o.failure.None?, o.log);
      Frames(log, Opening(owned), o.log, closing);
    }
  }

  /** The events `__insert_list` appends after its copies, as its two exits write them. */
  function Finish(owned: bool, ok: bool, run: seq<Event>): seq<Event> {
    if !ok then Release(owned, run + [RolledBack] + [CursorClosed])
    else if owned then run + [CursorClosed] + [Committed] + [Closed]
    else run + [CursorClosed]
  }

  lemma FinishCloses(owned: bool, ok: bool, run: seq<Event>)
    ensures Finish(owned, ok, run) == run + Closing(owned, ok)
  {
  }

  /** The transaction rule of `__insert_list`. Empty data does nothing at all: no
      connection, no cursor, result 0. Otherwise the helper connects only when it
      owns the connection; it commits exactly when it owns the connection and
      succeeded, rolls back exactly when it fails, and closes the connection exactly
      when it owns it. */
  lemma InsertListTransaction(server: Server, committed: Tables, log: seq<Event>, session: Session, owned: bool,
                              data: seq<Row>, schema: string, table: string, columns: Option<seq<string>>, batch: int)
    ensures var e := InsertListRun(server, committed, log, session, owned, data, schema, table, columns, batch);
      |data| == 0 ==> e.result == Ok(0) && e.log == log && e.committed.None? && e.session == session
    ensures var e := InsertListRun(server, committed, log, session, owned, data, schema, table, columns, batch);
      |data| > 0 ==>
        |log| <= |e.log| && e.log[..|log|] == log &&
        var events := e.log[|log|..];
        (Connected in events <==> owned) &&
        CursorOpened in events && CursorClosed in events &&
        (Closed in events <==> owned) &&
        (Committed in events <==> owned && e.result.Ok?) &&
        (RolledBack in events <==> e.result.Err?)
  {
    if |data| > 0 {
      var e := InsertListRun(server, committed, log, session, owned, data, schema, table, columns, batch);
      InsertListFramed(server, committed, log, session, owned, data, schema, table, columns, batch);
      InsertListEvents(e.log[|log|..], owned, e.result.Ok?);
    }
  }

  lemma InsertListEvents(events: seq<Event>, owned: bool, ok: bool)
    requires Framed(events, Opening(owned), Closing(owned, ok))
    ensures Connected in events <==> owned
    ensures CursorOpened in events && CursorClosed in events
    ensures Closed in events <==> owned
    ensures Committed in events <==> owned && ok
    ensures RolledBack in events <==> !ok
  {
    var opening := Opening(owned);
    var closing := Closing(owned, ok);
    FramedMembership(events, opening, closing, Connected);
    FramedMembership(events, opening, closing, CursorOpened);
    FramedMembership(events, opening, closing, CursorClosed);
    FramedMembership(events, opening, closing, Closed);
    FramedMembership(events, opening, closing, Committed);
    FramedMembership(events, opening, closing, RolledBack);
  }

  /** What a non-empty `__insert_list` returns and leaves behind: it commits exactly
      when it owns the connection and succeeded, and then what its session holds; a
      step of 0 is the only source of ValueError and a negative step copies nothing.
      On failure the caller's session returns to its last commit; on success it keeps
      the rows, uncommitted. */
  lemma InsertListOutcome(server: Server, committed: Tables, log: seq<Event>, session: Session, owned: bool,
                          data: seq<Row>, schema: string, table: string, columns: Option<seq<string>>, batch: int)
    requires |data| > 0
    ensures var e := InsertListRun(server, committed, log, session, owned, data, schema, table, columns, batch);
        (e.committed.Some? <==> owned && e.result.Ok?) &&
        (e.committed.Some? ==> e.committed.value == Permanents(e.session.work)) &&
        (e.result == Err(ValueError) <==> batch == 0) &&
        (batch < 0 ==> e.result == Ok(0)) &&
        (!owned && e.result.Err? ==> e.session == Session(session.snapshot, session.snapshot)) &&
        (!owned && e.result.Ok? ==> e.session.snapshot == session.snapshot)
  {
    if batch < 0 {
      assert Slices(data, batch).value == [];
    }
  }

  /** The columns a copy fills: the listed ones, or the table's own in order. */
  function CopiedColumns(columns: Option<seq<string>>, t: Table): seq<string> {
    if columns.Some? then columns.value else t.columns
  }

  lemma Associative<T>(a: seq<T>, b: seq<T>, c: seq<T>)
    ensures a + b + c == a + (b + c)
  {
  }

  /** A copy loop that runs to the end appends every batch's rows, in order. */
  lemma {:induction false} CopyFromAppends(server: Server, tables: Tables, into: Relation, columns: Option<seq<string>>,
                                           sql: string, count: int, log: seq<Event>, batches: seq<seq<Row>>)
    requires Standard(server) && into in tables
    requires CopyFrom(server, tables, into, columns, sql, count, log, batches).failure.None?
    ensures var t := tables[into];
      CopyFrom(server, tables, into, columns, sql, count, log, batches).tables
        == tables[into := t.(rows := t.rows + ToRecords(CopiedColumns(columns, t), Flatten(batches)))]
    decreases |batches|
  {
    var t := tables[into];
    var cols := CopiedColumns(columns, t);
    if |batches| == 0 {
      assert t.rows + ToRecords(cols, []) == t.rows;
      assert tables[into := t] == tables;
    } else {
      CopyBatchStep(server, tables, into, columns, sql, count, log, batches);
      var first := t.(rows := t.rows + ToRecords(cols, batches[0]));
      var t1 := tables[into := first];
      CopyFromAppends(server, t1, into, columns, sql, count + |batches[0]|, log + [Executed(sql, true)], batches[1..]);
      assert CopiedColumns(columns, first) == cols;
      var last := first.(rows := first.rows + ToRecords(cols, Flatten(batches[1..])));
      assert Flatten(batches) == batches[0] + Flatten(batches[1..]);
      AppendInTwo(t, cols, batches[0], Flatten(batches[1..]));
      Overwritten(tables, into, first, last);
    }
  }

  /** One successful copy batch appends its rows and the loop goes on with the rest. */
  lemma CopyBatchStep(server: Server, tables: Tables, into: Relation, columns: Option<seq<string>>,
                      sql: string, count: int, log: seq<Event>, batches: seq<seq<Row>>)
    requires Standard(server) && |batches| > 0
    requires CopyFrom(server, tables, into, columns, sql, count, log, batches).failure.None?
    ensures into in tables
    ensures var t := tables[into];
      CopyFrom(server, tables, into, columns, sql, count, log, batches)
        == CopyFrom(server, tables[into := t.(rows := t.rows + ToRecords(CopiedColumns(columns, t), batches[0]))],
                    into, columns, sql, count + |batches[0]|, log + [Executed(sql, true)], batches[1..])
  {
    var r := Exec(server, tables, Copy(into, columns, batches[0]));
    assert r.Done?;
    CopyAppends(server, tables, into, columns, batches[0]);
  }

  /** A copy loop that runs to the end counts every row of every batch. */
  lemma {:induction false} CopyFromCounts(server: Server, tables: Tables, into: Relation, columns: Option<seq<string>>,
                                          sql: string, count: int, log: seq<Event>, batches: seq<seq<Row>>)
    requires Standard(server)
    requires CopyFrom(server, tables, into, columns, sql, count, log, batches).failure.None?
    ensures CopyFrom(server, tables, into, columns, sql, count, log, batches).count == count + |Flatten(batches)|
    decreases |batches|
  {
    if |batches| > 0 {
      var r := Exec(server, tables, Copy(into, columns, batches[0]));
      CopyAppends(server, tables, into, columns, batches[0]);
      assert r.rowcount == |batches[0]|;
      CopyFromCounts(server, r.tables, into, columns, sql, count + |batches[0]|, log + [Executed(sql, true)], batches[1..]);
    }
  }

  /** Appending the records of two row lists one after the other appends those of both. */
  lemma AppendInTwo(t: Table, columns: seq<string>, a: seq<Row>, b: seq<Row>)
    ensures var first := t.(rows := t.rows + ToRecords(columns, a));
      first.(rows := first.rows + ToRecords(columns, b)) == t.(rows := t.rows + ToRecords(columns, a + b))
  {
    ToRecordsAppend(columns, a, b);
    Associative(t.rows, ToRecords(columns, a), ToRecords(columns, b));
  }

  lemma CopyAllAppends(server: Server, tables: Tables, into: Relation, columns: Option<seq<string>>,
                       sql: string, log: seq<Event>, batches: seq<seq<Row>>, data: seq<Row>)
    requires Standard(server) && |batches| > 0 && Flatten(batches) == data
    requires CopyAll(server, tables, into, columns, sql, log, batches).failure.None?
    ensures into in tables
    ensures var o := CopyAll(server, tables, into, columns, sql, log, batches);
      var t := tables[into];
      o.tables == tables[into := t.(rows := t.rows + ToRecords(CopiedColumns(columns, t), data))] &&
      o.count == |data|
  {
    CopyAppends(server, tables, into, columns, batches[0]);
    CopyFromAppends(server, tables, into, columns, sql, 0, log, batches);
    CopyFromCounts(server, tables, into, columns, sql, 0, log, batches);
  }

  /** Replacing a permanent table commutes with dropping the temporary ones. */
  lemma PermanentsUpdate(tables: Tables, r: Relation, t: Table)
    requires r.Permanent?
    ensures Permanents(tables[r := t]) == Permanents(tables)[r := t]
  {
  }

  /** A temporary table does not outlive its session. */
  lemma PermanentsDropTemporary(tables: Tables, name: string, t: Table)
    ensures Permanents(tables[Temporary(name) := t]) == Permanents(tables)
  {
  }

  /** Dropping the temporary tables twice is dropping them once. */
  lemma PermanentsIdempotent(tables: Tables)
    ensures Permanents(Permanents(tables)) == Permanents(tables)
  {
  }

  /** A successful `__insert_list` with a positive step appends all of `data`, in
      order, to the target table and returns `len(data)`. When it owns the
      connection it commits exactly the last committed state with that one table
      replaced; on the caller's connection the rows stay in the caller's session. */
  lemma InsertListAppends(server: Server, committed: Tables, log: seq<Event>, session: Session, owned: bool,
                          data: seq<Row>, schema: string, table: string, columns: Option<seq<string>>, batch: int)
    requires Standard(server) && |data| > 0 && batch > 0
    ensures var e := InsertListRun(server, committed, log, session, owned, data, schema, table, columns, batch);
      var s := if owned then Permanents(committed) else session.work;
      var target := Permanent(schema, table);
      e.result.Ok? ==>
        target in s &&
        var t := s[target];
        var appended := s[target := t.(rows := t.rows + ToRecords(CopiedColumns(CopyColumns(columns), t), data))];
        e.result.value == |data| &&
        e.session.work == appended &&
        (owned ==> e.committed == Some(appended))
  {
    var e := InsertListRun(server, committed, log, session, owned, data, schema, table, columns, batch);
    if e.result.Ok? {
      var s := if owned then Permanents(committed) else session.work;
      var target := Permanent(schema, table);
      var started := (if owned then log + [Connected] else log) + [CursorOpened];
      var sql := CopyText(schema + "." + table, ColumnString(columns));
      Covers(data, batch);
      CopyAllAppends(server, s, target, CopyColumns(columns), sql, started, Batches(data, batch), data);
      var t := s[target];
      PermanentsIdempotent(committed);
      PermanentsUpdate(s, target, t.(rows := t.rows + ToRecords(CopiedColumns(CopyColumns(columns), t), data)));
    }
  }

  // ---------------------------------------------------------------- upsert_dataframe

  /** The statements of `n` upsert batches: COPY into staging, the upsert, TRUNCATE,
      batch after batch. */
  function Cycles(p: Plan, n: nat): (r: seq<string>)
    ensures |r| == 3 * n
  {
    if n == 0 then [] else [p.copySql, p.upsertSql, p.truncateSql] + Cycles(p, n - 1)
  }

  /** The upsert loop only sends statements. */
  lemma {:induction false} UpsertFromExtends(server: Server, tables: Tables, p: Plan, count: int, log: seq<Event>,
                                             batches: seq<seq<Row>>)
    ensures ExtendsByStatements(UpsertFrom(server, tables, p, count, log, batches).log, log)
    decreases |batches|
  {
    if |batches| == 0 {
      StatementsAfter(log, []);
      assert log + [] == log;
    } else {
      match Exec(server, tables, Copy(p.staging, Some(p.columns), batches[0]))
      case Failed(_) =>
        StatementsAfter(log, [Executed(p.copySql, false)]);
      case Done(t1, _) =>
        var copied := [Executed(p.copySql, true)];
        match Exec(server, t1, Upsert(p.target, p.staging, p.keys, p.action))
        case Failed(_) =>
          StatementsAfter(log, copied + [Executed(p.upsertSql, false)]);
          assert log + copied + [Executed(p.upsertSql, false)] == log + (copied + [Executed(p.upsertSql, false)]);
        case Done(t2, n) =>
          var upserted := copied + [Executed(p.upsertSql, true)];
          assert log + copied + [Executed(p.upsertSql, true)] == log + upserted;
          match Exec(server, t2, Truncate(p.staging))
          case Failed(_) =>
            StatementsAfter(log, upserted + [Executed(p.truncateSql, false)]);
            assert log + upserted + [Executed(p.truncateSql, false)] == log + (upserted + [Executed(p.truncateSql, false)]);
          case Done(t3, _) =>
            var cycle := upserted + [Executed(p.truncateSql, true)];
            assert log + upserted + [Executed(p.truncateSql, true)] == log + cycle;
            UpsertFromExtends(server, t3, p, count + n, log + cycle, batches[1..]);
            StatementsAfter(log, cycle);
            ExtendsTrans(UpsertFrom(server, t3, p, count + n, log + cycle, batches[1..]).log, log + cycle, log);
      }
  }

  /** An upsert loop that runs to the end has sent one copy, one upsert and one
      truncate per batch, in that order. */
  lemma {:induction false} UpsertFromSent(server: Server, tables: Tables, p: Plan, count: int, log: seq<Event>,
                                          batches: seq<seq<Row>>)
    requires UpsertFrom(server, tables, p, count, log, batches).failure.None?
    ensures Sent(UpsertFrom(server, tables, p, count, log, batches).log) == Sent(log) + Cycles(p, |batches|)
    decreases |batches|
  {
    if |batches| == 0 {
      assert Sent(log) + [] == Sent(log);
    } else {
      var t1 := Exec(server, tables, Copy(p.staging, Some(p.columns), batches[0])).tables;
      var r2 := Exec(server, t1, Upsert(p.target, p.staging, p.keys, p.action));
      var t3 := Exec(server, r2.tables, Truncate(p.staging)).tables;
      var cycle := [Executed(p.copySql, true), Executed(p.upsertSql, true), Executed(p.truncateSql, true)];
      assert log + [Executed(p.copySql, true)] + [Executed(p.upsertSql, true)] + [Executed(p.truncateSql, true)] == log + cycle;
      UpsertFromSent(server, t3, p, count + r2.rowcount, log + cycle, batches[1..]);
      SentAppend(log, cycle);
      assert Sent(cycle[2..]) == [p.truncateSql];
      assert Sent(cycle[1..]) == [p.upsertSql, p.truncateSql];
      Associative(Sent(log), Sent(cycle), Cycles(p, |batches| - 1));
    }
  }

  /** The CREATE TEMPORARY TABLE of the keyed path and of `insert_dataframe`, on a
      fresh session over `committed`. */
  function CreateStep(server: Server, committed: Tables, schema: string, table: string): Reply {
    Exec(server, Permanents(committed), CreateStaging(StagingName(table), Permanent(schema, table)))
  }

  /** What the keyed path does after its statements: nothing when the CREATE fails or
      the step is 0, since both raise outside any `try` and leave the connection
      open; otherwise roll back or commit, then close the cursor and the connection. */
  function KeyedClosing(created: bool, batch: int, ok: bool): seq<Event> {
    if !created || batch == 0 then []
    else if ok then [Committed, CursorClosed, Closed]
    else [RolledBack, CursorClosed, Closed]
  }

  /** The event log of the keyed path of `upsert_dataframe`. */
  lemma UpsertKeyedFramed(server: Server, committed: Tables, log: seq<Event>, rows: seq<Row>, columns: seq<string>,
                          schema: string, table: string, keys: seq<string>, batch: int, doNothing: bool)
    ensures var e := UpsertKeyedRun(server, committed, log, rows, columns, schema, table, keys, batch, doNothing);
      var create := CreateStep(server, committed, schema, table);
      |log| <= |e.log| && e.log[..|log|] == log &&
      Framed(e.log[|log|..], [Connected, CursorOpened], KeyedClosing(create.Done?, batch, e.result.Ok?))
  {
    var e := UpsertKeyedRun(server, committed, log, rows, columns, schema, table, keys, batch, doNothing);
    var create := CreateStep(server, committed, schema, table);
    var started := log + [Connected] + [CursorOpened];
    assert started == log + [Connected, CursorOpened];
    var closing := KeyedClosing(create.Done?, batch, e.result.Ok?);
    var createSql := CreateStagingText(StagingName(table), schema, table);
    if create.Failed? {
      assert e.log == started + [Executed(createSql, false)] + closing;
      StatementsAfter(started, [Executed(createSql, false)]);
      Frames(log, [Connected, CursorOpened], started + [Executed(createSql, false)], closing);
    } else {
      var created := started + [Executed(createSql, true)];
      StatementsAfter(started, [Executed(createSql, true)]);
      if batch == 0 {
        assert e.log == created + closing;
        Frames(log, [Connected, CursorOpened], created, closing);
      } else {
        var p := UpsertPlan(schema, table, columns, keys, doNothing);
        var o := UpsertAll(server, create.tables, p, created, Slices(rows, batch).value);
        UpsertFromExtends(server, create.tables, p, 0, created, Slices(rows, batch).value);
        ExtendsTrans(o.log, created, started);
        assert e.log == o.log + closing;
        Frames(log, [Connected, CursorOpened], o.log, closing);
      }
    }
  }

  /** A failed CREATE raises the server's error and a step of 0 raises ValueError. */
  lemma UpsertKeyedOutcome(server: Server, committed: Tables, log: seq<Event>, rows: seq<Row>, columns: seq<string>,
                           schema: string, table: string, keys: seq<string>, batch: int, doNothing: bool)
    ensures var e := UpsertKeyedRun(server, committed, log, rows, columns, schema, table, keys, batch, doNothing);
      var create := CreateStep(server, committed, schema, table);
      (create.Failed? ==> e.result == Err(Raised(create.message))) &&
      (create.Done? && batch == 0 ==> e.result == Err(ValueError))
  {
  }

  /** The keyed path commits exactly when it succeeds. */
  lemma UpsertKeyedCommits(server: Server, committed: Tables, log: seq<Event>, rows: seq<Row>, columns: seq<string>,
                           schema: string, table: string, keys: seq<string>, batch: int, doNothing: bool)
    ensures var e := UpsertKeyedRun(server, committed, log, rows, columns, schema, table, keys, batch, doNothing);
      e.committed.Some? <==> e.result.Ok?
  {
  }

  /** The transaction rule of the keyed path: it always connects and opens a cursor;
      it commits exactly when it succeeds, once, after the last batch; it rolls back,
      closes the cursor and closes the connection exactly when a batch fails; the
      connection is closed exactly when the CREATE succeeded and the step is not 0. */
  lemma UpsertKeyedTransaction(server: Server, committed: Tables, log: seq<Event>, rows: seq<Row>, columns: seq<string>,
                               schema: string, table: string, keys: seq<string>, batch: int, doNothing: bool)
    ensures var e := UpsertKeyedRun(server, committed, log, rows, columns, schema, table, keys, batch, doNothing);
      var create := CreateStep(server, committed, schema, table);
      |log| <= |e.log| && e.log[..|log|] == log &&
      var events := e.log[|log|..];
      Connected in events && CursorOpened in events &&
      (Committed in events <==> e.result.Ok?) &&
      (RolledBack in events <==> e.result.Err? && create.Done? && batch != 0) &&
      (Closed in events <==> create.Done? && batch != 0) &&
      (CursorClosed in events <==> create.Done? && batch != 0)
  {
    var e := UpsertKeyedRun(server, committed, log, rows, columns, schema, table, keys, batch, doNothing);
    var create := CreateStep(server, committed, schema, table);
    UpsertKeyedFramed(server, committed, log, rows, columns, schema, table, keys, batch, doNothing);
    UpsertKeyedOutcome(server, committed, log, rows, columns, schema, table, keys, batch, doNothing);
    UpsertKeyedCommits(server, committed, log, rows, columns, schema, table, keys, batch, doNothing);
    KeyedEvents(e.log[|log|..], create.Done?, batch, e.result.Ok?);
  }

  lemma KeyedEvents(events: seq<Event>, created: bool, batch: int, ok: bool)
    requires Framed(events, [Connected, CursorOpened], KeyedClosing(created, batch, ok))
    requires !created || batch == 0 ==> !ok
    ensures Connected in events && CursorOpened in events
    ensures Committed in events <==> ok
    ensures RolledBack in events <==> !ok && created && batch != 0
    ensures Closed in events <==> created && batch != 0
    ensures CursorClosed in events <==> created && batch != 0
  {
    var closing := KeyedClosing(created, batch, ok);
    FramedMembership(events, [Connected, CursorOpened], closing, Connected);
    FramedMembership(events, [Connected, CursorOpened], closing, CursorOpened);
    FramedMembership(events, [Connected, CursorOpened], closing, Committed);
    FramedMembership(events, [Connected, CursorOpened], closing, RolledBack);
    FramedMembership(events, [Connected, CursorOpened], closing, Closed);
    FramedMembership(events, [Connected, CursorOpened], closing, CursorClosed);
  }

  /** The batches merged into `rows` one after the other, each as its own
      `INSERT ... ON CONFLICT`, with the counts summed. */
  function MergeEach(rows: seq<Record>, columns: seq<string>, batches: seq<seq<Row>>, keys: seq<string>,
                     action: Action): Merged
    decreases |batches|
  {
    if |batches| == 0 then Merged(rows, 0)
    else
      var m := Merge(rows, ToRecords(columns, batches[0]), keys, action);
      var rest := MergeEach(m.rows, columns, batches[1..], keys, action);
      Merged(rest.rows, m.count + rest.count)
  }

  /** One successful upsert batch, from an empty staging table: the target gets the
      batch merged in, the staging table is empty again, and the loop goes on with
      the rest. */
  lemma UpsertBatchStep(server: Server, tables: Tables, p: Plan, count: int, log: seq<Event>, batches: seq<seq<Row>>)
    requires Standard(server) && p.target.Permanent? && p.staging.Temporary?
    requires p.target in tables && p.staging in tables && tables[p.staging].rows == []
    requires |batches| > 0 && UpsertFrom(server, tables, p, count, log, batches).failure.None?
    ensures var t := tables[p.target];
      var m := Merge(t.rows, ToRecords(p.columns, batches[0]), p.keys, p.action);
      UpsertFrom(server, tables, p, count, log, batches) ==
        UpsertFrom(server, tables[p.target := t.(rows := m.rows)], p, count + m.count,
                   log + [Executed(p.copySql, true)] + [Executed(p.upsertSql, true)] + [Executed(p.truncateSql, true)],
                   batches[1..])
  {
    var r1 := Exec(server, tables, Copy(p.staging, Some(p.columns), batches[0]));
    assert r1.Done?;
    var r2 := Exec(server, r1.tables, Upsert(p.target, p.staging, p.keys, p.action));
    assert r2.Done?;
    var r3 := Exec(server, r2.tables, Truncate(p.staging));
    assert r3.Done?;
    CycleTables(server, tables, p, batches[0], r1, r2, r3);
  }

  /** The tables and the count after one copy, upsert and truncate from an empty
      staging table. */
  lemma CycleTables(server: Server, tables: Tables, p: Plan, batch: seq<Row>, r1: Reply, r2: Reply, r3: Reply)
    requires Standard(server) && p.target.Permanent? && p.staging.Temporary?
    requires p.target in tables && p.staging in tables && tables[p.staging].rows == []
    requires r1 == Exec(server, tables, Copy(p.staging, Some(p.columns), batch)) && r1.Done?
    requires r2 == Exec(server, r1.tables, Upsert(p.target, p.staging, p.keys, p.action)) && r2.Done?
    requires r3 == Exec(server, r2.tables, Truncate(p.staging)) && r3.Done?
    ensures var t := tables[p.target];
      var m := Merge(t.rows, ToRecords(p.columns, batch), p.keys, p.action);
      r3.tables == tables[p.target := t.(rows := m.rows)] && r2.rowcount == m.count
  {
    var t := tables[p.target];
    var st := tables[p.staging];
    var staged := ToRecords(p.columns, batch);
    CopyAppends(server, tables, p.staging, Some(p.columns), batch);
    var t1 := tables[p.staging := st.(rows := staged)];
    assert st.rows + staged == staged;
    assert r1.tables == t1;
    UpsertMerges(server, t1, p.target, p.staging, p.keys, p.action);
    var m := Merge(t.rows, staged, p.keys, p.action);
    var t2 := t1[p.target := t.(rows := m.rows)];
    assert r2 == Done(t2, m.count);
    TruncateEmpties(server, t2, p.staging);
    assert t2[p.staging].(rows := []) == st;
    MapRestore(tables, p.staging, p.target, st.(rows := staged), t.(rows := m.rows));
  }

  /** Writing an entry twice keeps the second value. */
  lemma Overwritten<K, V>(m: map<K, V>, k: K, v: V, w: V)
    ensures m[k := v][k := w] == m[k := w]
  {
  }

  /** Overwriting an entry and then putting its old value back leaves only the other change. */
  lemma MapRestore<K, V>(m: map<K, V>, k: K, j: K, v: V, w: V)
    requires k in m && k != j
    ensures m[k := v][j := w][k := m[k]] == m[j := w]
  {
  }

  /** An upsert loop that runs to the end, from a state whose staging table is empty,
      merges every batch into the target in turn, reports the summed upsert counts,
      and leaves the staging table empty again: no other table changes. */
  lemma {:induction false} UpsertFromMerges(server: Server, tables: Tables, p: Plan, count: int, log: seq<Event>,
                                            batches: seq<seq<Row>>)
    requires Standard(server) && p.target.Permanent? && p.staging.Temporary?
    requires p.target in tables && p.staging in tables && tables[p.staging].rows == []
    requires UpsertFrom(server, tables, p, count, log, batches).failure.None?
    ensures var o := UpsertFrom(server, tables, p, count, log, batches);
      var t := tables[p.target];
      var m := MergeEach(t.rows, p.columns, batches, p.keys, p.action);
      o.tables == tables[p.target := t.(rows := m.rows)] && o.count == count + m.count
    decreases |batches|
  {
    var t := tables[p.target];
    if |batches| == 0 {
      assert tables[p.target := t.(rows := t.rows)] == tables;
    } else {
      UpsertBatchStep(server, tables, p, count, log, batches);
      var m := Merge(t.rows, ToRecords(p.columns, batches[0]), p.keys, p.action);
      var t3 := tables[p.target := t.(rows := m.rows)];
      var log3 := log + [Executed(p.copySql, true)] + [Executed(p.upsertSql, true)] + [Executed(p.truncateSql, true)];
      UpsertFromMerges(server, t3, p, count + m.count, log3, batches[1..]);
      var rest := MergeEach(m.rows, p.columns, batches[1..], p.keys, p.action);
      Overwritten(tables, p.target, t.(rows := m.rows), t.(rows := rest.rows));
    }
  }

  /** DO UPDATE counts every proposed row, batch after batch. */
  lemma {:induction false} MergeEachCountsRows(rows: seq<Record>, columns: seq<string>, batches: seq<seq<Row>>,
                                               keys: seq<string>, assign: seq<string>)
    ensures MergeEach(rows, columns, batches, keys, DoUpdate(assign)).count == |Flatten(batches)|
    decreases |batches|
  {
    if |batches| > 0 {
      var m := Merge(rows, ToRecords(columns, batches[0]), keys, DoUpdate(assign));
      DoUpdateCountsEveryRow(rows, ToRecords(columns, batches[0]), keys, assign);
      MergeEachCountsRows(m.rows, columns, batches[1..], keys, assign);
    }
  }

  /** DO NOTHING keeps every existing row in place and counts only the rows it adds,
      batch after batch. */
  lemma {:induction false} MergeEachKeepsRows(rows: seq<Record>, columns: seq<string>, batches: seq<seq<Row>>,
                                              keys: seq<string>)
    ensures var m := MergeEach(rows, columns, batches, keys, DoNothing);
      |m.rows| >= |rows| && m.rows[..|rows|] == rows && m.count == |m.rows| - |rows|
    decreases |batches|
  {
    if |batches| > 0 {
      var m := Merge(rows, ToRecords(columns, batches[0]), keys, DoNothing);
      DoNothingKeepsRows(rows, ToRecords(columns, batches[0]), keys);
      MergeEachKeepsRows(m.rows, columns, batches[1..], keys);
      var rest := MergeEach(m.rows, columns, batches[1..], keys, DoNothing);
      assert rest.rows[..|rows|] == rest.rows[..|m.rows|][..|rows|];
    }
  }

  /** The conflict action of the keyed path. */
  function KeyedAction(columns: seq<string>, keys: seq<string>, doNothing: bool): Action {
    if doNothing then DoNothing else DoUpdate(NonKey(columns, keys))
  }

  /** A successful keyed `upsert_dataframe` commits the last committed state with the
      batches merged, one after the other, into the target, returns the summed upsert
      counts, and leaves no staging table behind: no other table changes. */
  lemma UpsertKeyedMerges(server: Server, committed: Tables, log: seq<Event>, rows: seq<Row>, columns: seq<string>,
                          schema: string, table: string, keys: seq<string>, batch: int, doNothing: bool)
    requires Standard(server)
    ensures var e := UpsertKeyedRun(server, committed, log, rows, columns, schema, table, keys, batch, doNothing);
      var before := Permanents(committed);
      var target := Permanent(schema, table);
      e.result.Ok? ==>
        batch != 0 && target in before &&
        var t := before[target];
        var m := MergeEach(t.rows, columns, Slices(rows, batch).value, keys, KeyedAction(columns, keys, doNothing));
        e.result == Ok(m.count) && e.committed == Some(before[target := t.(rows := m.rows)])
  {
    var e := UpsertKeyedRun(server, committed, log, rows, columns, schema, table, keys, batch, doNothing);
    if e.result.Ok? {
      KeyedSucceeds(server, committed, log, rows, columns, schema, table, keys, batch, doNothing);
      var before := Permanents(committed);
      var target := Permanent(schema, table);
      var name := StagingName(table);
      var p := UpsertPlan(schema, table, columns, keys, doNothing);
      NoTemporaryOnConnect(committed, name);
      StagingCreated(server, before, name, target);
      var t := before[target];
      var t0 := before[Temporary(name) := Table(t.columns, [])];
      var started := log + [Connected] + [CursorOpened];
      var created := started + [Executed(CreateStagingText(name, schema, table), true)];
      var batches := Slices(rows, batch).value;
      UpsertFromMerges(server, t0, p, 0, created, batches);
      var m := MergeEach(t.rows, columns, batches, keys, KeyedAction(columns, keys, doNothing));
      StagedCommit(committed, target, name, Table(t.columns, []), t.(rows := m.rows));
    }
  }

  /** Committing a session that added a staging table to the last committed state and
      replaced one permanent table commits only the replaced table. */
  lemma StagedCommit(committed: Tables, target: Relation, name: string, staged: Table, after: Table)
    requires target.Permanent?
    ensures var before := Permanents(committed);
      Permanents(before[Temporary(name) := staged][target := after]) == before[target := after]
  {
    var before := Permanents(committed);
    assert before[Temporary(name) := staged][target := after] == before[target := after][Temporary(name) := staged];
    PermanentsDropTemporary(before[target := after], name, staged);
    PermanentsUpdate(before, target, after);
    PermanentsIdempotent(committed);
  }

  /** A successful keyed path created the staging table, ran the whole loop without
      error, and commits what the loop left. */
  lemma KeyedSucceeds(server: Server, committed: Tables, log: seq<Event>, rows: seq<Row>, columns: seq<string>,
                      schema: string, table: string, keys: seq<string>, batch: int, doNothing: bool)
    ensures var e := UpsertKeyedRun(server, committed, log, rows, columns, schema, table, keys, batch, doNothing);
      var create := CreateStep(server, committed, schema, table);
      e.result.Ok? ==>
        create.Done? && batch != 0 &&
        var created := log + [Connected] + [CursorOpened] + [Executed(CreateStagingText(StagingName(table), schema, table), true)];
        var o := UpsertAll(server, create.tables, UpsertPlan(schema, table, columns, keys, doNothing), created,
                           Slices(rows, batch).value);
        o.failure.None? && e.result == Ok(o.count) && e.committed == Some(Permanents(o.tables))
  {
  }

  /** Merging the batches one after the other is merging all their rows at once. */
  lemma {:induction false} MergeEachFlat(rows: seq<Record>, columns: seq<string>, batches: seq<seq<Row>>,
                                         keys: seq<string>, action: Action)
    ensures MergeEach(rows, columns, batches, keys, action).rows ==
      Merge(rows, ToRecords(columns, Flatten(batches)), keys, action).rows
    decreases |batches|
  {
    if |batches| > 0 {
      var first := ToRecords(columns, batches[0]);
      ToRecordsAppend(columns, batches[0], Flatten(batches[1..]));
      MergeAppend(rows, first, ToRecords(columns, Flatten(batches[1..])), keys, action);
      MergeEachFlat(Merge(rows, first, keys, action).rows, columns, batches[1..], keys, action);
    }
  }

  /** DO UPDATE over the batches of the keyed path: a target row that conflicts with
      one loaded row, when no two target rows and no two loaded rows share a key, ends
      with that row's value in every non-key column and keeps its own value elsewhere. */
  lemma MergeEachOverwrites(rows: seq<Record>, columns: seq<string>, batches: seq<seq<Row>>, keys: seq<string>,
                            i: nat, j: nat)
    requires KeysDistinct(rows, keys) && KeysDistinct(ToRecords(columns, Flatten(batches)), keys)
    requires i < |rows| && j < |Flatten(batches)| && Matches(rows[i], ToRecords(columns, Flatten(batches))[j], keys)
    ensures var m := MergeEach(rows, columns, batches, keys, DoUpdate(NonKey(columns, keys))).rows;
      var loaded := ToRecords(columns, Flatten(batches))[j];
      i < |m| && forall c :: Get(m[i], c) == if c in NonKey(columns, keys) then Get(loaded, c) else Get(rows[i], c)
  {
    MergeEachFlat(rows, columns, batches, keys, DoUpdate(NonKey(columns, keys)));
    DoUpdateOverwrites(rows, ToRecords(columns, Flatten(batches)), keys, columns, i, j);
  }

  /** A completed upsert loop sent only rows of the width of the column list: each
      COPY checks it. */
  lemma {:induction false} UpsertFromWidths(server: Server, tables: Tables, p: Plan, count: int, log: seq<Event>,
                                            batches: seq<seq<Row>>)
    requires Standard(server) && UpsertFrom(server, tables, p, count, log, batches).failure.None?
    ensures forall r :: r in Flatten(batches) ==> |r| == |p.columns|
    decreases |batches|
  {
    if |batches| > 0 {
      var r1 := Exec(server, tables, Copy(p.staging, Some(p.columns), batches[0]));
      assert r1.Done?;
      CopyAppends(server, tables, p.staging, Some(p.columns), batches[0]);
      var r2 := Exec(server, r1.tables, Upsert(p.target, p.staging, p.keys, p.action));
      assert r2.Done?;
      var r3 := Exec(server, r2.tables, Truncate(p.staging));
      assert r3.Done?;
      UpsertFromWidths(server, r3.tables, p, count + r2.rowcount,
                       log + [Executed(p.copySql, true)] + [Executed(p.upsertSql, true)] + [Executed(p.truncateSql, true)],
                       batches[1..]);
    }
  }

  /** A row of the width of the column list becomes a record with an entry per column. */
  lemma {:induction false} ZipFills(columns: seq<string>, row: Row)
    requires |row| == |columns|
    ensures forall c :: c in columns ==> c in Zip(columns, row)
    decreases |columns|
  {
    if |columns| > 0 {
      ZipFills(columns[1..], row[1..]);
    }
  }

  lemma {:induction false} ToRecordsFill(columns: seq<string>, rows: seq<Row>, assign: seq<string>)
    requires forall r :: r in rows ==> |r| == |columns|
    requires forall c :: c in assign ==> c in columns
    ensures Filled(ToRecords(columns, rows), assign)
    decreases |rows|
  {
    if |rows| > 0 {
      ZipFills(columns, rows[0]);
      assert rows[0] in rows;
      assert forall r :: r in rows[1..] ==> r in rows;
      ToRecordsFill(columns, rows[1..], assign);
    }
  }

  /** Running the keyed `upsert_dataframe` a second time with the same rows and keys,
      on what the first run committed, commits the same state again: rows that are
      already there are skipped (DO NOTHING) or get the values they already hold (DO
      UPDATE). This needs every loaded row to have a non-null value in every key
      column: NULL conflicts with nothing, so such a row is inserted again each time. */
  lemma UpsertKeyedIdempotent(server: Server, committed: Tables, log: seq<Event>, again: seq<Event>, rows: seq<Row>,
                              columns: seq<string>, schema: string, table: string, keys: seq<string>, batch: int,
                              doNothing: bool)
    requires Standard(server)
    requires NonNullKeys(ToRecords(columns, rows), keys)
    ensures var first := UpsertKeyedRun(server, committed, log, rows, columns, schema, table, keys, batch, doNothing);
      first.committed.Some? ==>
        var second := UpsertKeyedRun(server, first.committed.value, again, rows, columns, schema, table, keys, batch,
                                     doNothing);
        second.committed.Some? ==> second.committed == first.committed
  {
    var first := UpsertKeyedRun(server, committed, log, rows, columns, schema, table, keys, batch, doNothing);
    if first.committed.Some? {
      var c1 := first.committed.value;
      var second := UpsertKeyedRun(server, c1, again, rows, columns, schema, table, keys, batch, doNothing);
      if second.committed.Some? {
        var action := KeyedAction(columns, keys, doNothing);
        var before := Permanents(committed);
        var target := Permanent(schema, table);
        UpsertKeyedCommits(server, committed, log, rows, columns, schema, table, keys, batch, doNothing);
        UpsertKeyedCommits(server, c1, again, rows, columns, schema, table, keys, batch, doNothing);
        UpsertKeyedMerges(server, committed, log, rows, columns, schema, table, keys, batch, doNothing);
        UpsertKeyedMerges(server, c1, again, rows, columns, schema, table, keys, batch, doNothing);
        var t := before[target];
        var batches := Slices(rows, batch).value;
        var m1 := MergeEach(t.rows, columns, batches, keys, action);
        assert c1 == before[target := t.(rows := m1.rows)];
        PermanentsUpdate(before, target, t.(rows := m1.rows));
        PermanentsIdempotent(committed);
        assert Permanents(c1) == c1;
        var m2 := MergeEach(m1.rows, columns, batches, keys, action);
        assert second.committed == Some(c1[target := t.(rows := m1.rows).(rows := m2.rows)]);
        UpsertKeyedRepeat(server, committed, log, rows, columns, schema, table, keys, batch, doNothing, t.rows);
        Overwritten(before, target, t.(rows := m1.rows), t.(rows := m2.rows));
      }
    }
  }

  /** The rows of the second run's merge are those of the first. */
  lemma UpsertKeyedRepeat(server: Server, committed: Tables, log: seq<Event>, rows: seq<Row>, columns: seq<string>,
                          schema: string, table: string, keys: seq<string>, batch: int, doNothing: bool,
                          existing: seq<Record>)
    requires Standard(server)
    requires NonNullKeys(ToRecords(columns, rows), keys)
    requires UpsertKeyedRun(server, committed, log, rows, columns, schema, table, keys, batch, doNothing).result.Ok?
    ensures batch != 0 &&
      var action := KeyedAction(columns, keys, doNothing);
      var m1 := MergeEach(existing, columns, Slices(rows, batch).value, keys, action).rows;
      MergeEach(m1, columns, Slices(rows, batch).value, keys, action).rows == m1
  {
    KeyedSucceeds(server, committed, log, rows, columns, schema, table, keys, batch, doNothing);
    var action := KeyedAction(columns, keys, doNothing);
    var batches := Slices(rows, batch).value;
    var m1 := MergeEach(existing, columns, batches, keys, action).rows;
    if batch > 0 {
      var p := UpsertPlan(schema, table, columns, keys, doNothing);
      var create := CreateStep(server, committed, schema, table);
      var created := log + [Connected] + [CursorOpened] + [Executed(CreateStagingText(StagingName(table), schema, table), true)];
      UpsertFromWidths(server, create.tables, p, 0, created, batches);
      Covers(rows, batch);
      var staged := ToRecords(columns, rows);
      NonKeyMembers(columns, keys);
      ToRecordsFill(columns, rows, NonKey(columns, keys));
      MergeEachFlat(existing, columns, batches, keys, action);
      MergeEachFlat(m1, columns, batches, keys, action);
      MergeIdempotent(existing, staged, keys, action);
    }
  }

  /** The dispatch of `upsert_dataframe`: an empty list of records or rows raises
      IndexError and a list of rows without `columns` raises TypeError, both before any
      connection is made. It commits only when it succeeds. */
  lemma UpsertDispatch(server: Server, committed: Tables, log: seq<Event>, data: Source, schema: string, table: string,
                       keys: seq<string>, batch: int, columns: Option<seq<string>>, doNothing: bool)
    ensures var e := UpsertRun(server, committed, log, data, schema, table, keys, batch, columns, doNothing);
      (e.result == Err(IndexError) <==> !data.DataFrame? && |data.values| == 0) &&
      (e.result == Err(TypeError) <==> data.RowList? && |data.values| > 0 && columns.None?) &&
      (e.result == Err(IndexError) || e.result == Err(TypeError) ==> e.log == log && e.committed.None?) &&
      (e.committed.Some? ==> e.result.Ok?)
  {
    var input := Normalize(data, columns);
    if input.Ok? && input.value.columns.Some? {
      if |keys| == 0 {
        InsertListErrors(server, committed, log, Session(Permanents(committed), Permanents(committed)), true,
                         input.value.rows, schema, table, input.value.columns, InsertListBatch);
      } else {
        KeyedErrors(server, committed, log, input.value.rows, input.value.columns.value, schema, table,
                    keys, batch, doNothing);
      }
    }
  }

  /** `__insert_list` fails only with a ValueError or a database error, and commits
      only when it succeeds. */
  lemma InsertListErrors(server: Server, committed: Tables, log: seq<Event>, session: Session, owned: bool,
                         data: seq<Row>, schema: string, table: string, columns: Option<seq<string>>, batch: int)
    ensures var e := InsertListRun(server, committed, log, session, owned, data, schema, table, columns, batch);
      (e.result.Err? ==> e.result.error.ValueError? || e.result.error.Raised?) &&
      (e.committed.Some? ==> e.result.Ok?)
  {
  }

  /** The keyed path fails only with a ValueError or a database error, and commits
      only when it succeeds. */
  lemma KeyedErrors(server: Server, committed: Tables, log: seq<Event>, rows: seq<Row>, columns: seq<string>,
                    schema: string, table: string, keys: seq<string>, batch: int, doNothing: bool)
    ensures var e := UpsertKeyedRun(server, committed, log, rows, columns, schema, table, keys, batch, doNothing);
      (e.result.Err? ==> e.result.error.ValueError? || e.result.error.Raised?) &&
      (e.committed.Some? ==> e.result.Ok?)
  {
  }

  /** Without key columns, `upsert_dataframe` is `__insert_list` on a connection of its
      own with the default step; the column names come from the frame's labels or from
      `columns`. */
  lemma UpsertUnkeyed(server: Server, committed: Tables, log: seq<Event>, data: Source, schema: string, table: string,
                      keys: seq<string>, batch: int, columns: Option<seq<string>>, doNothing: bool)
    requires |keys| == 0
    ensures var e := UpsertRun(server, committed, log, data, schema, table, keys, batch, columns, doNothing);
      var initial := Session(Permanents(committed), Permanents(committed));
      (data.DataFrame? || |data.values| > 0) && (!data.RowList? || columns.Some?) ==>
        e == InsertListRun(server, committed, log, initial, true, data.values, schema, table,
                           if data.RowList? then columns else Some(data.labels), InsertListBatch)
  {
  }

  // ---------------------------------------------------------------- insert_dataframe

  /** What `insert_dataframe` does after its statements: nothing when the CREATE fails
      (it raises outside any `try`); after a failed copy, roll back and close the cursor
      and the connection; after a failed DELETE or INSERT (re-raised wrapped), roll back
      and close the connection but not the cursor; on success commit, then close
      both. */
  function FrameClosing(created: bool, result: Result<Option<int>>): seq<Event> {
    if !created then []
    else if result.Ok? then [Committed, CursorClosed, Closed]
    else if result.error.Wrapped? then [RolledBack, Closed]
    else [RolledBack, CursorClosed, Closed]
  }

  /** The event log of a non-empty `insert_dataframe`. */
  lemma InsertFrameFramed(server: Server, committed: Tables, log: seq<Event>, labels: seq<string>, values: seq<Row>,
                          schema: string, table: string, matchColumns: seq<string>)
    requires |values| > 0
    ensures var e := InsertFrameRun(server, committed, log, labels, values, schema, table, matchColumns);
      var create := CreateStep(server, committed, schema, table);
      |log| <= |e.log| && e.log[..|log|] == log &&
      Framed(e.log[|log|..], [Connected, CursorOpened], FrameClosing(create.Done?, e.result)) &&
      (create.Failed? ==> e.result == Err(Raised(create.message))) &&
      (e.result.Ok? ==> e.result.value == Some(0)) &&
      (e.committed.Some? <==> e.result.Ok?)
  {
    var e := InsertFrameRun(server, committed, log, labels, values, schema, table, matchColumns);
    var create := CreateStep(server, committed, schema, table);
    var started := log + [Connected] + [CursorOpened];
    assert started == log + [Connected, CursorOpened];
    var closing := FrameClosing(create.Done?, e.result);
    var staging := StagingName(table);
    var createSql := CreateStagingText(staging, schema, table);
    if create.Failed? {
      assert e.log == started + [Executed(createSql, false)] + closing;
      StatementsAfter(started, [Executed(createSql, false)]);
      Frames(log, [Connected, CursorOpened], started + [Executed(createSql, false)], closing);
    } else {
      var created := started + [Executed(createSql, true)];
      StatementsAfter(started, [Executed(createSql, true)]);
      var copySql := CopyText(staging, "(" + Join(", ", labels) + ")");
      var batches := Batches(values, InsertFrameBatch);
      var o := CopyAll(server, create.tables, Temporary(staging), Some(labels), copySql, created, batches);
      CopyFromLog(server, create.tables, Temporary(staging), Some(labels), copySql, 0, created, batches);
      ExtendsTrans(o.log, created, started);
      if o.failure.Some? {
        assert e.log == o.log + closing;
        Frames(log, [Connected, CursorOpened], o.log, closing);
      } else {
        ReplaceFramed(server, Session(Permanents(committed), Permanents(committed)), o.tables, o.log, log, started,
                      labels, schema, table, matchColumns);
      }
    }
  }

  /** The event log of the replace step: statements only, then `FrameClosing`. */
  lemma ReplaceFramed(server: Server, initial: Session, tables: Tables, run: seq<Event>, log: seq<Event>,
                      started: seq<Event>, labels: seq<string>, schema: string, table: string, matchColumns: seq<string>)
    requires started == log + [Connected, CursorOpened] && ExtendsByStatements(run, started)
    ensures var e := ReplaceRun(server, initial, tables, run, labels, schema, table, matchColumns);
      |log| <= |e.log| && e.log[..|log|] == log &&
      Framed(e.log[|log|..], [Connected, CursorOpened], FrameClosing(true, e.result)) &&
      (e.result.Ok? ==> e.result.value == Some(0)) &&
      (e.committed.Some? <==> e.result.Ok?)
  {
    var e := ReplaceRun(server, initial, tables, run, labels, schema, table, matchColumns);
    var closing := FrameClosing(true, e.result);
    var staging := StagingName(table);
    var target := Permanent(schema, table);
    var deleteSql := DeleteText(schema, table, staging, Conditions(matchColumns));
    var deleted := if |matchColumns| > 0 then Exec(server, tables, DeleteMatching(target, Temporary(staging), matchColumns))
                   else Done(tables, 0);
    var afterDelete := if |matchColumns| > 0 then run + [Executed(deleteSql, deleted.Done?)] else run;
    assert ExtendsByStatements(afterDelete, started) by {
      if |matchColumns| > 0 {
        StatementsAfter(run, [Executed(deleteSql, deleted.Done?)]);
        ExtendsTrans(afterDelete, run, started);
      }
    }
    if deleted.Failed? {
      assert e.log == afterDelete + closing;
      Frames(log, [Connected, CursorOpened], afterDelete, closing);
    } else {
      var insertSql := InsertSelectText(schema, table, Join(", ", labels), staging);
      var inserted := Exec(server, deleted.tables, InsertSelect(target, labels, Temporary(staging)));
      var afterInsert := afterDelete + [Executed(insertSql, inserted.Done?)];
      StatementsAfter(afterDelete, [Executed(insertSql, inserted.Done?)]);
      ExtendsTrans(afterInsert, afterDelete, started);
      assert e.log == afterInsert + closing;
      Frames(log, [Connected, CursorOpened], afterInsert, closing);
    }
  }

  lemma FrameEvents(events: seq<Event>, created: bool, result: Result<Option<int>>)
    requires Framed(events, [Connected, CursorOpened], FrameClosing(created, result))
    requires !created ==> result.Err?
    ensures Connected in events && CursorOpened in events
    ensures Committed in events <==> result.Ok?
    ensures RolledBack in events <==> created && result.Err?
    ensures Closed in events <==> created
    ensures CursorClosed in events <==> created && !(result.Err? && result.error.Wrapped?)
  {
    var closing := FrameClosing(created, result);
    FramedMembership(events, [Connected, CursorOpened], closing, Connected);
    FramedMembership(events, [Connected, CursorOpened], closing, CursorOpened);
    FramedMembership(events, [Connected, CursorOpened], closing, Committed);
    FramedMembership(events, [Connected, CursorOpened], closing, RolledBack);
    FramedMembership(events, [Connected, CursorOpened], closing, Closed);
    FramedMembership(events, [Connected, CursorOpened], closing, CursorClosed);
  }

  /** The transaction rule of `insert_dataframe`. An empty frame does nothing and
      returns None. Otherwise it connects and opens a cursor; it commits exactly when
      it succeeds, and then returns 0; it rolls back and closes the connection exactly
      when the CREATE succeeded and a later statement failed; the cursor is closed
      only on success and after a failed copy. */
  lemma InsertFrameTransaction(server: Server, committed: Tables, log: seq<Event>, labels: seq<string>, values: seq<Row>,
                               schema: string, table: string, matchColumns: seq<string>)
    ensures var e := InsertFrameRun(server, committed, log, labels, values, schema, table, matchColumns);
      |values| == 0 ==> e.result == Ok(None) && e.log == log && e.committed.None?
    ensures var e := InsertFrameRun(server, committed, log, labels, values, schema, table, matchColumns);
      var create := CreateStep(server, committed, schema, table);
      |values| > 0 ==>
        |log| <= |e.log| && e.log[..|log|] == log &&
        var events := e.log[|log|..];
        Connected in events && CursorOpened in events &&
        (Committed in events <==> e.result.Ok?) &&
        (RolledBack in events <==> create.Done? && e.result.Err?) &&
        (Closed in events <==> create.Done?) &&
        (CursorClosed in events <==> create.Done? && !(e.result.Err? && e.result.error.Wrapped?)) &&
        (e.committed.Some? <==> e.result.Ok?) &&
        (e.result.Ok? ==> e.result.value == Some(0))
  {
    if |values| > 0 {
      var e := InsertFrameRun(server, committed, log, labels, values, schema, table, matchColumns);
      var create := CreateStep(server, committed, schema, table);
      InsertFrameFramed(server, committed, log, labels, values, schema, table, matchColumns);
      FrameEvents(e.log[|log|..], create.Done?, e.result);
    }
  }

  // ---------------------------------------------------------------- statements sent on success

  lemma SentNoStatements(events: seq<Event>)
    requires forall k :: 0 <= k < |events| ==> !events[k].Executed?
    ensures Sent(events) == []
    decreases |events|
  {
    if |events| > 0 {
      SentNoStatements(events[1..]);
    }
  }

  /** Connection, cursor and transaction events around a run send nothing. */
  lemma SentBracket(log: seq<Event>, opening: seq<Event>, run: seq<Event>, closing: seq<Event>, extra: seq<string>)
    requires forall k :: 0 <= k < |opening| ==> !opening[k].Executed?
    requires forall k :: 0 <= k < |closing| ==> !closing[k].Executed?
    requires Sent(run) == Sent(log + opening) + extra
    ensures Sent(run + closing) == Sent(log) + extra
  {
    SentAppend(log, opening);
    SentNoStatements(opening);
    assert Sent(log) + [] == Sent(log);
    SentAppend(run, closing);
    SentNoStatements(closing);
  }

  /** A statement sent before a run comes first in what the run has sent. */
  lemma SentAfter(log: seq<Event>, sql: string, run: seq<Event>, extra: seq<string>)
    requires Sent(run) == Sent(log + [Executed(sql, true)]) + extra
    ensures Sent(run) == Sent(log) + ([sql] + extra)
  {
    SentAppend(log, [Executed(sql, true)]);
    Associative(Sent(log), [sql], extra);
  }

  /** A successful non-empty `__insert_list` sends one COPY per batch and nothing else. */
  lemma InsertListSent(server: Server, committed: Tables, log: seq<Event>, session: Session, owned: bool,
                       data: seq<Row>, schema: string, table: string, columns: Option<seq<string>>, batch: int)
    requires |data| > 0
    ensures var e := InsertListRun(server, committed, log, session, owned, data, schema, table, columns, batch);
      e.result.Ok? ==>
        Sent(e.log) == Sent(log) + Repeat(CopyText(schema + "." + table, ColumnString(columns)), |Slices(data, batch).value|)
  {
    var e := InsertListRun(server, committed, log, session, owned, data, schema, table, columns, batch);
    if e.result.Ok? {
      var s := if owned then Session(Permanents(committed), Permanents(committed)) else session;
      var started := (if owned then log + [Connected] else log) + [CursorOpened];
      var sql := CopyText(schema + "." + table, ColumnString(columns));
      var o := CopyAll(server, s.work, Permanent(schema, table), CopyColumns(columns), sql, started, Slices(data, batch).value);
      CopyFromLog(server, s.work, Permanent(schema, table), CopyColumns(columns), sql, 0, started, Slices(data, batch).value);
      assert started == log + Opening(owned);
      assert e.log == o.log + Closing(owned, true);
      SentBracket(log, Opening(owned), o.log, Closing(owned, true), Repeat(sql, |Slices(data, batch).value|));
    }
  }

  /** A successful keyed `upsert_dataframe` sends the CREATE, then one copy, one upsert
      and one truncate per batch, and nothing else. */
  lemma UpsertKeyedSent(server: Server, committed: Tables, log: seq<Event>, rows: seq<Row>, columns: seq<string>,
                        schema: string, table: string, keys: seq<string>, batch: int, doNothing: bool)
    ensures var e := UpsertKeyedRun(server, committed, log, rows, columns, schema, table, keys, batch, doNothing);
      e.result.Ok? ==>
        batch != 0 &&
        Sent(e.log) == Sent(log) + [CreateStagingText(StagingName(table), schema, table)]
                       + Cycles(UpsertPlan(schema, table, columns, keys, doNothing), |Slices(rows, batch).value|)
  {
    var e := UpsertKeyedRun(server, committed, log, rows, columns, schema, table, keys, batch, doNothing);
    if e.result.Ok? {
      var create := CreateStep(server, committed, schema, table);
      var p := UpsertPlan(schema, table, columns, keys, doNothing);
      var createSql := CreateStagingText(StagingName(table), schema, table);
      var created := log + [Connected] + [CursorOpened] + [Executed(createSql, true)];
      assert create.Done? && Slices(rows, batch).Some?;
      var o := UpsertAll(server, create.tables, p, created, Slices(rows, batch).value);
      assert o.failure.None?;
      assert e.log == o.log + [Committed, CursorClosed, Closed];
      UpsertFromSent(server, create.tables, p, 0, created, Slices(rows, batch).value);
      CreatedSent(log, createSql, o.log, [Committed, CursorClosed, Closed], Cycles(p, |Slices(rows, batch).value|));
    }
  }

  /** A run after connecting, opening a cursor and a CREATE, closed by transaction
      events, has sent the CREATE and then what the run added. */
  lemma CreatedSent(log: seq<Event>, createSql: string, run: seq<Event>, closing: seq<Event>, extra: seq<string>)
    requires forall k :: 0 <= k < |closing| ==> !closing[k].Executed?
    requires Sent(run) == Sent(log + [Connected] + [CursorOpened] + [Executed(createSql, true)]) + extra
    ensures Sent(run + closing) == Sent(log) + [createSql] + extra
  {
    var opening := [Connected, CursorOpened];
    assert log + [Connected] + [CursorOpened] + [Executed(createSql, true)] == (log + opening) + [Executed(createSql, true)];
    SentAfter(log + opening, createSql, run, extra);
    SentBracket(log, opening, run, closing, [createSql] + extra);
    Associative(Sent(log), [createSql], extra);
  }

  /** The DELETE that `insert_dataframe` sends, if any. */
  function DeleteSent(schema: string, table: string, matchColumns: seq<string>): seq<string> {
    if |matchColumns| > 0 then [DeleteText(schema, table, StagingName(table), Conditions(matchColumns))] else []
  }

  /** A successful replace step sends the DELETE when there are columns to match, then
      the INSERT ... SELECT. */
  lemma ReplaceSent(server: Server, initial: Session, tables: Tables, run: seq<Event>, labels: seq<string>,
                    schema: string, table: string, matchColumns: seq<string>)
    ensures var e := ReplaceRun(server, initial, tables, run, labels, schema, table, matchColumns);
      e.result.Ok? ==>
        Sent(e.log) == Sent(run) + DeleteSent(schema, table, matchColumns)
                       + [InsertSelectText(schema, table, Join(", ", labels), StagingName(table))]
  {
    var e := ReplaceRun(server, initial, tables, run, labels, schema, table, matchColumns);
    if e.result.Ok? {
      var staging := StagingName(table);
      var deleteSql := DeleteText(schema, table, staging, Conditions(matchColumns));
      var insertSql := InsertSelectText(schema, table, Join(", ", labels), staging);
      var afterDelete := if |matchColumns| > 0 then run + [Executed(deleteSql, true)] else run;
      var d := DeleteSent(schema, table, matchColumns);
      assert Sent(afterDelete) == Sent(run) + d by {
        if |matchColumns| > 0 {
          SentAppend(run, [Executed(deleteSql, true)]);
        } else {
          assert Sent(run) + [] == Sent(run);
        }
      }
      var afterInsert := afterDelete + [Executed(insertSql, true)];
      assert e.log == afterInsert + [Committed, CursorClosed, Closed];
      SentAppend(afterDelete, [Executed(insertSql, true)]);
      assert run + [] == run;
      Associative(Sent(run), d, [insertSql]);
      SentBracket(run, [], afterInsert, [Committed, CursorClosed, Closed], d + [insertSql]);
    }
  }

  /** A successful non-empty `insert_dataframe` sends the CREATE, one copy per batch of
      10000 rows, the DELETE when `columns` is not empty, and the INSERT ... SELECT;
      it never truncates the staging table. */
  lemma InsertFrameSent(server: Server, committed: Tables, log: seq<Event>, labels: seq<string>, values: seq<Row>,
                        schema: string, table: string, matchColumns: seq<string>)
    requires |values| > 0
    ensures var e := InsertFrameRun(server, committed, log, labels, values, schema, table, matchColumns);
      var staging := StagingName(table);
      e.result.Ok? ==>
        Sent(e.log) == Sent(log) + [CreateStagingText(staging, schema, table)]
                       + Repeat(CopyText(staging, "(" + Join(", ", labels) + ")"), |Batches(values, InsertFrameBatch)|)
                       + DeleteSent(schema, table, matchColumns)
                       + [InsertSelectText(schema, table, Join(", ", labels), staging)]
  {
    var e := InsertFrameRun(server, committed, log, labels, values, schema, table, matchColumns);
    if e.result.Ok? {
      var create := CreateStep(server, committed, schema, table);
      var staging := StagingName(table);
      var opening := [Connected, CursorOpened];
      var createSql := CreateStagingText(staging, schema, table);
      var copySql := CopyText(staging, "(" + Join(", ", labels) + ")");
      var insertSql := InsertSelectText(schema, table, Join(", ", labels), staging);
      var created := log + [Connected] + [CursorOpened] + [Executed(createSql, true)];
      var batches := Batches(values, InsertFrameBatch);
      var o := CopyAll(server, create.tables, Temporary(staging), Some(labels), copySql, created, batches);
      var initial := Session(Permanents(committed), Permanents(committed));
      assert e == ReplaceRun(server, initial, o.tables, o.log, labels, schema, table, matchColumns);
      ReplaceSent(server, initial, o.tables, o.log, labels, schema, table, matchColumns);
      var copies := Repeat(copySql, |batches|);
      var d := DeleteSent(schema, table, matchColumns);
      assert Sent(o.log) == Sent(log) + [createSql] + copies by {
        CopyFromLog(server, create.tables, Temporary(staging), Some(labels), copySql, 0, created, batches);
        assert created == (log + opening) + [Executed(createSql, true)];
        SentAppend(log + opening, [Executed(createSql, true)]);
        SentAppend(log, opening);
        SentNoStatements(opening);
        assert Sent(log) + [] == Sent(log);
      }
    }
  }

  /** The rows the target keeps through the replace step: those matching no staged
      row on `columns`, or all of them when `columns` is empty. */
  function Kept(rows: seq<Record>, staged: seq<Record>, matchColumns: seq<string>): seq<Record> {
    if |matchColumns| > 0 then Unmatched(rows, staged, matchColumns) else rows
  }

  /** A successful replace step deletes the target rows that match a staged row, then
      appends every staged row restricted to the frame's columns, and commits that. */
  lemma ReplaceReplaces(server: Server, initial: Session, tables: Tables, run: seq<Event>, labels: seq<string>,
                        schema: string, table: string, matchColumns: seq<string>)
    requires Standard(server)
    ensures var e := ReplaceRun(server, initial, tables, run, labels, schema, table, matchColumns);
      var target := Permanent(schema, table);
      var staging := Temporary(StagingName(table));
      e.result.Ok? ==>
        target in tables && staging in tables &&
        var t := tables[target];
        var staged := tables[staging].rows;
        e.committed == Some(Permanents(tables[target := t.(rows := Kept(t.rows, staged, matchColumns) + Projected(staged, labels))]))
  {
    var e := ReplaceRun(server, initial, tables, run, labels, schema, table, matchColumns);
    if e.result.Ok? {
      var target := Permanent(schema, table);
      var staging := Temporary(StagingName(table));
      var deleted := tables;
      if |matchColumns| > 0 {
        DeleteKeepsUnmatched(server, tables, target, staging, matchColumns);
        deleted := Exec(server, tables, DeleteMatching(target, staging, matchColumns)).tables;
      }
      InsertSelectAppends(server, deleted, target, labels, staging);
      var t := tables[target];
      var staged := tables[staging].rows;
      assert deleted == tables[target := t.(rows := Kept(t.rows, staged, matchColumns))];
      assert deleted[staging].rows == staged;
      var after := t.(rows := Kept(t.rows, staged, matchColumns) + Projected(staged, labels));
      assert deleted[target := deleted[target].(rows := deleted[target].rows + Projected(staged, labels))] ==
        tables[target := after];
    }
  }

  /** A successful non-empty `insert_dataframe` replaces, in the committed state, the
      target rows that match a row of the frame on `columns` by the frame's rows, in
      order, restricted to the frame's columns; without `columns` it only appends.
      The staging table does not survive the session, and no other table changes. */
  lemma InsertFrameReplaces(server: Server, committed: Tables, log: seq<Event>, labels: seq<string>, values: seq<Row>,
                            schema: string, table: string, matchColumns: seq<string>)
    requires Standard(server) && |values| > 0
    ensures var e := InsertFrameRun(server, committed, log, labels, values, schema, table, matchColumns);
      var before := Permanents(committed);
      var target := Permanent(schema, table);
      e.result.Ok? ==>
        target in before &&
        var t := before[target];
        var staged := ToRecords(labels, values);
        e.committed == Some(before[target := t.(rows := Kept(t.rows, staged, matchColumns) + Projected(staged, labels))])
  {
    var e := InsertFrameRun(server, committed, log, labels, values, schema, table, matchColumns);
    if e.result.Ok? {
      var before := Permanents(committed);
      var target := Permanent(schema, table);
      var name := StagingName(table);
      NoTemporaryOnConnect(committed, name);
      StagingCreated(server, before, name, target);
      var t := before[target];
      var empty := Table(t.columns, []);
      var t0 := before[Temporary(name) := empty];
      var created := log + [Connected] + [CursorOpened] + [Executed(CreateStagingText(name, schema, table), true)];
      var copySql := CopyText(name, "(" + Join(", ", labels) + ")");
      var batches := Batches(values, InsertFrameBatch);
      var o := CopyAll(server, t0, Temporary(name), Some(labels), copySql, created, batches);
      var initial := Session(before, before);
      assert e == ReplaceRun(server, initial, o.tables, o.log, labels, schema, table, matchColumns);
      Covers(values, InsertFrameBatch);
      CopyAllAppends(server, t0, Temporary(name), Some(labels), copySql, created, batches, values);
      var staged := ToRecords(labels, values);
      var full := empty.(rows := [] + staged);
      assert o.tables == before[Temporary(name) := full];
      assert o.tables[target] == t && o.tables[Temporary(name)].rows == staged;
      ReplaceReplaces(server, initial, o.tables, o.log, labels, schema, table, matchColumns);
      var after := t.(rows := Kept(t.rows, staged, matchColumns) + Projected(staged, labels));
      assert o.tables[target := after] == before[target := after][Temporary(name) := full];
      PermanentsDropTemporary(before[target := after], name, full);
      PermanentsUpdate(before, target, after);
      PermanentsIdempotent(committed);
    }
  }
}
