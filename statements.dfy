/** The SQL text that the helper assembles: the optional column list, the staging
    table's name, the ON CONFLICT action built over the non-key columns, and the
    AND-joined match predicate of the replace path. */
module Statements {
  import opened Wrappers
  import opened Text

  /** `columnString` of `__insert_list`: empty when no columns are named,
      otherwise the names joined by commas between parentheses. */
  function ColumnString(columns: Option<seq<string>>): string {
    if columns.None? || |columns.value| == 0 then ""
    else "(" + Join(",", columns.value) + ")"
  }

  /** The staging table of `upsert_dataframe` and `insert_dataframe`. */
  function StagingName(table: string): (name: string)
    ensures StartsWith(name, "tmp_") && name[4..] == table
  {
    "tmp_" + table
  }

  /** The columns an upsert overwrites on conflict: those of `columns` that are not
      key columns, in the order of `columns`. */
  function NonKey(columns: seq<string>, keys: seq<string>): seq<string>
    decreases |columns|
  {
    if |columns| == 0 then []
    else (if columns[0] in keys then [] else [columns[0]]) + NonKey(columns[1..], keys)
  }

  /** One entry of the DO UPDATE SET list. */
  function Assignment(column: string): string {
    column + " = EXCLUDED." + column
  }

  /** One conjunct of the replace path's DELETE predicate. */
  function Condition(column: string): string {
    "a." + column + " = b." + column
  }

  /** The ON CONFLICT action, given the SET entries `excludes`. */
  function ActionText(doNothing: bool, excludes: seq<string>): string {
    if doNothing then "DO NOTHING" else "DO UPDATE SET\n\t" + Join(",\n\t", excludes)
  }

  /** `copy <target> <columnString> from stdin ...`. */
  function CopyText(target: string, columnString: string): string {
    "copy " + target + " " + columnString + " from stdin with delimiter ',' csv"
  }

  function CreateStagingText(staging: string, schema: string, table: string): string {
    "create temporary table if not exists " + staging + " as select * from "
      + schema + "." + table + " where 1=2"
  }

  function UpsertText(schema: string, table: string, staging: string, keys: seq<string>, action: string): string {
    "\n            INSERT INTO " + schema + "." + table
      + "\n            select * from " + staging
      + "\n            ON CONFLICT (" + Join(", ", keys) + ")"
      + "\n            " + action
      + "\n        "
  }

  function TruncateText(staging: string): string {
    "truncate table " + staging
  }

  function DeleteText(schema: string, table: string, staging: string, conditions: seq<string>): string {
    "\n            DELETE FROM " + schema + "." + table + " a"
      + "\n            USING " + staging + " b"
      + "\n            WHERE true AND"
      + "\n            " + Join(" AND ", conditions)
      + "\n        "
  }

  function InsertSelectText(schema: string, table: string, originColumns: string, staging: string): string {
    "\n        INSERT INTO " + schema + "." + table + " (" + originColumns + ")"
      + "\n        SELECT " + originColumns
      + "\n        FROM " + staging + " "
      + "\n    "
  }

  // ---------------------------------------------------------------- the two list-building loops

  /** The `excludes` loop of `upsert_dataframe`: one `col = EXCLUDED.col` per column
      that is not a key column, in column order. */
  method BuildExcludes(columns: seq<string>, keys: seq<string>) returns (excludes: seq<string>)
    ensures excludes == Assignments(NonKey(columns, keys))
  {
    excludes := [];
    var n := 0;
    while n < |columns|
      invariant 0 <= n <= |columns|
      invariant |excludes| == |NonKey(columns[..n], keys)|
      invariant forall i :: 0 <= i < |excludes| ==> excludes[i] == Assignment(NonKey(columns[..n], keys)[i])
    {
      var col := columns[n];
      NonKeyAppend(columns[..n], [col], keys);
      assert columns[..n + 1] == columns[..n] + [col];
      if col !in keys {
        excludes := excludes + [Assignment(col)];
      }
      n := n + 1;
    }
    assert columns[..n] == columns;
    assert excludes == Assignments(NonKey(columns, keys));
  }

  /** The `conditions` loop of `insert_dataframe`: one `a.col = b.col` per column, in order. */
  method BuildConditions(columns: seq<string>) returns (conditions: seq<string>)
    ensures conditions == Conditions(columns)
  {
    conditions := [];
    var n := 0;
    while n < |columns|
      invariant 0 <= n <= |columns|
      invariant |conditions| == n
      invariant forall i :: 0 <= i < n ==> conditions[i] == Condition(columns[i])
    {
      conditions := conditions + [Condition(columns[n])];
      n := n + 1;
    }
    assert conditions == Conditions(columns);
  }

  /** The SET entries that `BuildExcludes` produces, as a value. */
  function Assignments(columns: seq<string>): seq<string> {
    seq(|columns|, i requires 0 <= i < |columns| => Assignment(columns[i]))
  }

  /** The DELETE conjuncts that `BuildConditions` produces, as a value. */
  function Conditions(columns: seq<string>): seq<string> {
    seq(|columns|, i requires 0 <= i < |columns| => Condition(columns[i]))
  }

  // ---------------------------------------------------------------- lemmas

  /** The column list is empty exactly when no column is named; otherwise it is
      parenthesised and, when no name contains a comma, splitting its inside at the
      commas gives back the names in their order. */
  lemma ColumnStringLists(columns: Option<seq<string>>)
    ensures ColumnString(columns) == "" <==> columns.None? || |columns.value| == 0
    ensures columns.Some? && |columns.value| > 0 ==>
      var s := ColumnString(columns);
      |s| >= 2 && s[0] == '(' && s[|s| - 1] == ')' &&
      ((forall i :: 0 <= i < |columns.value| ==> ',' !in columns.value[i]) ==>
         Split(',', s[1..|s| - 1]) == columns.value)
  {
    if columns.Some? && |columns.value| > 0 {
      var s := ColumnString(columns);
      var inner := Join(",", columns.value);
      assert s[1..|s| - 1] == inner;
      if forall i :: 0 <= i < |columns.value| ==> ',' !in columns.value[i] {
        SplitJoin(',', columns.value);
      }
    }
  }

  /** Filtering out key columns distributes over concatenation, so it keeps the
      relative order of the columns it keeps. */
  lemma {:induction false} NonKeyAppend(a: seq<string>, b: seq<string>, keys: seq<string>)
    ensures NonKey(a + b, keys) == NonKey(a, keys) + NonKey(b, keys)
    decreases |a|
  {
    if |a| > 0 {
      assert (a + b)[0] == a[0];
      assert (a + b)[1..] == a[1..] + b;
      NonKeyAppend(a[1..], b, keys);
    } else {
      assert a + b == b;
    }
  }

  /** The overwritten columns are exactly the non-key columns, and there are no more
      of them than columns. */
  lemma {:induction false} NonKeyMembers(columns: seq<string>, keys: seq<string>)
    ensures forall c :: c in NonKey(columns, keys) <==> c in columns && c !in keys
    ensures |NonKey(columns, keys)| <= |columns|
    decreases |columns|
  {
    if |columns| > 0 {
      NonKeyMembers(columns[1..], keys);
      assert columns == [columns[0]] + columns[1..];
    }
  }

  /** When no column is a key column, every column is updated. */
  lemma {:induction false} NonKeyWithoutKeys(columns: seq<string>, keys: seq<string>)
    requires forall c :: c in columns ==> c !in keys
    ensures NonKey(columns, keys) == columns
    decreases |columns|
  {
    if |columns| > 0 {
      NonKeyWithoutKeys(columns[1..], keys);
      assert columns == [columns[0]] + columns[1..];
    }
  }

  /** When every column is a key column, the SET list is empty, and the DO UPDATE
      action ends right after `SET`. */
  lemma AllKeysLeaveEmptySet(columns: seq<string>, keys: seq<string>)
    requires forall c :: c in columns ==> c in keys
    ensures NonKey(columns, keys) == []
    ensures ActionText(false, Assignments(NonKey(columns, keys))) == "DO UPDATE SET\n\t"
  {
    NonKeyMembers(columns, keys);
  }
}
