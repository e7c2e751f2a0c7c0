/** The column coercion of `transform_dataframe`: each catalog row `(column_name,
    data_type)` picks, by substring tests on the lower-cased type name, which
    conversions the column of that name goes through. Text types are stringified;
    `date`/`time`/`timestamp` types are parsed and formatted once per matching name;
    `num`/`float`/`int` types have their thousands separator removed and are parsed
    as numbers. Finally every null-like string becomes a missing value. The pandas
    parsers and formatters are left open, as a `Pandas` value. */
module Coercion {
  import opened Wrappers
  import opened Text

  /** A point in time as pandas holds it after `pd.to_datetime`. */
  datatype Instant = Instant(nanoseconds: int)

  /** A cell of the frame: missing (None or NaN), a string, or a parsed number. */
  datatype Cell = Missing | Str(text: string) | Num(value: real)

  datatype Column = Column(name: string, cells: seq<Cell>)

  /** A row of the catalog query: a column of the target table and its `data_type`. */
  datatype CatalogRow = CatalogRow(name: string, dataType: string)

  /** The library calls the coercion relies on: `pd.to_datetime(errors="coerce")` on
      a string and on a number (None for NaT), `strftime` with or without `%z`,
      `pd.to_numeric(errors="coerce")` (None for NaN) and `str()` of a number. */
  datatype Pandas = Pandas(parseTime: string -> Option<Instant>,
                           numberTime: real -> Option<Instant>,
                           formatTime: (Instant, bool) -> string,
                           toNumber: string -> Option<real>,
                           showNumber: real -> string)

  /** One reassignment `transformDF[columnName] = ...`. */
  datatype Step = ToText | ToTime(zone: bool) | ToNumber

  /** The names the temporal loop tries, in order, without stopping at a match. */
  const TemporalNames: seq<string> := ["date", "time", "timestamp"]

  /** The names the numeric loop tries until the first match. */
  const NumericNames: seq<string> := ["num", "float", "int"]

  /** What the numeric step maps to None before stringifying again. */
  const NumericNulls: seq<string> := ["nan", "null", "None"]

  /** What the formatted temporal column maps to None. */
  const TemporalNulls: seq<string> := ["nan", "NaT"]

  /** What the final `replace` over the whole frame maps to None. */
  const FrameNulls: seq<string> := ["nan", "NaN", "null", "None"]

  // ---------------------------------------------------------------- classification

  predicate IsText(t: string) {
    Contains(t, "char") || Contains(t, "text")
  }

  predicate IsNumeric(t: string) {
    Contains(t, NumericNames[0]) || Contains(t, NumericNames[1]) || Contains(t, NumericNames[2])
  }

  /** Whether `%z` is in the format. */
  predicate HasZone(t: string) {
    Contains(t, "time zone")
  }

  /** The temporal passes of the first `j` names of the temporal loop. */
  function TemporalPasses(t: string, j: nat): (r: seq<Step>)
    requires j <= |TemporalNames|
    ensures |r| <= j
    ensures forall k :: 0 <= k < |r| ==> r[k] == ToTime(HasZone(t))
  {
    if j == 0 then []
    else TemporalPasses(t, j - 1) + (if Contains(t, TemporalNames[j - 1]) then [ToTime(HasZone(t))] else [])
  }

  /** The reassignments one catalog row makes, in order, for the lower-cased type `t`. */
  function RowSteps(t: string): seq<Step> {
    (if IsText(t) then [ToText] else []) + TemporalPasses(t, |TemporalNames|) + (if IsNumeric(t) then [ToNumber] else [])
  }

  // ---------------------------------------------------------------- cell conversions

  /** `astype(str)`: None becomes "None" (and NaN "nan", which every later step
      treats the same way). */
  function AsString(lib: Pandas, c: Cell): string {
    match c
    case Missing => "None"
    case Str(s) => s
    case Num(v) => lib.showNumber(v)
  }

  /** One temporal pass: parse, format, stringify, and map "nan" and "NaT" to None. */
  function TimeCell(lib: Pandas, zone: bool, c: Cell): Cell {
    var moment := match c
      case Missing => None
      case Str(s) => lib.parseTime(s)
      case Num(v) => lib.numberTime(v);
    if moment.None? then Missing
    else
      var s := lib.formatTime(moment.value, zone);
      if s in TemporalNulls then Missing else Str(s)
  }

  /** The separator clean-up before `pd.to_numeric`: remove every `sep`, then, when
      the separator is ".", turn the decimal commas into points. */
  function CleanNumber(sep: string, s: string): string {
    var removed := ReplaceAll(s, sep, "");
    if sep == "." then ReplaceAll(removed, ",", ".") else removed
  }

  /** The numeric step on one cell. */
  function NumberCell(lib: Pandas, sep: string, c: Cell): Cell {
    var s := AsString(lib, c);
    var nulled := if s in NumericNulls then "None" else s;
    match lib.toNumber(CleanNumber(sep, nulled))
    case None => Missing
    case Some(v) => Num(v)
  }

  function StepCell(lib: Pandas, sep: string, step: Step, c: Cell): Cell {
    match step
    case ToText => Str(AsString(lib, c))
    case ToTime(zone) => TimeCell(lib, zone, c)
    case ToNumber => NumberCell(lib, sep, c)
  }

  /** The final `replace({np.nan: None, "nan": None, ...})` on one cell. */
  function FinalNull(c: Cell): (r: Cell)
    ensures r == Missing <==> c == Missing || (c.Str? && c.text in FrameNulls)
    ensures r != Missing ==> r == c
  {
    if c.Str? && c.text in FrameNulls then Missing else c
  }

  // ---------------------------------------------------------------- columns

  predicate HasColumn(columns: seq<Column>, name: string) {
    exists i :: 0 <= i < |columns| && columns[i].name == name
  }

  /** `transformDF.columns = transformDF.columns.str.lower()`. */
  function Lowered(columns: seq<Column>): (r: seq<Column>)
    ensures |r| == |columns|
    ensures forall i :: 0 <= i < |r| ==> r[i].name == Lower(columns[i].name) && r[i].cells == columns[i].cells
  {
    seq(|columns|, i requires 0 <= i < |columns| => Column(Lower(columns[i].name), columns[i].cells))
  }

  /** `transformDF[name] = <step>(transformDF[name])`: every column of that name has
      each of its cells converted; the other columns are untouched. */
  function MapColumn(lib: Pandas, sep: string, columns: seq<Column>, name: string, step: Step): (r: seq<Column>)
    ensures |r| == |columns|
    ensures forall i :: 0 <= i < |r| ==> r[i].name == columns[i].name && |r[i].cells| == |columns[i].cells|
  {
    seq(|columns|, i requires 0 <= i < |columns| =>
      if columns[i].name == name then
        Column(name, seq(|columns[i].cells|, k requires 0 <= k < |columns[i].cells| =>
                           StepCell(lib, sep, step, columns[i].cells[k])))
      else columns[i])
  }

  /** The steps applied one after the other to the columns named `name`. */
  function MapSteps(lib: Pandas, sep: string, columns: seq<Column>, name: string, steps: seq<Step>): seq<Column>
    decreases |steps|
  {
    if |steps| == 0 then columns
    else MapSteps(lib, sep, MapColumn(lib, sep, columns, name, steps[0]), name, steps[1..])
  }

  /** The final null replacement over every column. */
  function NullsAll(columns: seq<Column>): (r: seq<Column>)
    ensures |r| == |columns|
    ensures forall i :: 0 <= i < |r| ==>
      r[i].name == columns[i].name && |r[i].cells| == |columns[i].cells| &&
      forall k :: 0 <= k < |r[i].cells| ==> r[i].cells[k] == FinalNull(columns[i].cells[k])
  {
    seq(|columns|, i requires 0 <= i < |columns| =>
      Column(columns[i].name, seq(|columns[i].cells|, k requires 0 <= k < |columns[i].cells| =>
                                    FinalNull(columns[i].cells[k]))))
  }

  /** The columns named `name`, in frame order. */
  function Named(columns: seq<Column>, name: string): (r: seq<Column>)
    ensures forall c :: c in r <==> c in columns && c.name == name
    decreases |columns|
  {
    if |columns| == 0 then []
    else (if columns[0].name == name then [columns[0]] else []) + Named(columns[1..], name)
  }

  /** `transformDF[db_columns]`: the columns of each listed name, in list order; a
      name without a column raises KeyError. pandas lists every missing name in that
      one KeyError; the model carries the first. */
  function Selection(columns: seq<Column>, names: seq<string>): (r: Result<seq<Column>>)
    ensures r.Ok? ==> forall c :: c in r.value ==> c in columns && c.name in names
    ensures r.Ok? ==> forall c :: c in columns && c.name in names ==> c in r.value
    ensures r.Ok? ==> forall n :: n in names ==> HasColumn(columns, n)
    ensures r.Err? ==> r.error.KeyError? && r.error.key in names && !HasColumn(columns, r.error.key)
    decreases |names|
  {
    if |names| == 0 then Ok([])
    else if !HasColumn(columns, names[0]) then Err(KeyError(names[0]))
    else match Selection(columns, names[1..])
      case Err(e) => Err(e)
      case Ok(rest) => Ok(Named(columns, names[0]) + rest)
  }

  function Names(rows: seq<CatalogRow>): seq<string> {
    seq(|rows|, i requires 0 <= i < |rows| => rows[i].name)
  }

  /** A label on two or more columns: `transformDF[name]` is then a DataFrame, not a
      Series. */
  predicate Duplicated(columns: seq<Column>, name: string) {
    |Named(columns, name)| > 1
  }

  /** What one reassignment `transformDF[name] = ...` raises on `columns`: KeyError
      when no column has the label. On a duplicated label, stringifying the DataFrame
      works, `pd.to_datetime` of it raises ValueError (it cannot assemble duplicate
      keys) and the numeric step raises AttributeError (a DataFrame has no `.str`). */
  function StepError(columns: seq<Column>, name: string, step: Step): Option<Error> {
    if !HasColumn(columns, name) then Some(KeyError(name))
    else if step.ToText? || !Duplicated(columns, name) then None
    else if step.ToTime? then Some(ValueError)
    else Some(AttributeError)
  }

  /** The steps one after the other; the first one that raises stops the row. */
  function ApplySteps(lib: Pandas, sep: string, columns: seq<Column>, name: string, steps: seq<Step>)
    : Result<seq<Column>>
    decreases |steps|
  {
    if |steps| == 0 then Ok(columns)
    else match StepError(columns, name, steps[0])
      case Some(e) => Err(e)
      case None => ApplySteps(lib, sep, MapColumn(lib, sep, columns, name, steps[0]), name, steps[1..])
  }

  /** What one catalog row does to the frame: its steps in order. A row without a step
      never looks its column up. */
  function ApplyRow(lib: Pandas, sep: string, columns: seq<Column>, row: CatalogRow): Result<seq<Column>> {
    ApplySteps(lib, sep, columns, row.name, RowSteps(Lower(row.dataType)))
  }

  /** What a catalog row raises on `columns`, decided by the labels alone: KeyError when
      it has a step and no column; on a duplicated label, ValueError from its first
      temporal pass, or else AttributeError from its numeric step; nothing otherwise. */
  function RowError(columns: seq<Column>, row: CatalogRow): Option<Error> {
    var t := Lower(row.dataType);
    if |RowSteps(t)| == 0 then None
    else if !HasColumn(columns, row.name) then Some(KeyError(row.name))
    else if !Duplicated(columns, row.name) then None
    else if |TemporalPasses(t, |TemporalNames|)| > 0 then Some(ValueError)
    else if IsNumeric(t) then Some(AttributeError)
    else None
  }

  /** The catalog rows applied in order; the first error stops the loop. */
  function ApplyRows(lib: Pandas, sep: string, columns: seq<Column>, rows: seq<CatalogRow>): Result<seq<Column>>
    decreases |rows|
  {
    if |rows| == 0 then Ok(columns)
    else match ApplyRow(lib, sep, columns, rows[0])
      case Err(e) => Err(e)
      case Ok(next) => ApplyRows(lib, sep, next, rows[1..])
  }

  /** The frame the catalog rows convert: the lower-cased frame, or with
      `matched_columns` its selection of the catalog's names. */
  function Selected(columns: seq<Column>, matched: bool, rows: seq<CatalogRow>): Result<seq<Column>> {
    if matched then Selection(Lowered(columns), Names(rows)) else Ok(Lowered(columns))
  }

  /** `transform_dataframe` on a non-empty frame with columns `columns`. `dbName` is
      `DB_NAME` (None when unset, whose `.lower()` raises AttributeError) and
      `metadata` is what the catalog query returns, or the error it raises. */
  function Transform(lib: Pandas, sep: string, columns: seq<Column>, matched: bool, dbName: Option<string>,
                     metadata: Result<seq<CatalogRow>>): Result<seq<Column>>
  {
    var lowered := Lowered(columns);
    if dbName.None? then Err(AttributeError)
    else if !StartsWith(Lower(dbName.value), "postgre") then Ok(lowered)
    else match metadata
      case Err(e) => Err(e)
      case Ok(rows) =>
        match Selected(columns, matched, rows)
        case Err(e) => Err(e)
        case Ok(selected) =>
          if |rows| == 0 then Ok(selected)
          else match ApplyRows(lib, sep, selected, rows)
            case Err(e) => Err(e)
            case Ok(converted) => Ok(NullsAll(converted))
  }

  // ---------------------------------------------------------------- the frame

  /** A pandas DataFrame: its columns and its number of rows, `len(df)`. In pandas
      every column has `length` cells; the model does not rely on it, as no step
      changes the number of cells of a column (`SameNames`). */
  class DataFrame {
    var columns: seq<Column>
    var length: nat

    constructor (columns: seq<Column>, length: nat)
      ensures this.columns == columns && this.length == length
    {
      this.columns := columns;
      this.length := length;
    }

    /** `df.copy()`. */
    constructor Copy(source: DataFrame)
      ensures columns == source.columns && length == source.length
    {
      columns := source.columns;
      length := source.length;
    }

    method LowerLabels()
      modifies this
      ensures columns == Lowered(old(columns)) && length == old(length)
    {
      columns := Lowered(columns);
    }

    /** Keep the listed columns, or report the first name without a column. */
    method Select(names: seq<string>) returns (missing: Option<string>)
      modifies this
      ensures var s := Selection(old(columns), names);
        (s.Ok? ==> missing.None? && columns == s.value) &&
        (s.Err? ==> missing == Some(s.error.key) && columns == old(columns))
      ensures length == old(length)
    {
      var s := Selection(columns, names);
      if s.Ok? {
        columns := s.value;
        missing := None;
      } else {
        missing := Some(s.error.key);
      }
    }

    /** One reassignment of the columns named `name`, or the error it raises, in which
        case the columns are left as they were. */
    method Convert(lib: Pandas, sep: string, name: string, step: Step) returns (failed: Option<Error>)
      modifies this
      ensures failed == StepError(old(columns), name, step)
      ensures columns == (if failed.None? then MapColumn(lib, sep, old(columns), name, step) else old(columns))
      ensures length == old(length)
    {
      var hits := Named(columns, name);
      if |hits| == 0 {
        NamedHas(columns, name);
        return Some(KeyError(name));
      }
      NamedHas(columns, name);
      if |hits| > 1 && step.ToTime? {
        return Some(ValueError);
      }
      if |hits| > 1 && step.ToNumber? {
        return Some(AttributeError);
      }
      columns := MapColumn(lib, sep, columns, name, step);
      return None;
    }

    method ReplaceNulls()
      modifies this
      ensures columns == NullsAll(old(columns)) && length == old(length)
    {
      columns := NullsAll(columns);
    }
  }

  // ---------------------------------------------------------------- the loops

  /** One iteration of the temporal loop: the pass for `TemporalNames[j]`, when the
      type contains that name. */
  method TemporalPass(frame: DataFrame, lib: Pandas, sep: string, name: string, t: string, j: nat,
                      ghost before: seq<Column>) returns (failed: Option<Error>)
    requires j < |TemporalNames|
    requires frame.columns == MapSteps(lib, sep, before, name, TemporalPasses(t, j))
    modifies frame
    ensures |TemporalPasses(t, j + 1)| > |TemporalPasses(t, j)| ==> failed == StepError(before, name, ToTime(HasZone(t)))
    ensures |TemporalPasses(t, j + 1)| == |TemporalPasses(t, j)| ==> failed.None?
    ensures failed.None? ==> frame.columns == MapSteps(lib, sep, before, name, TemporalPasses(t, j + 1))
    ensures frame.length == old(frame.length)
  {
    PassStep(lib, sep, before, name, t, j);
    failed := None;
    if Contains(t, TemporalNames[j]) {
      StepErrorKept(lib, sep, before, name, TemporalPasses(t, j), ToTime(HasZone(t)));
      failed := frame.Convert(lib, sep, name, ToTime(HasZone(t)));
    }
  }

  /** `for type in ["date", "time", "timestamp"]`, without `break`: one temporal pass
      per name the type contains. Every pass looks up the same label, so the first
      one raises if any does. */
  method TemporalLoop(frame: DataFrame, lib: Pandas, sep: string, name: string, t: string)
    returns (failed: Option<Error>)
    modifies frame
    ensures var steps := TemporalPasses(t, |TemporalNames|);
      failed == (if |steps| == 0 then None else StepError(old(frame.columns), name, ToTime(HasZone(t)))) &&
      (failed.None? ==> frame.columns == MapSteps(lib, sep, old(frame.columns), name, steps))
    ensures frame.length == old(frame.length)
  {
    ghost var before := frame.columns;
    var j := 0;
    while j < |TemporalNames|
      invariant 0 <= j <= |TemporalNames|
      invariant frame.columns == MapSteps(lib, sep, before, name, TemporalPasses(t, j))
      invariant |TemporalPasses(t, j)| > 0 ==> StepError(before, name, ToTime(HasZone(t))).None?
      invariant frame.length == old(frame.length)
    {
      failed := TemporalPass(frame, lib, sep, name, t, j, before);
      if failed.Some? {
        PassesGrow(t, j + 1, |TemporalNames|);
        return;
      }
      j := j + 1;
    }
    return None;
  }

  /** `for type in ["num", "float", "int"]` with `break` after the first match: at
      most one numeric step. */
  method NumericLoop(frame: DataFrame, lib: Pandas, sep: string, name: string, t: string)
    returns (failed: Option<Error>)
    modifies frame
    ensures failed == (if IsNumeric(t) then StepError(old(frame.columns), name, ToNumber) else None) &&
      (failed.None? ==> frame.columns == if IsNumeric(t) then MapColumn(lib, sep, old(frame.columns), name, ToNumber)
                                         else old(frame.columns))
    ensures frame.length == old(frame.length)
  {
    var k := 0;
    while k < |NumericNames|
      invariant 0 <= k <= |NumericNames|
      invariant forall m :: 0 <= m < k ==> !Contains(t, NumericNames[m])
      invariant frame.columns == old(frame.columns) && frame.length == old(frame.length)
    {
      if Contains(t, NumericNames[k]) {
        assert k == 0 || k == 1 || k == 2;
        failed := frame.Convert(lib, sep, name, ToNumber);
        return;
      }
      k := k + 1;
    }
    return None;
  }

  /** The body of `for row in metadata`: the text check, then the two loops. */
  method ConvertRow(frame: DataFrame, lib: Pandas, sep: string, row: CatalogRow) returns (failed: Option<Error>)
    modifies frame
    ensures failed == RowError(old(frame.columns), row)
    ensures failed.None? ==> frame.columns == MapSteps(lib, sep, old(frame.columns), row.name, RowSteps(Lower(row.dataType)))
    ensures frame.length == old(frame.length)
  {
    var name := row.name;
    var t := Lower(row.dataType);
    ghost var before := frame.columns;
    ghost var text: seq<Step> := if IsText(t) then [ToText] else [];
    ghost var passes := TemporalPasses(t, |TemporalNames|);
    ghost var numeric: seq<Step> := if IsNumeric(t) then [ToNumber] else [];
    RowErrorSteps(before, row);
    if IsText(t) {
      failed := frame.Convert(lib, sep, name, ToText);
      if failed.Some? {
        return;
      }
    }
    assert frame.columns == MapSteps(lib, sep, before, name, text);
    assert StepError(frame.columns, name, ToTime(HasZone(t))) == StepError(before, name, ToTime(HasZone(t))) by {
      StepErrorKept(lib, sep, before, name, text, ToTime(HasZone(t)));
    }
    failed := TemporalLoop(frame, lib, sep, name, t);
    if failed.Some? {
      return;
    }
    assert frame.columns == MapSteps(lib, sep, before, name, text + passes) by {
      MapStepsConcat(lib, sep, before, name, text, passes);
    }
    assert StepError(frame.columns, name, ToNumber) == StepError(before, name, ToNumber) by {
      StepErrorKept(lib, sep, before, name, text + passes, ToNumber);
    }
    failed := NumericLoop(frame, lib, sep, name, t);
    MapStepsConcat(lib, sep, before, name, text + passes, numeric);
    assert RowSteps(t) == text + passes + numeric;
  }

  /** `for row in metadata`, stopped by the first error a row raises. */
  method ConvertRows(frame: DataFrame, lib: Pandas, sep: string, rows: seq<CatalogRow>) returns (failed: Option<Error>)
    modifies frame
    ensures var a := ApplyRows(lib, sep, old(frame.columns), rows);
      (a.Ok? ==> failed.None? && frame.columns == a.value) && (a.Err? ==> failed == Some(a.error))
    ensures frame.length == old(frame.length)
  {
    ghost var before := frame.columns;
    var i := 0;
    while i < |rows|
      invariant 0 <= i <= |rows|
      invariant frame.length == old(frame.length)
      invariant ApplyRows(lib, sep, before, rows) == ApplyRows(lib, sep, frame.columns, rows[i..])
    {
      ghost var current := frame.columns;
      ApplyRowIs(lib, sep, frame.columns, rows[i]);
      failed := ConvertRow(frame, lib, sep, rows[i]);
      assert rows[i..][0] == rows[i] && rows[i..][1..] == rows[i + 1..];
      if failed.Some? {
        return;
      }
      i := i + 1;
    }
    return None;
  }

  /** `transform_dataframe(df, tableName, schema, matched_columns, number_seperate_by)`.
      An empty frame is returned as it is, the very same object; otherwise a copy is
      converted and returned, or the error is raised. */
  method TransformDataframe(df: DataFrame, lib: Pandas, sep: string, matched: bool, dbName: Option<string>,
                            metadata: Result<seq<CatalogRow>>) returns (r: Result<DataFrame>)
    ensures df.length == 0 ==> r == Ok(df)
    ensures df.length > 0 ==>
      match Transform(lib, sep, df.columns, matched, dbName, metadata)
      case Ok(cols) => r.Ok? && fresh(r.value) && r.value.columns == cols && r.value.length == df.length
      case Err(e) => r == Err(e)
  {
    if df.length == 0 {
      return Ok(df);
    }
    var frame := new DataFrame.Copy(df);
    frame.LowerLabels();
    if dbName.None? {
      return Err(AttributeError);
    }
    if !StartsWith(Lower(dbName.value), "postgre") {
      return Ok(frame);
    }
    if metadata.Err? {
      return Err(metadata.error);
    }
    var rows := metadata.value;
    if matched {
      var missing := frame.Select(Names(rows));
      if missing.Some? {
        return Err(KeyError(missing.value));
      }
    }
    if |rows| > 0 {
      var failed := ConvertRows(frame, lib, sep, rows);
      if failed.Some? {
        return Err(failed.value);
      }
      frame.ReplaceNulls();
    }
    return Ok(frame);
  }

  // ---------------------------------------------------------------- lemmas

  lemma {:induction false} MapStepsAppend(lib: Pandas, sep: string, columns: seq<Column>, name: string,
                                          steps: seq<Step>, step: Step)
    ensures MapSteps(lib, sep, columns, name, steps + [step])
         == MapColumn(lib, sep, MapSteps(lib, sep, columns, name, steps), name, step)
    decreases |steps|
  {
    if |steps| > 0 {
      assert (steps + [step])[1..] == steps[1..] + [step];
      MapStepsAppend(lib, sep, MapColumn(lib, sep, columns, name, steps[0]), name, steps[1..], step);
    }
  }

  lemma {:induction false} MapStepsConcat(lib: Pandas, sep: string, columns: seq<Column>, name: string,
                                          a: seq<Step>, b: seq<Step>)
    ensures MapSteps(lib, sep, columns, name, a + b)
         == MapSteps(lib, sep, MapSteps(lib, sep, columns, name, a), name, b)
    decreases |a|
  {
    if |a| == 0 {
      assert a + b == b;
    } else {
      assert (a + b)[1..] == a[1..] + b;
      MapStepsConcat(lib, sep, MapColumn(lib, sep, columns, name, a[0]), name, a[1..], b);
    }
  }

  /** One more temporal name tried: a pass more exactly when the type contains it. */
  lemma PassStep(lib: Pandas, sep: string, columns: seq<Column>, name: string, t: string, j: nat)
    requires j < |TemporalNames|
    ensures |TemporalPasses(t, j + 1)| == |TemporalPasses(t, j)| + (if Contains(t, TemporalNames[j]) then 1 else 0)
    ensures MapSteps(lib, sep, columns, name, TemporalPasses(t, j + 1))
         == if Contains(t, TemporalNames[j])
            then MapColumn(lib, sep, MapSteps(lib, sep, columns, name, TemporalPasses(t, j)), name, ToTime(HasZone(t)))
            else MapSteps(lib, sep, columns, name, TemporalPasses(t, j))
  {
    if Contains(t, TemporalNames[j]) {
      MapStepsAppend(lib, sep, columns, name, TemporalPasses(t, j), ToTime(HasZone(t)));
    } else {
      assert TemporalPasses(t, j + 1) == TemporalPasses(t, j);
    }
  }

  /** After any conversions there is a column `name` exactly when there was one before. */
  lemma KeepsColumn(lib: Pandas, sep: string, columns: seq<Column>, name: string, steps: seq<Step>)
    ensures HasColumn(MapSteps(lib, sep, columns, name, steps), name) <==> HasColumn(columns, name)
  {
    SameNames(lib, sep, columns, name, steps);
  }

  /** More names tried never means fewer passes. */
  lemma {:induction false} PassesGrow(t: string, j: nat, j2: nat)
    requires j <= j2 <= |TemporalNames|
    ensures |TemporalPasses(t, j)| <= |TemporalPasses(t, j2)|
    decreases j2 - j
  {
    if j < j2 {
      PassesGrow(t, j, j2 - 1);
    }
  }

  /** Converting cells never renames, adds or drops a column, nor changes its length. */
  lemma {:induction false} SameNames(lib: Pandas, sep: string, columns: seq<Column>, name: string, steps: seq<Step>)
    ensures var r := MapSteps(lib, sep, columns, name, steps);
      |r| == |columns| &&
      forall i :: 0 <= i < |r| ==> r[i].name == columns[i].name && |r[i].cells| == |columns[i].cells|
    ensures forall n :: HasColumn(MapSteps(lib, sep, columns, name, steps), n) <==> HasColumn(columns, n)
    decreases |steps|
  {
    if |steps| > 0 {
      var next := MapColumn(lib, sep, columns, name, steps[0]);
      SameNames(lib, sep, next, name, steps[1..]);
      forall n | HasColumn(columns, n) ensures HasColumn(next, n) {
        var i :| 0 <= i < |columns| && columns[i].name == n;
        assert next[i].name == n;
      }
      forall n | HasColumn(next, n) ensures HasColumn(columns, n) {
        var i :| 0 <= i < |next| && next[i].name == n;
        assert columns[i].name == n;
      }
    }
  }

  // ---------------------------------------------------------------- cell semantics

  /** The steps applied one after the other to a single cell (reference definition). */
  function CellSteps(lib: Pandas, sep: string, steps: seq<Step>, c: Cell): Cell
    decreases |steps|
  {
    if |steps| == 0 then c else CellSteps(lib, sep, steps[1..], StepCell(lib, sep, steps[0], c))
  }

  /** One reassignment converts every cell of the named columns and leaves the other
      columns as they were. */
  lemma MapColumnCells(lib: Pandas, sep: string, columns: seq<Column>, name: string, step: Step, i: nat)
    requires i < |columns|
    ensures var r := MapColumn(lib, sep, columns, name, step);
      (columns[i].name != name ==> r[i] == columns[i]) &&
      (columns[i].name == name ==> forall k :: 0 <= k < |columns[i].cells| ==>
         r[i].cells[k] == StepCell(lib, sep, step, columns[i].cells[k]))
  {
  }

  /** The steps of a row, column by column and cell by cell: a column of another name
      is untouched; each cell of a column of that name goes through `CellSteps`. */
  lemma {:induction false} MapStepsCells(lib: Pandas, sep: string, columns: seq<Column>, name: string,
                                         steps: seq<Step>, i: nat)
    requires i < |columns|
    ensures var r := MapSteps(lib, sep, columns, name, steps);
      |r| == |columns| &&
      (columns[i].name != name ==> r[i] == columns[i]) &&
      (columns[i].name == name ==>
         r[i].name == name && |r[i].cells| == |columns[i].cells| &&
         forall k :: 0 <= k < |columns[i].cells| ==>
           r[i].cells[k] == CellSteps(lib, sep, steps, columns[i].cells[k]))
    decreases |steps|
  {
    SameNames(lib, sep, columns, name, steps);
    if |steps| > 0 {
      var next := MapColumn(lib, sep, columns, name, steps[0]);
      MapColumnCells(lib, sep, columns, name, steps[0], i);
      MapStepsCells(lib, sep, next, name, steps[1..], i);
    }
  }

  // ---------------------------------------------------------------- classification facts

  /** A row's steps come in the source's order: the text step at most once and first,
      the numeric step at most once (the `break`) and last, temporal passes between. */
  lemma RowStepsOrder(t: string)
    ensures var steps := RowSteps(t);
      var passes := TemporalPasses(t, |TemporalNames|);
      (IsText(t) <==> |steps| > 0 && steps[0] == ToText) &&
      (IsNumeric(t) <==> |steps| > 0 && steps[|steps| - 1] == ToNumber) &&
      |steps| == (if IsText(t) then 1 else 0) + |passes| + (if IsNumeric(t) then 1 else 0) &&
      steps[(if IsText(t) then 1 else 0)..(if IsText(t) then 1 else 0) + |passes|] == passes
  {
    var passes := TemporalPasses(t, |TemporalNames|);
    var text: seq<Step> := if IsText(t) then [ToText] else [];
    var numeric: seq<Step> := if IsNumeric(t) then [ToNumber] else [];
    var steps := text + passes + numeric;
    assert RowSteps(t) == steps;
    if |passes| > 0 {
      assert passes[0] == ToTime(HasZone(t)) && passes[|passes| - 1] == ToTime(HasZone(t));
    }
    assert steps[|text|..|text| + |passes|] == passes;
  }

  /** Each temporal pass formats with `%z` exactly when the type contains "time zone". */
  lemma PassesZone(t: string, k: nat)
    requires k < |TemporalPasses(t, |TemporalNames|)|
    ensures TemporalPasses(t, |TemporalNames|)[k] == ToTime(HasZone(t))
    ensures TemporalPasses(t, |TemporalNames|)[k].zone <==> Contains(t, "time zone")
  {
  }

  /** One temporal pass per temporal name the type contains. */
  lemma TemporalCount(t: string)
    ensures |TemporalPasses(t, |TemporalNames|)|
         == (if Contains(t, "date") then 1 else 0) + (if Contains(t, "time") then 1 else 0)
            + (if Contains(t, "timestamp") then 1 else 0)
  {
    assert TemporalNames[0] == "date" && TemporalNames[1] == "time" && TemporalNames[2] == "timestamp";
    assert |TemporalPasses(t, 1)| == (if Contains(t, "date") then 1 else 0);
    assert |TemporalPasses(t, 2)| == |TemporalPasses(t, 1)| + (if Contains(t, "time") then 1 else 0);
  }

  /** Every type whose name contains "timestamp" also contains "time", so its column
      is parsed and formatted twice, or three times when the name also has "date". */
  lemma TimestampPasses(t: string)
    requires Contains(t, "timestamp")
    ensures var z := ToTime(HasZone(t));
      TemporalPasses(t, |TemporalNames|) == if Contains(t, "date") then [z, z, z] else [z, z]
  {
    assert "time" + "stamp" == "timestamp";
    ContainsPrefixOf(t, "time", "stamp");
    var z := ToTime(HasZone(t));
    assert TemporalNames[0] == "date" && TemporalNames[1] == "time" && TemporalNames[2] == "timestamp";
    assert TemporalPasses(t, 1) == TemporalPasses(t, 0) + (if Contains(t, "date") then [z] else []);
    assert TemporalPasses(t, 2) == TemporalPasses(t, 1) + [z];
    assert TemporalPasses(t, 3) == TemporalPasses(t, 2) + [z];
  }

  /** "time zone" occurs in "timestamp without time zone" too, so such a column is
      formatted with the `%z` format, twice. */
  lemma WithoutTimeZoneFormatsZone()
    ensures var t := "timestamp without time zone";
      var passes := TemporalPasses(t, |TemporalNames|);
      HasZone(t) && |passes| >= 2 && forall k :: 0 <= k < |passes| ==> passes[k] == ToTime(true)
  {
    var t := "timestamp without time zone";
    assert t[18..] == "time zone";
    ContainsAt(t, 18, "time zone");
    assert StartsWith(t, "timestamp");
    TimestampPasses(t);
  }

  lemma {:induction false} ContainsAt(s: string, i: nat, sub: string)
    requires i <= |s| && StartsWith(s[i..], sub)
    ensures Contains(s, sub)
    decreases i
  {
    if i > 0 {
      assert s[1..][i - 1..] == s[i..];
      ContainsAt(s[1..], i - 1, sub);
    }
  }

  /** "interval" and "point" contain "int": such columns go through the numeric step. */
  lemma IntervalAndPointAreNumeric()
    ensures IsNumeric("interval") && IsNumeric("point")
  {
    assert StartsWith("interval", NumericNames[2]);
    assert "point"[2..] == NumericNames[2];
    ContainsAt("point", 2, NumericNames[2]);
  }

  // ---------------------------------------------------------------- conversions

  /** When formatting and parsing round-trip, a second temporal pass changes nothing. */
  lemma TimeTwice(lib: Pandas, zone: bool, c: Cell)
    requires forall m :: lib.parseTime(lib.formatTime(m, zone)) == Some(m)
    ensures TimeCell(lib, zone, TimeCell(lib, zone, c)) == TimeCell(lib, zone, c)
  {
    var once := TimeCell(lib, zone, c);
    if once.Str? {
      var m :| lib.formatTime(m, zone) == once.text;
      assert lib.parseTime(once.text) == Some(m);
    }
  }

  lemma MapColumnTwice(lib: Pandas, sep: string, columns: seq<Column>, name: string, zone: bool)
    requires forall m :: lib.parseTime(lib.formatTime(m, zone)) == Some(m)
    ensures var once := MapColumn(lib, sep, columns, name, ToTime(zone));
      MapColumn(lib, sep, once, name, ToTime(zone)) == once
  {
    var once := MapColumn(lib, sep, columns, name, ToTime(zone));
    var twice := MapColumn(lib, sep, once, name, ToTime(zone));
    forall i | 0 <= i < |columns| ensures twice[i] == once[i] {
      MapColumnCells(lib, sep, columns, name, ToTime(zone), i);
      MapColumnCells(lib, sep, once, name, ToTime(zone), i);
      if columns[i].name == name {
        forall k | 0 <= k < |once[i].cells| ensures twice[i].cells[k] == once[i].cells[k] {
          TimeTwice(lib, zone, columns[i].cells[k]);
        }
      }
    }
  }

  /** When formatting and parsing round-trip, the repeated temporal passes of a type
      amount to a single one. */
  lemma {:induction false} PassesOnce(lib: Pandas, sep: string, columns: seq<Column>, name: string,
                                      steps: seq<Step>, zone: bool)
    requires forall m :: lib.parseTime(lib.formatTime(m, zone)) == Some(m)
    requires |steps| > 0 && forall k :: 0 <= k < |steps| ==> steps[k] == ToTime(zone)
    ensures MapSteps(lib, sep, columns, name, steps) == MapColumn(lib, sep, columns, name, ToTime(zone))
    decreases |steps|
  {
    var once := MapColumn(lib, sep, columns, name, ToTime(zone));
    if |steps| > 1 {
      PassesOnce(lib, sep, once, name, steps[1..], zone);
      MapColumnTwice(lib, sep, columns, name, zone);
    }
  }

  /** With the separator "," (or any one character other than "."), cleaning removes
      exactly the separators. */
  lemma CleanSeparator(sep: char, s: string)
    requires sep != '.'
    ensures CleanNumber([sep], s) == Without(s, sep)
    ensures forall x :: x in CleanNumber([sep], s) <==> x in s && x != sep
  {
    RemoveChar(s, sep);
    WithoutDrops(s, sep);
  }

  /** With the separator ".", the points are removed and then the decimal commas
      become points: no comma is left, and nothing else is dropped. */
  lemma CleanPoint(s: string)
    ensures CleanNumber(".", s) == Substitute(Without(s, '.'), ',', '.')
    ensures ',' !in CleanNumber(".", s)
    ensures |CleanNumber(".", s)| == |Without(s, '.')|
  {
    RemoveChar(s, '.');
    ReplaceChar(Without(s, '.'), ',', '.');
    SubstituteReplaces(Without(s, '.'), ',', '.');
  }

  /** An empty separator leaves the string as it is. */
  lemma CleanNothing(s: string)
    ensures CleanNumber("", s) == s
  {
    InterleaveNothing(s);
  }

  /** The null-like strings of the numeric step parse like a missing value. */
  lemma NumericNullsMissing(lib: Pandas, sep: string, s: string)
    requires s in NumericNulls
    ensures NumberCell(lib, sep, Str(s)) == NumberCell(lib, sep, Missing)
  {
  }

  // ---------------------------------------------------------------- rows and frames

  /** A row cannot fail on `columns`. */
  predicate RowFits(columns: seq<Column>, row: CatalogRow) {
    RowError(columns, row).None?
  }

  /** Same number of columns, same names and same lengths. */
  predicate SameShape(a: seq<Column>, b: seq<Column>) {
    |a| == |b| && forall i :: 0 <= i < |a| ==> a[i].name == b[i].name && |a[i].cells| == |b[i].cells|
  }

  /** A label has a column exactly when it has at least one. */
  lemma NamedHas(columns: seq<Column>, name: string)
    ensures HasColumn(columns, name) <==> |Named(columns, name)| > 0
  {
    if HasColumn(columns, name) {
      var i :| 0 <= i < |columns| && columns[i].name == name;
      assert columns[i] in Named(columns, name);
    }
    if |Named(columns, name)| > 0 {
      assert Named(columns, name)[0] in Named(columns, name);
    }
  }

  /** Frames of the same shape agree on how many columns carry each label. */
  lemma {:induction false} LabelsAgree(a: seq<Column>, b: seq<Column>, name: string)
    requires SameShape(a, b)
    ensures |Named(a, name)| == |Named(b, name)|
    ensures HasColumn(a, name) <==> HasColumn(b, name)
    decreases |a|
  {
    if |a| > 0 {
      assert SameShape(a[1..], b[1..]) by {
        forall i | 0 <= i < |a[1..]| ensures a[1..][i].name == b[1..][i].name {
          assert a[1..][i] == a[i + 1] && b[1..][i] == b[i + 1];
        }
      }
      LabelsAgree(a[1..], b[1..], name);
      assert |Named(a, name)| == (if a[0].name == name then 1 else 0) + |Named(a[1..], name)|;
    }
    NamedHas(a, name);
    NamedHas(b, name);
  }

  /** The conversions of one label leave every label's columns, and so what each step
      and each row raises, as they were. */
  lemma LabelsKept(lib: Pandas, sep: string, columns: seq<Column>, name: string, steps: seq<Step>, n: string)
    ensures |Named(MapSteps(lib, sep, columns, name, steps), n)| == |Named(columns, n)|
    ensures HasColumn(MapSteps(lib, sep, columns, name, steps), n) <==> HasColumn(columns, n)
  {
    SameNames(lib, sep, columns, name, steps);
    LabelsAgree(MapSteps(lib, sep, columns, name, steps), columns, n);
  }

  lemma StepErrorKept(lib: Pandas, sep: string, columns: seq<Column>, name: string, steps: seq<Step>, step: Step)
    ensures StepError(MapSteps(lib, sep, columns, name, steps), name, step) == StepError(columns, name, step)
  {
    LabelsKept(lib, sep, columns, name, steps, name);
  }

  lemma RowKeepsFit(lib: Pandas, sep: string, columns: seq<Column>, name: string, steps: seq<Step>, row: CatalogRow)
    ensures RowError(MapSteps(lib, sep, columns, name, steps), row) == RowError(columns, row)
  {
    LabelsKept(lib, sep, columns, name, steps, row.name);
  }

  /** The first of `steps` that raises on `columns`, reference for `ApplySteps`. */
  function FirstError(columns: seq<Column>, name: string, steps: seq<Step>): Option<Error>
    decreases |steps|
  {
    if |steps| == 0 then None
    else if StepError(columns, name, steps[0]).Some? then StepError(columns, name, steps[0])
    else FirstError(columns, name, steps[1..])
  }

  /** The steps raise the first error any of them raises on the original labels, and
      otherwise convert the frame as `MapSteps` says. */
  lemma {:induction false} ApplyStepsIs(lib: Pandas, sep: string, columns: seq<Column>, name: string,
                                        steps: seq<Step>)
    ensures ApplySteps(lib, sep, columns, name, steps)
         == match FirstError(columns, name, steps)
            case Some(e) => Err(e)
            case None => Ok(MapSteps(lib, sep, columns, name, steps))
    decreases |steps|
  {
    if |steps| > 0 && StepError(columns, name, steps[0]).None? {
      var next := MapColumn(lib, sep, columns, name, steps[0]);
      ApplyStepsIs(lib, sep, next, name, steps[1..]);
      FirstErrorSame(next, columns, name, steps[1..]);
    }
  }

  lemma {:induction false} FirstErrorSame(a: seq<Column>, b: seq<Column>, name: string, steps: seq<Step>)
    requires SameShape(a, b)
    ensures FirstError(a, name, steps) == FirstError(b, name, steps)
    decreases |steps|
  {
    LabelsAgree(a, b, name);
    if |steps| > 0 {
      FirstErrorSame(a, b, name, steps[1..]);
    }
  }

  lemma {:induction false} FirstErrorConcat(columns: seq<Column>, name: string, x: seq<Step>, y: seq<Step>)
    ensures FirstError(columns, name, x + y)
         == if FirstError(columns, name, x).Some? then FirstError(columns, name, x) else FirstError(columns, name, y)
    decreases |x|
  {
    if |x| == 0 {
      assert x + y == y;
    } else {
      assert (x + y)[0] == x[0] && (x + y)[1..] == x[1..] + y;
      FirstErrorConcat(columns, name, x[1..], y);
    }
  }

  /** Repeating one step raises what the step raises once. */
  lemma {:induction false} FirstErrorRepeat(columns: seq<Column>, name: string, steps: seq<Step>, step: Step)
    requires |steps| > 0 && forall k :: 0 <= k < |steps| ==> steps[k] == step
    ensures FirstError(columns, name, steps) == StepError(columns, name, step)
    decreases |steps|
  {
    if |steps| > 1 {
      FirstErrorRepeat(columns, name, steps[1..], step);
    }
  }

  /** The closed form, step group by step group: the text step, then the temporal
      passes, then the numeric step. */
  lemma RowErrorSteps(columns: seq<Column>, row: CatalogRow)
    ensures var t := Lower(row.dataType);
      var passes := TemporalPasses(t, |TemporalNames|);
      RowError(columns, row)
        == if IsText(t) && StepError(columns, row.name, ToText).Some? then StepError(columns, row.name, ToText)
           else if |passes| > 0 && StepError(columns, row.name, ToTime(HasZone(t))).Some?
           then StepError(columns, row.name, ToTime(HasZone(t)))
           else if IsNumeric(t) then StepError(columns, row.name, ToNumber)
           else None
  {
  }

  /** A catalog row raises exactly `RowError`, and otherwise converts its columns by
      all of its steps. */
  lemma ApplyRowIs(lib: Pandas, sep: string, columns: seq<Column>, row: CatalogRow)
    ensures ApplyRow(lib, sep, columns, row)
         == match RowError(columns, row)
            case Some(e) => Err(e)
            case None => Ok(MapSteps(lib, sep, columns, row.name, RowSteps(Lower(row.dataType))))
  {
    var t := Lower(row.dataType);
    var text: seq<Step> := if IsText(t) then [ToText] else [];
    var passes := TemporalPasses(t, |TemporalNames|);
    var numeric: seq<Step> := if IsNumeric(t) then [ToNumber] else [];
    assert RowSteps(t) == text + passes + numeric;
    ApplyStepsIs(lib, sep, columns, row.name, RowSteps(t));
    FirstErrorConcat(columns, row.name, text + passes, numeric);
    FirstErrorConcat(columns, row.name, text, passes);
    if |passes| > 0 {
      FirstErrorRepeat(columns, row.name, passes, ToTime(HasZone(t)));
    }
    RowErrorSteps(columns, row);
  }

  /** The catalog rows convert the frame exactly when every row fits it. */
  lemma {:induction false} ApplyRowsOk(lib: Pandas, sep: string, columns: seq<Column>, rows: seq<CatalogRow>)
    ensures ApplyRows(lib, sep, columns, rows).Ok? <==> forall i :: 0 <= i < |rows| ==> RowFits(columns, rows[i])
    decreases |rows|
  {
    if |rows| > 0 {
      var row := rows[0];
      var steps := RowSteps(Lower(row.dataType));
      ApplyRowIs(lib, sep, columns, row);
      if RowFits(columns, row) {
        var next := MapSteps(lib, sep, columns, row.name, steps);
        assert ApplyRows(lib, sep, columns, rows) == ApplyRows(lib, sep, next, rows[1..]);
        ApplyRowsOk(lib, sep, next, rows[1..]);
        forall i | 1 <= i < |rows| ensures RowFits(next, rows[i]) <==> RowFits(columns, rows[i]) {
          assert rows[1..][i - 1] == rows[i];
          RowKeepsFit(lib, sep, columns, row.name, steps, rows[i]);
        }
      }
    }
  }

  /** When they do not, the error is what the first row that does not fit raises. */
  lemma {:induction false} ApplyRowsFirstError(lib: Pandas, sep: string, columns: seq<Column>,
                                               rows: seq<CatalogRow>)
    requires ApplyRows(lib, sep, columns, rows).Err?
    ensures exists i :: (0 <= i < |rows| && RowError(columns, rows[i]).Some? &&
      ApplyRows(lib, sep, columns, rows).error == RowError(columns, rows[i]).value &&
      forall j :: 0 <= j < i ==> RowFits(columns, rows[j]))
    decreases |rows|
  {
    var row := rows[0];
    var steps := RowSteps(Lower(row.dataType));
    ApplyRowIs(lib, sep, columns, row);
    if RowFits(columns, row) {
      var next := MapSteps(lib, sep, columns, row.name, steps);
      assert ApplyRows(lib, sep, columns, rows) == ApplyRows(lib, sep, next, rows[1..]);
      ApplyRowsFirstError(lib, sep, next, rows[1..]);
      var i :| 0 <= i < |rows[1..]| && RowError(next, rows[1..][i]).Some? &&
        ApplyRows(lib, sep, next, rows[1..]).error == RowError(next, rows[1..][i]).value &&
        forall j :: 0 <= j < i ==> RowFits(next, rows[1..][j]);
      RowKeepsFit(lib, sep, columns, row.name, steps, rows[i + 1]);
      forall j | 0 <= j < i + 1 ensures RowFits(columns, rows[j]) {
        if j > 0 {
          assert RowFits(next, rows[1..][j - 1]);
          RowKeepsFit(lib, sep, columns, row.name, steps, rows[j]);
        }
      }
      assert 0 <= i + 1 < |rows| && RowError(columns, rows[i + 1]).Some?;
    } else {
      assert 0 < |rows| && RowError(columns, rows[0]).Some?;
    }
  }

  /** Converting keeps the shape of the frame. */
  lemma {:induction false} ApplyRowsShape(lib: Pandas, sep: string, columns: seq<Column>, rows: seq<CatalogRow>)
    requires ApplyRows(lib, sep, columns, rows).Ok?
    ensures SameShape(ApplyRows(lib, sep, columns, rows).value, columns)
    decreases |rows|
  {
    if |rows| > 0 {
      var row := rows[0];
      var steps := RowSteps(Lower(row.dataType));
      ApplyRowIs(lib, sep, columns, row);
      var next := ApplyRow(lib, sep, columns, row).value;
      SameNames(lib, sep, columns, row.name, steps);
      assert SameShape(next, columns);
      ApplyRowsShape(lib, sep, next, rows[1..]);
    }
  }

  /** Every listed name has a column in a successful selection. */
  lemma {:induction false} SelectionHas(columns: seq<Column>, names: seq<string>)
    ensures Selection(columns, names).Ok? ==>
      forall n :: n in names ==> HasColumn(Selection(columns, names).value, n)
    decreases |names|
  {
    if |names| > 0 && Selection(columns, names).Ok? {
      SelectionHas(columns, names[1..]);
      var r := Selection(columns, names).value;
      var first := Named(columns, names[0]);
      var rest := Selection(columns, names[1..]).value;
      assert r == first + rest;
      var i :| 0 <= i < |columns| && columns[i].name == names[0];
      assert columns[i] in first;
      forall n | n in names ensures HasColumn(r, n) {
        if n == names[0] {
          assert columns[i] in r;
          Member(r, columns[i]);
        } else {
          assert n in names[1..];
          var k :| 0 <= k < |rest| && rest[k].name == n;
          assert rest[k] in r;
          Member(r, rest[k]);
        }
      }
    }
  }

  /** `r` is made of one block per name of `names`, in list order, block k holding
      exactly the columns of `columns` labelled `names[k]`, in frame order; `starts[k]`
      is where block k begins. */
  predicate Blocks(r: seq<Column>, columns: seq<Column>, names: seq<string>, starts: seq<nat>) {
    |starts| == |names| + 1 && starts[0] == 0 && starts[|names|] == |r| &&
    forall k :: 0 <= k < |names| ==> BlockAt(r, columns, names, starts, k)
  }

  /** Block k of `r`, from `starts[k]` to `starts[k + 1]`, is the columns labelled `names[k]`. */
  predicate BlockAt(r: seq<Column>, columns: seq<Column>, names: seq<string>, starts: seq<nat>, k: nat)
    requires k < |names| && |starts| == |names| + 1
  {
    starts[k] <= starts[k + 1] <= |r| && r[starts[k]..starts[k + 1]] == Named(columns, names[k])
  }

  /** A successful selection is the columns of each listed name, in list order. */
  lemma {:induction false} SelectionBlocks(columns: seq<Column>, names: seq<string>) returns (starts: seq<nat>)
    requires Selection(columns, names).Ok?
    ensures Blocks(Selection(columns, names).value, columns, names, starts)
    decreases |names|
  {
    if |names| == 0 {
      starts := [0];
    } else {
      var rest := Selection(columns, names[1..]).value;
      assert Selection(columns, names).value == Named(columns, names[0]) + rest;
      var tail := SelectionBlocks(columns, names[1..]);
      starts := BlocksCons(Named(columns, names[0]), rest, columns, names, tail);
    }
  }

  /** Putting the block of the first name in front of the blocks of the others. */
  lemma BlocksCons(first: seq<Column>, rest: seq<Column>, columns: seq<Column>, names: seq<string>,
                   tail: seq<nat>) returns (starts: seq<nat>)
    requires |names| > 0 && first == Named(columns, names[0])
    requires Blocks(rest, columns, names[1..], tail)
    ensures Blocks(first + rest, columns, names, starts)
  {
    var r := first + rest;
    starts := [0] + seq(|tail|, i requires 0 <= i < |tail| => tail[i] + |first|);
    forall k | 0 <= k < |names| ensures BlockAt(r, columns, names, starts, k) {
      if k == 0 {
        assert starts[1] == |first|;
        assert r[0..|first|] == first;
      } else {
        assert names[1..][k - 1] == names[k];
        assert starts[k] == tail[k - 1] + |first| && starts[k + 1] == tail[k] + |first|;
        assert BlockAt(rest, columns, names[1..], tail, k - 1);
        BlockAfter(first, rest, tail[k - 1], tail[k], Named(columns, names[k]));
      }
    }
  }

  lemma BlockAfter(a: seq<Column>, b: seq<Column>, i: nat, j: nat, block: seq<Column>)
    requires i <= j <= |b| && b[i..j] == block
    ensures |a| + j <= |a + b| && (a + b)[|a| + i..|a| + j] == block
  {
    SliceAfter(a, b, i, j);
  }

  lemma SliceAfter(a: seq<Column>, b: seq<Column>, i: nat, j: nat)
    requires i <= j <= |b|
    ensures (a + b)[|a| + i..|a| + j] == b[i..j]
  {
  }

  lemma Member(columns: seq<Column>, c: Column)
    requires c in columns
    ensures HasColumn(columns, c.name)
  {
  }

  /** Without `matched_columns`, a converted frame has the columns of the input, in
      order, under their lower-cased names, each with as many cells as before. */
  lemma TransformKeepsShape(lib: Pandas, sep: string, columns: seq<Column>, dbName: Option<string>,
                            metadata: Result<seq<CatalogRow>>)
    requires Transform(lib, sep, columns, false, dbName, metadata).Ok?
    ensures SameShape(Transform(lib, sep, columns, false, dbName, metadata).value, Lowered(columns))
  {
    if dbName.Some? && StartsWith(Lower(dbName.value), "postgre") && |metadata.value| > 0 {
      ApplyRowsShape(lib, sep, Lowered(columns), metadata.value);
    }
  }

  /** With `matched_columns`, the result has the shape of the selection of the catalog's
      names, in catalog order: one block per catalog row holding every column of the frame
      with that (lower-cased) label, and no column the catalog does not list. */
  lemma TransformMatchedNames(lib: Pandas, sep: string, columns: seq<Column>, dbName: Option<string>,
                              rows: seq<CatalogRow>) returns (starts: seq<nat>)
    requires dbName.Some? && StartsWith(Lower(dbName.value), "postgre")
    requires Transform(lib, sep, columns, true, dbName, Ok(rows)).Ok?
    ensures var s := Selection(Lowered(columns), Names(rows));
      s.Ok? && SameShape(Transform(lib, sep, columns, true, dbName, Ok(rows)).value, s.value) &&
      Blocks(s.value, Lowered(columns), Names(rows), starts)
    ensures forall c :: c in Transform(lib, sep, columns, true, dbName, Ok(rows)).value ==> c.name in Names(rows)
  {
    var selected := Selection(Lowered(columns), Names(rows)).value;
    var r := Transform(lib, sep, columns, true, dbName, Ok(rows)).value;
    starts := SelectionBlocks(Lowered(columns), Names(rows));
    if |rows| > 0 {
      ApplyRowsShape(lib, sep, selected, rows);
      var converted := ApplyRows(lib, sep, selected, rows).value;
      forall c | c in r ensures c.name in Names(rows) {
        var i :| 0 <= i < |r| && r[i] == c;
        assert selected[i] in selected;
      }
    }
  }

  /** How often `name` is listed. */
  function Occurrences(names: seq<string>, name: string): nat
    decreases |names|
  {
    if |names| == 0 then 0 else (if names[0] == name then 1 else 0) + Occurrences(names[1..], name)
  }

  lemma {:induction false} NamedConcat(a: seq<Column>, b: seq<Column>, name: string)
    ensures Named(a + b, name) == Named(a, name) + Named(b, name)
    decreases |a|
  {
    if |a| == 0 {
      assert a + b == b;
    } else {
      assert (a + b)[0] == a[0] && (a + b)[1..] == a[1..] + b;
      NamedConcat(a[1..], b, name);
    }
  }

  lemma {:induction false} NamedNamed(columns: seq<Column>, m: string, name: string)
    ensures Named(Named(columns, m), name) == if m == name then Named(columns, name) else []
    decreases |columns|
  {
    if |columns| > 0 {
      var head: seq<Column> := if columns[0].name == m then [columns[0]] else [];
      NamedConcat(head, Named(columns[1..], m), name);
      NamedNamed(columns[1..], m, name);
      assert Named(head, name) == (if columns[0].name == m && m == name then [columns[0]] else []) by {
        if |head| > 0 {
          assert head[1..] == [];
        }
      }
    }
  }

  /** A selection holds the columns of a label once per time the label is listed. */
  lemma {:induction false} SelectionNamed(columns: seq<Column>, names: seq<string>, name: string)
    ensures Selection(columns, names).Ok? ==>
      |Named(Selection(columns, names).value, name)| == Occurrences(names, name) * |Named(columns, name)|
    decreases |names|
  {
    if |names| > 0 && Selection(columns, names).Ok? {
      SelectionNamed(columns, names[1..], name);
      SelectionNamedStep(columns, names, name);
    }
  }

  lemma SelectionNamedStep(columns: seq<Column>, names: seq<string>, name: string)
    requires |names| > 0 && Selection(columns, names).Ok?
    requires |Named(Selection(columns, names[1..]).value, name)| == Occurrences(names[1..], name) * |Named(columns, name)|
    ensures |Named(Selection(columns, names).value, name)| == Occurrences(names, name) * |Named(columns, name)|
  {
    var first := Named(columns, names[0]);
    var rest := Selection(columns, names[1..]).value;
    assert Selection(columns, names).value == first + rest;
    NamedConcat(first, rest, name);
    NamedNamed(columns, names[0], name);
    CopiesSum(|Named(first + rest, name)|, |Named(first, name)|, |Named(rest, name)|,
              Occurrences(names[1..], name), |Named(columns, name)|, names[0] == name, Occurrences(names, name));
  }

  lemma CopiesSum(total: nat, a: nat, b: nat, k: nat, n: nat, hit: bool, count: nat)
    requires total == a + b && b == k * n && a == (if hit then n else 0) && count == (if hit then 1 else 0) + k
    ensures total == count * n
  {
    if hit {
      MoreCopies(k, n);
    }
  }

  lemma MoreCopies(k: nat, n: nat)
    ensures (k + 1) * n == k * n + n
  {
  }

  /** On a catalog row's label, the selection has two columns or more exactly when the
      frame does or the catalog lists the label twice. */
  lemma SelectionDuplicates(columns: seq<Column>, names: seq<string>, name: string)
    requires Selection(columns, names).Ok? && HasColumn(columns, name) && name in names
    ensures Duplicated(Selection(columns, names).value, name)
        <==> Duplicated(columns, name) || Occurrences(names, name) > 1
  {
    SelectionNamed(columns, names, name);
    NamedHas(columns, name);
    OccurrencesIn(names, name);
    CopiesMany(Occurrences(names, name), |Named(columns, name)|);
  }

  /** `k` copies of `n` columns, both at least one, are more than one column exactly
      when one of them is more than one. */
  lemma CopiesMany(k: nat, n: nat)
    requires k > 0 && n > 0
    ensures k * n > 1 <==> k > 1 || n > 1
  {
    if k > 1 {
      MoreCopies(k - 1, n);
    } else {
      assert k * n == n;
    }
  }

  lemma {:induction false} OccurrencesIn(names: seq<string>, name: string)
    ensures name in names <==> Occurrences(names, name) > 0
    decreases |names|
  {
    if |names| > 0 {
      OccurrencesIn(names[1..], name);
      assert names == [names[0]] + names[1..];
    }
  }

  /** The errors `transform_dataframe` raises: AttributeError for a missing `DB_NAME`,
      the catalog query's own error, the KeyError of a catalog column the frame lacks
      (when selecting `matched_columns`, or a row that needs its column), or, for a
      catalog row whose label names two columns or more of the converted frame,
      ValueError when it has a temporal pass and AttributeError when it has only the
      numeric step. */
  lemma TransformErrors(lib: Pandas, sep: string, columns: seq<Column>, matched: bool, dbName: Option<string>,
                        metadata: Result<seq<CatalogRow>>)
    requires Transform(lib, sep, columns, matched, dbName, metadata).Err?
    ensures var e := Transform(lib, sep, columns, matched, dbName, metadata).error;
      (dbName.None? && e == AttributeError) ||
      (dbName.Some? && metadata.Err? && e == metadata.error) ||
      (dbName.Some? && metadata.Ok? && e.KeyError? && e.key in Names(metadata.value) &&
       !HasColumn(Lowered(columns), e.key)) ||
      (dbName.Some? && metadata.Ok? && (e == ValueError || e == AttributeError) &&
       exists i :: 0 <= i < |metadata.value| && DuplicateError(columns, matched, metadata.value, i, e))
  {
    if dbName.Some? && metadata.Ok? {
      var s := Selected(columns, matched, metadata.value);
      if s.Ok? && ApplyRows(lib, sep, s.value, metadata.value).Err? {
        RowsErrors(lib, sep, columns, matched, metadata.value, s.value);
      }
    }
  }

  /** The errors of the rows loop on the converted frame. */
  lemma RowsErrors(lib: Pandas, sep: string, columns: seq<Column>, matched: bool, rows: seq<CatalogRow>,
                   selected: seq<Column>)
    requires Selected(columns, matched, rows) == Ok(selected) && ApplyRows(lib, sep, selected, rows).Err?
    ensures var e := ApplyRows(lib, sep, selected, rows).error;
      (e.KeyError? && e.key in Names(rows) && !HasColumn(Lowered(columns), e.key)) ||
      ((e == ValueError || e == AttributeError) &&
       exists i :: 0 <= i < |rows| && DuplicateError(columns, matched, rows, i, e))
  {
    ApplyRowsFirstError(lib, sep, selected, rows);
    var i :| 0 <= i < |rows| && RowError(selected, rows[i]).Some? &&
      ApplyRows(lib, sep, selected, rows).error == RowError(selected, rows[i]).value;
    var e := RowError(selected, rows[i]).value;
    if e.KeyError? {
      KeyErrorFrom(columns, matched, rows, i, selected);
    } else {
      DuplicateErrorFrom(columns, matched, rows, i, selected);
      assert DuplicateError(columns, matched, rows, i, e);
    }
  }

  /** A row's KeyError names a catalog column the lower-cased frame lacks: with
      `matched_columns` the selection would already have raised it. */
  lemma KeyErrorFrom(columns: seq<Column>, matched: bool, rows: seq<CatalogRow>, i: nat, selected: seq<Column>)
    requires i < |rows| && Selected(columns, matched, rows) == Ok(selected)
    ensures var r := RowError(selected, rows[i]);
      r.Some? && r.value.KeyError? ==> r.value.key in Names(rows) && !HasColumn(Lowered(columns), r.value.key)
  {
    SelectionHas(Lowered(columns), Names(rows));
    assert Names(rows)[i] == rows[i].name;
  }

  /** Row `i` raises `e` on a label that names two columns or more of the converted
      frame: the frame has two, or the catalog lists the label twice and
      `matched_columns` selects its columns once per listing. ValueError comes from a
      temporal pass, AttributeError from the numeric step alone. */
  predicate DuplicateError(columns: seq<Column>, matched: bool, rows: seq<CatalogRow>, i: nat, e: Error)
    requires i < |rows|
  {
    var name := rows[i].name;
    var t := Lower(rows[i].dataType);
    HasColumn(Lowered(columns), name) &&
    (Duplicated(Lowered(columns), name) || (matched && Occurrences(Names(rows), name) > 1)) &&
    (e == ValueError <==> |TemporalPasses(t, |TemporalNames|)| > 0) &&
    (e == AttributeError <==> |TemporalPasses(t, |TemporalNames|)| == 0 && IsNumeric(t))
  }

  lemma DuplicateErrorFrom(columns: seq<Column>, matched: bool, rows: seq<CatalogRow>, i: nat,
                           selected: seq<Column>)
    requires i < |rows| && Selected(columns, matched, rows) == Ok(selected)
    ensures var r := RowError(selected, rows[i]);
      r.Some? && !r.value.KeyError? ==> DuplicateError(columns, matched, rows, i, r.value)
  {
    var name := rows[i].name;
    var r := RowError(selected, rows[i]);
    if r.Some? && !r.value.KeyError? {
      assert Names(rows)[i] == name;
      NamedHas(selected, name);
      if matched {
        var c := Named(selected, name)[0];
        assert c in Named(selected, name);
        Member(Lowered(columns), c);
        SelectionDuplicates(Lowered(columns), Names(rows), name);
      }
    }
  }
}
