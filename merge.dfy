/** What `INSERT ... ON CONFLICT` leaves in the target table, row by row: which staged
    row, if any, a target row ends up carrying, and why loading the same rows a second
    time changes nothing. */
module Merging {
  import opened Wrappers
  import opened Statements
  import opened Postgres

  /** What ON CONFLICT does with one proposed row: insert it when nothing conflicts,
      otherwise skip it or overwrite the first conflicting row. */
  function MergeStep(rows: seq<Record>, s: Record, keys: seq<string>, action: Action): seq<Record> {
    match FirstConflict(rows, s, keys)
    case None => rows + [s]
    case Some(i) => if action.DoNothing? then rows else rows[i := Overwrite(rows[i], s, action.assign)]
  }

  /** Two records agree on every key column. */
  predicate SameKeys(a: Record, b: Record, keys: seq<string>) {
    forall c :: c in keys ==> Get(a, c) == Get(b, c)
  }

  /** `b` starts with rows that carry the keys of the rows of `a`, position by position. */
  predicate KeyPrefix(a: seq<Record>, b: seq<Record>, keys: seq<string>) {
    |a| <= |b| && forall i :: 0 <= i < |a| ==> SameKeys(a[i], b[i], keys)
  }

  /** The SET list names no key column. */
  predicate KeepsKeys(action: Action, keys: seq<string>) {
    action.DoUpdate? ==> forall c :: c in action.assign ==> c !in keys
  }

  /** Every staged row has a non-null value in every key column. */
  predicate NonNullKeys(staged: seq<Record>, keys: seq<string>) {
    forall s, c :: s in staged && c in keys ==> Get(s, c).Text?
  }

  /** Every staged row has an entry for every SET column. */
  predicate Filled(staged: seq<Record>, assign: seq<string>) {
    forall s, c :: s in staged && c in assign ==> c in s
  }

  /** Every staged row conflicts with some row of `rows`. */
  predicate Covered(rows: seq<Record>, staged: seq<Record>, keys: seq<string>) {
    forall s :: s in staged ==> FirstConflict(rows, s, keys).Some?
  }

  /** The last staged row whose first conflict in `rows` is row `i`: the row whose
      values DO UPDATE leaves in row `i`. */
  function LastWriter(rows: seq<Record>, staged: seq<Record>, keys: seq<string>, i: nat): Option<Record>
    decreases |staged|
  {
    if |staged| == 0 then None
    else match LastWriter(rows, staged[1..], keys, i)
      case Some(s) => Some(s)
      case None => if FirstConflict(rows, staged[0], keys) == Some(i) then Some(staged[0]) else None
  }

  /** Row `i` of `rows` once its last writer, if any, has overwritten the SET columns. */
  function Updated(rows: seq<Record>, staged: seq<Record>, keys: seq<string>, assign: seq<string>, i: nat): Record
    requires i < |rows|
  {
    match LastWriter(rows, staged, keys, i)
    case None => rows[i]
    case Some(s) => Overwrite(rows[i], s, assign)
  }

  // ---------------------------------------------------------------- records and keys

  /** `Overwrite` written out as one map: the SET columns take the proposed values, the
      others keep their own. */
  lemma {:induction false} OverwriteIs(existing: Record, proposed: Record, assign: seq<string>)
    ensures Overwrite(existing, proposed, assign) ==
      map c | c in existing.Keys + (set a | a in assign) :: if c in assign then Get(proposed, c) else existing[c]
    decreases |assign|
  {
    if |assign| > 0 {
      var next := existing[assign[0] := Get(proposed, assign[0])];
      OverwriteIs(next, proposed, assign[1..]);
      assert forall a :: a in assign <==> a == assign[0] || a in assign[1..];
    }
  }

  /** A later overwrite of the same columns replaces an earlier one. */
  lemma OverwriteTwice(existing: Record, p: Record, q: Record, assign: seq<string>)
    ensures Overwrite(Overwrite(existing, p, assign), q, assign) == Overwrite(existing, q, assign)
  {
    OverwriteIs(existing, p, assign);
    OverwriteIs(Overwrite(existing, p, assign), q, assign);
    OverwriteIs(existing, q, assign);
  }

  /** A row already holding the proposed values in every SET column is unchanged. */
  lemma OverwriteSelf(proposed: Record, assign: seq<string>)
    requires forall c :: c in assign ==> c in proposed
    ensures Overwrite(proposed, proposed, assign) == proposed
  {
    OverwriteIs(proposed, proposed, assign);
  }

  lemma OverwriteKeepsKeys(existing: Record, proposed: Record, assign: seq<string>, keys: seq<string>)
    requires forall c :: c in assign ==> c !in keys
    ensures SameKeys(existing, Overwrite(existing, proposed, assign), keys)
  {
    forall c | c in keys ensures Get(existing, c) == Get(Overwrite(existing, proposed, assign), c) {
      OverwriteSets(existing, proposed, assign, c);
    }
  }

  /** Whether a row conflicts depends on its key columns only. */
  lemma MatchesSameKeys(a: Record, b: Record, s: Record, keys: seq<string>)
    requires SameKeys(a, b, keys)
    ensures Matches(a, s, keys) <==> Matches(b, s, keys)
  {
  }

  /** Conflicting is symmetric and transitive: it is equality of non-null keys. */
  lemma MatchesChain(a: Record, b: Record, c: Record, keys: seq<string>)
    ensures Matches(a, b, keys) && Matches(c, b, keys) ==> Matches(a, c, keys)
  {
  }

  lemma MatchesSelf(s: Record, keys: seq<string>)
    requires forall c :: c in keys ==> Get(s, c).Text?
    ensures Matches(s, s, keys)
  {
  }

  /** `FirstConflict` finds the first conflicting row. */
  lemma {:induction false} FirstConflictIs(rows: seq<Record>, s: Record, keys: seq<string>, k: nat)
    ensures FirstConflict(rows, s, keys) == Some(k) <==>
      k < |rows| && Matches(rows[k], s, keys) && forall j :: 0 <= j < k ==> !Matches(rows[j], s, keys)
    decreases |rows|
  {
    if |rows| > 0 && !Matches(rows[0], s, keys) && k > 0 {
      FirstConflictIs(rows[1..], s, keys, k - 1);
      assert forall j :: 0 < j < |rows| ==> rows[1..][j - 1] == rows[j];
    }
  }

  /** Below the length of `a`, the first conflict with `s` is the same in `a` and in
      a table that carries `a`'s keys first. */
  lemma FirstConflictBelow(a: seq<Record>, b: seq<Record>, s: Record, keys: seq<string>, i: nat)
    requires KeyPrefix(a, b, keys) && i < |a|
    ensures FirstConflict(a, s, keys) == Some(i) <==> FirstConflict(b, s, keys) == Some(i)
  {
    FirstConflictIs(a, s, keys, i);
    FirstConflictIs(b, s, keys, i);
    forall j | 0 <= j <= i ensures Matches(a[j], s, keys) <==> Matches(b[j], s, keys) {
      MatchesSameKeys(a[j], b[j], s, keys);
    }
  }

  lemma FirstConflictKept(a: seq<Record>, b: seq<Record>, s: Record, keys: seq<string>)
    requires KeyPrefix(a, b, keys) && FirstConflict(a, s, keys).Some?
    ensures FirstConflict(b, s, keys) == FirstConflict(a, s, keys)
  {
    FirstConflictBelow(a, b, s, keys, FirstConflict(a, s, keys).value);
  }

  lemma KeyPrefixChain(a: seq<Record>, b: seq<Record>, c: seq<Record>, keys: seq<string>)
    requires KeyPrefix(a, b, keys) && KeyPrefix(b, c, keys)
    ensures KeyPrefix(a, c, keys)
  {
  }

  // ---------------------------------------------------------------- one row at a time

  lemma MergeUnfold(rows: seq<Record>, staged: seq<Record>, keys: seq<string>, action: Action)
    requires |staged| > 0
    ensures Merge(rows, staged, keys, action).rows == Merge(MergeStep(rows, staged[0], keys, action), staged[1..], keys, action).rows
  {
  }

  /** Merging two runs of rows is merging the first, then the second. */
  lemma {:induction false} MergeAppend(rows: seq<Record>, a: seq<Record>, b: seq<Record>, keys: seq<string>, action: Action)
    ensures Merge(rows, a + b, keys, action).rows == Merge(Merge(rows, a, keys, action).rows, b, keys, action).rows
    decreases |a|
  {
    if |a| == 0 {
      assert a + b == b;
    } else {
      assert (a + b)[0] == a[0] && (a + b)[1..] == a[1..] + b;
      MergeUnfold(rows, a + b, keys, action);
      MergeUnfold(rows, a, keys, action);
      MergeAppend(MergeStep(rows, a[0], keys, action), a[1..], b, keys, action);
    }
  }

  /** One step keeps every row's keys in place and only appends. */
  lemma StepKeyPrefix(rows: seq<Record>, s: Record, keys: seq<string>, action: Action)
    requires KeepsKeys(action, keys)
    ensures KeyPrefix(rows, MergeStep(rows, s, keys, action), keys)
  {
    match FirstConflict(rows, s, keys)
    case None =>
    case Some(i) =>
      if action.DoUpdate? {
        OverwriteKeepsKeys(rows[i], s, action.assign, keys);
      }
  }

  /** A merge never changes a key and never removes a row. */
  lemma {:induction false} MergeKeyPrefix(rows: seq<Record>, staged: seq<Record>, keys: seq<string>, action: Action)
    requires KeepsKeys(action, keys)
    ensures KeyPrefix(rows, Merge(rows, staged, keys, action).rows, keys)
    decreases |staged|
  {
    if |staged| > 0 {
      var next := MergeStep(rows, staged[0], keys, action);
      StepKeyPrefix(rows, staged[0], keys, action);
      MergeUnfold(rows, staged, keys, action);
      MergeKeyPrefix(next, staged[1..], keys, action);
      KeyPrefixChain(rows, next, Merge(next, staged[1..], keys, action).rows, keys);
    }
  }

  /** Below the length of `a`, the last writers are the same in `a` and in a table
      that carries `a`'s keys first. */
  lemma {:induction false} LastWriterBelow(a: seq<Record>, b: seq<Record>, staged: seq<Record>, keys: seq<string>, i: nat)
    requires KeyPrefix(a, b, keys) && i < |a|
    ensures LastWriter(a, staged, keys, i) == LastWriter(b, staged, keys, i)
    decreases |staged|
  {
    if |staged| > 0 {
      LastWriterBelow(a, b, staged[1..], keys, i);
      FirstConflictBelow(a, b, staged[0], keys, i);
    }
  }

  /** A row has no last writer exactly when no staged row conflicts first with it. */
  lemma {:induction false} LastWriterNone(rows: seq<Record>, staged: seq<Record>, keys: seq<string>, i: nat)
    ensures LastWriter(rows, staged, keys, i).None? <==>
      forall k :: 0 <= k < |staged| ==> FirstConflict(rows, staged[k], keys) != Some(i)
    decreases |staged|
  {
    if |staged| > 0 {
      LastWriterNone(rows, staged[1..], keys, i);
      assert forall k :: 0 < k < |staged| ==> staged[1..][k - 1] == staged[k];
    }
  }

  /** The last writer is the last staged row whose first conflict is row `i`. */
  lemma {:induction false} LastWriterSome(rows: seq<Record>, staged: seq<Record>, keys: seq<string>, i: nat, j: nat)
    requires j < |staged| && FirstConflict(rows, staged[j], keys) == Some(i)
    requires forall k :: j < k < |staged| ==> FirstConflict(rows, staged[k], keys) != Some(i)
    ensures LastWriter(rows, staged, keys, i) == Some(staged[j])
    decreases |staged|
  {
    if j > 0 {
      assert forall k :: j - 1 < k < |staged| - 1 ==> staged[1..][k] == staged[k + 1];
      LastWriterSome(rows, staged[1..], keys, i, j - 1);
    } else {
      LastWriterNone(rows, staged[1..], keys, i);
      assert forall k :: 0 <= k < |staged| - 1 ==> staged[1..][k] == staged[k + 1];
    }
  }

  /** DO UPDATE leaves every row of the original target with its SET columns taken
      from its last writer, if it has one, and as it was otherwise. */
  lemma {:induction false} MergeOnTarget(rows: seq<Record>, staged: seq<Record>, keys: seq<string>,
                                         assign: seq<string>, i: nat)
    requires forall c :: c in assign ==> c !in keys
    requires i < |rows|
    ensures var m := Merge(rows, staged, keys, DoUpdate(assign)).rows;
      i < |m| && m[i] == Updated(rows, staged, keys, assign, i)
    decreases |staged|
  {
    var action := DoUpdate(assign);
    MergeKeyPrefix(rows, staged, keys, action);
    if |staged| > 0 {
      var next := MergeStep(rows, staged[0], keys, action);
      StepKeyPrefix(rows, staged[0], keys, action);
      MergeUnfold(rows, staged, keys, action);
      MergeOnTarget(next, staged[1..], keys, assign, i);
      LastWriterBelow(rows, next, staged[1..], keys, i);
      match LastWriter(rows, staged[1..], keys, i)
      case Some(w) =>
        if FirstConflict(rows, staged[0], keys) == Some(i) {
          OverwriteTwice(rows[i], staged[0], w, assign);
        }
      case None =>
    }
  }

  /** A merge into a table that already holds a conflicting row for every staged row
      adds no row. */
  lemma {:induction false} CoveredLength(rows: seq<Record>, staged: seq<Record>, keys: seq<string>, action: Action)
    requires KeepsKeys(action, keys) && Covered(rows, staged, keys)
    ensures |Merge(rows, staged, keys, action).rows| == |rows|
    decreases |staged|
  {
    if |staged| > 0 {
      var next := MergeStep(rows, staged[0], keys, action);
      assert staged[0] in staged;
      StepKeyPrefix(rows, staged[0], keys, action);
      MergeUnfold(rows, staged, keys, action);
      forall s | s in staged[1..] ensures FirstConflict(next, s, keys).Some? {
        assert s in staged;
        FirstConflictKept(rows, next, s, keys);
      }
      CoveredLength(next, staged[1..], keys, action);
    }
  }

  /** DO NOTHING skips every staged row that already has a conflicting row. */
  lemma {:induction false} CoveredSkips(rows: seq<Record>, staged: seq<Record>, keys: seq<string>)
    requires Covered(rows, staged, keys)
    ensures Merge(rows, staged, keys, DoNothing).rows == rows
    decreases |staged|
  {
    if |staged| > 0 {
      assert staged[0] in staged;
      MergeUnfold(rows, staged, keys, DoNothing);
      CoveredSkips(rows, staged[1..], keys);
    }
  }

  // ---------------------------------------------------------------- after a merge

  /** After one step the proposed row conflicts first with the row it was merged into,
      or with itself when it was inserted. */
  lemma StepConflicts(rows: seq<Record>, s: Record, keys: seq<string>, action: Action)
    requires KeepsKeys(action, keys)
    requires forall c :: c in keys ==> Get(s, c).Text?
    ensures FirstConflict(MergeStep(rows, s, keys, action), s, keys) ==
      if FirstConflict(rows, s, keys).None? then Some(|rows|) else FirstConflict(rows, s, keys)
  {
    var next := MergeStep(rows, s, keys, action);
    match FirstConflict(rows, s, keys)
    case None =>
      MatchesSelf(s, keys);
      FirstConflictIs(next, s, keys, |rows|);
    case Some(i) =>
      StepKeyPrefix(rows, s, keys, action);
      FirstConflictKept(rows, next, s, keys);
  }

  /** After one DO UPDATE step the row the proposed row conflicts with already carries
      its values in the SET columns. */
  lemma StepSettles(rows: seq<Record>, s: Record, keys: seq<string>, assign: seq<string>)
    requires forall c :: c in assign ==> c !in keys
    requires forall c :: c in keys ==> Get(s, c).Text?
    requires forall c :: c in assign ==> c in s
    ensures var next := MergeStep(rows, s, keys, DoUpdate(assign));
      var k := FirstConflict(next, s, keys);
      k.Some? && k.value < |next| && Overwrite(next[k.value], s, assign) == next[k.value]
  {
    StepConflicts(rows, s, keys, DoUpdate(assign));
    match FirstConflict(rows, s, keys)
    case None =>
      OverwriteSelf(s, assign);
    case Some(i) =>
      OverwriteTwice(rows[i], s, s, assign);
  }

  /** After a merge every staged row has a conflicting row, provided no key is NULL. */
  lemma {:induction false} MergeCovers(rows: seq<Record>, staged: seq<Record>, keys: seq<string>, action: Action)
    requires KeepsKeys(action, keys) && NonNullKeys(staged, keys)
    ensures Covered(Merge(rows, staged, keys, action).rows, staged, keys)
    decreases |staged|
  {
    if |staged| > 0 {
      var next := MergeStep(rows, staged[0], keys, action);
      var m := Merge(next, staged[1..], keys, action).rows;
      assert staged[0] in staged;
      MergeUnfold(rows, staged, keys, action);
      assert forall s :: s in staged[1..] ==> s in staged;
      MergeCovers(next, staged[1..], keys, action);
      StepConflicts(rows, staged[0], keys, action);
      MergeKeyPrefix(next, staged[1..], keys, action);
      FirstConflictKept(next, m, staged[0], keys);
    }
  }

  /** After a DO UPDATE merge every row is settled: overwriting it with its last
      writer changes nothing. */
  lemma {:induction false} MergeSettles(rows: seq<Record>, staged: seq<Record>, keys: seq<string>,
                                        assign: seq<string>, i: nat)
    requires forall c :: c in assign ==> c !in keys
    requires NonNullKeys(staged, keys) && Filled(staged, assign)
    requires i < |Merge(rows, staged, keys, DoUpdate(assign)).rows|
    ensures var m := Merge(rows, staged, keys, DoUpdate(assign)).rows;
      Updated(m, staged, keys, assign, i) == m[i]
    decreases |staged|
  {
    if |staged| > 0 {
      var action := DoUpdate(assign);
      var s0 := staged[0];
      var next := MergeStep(rows, s0, keys, action);
      var m := Merge(next, staged[1..], keys, action).rows;
      MergeUnfold(rows, staged, keys, action);
      assert s0 in staged;
      assert forall s :: s in staged[1..] ==> s in staged;
      MergeSettles(next, staged[1..], keys, assign, i);
      if LastWriter(m, staged[1..], keys, i).None? && FirstConflict(m, s0, keys) == Some(i) {
        StepSettles(rows, s0, keys, assign);
        MergeKeyPrefix(next, staged[1..], keys, action);
        FirstConflictKept(next, m, s0, keys);
        MergeOnTarget(next, staged[1..], keys, assign, i);
        LastWriterBelow(next, m, staged[1..], keys, i);
      }
    }
  }

  /** Merging the same rows a second time changes nothing, provided no staged key is
      NULL and every staged row has a value for every SET column. */
  lemma MergeIdempotent(rows: seq<Record>, staged: seq<Record>, keys: seq<string>, action: Action)
    requires KeepsKeys(action, keys) && NonNullKeys(staged, keys)
    requires action.DoUpdate? ==> Filled(staged, action.assign)
    ensures var m := Merge(rows, staged, keys, action).rows;
      Merge(m, staged, keys, action).rows == m
  {
    var m := Merge(rows, staged, keys, action).rows;
    MergeCovers(rows, staged, keys, action);
    if action.DoNothing? {
      CoveredSkips(m, staged, keys);
    } else {
      var again := Merge(m, staged, keys, action).rows;
      CoveredLength(m, staged, keys, action);
      forall i | 0 <= i < |m| ensures again[i] == m[i] {
        MergeOnTarget(m, staged, keys, action.assign, i);
        MergeSettles(rows, staged, keys, action.assign, i);
      }
    }
  }

  // ---------------------------------------------------------------- the keyed path's SET list

  /** With DO UPDATE SET on the non-key columns and no two rows of either table sharing
      a key, a target row that conflicts with a staged row ends with that row's value in
      every SET column and keeps its own value in every other column. */
  lemma DoUpdateOverwrites(rows: seq<Record>, staged: seq<Record>, keys: seq<string>, columns: seq<string>,
                           i: nat, j: nat)
    requires KeysDistinct(rows, keys) && KeysDistinct(staged, keys)
    requires i < |rows| && j < |staged| && Matches(rows[i], staged[j], keys)
    ensures var m := Merge(rows, staged, keys, DoUpdate(NonKey(columns, keys))).rows;
      i < |m| && forall c :: Get(m[i], c) == if c in NonKey(columns, keys) then Get(staged[j], c) else Get(rows[i], c)
  {
    var assign := NonKey(columns, keys);
    NonKeyMembers(columns, keys);
    FirstConflictIs(rows, staged[j], keys, i);
    forall k | 0 <= k < i ensures !Matches(rows[k], staged[j], keys) {
      MatchesChain(rows[k], staged[j], rows[i], keys);
    }
    forall k | j < k < |staged| ensures FirstConflict(rows, staged[k], keys) != Some(i) {
      MatchesChain(staged[j], rows[i], staged[k], keys);
    }
    LastWriterSome(rows, staged, keys, i, j);
    MergeOnTarget(rows, staged, keys, assign, i);
    var m := Merge(rows, staged, keys, DoUpdate(assign)).rows;
    forall c ensures Get(m[i], c) == if c in assign then Get(staged[j], c) else Get(rows[i], c) {
      OverwriteSets(rows[i], staged[j], assign, c);
    }
  }

  /** A target row that conflicts with no staged row is left as it was. */
  lemma DoUpdateKeepsUnmatched(rows: seq<Record>, staged: seq<Record>, keys: seq<string>, columns: seq<string>, i: nat)
    requires i < |rows| && forall j :: 0 <= j < |staged| ==> !Matches(rows[i], staged[j], keys)
    ensures var m := Merge(rows, staged, keys, DoUpdate(NonKey(columns, keys))).rows;
      i < |m| && m[i] == rows[i]
  {
    NonKeyMembers(columns, keys);
    LastWriterNone(rows, staged, keys, i);
    MergeOnTarget(rows, staged, keys, NonKey(columns, keys), i);
  }
}
