# Bulk loading into PostgreSQL, verified

This project models the loading engine of `app/backend/helpers/postgres_helper.py`.
It covers four functions:

- `__insert_list` appends a nested list to a table with `COPY`, in batches.
- `upsert_dataframe` copies each batch into a staging table `tmp_<table>`, upserts it
  into the target with `INSERT ... ON CONFLICT (keys) DO UPDATE SET ... | DO NOTHING`,
  then truncates the staging table.
- `insert_dataframe` copies every batch into the staging table. It then deletes the
  target rows that match a staged row on the given columns, and inserts the staged rows.
- `transform_dataframe` converts a frame's columns before loading. Which conversions a
  column gets depends on substring tests on the catalog's `data_type`.

The database is abstract (module `Postgres`):

- Relations hold records.
- Each statement either does what the model says PostgreSQL does with it or fails. A
  `Server` value decides which, and the predicate `Standard` states those guarantees.
  Column DEFAULTs are not among them (see "## Left out").
- A `Database` holds the committed state and an event log. The log lists connections,
  cursors, statements with their text, commits, rollbacks and closes.
- A `Connection` holds a session: its working state and its last committed snapshot.

Each helper is a method over these objects. Each method is proved equal to a function
(`InsertListRun`, `UpsertRun`, `InsertFrameRun`). The function gives the result or
exception, the event log after the call, the committed state, and the session left
behind. The properties are lemmas about those functions:

- how the batches partition the data;
- which statements are sent, in order;
- the transaction rule (who connects, commits, rolls back and closes);
- how the target table's contents change;
- which errors escape.

`transform_dataframe` is modelled as a `DataFrame` class whose column list the methods
reassign, as the source reassigns `transformDF[columnName]`. Its loops are proved
against pure functions on the columns (`ApplyRow`, `ApplyRows`, `Transform`). Cells are
`Missing`, strings or numbers. The pandas parsers and formatters are left open as a
`Pandas` value.

Files: `wrappers.dfy` (exceptions, results), `text.dfy` (the Python string operations
used), `statements.dfy` (SQL text), `batching.dfy` (`range`/slicing), `postgres.dfy`
(the database), `merge.dfy` (what `ON CONFLICT` leaves in the target), `helper.dfy` (the three loaders), `helper_props.dfy` (their
properties), `coercion.dfy` (`transform_dataframe`).

Behaviour of the code that the model keeps:

- A step of 0 raises ValueError, because `range` rejects it. A negative step gives no
  batch at all.
- In `upsert_dataframe` and `insert_dataframe`, the `CREATE TEMPORARY TABLE` runs
  outside every `try`. A failed CREATE therefore raises without a rollback and leaves
  the connection open. So does the ValueError of a zero step in `upsert_dataframe`.
- When the DELETE or the INSERT of `insert_dataframe` fails, it rolls back and closes
  the connection but not the cursor. It re-raises the error as `Exception(e)`.
- `insert_dataframe` returns `changes`, which is never incremented. The result is 0
  for every non-empty frame, and None for an empty one.
- The temporal loop of `transform_dataframe` has no `break`. A `timestamp` type matches
  both "time" and "timestamp", and its column is parsed and formatted twice.
- "time zone" also occurs in "timestamp without time zone".
- A loaded row with a NULL key conflicts with nothing, so DO UPDATE and DO NOTHING both
  insert it again on every run. Re-running a keyed upsert is idempotent only when every
  loaded row has a value in every key column.
- A label on two or more columns makes `transformDF[columnName]` a DataFrame. Two
  frame columns whose names differ only in case share one label after lowering. A text
  type still stringifies such columns. A temporal type raises ValueError, because
  `pd.to_datetime` cannot assemble duplicate keys, and a numeric type without a
  temporal pass raises AttributeError, because a DataFrame has no `.str`.
- The numeric loop stops at its first match. Any type containing "int" is numeric,
  including `interval` and `point`.

## Model

| member | source | states |
|---|---|---|
| Statements.StagingName | app/backend/helpers/postgres_helper.py:230 | the staging table is `tmp_` followed by the table name |
| Statements.ColumnStringLists | app/backend/helpers/postgres_helper.py:88-91 | the column string is empty exactly when `columns` is None or empty; otherwise it is parenthesised, and splitting its inside at commas gives back the columns in order (when no name contains a comma) |
| Statements.BuildExcludes | app/backend/helpers/postgres_helper.py:217-221 | the `excludes` loop yields one `col = EXCLUDED.col` per non-key column, in column order |
| Statements.NonKeyMembers | app/backend/helpers/postgres_helper.py:218-219 | a column is overwritten on conflict exactly when it is a column and not a key column |
| Statements.NonKeyAppend | app/backend/helpers/postgres_helper.py:218-221 | the non-key filter distributes over concatenation, so it keeps column order |
| Statements.NonKeyWithoutKeys | app/backend/helpers/postgres_helper.py:218-221 | with no key among the columns, every column is in the SET list |
| Statements.AllKeysLeaveEmptySet | app/backend/helpers/postgres_helper.py:216-223 | when every column is a key, the SET list is empty and the action is `DO UPDATE SET` followed by nothing |
| Statements.BuildConditions | app/backend/helpers/postgres_helper.py:318-321 | the `conditions` loop yields one `a.col = b.col` per supplied column, in order |
| Batching.Partition | app/backend/helpers/postgres_helper.py:94-95 | for a positive step the batches put together give the data back; batch k is the slice starting at k*batch; no batch is empty, none is longer than the step, only the last may be shorter |
| Batching.Covers | app/backend/helpers/postgres_helper.py:94-95 | there is a batch exactly when the data is non-empty, and the batches flatten to the data |
| Batching.FlattenFrom | app/backend/helpers/postgres_helper.py:94-95 | the batches from offset i flatten to `data[i:]` |
| Batching.BatchFromAt | app/backend/helpers/postgres_helper.py:94-95 | the k-th batch from offset i is `data[i+k*batch : i+(k+1)*batch]` |
| Batching.BatchesNonEmpty | app/backend/helpers/postgres_helper.py:94-95 | every batch holds at least one row |
| Postgres.NoTemporaryOnConnect | app/backend/helpers/postgres_helper.py:227-233 | a new session has no temporary table (what a CREATE that succeeds then does is stated by StagingCreated) |
| Postgres.StagingCreated | app/backend/helpers/postgres_helper.py:232-233 | a successful CREATE makes an empty staging table with the target's columns and changes nothing else |
| Postgres.CopyAppends | app/backend/helpers/postgres_helper.py:100-102 | a successful COPY appends one record per row, in order, and reports the number of rows; a column outside the column list reads as NULL, as no DEFAULT is modelled |
| Postgres.UpsertMerges | app/backend/helpers/postgres_helper.py:235-240 | a successful upsert merges the staged rows into the target and reports the rows inserted or updated |
| Postgres.DoNothingKeepsRows | app/backend/helpers/postgres_helper.py:224-225 | DO NOTHING keeps every existing row in place and counts only the rows it adds |
| Postgres.DoUpdateCountsEveryRow | app/backend/helpers/postgres_helper.py:216-223 | DO UPDATE counts every proposed row and never removes a row |
| Postgres.OverwriteSets | app/backend/helpers/postgres_helper.py:220-223 | a conflicting row gets `EXCLUDED`'s value in each SET column and keeps its own elsewhere |
| Merging.MergeAppend | app/backend/helpers/postgres_helper.py:236-239 | `ON CONFLICT` treats the staged rows one at a time: merging two runs of rows is merging the first, then the second |
| Merging.FirstConflictIs | app/backend/helpers/postgres_helper.py:238 | the conflicting row a proposed row meets is the first target row equal to it on every key, NULL equal to nothing |
| Merging.MergeOnTarget | app/backend/helpers/postgres_helper.py:216-239 | with DO UPDATE, each row of the original target ends with its SET columns taken from the last staged row that conflicts first with it, and is unchanged when there is none |
| Merging.DoUpdateOverwrites | app/backend/helpers/postgres_helper.py:216-239 | with SET on the non-key columns and no key shared within the target or within the staged rows, a target row that conflicts with a staged row ends with that row's value in every SET column and keeps its own in every other column |
| Merging.DoUpdateKeepsUnmatched | app/backend/helpers/postgres_helper.py:216-239 | a target row that conflicts with no staged row is left as it was |
| Merging.MergeCovers | app/backend/helpers/postgres_helper.py:236-239 | after a merge, every staged row without a NULL key has a conflicting row in the target |
| Merging.MergeSettles | app/backend/helpers/postgres_helper.py:216-239 | after a DO UPDATE merge, every row already holds the values of its last writer |
| Merging.MergeIdempotent | app/backend/helpers/postgres_helper.py:216-239 | merging the same staged rows a second time changes nothing, when no staged key is NULL and each staged row has every SET column |
| Merging.OverwriteTwice | app/backend/helpers/postgres_helper.py:220-223 | a later `col = EXCLUDED.col` over the same columns replaces an earlier one |
| Postgres.TruncateEmpties | app/backend/helpers/postgres_helper.py:261-262 | a successful TRUNCATE empties the staging table and touches nothing else |
| Postgres.DeleteKeepsUnmatched | app/backend/helpers/postgres_helper.py:323-330 | a successful DELETE ... USING keeps exactly the target rows that match no staged row |
| Postgres.UnmatchedKeeps | app/backend/helpers/postgres_helper.py:323-328 | a row survives the DELETE exactly when it is a target row matching no staged row on all the columns |
| Postgres.InsertSelectAppends | app/backend/helpers/postgres_helper.py:338-344 | a successful INSERT ... SELECT appends every staged row restricted to the frame's columns and reports their number; other target columns read as NULL, as no DEFAULT is modelled |
| Postgres.Connection.Open | app/backend/helpers/postgres_helper.py:82-85 | a new connection's session starts from the committed state, without temporary tables |
| Postgres.Connection.Cursor | app/backend/helpers/postgres_helper.py:87 | opening a cursor is logged and changes no state |
| Postgres.Connection.Execute | app/backend/helpers/postgres_helper.py:100-101 | a statement replaces the session state with the server's reply, or leaves it on failure, and is logged with its text |
| Postgres.Connection.Commit | app/backend/helpers/postgres_helper.py:108 | a commit makes the session's permanent tables the database's and the new rollback point |
| Postgres.Connection.Rollback | app/backend/helpers/postgres_helper.py:112 | a rollback returns the session to its last commit |
| Postgres.Connection.CloseCursor | app/backend/helpers/postgres_helper.py:106 | closing a cursor is logged and changes no state |
| Postgres.Connection.Close | app/backend/helpers/postgres_helper.py:109 | closing discards the open transaction: the session returns to its last commit, so nothing of the discarded work can be committed later; the committed state is unchanged |
| PostgresHelper.CopyLoop | app/backend/helpers/postgres_helper.py:94-105 | the copy loop's row total, first error, session state and log are those of `CopyAll` over the batches of `range(0, len(data), batch)` |
| PostgresHelper.InsertList | app/backend/helpers/postgres_helper.py:51-118 | `__insert_list` returns, logs, commits and leaves the caller's session as `InsertListRun` says |
| PostgresHelper.OwnedIgnoresSession | app/backend/helpers/postgres_helper.py:82-85 | with a connection of its own, the result, log and commit do not depend on any caller's session |
| PostgresHelper.UpsertLoop | app/backend/helpers/postgres_helper.py:242-269 | the upsert loop's total, first error, state and log are those of `UpsertAll` over the batches |
| PostgresHelper.UpsertDataframe | app/backend/helpers/postgres_helper.py:189-276 | `upsert_dataframe` returns, logs and commits as `UpsertRun` says |
| PostgresHelper.UpsertKeyed | app/backend/helpers/postgres_helper.py:214-276 | the keyed path returns, logs and commits as `UpsertKeyedRun` says |
| PostgresHelper.InsertDataframe | app/backend/helpers/postgres_helper.py:278-356 | `insert_dataframe` returns, logs and commits as `InsertFrameRun` says |
| LoaderProperties.CopyFromLog | app/backend/helpers/postgres_helper.py:94-105 | the copy loop sends only statements, and a loop that completes has sent its COPY once per batch |
| LoaderProperties.CopyFromAppends | app/backend/helpers/postgres_helper.py:94-102 | a copy loop that completes appends the rows of every batch, in order |
| LoaderProperties.CopyFromCounts | app/backend/helpers/postgres_helper.py:94-102 | a copy loop that completes sums to the number of rows of all batches |
| LoaderProperties.CopyBatchStep | app/backend/helpers/postgres_helper.py:95-102 | one successful batch appends its rows, adds its row count, and the loop continues with the rest |
| LoaderProperties.CopyAllAppends | app/backend/helpers/postgres_helper.py:93-105 | a completed copy of batches covering `data` appends all of `data` and returns `len(data)` |
| LoaderProperties.InsertListFramed | app/backend/helpers/postgres_helper.py:81-116 | a non-empty call keeps the earlier log, opens (connect only when owned, then cursor), sends only statements, then closes as the success or the error path does |
| LoaderProperties.InsertListTransaction | app/backend/helpers/postgres_helper.py:80-118 | empty data returns 0 with no event and no commit; otherwise it connects and closes exactly when it owns the connection, commits exactly when owned and successful, and rolls back exactly on failure |
| LoaderProperties.InsertListOutcome | app/backend/helpers/postgres_helper.py:93-116 | it commits exactly when owned and successful, and commits its session's permanent tables; ValueError exactly for a step of 0; a negative step returns 0; a failure returns the caller's session to its last commit |
| LoaderProperties.InsertListAppends | app/backend/helpers/postgres_helper.py:93-109 | a successful call with a positive step appends all of `data` to the target table, returns `len(data)`, and commits exactly that when it owns the connection |
| LoaderProperties.InsertListErrors | app/backend/helpers/postgres_helper.py:93-116 | `__insert_list` raises only ValueError or the database's error, and commits only on success |
| LoaderProperties.InsertListSent | app/backend/helpers/postgres_helper.py:94-101 | a successful non-empty call sends `copy schema.table <columnString> ...` once per batch and nothing else |
| LoaderProperties.PermanentsDropTemporary | app/backend/helpers/postgres_helper.py:232 | a temporary table never reaches the committed state |
| LoaderProperties.UpsertFromExtends | app/backend/helpers/postgres_helper.py:242-269 | the upsert loop sends only statements |
| LoaderProperties.UpsertFromSent | app/backend/helpers/postgres_helper.py:243-262 | an upsert loop that completes sends COPY, upsert, TRUNCATE per batch, in that order |
| LoaderProperties.UpsertBatchStep | app/backend/helpers/postgres_helper.py:244-262 | one successful batch from an empty staging table merges the batch into the target, leaves staging empty, adds the upsert's count and goes on |
| LoaderProperties.CycleTables | app/backend/helpers/postgres_helper.py:252-262 | copy, upsert and truncate leave only the merged target changed, and the upsert's row count is the merge count |
| LoaderProperties.UpsertFromMerges | app/backend/helpers/postgres_helper.py:242-262 | a completed upsert loop merges every batch in turn, sums the upsert counts (not the copy counts), and leaves staging empty and every other table unchanged |
| LoaderProperties.MergeEachCountsRows | app/backend/helpers/postgres_helper.py:256-258 | with DO UPDATE the summed count is the number of rows loaded |
| LoaderProperties.MergeEachFlat | app/backend/helpers/postgres_helper.py:243-262 | upserting the batches one after the other leaves the target as one merge of all the loaded rows would |
| LoaderProperties.MergeEachOverwrites | app/backend/helpers/postgres_helper.py:216-262 | over the batches, a target row that conflicts with a loaded row gets that row's value in every non-key column and keeps its own elsewhere, when no key is shared within the target or within the loaded rows |
| LoaderProperties.UpsertFromWidths | app/backend/helpers/postgres_helper.py:252-253 | a completed upsert loop copied only rows with one value per column of the column list |
| LoaderProperties.UpsertKeyedRepeat | app/backend/helpers/postgres_helper.py:214-276 | after a successful keyed run, merging its batches again leaves the merged rows as they are, when no loaded key is NULL |
| LoaderProperties.UpsertKeyedIdempotent | app/backend/helpers/postgres_helper.py:214-276 | a second successful keyed `upsert_dataframe` with the same rows and keys, on what the first committed, commits the same state, when no loaded key is NULL |
| LoaderProperties.MergeEachKeepsRows | app/backend/helpers/postgres_helper.py:256-258 | with DO NOTHING every existing row stays in place and the count is the number of rows added |
| LoaderProperties.UpsertKeyedFramed | app/backend/helpers/postgres_helper.py:227-274 | the keyed path connects, opens a cursor, sends only statements, then closes as its exit (CREATE failure, zero step, batch failure, success) dictates |
| LoaderProperties.UpsertKeyedOutcome | app/backend/helpers/postgres_helper.py:230-243 | a failed CREATE raises the database's error; a step of 0 after it raises ValueError |
| LoaderProperties.UpsertKeyedCommits | app/backend/helpers/postgres_helper.py:264-274 | the keyed path commits exactly when it succeeds |
| LoaderProperties.UpsertKeyedTransaction | app/backend/helpers/postgres_helper.py:227-274 | it always connects; it commits exactly on success; it rolls back exactly when a batch fails; it closes cursor and connection exactly when CREATE succeeded and the step is not 0 |
| LoaderProperties.UpsertKeyedMerges | app/backend/helpers/postgres_helper.py:214-276 | a successful keyed upsert commits the last committed state with every batch merged into the target, returns the summed upsert counts, and keeps no staging table |
| LoaderProperties.StagedCommit | app/backend/helpers/postgres_helper.py:271 | committing a session that added the staging table and changed the target commits only the target's change |
| LoaderProperties.UpsertKeyedSent | app/backend/helpers/postgres_helper.py:230-262 | a successful keyed upsert sends the CREATE, then COPY, upsert, TRUNCATE per batch, and nothing else |
| LoaderProperties.UpsertDispatch | app/backend/helpers/postgres_helper.py:198-212 | IndexError exactly for an empty list; TypeError exactly for a non-empty list of rows without `columns`; both before any connection; a commit implies success |
| LoaderProperties.KeyedErrors | app/backend/helpers/postgres_helper.py:227-269 | the keyed path raises only ValueError or the database's error, and commits only on success |
| LoaderProperties.UpsertUnkeyed | app/backend/helpers/postgres_helper.py:210-212 | without key columns, `upsert_dataframe` is `__insert_list` on its own connection with the default step, with the frame's labels or `columns` |
| LoaderProperties.InsertFrameFramed | app/backend/helpers/postgres_helper.py:288-354 | a non-empty call connects, opens a cursor, sends only statements, then closes as its exit dictates; a failed CREATE raises the database's error; success returns 0 and commits |
| LoaderProperties.ReplaceFramed | app/backend/helpers/postgres_helper.py:317-354 | after staging, the DELETE/INSERT step sends only statements, then rolls back and closes the connection on failure or commits and closes both on success |
| LoaderProperties.InsertFrameTransaction | app/backend/helpers/postgres_helper.py:280-356 | an empty frame returns None with no event; otherwise it commits exactly on success, returns 0 then, rolls back and closes exactly when CREATE succeeded and a later statement failed, and leaves the cursor open after a failed DELETE or INSERT |
| LoaderProperties.ReplaceSent | app/backend/helpers/postgres_helper.py:317-344 | after staging, a successful run sends the DELETE only when `columns` is non-empty, then the INSERT ... SELECT |
| LoaderProperties.InsertFrameSent | app/backend/helpers/postgres_helper.py:291-344 | a successful call sends the CREATE, one COPY per batch of 10000 rows, the DELETE when `columns` is non-empty, the INSERT ... SELECT, and never a TRUNCATE |
| LoaderProperties.ReplaceReplaces | app/backend/helpers/postgres_helper.py:317-352 | a successful DELETE/INSERT step commits the target minus the rows matching a staged row, followed by every staged row |
| LoaderProperties.InsertFrameReplaces | app/backend/helpers/postgres_helper.py:284-352 | a successful call commits the target with the rows matching a frame row on `columns` replaced by the frame's rows, in order; with empty `columns` it only appends |
| Text.SplitJoin | app/backend/helpers/postgres_helper.py:91 | splitting `",".join(parts)` at commas gives the parts back when none contains a comma |
| Text.RemoveChar | app/backend/helpers/postgres_helper.py:416 | `s.replace(c, "")` removes exactly the occurrences of c |
| Text.ReplaceChar | app/backend/helpers/postgres_helper.py:419 | `s.replace(c, d)` substitutes every c by d |
| Coercion.TemporalPasses | app/backend/helpers/postgres_helper.py:401-402 | at most one pass per temporal name tried, all with the zone flag of the type |
| Coercion.FinalNull | app/backend/helpers/postgres_helper.py:438-440 | a cell becomes missing exactly when it is missing or one of "nan", "NaN", "null", "None"; any other cell is kept |
| Coercion.Lowered | app/backend/helpers/postgres_helper.py:376 | the labels are lower-cased (ASCII letters only) and the cells kept |
| Coercion.NullsAll | app/backend/helpers/postgres_helper.py:438-440 | the final replace keeps the shape and applies the null-sentinel mapping to every cell |
| Coercion.Named | app/backend/helpers/postgres_helper.py:393 | selecting one label gives exactly the columns of that label |
| Coercion.Selection | app/backend/helpers/postgres_helper.py:390-393 | a selection succeeds only when every listed name has a column; it keeps only frame columns whose label is listed, and every one of them; otherwise KeyError of a listed name without column |
| Coercion.SelectionBlocks | app/backend/helpers/postgres_helper.py:392-393 | a successful selection is one block per listed name, in list order, and block k is exactly the columns labelled with the k-th name, in frame order |
| Coercion.DataFrame.Copy | app/backend/helpers/postgres_helper.py:374 | the copy has the original's columns and length |
| Coercion.DataFrame.LowerLabels | app/backend/helpers/postgres_helper.py:376 | the frame's labels become lower-case (ASCII letters only) and its length is kept |
| Coercion.DataFrame.Select | app/backend/helpers/postgres_helper.py:393 | the frame becomes the selection, or stays and reports the missing name |
| Coercion.DataFrame.Convert | app/backend/helpers/postgres_helper.py:399-416 | one reassignment of the columns of a label, or its error with the frame unchanged: KeyError when no column has the label; on a label with two or more columns ValueError for a temporal pass and AttributeError for the numeric step, while stringifying still works |
| Coercion.DataFrame.ReplaceNulls | app/backend/helpers/postgres_helper.py:438-440 | the frame becomes its null-replaced version |
| Coercion.TemporalPass | app/backend/helpers/postgres_helper.py:402-410 | one iteration of the temporal loop: a pass exactly when the type contains the name, raising what that pass raises on the labels the row started from |
| Coercion.TemporalLoop | app/backend/helpers/postgres_helper.py:401-410 | the loop applies every temporal pass of the type; when a pass is due it raises exactly what the first pass raises (KeyError without column, ValueError on a duplicated label) |
| Coercion.NumericLoop | app/backend/helpers/postgres_helper.py:412-436 | at most one numeric step, exactly when the type is numeric; it raises KeyError when there is no column and AttributeError on a duplicated label |
| Coercion.ConvertRow | app/backend/helpers/postgres_helper.py:396-436 | one catalog row raises exactly `RowError` on the labels it starts from, and otherwise converts its columns by all of its steps in order |
| Coercion.ConvertRows | app/backend/helpers/postgres_helper.py:396-436 | the rows loop gives `ApplyRows`'s columns, or its error |
| Coercion.TransformDataframe | app/backend/helpers/postgres_helper.py:358-458 | an empty frame is returned itself; otherwise a fresh frame with `Transform`'s columns, or `Transform`'s error |
| Coercion.MapColumnCells | app/backend/helpers/postgres_helper.py:399 | a reassignment converts every cell of the named columns and leaves the others as they were |
| Coercion.MapStepsCells | app/backend/helpers/postgres_helper.py:396-436 | a row's steps leave other columns untouched and send each cell of the named column through the steps in order |
| Coercion.RowStepsOrder | app/backend/helpers/postgres_helper.py:398-436 | a text type is stringified first, a numeric one converted last, exactly once each, with the temporal passes between |
| Coercion.PassesZone | app/backend/helpers/postgres_helper.py:404-407 | each temporal pass uses `%z` exactly when the type contains "time zone" |
| Coercion.TemporalCount | app/backend/helpers/postgres_helper.py:401-402 | one temporal pass per temporal name the type contains |
| Coercion.TimestampPasses | app/backend/helpers/postgres_helper.py:401-402 | a `timestamp` type is converted twice, three times if it also contains "date" |
| Coercion.WithoutTimeZoneFormatsZone | app/backend/helpers/postgres_helper.py:401-407 | "timestamp without time zone" is formatted with `%z`, at least twice |
| Coercion.IntervalAndPointAreNumeric | app/backend/helpers/postgres_helper.py:412-413 | "interval" and "point" count as numeric |
| Coercion.TimeTwice | app/backend/helpers/postgres_helper.py:403-410 | when formatting and parsing round-trip, a second temporal pass changes no cell |
| Coercion.MapColumnTwice | app/backend/helpers/postgres_helper.py:403-410 | when formatting and parsing round-trip, a second temporal pass changes no column |
| Coercion.PassesOnce | app/backend/helpers/postgres_helper.py:401-410 | when formatting and parsing round-trip, the repeated temporal passes amount to one |
| Coercion.CleanSeparator | app/backend/helpers/postgres_helper.py:416-419 | with a one-character separator other than ".", the clean-up removes exactly those characters |
| Coercion.CleanPoint | app/backend/helpers/postgres_helper.py:416-419 | with separator ".", the points are removed and then the commas become points; no comma is left and nothing else is lost |
| Coercion.CleanNothing | app/backend/helpers/postgres_helper.py:416 | an empty separator leaves the string as it is |
| Coercion.NumericNullsMissing | app/backend/helpers/postgres_helper.py:414 | "nan", "null" and "None" parse like a missing value |
| Coercion.ApplyRowsOk | app/backend/helpers/postgres_helper.py:396-436 | the rows convert the frame exactly when no row raises on the frame's labels |
| Coercion.ApplyRowsFirstError | app/backend/helpers/postgres_helper.py:396-416 | otherwise the error is what the first row that raises raises: its KeyError, ValueError or AttributeError |
| Coercion.ApplyRowsShape | app/backend/helpers/postgres_helper.py:396-436 | converting keeps the number, names and lengths of the columns |
| Coercion.SelectionHas | app/backend/helpers/postgres_helper.py:392-393 | after a successful selection every catalog name has a column |
| Coercion.TransformKeepsShape | app/backend/helpers/postgres_helper.py:374-440 | without `matched_columns`, the result has the input's columns in order, lower-cased, with as many cells |
| Coercion.TransformMatchedNames | app/backend/helpers/postgres_helper.py:390-393 | with `matched_columns`, the result has the shape of the selection of the catalog's names from the lower-cased frame: one block per catalog row, in catalog order, holding every column with that label; every result column is one the catalog lists |
| Coercion.TransformErrors | app/backend/helpers/postgres_helper.py:379-455 | it raises only AttributeError for a missing `DB_NAME`, the catalog query's error, KeyError of a catalog column the lower-cased frame lacks, or, for a catalog row whose label has two or more columns in the frame (or is listed twice under `matched_columns`), ValueError when the row has a temporal pass and AttributeError when it has only the numeric step |
| Coercion.ApplyStepsIs | app/backend/helpers/postgres_helper.py:396-436 | a row's steps stop at the first one that raises, judged on the labels the row started from, and otherwise compose as `MapSteps` |
| Coercion.ApplyRowIs | app/backend/helpers/postgres_helper.py:396-416 | a catalog row raises KeyError when it has a step and no column has its label; on a label with two or more columns it raises ValueError when it has a temporal pass, AttributeError when it is numeric without one, and nothing when it is text only; otherwise it converts by all its steps |
| Coercion.RowErrorSteps | app/backend/helpers/postgres_helper.py:398-416 | what a row raises is what its text step, else its first temporal pass, else its numeric step raises |
| Coercion.LabelsKept | app/backend/helpers/postgres_helper.py:396-436 | converting never changes how many columns carry a label |
| Coercion.StepErrorKept | app/backend/helpers/postgres_helper.py:396-436 | so a later step of a row raises what it would have raised on the labels the row started from |
| Coercion.RowKeepsFit | app/backend/helpers/postgres_helper.py:396-436 | a row's conversions change nothing about what any other row raises |
| Coercion.SelectionNamed | app/backend/helpers/postgres_helper.py:392-393 | a selection holds a label's columns once per time the label is listed |
| Coercion.SelectionDuplicates | app/backend/helpers/postgres_helper.py:392-393 | a listed label with a column has two or more columns in the selection exactly when it has in the frame or is listed twice |
| Coercion.RowsErrors | app/backend/helpers/postgres_helper.py:396-455 | the rows loop raises a KeyError of a listed name without column in the lower-cased frame, or ValueError or AttributeError of a row whose label has two or more columns in the converted frame |

## Left out

- The database connection (`__create_connection`) and the `SET search_path` it runs are left out, since they are I/O. Each connection opens a new session on the committed state, and a failed connect is not modelled.
- `os.getenv('DB_NAME')` becomes a parameter `dbName`; None stands for an unset variable.
- `query_to_df`, `execute_sql` and `app/backend/ingestion/daily_checkups.py` are left out, since they are thin I/O wrappers.
- The CSV encoding of `csv.writer` and the `copy_expert` protocol are left out: a batch is sent as its rows of values.
- Server-side refusals of statements (constraints, types, lost connections) are a `Server` parameter, not modelled one by one. Commits and rollbacks are not statements and cannot fail in the model.
- Postgres.Connection.Commit: never fails. A failing commit in `__insert_list` (postgres_helper.py:108) is inside the `try`. The source would then roll back, close the cursor and the connection it opened, and re-raise (postgres_helper.py:110-116). In `upsert_dataframe` (postgres_helper.py:271) and `insert_dataframe` (postgres_helper.py:352) the commit is outside every `try`. There the error would escape with nothing rolled back and the cursor and connection left open. The model also has one client at a time. A session's `work` is fixed when it opens. It does not see commits made by other connections afterwards, as each statement would under READ COMMITTED. A commit installs this session's whole permanent state, which erases whatever another connection committed in between. One example is an upsert committed on the helper's own connection while the caller's external connection for `__insert_list` is open.
- Postgres.CopyAppends, Postgres.InsertSelectAppends: a column of the target left out of the COPY column list (postgres_helper.py:100) or of the INSERT ... SELECT column list (postgres_helper.py:339-341) reads as NULL in the appended records, where PostgreSQL fills in its DEFAULT (a serial id, `now()`). A later DELETE match or ON CONFLICT key on such a column sees NULL in the model. The same holds for InsertListAppends, ReplaceReplaces and InsertFrameReplaces, which build on them. The staging table of the upsert path has no defaults (`CREATE TEMPORARY TABLE ... AS SELECT`), so it is exact there.
- Postgres.Connection.Rollback: never fails. A failing rollback inside an `except` would replace the error being re-raised.
- Values are NULL or text; PostgreSQL's type coercions are not modelled.
- pandas conversions (`values.tolist()`, `pd.DataFrame(list_of_dicts)`) are inputs: a `Source` already holds labels and rows.
- `pd.to_datetime`, `strftime`, `pd.to_numeric` and `str()` of a number are left open as the `Pandas` parameter. Only their use is modelled. `parseTime` parses each cell on its own. pandas 2 and later instead infer one format from the first non-null value and apply it to the whole column, so a cell that parses alone can still become NaT there.
- The `'int'` branch (`format_number`, the second `to_numeric` and the `Int64` cast) is folded into the numeric step's parse: the model does not distinguish an integer from a float, or capture the cast's error on fractional values.
- In `transform_dataframe`, None and NaN are one `Missing` cell; `astype(str)` of them ("None" and "nan") is treated the same way by every later step.
- TransformDataframe: the catalog query is a parameter `metadata`, the query's result or error. Its text is not modelled, including the one-column case, where the Python tuple text `('a',)` is not valid SQL.
- TransformDataframe: opening and closing its connection and cursor are not modelled.
- `print` logging and `gc.collect()` are left out.
- Data passed to `upsert_dataframe` that is neither a DataFrame nor a list (so `rows` is never bound) is not modelled: `Source` has no such case.
- `str.replace` is modelled as a literal replacement. This is pandas' `Series.str.replace` with `regex=False`, and is also what older pandas does for a one-character pattern.
- Lowered: only ASCII letters are lower-cased (`Text.Lower`), while `Index.str.lower()` applies Python's Unicode `str.lower`; a label with a non-ASCII capital such as "Äpfel" keeps it, and a catalog row "äpfel" then finds no column. Unicode case mapping tables are not modelled.
- Selection: with several catalog names missing from the frame, pandas raises one KeyError listing all of them. The model's KeyError carries the first missing name only.
- LowerLabels: inherits the ASCII-only lower-casing of Lowered. The `DB_NAME` prefix test and the `data_type` substring tests use the same ASCII lower-casing; the catalog's type names are ASCII.
