# sql.js query runner, modelled in Dafny

This project models the query runner that TypeORM uses for sql.js, the in-memory
SQLite engine (`SqljsQueryRunner`). A runner is one session over the in-memory
database. It keeps a dirty flag, set by every successful statement that is not a
`SELECT`. The driver's `autoSave` persists the database at two checkpoints: when
the runner is released, and when the outermost transaction commits. Each `query`
call runs the engine's prepare / bind / step / free protocol and reports its
outcome to subscribers.

The model is a functional state machine:

- `QueryRunner.Session` holds the three pieces of state: `isDirty`, the
  inherited `isReleased`, and the inherited transaction-active status.
- Each operation (`Query`, `Flush`, `Release`, `CommitTransaction`,
  `BeforeMigration`, `AfterMigration`) is a pure function. It takes the session
  and its collaborators' answers, and returns three things: the new session, the
  outcome (a value or an error), and an effect trace.
- The effect trace is a sequence of `Trace.Event`s: log calls, broadcasts,
  `prepare`, `bind`, `free`, `autoSave`, and the inherited commit and release.
  Ordering and counting properties are stated on this trace.
- The sql.js engine is an oracle, `Engine.Statement`: whether `prepare` and `bind`
  throw, the rows that `step` yields, whether the final `step` throws, and the
  modified-row count.
- `autoSave`, the inherited commit and the inherited release are also oracles.
  So are the two `Date.now()` readings and the `maxQueryExecutionTime` option.

Files:

- `wrappers.dfy`: `Option`, `Result`, `Outcome`.
- `command.dfy`: how a statement is classified. The code trims the text, splits it
  at the first ASCII space, and compares the first piece with `"SELECT"`.
- `params.dfy`: JavaScript values and rows, and the normalisation of `undefined`
  parameters to `null`.
- `engine.dfy`: the engine oracle, and the step loop as a method.
- `trace.dfy`: trace events, counting by kind, and the prepared-statement
  lifecycle replayed along a trace.
- `runner.dfy`: the session and its operations.
- `query_properties.dfy`: properties of one `query` call.
- `session_properties.dfy`: properties across calls, including sequences of calls.

Behaviour of the code worth noting:

- The keyword is the text before the first ASCII space, not the first
  whitespace-delimited token. So `"SELECT\n* FROM t"` counts as a write. The
  comparison is case-sensitive, so `"select ..."` counts as a write too.
- `release` has no guard of its own. A second `release` flushes (a no-op once
  clean) and calls the inherited release again; nothing in this file makes it fail.
- Rollback is not overridden here; it is inherited. It never clears the dirty
  flag, and its `ROLLBACK` statement, like every other non-`SELECT` statement run
  through `query`, marks the runner dirty.
- The inherited commit runs its `COMMIT` or `RELEASE SAVEPOINT` statement through
  this runner's `query`, so it can mark the runner dirty before the flush that
  follows an outermost commit.
- The slow-query time runs from before `prepare` to after `bind`. It does not
  include stepping through the rows.
- On success, the after-query broadcast happens before `free` and before
  `getRowsModified`. On failure, `free` comes first.
- Errors thrown by `autoSave` and by the inherited commit propagate unwrapped.
- When `prepare` throws, the `QueryFailedError` and the failure broadcast carry the
  parameters as given, because the mapping has not run yet. When `bind` or `step`
  throws, they carry the normalised list.

## Model

| member | source | states |
|---|---|---|
| Command.Trim | src/driver/sqljs/SqljsQueryRunner.ts:85 | `query.trim()`: the result is no longer than the input and neither starts nor ends with an ECMAScript whitespace or line-terminator code point |
| Command.TrimCharacterised | src/driver/sqljs/SqljsQueryRunner.ts:85 | trim returns exactly the slice of the text that has only whitespace before and after it and no whitespace at its edges, so the trim is fully determined |
| Command.FirstSpaceToken | src/driver/sqljs/SqljsQueryRunner.ts:85 | `split(" ", 1)[0]`: a prefix of the text that contains no ASCII space and ends at the first space or at the end |
| Command.FirstSpaceTokenUnique | src/driver/sqljs/SqljsQueryRunner.ts:85 | any space-free prefix that reaches a space or the end is the first token, so the token is uniquely determined |
| Command.IsReadIff | src/driver/sqljs/SqljsQueryRunner.ts:85-147 | a statement counts as a read exactly when its trimmed text is `SELECT` or starts with `SELECT` followed by an ASCII space |
| Command.LeadingWhitespaceIgnored | src/driver/sqljs/SqljsQueryRunner.ts:85 | any leading whitespace or line terminators are removed by the trim, so they never change the classification |
| Command.IndentedSelectIsRead | src/driver/sqljs/SqljsQueryRunner.ts:85 | leading whitespace does not hide an upper-case `SELECT` |
| Command.LowerCaseSelectIsWrite | src/driver/sqljs/SqljsQueryRunner.ts:147 | the comparison is case-sensitive: `select * from t` counts as a write |
| Command.NewlineAfterSelectIsWrite | src/driver/sqljs/SqljsQueryRunner.ts:85 | only the ASCII space splits: `SELECT` followed by a newline counts as a write |
| Params.Normalise | src/driver/sqljs/SqljsQueryRunner.ts:99-101 | the mapped list has the same length, holds `null` wherever the input held `undefined` and the input's value everywhere else, and contains no `undefined` |
| Params.NormaliseListFixedPoint | src/driver/sqljs/SqljsQueryRunner.ts:98-104 | the mapping step leaves a parameter list unchanged exactly when it is `null` or holds no `undefined`, so applying it to its own output changes nothing |
| Params.NormaliseIdempotent | src/driver/sqljs/SqljsQueryRunner.ts:99-101 | normalising an already normalised list changes nothing |
| Params.NormaliseKeepsDefined | src/driver/sqljs/SqljsQueryRunner.ts:99-101 | a list without `undefined` is bound exactly as given |
| Params.NormaliseMergesAbsentAndNull | src/driver/sqljs/SqljsQueryRunner.ts:99-103 | two lists bind identically exactly when they agree position by position up to `undefined` versus `null` |
| Engine.DrainStatement | src/driver/sqljs/SqljsQueryRunner.ts:123-127 | the step loop collects every row in step order, and succeeds exactly when the last `step` returns false rather than throwing; on a throw it reports that step's error |
| QueryRunner.Query | src/driver/sqljs/SqljsQueryRunner.ts:78-181 | on a released runner the call fails with QueryRunnerAlreadyReleasedError, with no effect and no change of state. Otherwise it succeeds exactly when prepare, bind (if reached) and every step succeed. A failure leaves the session unchanged. A success sets `isDirty` exactly for a non-`SELECT` keyword. The result is either the full result (records = the rows in order, raw = records, affected = the engine's count) or only the raw rows. A failure is QueryFailedError carrying the query, the parameters at that point, and the first engine error |
| QueryRunner.Flush | src/driver/sqljs/SqljsQueryRunner.ts:52-57 | `autoSave` is called exactly once when dirty and never when clean. The flag is cleared only when the save succeeds; a failed save leaves the session unchanged and returns the save's error |
| QueryRunner.Release | src/driver/sqljs/SqljsQueryRunner.ts:59-62 | the flush's effects come first. The inherited release is reached exactly when the flush succeeded. A successful release leaves the runner clean, and released exactly when it already was or the inherited release marked it so. A failed one leaves the released flag as it was; the runner stays dirty exactly when the save threw, and the error is the save's own, unwrapped, or else the inherited release's |
| QueryRunner.CommitTransaction | src/driver/sqljs/SqljsQueryRunner.ts:68-73 | the inherited commit runs first, and its statement may mark the runner dirty. If it throws, the runner is unchanged, no save happens and its error is returned. `autoSave` runs exactly when the commit succeeds, no transaction remains active, and the runner is dirty, either from before or from the commit's own statement. The dirty flag clears only after that save succeeds. A failure after a completed commit is the save's own error, unwrapped |
| QueryProperties.QueryCounts | src/driver/sqljs/SqljsQueryRunner.ts:83-180 | on an unreleased runner, the number of events of each kind in a query's trace follows from which engine answer fails first, independent of event order |
| QueryProperties.QueryFreesStatement | src/driver/sqljs/SqljsQueryRunner.ts:94-180 | every prepared statement is freed exactly once before `query` returns or throws. Nothing is freed when `prepare` itself threw. The finally block's await is the last effect |
| QueryProperties.QueryReportsOutcomeOnce | src/driver/sqljs/SqljsQueryRunner.ts:89-177 | exactly one after-query broadcast, whose success flag matches the outcome. An error log appears exactly once on failure and never on success |
| QueryProperties.QueryAnnouncedFirst | src/driver/sqljs/SqljsQueryRunner.ts:89-90 | on every path the query is logged first and announced to the BeforeQuery subscribers second |
| QueryProperties.QueryLogsSlowExactly | src/driver/sqljs/SqljsQueryRunner.ts:106-121 | the slow-query log is written exactly when prepare and bind succeeded and `maxQueryExecutionTime` is set, non-zero and strictly exceeded by the time measured after bind |
| QueryProperties.QueryBindsNormalised | src/driver/sqljs/SqljsQueryRunner.ts:98-137 | exactly one bind, of the normalised list, whenever a statement exists and a list was given; no bind otherwise |
| QueryProperties.QueryBroadcastsNormalised | src/driver/sqljs/SqljsQueryRunner.ts:98-137 | the success broadcast carries the normalised list, the time measured after bind and the rows in step order |
| SessionProperties.FlushIdempotent | src/driver/sqljs/SqljsQueryRunner.ts:52-57 | after a successful flush, a second flush makes no `autoSave` call and changes nothing |
| SessionProperties.FlushRetriesAfterFailure | src/driver/sqljs/SqljsQueryRunner.ts:52-57 | after a failed save the runner is still dirty and the next flush calls `autoSave` again |
| SessionProperties.QueryAfterRelease | src/driver/sqljs/SqljsQueryRunner.ts:59-83 | once a release has left the runner marked released, every query fails with QueryRunnerAlreadyReleasedError, with no effect |
| SessionProperties.QueryAfterKeepingRelease | src/driver/sqljs/SqljsQueryRunner.ts:59-83 | a release whose inherited part does not mark the runner released leaves it clean, and the next query has the same outcome and the same effects as on the runner before the release |
| SessionProperties.ForeignKeysStatementsAreWrites | src/driver/sqljs/SqljsQueryRunner.ts:41-50 | both PRAGMA statements of the migration hooks are classified as writes |
| SessionProperties.WriteHook | src/driver/sqljs/SqljsQueryRunner.ts:41-50 | a hook that awaits a write statement with the default empty list marks the runner dirty when it succeeds, changes nothing when it fails, and logs that statement first |
| SessionProperties.BeforeMigrationIsWrite | src/driver/sqljs/SqljsQueryRunner.ts:41-43 | `beforeMigration` issues `PRAGMA foreign_keys = OFF` with the default empty list. Success marks the runner dirty; failure changes nothing |
| SessionProperties.AfterMigrationIsWrite | src/driver/sqljs/SqljsQueryRunner.ts:48-50 | `afterMigration` issues `PRAGMA foreign_keys = ON` with the default empty list. Success marks the runner dirty; failure changes nothing |
| SessionProperties.InsertOnFreshRunner | src/driver/sqljs/SqljsQueryRunner.ts:139-152 | an INSERT on a fresh runner whose engine reports one modified row leaves the runner dirty and returns a structured result with no rows and affected = 1 |
| SessionProperties.ReadsNeverSave | src/driver/sqljs/SqljsQueryRunner.ts:52-149 | over any sequence of reads and releases, a clean runner stays clean and never calls `autoSave`, whatever the collaborators answer |
| SessionProperties.NestedCommitDefersSave | src/driver/sqljs/SqljsQueryRunner.ts:68-73 | a commit that leaves a transaction active never saves; the outermost commit after it saves exactly once when the runner was dirty before, or either commit's statement dirtied it |
| SessionProperties.CommitThenReleaseSavesOnce | src/driver/sqljs/SqljsQueryRunner.ts:52-73 | after an outermost commit whose save succeeded, the runner is clean and a release makes no further `autoSave` call |
| SessionProperties.DirtyUntilFlushed | src/driver/sqljs/SqljsQueryRunner.ts:52-149 | over any sequence of queries and migration hooks, a dirty runner stays dirty and never calls `autoSave` |

## Left out

- The sql.js engine (`prepare`, `bind`, `step`, `getAsObject`, `getRowsModified`) is a foreign library. It is an oracle, and only `prepare`, `bind` and `step` can throw. Throws from `getAsObject`, `getRowsModified`, `free` or the broadcaster are not modelled. In the code, a `getAsObject` throw happens before the success broadcast and behaves like a failing `step`. A `getRowsModified` throw comes after the success broadcast but before `free`, so it leads to a second broadcast and one `free`, in the catch block. Only a throw from the success path's `free` leads to both a second broadcast and a second `free`.
- The logger is a collaborator. Its calls are trace events, and the slow-query and error messages are not built.
- `Date.now()` readings are integer inputs. Numbers are modelled as integers; floating point and `NaN` thresholds are left out.
- Broadcaster internals (`broadcast("BeforeQuery")` and `broadcastAfterQueryEvent`) are not part of this model; they appear only as trace events. So is the async settlement of `BroadcasterResult.wait()`: the await is one event, and a rejected wait, which would replace the call's outcome, is not modelled.
- `AbstractSqliteQueryRunner` is not part of this model. Its commit and release are oracles.
- QueryRunner.Release: whether the inherited release marks the runner released is chosen by the oracle (`marksReleased`), because that code is not part of this model; a runner shared across operations may keep serving queries after `release`. Transaction depth, savepoints, `startTransaction` and `rollbackTransaction` are inherited without change and not modelled; the statements they run would mark the runner dirty like any other write.
- QueryRunner.CommitTransaction: the inherited commit's own `query` call is reduced to one trace event and a `dirtied` flag chosen by the oracle, rather than replayed as a nested `Query` of `COMMIT`. Its logs, broadcasts, `prepare` and `free` do not appear in the trace, and a failed inherited commit is assumed to leave the state as it was.
- `SqljsDriver` is not part of this model. `autoSave` is an oracle that succeeds or throws, and the driver's options are reduced to `maxQueryExecutionTime`.
- The constructor only wires collaborators; `QueryRunner.NewSession` is the state it leaves.
- Concurrency: operations are steps of one session, as the code expects of its callers.
- Params.Normalise: sparse arrays are not modelled. `Array.prototype.map` skips holes and keeps them as holes, so a missing element is not turned into `null`; a `Value` list has no holes.
