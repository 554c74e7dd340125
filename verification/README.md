# txn — a Dafny model of the transaction runner

`txn` is a Go library that runs a unit of work inside a database transaction. The library
has three layers:

- **Single attempt.** `txn.Execute` checks the context and derives a deadline when the
  doer's timeout exceeds one millisecond. It then begins a transaction, runs the work
  function and commits. When the work or the commit fails it rolls back. It recovers a panic
  unless the doer asks for it to be rethrown. Each error is tagged with the phase it came
  from: `[txn begin]`, `[txn do]`, `[txn commit]`, `[txn recover]` or `[rollback]`.
- **Probe.** `txn.Ping` pings the backend until one ping succeeds or the limit is passed.
  The base delay between pings is `cnt²` seconds, capped at 64s.
- **Adapters.** Each adapter (pgx, MongoDB, database/sql) supplies a transaction handle, a
  `BeginTxn` and an outer retry loop. The loop repeats the attempt until it succeeds, hits
  the `MaxRetry` ceiling, or the probe finds the backend "connected". "Connected" means the
  first ping succeeded, so the failure was not a connectivity problem.

A doer's configuration is a record of six fields: title, rethrow flag, timeout, ping limit,
retry limit and options. The record is changed only by field setters applied in order.

The model is made of pure functions over immutable datatypes:

- **Scripted backends.** Drivers, pools, sessions, work functions and ping functions are
  *scripts* of answers: `Ok`, `Fail(error)` or `Panic(value)`.
- **Traces.** Every operation returns what it returned, together with the trace of backend
  calls it made.
- **Errors.** Errors are a tree that mirrors Go's `%w` wrapping. `Errors.Wraps` plays the
  role of `errors.Is`.
- **Retry loops.** The loops are recursive functions over a finite script of passes. When
  the script runs out before the loop ends, the result is `Pending`.

| file | module | models |
|---|---|---|
| wrappers.dfy | `Wrappers` | `Option`, `Result` |
| errors.dfy | `Errors` | the error tree, phase tags, `errors.Is`, scripted answers |
| fields.dfy | `Fields` | `DoerFields`, the `With*` setters, `MultiSet`, `NewDoerFields`, `Reset` and the base stubs (txn.go) |
| exec.dfy | `Exec` | contexts and `txn.Execute` (txn_exec.go) |
| probe.dfy | `Probe` | `txn.Ping` (txn_ping.go) |
| retry.dfy | `Retry` | the retry ceiling, the connected verdict, loop traces and their bookkeeping |
| pgx.dfy, pgx_exec.dfy | `Pgx`, `PgxExec` | txn_pgx/txn_pgx.go, txn_pgx/txn_pgx_exec.go |
| mongo.dfy, mongo_exec.dfy | `Mongo`, `MongoExec` | txn_mongo/txn_mongo.go, txn_mongo/txn_mongo_exec.go |
| sql.dfy, sql_exec.dfy | `Sql`, `SqlExec` | txn_sql/txn_sql.go, txn_sql/txn_sql_exec.go |

Where the code is surprising, or does not compile as written, the model takes these readings:

- **`Ping` with a limit of zero or less** uses a limit of 3 (txn_ping.go:41-43), as its doc
  comment says (txn_ping.go:18). It does not mean "no pings".
- **A ping that succeeds on attempt `limit+1`** returns that count with a nil error. The
  retry-limit message only ever wraps an error.
- **The mongo loop** stops on any connected verdict, including at retry 0. The
  `retries > 0` condition is commented out there (txn_mongo/txn_mongo_exec.go:93-98). pgx
  and sql keep it.
- **The sql adapter's presets.** `ReadOnly` and `ReadWrite` call setter methods (`SetTimeout`
  and others) that the base record does not declare. Their evident effect, one field each,
  is modelled with the matching `With*` setters.
- **The sql adapter's `Mutate`** is modelled the same way, as `MultiSet`.
- **The pgx and mongo `Execute` loops** assign the two results of `ExecuteOnce` to the one
  variable `err` (txn_pgx/txn_pgx_exec.go:86, txn_mongo/txn_mongo_exec.go:86), which Go
  rejects. The model uses the error result.
- **The sql loop** writes `_, err = ExecuteOnce(...)` (txn_sql/txn_sql_exec.go:149), but the
  sql package defines no `ExecuteOnce`. Its `SqlExecute` calls `txn.ExecuteTxn`
  (txn_sql/txn_sql.go:93), which the base package does not define either. The only
  single-attempt runner is `txn.Execute`, so both calls are modelled as `Sql.SqlExecute`
  running `Exec.Execute`.
- **The mongo loop** is modelled twice, selected by a flag: once with the as-written
  `BeginTxn`, which cannot find the session behind a deadline (see Findings), and once
  with the corrected one.

## Model

| member | source | states |
|---|---|---|
| Fields.Apply | txn.go:147-187 | a setter writes the value it carries into its own field and leaves the other five fields unchanged |
| Fields.MultiSet | txn.go:47-54 | the setters run in order: the last setter for a field decides it, and a field no setter writes keeps its value |
| Fields.MultiSetAppend | txn.go:47-54 | two `MultiSet` calls in a row equal one call with the concatenated setters |
| Fields.MultiSetNoSetters | txn.go:47-54 | `MultiSet` with no setters leaves the record as it was |
| Fields.NewDoerFields | txn.go:123-145 | no setters give the defaults ("Txn\`Nameless", no rethrow, 10s, 4 pings, 4 retries, nil options); nil setters are skipped; the last non-nil setter for a field wins; untouched fields keep their defaults |
| Fields.Present | txn.go:139-143 | a setter is kept iff it is a non-nil entry of the input; a single nil entry gives nothing, a single non-nil one gives itself |
| Fields.PresentAppend | txn.go:139-143 | the nil-skipping keeps order: the kept setters of `a + b` are those of `a` followed by those of `b` |
| Fields.ApplyPresent | txn.go:139-143 | the nil-skipping loop: the last non-nil setter for a field wins, and untouched fields keep their values |
| Fields.ApplyPresentIsMultiSet | txn.go:131-145 | skipping nil setters is `MultiSet` over the non-nil setters |
| Fields.Reset | txn.go:56-68 | refuses a nil record or a record with nil options with a nil-argument error and leaves the record unchanged; otherwise installs the record |
| Fields.ResetRefusesBareFields | txn.go:56-68 | a record built without an options setter is always refused by `Reset` |
| Fields.ResetAsReadOnly | txn.go:70-73 | the base version returns a not-implemented error and changes nothing |
| Fields.ResetAsReadWrite | txn.go:75-78 | the base version returns a not-implemented error and changes nothing |
| Fields.BeginTxn | txn.go:80-83 | the base version never yields a handle; its error is not-implemented |
| Exec.AttemptContext | txn_exec.go:19-23 | a child deadline is derived exactly when the timeout exceeds 1ms; cancellation is unchanged |
| Exec.AfterRollback | txn_exec.go:42-53 | after a failed work or commit, the error wraps the primary error under its phase tag and adds the rollback error under `[rollback]`; a panicking rollback raises |
| Exec.Body | txn_exec.go:41-56 | commit is called exactly when the work succeeded; nil with trace work, commit exactly when both succeed |
| Exec.Recovery | txn_exec.go:28-40 | with rethrow the panic escapes with the trace unchanged; otherwise one rollback is added; a non-panicking rollback gives an error wrapping the recovered value under `[txn recover]`, a failing one also keeps the rollback error under `[rollback]`; a panicking rollback escapes with its own value |
| Exec.Execute | txn_exec.go:14-58 | nil iff the context is live and begin, work and commit all succeed (trace begin, work, commit); a cancelled context fails before any call with its cause under `[txn context done]`; begin comes first, once, under the attempt context; nothing follows a failed begin |
| Exec.DeadlineOnlyAboveOneMillisecond | txn_exec.go:19-23 | begin sees a deadline context iff the timeout exceeds 1ms |
| Exec.BeginFailureEndsAttempt | txn_exec.go:25-27 | a failing begin returns its error under `[txn begin]` and calls nothing else |
| Exec.WorkFailureRollsBack | txn_exec.go:41-47 | a failing work function is rolled back; the error carries `[txn do]`, plus `[rollback]` when the rollback fails; commit is never called |
| Exec.CommitFailureRollsBack | txn_exec.go:48-53 | a failing commit is rolled back; the error carries `[txn commit]` |
| Exec.WorkPanicRecovered | txn_exec.go:28-40 | without rethrow, a panicking work function is rolled back and becomes a `[txn recover]` error |
| Exec.PanicRethrown | txn_exec.go:30-32 | with rethrow, the panic escapes and no rollback is made |
| Exec.CommitPanicRecovered | txn_exec.go:28-53 | without rethrow, a panicking commit is rolled back once and becomes a `[txn recover]` error; a failing rollback's error is merged in under `[rollback]` |
| Exec.RecoveryRollbackPanicEscapes | txn_exec.go:28-40 | a rollback that panics inside the recovery handler escapes `Execute` with its own value, after one rollback |
| Exec.RollbackPanicRecoveredOnce | txn_exec.go:28-46 | a rollback that panics after a failed work function reaches the recovery handler, which rolls back a second time and reports the rollback's panic as a `[txn recover]` error |
| Probe.NormalizedLimit | txn_ping.go:41-43 | a limit of zero or less becomes 3; a positive limit is kept |
| Probe.Delay | txn_ping.go:61-64 | the base delay is `cnt²` seconds, capped at 64 seconds |
| Probe.AttemptAnswer | txn_ping.go:45-53 | a nil ping function fails every attempt with a nil-argument error |
| Probe.Attempts | txn_ping.go:44-73 | every attempt before the last failed; the loop stops on a success, a panic or attempt limit+1; the error is nil iff the last attempt succeeded, the limit error wraps the last failure, a panic is recovered; `count` sees every attempt up to the limit with its delay; one sleep between attempts |
| Probe.Ping | txn_ping.go:24-78 | between 1 and limit+1 attempts are made, with the normalised limit |
| Probe.PingFirstSuccess | txn_ping.go:54-70 | a first success at attempt k returns (k, nil) after exactly k calls and k-1 sleeps |
| Probe.PingSuccessOnLastAttempt | txn_ping.go:54-60 | a success on attempt limit+1 returns (limit+1, nil); `count` saw attempts 1..limit |
| Probe.PingCountsSuccess | txn_ping.go:65-70 | `count` is also called for a success within the limit, with its delay |
| Probe.PingAllFail | txn_ping.go:54-60 | when every attempt fails, limit+1 attempts run and the limit error wraps the last one |
| Probe.PingNilFunction | txn_test.go:49-54 | a nil ping function with limit 2 gives count 3 and a limit error |
| Probe.PingTestImmediateSuccess | txn_test.go:11-19 | an immediately successful ping returns count 1 and nil |
| Probe.PingTestSecondTry | txn_test.go:22-35 | a ping that succeeds on the second try returns count 2 and nil |
| Probe.PingTestLimitReached | txn_test.go:38-46 | a ping that always fails with limit 2 returns count 3 and the limit error |
| Probe.NonPositiveLimitIsThree | txn_ping.go:41-43 | any limit of zero or less behaves exactly like a limit of 3 |
| Retry.Ceiling | txn_pgx/txn_pgx_exec.go:80 | the test at the top of each pass, `retries > MaxRetry() && MaxRetry() > 0`; its effect is stated by the loops' `NeverConnectedHitsCeiling` and `NoCeilingWithoutMaxRetry` lemmas |
| Retry.Connected | txn_pgx/txn_pgx_exec.go:90-93 | the verdict `x == nil && pings <= 1` on the probe's report; `Retry.ConnectedIffFirstPingOk` reduces it to the first ping |
| Retry.ConnectedIffFirstPingOk | txn_pgx/txn_pgx_exec.go:90-93 | the verdict `x == nil && pings <= 1` holds iff the first ping succeeds |
| Pgx.ResetAsReadOnly | txn_pgx/txn_pgx.go:52-69 | the read-only preset installs "TxnRo\`title", no rethrow, 2s, 2 pings, 1 retry, read-committed read-only not-deferrable options, and succeeds |
| Pgx.ResetAsReadWrite | txn_pgx/txn_pgx.go:71-88 | the read-write preset installs "TxnRw\`title", 5s, 8 pings, 2 retries, read-write options, and succeeds |
| Pgx.IsReadOnly | txn_pgx/txn_pgx.go:44-50 | false with nil options, otherwise whether the access mode is read-only; `Pgx.PresetsDecideReadOnly` relates it to the presets |
| Pgx.PresetsDecideReadOnly | txn_pgx/txn_pgx.go:44-50 | `IsReadOnly` is true after the read-only preset, false after the read-write one, false with nil options |
| Pgx.Commit | txn_pgx/txn_pgx.go:95-101 | a nil raw transaction is refused without a driver call; otherwise the driver's commit answer |
| Pgx.Rollback | txn_pgx/txn_pgx.go:103-109 | a nil raw transaction is refused without a driver call; otherwise the driver's rollback answer |
| Pgx.BeginTxn | txn_pgx/txn_pgx.go:124-137 | begins with a copy of the options, or the zero options when nil; a handle iff no error |
| Pgx.BegunHandleReachesDriver | txn_pgx/txn_pgx.go:95-137 | a handle from a successful `BeginTxn` has a non-nil `Raw`, so its `Commit` and `Rollback` pass the nil guard, call the driver once and return its answer |
| Pgx.ExecuteOnce | txn_pgx/txn_pgx.go:111-115 | nil iff the context is live and begin, work and commit succeed; an escaped panic needs rethrow or a panicking begin or rollback |
| PgxExec.Loop | txn_pgx/txn_pgx_exec.go:78-99 | at most MaxRetry+1 attempts; every failure is probed with MaxPing; nothing follows a success; a returned error is the latest attempt's, unchanged; a probed failure returns right after its probe iff the verdict is connected and the retry count is above 0, and otherwise another pass follows unless the ceiling is reached or the script ran out; an early stop without a step happens only at the ceiling |
| PgxExec.Execute | txn_pgx/txn_pgx_exec.go:61-100 | the setters are applied once with `MultiSet`; from retry 0 the error is the latest attempt's, at most MaxRetry+1 attempts run, and each probe stops the loop iff connected at a retry above 0 |
| PgxExec.HealthyPoolRetriesOnce | txn_pgx/txn_pgx_exec.go:93-97 | a connected verdict at retry 0 still retries; failing twice against a healthy pool makes exactly two attempts and returns the second error |
| PgxExec.NeverConnectedHitsCeiling | txn_pgx/txn_pgx_exec.go:79-85 | with MaxRetry N > 0 and no connected verdict, exactly N+1 failing attempts run and the last error is returned |
| PgxExec.NoCeilingWithoutMaxRetry | txn_pgx/txn_pgx_exec.go:80 | with MaxRetry 0 or less the loop never stops on the ceiling: with no connected verdict it consumes every pass |
| Mongo.DefaultSetters | txn_mongo/txn_mongo.go:50-63 | the defaults write every field, each exactly once |
| Mongo.DefaultSettersApplied | txn_mongo/txn_mongo.go:50-63 | applied, the defaults give "Txn\`title", no rethrow, 5s, 4 pings, 2 retries, empty options, and `Reset` accepts the record |
| Mongo.Commit | txn_mongo/txn_mongo.go:71-78 | a nil session is refused without calls; otherwise commit, then always end the session |
| Mongo.Rollback | txn_mongo/txn_mongo.go:80-88 | a nil session is refused without calls; otherwise abort, then always end the session |
| Mongo.HandleEndsSession | txn_mongo/txn_mongo.go:71-88 | whatever the driver answers, the session is ended exactly once, as the last call |
| Mongo.SessionOf | txn_mongo/txn_mongo.go:121-126 | a session context yields its session; a bare context yields none |
| Mongo.StartOn | txn_mongo/txn_mongo.go:127-136 | starts the transaction with the doer's transaction options; a handle on the session iff the start succeeds |
| Mongo.BeginTxnAsWritten | txn_mongo/txn_mongo.go:121-137 | only a context whose outermost layer is the session context is accepted; anything else fails with "no mongodb_session on current context" and no calls |
| Mongo.BeginTxn | txn_mongo/txn_mongo.go:121-137 | corrected version: a handle iff the context carries a session, looked up through deadlines, and the start succeeds |
| Mongo.BeginTxnAgreesOnSessionContext | txn_mongo/txn_mongo.go:123-126 | both versions agree on a session context |
| Mongo.BeginAnswer | txn_mongo/txn_mongo.go:121-137 | `txn.Execute` sees success exactly when `BeginTxn` returned no error |
| Mongo.SessionContext | txn_mongo/txn_mongo.go:105-111 | the context handed to `txn.Execute` is a session context for the started session; cancellation is unchanged |
| Mongo.ExecuteOnceAsWritten | txn_mongo/txn_mongo.go:90-112 | a failed session start is returned at once; otherwise the session is started and ended, and `txn.Execute` runs in the session context with the as-written `BeginTxn` |
| Mongo.ExecuteOnce | txn_mongo/txn_mongo.go:90-112 | corrected version (with `Mongo.BeginTxn`): a failed session start is returned at once; otherwise the session is started with the session options and always ended; the attempt's context carries the session; nil iff the session and transaction start and the work and commit succeed |
| Mongo.SessionHiddenByDeadline | txn_mongo/txn_mongo.go:105-126 | as written, any timeout above 1ms makes every attempt fail at begin with the no-session error |
| Mongo.DefaultsNeverBeginAsWritten | txn_mongo/txn_mongo.go:50-63 | with the default setters, the as-written attempt fails even against a perfect backend, and the corrected one succeeds |
| Mongo.VersionsAgreeWithoutDeadline | txn_mongo/txn_mongo.go:105-109 | with a timeout of at most 1ms the two versions behave identically |
| Mongo.Mutate | txn_mongo/txn_mongo_exec.go:28-40 | no setters change nothing; otherwise the last `WithBeginner` decides the beginner |
| Mongo.MutateAppend | txn_mongo/txn_mongo_exec.go:28-34 | two `Mutate` calls in a row equal one call with the concatenated setters |
| MongoExec.Loop | txn_mongo/txn_mongo_exec.go:78-100 | for the as-written and the corrected attempt alike: at most MaxRetry+1 attempts; every failure is probed; nothing follows a success; the returned error is the latest attempt's; a probed failure returns right after its probe iff the verdict is connected, retry 0 included, and otherwise another pass follows unless the ceiling is reached or the script ran out |
| MongoExec.Execute | txn_mongo/txn_mongo_exec.go:42-100 | the doer is the defaults for the type title followed by the caller's setters; from retry 0 the error is the latest attempt's, at most MaxRetry+1 attempts run, and each probe stops the loop iff connected |
| MongoExec.CallerSettersOverride | txn_mongo/txn_mongo_exec.go:46 | a caller setter overrides the default for its field; fields no caller setter writes keep the preset values |
| MongoExec.DefaultsAllowThreeAttempts | txn_mongo/txn_mongo_exec.go:46-85 | unless the caller sets MaxRetry, at most three attempts are made |
| MongoExec.HealthyClientStopsAtOnce | txn_mongo/txn_mongo_exec.go:93-98 | a failure against a healthy client ends after exactly one attempt and returns its error |
| MongoExec.NeverConnectedHitsCeiling | txn_mongo/txn_mongo_exec.go:79-85 | with MaxRetry N > 0 and no connected verdict, exactly N+1 failing attempts run and the last error is returned |
| MongoExec.AsWrittenAttemptFails | txn_mongo/txn_mongo.go:90-126 | as written, with a timeout above 1ms every attempt on a live context returns an error |
| MongoExec.AsWrittenNeverCommits | txn_mongo/txn_mongo_exec.go:78-100 | as written, with a timeout above 1ms the loop never returns nil and no panic escapes: it returns an error or runs out of script |
| MongoExec.DefaultsNeverCommitAsWritten | txn_mongo/txn_mongo_exec.go:42-48 | as written, unless the caller changes the preset 5s timeout, `Execute` never commits |
| Sql.IsReadOnly | txn_sql/txn_sql.go:33-35 | the options' read-only flag; undefined (a nil dereference) exactly when the options are nil |
| Sql.Stmt | txn_sql/txn_sql.go:37-39 | the doer's statement slot; `Sql.StmtRoundTrip` reads back what `SetStmt` wrote |
| Sql.SetStmt | txn_sql/txn_sql.go:41-43 | `Stmt` returns the statement set, and the fields are unchanged |
| Sql.StmtRoundTrip | txn_sql/txn_sql.go:37-43 | setting the current statement changes nothing; the last `SetStmt` wins |
| Sql.ApplyPreset | txn_sql/txn_sql.go:45-63 | a preset sets rethrow, timeout, read-committed options and title, and keeps the ping and retry limits and the statement |
| Sql.ReadOnly | txn_sql/txn_sql.go:45-53 | 150ms, no rethrow, read-committed read-only options, title "TxnRo.title" |
| Sql.ReadWrite | txn_sql/txn_sql.go:55-63 | 200ms, no rethrow, read-committed read-write options, title "TxnRw.title" |
| Sql.PresetsDecideReadOnly | txn_sql/txn_sql.go:33-63 | `IsReadOnly` follows the last preset applied |
| Sql.Commit | txn_sql/txn_sql.go:71-73 | there is no nil guard: a nil raw transaction panics; otherwise one driver commit, nil iff the driver succeeds |
| Sql.Rollback | txn_sql/txn_sql.go:75-77 | there is no nil guard: a nil raw transaction panics; otherwise one driver rollback, nil iff the driver succeeds |
| Sql.SqlBeginTxn | txn_sql/txn_sql.go:83-89 | begins with the options as given; a handle iff no error |
| Sql.IsNil | txn_sql/txn_sql.go:79-81 | the handle's raw transaction is nil; `Sql.BegunHandleIsNotNil` shows a begun handle never is |
| Sql.BegunHandleIsNotNil | txn_sql/txn_sql.go:79-89 | a handle from a successful begin is not nil, so its commit and rollback never panic |
| Sql.SqlExecute | txn_sql/txn_sql.go:91-94 | nil iff the context is live and begin, work and commit succeed; an escaped panic needs rethrow or a panicking begin or rollback |
| SqlExec.CachedStmt | txn_sql/txn_sql_exec.go:33-40 | the module's cached statement; `SqlExec.PrepareReusesCache` and `SqlExec.CloseIsIdempotent` state how `Prepare` and `Close` use it |
| SqlExec.Prepare | txn_sql/txn_sql_exec.go:65-81 | the maker is called iff the cache is empty; its statement is cached even when it also returns an error; on failure the doer's statement is emptied, on success it is the cached one |
| SqlExec.PrepareReusesCache | txn_sql/txn_sql_exec.go:65-81 | once a statement is cached, the next `Prepare` reuses it without the maker |
| SqlExec.Close | txn_sql/txn_sql_exec.go:54-63 | closes a cached statement and empties the cache even when closing fails; an empty cache closes nothing and returns nil |
| SqlExec.CloseIsIdempotent | txn_sql/txn_sql_exec.go:54-63 | a second `Close` calls nothing and returns nil |
| SqlExec.PrepareAfterCloseCallsMaker | txn_sql/txn_sql_exec.go:54-81 | after `Close`, the next `Prepare` calls the maker |
| SqlExec.PassError | txn_sql/txn_sql_exec.go:153-158 | a failed attempt's error wraps the attempt error under `[exec]`, and the close error under `[Close]` when closing failed |
| SqlExec.Loop | txn_sql/txn_sql_exec.go:125-168 | one `Prepare` per pass, at most MaxRetry+1; attempts only after a successful prepare; failed attempts are closed then probed; failed prepares are probed; nothing follows a success; a panic escapes only from an attempt; the returned error is the latest prepare or tagged attempt error; only the statement slot and cache change; after a failed prepare or a failed and closed attempt, the probe is the last step iff the verdict is connected and the retry count is above 0, and otherwise another pass follows unless the ceiling is reached or the script ran out |
| SqlExec.Attempted | txn_sql/txn_sql_exec.go:146-168 | the rest of a pass after a successful prepare keeps the loop's guarantees, the stop rule included |
| SqlExec.Execute | txn_sql/txn_sql_exec.go:110-169 | the setters are applied once; from retry 0 the returned error is the latest prepare or tagged attempt error, at most MaxRetry+1 prepares run, and each probe stops the loop iff connected at a retry above 0 |
| SqlExec.ExecuteAsWritten | txn_sql/txn_sql_exec.go:114-119 | without a logger in the context the call panics before the first pass; with one it is `Execute` |
| SqlExec.MissingLoggerPanics | txn_sql/txn_sql_exec.go:115-119 | without a logger, a pass that would succeed still panics as written, while the corrected loop returns nil |
| SqlExec.UnpreparableStatementStopsOnSecondPass | txn_sql/txn_sql_exec.go:133-145 | a statement that cannot be prepared against a healthy database retries once and then returns the prepare error, with no attempt made |
| SqlExec.FailedAttemptTaggedAndClosed | txn_sql/txn_sql_exec.go:149-166 | after a retry, a failed attempt against a healthy database returns its error tagged `[exec]` (merged with the close error), after one attempt, with the cache emptied |
| SqlExec.NeverPreparedHitsCeiling | txn_sql/txn_sql_exec.go:126-145 | with MaxRetry N > 0 and prepares that always fail with no connected verdict, exactly N+1 passes run, no attempt is made, and the last prepare error is returned |

## Left out

- Logging (`slog`), timing and durations in log lines: they have no effect on results. The one exception is the missing nil-logger fallback in the sql loop (see Findings).
- Mutexes: the model is sequential and every operation is atomic.
- Jitter and real sleeping in `Ping`: the base delays are recorded, not slept.
- The 2-second per-ping context and the 3-second context of `Prepare`: the ping and maker scripts do not depend on them.
- Deadline expiry: there is no clock, so derived deadlines are recorded but never fire. Only cancellation observed at the root context is modelled.
- Real drivers, pools, sessions and statements: they are parameters (scripts of answers) and opaque ids.
- The reflection-based `title` helper: its result is the parameter `typeTitle` of `MongoExec.Execute`.
- The `Options()` type assertion: options are typed in the model, so it cannot fail.
- Error message texts and the `debug.Stack` dump: errors are a tree of causes and tags.
- The accessors `Title`, `Rethrow`, `Timeout`, `MaxPing`, `MaxRetry`: they are the destructors of `Fields.DoerFields`.
- The setter methods of `DoerBase`: `MultiSet` runs the `With*` setters directly.
- A nil setter passed to `MultiSet`: it would panic; the model's setters are never nil.
- `RunTicker` (txn_misc.go): a timer loop outside the transaction logic.
- The adapters' `Ping` wrappers: each is `txn.Ping` with the driver's ping, which is `Probe.Ping` with a scripted ping function.
- `ExecuteRw` and `ExecuteRo` in the pgx and sql adapters: they call `ReadWriteSetters` and `ReadOnlySetters`, which no doer type defines.
- The pgx doer's statement slot and mongo's `Client`/`SetClient`: plain storage with no logic.
- `Init` and `Beginner` of the sql module: plain storage. The module's beginner is unchanged by the loop (`SqlExec.Loop` states it).
- Begin returning a nil handle together with a nil error: the model's begin gives a handle exactly when it gives no error.
- Probe.Attempts: `cnt` is unbounded, so the `time.Duration(cnt*cnt)` overflow of Go's `int64` is not modelled. The cap at 64s is reached from `cnt = 8` on, long before any overflow.
- PgxExec.Loop: with MaxRetry 0 or less the source has no ceiling and loops until a success or a connected verdict; the model follows it only for as many passes as the script holds, then ends `Pending`.
- MongoExec.Loop: the same bound by the length of the pass script applies when MaxRetry is 0 or less.
- SqlExec.Loop: the same bound by the length of the pass script applies when MaxRetry is 0 or less.
- Mongo.ExecuteOnce: the handle's `Commit` and `Rollback` inside the attempt are seen through the attempt's answers. The session-level calls they make are stated separately by `Mongo.Commit`, `Mongo.Rollback` and `Mongo.HandleEndsSession`.

## Findings

| source | as written | input that shows it | evidently intended | confidence | as-written member | corrected member |
|---|---|---|---|---|---|---|
| txn_mongo/txn_mongo.go:105-126 | `ExecuteOnce` wraps the session context around the deadline, but `txn.Execute` then derives its own deadline from that session context. `BeginTxn` takes the session by a type assertion on the context it receives, which is now a plain deadline context, so the assertion fails. | any doer with a timeout above 1ms, e.g. the 5s of `DefaultSetters`; a live context, a session that starts, and a backend that would succeed | begin finds the session through the deadline (as `mongo.SessionFromContext` does), so the attempt can succeed | not executed | Mongo.SessionHiddenByDeadline | Mongo.DefaultsNeverBeginAsWritten |
| txn_sql/txn_sql_exec.go:115-119 | the logger is taken from the context with no fallback, so `logger` stays a nil `*slog.Logger` and `logger.With` dereferences it | a context with no "logger" value | fall back to `slog.Default()` as the pgx and mongo loops do (txn_pgx/txn_pgx_exec.go:66-71) | not executed | SqlExec.MissingLoggerPanics | SqlExec.Execute |
