/**
  The database/sql adapter (txn_sql/txn_sql.go): the doer with its prepared-statement slot,
  the read-only and read-write presets, `IsReadOnly`, the handle `SqlTxn` and `SqlBeginTxn`.
  The presets are written against setter methods the base record does not have; their
  intended effect, one field each, is modelled as `MultiSet` with the matching setters.
*/
module Sql {
  import opened Wrappers
  import opened Errors
  import Fields
  import Exec

  /** `sql.IsolationLevel`. */
  datatype Isolation =
    | LevelDefault | LevelReadUncommitted | LevelReadCommitted | LevelWriteCommitted
    | LevelRepeatableRead | LevelSnapshot | LevelSerializable | LevelLinearizable

  /** `sql.TxOptions`. */
  datatype SqlOptions = SqlOptions(isolation: Isolation, readOnly: bool)

  /** `SqlDoerBase`: the configuration record and the prepared statement; `None` is the empty statement. */
  datatype SqlDoer<S> = SqlDoer(fields: Fields.DoerFields<SqlOptions>, stmt: Option<S>)

  /** `IsReadOnly`: the read-only flag of the options; `None` stands for the nil dereference on nil options. */
  function IsReadOnly<S>(d: SqlDoer<S>): (r: Option<bool>)
    ensures r.None? <==> d.fields.options.None?
    ensures r.Some? ==> r.value == d.fields.options.value.readOnly
  {
    if d.fields.options.None? then None else Some(d.fields.options.value.readOnly)
  }

  /** `Stmt`: the statement slot. */
  function Stmt<S>(d: SqlDoer<S>): Option<S>
  {
    d.stmt
  }

  /** `SetStmt`: replaces the statement and nothing else. */
  function SetStmt<S>(d: SqlDoer<S>, s: Option<S>): (r: SqlDoer<S>)
    ensures Stmt(r) == s
    ensures r.fields == d.fields
  {
    d.(stmt := s)
  }

  /** Setting the statement that is already there changes nothing; the last `SetStmt` wins. */
  lemma StmtRoundTrip<S>(d: SqlDoer<S>, s: Option<S>, t: Option<S>)
    ensures SetStmt(d, Stmt(d)) == d
    ensures SetStmt(SetStmt(d, s), t) == SetStmt(d, t)
  {
  }

  /** The setters a preset applies, in the order the preset sets the fields. */
  function PresetSetters(timeout: int, readOnly: bool, title: string): seq<Fields.Setter<SqlOptions>>
  {
    [ Fields.WithRethrow(false),
      Fields.WithTimeout(timeout),
      Fields.WithOptions(Some(SqlOptions(LevelReadCommitted, readOnly))),
      Fields.WithTitle(title) ]
  }

  /** A preset's effect: rethrow, timeout, options and title set; ping and retry limits and the statement kept. */
  function ApplyPreset<S>(d: SqlDoer<S>, timeout: int, readOnly: bool, title: string): (r: SqlDoer<S>)
    ensures !r.fields.rethrow && r.fields.timeout == timeout && r.fields.title == title
    ensures r.fields.options == Some(SqlOptions(LevelReadCommitted, readOnly))
    ensures r.fields.maxPing == d.fields.maxPing && r.fields.maxRetry == d.fields.maxRetry
    ensures r.stmt == d.stmt
  {
    var ss := PresetSetters(timeout, readOnly, title);
    var f := Fields.MultiSet(d.fields, ss);
    assert Fields.LastFor(ss, 0) && Fields.LastFor(ss, 1) && Fields.LastFor(ss, 2) && Fields.LastFor(ss, 3);
    assert Fields.Holds(f, ss[0]) && Fields.Holds(f, ss[1]) && Fields.Holds(f, ss[2]) && Fields.Holds(f, ss[3]);
    assert Fields.Untouched(ss, Fields.MaxPingField) && Fields.Untouched(ss, Fields.MaxRetryField);
    d.(fields := f)
  }

  /** `ReadOnly(title)`: a 150ms read-committed read-only transaction titled "TxnRo.<title>". */
  function ReadOnly<S>(d: SqlDoer<S>, title: string): (r: SqlDoer<S>)
    ensures !r.fields.rethrow && r.fields.timeout == 150 * Fields.Millisecond
    ensures r.fields.options == Some(SqlOptions(LevelReadCommitted, true))
    ensures r.fields.title == "TxnRo." + title
    ensures r.fields.maxPing == d.fields.maxPing && r.fields.maxRetry == d.fields.maxRetry && r.stmt == d.stmt
  {
    ApplyPreset(d, 150 * Fields.Millisecond, true, "TxnRo." + title)
  }

  /** `ReadWrite(title)`: a 200ms read-committed read-write transaction titled "TxnRw.<title>". */
  function ReadWrite<S>(d: SqlDoer<S>, title: string): (r: SqlDoer<S>)
    ensures !r.fields.rethrow && r.fields.timeout == 200 * Fields.Millisecond
    ensures r.fields.options == Some(SqlOptions(LevelReadCommitted, false))
    ensures r.fields.title == "TxnRw." + title
    ensures r.fields.maxPing == d.fields.maxPing && r.fields.maxRetry == d.fields.maxRetry && r.stmt == d.stmt
  {
    ApplyPreset(d, 200 * Fields.Millisecond, false, "TxnRw." + title)
  }

  /** The presets decide `IsReadOnly`, and the later preset wins. */
  lemma PresetsDecideReadOnly<S>(d: SqlDoer<S>, t: string, u: string)
    ensures IsReadOnly(ReadOnly(d, t)) == Some(true)
    ensures IsReadOnly(ReadWrite(d, t)) == Some(false)
    ensures IsReadOnly(ReadWrite(ReadOnly(d, t), u)) == Some(false)
    ensures IsReadOnly(ReadOnly(ReadWrite(d, t), u)) == Some(true)
  {
  }

  /** The handle `SqlTxn{Raw}`; `raw` is `None` when `Raw` is nil. */
  datatype SqlTxn = SqlTxn(raw: Option<nat>)

  /** `IsNil`. */
  predicate IsNil(t: SqlTxn)
  {
    t.raw.None?
  }

  /** The calls the adapter makes on the database and on a raw `sql.Tx`. */
  datatype DriverCall = BeginTx(options: Option<SqlOptions>) | RawCommit(tx: nat) | RawRollback(tx: nat)

  /** What a handle method did: its answer, and the driver calls it made. */
  datatype HandleRun = HandleRun(answer: Answer, calls: seq<DriverCall>)

  /** The panic of a method call on a nil `*sql.Tx`. */
  const NilTx: string := "nil pointer dereference"

  /** `SqlTxn.Commit`: there is no nil guard, so a nil `Raw` panics; otherwise the driver's answer. */
  function Commit(t: SqlTxn, driver: Option<Error>): (r: HandleRun)
    ensures IsNil(t) ==> r == HandleRun(Panic(NilTx), [])
    ensures !IsNil(t) ==> r.calls == [RawCommit(t.raw.value)] && (r.answer.Ok? <==> driver.None?)
    ensures !IsNil(t) && driver.Some? ==> r.answer == Fail(driver.value)
  {
    if t.raw.None? then HandleRun(Panic(NilTx), [])
    else HandleRun(if driver.Some? then Fail(driver.value) else Ok, [RawCommit(t.raw.value)])
  }

  /** `SqlTxn.Rollback`: there is no nil guard, so a nil `Raw` panics; otherwise the driver's answer. */
  function Rollback(t: SqlTxn, driver: Option<Error>): (r: HandleRun)
    ensures IsNil(t) ==> r == HandleRun(Panic(NilTx), [])
    ensures !IsNil(t) ==> r.calls == [RawRollback(t.raw.value)] && (r.answer.Ok? <==> driver.None?)
    ensures !IsNil(t) && driver.Some? ==> r.answer == Fail(driver.value)
  {
    if t.raw.None? then HandleRun(Panic(NilTx), [])
    else HandleRun(if driver.Some? then Fail(driver.value) else Ok, [RawRollback(t.raw.value)])
  }

  /** What `SqlBeginTxn` returned, and the driver call it made. */
  datatype Begun = Begun(handle: Option<SqlTxn>, err: Option<Error>, calls: seq<DriverCall>)

  /** `SqlBeginTxn`: begins with the options as given; `driver` is the database's answer. */
  function SqlBeginTxn(opt: Option<SqlOptions>, driver: Result<nat, Error>): (r: Begun)
    ensures r.calls == [BeginTx(opt)]
    ensures r.handle.None? <==> r.err.Some?
    ensures driver.Failure? ==> r.err == Some(driver.error)
    ensures driver.Success? ==> r.handle == Some(SqlTxn(Some(driver.value)))
  {
    match driver
    case Failure(e) => Begun(None, Some(e), [BeginTx(opt)])
    case Success(raw) => Begun(Some(SqlTxn(Some(raw))), None, [BeginTx(opt)])
  }

  /** A handle from a successful begin is never nil, so its `Commit` and `Rollback` reach the driver. */
  lemma BegunHandleIsNotNil(opt: Option<SqlOptions>, driver: Result<nat, Error>, answer: Option<Error>)
    requires driver.Success?
    ensures !IsNil(SqlBeginTxn(opt, driver).handle.value)
    ensures !Commit(SqlBeginTxn(opt, driver).handle.value, answer).answer.Panic?
    ensures !Rollback(SqlBeginTxn(opt, driver).handle.value, answer).answer.Panic?
  {
  }

  /** `SqlExecute` (and the loop's `ExecuteOnce`): one attempt of `txn.Execute` with the doer's fields. */
  function SqlExecute<S>(ctx: Exec.Context, d: SqlDoer<S>, s: Exec.Script): (r: Exec.Run)
    // nil exactly when begin, work and commit succeed, and then the trace is exactly those three calls
    ensures r.outcome == Exec.Done(None) <==>
      !Exec.IsDone(ctx) && s.begin(Exec.AttemptContext(ctx, d.fields.timeout)).Ok? && s.work.Ok? && s.commit.Ok?
    ensures r.outcome == Exec.Done(None) ==> r.trace == [Exec.BeginCall, Exec.WorkCall, Exec.CommitCall]
    // an escaped panic needs the doer's rethrow flag or a panicking begin or rollback
    ensures r.outcome.Panicked? && !d.fields.rethrow ==> Exec.RollbackCall in r.trace || r.trace == [Exec.BeginCall]
  {
    Exec.Execute(ctx, d.fields, s)
  }
}
