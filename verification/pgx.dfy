/**
  The pgx adapter (txn_pgx/txn_pgx.go): transaction options, the read-only and read-write
  presets, the handle whose `Commit`/`Rollback` guard against a nil raw transaction,
  `BeginTxn` and `ExecuteOnce`. Driver answers are parameters; driver calls are recorded.
*/
module Pgx {
  import opened Wrappers
  import opened Errors
  import Fields
  import Exec

  /** `pgx.TxIsoLevel`, `pgx.TxAccessMode`, `pgx.TxDeferrableMode`; `Unset` is the empty string. */
  datatype IsoLevel = IsoUnset | Serializable | RepeatableRead | ReadCommitted | ReadUncommitted
  datatype AccessMode = AccessUnset | ReadWrite | ReadOnly
  datatype DeferrableMode = DeferrableUnset | Deferrable | NotDeferrable

  /** `pgx.TxOptions`. */
  datatype TxOptions = TxOptions(isoLevel: IsoLevel, accessMode: AccessMode, deferrableMode: DeferrableMode, beginQuery: string)

  /** The zero value `pgx.TxOptions{}`. */
  const ZeroOptions: TxOptions := TxOptions(IsoUnset, AccessUnset, DeferrableUnset, "")

  type Doer = Fields.DoerFields<TxOptions>

  /** `IsReadOnly`: false without options, otherwise whether the access mode is read-only. */
  predicate IsReadOnly(d: Doer)
  {
    d.options.Some? && d.options.value.accessMode == ReadOnly
  }

  /** `ResetAsReadOnly`: a fresh record for a short read-only transaction, installed by `Reset`. */
  function ResetAsReadOnly(cur: Doer, title: string): (r: Fields.Updated<TxOptions>)
    ensures r.err.None?
    ensures r.fields.title == "TxnRo`" + title && !r.fields.rethrow
    ensures r.fields.timeout == 2 * Fields.Second && r.fields.maxPing == 2 && r.fields.maxRetry == 1
    ensures r.fields.options == Some(TxOptions(ReadCommitted, ReadOnly, NotDeferrable, ""))
    ensures IsReadOnly(r.fields)
  {
    var options := TxOptions(ReadCommitted, ReadOnly, NotDeferrable, "");
    var ss := [
      Some(Fields.WithTitle("TxnRo`" + title)),
      Some(Fields.WithRethrow(false)),
      Some(Fields.WithTimeout(2 * Fields.Second)),
      Some(Fields.WithMaxPing(2)),
      Some(Fields.WithMaxRetry(1)),
      Some(Fields.WithOptions(Some(options)))];
    assert Fields.LastPresent(ss, 0) && Fields.LastPresent(ss, 1) && Fields.LastPresent(ss, 2);
    assert Fields.LastPresent(ss, 3) && Fields.LastPresent(ss, 4) && Fields.LastPresent(ss, 5);
    var fields := Fields.NewDoerFields(ss);
    Fields.Reset(cur, Some(fields))
  }

  /** `ResetAsReadWrite`: a fresh record for a read-write transaction, installed by `Reset`. */
  function ResetAsReadWrite(cur: Doer, title: string): (r: Fields.Updated<TxOptions>)
    ensures r.err.None?
    ensures r.fields.title == "TxnRw`" + title && !r.fields.rethrow
    ensures r.fields.timeout == 5 * Fields.Second && r.fields.maxPing == 8 && r.fields.maxRetry == 2
    ensures r.fields.options == Some(TxOptions(ReadCommitted, ReadWrite, NotDeferrable, ""))
    ensures !IsReadOnly(r.fields)
  {
    var options := TxOptions(ReadCommitted, ReadWrite, NotDeferrable, "");
    var ss := [
      Some(Fields.WithTitle("TxnRw`" + title)),
      Some(Fields.WithRethrow(false)),
      Some(Fields.WithTimeout(5 * Fields.Second)),
      Some(Fields.WithMaxPing(8)),
      Some(Fields.WithMaxRetry(2)),
      Some(Fields.WithOptions(Some(options)))];
    assert Fields.LastPresent(ss, 0) && Fields.LastPresent(ss, 1) && Fields.LastPresent(ss, 2);
    assert Fields.LastPresent(ss, 3) && Fields.LastPresent(ss, 4) && Fields.LastPresent(ss, 5);
    var fields := Fields.NewDoerFields(ss);
    Fields.Reset(cur, Some(fields))
  }

  /** The calls the adapter makes on the pool and on a raw `pgx.Tx`. */
  datatype DriverCall = BeginTx(options: TxOptions) | RawCommit(tx: nat) | RawRollback(tx: nat)

  /** The handle `Txn{Raw}`; `raw` is `None` when `Raw` is nil. */
  datatype Txn = Txn(raw: Option<nat>)

  /** The error a handle method returned and the driver calls it made. */
  datatype HandleRun = HandleRun(err: Option<Error>, calls: seq<DriverCall>)

  /** `Txn.Commit`: refuses a nil `Raw` without touching the driver, else commits it. */
  function Commit(t: Txn, driver: Option<Error>): (r: HandleRun)
    ensures t.raw.None? ==> r.err.Some? && r.calls == []
    ensures t.raw.Some? ==> r.err == driver && r.calls == [RawCommit(t.raw.value)]
  {
    if t.raw.None? then HandleRun(Some(Message("cancelling Commit, Raw is nil")), [])
    else HandleRun(driver, [RawCommit(t.raw.value)])
  }

  /** `Txn.Rollback`: refuses a nil `Raw` without touching the driver, else rolls it back. */
  function Rollback(t: Txn, driver: Option<Error>): (r: HandleRun)
    ensures t.raw.None? ==> r.err.Some? && r.calls == []
    ensures t.raw.Some? ==> r.err == driver && r.calls == [RawRollback(t.raw.value)]
  {
    if t.raw.None? then HandleRun(Some(Message("cancelling Rollback, Raw is nil")), [])
    else HandleRun(driver, [RawRollback(t.raw.value)])
  }

  /** What `BeginTxn` returned, and the driver call it made. */
  datatype Begun = Begun(handle: Option<Txn>, err: Option<Error>, calls: seq<DriverCall>)

  /**
    `BeginTxn`: begins with a copy of the options (the zero value when they are nil);
    `driver` is the pool's answer, a raw transaction or an error.
  */
  function BeginTxn(opt: Option<TxOptions>, driver: Result<nat, Error>): (r: Begun)
    ensures r.calls == [BeginTx(if opt.Some? then opt.value else ZeroOptions)]
    ensures r.handle.None? <==> r.err.Some?
    ensures driver.Failure? ==> r.err == Some(driver.error)
    ensures driver.Success? ==> r.handle == Some(Txn(Some(driver.value)))
  {
    var clone := if opt.Some? then opt.value else ZeroOptions;
    var calls := [BeginTx(clone)];
    match driver
    case Failure(e) => Begun(None, Some(e), calls)
    case Success(raw) => Begun(Some(Txn(Some(raw))), None, calls)
  }

  /**
    A handle from a successful `BeginTxn` is never nil: its `Commit` and `Rollback` get past
    the guard and hand the raw transaction's answer back unchanged.
  */
  lemma BegunHandleReachesDriver(opt: Option<TxOptions>, driver: Result<nat, Error>, answer: Option<Error>)
    requires driver.Success?
    ensures BeginTxn(opt, driver).handle.value.raw.Some?
    ensures Commit(BeginTxn(opt, driver).handle.value, answer) == HandleRun(answer, [RawCommit(driver.value)])
    ensures Rollback(BeginTxn(opt, driver).handle.value, answer) == HandleRun(answer, [RawRollback(driver.value)])
  {
  }

  /** `ExecuteOnce`: exactly `txn.Execute` on the same arguments; the doer is handed back unchanged. */
  function ExecuteOnce(ctx: Exec.Context, doer: Doer, s: Exec.Script): (r: Exec.Run)
    // nil exactly when begin, work and commit succeed, and then the trace is exactly those three calls
    ensures r.outcome == Exec.Done(None) <==>
      !Exec.IsDone(ctx) && s.begin(Exec.AttemptContext(ctx, doer.timeout)).Ok? && s.work.Ok? && s.commit.Ok?
    ensures r.outcome == Exec.Done(None) ==> r.trace == [Exec.BeginCall, Exec.WorkCall, Exec.CommitCall]
    // an escaped panic needs the doer's rethrow flag or a panicking begin or rollback
    ensures r.outcome.Panicked? && !doer.rethrow ==> Exec.RollbackCall in r.trace || r.trace == [Exec.BeginCall]
  {
    Exec.Execute(ctx, doer, s)
  }

  /** The presets decide `IsReadOnly`: true after the read-only one, false after the read-write one. */
  lemma PresetsDecideReadOnly(cur: Doer, title: string)
    ensures IsReadOnly(ResetAsReadOnly(cur, title).fields)
    ensures !IsReadOnly(ResetAsReadWrite(cur, title).fields)
    ensures !IsReadOnly(cur.(options := None))
  {
  }
}
