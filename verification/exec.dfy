/**
  The single-attempt orchestrator `Execute` (txn_exec.go): context check, optional deadline,
  begin, work, commit, rollback on a work or commit failure, and panic recovery. The backend
  and the work function are a `Script` of answers; the result is the error (or escaped
  panic) together with the trace of backend calls made.
*/
module Exec {
  import opened Wrappers
  import opened Errors
  import Fields

  /**
    A context as a chain of layers. Only cancellation observed at the root is modelled;
    deadlines are recorded but never expire, because there is no clock.
  */
  datatype Context =
    | Root(done: bool, cause: Error)
    | Deadline(parent: Context, timeout: int)
    | Session(parent: Context, id: nat)

  /** `ctx.Done()` is closed. */
  predicate IsDone(ctx: Context)
  {
    match ctx
    case Root(d, _) => d
    case Deadline(p, _) => IsDone(p)
    case Session(p, _) => IsDone(p)
  }

  /** `ctx.Err()` of a context whose root was cancelled. */
  function CauseOf(ctx: Context): Error
  {
    match ctx
    case Root(_, c) => c
    case Deadline(p, _) => CauseOf(p)
    case Session(p, _) => CauseOf(p)
  }

  /** The context of one attempt: a child deadline only when the timeout exceeds 1ms. */
  function AttemptContext(ctx: Context, timeout: int): (c: Context)
    ensures c.Deadline? <==> timeout > Fields.Millisecond || ctx.Deadline?
    ensures timeout > Fields.Millisecond ==> c.parent == ctx && c.timeout == timeout
    ensures IsDone(c) == IsDone(ctx)
  {
    if timeout > Fields.Millisecond then Deadline(ctx, timeout) else ctx
  }

  /** The calls `Execute` makes: the doer's `BeginTxn`, the work function, `Commit`, `Rollback`. */
  datatype Call = BeginCall | WorkCall | CommitCall | RollbackCall

  /**
    The scripted answers of one attempt. `begin` sees the context it is called with;
    `rollback` answers the first `Rollback` call and `rollbackAgain` the second, which only
    happens when the first one panicked and the recovery handler rolls back again.
  */
  datatype Script = Script(
    begin: Context -> Answer,
    work: Answer,
    commit: Answer,
    rollback: Answer,
    rollbackAgain: Answer)

  /** What `Execute` hands back: a returned error (or nil), or a panic that escaped it. */
  datatype Outcome = Done(err: Option<Error>) | Panicked(value: string)

  /** The outcome, the calls made in order, and the context the backend calls received. */
  datatype Run = Run(outcome: Outcome, trace: seq<Call>, ctx: Context)

  /** How the guarded part (work, commit and their rollbacks) ended. */
  datatype Guarded = Returned(err: Option<Error>, trace: seq<Call>) | Raised(value: string, trace: seq<Call>)

  /** Rolling back after `primary` failed in phase `tag`. */
  function AfterRollback(primary: Error, tag: Tag, a: Answer, trace: seq<Call>): (g: Guarded)
    ensures g.trace == trace
    ensures g.Returned? <==> !a.Panic?
    ensures g.Returned? ==> g.err.Some? && Wraps(g.err.value, primary) && PhaseOf(g.err.value) == Some(tag)
    ensures a.Fail? ==> g.err.value.Merged? && Wraps(g.err.value, a.error) && g.err.value.secondaryTag == RollbackTag
    ensures a.Ok? ==> g.err == Some(Tagged(primary, tag))
  {
    match a
    case Ok => Returned(Some(Tagged(primary, tag)), trace)
    case Fail(x) => Returned(Some(Merged(primary, tag, x, RollbackTag)), trace)
    case Panic(p) => Raised(p, trace)
  }

  /** The work function, then `Commit`, inside the recovery boundary. */
  function Body(s: Script): (g: Guarded)
    ensures |g.trace| >= 1 && g.trace[0] == WorkCall && BeginCall !in g.trace
    ensures CommitCall in g.trace <==> s.work.Ok?
    ensures g == Returned(None, [WorkCall, CommitCall]) <==> s.work.Ok? && s.commit.Ok?
  {
    match s.work
    case Panic(p) => Raised(p, [WorkCall])
    case Fail(e) => AfterRollback(e, DoTag, s.rollback, [WorkCall, RollbackCall])
    case Ok =>
      match s.commit
      case Panic(p) => Raised(p, [WorkCall, CommitCall])
      case Fail(e) => AfterRollback(e, CommitTag, s.rollback, [WorkCall, CommitCall, RollbackCall])
      case Ok => Returned(None, [WorkCall, CommitCall])
  }

  /**
    The deferred recovery handler: rethrow, or roll back and turn the panic into an error;
    a rollback error is kept beside it, and a panicking rollback escapes with its own value.
  */
  function Recovery(p: string, rethrow: bool, a: Answer, trace: seq<Call>, ctx: Context): (r: Run)
    ensures rethrow ==> r == Run(Panicked(p), trace, ctx)
    ensures !rethrow ==> r.trace == trace + [RollbackCall]
    ensures !rethrow && !a.Panic? ==>
      r.outcome.Done? && r.outcome.err.Some? && Wraps(r.outcome.err.value, Recovered(p))
      && PhaseOf(r.outcome.err.value) == Some(RecoverTag)
    ensures !rethrow && a.Fail? ==>
      r.outcome.Done? && r.outcome.err.Some? && r.outcome.err.value.Merged?
      && Wraps(r.outcome.err.value, a.error) && r.outcome.err.value.secondaryTag == RollbackTag
    ensures !rethrow && a.Panic? ==> r.outcome == Panicked(a.value)
  {
    if rethrow then Run(Panicked(p), trace, ctx)
    else
      var t := trace + [RollbackCall];
      match a
      case Ok => Run(Done(Some(Tagged(Recovered(p), RecoverTag))), t, ctx)
      case Fail(x) => Run(Done(Some(Merged(Recovered(p), RecoverTag, x, RollbackTag))), t, ctx)
      case Panic(q) => Run(Panicked(q), t, ctx)
  }

  /** `txn.Execute`: one attempt of begin, work, commit, with rollback and panic recovery. */
  function Execute<O>(ctx: Context, doer: Fields.DoerFields<O>, s: Script): (r: Run)
    // nil exactly when begin, work and commit all succeed
    ensures r.outcome == Done(None) <==>
      !IsDone(ctx) && s.begin(AttemptContext(ctx, doer.timeout)).Ok? && s.work.Ok? && s.commit.Ok?
    // a cancelled context fails before any backend call
    ensures IsDone(ctx) ==> r.trace == [] && r.outcome == Done(Some(Tagged(CauseOf(ctx), ContextDoneTag)))
    // otherwise begin comes first, under the attempt's context
    ensures !IsDone(ctx) ==> |r.trace| >= 1 && r.trace[0] == BeginCall && r.ctx == AttemptContext(ctx, doer.timeout)
    // begin is called once, and nothing else is called when it does not succeed
    ensures forall i :: 0 < i < |r.trace| ==> r.trace[i] != BeginCall
    ensures !IsDone(ctx) && !s.begin(r.ctx).Ok? ==> r.trace == [BeginCall]
    // commit only after a successful work function, and then never rolled back on success
    ensures CommitCall in r.trace ==> s.work.Ok?
    ensures r.outcome == Done(None) ==> r.trace == [BeginCall, WorkCall, CommitCall]
  {
    if IsDone(ctx) then
      Run(Done(Some(Tagged(CauseOf(ctx), ContextDoneTag))), [], ctx)
    else
      var c := AttemptContext(ctx, doer.timeout);
      match s.begin(c)
      case Panic(p) => Run(Panicked(p), [BeginCall], c)
      case Fail(e) => Run(Done(Some(Tagged(e, BeginTag))), [BeginCall], c)
      case Ok =>
        match Body(s)
        case Returned(err, t) => Run(Done(err), [BeginCall] + t, c)
        case Raised(p, t) =>
          var a := if RollbackCall in t then s.rollbackAgain else s.rollback;
          Recovery(p, doer.rethrow, a, [BeginCall] + t, c)
  }

  /** The child deadline is derived exactly when the timeout exceeds one millisecond. */
  lemma DeadlineOnlyAboveOneMillisecond<O>(ctx: Context, doer: Fields.DoerFields<O>, s: Script)
    requires !IsDone(ctx)
    ensures doer.timeout > Fields.Millisecond ==> Execute(ctx, doer, s).ctx == Deadline(ctx, doer.timeout)
    ensures doer.timeout <= Fields.Millisecond ==> Execute(ctx, doer, s).ctx == ctx
  {
  }

  /** A failed begin is tagged and ends the attempt: no work, no commit, no rollback. */
  lemma BeginFailureEndsAttempt<O>(ctx: Context, doer: Fields.DoerFields<O>, s: Script, e: Error)
    requires !IsDone(ctx) && s.begin(AttemptContext(ctx, doer.timeout)) == Fail(e)
    ensures Execute(ctx, doer, s) == Run(Done(Some(Tagged(e, BeginTag))), [BeginCall], AttemptContext(ctx, doer.timeout))
  {
  }

  /** A failed work function is rolled back once, never committed, and both errors are kept. */
  lemma WorkFailureRollsBack<O>(ctx: Context, doer: Fields.DoerFields<O>, s: Script, e: Error)
    requires !IsDone(ctx) && s.begin(AttemptContext(ctx, doer.timeout)).Ok? && s.work == Fail(e)
    requires !s.rollback.Panic?
    ensures var r := Execute(ctx, doer, s);
      && r.trace == [BeginCall, WorkCall, RollbackCall]
      && r.outcome.Done? && r.outcome.err.Some?
      && Wraps(r.outcome.err.value, e) && PhaseOf(r.outcome.err.value) == Some(DoTag)
      && (s.rollback.Fail? ==> Wraps(r.outcome.err.value, s.rollback.error)
                               && r.outcome.err.value == Merged(e, DoTag, s.rollback.error, RollbackTag))
      && (s.rollback.Ok? ==> r.outcome.err.value == Tagged(e, DoTag))
  {
    assert Body(s) == AfterRollback(e, DoTag, s.rollback, [WorkCall, RollbackCall]);
  }

  /** A failed commit is followed by exactly one rollback, and both errors are kept. */
  lemma CommitFailureRollsBack<O>(ctx: Context, doer: Fields.DoerFields<O>, s: Script, e: Error)
    requires !IsDone(ctx) && s.begin(AttemptContext(ctx, doer.timeout)).Ok? && s.work.Ok? && s.commit == Fail(e)
    requires !s.rollback.Panic?
    ensures var r := Execute(ctx, doer, s);
      && r.trace == [BeginCall, WorkCall, CommitCall, RollbackCall]
      && r.outcome.Done? && r.outcome.err.Some?
      && Wraps(r.outcome.err.value, e) && PhaseOf(r.outcome.err.value) == Some(CommitTag)
      && (s.rollback.Fail? ==> r.outcome.err.value == Merged(e, CommitTag, s.rollback.error, RollbackTag))
      && (s.rollback.Ok? ==> r.outcome.err.value == Tagged(e, CommitTag))
  {
    assert Body(s) == AfterRollback(e, CommitTag, s.rollback, [WorkCall, CommitCall, RollbackCall]);
  }

  /** A panicking work function with rethrow off becomes a "[txn recover]" error after one rollback. */
  lemma WorkPanicRecovered<O>(ctx: Context, doer: Fields.DoerFields<O>, s: Script, p: string)
    requires !IsDone(ctx) && s.begin(AttemptContext(ctx, doer.timeout)).Ok? && s.work == Panic(p)
    requires !doer.rethrow && !s.rollback.Panic?
    ensures var r := Execute(ctx, doer, s);
      && r.trace == [BeginCall, WorkCall, RollbackCall]
      && r.outcome.Done? && r.outcome.err.Some?
      && Wraps(r.outcome.err.value, Recovered(p)) && PhaseOf(r.outcome.err.value) == Some(RecoverTag)
      && (s.rollback.Fail? ==> r.outcome.err.value == Merged(Recovered(p), RecoverTag, s.rollback.error, RollbackTag))
  {
    var t := [WorkCall];
    assert Body(s) == Raised(p, t);
    assert RollbackCall !in t;
    assert [BeginCall] + t + [RollbackCall] == [BeginCall, WorkCall, RollbackCall];
    assert Execute(ctx, doer, s) == Recovery(p, false, s.rollback, [BeginCall] + t, AttemptContext(ctx, doer.timeout));
  }

  /** With rethrow on, a panic escapes unchanged and nothing is rolled back. */
  lemma PanicRethrown<O>(ctx: Context, doer: Fields.DoerFields<O>, s: Script, p: string)
    requires !IsDone(ctx) && s.begin(AttemptContext(ctx, doer.timeout)).Ok? && s.work == Panic(p)
    requires doer.rethrow
    ensures Execute(ctx, doer, s).outcome == Panicked(p)
    ensures RollbackCall !in Execute(ctx, doer, s).trace
  {
    assert Body(s) == Raised(p, [WorkCall]);
    assert Execute(ctx, doer, s) == Run(Panicked(p), [BeginCall, WorkCall], AttemptContext(ctx, doer.timeout));
  }

  /**
    A rollback that panics after a failed work function is itself recovered: the handler rolls
    back a second time and reports the rollback's panic as the recovered value.
  */
  lemma RollbackPanicRecoveredOnce<O>(ctx: Context, doer: Fields.DoerFields<O>, s: Script, e: Error, q: string)
    requires !IsDone(ctx) && s.begin(AttemptContext(ctx, doer.timeout)).Ok? && s.work == Fail(e)
    requires s.rollback == Panic(q) && !doer.rethrow && s.rollbackAgain.Ok?
    ensures Execute(ctx, doer, s).trace == [BeginCall, WorkCall, RollbackCall, RollbackCall]
    ensures Execute(ctx, doer, s).outcome == Done(Some(Tagged(Recovered(q), RecoverTag)))
  {
    var t := [WorkCall, RollbackCall];
    assert Body(s) == Raised(q, t);
    assert RollbackCall in t;
    assert Execute(ctx, doer, s) == Recovery(q, false, s.rollbackAgain, [BeginCall] + t, AttemptContext(ctx, doer.timeout));
  }

  /**
    A panicking commit with rethrow off is recovered after one rollback; a failing rollback's
    error is kept beside the recovered panic.
  */
  lemma CommitPanicRecovered<O>(ctx: Context, doer: Fields.DoerFields<O>, s: Script, p: string)
    requires !IsDone(ctx) && s.begin(AttemptContext(ctx, doer.timeout)).Ok? && s.work.Ok? && s.commit == Panic(p)
    requires !doer.rethrow && !s.rollback.Panic?
    ensures Execute(ctx, doer, s).trace == [BeginCall, WorkCall, CommitCall, RollbackCall]
    ensures s.rollback.Ok? ==> Execute(ctx, doer, s).outcome == Done(Some(Tagged(Recovered(p), RecoverTag)))
    ensures s.rollback.Fail? ==>
      Execute(ctx, doer, s).outcome == Done(Some(Merged(Recovered(p), RecoverTag, s.rollback.error, RollbackTag)))
  {
    var t := [WorkCall, CommitCall];
    assert Body(s) == Raised(p, t);
    assert RollbackCall !in t;
    assert [BeginCall] + t + [RollbackCall] == [BeginCall, WorkCall, CommitCall, RollbackCall];
    assert Execute(ctx, doer, s) == Recovery(p, false, s.rollback, [BeginCall] + t, AttemptContext(ctx, doer.timeout));
  }

  /** A rollback that panics inside the recovery handler escapes `Execute` with its own value. */
  lemma RecoveryRollbackPanicEscapes<O>(ctx: Context, doer: Fields.DoerFields<O>, s: Script, p: string, q: string)
    requires !IsDone(ctx) && s.begin(AttemptContext(ctx, doer.timeout)).Ok? && s.work == Panic(p)
    requires !doer.rethrow && s.rollback == Panic(q)
    ensures Execute(ctx, doer, s).trace == [BeginCall, WorkCall, RollbackCall]
    ensures Execute(ctx, doer, s).outcome == Panicked(q)
  {
    var t := [WorkCall];
    assert Body(s) == Raised(p, t);
    assert RollbackCall !in t;
    assert [BeginCall] + t + [RollbackCall] == [BeginCall, WorkCall, RollbackCall];
    assert Execute(ctx, doer, s) == Recovery(p, false, s.rollback, [BeginCall] + t, AttemptContext(ctx, doer.timeout));
  }
}
