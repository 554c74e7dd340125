/**
  The mongo adapter (txn_mongo/txn_mongo.go): the default setters, the session-backed handle
  whose `Commit`/`Rollback` end the session, `BeginTxn`, which needs a session context, and
  `ExecuteOnce`, which starts a session and runs one attempt inside it. Driver answers are
  parameters; the session calls are recorded. Session and transaction options are opaque ids.
*/
module Mongo {
  import opened Wrappers
  import opened Errors
  import Fields
  import Exec

  /** `MgoOptions`: the options handed to `StartSession` and to `StartTransaction`. */
  datatype MgoOptions = MgoOptions(session: seq<nat>, transaction: seq<nat>)

  type Doer = Fields.DoerFields<MgoOptions>

  /** `DoerBase.DefaultSetters`: title, rethrow, timeout, ping and retry limits, and empty options. */
  function DefaultSetters(title: string): (ss: seq<Fields.Setter<MgoOptions>>)
    ensures forall fld :: !Fields.Untouched(ss, fld)
    ensures forall i :: 0 <= i < |ss| ==> Fields.LastFor(ss, i)
  {
    var ss := [
      Fields.WithTitle("Txn`" + title),
      Fields.WithRethrow(false),
      Fields.WithTimeout(5 * Fields.Second),
      Fields.WithMaxPing(4),
      Fields.WithMaxRetry(2),
      Fields.WithOptions(Some(MgoOptions([], [])))];
    assert ss[0].Target() == Fields.TitleField && ss[1].Target() == Fields.RethrowField;
    assert ss[2].Target() == Fields.TimeoutField && ss[3].Target() == Fields.MaxPingField;
    assert ss[4].Target() == Fields.MaxRetryField && ss[5].Target() == Fields.OptionsField;
    ss
  }

  /**
    Applying the defaults sets every field to the preset value, whatever the record held,
    and the result carries options, so `Reset` accepts it.
  */
  lemma DefaultSettersApplied(d: Doer, title: string)
    ensures var f := Fields.MultiSet(d, DefaultSetters(title));
      && f.title == "Txn`" + title && !f.rethrow
      && f.timeout == 5 * Fields.Second && f.maxPing == 4 && f.maxRetry == 2
      && f.options == Some(MgoOptions([], []))
      && Fields.Reset(d, Some(f)) == Fields.Updated(f, None)
  {
    var ss := DefaultSetters(title);
    assert Fields.Holds(Fields.MultiSet(d, ss), ss[0]) && Fields.Holds(Fields.MultiSet(d, ss), ss[1]);
    assert Fields.Holds(Fields.MultiSet(d, ss), ss[2]) && Fields.Holds(Fields.MultiSet(d, ss), ss[3]);
    assert Fields.Holds(Fields.MultiSet(d, ss), ss[4]) && Fields.Holds(Fields.MultiSet(d, ss), ss[5]);
  }

  /** The session operations the adapter performs, in order. */
  datatype SessionCall =
    | StartSession(options: seq<nat>)
    | StartTransaction(session: nat, options: seq<nat>)
    | CommitTransaction(session: nat)
    | AbortTransaction(session: nat)
    | EndSession(session: nat)

  /** The handle `Txn{Raw}`; `raw` is `None` when the session is nil. */
  datatype Txn = Txn(raw: Option<nat>)

  /** The error a handle method returned and the session calls it made. */
  datatype HandleRun = HandleRun(err: Option<Error>, calls: seq<SessionCall>)

  /** `Txn.Commit`: refuses a nil session; otherwise commits and then always ends the session. */
  function Commit(t: Txn, driver: Option<Error>): (r: HandleRun)
    ensures t.raw.None? ==> r.err.Some? && r.calls == []
    ensures t.raw.Some? ==> r.err == driver && r.calls == [CommitTransaction(t.raw.value), EndSession(t.raw.value)]
  {
    if t.raw.None? then HandleRun(Some(Message("cancelling Commit, Raw is nil")), [])
    else HandleRun(driver, [CommitTransaction(t.raw.value), EndSession(t.raw.value)])
  }

  /** `Txn.Rollback`: refuses a nil session; otherwise aborts and then always ends the session. */
  function Rollback(t: Txn, driver: Option<Error>): (r: HandleRun)
    ensures t.raw.None? ==> r.err.Some? && r.calls == []
    ensures t.raw.Some? ==> r.err == driver && r.calls == [AbortTransaction(t.raw.value), EndSession(t.raw.value)]
  {
    if t.raw.None? then HandleRun(Some(Message("cancelling Rollback, Raw is nil")), [])
    else HandleRun(driver, [AbortTransaction(t.raw.value), EndSession(t.raw.value)])
  }

  /** Whatever the driver answers, a handle with a session ends it exactly once, as its last call. */
  lemma HandleEndsSession(t: Txn, driver: Option<Error>)
    requires t.raw.Some?
    ensures var c := Commit(t, driver).calls; |c| == 2 && c[1] == EndSession(t.raw.value)
    ensures var c := Rollback(t, driver).calls; |c| == 2 && c[1] == EndSession(t.raw.value)
  {
  }

  /** The error text `BeginTxn` returns when it finds no session. */
  const NoSession: string := "no mongodb_session on current context"

  /** The session carried by a context: that of its nearest session layer, looking through deadlines. */
  function SessionOf(ctx: Exec.Context): (s: Option<nat>)
    ensures ctx.Session? ==> s == Some(ctx.id)
    ensures ctx.Root? ==> s.None?
  {
    match ctx
    case Root(_, _) => None
    case Deadline(p, _) => SessionOf(p)
    case Session(_, id) => Some(id)
  }

  /** What `BeginTxn` returned, and the session calls it made. */
  datatype Begun = Begun(handle: Option<Txn>, err: Option<Error>, calls: seq<SessionCall>)

  /** The transaction options of a doer's options; nil options give none. */
  function TransactionOptions(opt: Option<MgoOptions>): seq<nat>
  {
    if opt.Some? then opt.value.transaction else []
  }

  /** Starting a transaction on session `id`; `start` is the driver's answer. */
  function StartOn(id: nat, opt: Option<MgoOptions>, start: Option<Error>): (r: Begun)
    ensures r.calls == [StartTransaction(id, TransactionOptions(opt))]
    ensures r.err == start
    ensures r.handle.Some? <==> start.None?
    ensures r.handle.Some? ==> r.handle.value.raw == Some(id)
  {
    var calls := [StartTransaction(id, TransactionOptions(opt))];
    if start.Some? then Begun(None, start, calls) else Begun(Some(Txn(Some(id))), None, calls)
  }

  /**
    `BeginTxn` as written: the session is taken by a type assertion on the context itself, so
    only a context whose outermost layer is the session context is accepted.
  */
  function BeginTxnAsWritten(ctx: Exec.Context, opt: Option<MgoOptions>, start: Option<Error>): (r: Begun)
    ensures !ctx.Session? ==> r == Begun(None, Some(Message(NoSession)), [])
    ensures ctx.Session? ==> r == StartOn(ctx.id, opt, start)
  {
    if ctx.Session? then StartOn(ctx.id, opt, start)
    else Begun(None, Some(Message(NoSession)), [])
  }

  /**
    `BeginTxn` corrected: the session is looked up through any deadline layers, as
    `mongo.SessionFromContext` does, so a deadline derived from a session context keeps it.
  */
  function BeginTxn(ctx: Exec.Context, opt: Option<MgoOptions>, start: Option<Error>): (r: Begun)
    ensures SessionOf(ctx).None? ==> r == Begun(None, Some(Message(NoSession)), [])
    ensures SessionOf(ctx).Some? ==> r == StartOn(SessionOf(ctx).value, opt, start)
    ensures r.handle.Some? <==> SessionOf(ctx).Some? && start.None?
    ensures r.handle.Some? ==> r.handle.value.raw == SessionOf(ctx)
  {
    var s := SessionOf(ctx);
    if s.Some? then StartOn(s.value, opt, start)
    else Begun(None, Some(Message(NoSession)), [])
  }

  /** The two versions agree on every context whose outermost layer is the session. */
  lemma BeginTxnAgreesOnSessionContext(ctx: Exec.Context, opt: Option<MgoOptions>, start: Option<Error>)
    requires ctx.Session?
    ensures BeginTxnAsWritten(ctx, opt, start) == BeginTxn(ctx, opt, start)
  {
  }

  /** A begin result as the answer `txn.Execute` sees from the doer's `BeginTxn`. */
  function BeginAnswer(b: Begun): (a: Answer)
    ensures a.Ok? <==> b.err.None?
    ensures b.err.Some? ==> a == Fail(b.err.value)
  {
    if b.err.Some? then Fail(b.err.value) else Ok
  }

  /**
    The scripted answers of one `ExecuteOnce`: starting the session, starting the
    transaction, then the work function, commit and rollbacks as in `txn.Execute`.
  */
  datatype Attempt = Attempt(
    session: Result<nat, Error>,
    start: Option<Error>,
    work: Answer,
    commit: Answer,
    rollback: Answer,
    rollbackAgain: Answer)

  /** What `ExecuteOnce` did: the attempt run by `txn.Execute`, and the session's lifecycle calls. */
  datatype MongoRun = MongoRun(run: Exec.Run, calls: seq<SessionCall>)

  /** The session options of a doer's options; nil options give none. */
  function SessionOptions(opt: Option<MgoOptions>): seq<nat>
  {
    if opt.Some? then opt.value.session else []
  }

  /** The context `ExecuteOnce` hands to `txn.Execute`: the session wrapped around the optional deadline. */
  function SessionContext(ctx: Exec.Context, timeout: int, id: nat): (c: Exec.Context)
    ensures c.Session? && c.id == id && SessionOf(c) == Some(id)
    ensures Exec.IsDone(c) == Exec.IsDone(ctx)
  {
    Exec.Session(Exec.AttemptContext(ctx, timeout), id)
  }

  /** The `txn.Execute` script of an attempt, with `begin` being the (corrected or as-written) `BeginTxn`. */
  function ScriptOf(a: Attempt, opt: Option<MgoOptions>, asWritten: bool): Exec.Script
  {
    Exec.Script(
      (c: Exec.Context) => BeginAnswer(if asWritten then BeginTxnAsWritten(c, opt, a.start) else BeginTxn(c, opt, a.start)),
      a.work, a.commit, a.rollback, a.rollbackAgain)
  }

  /**
    `ExecuteOnce` with the as-written `BeginTxn`: a failed session start is returned at once;
    otherwise the session context wraps the optional deadline and `txn.Execute` runs in it.
  */
  function ExecuteOnceAsWritten(ctx: Exec.Context, doer: Doer, a: Attempt): (r: MongoRun)
    ensures a.session.Failure? ==> r == MongoRun(Exec.Run(Exec.Done(Some(a.session.error)), [], ctx), [StartSession(SessionOptions(doer.options))])
    ensures a.session.Success? ==>
      r.calls == [StartSession(SessionOptions(doer.options)), EndSession(a.session.value)]
      && r.run == Exec.Execute(SessionContext(ctx, doer.timeout, a.session.value), doer, ScriptOf(a, doer.options, true))
  {
    var started := StartSession(SessionOptions(doer.options));
    match a.session
    case Failure(e) => MongoRun(Exec.Run(Exec.Done(Some(e)), [], ctx), [started])
    case Success(id) =>
      var run := Exec.Execute(SessionContext(ctx, doer.timeout, id), doer, ScriptOf(a, doer.options, true));
      MongoRun(run, [started, EndSession(id)])
  }

  /**
    `ExecuteOnce`, with the corrected `BeginTxn`: nil exactly when the session starts, the
    context is live, and the transaction start, work and commit all succeed.
  */
  function ExecuteOnce(ctx: Exec.Context, doer: Doer, a: Attempt): (r: MongoRun)
    // a failed session start is returned unchanged, before any transaction call
    ensures a.session.Failure? ==> r == MongoRun(Exec.Run(Exec.Done(Some(a.session.error)), [], ctx), [StartSession(SessionOptions(doer.options))])
    // otherwise the session is started with the doer's session options and always ended
    ensures a.session.Success? ==> r.calls == [StartSession(SessionOptions(doer.options)), EndSession(a.session.value)]
    // the deadline is derived, inside the session, only when the timeout exceeds 1ms
    ensures a.session.Success? && !Exec.IsDone(ctx) ==>
      r.run.ctx == Exec.AttemptContext(SessionContext(ctx, doer.timeout, a.session.value), doer.timeout)
      && SessionOf(r.run.ctx) == Some(a.session.value)
    ensures r.run.outcome == Exec.Done(None) <==>
      a.session.Success? && !Exec.IsDone(ctx) && a.start.None? && a.work.Ok? && a.commit.Ok?
  {
    var started := StartSession(SessionOptions(doer.options));
    match a.session
    case Failure(e) => MongoRun(Exec.Run(Exec.Done(Some(e)), [], ctx), [started])
    case Success(id) =>
      var c := SessionContext(ctx, doer.timeout, id);
      var run := Exec.Execute(c, doer, ScriptOf(a, doer.options, false));
      MongoRun(run, [started, EndSession(id)])
  }

  /**
    As written, a timeout above 1ms hides the session: `txn.Execute` derives a deadline from
    the session context, the type assertion in `BeginTxn` fails on it, and every attempt
    fails at begin, whatever the backend would answer. The defaults set a 5s timeout.
  */
  lemma SessionHiddenByDeadline(ctx: Exec.Context, doer: Doer, a: Attempt)
    requires !Exec.IsDone(ctx) && a.session.Success? && doer.timeout > Fields.Millisecond
    ensures ExecuteOnceAsWritten(ctx, doer, a).run ==
      Exec.Run(Exec.Done(Some(Tagged(Message(NoSession), BeginTag))), [Exec.BeginCall],
               Exec.Deadline(SessionContext(ctx, doer.timeout, a.session.value), doer.timeout))
  {
  }

  /** With the preset timeout the as-written adapter can never begin a transaction. */
  lemma DefaultsNeverBeginAsWritten(ctx: Exec.Context, d: Doer, title: string, a: Attempt)
    requires !Exec.IsDone(ctx) && a.session.Success? && a.start.None? && a.work.Ok? && a.commit.Ok?
    ensures var doer := Fields.MultiSet(d, DefaultSetters(title));
      ExecuteOnceAsWritten(ctx, doer, a).run.outcome != Exec.Done(None)
      && ExecuteOnce(ctx, doer, a).run.outcome == Exec.Done(None)
  {
    DefaultSettersApplied(d, title);
    SessionHiddenByDeadline(ctx, Fields.MultiSet(d, DefaultSetters(title)), a);
  }

  /** With a timeout of at most 1ms no deadline is derived, and both versions behave alike. */
  lemma VersionsAgreeWithoutDeadline(ctx: Exec.Context, doer: Doer, a: Attempt)
    requires doer.timeout <= Fields.Millisecond
    ensures ExecuteOnceAsWritten(ctx, doer, a) == ExecuteOnce(ctx, doer, a)
  {
    if a.session.Success? {
      var c := SessionContext(ctx, doer.timeout, a.session.value);
      assert c == Exec.Session(ctx, a.session.value);
      assert ScriptOf(a, doer.options, true).begin(c) == ScriptOf(a, doer.options, false).begin(c);
    }
  }

  /** `ModuleBase`: the beginner shared by the module's executions; `None` when nil. */
  datatype ModuleBase = ModuleBase(beginner: Option<nat>)

  /** `ModuleSetter`; the only one is `WithBeginner`. */
  datatype ModuleSetter = WithBeginner(value: Option<nat>)

  /** `ModuleBase.Mutate`: applies the setters in order, so the last `WithBeginner` wins. */
  function Mutate(m: ModuleBase, ss: seq<ModuleSetter>): (r: ModuleBase)
    ensures ss == [] ==> r == m
    ensures ss != [] ==> r.beginner == ss[|ss| - 1].value
    decreases |ss|
  {
    if ss == [] then m
    else
      var r := Mutate(ModuleBase(ss[0].value), ss[1..]);
      assert ss[1..] != [] ==> ss[1..][|ss[1..]| - 1] == ss[|ss| - 1];
      r
  }

  /** Mutating with `a` then with `b` is mutating with `a + b`. */
  lemma MutateAppend(m: ModuleBase, a: seq<ModuleSetter>, b: seq<ModuleSetter>)
    ensures Mutate(m, a + b) == Mutate(Mutate(m, a), b)
  {
    if b == [] {
      assert a + b == a;
    } else {
      assert (a + b)[|a + b| - 1] == b[|b| - 1];
    }
  }
}
