/**
  The database/sql module and its retry loop (txn_sql/txn_sql_exec.go): the module's
  prepared-statement cache (`Prepare`, `Close`, `Stmt`), and `Execute`, which prepares before
  each attempt, closes the cache after a failed attempt, tags the attempt's error with
  "[exec]" (and the close error with "[Close]"), and probes the database after every failure.
*/
module SqlExec {
  import opened Wrappers
  import opened Errors
  import Fields
  import Exec
  import Probe
  import Sql
  import opened Retry

  /** `ModuleBase`: the beginner and the cached statement; `None` is the empty statement. */
  datatype ModuleBase<S> = ModuleBase(beginner: Option<nat>, cache: Option<S>)

  /** `Stmt`: the cached statement. */
  function CachedStmt<S>(m: ModuleBase<S>): Option<S>
  {
    m.cache
  }

  /** What the `cacheMaker` answers when it is called: a statement (possibly empty) and an error. */
  datatype Made<S> = Made(stmt: Option<S>, err: Option<Error>)

  /** The module and doer after `Prepare`, its error, and whether the maker was called. */
  datatype PrepareRun<S> = PrepareRun(base: ModuleBase<S>, doer: Sql.SqlDoer<S>, err: Option<Error>, madeCall: bool)

  /** `ModuleBase.Prepare`: fill an empty cache with the maker's statement, then hand it to the doer. */
  function Prepare<S>(m: ModuleBase<S>, d: Sql.SqlDoer<S>, made: Made<S>): (r: PrepareRun<S>)
    // the maker is called exactly when the cache is empty; a full cache is reused as it is
    ensures r.madeCall <==> m.cache.None?
    ensures m.cache.Some? ==> r.base == m && r.err.None?
    // the maker's statement is cached even when it also returns an error
    ensures m.cache.None? ==> r.base == m.(cache := made.stmt) && r.err == made.err
    // on failure the doer's statement is emptied, on success it is the cached one
    ensures r.err.Some? ==> Sql.Stmt(r.doer) == None
    ensures r.err.None? ==> Sql.Stmt(r.doer) == CachedStmt(r.base)
    ensures r.doer.fields == d.fields
  {
    if m.cache.Some? then PrepareRun(m, Sql.SetStmt(d, m.cache), None, false)
    else
      var m' := m.(cache := made.stmt);
      if made.err.Some? then PrepareRun(m', Sql.SetStmt(d, None), made.err, true)
      else PrepareRun(m', Sql.SetStmt(d, made.stmt), None, true)
  }

  /** After a `Prepare` that left a statement cached, the next `Prepare` reuses it without the maker. */
  lemma PrepareReusesCache<S>(m: ModuleBase<S>, d: Sql.SqlDoer<S>, made: Made<S>, again: Made<S>)
    requires Prepare(m, d, made).base.cache.Some?
    ensures var p := Prepare(m, d, made);
      var q := Prepare(p.base, p.doer, again);
      && !q.madeCall && q.err.None? && q.base == p.base
      && Sql.Stmt(q.doer) == CachedStmt(p.base)
  {
  }

  /** What `Close` did: the module afterwards, its error, and whether the statement's `Close` was called. */
  datatype CloseRun<S> = CloseRun(base: ModuleBase<S>, err: Option<Error>, closeCall: bool)

  /** `ModuleBase.Close`: closes a cached statement and empties the cache, even when closing fails. */
  function Close<S>(m: ModuleBase<S>, answer: Option<Error>): (r: CloseRun<S>)
    ensures r.base == m.(cache := None)
    ensures r.closeCall <==> m.cache.Some?
    ensures m.cache.Some? ==> r.err == answer
    ensures m.cache.None? ==> r.err.None?
  {
    if m.cache.Some? then CloseRun(m.(cache := None), answer, true)
    else CloseRun(m, None, false)
  }

  /** Closing twice: the second `Close` calls nothing and returns nil. */
  lemma CloseIsIdempotent<S>(m: ModuleBase<S>, first: Option<Error>, second: Option<Error>)
    ensures var c := Close(Close(m, first).base, second);
      && !c.closeCall && c.err.None? && c.base == Close(m, first).base
  {
  }

  /** After `Close`, the next `Prepare` calls the maker again. */
  lemma PrepareAfterCloseCallsMaker<S>(m: ModuleBase<S>, answer: Option<Error>, d: Sql.SqlDoer<S>, made: Made<S>)
    ensures Prepare(Close(m, answer).base, d, made).madeCall
  {
  }

  /** The error of a failed attempt: tagged "[exec]", and merged with the close error under "[Close]". */
  function PassError(e: Error, close: Option<Error>): (r: Error)
    ensures Wraps(r, e) && PhaseOf(r) == Some(ExecTag)
    ensures close.None? ==> r == Tagged(e, ExecTag)
    ensures close.Some? ==> r.Merged? && r.secondaryTag == CloseTag && Wraps(r, close.value)
  {
    if close.Some? then Merged(e, ExecTag, close.value, CloseTag) else Tagged(e, ExecTag)
  }

  /** Number of passes (each starts with `Prepare`) in a trace. */
  function Prepares(t: seq<Step>): nat
  {
    if t == [] then 0 else (if t[0].Prepared? then 1 else 0) + Prepares(t[1..])
  }

  /** Counting over a trace one step at a time. */
  lemma CountsCons(s: Step, t: seq<Step>)
    ensures Onces([s] + t) == (if s.Once? then 1 else 0) + Onces(t)
    ensures Prepares([s] + t) == (if s.Prepared? then 1 else 0) + Prepares(t)
  {
    assert ([s] + t)[1..] == t;
  }

  /**
    The error the loop holds after trace `t`: a failed `Prepare` sets it to the prepare error,
    a failed attempt with the following `Close` sets it to the attempt's `PassError`, and a
    successful attempt clears it.
  */
  function Latest(last: Option<Error>, t: seq<Step>): Option<Error>
    decreases |t|
  {
    if t == [] then last
    else if t[0].Prepared? && t[0].err.Some? then Latest(t[0].err, t[1..])
    else if t[0].Once? && t[0].outcome.Done? && t[0].outcome.err.Some? && |t| >= 2 && t[1].Closed? then
      Latest(Some(PassError(t[0].outcome.err.value, t[1].err)), t[2..])
    else if t[0] == Once(Exec.Done(None)) then Latest(None, t[1..])
    else Latest(last, t[1..])
  }

  /** A step other than a failed attempt: a failed `Prepare` sets the held error, a success clears it. */
  lemma LatestCons(last: Option<Error>, s: Step, t: seq<Step>)
    requires !(s.Once? && s.outcome.Done? && s.outcome.err.Some?)
    ensures Latest(last, [s] + t) ==
      Latest(if s.Prepared? && s.err.Some? then s.err else if s == Once(Exec.Done(None)) then None else last, t)
  {
    assert ([s] + t)[0] == s && ([s] + t)[1..] == t;
  }

  /** A failed attempt and its `Close`: the held error becomes the attempt's `PassError`. */
  lemma LatestFailedAttempt(last: Option<Error>, e: Error, c: Option<Error>, t: seq<Step>)
    ensures Latest(last, [Once(Exec.Done(Some(e))), Closed(c)] + t) == Latest(Some(PassError(e, c)), t)
  {
    var u := [Once(Exec.Done(Some(e))), Closed(c)] + t;
    assert u[0] == Once(Exec.Done(Some(e))) && u[1] == Closed(c) && u[2..] == t;
  }

  /** Every `ExecuteOnce` comes right after a successful `Prepare`. */
  ghost predicate OnlyAfterPrepare(t: seq<Step>)
  {
    forall i :: 0 <= i < |t| && t[i].Once? ==> i >= 1 && t[i - 1] == Prepared(None)
  }

  /** Every failed `ExecuteOnce` is followed by `Close` and then by a probe with `limit`. */
  ghost predicate FailuresClosedThenProbed(t: seq<Step>, limit: int)
  {
    forall i :: 0 <= i < |t| && t[i].Once? && t[i].outcome.Done? && t[i].outcome.err.Some? ==>
      i + 2 < |t| && t[i + 1].Closed? && t[i + 2].Probed? && t[i + 2].limit == limit
  }

  /** Every failed `Prepare` is followed at once by a probe with `limit`, not by an attempt. */
  ghost predicate PrepareFailuresProbed(t: seq<Step>, limit: int)
  {
    forall i :: 0 <= i < |t| && t[i].Prepared? && t[i].err.Some? ==>
      i + 1 < |t| && t[i + 1].Probed? && t[i + 1].limit == limit
  }

  /** The shape of every pass of the loop. */
  ghost predicate Shaped(t: seq<Step>, limit: int)
  {
    OnlyAfterPrepare(t) && FailuresClosedThenProbed(t, limit) && PrepareFailuresProbed(t, limit) && SuccessIsFinal(t)
  }

  lemma ShapedAppend(a: seq<Step>, b: seq<Step>, limit: int)
    requires Shaped(a, limit) && Shaped(b, limit)
    requires |a| >= 1 && a[|a| - 1].Probed?
    requires forall i :: 0 <= i < |a| ==> a[i] != Once(Exec.Done(None))
    ensures Shaped(a + b, limit)
  {
    var t := a + b;
    assert forall i :: 0 <= i < |a| ==> t[i] == a[i];
    assert forall i :: |a| <= i < |t| ==> t[i] == b[i - |a|];
    forall i | 0 <= i < |t| && t[i].Once?
      ensures i >= 1 && t[i - 1] == Prepared(None)
    {
      if i >= |a| {
        assert b[i - |a|].Once?;
        assert t[i - 1] == b[i - 1 - |a|];
      }
    }
    forall i | 0 <= i < |t| && t[i].Once? && t[i].outcome.Done? && t[i].outcome.err.Some?
      ensures i + 2 < |t| && t[i + 1].Closed? && t[i + 2].Probed? && t[i + 2].limit == limit
    {
      if i < |a| {
        assert a[i].Once?;
        assert t[i + 1] == a[i + 1] && t[i + 2] == a[i + 2];
      }
    }
    forall i | 0 <= i < |t| && t[i].Prepared? && t[i].err.Some?
      ensures i + 1 < |t| && t[i + 1].Probed? && t[i + 1].limit == limit
    {
      if i < |a| {
        assert a[i].Prepared?;
        assert t[i + 1] == a[i + 1];
      }
    }
    SuccessIsFinalAppend(a, b);
  }

  /** The bookkeeping of a pass whose `Prepare` failed with `e` and was then probed. */
  lemma PrepareFailedPass(e: Error, limit: int, report: Probe.Report, last: Option<Error>, rest: seq<Step>)
    requires Shaped(rest, limit)
    ensures var t := [Prepared(Some(e)), Probed(limit, report)] + rest;
      && Shaped(t, limit) && Onces(t) == Onces(rest) && Prepares(t) == 1 + Prepares(rest)
      && Latest(last, t) == Latest(Some(e), rest)
  {
    var steps := [Prepared(Some(e)), Probed(limit, report)];
    var t1 := [Probed(limit, report)] + rest;
    assert steps + rest == [Prepared(Some(e))] + t1;
    assert Shaped(steps, limit);
    ShapedAppend(steps, rest, limit);
    CountsCons(Prepared(Some(e)), t1);
    CountsCons(Probed(limit, report), rest);
    LatestCons(last, Prepared(Some(e)), t1);
    LatestCons(Some(e), Probed(limit, report), rest);
  }

  /** The steps of a pass whose attempt failed with `e`, was closed with `c`, and was then probed. */
  function FailedSteps(e: Error, c: Option<Error>, limit: int, report: Probe.Report): seq<Step>
  {
    [Prepared(None), Once(Exec.Done(Some(e))), Closed(c), Probed(limit, report)]
  }

  /** The steps of a failed attempt have the loop's shape, end with the probe, and hold no success. */
  lemma FailedStepsShaped(e: Error, c: Option<Error>, limit: int, report: Probe.Report)
    ensures var steps := FailedSteps(e, c, limit, report);
      && Shaped(steps, limit) && steps[|steps| - 1].Probed?
      && forall i :: 0 <= i < |steps| ==> steps[i] != Once(Exec.Done(None))
  {
    var steps := FailedSteps(e, c, limit, report);
    assert OnlyAfterPrepare(steps) by {
      forall i | 0 <= i < |steps| && steps[i].Once? ensures i >= 1 && steps[i - 1] == Prepared(None) {
        assert i == 1;
      }
    }
    assert FailuresClosedThenProbed(steps, limit) by {
      forall i | 0 <= i < |steps| && steps[i].Once? && steps[i].outcome.Done? && steps[i].outcome.err.Some?
        ensures i + 2 < |steps| && steps[i + 1].Closed? && steps[i + 2].Probed? && steps[i + 2].limit == limit
      {
        assert i == 1;
      }
    }
  }

  /** The bookkeeping of a pass whose attempt failed with `e`, was closed with `c`, and was then probed. */
  lemma AttemptFailedPass(e: Error, c: Option<Error>, limit: int, report: Probe.Report, last: Option<Error>, rest: seq<Step>)
    requires Shaped(rest, limit)
    ensures var t := FailedSteps(e, c, limit, report) + rest;
      && Shaped(t, limit) && Onces(t) == 1 + Onces(rest) && Prepares(t) == 1 + Prepares(rest)
      && Latest(last, t) == Latest(Some(PassError(e, c)), rest)
  {
    FailedStepsShaped(e, c, limit, report);
    ShapedAppend(FailedSteps(e, c, limit, report), rest, limit);
    AttemptFailedCounts(e, c, limit, report, last, rest);
  }

  /** A failed attempt's pass adds one prepare and one attempt, and leaves the pass error as the latest. */
  lemma AttemptFailedCounts(e: Error, c: Option<Error>, limit: int, report: Probe.Report, last: Option<Error>, rest: seq<Step>)
    ensures var t := FailedSteps(e, c, limit, report) + rest;
      && Onces(t) == 1 + Onces(rest) && Prepares(t) == 1 + Prepares(rest)
      && Latest(last, t) == Latest(Some(PassError(e, c)), rest)
  {
    var t3 := [Probed(limit, report)] + rest;
    var u := [Once(Exec.Done(Some(e))), Closed(c)] + t3;
    assert FailedSteps(e, c, limit, report) + rest == [Prepared(None)] + u;
    FailedPassCounts(e, c, t3);
    CountsCons(Prepared(None), u);
    CountsCons(Probed(limit, report), rest);
    LatestCons(last, Prepared(None), u);
    LatestFailedAttempt(last, e, c, t3);
    LatestCons(Some(PassError(e, c)), Probed(limit, report), rest);
  }

  /** A failed attempt and its `Close` count one attempt and no prepare. */
  lemma FailedPassCounts(e: Error, c: Option<Error>, t: seq<Step>)
    ensures var u := [Once(Exec.Done(Some(e))), Closed(c)] + t;
      Onces(u) == 1 + Onces(t) && Prepares(u) == Prepares(t)
  {
    var u := [Once(Exec.Done(Some(e))), Closed(c)] + t;
    assert u == [Once(Exec.Done(Some(e)))] + ([Closed(c)] + t);
    CountsCons(Once(Exec.Done(Some(e))), [Closed(c)] + t);
    CountsCons(Closed(c), t);
  }

  /** The bookkeeping of a pass that ends with its attempt. */
  lemma AttemptEndedPass(o: Exec.Outcome, limit: int, last: Option<Error>)
    requires !(o.Done? && o.err.Some?)
    ensures var t := [Prepared(None), Once(o)];
      && Shaped(t, limit) && Onces(t) == 1 && Prepares(t) == 1
      && Latest(last, t) == (if o.Done? then None else last)
  {
    var t1: seq<Step> := [Once(o)] + [];
    assert [Prepared(None), Once(o)] == [Prepared(None)] + t1;
    CountsCons(Prepared(None), t1);
    CountsCons(Once(o), []);
    LatestCons(last, Prepared(None), t1);
    LatestCons(last, Once(o), []);
    assert o.Done? ==> Once(o) == Once(Exec.Done(None));
  }

  /**
    The stop rule along an sql trace starting at retry `retries`: the probe after a failed
    `Prepare`, and the probe after a failed attempt and its `Close`, each decide as
    `AfterProbe` says, with no stop at retry 0.
  */
  ghost predicate SqlStopRule(maxRetry: int, retries: nat, t: seq<Step>, end: End)
    decreases |t|
  {
    if |t| >= 2 && t[0].Prepared? && t[0].err.Some? && t[1].Probed? then
      && AfterProbe(maxRetry, retries, false, t[1].report, |t| > 2, end)
      && SqlStopRule(maxRetry, retries + 1, t[2..], end)
    else if |t| >= 4 && t[0] == Prepared(None) && t[1].Once? && t[2].Closed? && t[3].Probed? then
      && AfterProbe(maxRetry, retries, false, t[3].report, |t| > 4, end)
      && SqlStopRule(maxRetry, retries + 1, t[4..], end)
    else true
  }

  /** The scripted answers of one pass: the maker, the attempt's backend, the statement's close, the pings. */
  datatype Pass<S> = Pass(made: Made<S>, backend: Exec.Script, close: Option<Error>, pings: nat -> Answer)

  /** How the loop ended, its trace, and the module and doer it leaves behind. */
  datatype SqlLoopResult<S> = SqlLoopResult(end: End, trace: seq<Step>, base: ModuleBase<S>, doer: Sql.SqlDoer<S>)

  /**
    What the loop promises from `retries` on, with doer fields `f`, module beginner `b` and
    `passes` scripted passes: one `Prepare` per pass and never past the retry ceiling; attempts
    only after a successful `Prepare`, failed attempts closed and then probed, failed prepares
    probed, and nothing after a success; a nil return or an escaped panic comes from the last
    attempt; a returned error is the prepare error or the tagged attempt error of the last
    failing pass; each probe stops or continues the loop by the `SqlStopRule`; the loop ends
    without a step only at the ceiling or out of script, and out of script only once every
    pass ran; only the doer's statement slot and the module's cache change.
  */
  ghost predicate Promised<S>(f: Fields.DoerFields<Sql.SqlOptions>, b: Option<nat>, passes: nat,
                              retries: nat, last: Option<Error>, r: SqlLoopResult<S>)
  {
    && Prepares(r.trace) <= passes
    && (f.maxRetry > 0 ==> retries + Prepares(r.trace) <= f.maxRetry + 1 || Prepares(r.trace) == 0)
    && Shaped(r.trace, f.maxPing)
    && (r.end == Returned(None) ==> |r.trace| >= 1 && r.trace[|r.trace| - 1] == Once(Exec.Done(None)))
    && (r.end.Escaped? ==> |r.trace| >= 1 && r.trace[|r.trace| - 1] == Once(Exec.Panicked(r.end.value)))
    && (r.end.Returned? ==> r.end.err == Latest(last, r.trace))
    && SqlStopRule(f.maxRetry, retries, r.trace, r.end)
    && (r.trace == [] ==> r.end == Pending || Ceiling(retries, f.maxRetry))
    && (r.end == Pending ==> Prepares(r.trace) == passes)
    && r.doer.fields == f && r.base.beginner == b
  }

  /** A pass whose `Prepare` failed with `e` and was probed, followed by the rest of the loop. */
  lemma PrepareFailedStep<S>(f: Fields.DoerFields<Sql.SqlOptions>, b: Option<nat>, passes: nat, retries: nat,
                             last: Option<Error>, e: Error, report: Probe.Report, rest: SqlLoopResult<S>)
    requires !Ceiling(retries, f.maxRetry) && !Stops(retries, false, report)
    requires Promised(f, b, passes, retries + 1, Some(e), rest)
    ensures Promised(f, b, passes + 1, retries, last,
                     SqlLoopResult(rest.end, [Prepared(Some(e)), Probed(f.maxPing, report)] + rest.trace, rest.base, rest.doer))
  {
    var steps := [Prepared(Some(e)), Probed(f.maxPing, report)];
    PrepareFailedPass(e, f.maxPing, report, last, rest.trace);
    assert rest.trace != [] ==> (steps + rest.trace)[|steps + rest.trace| - 1] == rest.trace[|rest.trace| - 1];
    assert (steps + rest.trace)[2..] == rest.trace;
  }

  /** A pass whose attempt failed with `e`, was closed with `c` and probed, followed by the rest of the loop. */
  lemma AttemptFailedStep<S>(f: Fields.DoerFields<Sql.SqlOptions>, b: Option<nat>, passes: nat, retries: nat,
                             last: Option<Error>, e: Error, c: Option<Error>, report: Probe.Report, rest: SqlLoopResult<S>)
    requires !Ceiling(retries, f.maxRetry) && !Stops(retries, false, report)
    requires Promised(f, b, passes, retries + 1, Some(PassError(e, c)), rest)
    ensures Promised(f, b, passes + 1, retries, last,
                     SqlLoopResult(rest.end, FailedSteps(e, c, f.maxPing, report) + rest.trace, rest.base, rest.doer))
  {
    var steps := FailedSteps(e, c, f.maxPing, report);
    AttemptFailedPass(e, c, f.maxPing, report, last, rest.trace);
    assert rest.trace != [] ==> (steps + rest.trace)[|steps + rest.trace| - 1] == rest.trace[|rest.trace| - 1];
    assert (steps + rest.trace)[4..] == rest.trace;
  }

  /** A pass whose `Prepare` failed with `e` against a connected database after a retry: the loop returns `e`. */
  lemma PrepareStoppedStep<S>(f: Fields.DoerFields<Sql.SqlOptions>, b: Option<nat>, passes: nat, retries: nat,
                              last: Option<Error>, e: Error, report: Probe.Report, m: ModuleBase<S>, d: Sql.SqlDoer<S>)
    requires !Ceiling(retries, f.maxRetry) && Stops(retries, false, report) && d.fields == f && m.beginner == b
    ensures Promised(f, b, passes + 1, retries, last,
                     SqlLoopResult(Returned(Some(e)), [Prepared(Some(e)), Probed(f.maxPing, report)], m, d))
  {
    var steps := [Prepared(Some(e)), Probed(f.maxPing, report)];
    PrepareFailedPass(e, f.maxPing, report, last, []);
    assert steps + [] == steps;
    assert steps[2..] == [];
  }

  /** A pass whose attempt failed against a connected database after a retry: the loop returns the pass error. */
  lemma AttemptStoppedStep<S>(f: Fields.DoerFields<Sql.SqlOptions>, b: Option<nat>, passes: nat, retries: nat,
                              last: Option<Error>, e: Error, c: Option<Error>, report: Probe.Report,
                              m: ModuleBase<S>, d: Sql.SqlDoer<S>)
    requires !Ceiling(retries, f.maxRetry) && Stops(retries, false, report) && d.fields == f && m.beginner == b
    ensures Promised(f, b, passes + 1, retries, last,
                     SqlLoopResult(Returned(Some(PassError(e, c))), FailedSteps(e, c, f.maxPing, report), m, d))
  {
    var steps := FailedSteps(e, c, f.maxPing, report);
    AttemptFailedPass(e, c, f.maxPing, report, last, []);
    assert steps + [] == steps;
    assert steps[4..] == [];
  }

  /** A pass whose attempt succeeded or panicked: the loop ends with that attempt. */
  lemma AttemptEndedStep<S>(f: Fields.DoerFields<Sql.SqlOptions>, b: Option<nat>, passes: nat, retries: nat,
                            last: Option<Error>, o: Exec.Outcome, m: ModuleBase<S>, d: Sql.SqlDoer<S>)
    requires !Ceiling(retries, f.maxRetry) && !(o.Done? && o.err.Some?) && d.fields == f && m.beginner == b
    ensures Promised(f, b, passes + 1, retries, last,
                     SqlLoopResult(if o.Panicked? then Escaped(o.value) else Returned(None), [Prepared(None), Once(o)], m, d))
  {
    AttemptEndedPass(o, f.maxPing, last);
  }

  /** The passes from `retries` on, `last` being the error the loop holds. */
  function Loop<S>(ctx: Exec.Context, m: ModuleBase<S>, d: Sql.SqlDoer<S>, script: seq<Pass<S>>,
                   retries: nat, last: Option<Error>): (r: SqlLoopResult<S>)
    requires retries > 0 ==> last.Some?
    ensures Promised(d.fields, m.beginner, |script|, retries, last, r)
    decreases |script|, 1
  {
    if Ceiling(retries, d.fields.maxRetry) then SqlLoopResult(Returned(last), [], m, d)
    else if script == [] then SqlLoopResult(Pending, [], m, d)
    else
      var pass := script[0];
      var p := Prepare(m, d, pass.made);
      if p.err.None? then Attempted(ctx, p.base, p.doer, script, retries, last)
      else
        var report := Probe.Ping(d.fields.maxPing, true, Some(pass.pings));
        var steps := [Prepared(p.err), Probed(d.fields.maxPing, report)];
        if Stops(retries, false, report) then
          PrepareStoppedStep(d.fields, m.beginner, |script| - 1, retries, last, p.err.value, report, p.base, p.doer);
          SqlLoopResult(Returned(p.err), steps, p.base, p.doer)
        else
          var rest := Loop(ctx, p.base, p.doer, script[1..], retries + 1, p.err);
          PrepareFailedStep(d.fields, m.beginner, |script| - 1, retries, last, p.err.value, report, rest);
          SqlLoopResult(rest.end, steps + rest.trace, rest.base, rest.doer)
  }

  /** The rest of a pass whose `Prepare` succeeded: the attempt, and on failure `Close` and the probe. */
  function Attempted<S>(ctx: Exec.Context, m: ModuleBase<S>, d: Sql.SqlDoer<S>, script: seq<Pass<S>>,
                        retries: nat, last: Option<Error>): (r: SqlLoopResult<S>)
    requires script != [] && !Ceiling(retries, d.fields.maxRetry)
    requires retries > 0 ==> last.Some?
    ensures Promised(d.fields, m.beginner, |script|, retries, last, r)
    decreases |script|, 0
  {
    var pass := script[0];
    var outcome := Sql.SqlExecute(ctx, d, pass.backend).outcome;
    if !(outcome.Done? && outcome.err.Some?) then
      AttemptEndedStep(d.fields, m.beginner, |script| - 1, retries, last, outcome, m, d);
      var end := if outcome.Panicked? then Escaped(outcome.value) else Returned(None);
      SqlLoopResult(end, [Prepared(None), Once(outcome)], m, d)
    else
      var e := outcome.err.value;
      var c := Close(m, pass.close);
      var report := Probe.Ping(d.fields.maxPing, true, Some(pass.pings));
      var steps := FailedSteps(e, c.err, d.fields.maxPing, report);
      if Stops(retries, false, report) then
        AttemptStoppedStep(d.fields, m.beginner, |script| - 1, retries, last, e, c.err, report, c.base, d);
        SqlLoopResult(Returned(Some(PassError(e, c.err))), steps, c.base, d)
      else
        var rest := Loop(ctx, c.base, d, script[1..], retries + 1, Some(PassError(e, c.err)));
        AttemptFailedStep(d.fields, m.beginner, |script| - 1, retries, last, e, c.err, report, rest);
        SqlLoopResult(rest.end, steps + rest.trace, rest.base, rest.doer)
  }

  /** What `Execute` hands back: the module and doer afterwards, and how the loop ended. */
  datatype Executed<S> = Executed(base: ModuleBase<S>, doer: Sql.SqlDoer<S>, result: SqlLoopResult<S>)

  /** `Execute`: the caller's setters are applied once, in order, then the loop starts at retry 0. */
  function Execute<S>(ctx: Exec.Context, m: ModuleBase<S>, d: Sql.SqlDoer<S>,
                      setters: seq<Fields.Setter<Sql.SqlOptions>>, script: seq<Pass<S>>): (r: Executed<S>)
    ensures r.doer.fields == Fields.MultiSet(d.fields, setters)
    ensures Shaped(r.result.trace, r.doer.fields.maxPing)
    ensures r.doer.fields.maxRetry > 0 ==> Prepares(r.result.trace) <= r.doer.fields.maxRetry + 1
    ensures r.result.end.Returned? ==> r.result.end.err == Latest(None, r.result.trace)
    ensures r.result.end.Escaped? ==>
      |r.result.trace| >= 1 && r.result.trace[|r.result.trace| - 1] == Once(Exec.Panicked(r.result.end.value))
    // a failed pass returns after its probe exactly on a connected verdict at a retry above 0
    ensures SqlStopRule(r.doer.fields.maxRetry, 0, r.result.trace, r.result.end)
    ensures r.result.end == Pending ==> Prepares(r.result.trace) == |script|
  {
    var d0 := d.(fields := Fields.MultiSet(d.fields, setters));
    var result := Loop(ctx, m, d0, script, 0, None);
    Executed(result.base, result.doer, result)
  }

  /** The panic of a method call on a nil `*slog.Logger`. */
  const NilLogger: string := "nil pointer dereference"

  /**
    `Execute` as written: the logger is taken from the context and is left nil when the
    context carries none (there is no `slog.Default()` fallback), so deriving the titled logger
    panics after the setters are applied and before the first pass.
  */
  function ExecuteAsWritten<S>(ctx: Exec.Context, hasLogger: bool, m: ModuleBase<S>, d: Sql.SqlDoer<S>,
                               setters: seq<Fields.Setter<Sql.SqlOptions>>, script: seq<Pass<S>>): (r: Executed<S>)
    ensures !hasLogger ==> r.result.end == Escaped(NilLogger) && r.result.trace == [] && r.base == m
    ensures r.doer.fields == Fields.MultiSet(d.fields, setters)
    ensures hasLogger ==> r == Execute(ctx, m, d, setters, script)
  {
    if hasLogger then Execute(ctx, m, d, setters, script)
    else
      var d0 := d.(fields := Fields.MultiSet(d.fields, setters));
      Executed(m, d0, SqlLoopResult(Escaped(NilLogger), [], m, d0))
  }

  /**
    Without a logger in the context, the as-written loop panics even when the first pass would
    succeed; the corrected `Execute` returns nil.
  */
  lemma MissingLoggerPanics<S>(ctx: Exec.Context, m: ModuleBase<S>, d: Sql.SqlDoer<S>,
                               setters: seq<Fields.Setter<Sql.SqlOptions>>, script: seq<Pass<S>>)
    requires |script| >= 1 && m.cache.Some?
    requires var d0 := d.(fields := Fields.MultiSet(d.fields, setters));
      !Ceiling(0, d0.fields.maxRetry)
      && Sql.SqlExecute(ctx, Sql.SetStmt(d0, m.cache), script[0].backend).outcome == Exec.Done(None)
    ensures ExecuteAsWritten(ctx, false, m, d, setters, script).result.end.Escaped?
    ensures Execute(ctx, m, d, setters, script).result.end == Returned(None)
  {
    var d0 := d.(fields := Fields.MultiSet(d.fields, setters));
    var p := Prepare(m, d0, script[0].made);
    assert p.err.None? && p.doer == Sql.SetStmt(d0, m.cache);
    assert Loop(ctx, m, d0, script, 0, None) == Attempted(ctx, p.base, p.doer, script, 0, None);
  }

  /** The pass's probe finds the database healthy: its first ping succeeds. */
  ghost predicate Healthy<S>(p: Pass<S>)
  {
    p.pings(1).Ok?
  }

  /**
    A statement that cannot be prepared against a healthy database: the first connected verdict
    (retry 0) still retries, the second returns the prepare error, and no attempt is made.
  */
  lemma UnpreparableStatementStopsOnSecondPass<S>(ctx: Exec.Context, m: ModuleBase<S>, d: Sql.SqlDoer<S>, script: seq<Pass<S>>)
    requires d.fields.maxRetry >= 1 && |script| >= 2 && m.cache.None?
    requires script[0].made.stmt.None? && script[0].made.err.Some? && Healthy(script[0])
    requires script[1].made.err.Some? && Healthy(script[1])
    ensures var r := Loop(ctx, m, d, script, 0, None);
      && r.end == Returned(script[1].made.err) && Onces(r.trace) == 0 && Prepares(r.trace) == 2
  {
    ConnectedIffFirstPingOk(d.fields.maxPing, true, Some(script[0].pings));
    ConnectedIffFirstPingOk(d.fields.maxPing, true, Some(script[1].pings));
    var p := Prepare(m, d, script[0].made);
    var report0 := Probe.Ping(d.fields.maxPing, true, Some(script[0].pings));
    var report1 := Probe.Ping(d.fields.maxPing, true, Some(script[1].pings));
    assert script[1..][0] == script[1];
    var q := Prepare(p.base, p.doer, script[1].made);
    var second := [Prepared(q.err), Probed(d.fields.maxPing, report1)];
    assert second + [] == second;
    PrepareFailedPass(q.err.value, d.fields.maxPing, report1, p.err, []);
    assert Loop(ctx, p.base, p.doer, script[1..], 1, p.err).trace == second;
    PrepareFailedPass(p.err.value, d.fields.maxPing, report0, None, second);
  }

  /**
    A failed attempt against a healthy database after a retry returns the attempt's error tagged
    "[exec]" (merged with the close error), and the cache is left empty.
  */
  lemma FailedAttemptTaggedAndClosed<S>(ctx: Exec.Context, m: ModuleBase<S>, d: Sql.SqlDoer<S>, script: seq<Pass<S>>, last: Error)
    requires !Ceiling(1, d.fields.maxRetry) && |script| >= 1 && m.cache.Some?
    requires Healthy(script[0])
    requires var o := Sql.SqlExecute(ctx, Sql.SetStmt(d, m.cache), script[0].backend).outcome; o.Done? && o.err.Some?
    ensures var r := Loop(ctx, m, d, script, 1, Some(last));
      var e := Sql.SqlExecute(ctx, Sql.SetStmt(d, m.cache), script[0].backend).outcome.err.value;
      && r.end == Returned(Some(PassError(e, script[0].close)))
      && Onces(r.trace) == 1 && r.base.cache.None?
  {
    ConnectedIffFirstPingOk(d.fields.maxPing, true, Some(script[0].pings));
    var e := Sql.SqlExecute(ctx, Sql.SetStmt(d, m.cache), script[0].backend).outcome.err.value;
    var report := Probe.Ping(d.fields.maxPing, true, Some(script[0].pings));
    var steps := FailedSteps(e, script[0].close, d.fields.maxPing, report);
    assert steps + [] == steps;
    AttemptFailedPass(e, script[0].close, d.fields.maxPing, report, Some(last), []);
    assert Loop(ctx, m, d, script, 1, Some(last)).trace == steps;
  }

  /** Every maker call fails with an empty statement, and every probe finds the database unhealthy. */
  ghost predicate AllUnprepared<S>(script: seq<Pass<S>>)
  {
    forall i :: 0 <= i < |script| ==> script[i].made.stmt.None? && script[i].made.err.Some? && !Healthy(script[i])
  }

  /** From retry `retries` on, the run prepares until the ceiling, never attempts, and returns the latest error. */
  ghost predicate NeverPrepared<S>(maxRetry: int, retries: nat, last: Option<Error>, r: SqlLoopResult<S>)
  {
    && Prepares(r.trace) == maxRetry + 1 - retries && Onces(r.trace) == 0
    && r.end.Returned? && r.end.err == Latest(last, r.trace)
  }

  /**
    With `MaxRetry() = N > 0`, a maker that always fails with an empty statement and a database
    never found connected: exactly N+1 passes from retry 0, no attempt, and the last prepare
    error is returned.
  */
  lemma {:induction false} NeverPreparedHitsCeiling<S>(ctx: Exec.Context, m: ModuleBase<S>, d: Sql.SqlDoer<S>,
                                                      script: seq<Pass<S>>, retries: nat, last: Option<Error>)
    requires d.fields.maxRetry > 0 && retries <= d.fields.maxRetry + 1 && (retries > 0 ==> last.Some?)
    requires m.cache.None? && |script| >= d.fields.maxRetry + 1 - retries
    requires AllUnprepared(script)
    ensures NeverPrepared(d.fields.maxRetry, retries, last, Loop(ctx, m, d, script, retries, last))
    decreases |script|
  {
    if retries <= d.fields.maxRetry {
      var m', d', e := UnpreparedStep(ctx, m, d, script, retries, last);
      NeverPreparedHitsCeiling(ctx, m', d', script[1..], retries + 1, e);
    } else {
      PrepareCeilingReached(ctx, m, d, script, retries, last);
    }
  }

  /** At the ceiling the loop prepares nothing and returns the error it holds. */
  lemma PrepareCeilingReached<S>(ctx: Exec.Context, m: ModuleBase<S>, d: Sql.SqlDoer<S>,
                                 script: seq<Pass<S>>, retries: nat, last: Option<Error>)
    requires d.fields.maxRetry > 0 && retries == d.fields.maxRetry + 1 && last.Some?
    ensures NeverPrepared(d.fields.maxRetry, retries, last, Loop(ctx, m, d, script, retries, last))
  {
    assert Loop(ctx, m, d, script, retries, last) == SqlLoopResult(Returned(last), [], m, d);
  }

  /**
    One pass whose maker fails against a database not found connected: the loop continues with
    the rest of the script, the cache still empty, holding the prepare error.
  */
  lemma UnpreparedStep<S>(ctx: Exec.Context, m: ModuleBase<S>, d: Sql.SqlDoer<S>,
                          script: seq<Pass<S>>, retries: nat, last: Option<Error>)
    returns (m': ModuleBase<S>, d': Sql.SqlDoer<S>, e: Option<Error>)
    requires !Ceiling(retries, d.fields.maxRetry) && (retries > 0 ==> last.Some?)
    requires m.cache.None? && |script| >= 1 && AllUnprepared(script)
    ensures m'.cache.None? && d'.fields == d.fields && e == script[0].made.err && e.Some?
    ensures AllUnprepared(script[1..])
    ensures NeverPrepared(d.fields.maxRetry, retries + 1, e, Loop(ctx, m', d', script[1..], retries + 1, e)) ==>
      NeverPrepared(d.fields.maxRetry, retries, last, Loop(ctx, m, d, script, retries, last))
  {
    ConnectedIffFirstPingOk(d.fields.maxPing, true, Some(script[0].pings));
    var p := Prepare(m, d, script[0].made);
    m', d', e := p.base, p.doer, p.err;
    var report := Probe.Ping(d.fields.maxPing, true, Some(script[0].pings));
    var rest := Loop(ctx, m', d', script[1..], retries + 1, e);
    PrepareFailedPass(e.value, d.fields.maxPing, report, last, rest.trace);
    assert Loop(ctx, m, d, script, retries, last).trace == [Prepared(e), Probed(d.fields.maxPing, report)] + rest.trace;
    assert forall i :: 0 <= i < |script[1..]| ==> script[1..][i] == script[i + 1];
  }
}
