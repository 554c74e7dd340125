/**
  Vocabulary shared by the three outer retry loops (txn_pgx, txn_mongo and txn_sql): the
  retry ceiling, the "connected" verdict on a ping report, the steps a loop takes and how
  it ends. Each loop consumes a finite script of attempts; running out of script while the
  Go loop would go on is the `Pending` end.
*/
module Retry {
  import opened Wrappers
  import opened Errors
  import Exec
  import Probe

  /** The ceiling test at the top of each pass: `retries > MaxRetry() && MaxRetry() > 0`. */
  predicate Ceiling(retries: nat, maxRetry: int)
  {
    retries > maxRetry && maxRetry > 0
  }

  /** The verdict `x == nil && pings <= 1` on the report of the reconnect probe. */
  predicate Connected(r: Probe.Report)
  {
    r.err.None? && r.cnt <= 1
  }

  /**
    Because the limit is normalised to at least 1, the probe always pings once, so "connected"
    means exactly that the first ping succeeded.
  */
  lemma ConnectedIffFirstPingOk(limit: int, hasCount: bool, ping: Option<nat -> Answer>)
    ensures Connected(Probe.Ping(limit, hasCount, ping)) <==> Probe.AttemptAnswer(ping, 1).Ok?
  {
    var r := Probe.Ping(limit, hasCount, ping);
    if Probe.AttemptAnswer(ping, 1).Ok? {
      assert r.calls == 1;
    }
  }

  /** One step of a retry loop, in the order taken. */
  datatype Step =
    | Once(outcome: Exec.Outcome)                 // one ExecuteOnce and what it returned
    | Probed(limit: int, report: Probe.Report)    // one reconnect probe with limit MaxPing()
    | Prepared(err: Option<Error>)                // the sql module's Prepare
    | Closed(err: Option<Error>)                  // the sql module's Close

  /** How a loop ended: it returned, a panic escaped it, or the script ran out first. */
  datatype End = Returned(err: Option<Error>) | Escaped(value: string) | Pending

  datatype LoopResult = LoopResult(end: End, trace: seq<Step>)

  /** Number of `ExecuteOnce` calls in a trace. */
  function Onces(t: seq<Step>): nat
  {
    if t == [] then 0 else (if t[0].Once? then 1 else 0) + Onces(t[1..])
  }

  lemma {:induction false} OncesAppend(a: seq<Step>, b: seq<Step>)
    ensures Onces(a + b) == Onces(a) + Onces(b)
    decreases |a|
  {
    if a == [] {
      assert a + b == b;
    } else {
      assert (a + b)[1..] == a[1..] + b;
      OncesAppend(a[1..], b);
    }
  }

  /** The error returned by the most recent `ExecuteOnce` of `t`, or `last` if `t` has none. */
  function LatestError(last: Option<Error>, t: seq<Step>): Option<Error>
    decreases |t|
  {
    if t == [] then last
    else LatestError(if t[0].Once? && t[0].outcome.Done? then t[0].outcome.err else last, t[1..])
  }

  lemma {:induction false} LatestErrorAppend(last: Option<Error>, a: seq<Step>, b: seq<Step>)
    ensures LatestError(last, a + b) == LatestError(LatestError(last, a), b)
    decreases |a|
  {
    if a == [] {
      assert a + b == b;
    } else {
      assert (a + b)[0] == a[0];
      assert (a + b)[1..] == a[1..] + b;
      LatestErrorAppend(if a[0].Once? && a[0].outcome.Done? then a[0].outcome.err else last, a[1..], b);
    }
  }

  /** Every `ExecuteOnce` that returned an error is followed at once by a probe with `limit`. */
  ghost predicate FailuresProbed(t: seq<Step>, limit: int)
  {
    forall i :: 0 <= i < |t| && t[i].Once? && t[i].outcome.Done? && t[i].outcome.err.Some? ==>
      i + 1 < |t| && t[i + 1].Probed? && t[i + 1].limit == limit
  }

  lemma FailuresProbedAppend(a: seq<Step>, b: seq<Step>, limit: int)
    requires FailuresProbed(a, limit) && FailuresProbed(b, limit)
    requires |a| >= 1 && !a[|a| - 1].Once?
    ensures FailuresProbed(a + b, limit)
  {
    var t := a + b;
    forall i | 0 <= i < |t| && t[i].Once? && t[i].outcome.Done? && t[i].outcome.err.Some?
      ensures i + 1 < |t| && t[i + 1].Probed? && t[i + 1].limit == limit
    {
      if i < |a| {
        assert t[i] == a[i];
        assert t[i + 1] == a[i + 1];
      } else {
        assert t[i] == b[i - |a|];
        assert t[i + 1] == b[i + 1 - |a|];
      }
    }
  }

  /** From retry `retries` on, the run attempts until the ceiling and returns the latest error. */
  ghost predicate HitsCeiling(maxRetry: int, retries: nat, last: Option<Error>, r: LoopResult)
  {
    && Onces(r.trace) == maxRetry + 1 - retries
    && r.end.Returned? && r.end.err == LatestError(last, r.trace)
  }

  /** The run made `n` attempts and ran out of script without returning. */
  ghost predicate UsesUp(n: nat, r: LoopResult)
  {
    r.end == Pending && Onces(r.trace) == n
  }

  /** A successful `ExecuteOnce` can only be the last step: nothing follows a success. */
  ghost predicate SuccessIsFinal(t: seq<Step>)
  {
    forall i :: 0 <= i < |t| && t[i] == Once(Exec.Done(None)) ==> i == |t| - 1
  }

  lemma SuccessIsFinalAppend(a: seq<Step>, b: seq<Step>)
    requires SuccessIsFinal(b)
    requires forall i :: 0 <= i < |a| ==> a[i] != Once(Exec.Done(None))
    ensures SuccessIsFinal(a + b)
  {
    assert forall i :: 0 <= i < |a| ==> (a + b)[i] == a[i];
    assert forall i :: |a| <= i < |a| + |b| ==> (a + b)[i] == b[i - |a|];
  }

  /**
    Whether a failed pass at retry `retries` stops after its probe: the Go loops return the
    error they hold when `x == nil && pings <= 1 && retries > 0`; mongo drops the last
    conjunct (`stopAtZero`), so a connected verdict stops it at retry 0 too.
  */
  predicate Stops(retries: nat, stopAtZero: bool, report: Probe.Report)
  {
    Connected(report) && (retries > 0 || stopAtZero)
  }

  /**
    What follows the probe of a failed pass at retry `retries`: when the pass `Stops`, the
    probe is the last step (`more` is false) and the loop returns; otherwise the loop goes
    on, so another pass follows, or the script ran out, or the next pass is past the ceiling.
  */
  ghost predicate AfterProbe(maxRetry: int, retries: nat, stopAtZero: bool, report: Probe.Report, more: bool, end: End)
  {
    if Stops(retries, stopAtZero, report) then !more && end.Returned?
    else more || end == Pending || Ceiling(retries + 1, maxRetry)
  }

  /** Along a pgx or mongo trace starting at retry `retries`, every probe decides as `AfterProbe` says. */
  ghost predicate StopRule(maxRetry: int, retries: nat, stopAtZero: bool, t: seq<Step>, end: End)
    decreases |t|
  {
    |t| >= 2 && t[0].Once? && t[1].Probed? ==>
      && AfterProbe(maxRetry, retries, stopAtZero, t[1].report, |t| > 2, end)
      && StopRule(maxRetry, retries + 1, stopAtZero, t[2..], end)
  }

  /** The bookkeeping of a pass that ends right after its `ExecuteOnce`. */
  lemma OncePass(o: Exec.Outcome, last: Option<Error>)
    ensures Onces([Once(o)]) == 1
    ensures o.Done? ==> LatestError(last, [Once(o)]) == o.err
    ensures SuccessIsFinal([Once(o)])
  {
    assert [Once(o)][1..] == [];
  }

  /** The bookkeeping of a pass whose `ExecuteOnce` failed with `e` and was then probed. */
  lemma ProbedPass(e: Error, limit: int, report: Probe.Report, last: Option<Error>)
    ensures var steps := [Once(Exec.Done(Some(e))), Probed(limit, report)];
      && Onces(steps) == 1
      && LatestError(last, steps) == Some(e)
      && FailuresProbed(steps, limit)
      && (forall i :: 0 <= i < |steps| ==> steps[i] != Once(Exec.Done(None)))
      && !steps[|steps| - 1].Once?
  {
    var steps := [Once(Exec.Done(Some(e))), Probed(limit, report)];
    assert steps[1..] == [Probed(limit, report)];
    assert steps[1..][1..] == [];
    assert Onces(steps[1..]) == 0;
    assert LatestError(Some(e), steps[1..]) == Some(e);
  }

  /** The bookkeeping of a probed failing pass followed by the rest of the loop's trace. */
  lemma ChainPass(e: Error, limit: int, report: Probe.Report, last: Option<Error>, rest: seq<Step>)
    requires FailuresProbed(rest, limit) && SuccessIsFinal(rest)
    ensures var t := [Once(Exec.Done(Some(e))), Probed(limit, report)] + rest;
      && Onces(t) == 1 + Onces(rest)
      && LatestError(last, t) == LatestError(Some(e), rest)
      && FailuresProbed(t, limit)
      && SuccessIsFinal(t)
      && (rest != [] ==> t[|t| - 1] == rest[|rest| - 1])
  {
    var steps := [Once(Exec.Done(Some(e))), Probed(limit, report)];
    ProbedPass(e, limit, report, last);
    OncesAppend(steps, rest);
    LatestErrorAppend(last, steps, rest);
    FailuresProbedAppend(steps, rest, limit);
    SuccessIsFinalAppend(steps, rest);
  }

  /**
    What the pgx and mongo loops promise from `retries` on, with `passes` scripted passes:
    at most one attempt per pass and never past the retry ceiling; every failed attempt probed
    with `maxPing`; nothing after a success; a nil return comes from the last attempt, an
    escaped panic too; a returned error is the most recent attempt error, unchanged; each
    probe stops or continues the loop by the `StopRule`; and the loop ends without a step
    only at the ceiling or out of script, and out of script only once every pass ran.
  */
  ghost predicate LoopPromise(maxRetry: int, maxPing: int, stopAtZero: bool, passes: nat, retries: nat,
                              last: Option<Error>, r: LoopResult)
  {
    && Onces(r.trace) <= passes
    && (maxRetry > 0 ==> retries + Onces(r.trace) <= maxRetry + 1 || Onces(r.trace) == 0)
    && FailuresProbed(r.trace, maxPing)
    && SuccessIsFinal(r.trace)
    && (r.end == Returned(None) ==> |r.trace| >= 1 && r.trace[|r.trace| - 1] == Once(Exec.Done(None)))
    && (r.end.Escaped? ==> |r.trace| >= 1 && r.trace[|r.trace| - 1] == Once(Exec.Panicked(r.end.value)))
    && (r.end.Returned? ==> r.end.err == LatestError(last, r.trace))
    && StopRule(maxRetry, retries, stopAtZero, r.trace, r.end)
    && (r.trace == [] ==> r.end == Pending || Ceiling(retries, maxRetry))
    && (r.end == Pending ==> Onces(r.trace) == passes)
  }

  /** A pass that ends the loop with its attempt keeps the promise. */
  lemma FinalStep(maxRetry: int, maxPing: int, stopAtZero: bool, passes: nat, retries: nat, last: Option<Error>, o: Exec.Outcome)
    requires !Ceiling(retries, maxRetry) && !(o.Done? && o.err.Some?)
    ensures LoopPromise(maxRetry, maxPing, stopAtZero, passes + 1, retries, last,
                        LoopResult(if o.Panicked? then Escaped(o.value) else Returned(None), [Once(o)]))
  {
    OncePass(o, last);
  }

  /** A pass that fails with `e` and stops after its probe keeps the promise. */
  lemma StoppedStep(maxRetry: int, maxPing: int, stopAtZero: bool, passes: nat, retries: nat, last: Option<Error>,
                    e: Error, report: Probe.Report)
    requires !Ceiling(retries, maxRetry) && Stops(retries, stopAtZero, report)
    ensures LoopPromise(maxRetry, maxPing, stopAtZero, passes + 1, retries, last,
                        LoopResult(Returned(Some(e)), [Once(Exec.Done(Some(e))), Probed(maxPing, report)]))
  {
    ProbedPass(e, maxPing, report, last);
    var steps := [Once(Exec.Done(Some(e))), Probed(maxPing, report)];
    assert forall i :: 0 <= i < |steps| ==> steps[i] != Once(Exec.Done(None));
    assert steps[2..] == [];
  }

  /** A pass that fails with `e` and is probed, followed by the rest of the loop, keeps the promise. */
  lemma ChainStep(maxRetry: int, maxPing: int, stopAtZero: bool, passes: nat, retries: nat, last: Option<Error>,
                  e: Error, report: Probe.Report, rest: LoopResult)
    requires !Ceiling(retries, maxRetry) && !Stops(retries, stopAtZero, report)
    requires LoopPromise(maxRetry, maxPing, stopAtZero, passes, retries + 1, Some(e), rest)
    ensures LoopPromise(maxRetry, maxPing, stopAtZero, passes + 1, retries, last,
                        LoopResult(rest.end, [Once(Exec.Done(Some(e))), Probed(maxPing, report)] + rest.trace))
  {
    ChainPass(e, maxPing, report, last, rest.trace);
    var t := [Once(Exec.Done(Some(e))), Probed(maxPing, report)] + rest.trace;
    assert t[2..] == rest.trace;
  }
}
