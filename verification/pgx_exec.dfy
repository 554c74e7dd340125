/**
  The pgx outer retry loop `Execute` (txn_pgx/txn_pgx_exec.go): apply the caller's setters,
  then attempt, probe on failure, and stop on success, on the retry ceiling, or on a
  "connected" verdict once at least one retry has happened.
*/
module PgxExec {
  import opened Wrappers
  import opened Errors
  import Fields
  import Exec
  import Probe
  import Pgx
  import opened Retry

  /** The scripted answers of one pass: the attempt's backend and the pool's ping answers. */
  datatype Attempt = Attempt(backend: Exec.Script, pings: nat -> Answer)

  /** The passes from `retries` on, `last` being the most recent `ExecuteOnce` error. */
  function Loop(ctx: Exec.Context, doer: Pgx.Doer, script: seq<Attempt>, retries: nat, last: Option<Error>): (r: LoopResult)
    requires retries > 0 ==> last.Some?
    ensures LoopPromise(doer.maxRetry, doer.maxPing, false, |script|, retries, last, r)
    decreases |script|
  {
    if Ceiling(retries, doer.maxRetry) then LoopResult(Returned(last), [])
    else if script == [] then LoopResult(Pending, [])
    else
      var outcome := Pgx.ExecuteOnce(ctx, doer, script[0].backend).outcome;
      if !(outcome.Done? && outcome.err.Some?) then
        FinalStep(doer.maxRetry, doer.maxPing, false, |script| - 1, retries, last, outcome);
        LoopResult(if outcome.Panicked? then Escaped(outcome.value) else Returned(None), [Once(outcome)])
      else
        var e := outcome.err.value;
        var report := Probe.Ping(doer.maxPing, true, Some(script[0].pings));
        if Stops(retries, false, report) then
          StoppedStep(doer.maxRetry, doer.maxPing, false, |script| - 1, retries, last, e, report);
          LoopResult(Returned(Some(e)), [Once(outcome), Probed(doer.maxPing, report)])
        else
          var rest := Loop(ctx, doer, script[1..], retries + 1, Some(e));
          ChainStep(doer.maxRetry, doer.maxPing, false, |script| - 1, retries, last, e, report, rest);
          LoopResult(rest.end, [Once(outcome), Probed(doer.maxPing, report)] + rest.trace)
  }

  /** What `Execute` hands back: the doer after the setters, and how the loop ended. */
  datatype Executed = Executed(doer: Pgx.Doer, result: LoopResult)

  /** `Execute`: the caller's setters are applied once, in order, then the loop starts at retry 0. */
  function Execute(ctx: Exec.Context, doer: Pgx.Doer, setters: seq<Fields.Setter<Pgx.TxOptions>>, script: seq<Attempt>): (r: Executed)
    ensures r.doer == Fields.MultiSet(doer, setters)
    ensures FailuresProbed(r.result.trace, r.doer.maxPing)
    ensures SuccessIsFinal(r.result.trace)
    ensures r.doer.maxRetry > 0 ==> Onces(r.result.trace) <= r.doer.maxRetry + 1
    ensures r.result.end.Returned? ==> r.result.end.err == LatestError(None, r.result.trace)
    // a failed pass returns after its probe exactly on a connected verdict at a retry above 0
    ensures StopRule(r.doer.maxRetry, 0, false, r.result.trace, r.result.end)
    ensures r.result.end == Pending ==> Onces(r.result.trace) == |script|
  {
    var d := Fields.MultiSet(doer, setters);
    Executed(d, Loop(ctx, d, script, 0, None))
  }

  /** The pass fails: `ExecuteOnce` returns an error. */
  ghost predicate Fails(ctx: Exec.Context, doer: Pgx.Doer, a: Attempt)
  {
    var o := Pgx.ExecuteOnce(ctx, doer, a.backend).outcome;
    o.Done? && o.err.Some?
  }

  /** The pass's probe finds the pool healthy: its first ping succeeds. */
  ghost predicate Healthy(a: Attempt)
  {
    a.pings(1).Ok?
  }

  /**
    A work unit that keeps failing against a healthy pool runs exactly twice when
    `MaxRetry() >= 1`: a connected verdict on retry 0 does not stop the loop.
  */
  lemma HealthyPoolRetriesOnce(ctx: Exec.Context, doer: Pgx.Doer, script: seq<Attempt>)
    requires doer.maxRetry >= 1 && |script| >= 2
    requires Fails(ctx, doer, script[0]) && Fails(ctx, doer, script[1])
    requires Healthy(script[0]) && Healthy(script[1])
    ensures Onces(Loop(ctx, doer, script, 0, None).trace) == 2
    ensures Loop(ctx, doer, script, 0, None).end ==
      Returned(Pgx.ExecuteOnce(ctx, doer, script[1].backend).outcome.err)
  {
    ConnectedIffFirstPingOk(doer.maxPing, true, Some(script[0].pings));
    ConnectedIffFirstPingOk(doer.maxPing, true, Some(script[1].pings));
    var e0 := Pgx.ExecuteOnce(ctx, doer, script[0].backend).outcome.err.value;
    var e1 := Pgx.ExecuteOnce(ctx, doer, script[1].backend).outcome.err.value;
    ProbedPass(e0, doer.maxPing, Probe.Ping(doer.maxPing, true, Some(script[0].pings)), None);
    ProbedPass(e1, doer.maxPing, Probe.Ping(doer.maxPing, true, Some(script[1].pings)), Some(e0));
    var rest := Loop(ctx, doer, script[1..], 1, Some(e0));
    assert script[1..][0] == script[1];
    assert Onces(rest.trace) == 1;
  }

  /** Every pass fails, and every probe finds the pool unhealthy. */
  ghost predicate AllFailUnhealthy(ctx: Exec.Context, doer: Pgx.Doer, script: seq<Attempt>)
  {
    forall i :: 0 <= i < |script| ==> Fails(ctx, doer, script[i]) && !Healthy(script[i])
  }

  /**
    With `MaxRetry() = N > 0` and a pool never found connected, a work unit that keeps failing
    runs exactly N+1 times from retry 0, and the last error is returned.
  */
  lemma {:induction false} NeverConnectedHitsCeiling(ctx: Exec.Context, doer: Pgx.Doer, script: seq<Attempt>, retries: nat, last: Option<Error>)
    requires doer.maxRetry > 0 && retries <= doer.maxRetry + 1 && (retries > 0 ==> last.Some?)
    requires |script| >= doer.maxRetry + 1 - retries
    requires AllFailUnhealthy(ctx, doer, script)
    ensures HitsCeiling(doer.maxRetry, retries, last, Loop(ctx, doer, script, retries, last))
    decreases |script|
  {
    if retries <= doer.maxRetry {
      var e := FailedHead(ctx, doer, script);
      NeverConnectedHitsCeiling(ctx, doer, script[1..], retries + 1, e);
      FailedUnhealthyStep(ctx, doer, script, retries, last);
    } else {
      CeilingReached(ctx, doer, script, retries, last);
    }
  }

  /** At the ceiling the loop makes no attempt and returns the error it holds. */
  lemma CeilingReached(ctx: Exec.Context, doer: Pgx.Doer, script: seq<Attempt>, retries: nat, last: Option<Error>)
    requires doer.maxRetry > 0 && retries == doer.maxRetry + 1 && last.Some?
    ensures HitsCeiling(doer.maxRetry, retries, last, Loop(ctx, doer, script, retries, last))
  {
    assert Loop(ctx, doer, script, retries, last) == LoopResult(Returned(last), []);
  }

  /** The first pass of an all-failing script fails with an error, and the rest of the script fails too. */
  lemma FailedHead(ctx: Exec.Context, doer: Pgx.Doer, script: seq<Attempt>) returns (e: Option<Error>)
    requires |script| >= 1 && AllFailUnhealthy(ctx, doer, script)
    ensures e == Pgx.ExecuteOnce(ctx, doer, script[0].backend).outcome.err && e.Some?
    ensures AllFailUnhealthy(ctx, doer, script[1..])
  {
    e := Pgx.ExecuteOnce(ctx, doer, script[0].backend).outcome.err;
    assert Fails(ctx, doer, script[0]);
    assert forall i :: 0 <= i < |script[1..]| ==> script[1..][i] == script[i + 1];
  }

  /**
    One pass that fails against a pool not found connected: the loop continues with the rest of
    the script, one attempt more, holding that pass's error.
  */
  lemma FailedUnhealthyStep(ctx: Exec.Context, doer: Pgx.Doer, script: seq<Attempt>, retries: nat, last: Option<Error>)
    requires !Ceiling(retries, doer.maxRetry) && (retries > 0 ==> last.Some?)
    requires |script| >= 1 && Fails(ctx, doer, script[0]) && !Healthy(script[0])
    ensures var e := Pgx.ExecuteOnce(ctx, doer, script[0].backend).outcome.err;
      HitsCeiling(doer.maxRetry, retries + 1, e, Loop(ctx, doer, script[1..], retries + 1, e)) ==>
      HitsCeiling(doer.maxRetry, retries, last, Loop(ctx, doer, script, retries, last))
    ensures var e := Pgx.ExecuteOnce(ctx, doer, script[0].backend).outcome.err;
      UsesUp(|script| - 1, Loop(ctx, doer, script[1..], retries + 1, e)) ==>
      UsesUp(|script|, Loop(ctx, doer, script, retries, last))
  {
    var o := Pgx.ExecuteOnce(ctx, doer, script[0].backend).outcome;
    var e := o.err;
    var report := Probe.Ping(doer.maxPing, true, Some(script[0].pings));
    ConnectedIffFirstPingOk(doer.maxPing, true, Some(script[0].pings));
    var rest := Loop(ctx, doer, script[1..], retries + 1, e);
    ChainPass(e.value, doer.maxPing, report, last, rest.trace);
    assert Loop(ctx, doer, script, retries, last) == LoopResult(rest.end, [Once(o), Probed(doer.maxPing, report)] + rest.trace);
  }

  /**
    With `MaxRetry() <= 0` there is no ceiling: a work unit that keeps failing against a pool
    never found connected uses up the whole script without returning.
  */
  lemma {:induction false} NoCeilingWithoutMaxRetry(ctx: Exec.Context, doer: Pgx.Doer, script: seq<Attempt>, retries: nat, last: Option<Error>)
    requires doer.maxRetry <= 0 && (retries > 0 ==> last.Some?)
    requires AllFailUnhealthy(ctx, doer, script)
    ensures UsesUp(|script|, Loop(ctx, doer, script, retries, last))
    decreases |script|
  {
    if script != [] {
      var e := FailedHead(ctx, doer, script);
      NoCeilingWithoutMaxRetry(ctx, doer, script[1..], retries + 1, e);
      FailedUnhealthyStep(ctx, doer, script, retries, last);
    } else {
      ScriptExhausted(ctx, doer, retries, last);
    }
  }

  /** Without a ceiling, an empty script ends the loop pending, with no attempt. */
  lemma ScriptExhausted(ctx: Exec.Context, doer: Pgx.Doer, retries: nat, last: Option<Error>)
    requires doer.maxRetry <= 0 && (retries > 0 ==> last.Some?)
    ensures UsesUp(0, Loop(ctx, doer, [], retries, last))
  {
    assert Loop(ctx, doer, [], retries, last) == LoopResult(Pending, []);
  }
}
