/**
  The mongo outer retry loop (txn_mongo/txn_mongo_exec.go): `Execute` puts the default
  setters before the caller's, applies them once, then attempts, probes on failure, and stops
  on success, on the retry ceiling, or on any "connected" verdict, retry 0 included. The
  flag `asWritten` picks the attempt: the code as written, or the one with the corrected
  `BeginTxn`; everything stated about the loop holds for both.
*/
module MongoExec {
  import opened Wrappers
  import opened Errors
  import Fields
  import Exec
  import Probe
  import Mongo
  import opened Retry

  /** The scripted answers of one pass: the attempt's session and backend, and the client's pings. */
  datatype Pass = Pass(attempt: Mongo.Attempt, pings: nat -> Answer)

  /**
    The outcome of the pass's `ExecuteOnce`: the code as written when `asWritten`, whose
    `BeginTxn` looks for the session in the deadline context, or the corrected one.
  */
  function OutcomeOf(ctx: Exec.Context, doer: Mongo.Doer, asWritten: bool, p: Pass): Exec.Outcome
  {
    if asWritten then Mongo.ExecuteOnceAsWritten(ctx, doer, p.attempt).run.outcome
    else Mongo.ExecuteOnce(ctx, doer, p.attempt).run.outcome
  }

  /** The passes from `retries` on, `last` being the most recent `ExecuteOnce` error. */
  function Loop(ctx: Exec.Context, doer: Mongo.Doer, asWritten: bool, script: seq<Pass>, retries: nat, last: Option<Error>): (r: LoopResult)
    requires retries > 0 ==> last.Some?
    ensures LoopPromise(doer.maxRetry, doer.maxPing, true, |script|, retries, last, r)
    decreases |script|
  {
    if Ceiling(retries, doer.maxRetry) then LoopResult(Returned(last), [])
    else if script == [] then LoopResult(Pending, [])
    else
      var outcome := OutcomeOf(ctx, doer, asWritten, script[0]);
      if !(outcome.Done? && outcome.err.Some?) then
        FinalStep(doer.maxRetry, doer.maxPing, true, |script| - 1, retries, last, outcome);
        LoopResult(if outcome.Panicked? then Escaped(outcome.value) else Returned(None), [Once(outcome)])
      else
        var e := outcome.err.value;
        var report := Probe.Ping(doer.maxPing, true, Some(script[0].pings));
        if Stops(retries, true, report) then
          StoppedStep(doer.maxRetry, doer.maxPing, true, |script| - 1, retries, last, e, report);
          LoopResult(Returned(Some(e)), [Once(outcome), Probed(doer.maxPing, report)])
        else
          var rest := Loop(ctx, doer, asWritten, script[1..], retries + 1, Some(e));
          ChainStep(doer.maxRetry, doer.maxPing, true, |script| - 1, retries, last, e, report, rest);
          LoopResult(rest.end, [Once(outcome), Probed(doer.maxPing, report)] + rest.trace)
  }

  /** What `Execute` hands back: the doer after the setters, and how the loop ended. */
  datatype Executed = Executed(doer: Mongo.Doer, result: LoopResult)

  /**
    `Execute`: the default setters for `typeTitle` (what the reflection-based `title` helper
    yields), then the caller's, are applied once, then the loop starts at retry 0.
  */
  function Execute(ctx: Exec.Context, doer: Mongo.Doer, asWritten: bool, typeTitle: string,
                   setters: seq<Fields.Setter<Mongo.MgoOptions>>, script: seq<Pass>): (r: Executed)
    ensures r.doer == Fields.MultiSet(Fields.MultiSet(doer, Mongo.DefaultSetters(typeTitle)), setters)
    ensures FailuresProbed(r.result.trace, r.doer.maxPing)
    ensures SuccessIsFinal(r.result.trace)
    ensures r.doer.maxRetry > 0 ==> Onces(r.result.trace) <= r.doer.maxRetry + 1
    ensures r.result.end.Returned? ==> r.result.end.err == LatestError(None, r.result.trace)
    // a failed pass returns after its probe exactly on a connected verdict, retry 0 included
    ensures StopRule(r.doer.maxRetry, 0, true, r.result.trace, r.result.end)
    ensures r.result.end == Pending ==> Onces(r.result.trace) == |script|
  {
    Fields.MultiSetAppend(doer, Mongo.DefaultSetters(typeTitle), setters);
    var d := Fields.MultiSet(doer, Mongo.DefaultSetters(typeTitle) + setters);
    Executed(d, Loop(ctx, d, asWritten, script, 0, None))
  }

  /**
    The caller's setters override the defaults: the last caller setter for a field wins, and
    a field no caller setter writes keeps its preset value.
  */
  lemma CallerSettersOverride(ctx: Exec.Context, doer: Mongo.Doer, asWritten: bool, typeTitle: string,
                              setters: seq<Fields.Setter<Mongo.MgoOptions>>, script: seq<Pass>)
    ensures var d := Execute(ctx, doer, asWritten, typeTitle, setters, script).doer;
      && (forall i :: 0 <= i < |setters| && Fields.LastFor(setters, i) ==> Fields.Holds(d, setters[i]))
      && (Fields.Untouched(setters, Fields.TimeoutField) ==> d.timeout == 5 * Fields.Second)
      && (Fields.Untouched(setters, Fields.MaxPingField) ==> d.maxPing == 4)
      && (Fields.Untouched(setters, Fields.MaxRetryField) ==> d.maxRetry == 2)
      && (Fields.Untouched(setters, Fields.OptionsField) ==> d.options == Some(Mongo.MgoOptions([], [])))
      && (Fields.Untouched(setters, Fields.TitleField) ==> d.title == "Txn`" + typeTitle)
  {
    Mongo.DefaultSettersApplied(doer, typeTitle);
  }

  /** Unless the caller changes `MaxRetry`, at most three attempts are made. */
  lemma DefaultsAllowThreeAttempts(ctx: Exec.Context, doer: Mongo.Doer, asWritten: bool, typeTitle: string,
                                   setters: seq<Fields.Setter<Mongo.MgoOptions>>, script: seq<Pass>)
    requires Fields.Untouched(setters, Fields.MaxRetryField)
    ensures Onces(Execute(ctx, doer, asWritten, typeTitle, setters, script).result.trace) <= 3
  {
    CallerSettersOverride(ctx, doer, asWritten, typeTitle, setters, script);
  }

  /** The pass fails: `ExecuteOnce` returns an error. */
  ghost predicate Fails(ctx: Exec.Context, doer: Mongo.Doer, asWritten: bool, p: Pass)
  {
    var o := OutcomeOf(ctx, doer, asWritten, p);
    o.Done? && o.err.Some?
  }

  /** The pass's probe finds the client healthy: its first ping succeeds. */
  ghost predicate Healthy(p: Pass)
  {
    p.pings(1).Ok?
  }

  /**
    Unlike pgx, a connected verdict stops the loop at retry 0: a failure against a healthy
    client ends after exactly one attempt, returning its error.
  */
  lemma HealthyClientStopsAtOnce(ctx: Exec.Context, doer: Mongo.Doer, asWritten: bool, script: seq<Pass>)
    requires |script| >= 1 && Fails(ctx, doer, asWritten, script[0]) && Healthy(script[0])
    ensures Onces(Loop(ctx, doer, asWritten, script, 0, None).trace) == 1
    ensures Loop(ctx, doer, asWritten, script, 0, None).end == Returned(OutcomeOf(ctx, doer, asWritten, script[0]).err)
  {
    ConnectedIffFirstPingOk(doer.maxPing, true, Some(script[0].pings));
    var e := OutcomeOf(ctx, doer, asWritten, script[0]).err.value;
    ProbedPass(e, doer.maxPing, Probe.Ping(doer.maxPing, true, Some(script[0].pings)), None);
  }

  /** Every pass fails, and every probe finds the client unhealthy. */
  ghost predicate AllFailUnhealthy(ctx: Exec.Context, doer: Mongo.Doer, asWritten: bool, script: seq<Pass>)
  {
    forall i :: 0 <= i < |script| ==> Fails(ctx, doer, asWritten, script[i]) && !Healthy(script[i])
  }

  /**
    With `MaxRetry() = N > 0` and a client never found connected, a work unit that keeps
    failing runs exactly N+1 times from retry 0, and the last error is returned.
  */
  lemma {:induction false} NeverConnectedHitsCeiling(ctx: Exec.Context, doer: Mongo.Doer, asWritten: bool, script: seq<Pass>, retries: nat, last: Option<Error>)
    requires doer.maxRetry > 0 && retries <= doer.maxRetry + 1 && (retries > 0 ==> last.Some?)
    requires |script| >= doer.maxRetry + 1 - retries
    requires AllFailUnhealthy(ctx, doer, asWritten, script)
    ensures HitsCeiling(doer.maxRetry, retries, last, Loop(ctx, doer, asWritten, script, retries, last))
    decreases |script|, 1
  {
    if retries <= doer.maxRetry {
      CeilingStep(ctx, doer, asWritten, script, retries, last);
    } else {
      CeilingReached(ctx, doer, asWritten, script, retries, last);
    }
  }

  /** One failing pass below the ceiling, then the rest of the induction. */
  lemma {:induction false} CeilingStep(ctx: Exec.Context, doer: Mongo.Doer, asWritten: bool, script: seq<Pass>, retries: nat, last: Option<Error>)
    requires doer.maxRetry > 0 && retries <= doer.maxRetry && (retries > 0 ==> last.Some?)
    requires |script| >= doer.maxRetry + 1 - retries
    requires AllFailUnhealthy(ctx, doer, asWritten, script)
    ensures HitsCeiling(doer.maxRetry, retries, last, Loop(ctx, doer, asWritten, script, retries, last))
    decreases |script|, 0
  {
    var e := FailedHead(ctx, doer, asWritten, script);
    NeverConnectedHitsCeiling(ctx, doer, asWritten, script[1..], retries + 1, e);
    FailedUnhealthyStep(ctx, doer, asWritten, script, retries, last);
  }

  /** At the ceiling the loop makes no attempt and returns the error it holds. */
  lemma CeilingReached(ctx: Exec.Context, doer: Mongo.Doer, asWritten: bool, script: seq<Pass>, retries: nat, last: Option<Error>)
    requires doer.maxRetry > 0 && retries == doer.maxRetry + 1 && last.Some?
    ensures HitsCeiling(doer.maxRetry, retries, last, Loop(ctx, doer, asWritten, script, retries, last))
  {
    assert Loop(ctx, doer, asWritten, script, retries, last) == LoopResult(Returned(last), []);
  }

  /** The first pass of an all-failing script fails with an error, and the rest of the script fails too. */
  lemma FailedHead(ctx: Exec.Context, doer: Mongo.Doer, asWritten: bool, script: seq<Pass>) returns (e: Option<Error>)
    requires |script| >= 1 && AllFailUnhealthy(ctx, doer, asWritten, script)
    ensures e == OutcomeOf(ctx, doer, asWritten, script[0]).err && e.Some?
    ensures AllFailUnhealthy(ctx, doer, asWritten, script[1..])
  {
    e := OutcomeOf(ctx, doer, asWritten, script[0]).err;
    assert Fails(ctx, doer, asWritten, script[0]);
    assert forall i :: 0 <= i < |script[1..]| ==> script[1..][i] == script[i + 1];
  }

  /**
    One pass that fails against a client not found connected: the loop continues with the rest
    of the script, one attempt more, holding that pass's error.
  */
  lemma FailedUnhealthyStep(ctx: Exec.Context, doer: Mongo.Doer, asWritten: bool, script: seq<Pass>, retries: nat, last: Option<Error>)
    requires !Ceiling(retries, doer.maxRetry) && (retries > 0 ==> last.Some?)
    requires |script| >= 1 && Fails(ctx, doer, asWritten, script[0]) && !Healthy(script[0])
    ensures var e := OutcomeOf(ctx, doer, asWritten, script[0]).err;
      HitsCeiling(doer.maxRetry, retries + 1, e, Loop(ctx, doer, asWritten, script[1..], retries + 1, e)) ==>
      HitsCeiling(doer.maxRetry, retries, last, Loop(ctx, doer, asWritten, script, retries, last))
  {
    var o := OutcomeOf(ctx, doer, asWritten, script[0]);
    var e := o.err;
    var report := Probe.Ping(doer.maxPing, true, Some(script[0].pings));
    ConnectedIffFirstPingOk(doer.maxPing, true, Some(script[0].pings));
    var rest := Loop(ctx, doer, asWritten, script[1..], retries + 1, e);
    ChainPass(e.value, doer.maxPing, report, last, rest.trace);
    assert Loop(ctx, doer, asWritten, script, retries, last) == LoopResult(rest.end, [Once(o), Probed(doer.maxPing, report)] + rest.trace);
  }

  /**
    As written, once a deadline is derived (a timeout above 1ms) every attempt on a live
    context fails: either the session does not start, or `BeginTxn` cannot find it.
  */
  lemma AsWrittenAttemptFails(ctx: Exec.Context, doer: Mongo.Doer, p: Pass)
    requires !Exec.IsDone(ctx) && doer.timeout > Fields.Millisecond
    ensures Fails(ctx, doer, true, p)
  {
    if p.attempt.session.Success? {
      Mongo.SessionHiddenByDeadline(ctx, doer, p.attempt);
    }
  }

  /**
    Hence the as-written loop never commits with such a timeout: it returns an error, or
    runs out of script; no nil return and no escaped panic.
  */
  lemma {:induction false} AsWrittenNeverCommits(ctx: Exec.Context, doer: Mongo.Doer, script: seq<Pass>, retries: nat, last: Option<Error>)
    requires !Exec.IsDone(ctx) && doer.timeout > Fields.Millisecond && (retries > 0 ==> last.Some?)
    ensures var r := Loop(ctx, doer, true, script, retries, last);
      r.end == Pending || (r.end.Returned? && r.end.err.Some?)
    decreases |script|
  {
    if !Ceiling(retries, doer.maxRetry) && script != [] {
      AsWrittenAttemptFails(ctx, doer, script[0]);
      var e := OutcomeOf(ctx, doer, true, script[0]).err;
      AsWrittenNeverCommits(ctx, doer, script[1..], retries + 1, e);
    }
  }

  /** With the preset 5s timeout left in place, the as-written `Execute` never commits. */
  lemma DefaultsNeverCommitAsWritten(ctx: Exec.Context, doer: Mongo.Doer, typeTitle: string,
                                     setters: seq<Fields.Setter<Mongo.MgoOptions>>, script: seq<Pass>)
    requires !Exec.IsDone(ctx) && Fields.Untouched(setters, Fields.TimeoutField)
    ensures var r := Execute(ctx, doer, true, typeTitle, setters, script).result;
      r.end == Pending || (r.end.Returned? && r.end.err.Some?)
  {
    CallerSettersOverride(ctx, doer, true, typeTitle, setters, script);
    AsWrittenNeverCommits(ctx, Execute(ctx, doer, true, typeTitle, setters, script).doer, script, 0, None);
  }
}
