/**
  The ping/backoff prober `Ping` (txn_ping.go). The ping function is either absent (nil) or a
  total script `k -> Answer` giving the answer of the k-th ping. The optional `count`
  callback is a flag; its calls are recorded in the report, as are the base delays slept.
  Jitter, the per-ping 2-second context and real sleeping are not modelled.
*/
module Probe {
  import opened Wrappers
  import opened Errors
  import Fields

  /** Limit used when the caller passes a limit of zero or less. */
  const DefaultLimit: nat := 3
  /** Cap of the base delay between pings. */
  const SleepMax: int := 64 * Fields.Second

  /** The limit `Ping` actually works with. */
  function NormalizedLimit(limit: int): (n: nat)
    ensures n >= 1
    ensures limit > 0 ==> n == limit
    ensures limit <= 0 ==> n == DefaultLimit
  {
    if limit <= 0 then DefaultLimit else limit
  }

  /** Base delay reported after attempt `cnt`: `cnt²` seconds, capped at 64 seconds. */
  function Delay(cnt: nat): (d: int)
    ensures 0 <= d <= SleepMax
    ensures cnt * cnt <= 64 ==> d == cnt * cnt * Fields.Second
    ensures cnt * cnt >= 64 ==> d == SleepMax
  {
    var sleep := cnt * cnt * Fields.Second;
    if sleep > SleepMax then SleepMax else sleep
  }

  /** The answer of attempt `k`: a nil ping function fails every attempt with a nil-argument error. */
  function AttemptAnswer(ping: Option<nat -> Answer>, k: nat): (a: Answer)
    ensures ping.None? ==> a.Fail? && IsNilArgument(a.error)
  {
    if ping.None? then Fail(NilArgument("[txn.Ping ping]")) else ping.value(k)
  }

  /**
    What `Ping` returns (`cnt`, `err`) and what it did: `calls` attempts were started, `count`
    was called with the pairs in `counted`, and the base delays in `sleeps` were slept.
  */
  datatype Report = Report(cnt: nat, err: Option<Error>, calls: nat, counted: seq<(nat, int)>, sleeps: seq<int>)

  /**
    What the loop of `Ping` promises when started after `cnt` completed attempts: attempts
    cnt+1 .. r.calls were started and every one before the last failed; the loop stopped on a
    success, a panic, or after attempt limit+1; the error is nil exactly on a success, wraps
    the last failure in the limit error, or is the recovered panic (which leaves `cnt` one
    short); `count` saw every completed attempt up to the limit with its delay; and one base
    delay was slept between consecutive attempts, none after the last.
  */
  ghost predicate Characterised(limit: nat, cnt: nat, hasCount: bool, ping: Option<nat -> Answer>, r: Report)
  {
    && cnt < r.calls <= limit + 1
    && (forall j :: cnt < j < r.calls ==> AttemptAnswer(ping, j).Fail?)
    && (r.calls == limit + 1 || !AttemptAnswer(ping, r.calls).Fail?)
    && (r.err.None? <==> AttemptAnswer(ping, r.calls).Ok?)
    && (AttemptAnswer(ping, r.calls).Fail? ==> r.err == Some(RetryLimit(limit, AttemptAnswer(ping, r.calls).error)))
    && (AttemptAnswer(ping, r.calls).Panic? ==>
         r.cnt == r.calls - 1 && r.err == Some(Recovered(AttemptAnswer(ping, r.calls).value)))
    && (!AttemptAnswer(ping, r.calls).Panic? ==> r.cnt == r.calls)
    && (hasCount ==> |r.counted| == (if r.cnt > limit then limit else r.cnt) - cnt)
    && (!hasCount ==> r.counted == [])
    && (forall i :: 0 <= i < |r.counted| ==> r.counted[i] == (cnt + i + 1, Delay(cnt + i + 1)))
    && |r.sleeps| == r.calls - cnt - 1
    && (forall i :: 0 <= i < |r.sleeps| ==> r.sleeps[i] == Delay(cnt + i + 1))
  }

  /** The loop of `Ping` after `cnt` completed attempts. */
  function Attempts(limit: nat, cnt: nat, hasCount: bool, ping: Option<nat -> Answer>): (r: Report)
    requires 1 <= limit && cnt <= limit
    ensures Characterised(limit, cnt, hasCount, ping, r)
    decreases limit - cnt
  {
    var n := cnt + 1;
    if n <= limit && AttemptAnswer(ping, n).Fail? then
      var rest := Attempts(limit, n, hasCount, ping);
      PrependAttempt(limit, cnt, hasCount, ping, rest);
      var counted := if hasCount then [(n, Delay(n))] else [];
      Report(rest.cnt, rest.err, rest.calls, counted + rest.counted, [Delay(n)] + rest.sleeps)
    else
      LastAttempt(limit, cnt, hasCount, ping)
  }

  /**
    Attempt `cnt+1` ends the loop: it panics (recovered, not counted), succeeds, or fails after
    the limit; within the limit a completed attempt is counted with its delay.
  */
  function LastAttempt(limit: nat, cnt: nat, hasCount: bool, ping: Option<nat -> Answer>): (r: Report)
    requires 1 <= limit && cnt <= limit
    requires cnt + 1 > limit || !AttemptAnswer(ping, cnt + 1).Fail?
    ensures Characterised(limit, cnt, hasCount, ping, r)
  {
    var n := cnt + 1;
    var a := AttemptAnswer(ping, n);
    if a.Panic? then Report(cnt, Some(Recovered(a.value)), n, [], [])
    else if n > limit then Report(n, if a.Fail? then Some(RetryLimit(limit, a.error)) else None, n, [], [])
    else Report(n, None, n, if hasCount then [(n, Delay(n))] else [], [])
  }

  /** A failed attempt `cnt+1` within the limit, followed by a run characterised from `cnt+1`, is characterised from `cnt`. */
  lemma PrependAttempt(limit: nat, cnt: nat, hasCount: bool, ping: Option<nat -> Answer>, rest: Report)
    requires cnt + 1 <= limit && AttemptAnswer(ping, cnt + 1).Fail?
    requires Characterised(limit, cnt + 1, hasCount, ping, rest)
    ensures var counted := if hasCount then [(cnt + 1, Delay(cnt + 1))] else [];
      Characterised(limit, cnt, hasCount, ping,
                    Report(rest.cnt, rest.err, rest.calls, counted + rest.counted, [Delay(cnt + 1)] + rest.sleeps))
  {
    var counted: seq<(nat, int)> := if hasCount then [(cnt + 1, Delay(cnt + 1))] else [];
    var all := counted + rest.counted;
    forall i | 0 <= i < |all|
      ensures all[i] == (cnt + i + 1, Delay(cnt + i + 1))
    {
      if i < |counted| {
        assert all[i] == counted[i];
      } else {
        assert all[i] == rest.counted[i - |counted|];
      }
    }
    var sleeps := [Delay(cnt + 1)] + rest.sleeps;
    forall i | 0 <= i < |sleeps|
      ensures sleeps[i] == Delay(cnt + i + 1)
    {
      if i > 0 {
        assert sleeps[i] == rest.sleeps[i - 1];
      }
    }
  }

  /** `txn.Ping`: normalise the limit, then ping until a success or the limit is passed. */
  function Ping(limit: int, hasCount: bool, ping: Option<nat -> Answer>): (r: Report)
    ensures 1 <= r.calls <= NormalizedLimit(limit) + 1
    ensures r.cnt <= NormalizedLimit(limit) + 1
  {
    Attempts(NormalizedLimit(limit), 0, hasCount, ping)
  }

  /** The first success at attempt `k` within `limit+1` attempts returns `(k, nil)` and stops pinging. */
  lemma PingFirstSuccess(limit: int, hasCount: bool, ping: Option<nat -> Answer>, k: nat)
    requires 1 <= k <= NormalizedLimit(limit) + 1
    requires forall j :: 1 <= j < k ==> AttemptAnswer(ping, j).Fail?
    requires AttemptAnswer(ping, k).Ok?
    ensures Ping(limit, hasCount, ping).cnt == k
    ensures Ping(limit, hasCount, ping).err.None?
    ensures Ping(limit, hasCount, ping).calls == k
    // one sleep after each failed attempt, none after the success
    ensures |Ping(limit, hasCount, ping).sleeps| == k - 1
  {
  }

  /**
    A success on exactly attempt `limit+1` returns `(limit+1, nil)`: the limit message only
    wraps an error. `count` saw attempts 1..limit but not the last one.
  */
  lemma PingSuccessOnLastAttempt(limit: int, hasCount: bool, ping: Option<nat -> Answer>)
    requires forall j :: 1 <= j <= NormalizedLimit(limit) ==> AttemptAnswer(ping, j).Fail?
    requires AttemptAnswer(ping, NormalizedLimit(limit) + 1).Ok?
    ensures var n := NormalizedLimit(limit);
      var r := Ping(limit, hasCount, ping);
      && r.cnt == n + 1 && r.err.None?
      && (hasCount ==> |r.counted| == n && r.counted[n - 1] == (n, Delay(n)))
  {
    PingFirstSuccess(limit, hasCount, ping, NormalizedLimit(limit) + 1);
  }

  /** `count` is called for the successful attempt too, with its delay, when that attempt is within the limit. */
  lemma PingCountsSuccess(limit: int, ping: Option<nat -> Answer>, k: nat)
    requires 1 <= k <= NormalizedLimit(limit)
    requires forall j :: 1 <= j < k ==> AttemptAnswer(ping, j).Fail?
    requires AttemptAnswer(ping, k).Ok?
    ensures |Ping(limit, true, ping).counted| == k
    ensures Ping(limit, true, ping).counted[k - 1] == (k, Delay(k))
  {
    PingFirstSuccess(limit, true, ping, k);
  }

  /** A ping function that always succeeds. */
  function AlwaysOk(k: nat): Answer
  {
    Ok
  }

  /** A ping function that succeeds on its second call only. */
  function OkOnSecond(k: nat): Answer
  {
    if k == 2 then Ok else Fail(Backend("failed"))
  }

  /** A ping function that always fails. */
  function AlwaysFails(k: nat): Answer
  {
    Fail(Backend("failed"))
  }

  /** The first scenario of txn_test.go: an immediate success returns count 1 and nil. */
  lemma PingTestImmediateSuccess()
    ensures Ping(5, false, Some(AlwaysOk)).cnt == 1 && Ping(5, false, Some(AlwaysOk)).err.None?
  {
    assert AttemptAnswer(Some(AlwaysOk), 1) == Ok;
    PingFirstSuccess(5, false, Some(AlwaysOk), 1);
  }

  /** The second scenario of txn_test.go: a success on the second try returns count 2 and nil. */
  lemma PingTestSecondTry()
    ensures Ping(2, false, Some(OkOnSecond)).cnt == 2 && Ping(2, false, Some(OkOnSecond)).err.None?
  {
    assert AttemptAnswer(Some(OkOnSecond), 1).Fail? && AttemptAnswer(Some(OkOnSecond), 2) == Ok;
    PingFirstSuccess(2, false, Some(OkOnSecond), 2);
  }

  /** The third scenario of txn_test.go: always failing with limit 2 returns count 3 and the limit error. */
  lemma PingTestLimitReached()
    ensures Ping(2, false, Some(AlwaysFails)).cnt == 3
    ensures Ping(2, false, Some(AlwaysFails)).err == Some(RetryLimit(2, Backend("failed")))
  {
    assert forall j :: 1 <= j <= 3 ==> AttemptAnswer(Some(AlwaysFails), j) == Fail(Backend("failed"));
    PingAllFail(2, false, Some(AlwaysFails));
  }

  /** When every attempt fails, exactly `limit+1` attempts run and the limit error wraps the last one. */
  lemma PingAllFail(limit: int, hasCount: bool, ping: Option<nat -> Answer>)
    requires forall j :: 1 <= j <= NormalizedLimit(limit) + 1 ==> AttemptAnswer(ping, j).Fail?
    ensures var n := NormalizedLimit(limit);
      var r := Ping(limit, hasCount, ping);
      && r.cnt == n + 1 && r.calls == n + 1
      && r.err == Some(RetryLimit(n, AttemptAnswer(ping, n + 1).error))
      && |r.sleeps| == n
      && (hasCount ==> |r.counted| == n)
  {
  }

  /** A nil ping function fails every attempt: `Ping(2, nil, nil)` returns count 3 and a limit error. */
  lemma PingNilFunction(hasCount: bool)
    ensures Ping(2, hasCount, None).cnt == 3
    ensures Ping(2, hasCount, None).err.Some? && Ping(2, hasCount, None).err.value.RetryLimit?
  {
    PingAllFail(2, hasCount, None);
  }

  /** A limit of zero or less behaves as a limit of 3. */
  lemma NonPositiveLimitIsThree(limit: int, hasCount: bool, ping: Option<nat -> Answer>)
    requires limit <= 0
    ensures Ping(limit, hasCount, ping) == Ping(3, hasCount, ping)
  {
  }
}
