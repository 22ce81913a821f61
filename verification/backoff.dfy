/**
 * The linear reconnect backoff of `scheduleReconnect` (index.js:14-15,
 * index.js:238-249): the decision of one call, and what a run of
 * consecutive calls with no successful open in between schedules.
 */
module Backoff {
  const MaxReconnectAttempts: nat := 10
  const ReconnectDelayMs: nat := 3000

  /** The attempt counter after some calls and the delays they scheduled, in order. */
  datatype Step = Step(attempts: nat, delays: seq<nat>)

  /**
   * One call: give up at the maximum, else count one more attempt and wait
   * that many delays. A delay is scheduled exactly when an attempt is
   * counted, and it is 3000 times the new count.
   */
  function Reschedule(attempts: nat): (s: Step)
    ensures s.delays != [] <==> attempts < MaxReconnectAttempts
    ensures |s.delays| <= 1 && s.attempts == attempts + |s.delays|
    ensures s.delays != [] ==> s.delays[0] == ReconnectDelayMs * s.attempts
  {
    if attempts >= MaxReconnectAttempts then Step(attempts, [])
    else Step(attempts + 1, [ReconnectDelayMs * (attempts + 1)])
  }

  /**
   * `k` consecutive calls starting from counter `attempts`: the counter
   * grows by exactly the number of delays scheduled, at most one per call.
   */
  function Run(attempts: nat, k: nat): (r: Step)
    ensures r.attempts == attempts + |r.delays|
    ensures |r.delays| <= k
    decreases k
  {
    if k == 0 then Step(attempts, [])
    else
      var first := Reschedule(attempts);
      var rest := Run(first.attempts, k - 1);
      Step(rest.attempts, first.delays + rest.delays)
  }

  /** The delays 3000, 6000, ..., 3000 * n. */
  function LinearDelays(n: nat): (d: seq<nat>)
    ensures |d| == n
    ensures forall i :: 0 <= i < n ==> d[i] == ReconnectDelayMs * (i + 1)
  {
    if n == 0 then [] else LinearDelays(n - 1) + [ReconnectDelayMs * n]
  }

  /** Every delay the backoff can produce. */
  predicate IsBackoffDelay(d: nat) {
    d % ReconnectDelayMs == 0 && ReconnectDelayMs <= d <= ReconnectDelayMs * MaxReconnectAttempts
  }

  /** Below the maximum each call counts one attempt and schedules delay 3000 times the new count. */
  lemma {:induction false} RunBelowMax(attempts: nat, k: nat)
    requires attempts + k <= MaxReconnectAttempts
    ensures Run(attempts, k).attempts == attempts + k
    ensures |Run(attempts, k).delays| == k
    ensures forall i :: 0 <= i < k ==> Run(attempts, k).delays[i] == ReconnectDelayMs * (attempts + i + 1)
    decreases k
  {
    if k > 0 {
      RunBelowMax(attempts + 1, k - 1);
      var rest := Run(attempts + 1, k - 1);
      assert Run(attempts, k).delays == [ReconnectDelayMs * (attempts + 1)] + rest.delays;
      forall i | 1 <= i < k
        ensures Run(attempts, k).delays[i] == ReconnectDelayMs * (attempts + i + 1)
      {
        assert Run(attempts, k).delays[i] == rest.delays[i - 1];
      }
    }
  }

  /** Once the counter has reached the maximum, further calls schedule nothing and change nothing. */
  lemma {:induction false} ExhaustedIsFinal(attempts: nat, k: nat)
    requires attempts >= MaxReconnectAttempts
    ensures Run(attempts, k) == Step(attempts, [])
  {
    if k > 0 {
      ExhaustedIsFinal(attempts, k - 1);
    }
  }

  /** Consecutive runs compose: `j` calls followed by `k` calls are `j + k` calls. */
  lemma {:induction false} RunSplit(attempts: nat, j: nat, k: nat)
    ensures Run(attempts, j + k).attempts == Run(Run(attempts, j).attempts, k).attempts
    ensures Run(attempts, j + k).delays == Run(attempts, j).delays + Run(Run(attempts, j).attempts, k).delays
    decreases j
  {
    if j > 0 {
      var first := Reschedule(attempts);
      RunSplit(first.attempts, j - 1, k);
      assert j + k - 1 == (j - 1) + k;
    }
  }

  /** From a fresh counter, `k <= 10` failures schedule 3000, 6000, ..., 3000 * k in that order. */
  lemma FailuresFromZero(k: nat)
    requires k <= MaxReconnectAttempts
    ensures Run(0, k) == Step(k, LinearDelays(k))
  {
    RunBelowMax(0, k);
    assert Run(0, k).delays == LinearDelays(k);
  }

  /**
   * After the tenth failure nothing more is scheduled: the counter stays at
   * 10 and exactly ten delays were ever scheduled.
   */
  lemma FailuresBeyondMax(k: nat)
    requires k >= MaxReconnectAttempts
    ensures Run(0, k) == Step(MaxReconnectAttempts, LinearDelays(MaxReconnectAttempts))
  {
    var extra := k - MaxReconnectAttempts;
    FailuresFromZero(MaxReconnectAttempts);
    ExhaustedIsFinal(MaxReconnectAttempts, extra);
    RunSplit(0, MaxReconnectAttempts, extra);
    assert MaxReconnectAttempts + extra == k;
  }

  /** The counter stays within the bound, and every scheduled delay is a backoff delay. */
  lemma {:induction false} RunKeepsBounds(attempts: nat, k: nat)
    requires attempts <= MaxReconnectAttempts
    ensures Run(attempts, k).attempts <= MaxReconnectAttempts
    ensures forall i :: 0 <= i < |Run(attempts, k).delays| ==> IsBackoffDelay(Run(attempts, k).delays[i])
    decreases k
  {
    if k > 0 {
      var first := Reschedule(attempts);
      RunKeepsBounds(first.attempts, k - 1);
    }
  }
}
