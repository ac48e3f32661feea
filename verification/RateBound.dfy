/** How often a failing provider can be called on the network, when its calls do not overlap. */
module RateBound {
  import opened Common
  import opened CircuitBreakers
  import opened Retries
  import opened Providers

  datatype CallTimes = CallTimes(beginAt: int, endAt: int)

  /** Calls in order, each ending before the next begins. */
  predicate NonOverlapping(calls: seq<CallTimes>) {
    && (forall i :: 0 <= i < |calls| ==> calls[i].beginAt <= calls[i].endAt)
    && (forall i, j :: 0 <= i < j < |calls| ==> calls[i].endAt <= calls[j].beginAt)
  }

  function CallsDone(o: BreakerOptions, calls: seq<CallTimes>): Provider {
    if calls == [] then NEW_PROVIDER
    else
      var n := |calls| - 1;
      Called(o, CallsDone(o, calls[..n]), None, calls[n].beginAt, calls[n].endAt)
  }

  /**
   * Network attempts by the calls that begin in [from, to], on a provider that starts new and whose
   * wrapped function fails on every attempt.
   */
  function AttemptsWithin(o: BreakerOptions, maxAttempts: int, calls: seq<CallTimes>, from: int, to: int): nat {
    if calls == [] then 0
    else
      var n := |calls| - 1;
      AttemptsWithin(o, maxAttempts, calls[..n], from, to) +
      if from <= calls[n].beginAt <= to && Admits(o, CallsDone(o, calls[..n]).breaker, calls[n].beginAt)
      then CallsMade(AlwaysFails(), maxAttempts, 0) else 0
  }

  function AlwaysFails(): int -> Outcome<CallResult, string> {
    _ => Threw(None)
  }

  lemma FailingCallUsesEveryAttempt(maxAttempts: int)
    ensures CallsMade(AlwaysFails(), maxAttempts, 0) == Max(0, maxAttempts)
  {
  }

  /** The calls of [from, to] that the breaker lets through. */
  function Admitted(o: BreakerOptions, calls: seq<CallTimes>, from: int, to: int): nat {
    if calls == [] then 0
    else
      var n := |calls| - 1;
      Admitted(o, calls[..n], from, to) +
      if from <= calls[n].beginAt <= to && Admits(o, CallsDone(o, calls[..n]).breaker, calls[n].beginAt)
      then 1 else 0
  }

  lemma {:induction false} AttemptsPerAdmittedCall(o: BreakerOptions, maxAttempts: int, calls: seq<CallTimes>,
                                                   from: int, to: int)
    ensures AttemptsWithin(o, maxAttempts, calls, from, to) == Max(0, maxAttempts) * Admitted(o, calls, from, to)
  {
    if calls != [] {
      AttemptsPerAdmittedCall(o, maxAttempts, calls[..|calls| - 1], from, to);
      FailingCallUsesEveryAttempt(maxAttempts);
    }
  }

  /** What `admitted` calls of the window so far can have done to a breaker whose last call ended at `end`. */
  predicate WithinBudget(o: BreakerOptions, b: Breaker, admitted: nat, end: int, from: int, to: int)
    requires o.resetTimeoutMs > 0
  {
    var threshold := Max(1, o.failureThreshold);
    && (admitted > 0 ==> from <= end)
    && b.state != HALF_OPEN
    && (b.state == CLOSED ==> b.openedAt.None? && admitted <= b.consecutiveFailures < threshold)
    && (b.state == OPEN ==>
          && b.openedAt.Some?
          && b.consecutiveFailures >= threshold
          && b.openedAt.value <= end
          && (admitted > 0 ==> from <= b.openedAt.value)
          && admitted <= threshold + Max(0, Min(b.openedAt.value, to) - from) / o.resetTimeoutMs)
  }

  lemma BudgetStep(o: BreakerOptions, b: Breaker, admitted: nat, end: int, c: CallTimes, from: int, to: int)
    requires o.resetTimeoutMs > 0 && c.beginAt <= c.endAt && end <= c.beginAt
    requires WithinBudget(o, b, admitted, end, from, to)
    ensures var through := Admits(o, b, c.beginAt);
            WithinBudget(o, if through then Settled(o, b, false, c.endAt) else b,
                         admitted + if through && from <= c.beginAt <= to then 1 else 0, c.endAt, from, to)
  {
    if b.state == OPEN {
      if Admits(o, b, c.beginAt) && from <= c.beginAt <= to {
        ProbesAreSpaced(from, b.openedAt.value, c.beginAt, Min(c.endAt, to), o.resetTimeoutMs);
      } else {
        DivideMonotone(Max(0, Min(b.openedAt.value, to) - from), Max(0, Min(c.endAt, to) - from), o.resetTimeoutMs);
      }
    }
    DivideMonotone(0, Max(0, Min(c.endAt, to) - from), o.resetTimeoutMs);
  }

  lemma {:induction false} AdmittedSoFar(o: BreakerOptions, calls: seq<CallTimes>, from: int, to: int)
    requires NonOverlapping(calls) && o.resetTimeoutMs > 0
    ensures calls != [] ==> WithinBudget(o, CallsDone(o, calls).breaker, Admitted(o, calls, from, to),
                                         calls[|calls| - 1].endAt, from, to)
  {
    if calls != [] {
      var n := |calls| - 1;
      AdmittedSoFar(o, calls[..n], from, to);
      if n > 0 {
        assert calls[n - 1].endAt <= calls[n].beginAt;
        BudgetStep(o, CallsDone(o, calls[..n]).breaker, Admitted(o, calls[..n], from, to), calls[n - 1].endAt,
                   calls[n], from, to);
      } else {
        BudgetStep(o, FRESH, 0, calls[0].beginAt, calls[0], from, to);
      }
    }
  }

  /** A probe begins a full cooldown after the breaker opened, which buys it one more period. */
  lemma ProbesAreSpaced(from: int, since: int, begin: int, until: int, reset: int)
    requires reset > 0 && since + reset <= begin <= until && from <= until
    ensures from <= since ==> Max(0, since - from) / reset + 1 <= (until - from) / reset
  {
  }

  lemma DivideMonotone(a: int, b: int, d: int)
    requires 0 <= a <= b && d > 0
    ensures 0 <= a / d <= b / d
  {
    QuotientIsGreatest(b, d, a / d);
  }

  /**
   * The rate bound: over any window of `to - from` ms, a provider that keeps failing costs at most
   * maxAttempts * (failureThreshold + floor(window / resetTimeoutMs)) network attempts.
   */
  lemma NetworkAttemptsAreBounded(o: BreakerOptions, maxAttempts: int, calls: seq<CallTimes>, from: int, to: int)
    requires NonOverlapping(calls) && o.resetTimeoutMs > 0 && from <= to
    ensures AttemptsWithin(o, maxAttempts, calls, from, to) <=
            Max(0, maxAttempts) * (Max(1, o.failureThreshold) + (to - from) / o.resetTimeoutMs)
  {
    AdmittedSoFar(o, calls, from, to);
    AttemptsPerAdmittedCall(o, maxAttempts, calls, from, to);
    var admitted, thr := Admitted(o, calls, from, to), Max(1, o.failureThreshold);
    DivideMonotone(0, to - from, o.resetTimeoutMs);
    var b := CallsDone(o, calls).breaker;
    DivideMonotone(if b.state == OPEN then Max(0, Min(b.openedAt.value, to) - from) else 0,
                   to - from, o.resetTimeoutMs);
    assert admitted <= thr + (to - from) / o.resetTimeoutMs;
    MultiplyMonotone(Max(0, maxAttempts), admitted, thr + (to - from) / o.resetTimeoutMs);
  }

  /** `failureThreshold` immediate failures, then one probe each time the cooldown ends. */
  function BusiestCalls(o: BreakerOptions, n: nat): seq<CallTimes> {
    seq(n, i requires 0 <= i < n =>
      var at := Max(0, i + 1 - Max(1, o.failureThreshold)) * o.resetTimeoutMs;
      CallTimes(at, at))
  }

  /** The bound is reached: no smaller one holds for any threshold, cooldown and number of periods. */
  lemma RateBoundIsReached(o: BreakerOptions, maxAttempts: int, periods: nat)
    requires o.resetTimeoutMs > 0
    ensures var calls := BusiestCalls(o, Max(1, o.failureThreshold) + periods);
            var window := periods * o.resetTimeoutMs;
            && NonOverlapping(calls)
            && window / o.resetTimeoutMs == periods
            && AttemptsWithin(o, maxAttempts, calls, 0, window) ==
               Max(0, maxAttempts) * (Max(1, o.failureThreshold) + periods)
  {
    var n := Max(1, o.failureThreshold) + periods;
    BusiestCallsDoNotOverlap(o, n);
    BusiestCallsAreAdmitted(o, n, periods * o.resetTimeoutMs);
    AttemptsPerAdmittedCall(o, maxAttempts, BusiestCalls(o, n), 0, periods * o.resetTimeoutMs);
    ExactQuotient(periods, o.resetTimeoutMs);
  }

  lemma ExactQuotient(q: nat, d: int)
    requires d > 0
    ensures q * d / d == q
  {
    QuotientIsGreatest(q * d, d, q);
    QuotientIsGreatest(q * d, d, q + 1);
  }

  lemma BusiestCallsDoNotOverlap(o: BreakerOptions, n: nat)
    requires o.resetTimeoutMs > 0
    ensures NonOverlapping(BusiestCalls(o, n))
  {
    var calls, thr := BusiestCalls(o, n), Max(1, o.failureThreshold);
    forall i, j | 0 <= i < j < n
      ensures calls[i].endAt <= calls[j].beginAt
    {
      MultiplyMonotone(o.resetTimeoutMs, Max(0, i + 1 - thr), Max(0, j + 1 - thr));
    }
  }

  lemma {:induction false} BusiestCallsAreAdmitted(o: BreakerOptions, n: nat, to: int)
    requires o.resetTimeoutMs > 0 && Max(0, n - Max(1, o.failureThreshold)) * o.resetTimeoutMs <= to
    ensures var thr := Max(1, o.failureThreshold);
            && Admitted(o, BusiestCalls(o, n), 0, to) == n
            && CallsDone(o, BusiestCalls(o, n)).breaker ==
               if n < thr then Breaker(CLOSED, n, None)
               else Breaker(OPEN, n, Some((n - thr) * o.resetTimeoutMs))
  {
    if n > 0 {
      var thr, reset := Max(1, o.failureThreshold), o.resetTimeoutMs;
      assert BusiestCalls(o, n)[..n - 1] == BusiestCalls(o, n - 1);
      MultiplyMonotone(reset, Max(0, n - 1 - thr), Max(0, n - thr));
      assert (n - thr) * reset == (n - 1 - thr) * reset + reset;
      BusiestCallsAreAdmitted(o, n - 1, to);
    }
  }
}
