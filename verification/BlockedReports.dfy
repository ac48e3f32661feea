/** How often a provider's move to OPEN is reported: once without overlap, and exactly when once with it. */
module BlockedReports {
  import opened Common
  import opened CircuitBreakers
  import opened Providers

  // ---- Calls that do not overlap: one report per opening ----

  /** One undisturbed call of a provider. */
  datatype TimedCall = TimedCall(beginAt: int, outcome: Option<CallResult>, endAt: int)

  function Drive(o: BreakerOptions, p: Provider, calls: seq<TimedCall>): Provider {
    if calls == [] then p
    else
      var c := calls[|calls| - 1];
      Called(o, Drive(o, p, calls[..|calls| - 1]), c.outcome, c.beginAt, c.endAt)
  }

  /** Calls after which `broadcast` reports: not OPEN when the call began, OPEN when it completed. */
  function Reports(o: BreakerOptions, p: Provider, calls: seq<TimedCall>): nat {
    if calls == [] then 0
    else
      var n, c := |calls| - 1, calls[|calls| - 1];
      Reports(o, p, calls[..n]) +
      if Observed(o, Drive(o, p, calls[..n]).breaker, c.beginAt) != OPEN
         && Observed(o, Drive(o, p, calls).breaker, c.endAt) == OPEN
      then 1 else 0
  }

  /** The completion history: what the calls that were let through did. */
  function Settlements(o: BreakerOptions, h: seq<Completion>, calls: seq<TimedCall>): seq<Completion> {
    if calls == [] then h
    else
      var c := calls[|calls| - 1];
      var before := Settlements(o, h, calls[..|calls| - 1]);
      if Refused(o, before, c.beginAt) then before else before + [Completion(c.outcome.Some?, c.endAt)]
  }

  /**
   * Moves into OPEN: without overlap a call only completes if it found the breaker not OPEN, so every
   * completion after which the breaker is tripped opened (or reopened) it.
   */
  function Openings(o: BreakerOptions, h: seq<Completion>): nat {
    if h == [] then 0
    else Openings(o, h[..|h| - 1]) + if Tripped(o, h) then 1 else 0
  }

  lemma {:induction false} DriveFollowsHistory(o: BreakerOptions, p: Provider, h: seq<Completion>, calls: seq<TimedCall>)
    requires p.breaker == FromHistory(o, h)
    ensures Drive(o, p, calls).breaker == FromHistory(o, Settlements(o, h, calls))
  {
    if calls != [] {
      var n, c := |calls| - 1, calls[|calls| - 1];
      DriveFollowsHistory(o, p, h, calls[..n]);
      SettledExtendsHistory(o, Settlements(o, h, calls[..n]), c.outcome.Some?, c.endAt);
    }
  }

  lemma ReportStep(o: BreakerOptions, h: seq<Completion>, c: TimedCall)
    requires !Refused(o, h, c.beginAt)
    ensures var h' := h + [Completion(c.outcome.Some?, c.endAt)];
            && Openings(o, h') == Openings(o, h) + (if Tripped(o, h') then 1 else 0)
            && (Observed(o, FromHistory(o, h), c.beginAt) != OPEN)
            && (Observed(o, FromHistory(o, h'), c.endAt) == OPEN <==> Tripped(o, h') && o.resetTimeoutMs > 0)
  {
  }

  /** Exactly one report per opening, for every sequence of calls and outcomes; none without a cooldown. */
  lemma {:induction false} OneReportPerOpening(o: BreakerOptions, p: Provider, h: seq<Completion>, calls: seq<TimedCall>)
    requires p.breaker == FromHistory(o, h)
    ensures Openings(o, h) <= Openings(o, Settlements(o, h, calls))
    ensures Reports(o, p, calls) ==
            if o.resetTimeoutMs > 0 then Openings(o, Settlements(o, h, calls)) - Openings(o, h) else 0
  {
    if calls != [] {
      var n, c := |calls| - 1, calls[|calls| - 1];
      OneReportPerOpening(o, p, h, calls[..n]);
      DriveFollowsHistory(o, p, h, calls[..n]);
      DriveFollowsHistory(o, p, h, calls);
      var before := Settlements(o, h, calls[..n]);
      if Refused(o, before, c.beginAt) {
        assert Observed(o, FromHistory(o, before), c.beginAt) == OPEN;
      } else {
        ReportStep(o, before, c);
      }
    }
  }

  // ---- Calls that overlap ----

  /**
   * Reports in an interleaving of calls. Every call that completes was let through, so it found the
   * breaker not OPEN when it began; it is reported iff the breaker is OPEN when it has completed.
   */
  function ReportsAmong(o: BreakerOptions, actions: seq<Action>): nat {
    if actions == [] || Run(o, actions).None? then 0
    else ReportsAmong(o, actions[..|actions| - 1]) + if Reported(o, actions) then 1 else 0
  }

  predicate Reported(o: BreakerOptions, actions: seq<Action>)
    requires actions != [] && Run(o, actions).Some?
  {
    var a := actions[|actions| - 1];
    a.Finish? && Observed(o, Run(o, actions).value.breaker, a.at) == OPEN
  }

  /** The last action moves the breaker into OPEN: at its time it was not OPEN before and is after. */
  predicate Opens(o: BreakerOptions, actions: seq<Action>)
    requires actions != [] && Run(o, actions).Some?
  {
    var n := |actions| - 1;
    && Observed(o, Run(o, actions[..n]).value.breaker, actions[n].at) != OPEN
    && Observed(o, Run(o, actions).value.breaker, actions[n].at) == OPEN
  }

  function MovesToOpen(o: BreakerOptions, actions: seq<Action>): nat {
    if actions == [] || Run(o, actions).None? then 0
    else MovesToOpen(o, actions[..|actions| - 1]) + if Opens(o, actions) then 1 else 0
  }

  /** The `n`-th action is a call that fails at a time at which the breaker refuses every new call. */
  predicate LateFailure(o: BreakerOptions, actions: seq<Action>, n: nat)
    requires n < |actions|
  {
    actions[n].Finish? && !actions[n].ok && Refused(o, Completions(actions[..n]), actions[n].at)
  }

  lemma ObservedOpenIffRefused(o: BreakerOptions, actions: seq<Action>, at: int)
    requires Run(o, actions).Some?
    ensures Observed(o, Run(o, actions).value.breaker, at) == OPEN <==> Refused(o, Completions(actions), at)
  {
    BreakerRefinesHistory(o, actions);
  }

  /** A report is a move into OPEN or a late failure, and never both. */
  lemma ReportIsMoveOrLateFailure(o: BreakerOptions, actions: seq<Action>)
    requires actions != [] && Run(o, actions).Some?
    ensures Reported(o, actions) <==> Opens(o, actions) || LateFailure(o, actions, |actions| - 1)
    ensures !(Opens(o, actions) && LateFailure(o, actions, |actions| - 1))
  {
    var n := |actions| - 1;
    var h, a := Completions(actions[..n]), actions[n];
    BreakerRefinesHistory(o, actions[..n]);
    ObservedOpenIffRefused(o, actions[..n], a.at);
    if a.Finish? {
      SettledExtendsHistory(o, h, a.ok, a.at);
    }
  }

  function LateFailures(o: BreakerOptions, actions: seq<Action>): nat {
    if actions == [] then 0
    else LateFailures(o, actions[..|actions| - 1]) + if LateFailure(o, actions, |actions| - 1) then 1 else 0
  }

  /** In every interleaving the reports are the moves into OPEN and, on top of them, the late failures. */
  lemma {:induction false} ReportsAreMovesAndLateFailures(o: BreakerOptions, actions: seq<Action>)
    requires Run(o, actions).Some?
    ensures ReportsAmong(o, actions) == MovesToOpen(o, actions) + LateFailures(o, actions)
  {
    if actions != [] {
      ReportsAreMovesAndLateFailures(o, actions[..|actions| - 1]);
      ReportIsMoveOrLateFailure(o, actions);
    }
  }

  lemma {:induction false} NoLateFailuresIff(o: BreakerOptions, actions: seq<Action>)
    ensures LateFailures(o, actions) == 0 <==> forall n :: 0 <= n < |actions| ==> !LateFailure(o, actions, n)
  {
    if actions != [] {
      var front := actions[..|actions| - 1];
      NoLateFailuresIff(o, front);
      forall n | 0 <= n < |front|
        ensures LateFailure(o, front, n) == LateFailure(o, actions, n)
      {
        assert front[..n] == actions[..n];
      }
    }
  }

  /**
   * "Exactly one report per move into OPEN" holds of a run iff in it no call fails while the breaker
   * refuses new calls.
   */
  lemma OneReportPerMoveIff(o: BreakerOptions, actions: seq<Action>)
    requires Run(o, actions).Some?
    ensures MovesToOpen(o, actions) <= ReportsAmong(o, actions)
    ensures MovesToOpen(o, actions) == ReportsAmong(o, actions) <==>
            forall n :: 0 <= n < |actions| && actions[n].Finish? && !actions[n].ok ==>
                          !Refused(o, Completions(actions[..n]), actions[n].at)
  {
    ReportsAreMovesAndLateFailures(o, actions);
    NoLateFailuresIff(o, actions);
    if LateFailures(o, actions) == 0 {
      forall n | 0 <= n < |actions| && actions[n].Finish? && !actions[n].ok
        ensures !Refused(o, Completions(actions[..n]), actions[n].at)
      {
        assert !LateFailure(o, actions, n);
      }
    }
  }

  /**
   * A call still under way while the breaker refuses new calls began before the completion that opened
   * the breaker, the `m`-th action, and outlived it: nothing that began since was let through.
   */
  lemma {:induction false} LateCallOverlapsOpening(o: BreakerOptions, actions: seq<Action>, call: nat, at: int)
    returns (m: nat)
    requires Run(o, actions).Some? && call in Run(o, actions).value.inFlight
    requires at >= Run(o, actions).value.clock && Refused(o, Completions(actions), at)
    ensures m < |actions| && Run(o, actions[..m]).Some? && Run(o, actions[..m + 1]).Some?
    ensures actions[m].Finish? && Opens(o, actions[..m + 1])
    ensures call in Run(o, actions[..m]).value.inFlight && call in Run(o, actions[..m + 1]).value.inFlight
  {
    var n := |actions| - 1;
    var front, a := actions[..n], actions[n];
    BreakerRefinesHistory(o, front);
    ObservedOpenIffRefused(o, front, a.at);
    ObservedOpenIffRefused(o, actions, a.at);
    assert actions[..n + 1] == actions;
    if a.Finish? && !Refused(o, Completions(front), a.at) {
      m := n;
    } else {
      m := LateCallOverlapsOpening(o, front, call, a.at);
      assert front[..m] == actions[..m] && front[..m + 1] == actions[..m + 1];
    }
  }

  // ---- Runs in which every call has completed before the next begins ----

  predicate Sequential(o: BreakerOptions, actions: seq<Action>) {
    forall n :: 0 <= n < |actions| && actions[n].Start? && Run(o, actions[..n]).Some? ==>
                  Run(o, actions[..n]).value.inFlight == {}
  }

  lemma SequentialPrefix(o: BreakerOptions, actions: seq<Action>, m: nat)
    requires Sequential(o, actions) && m <= |actions|
    ensures Sequential(o, actions[..m])
  {
    forall n | 0 <= n < m
      ensures actions[..m][..n] == actions[..n]
    {
    }
  }

  lemma {:induction false} SequentialHasOneInFlight(o: BreakerOptions, actions: seq<Action>, c: nat, d: nat)
    requires Run(o, actions).Some? && Sequential(o, actions)
    requires c in Run(o, actions).value.inFlight && d in Run(o, actions).value.inFlight
    ensures c == d
  {
    if actions != [] {
      var n := |actions| - 1;
      SequentialPrefix(o, actions, n);
      if actions[n].Finish? {
        SequentialHasOneInFlight(o, actions[..n], c, d);
      } else {
        assert Run(o, actions[..n]).value.inFlight == {};
      }
    }
  }

  lemma {:induction false} PrefixRuns(o: BreakerOptions, actions: seq<Action>, n: nat)
    requires Run(o, actions).Some? && n <= |actions|
    ensures Run(o, actions[..n]).Some?
    decreases |actions|
  {
    if n == |actions| {
      assert actions[..n] == actions;
    } else {
      PrefixRuns(o, actions[..|actions| - 1], n);
      assert actions[..|actions| - 1][..n] == actions[..n];
    }
  }

  lemma SequentialHasNoLateFailure(o: BreakerOptions, actions: seq<Action>, n: nat)
    requires Run(o, actions).Some? && Sequential(o, actions) && n < |actions|
    ensures !LateFailure(o, actions, n)
  {
    if LateFailure(o, actions, n) {
      var call, front := actions[n].call, actions[..n];
      PrefixRuns(o, actions, n + 1);
      assert actions[..n + 1][..n] == front;
      var m := LateCallOverlapsOpening(o, front, call, actions[n].at);
      assert front[..m + 1][..m] == front[..m] && front[..m] == actions[..m];
      SequentialPrefix(o, actions, m);
      SequentialHasOneInFlight(o, actions[..m], call, front[m].call);
      assert false;
    }
  }

  /** Without overlap every move into OPEN is reported exactly once. */
  lemma SequentialRunsReportEachMoveOnce(o: BreakerOptions, actions: seq<Action>)
    requires Run(o, actions).Some? && Sequential(o, actions)
    ensures ReportsAmong(o, actions) == MovesToOpen(o, actions)
  {
    ReportsAreMovesAndLateFailures(o, actions);
    NoLateFailuresIff(o, actions);
    forall n | 0 <= n < |actions|
      ensures !LateFailure(o, actions, n)
    {
      SequentialHasNoLateFailure(o, actions, n);
    }
  }

  /** However calls overlap, there are as many reports as completions that leave the breaker tripped. */
  lemma {:induction false} ReportsInEveryInterleaving(o: BreakerOptions, actions: seq<Action>)
    requires Run(o, actions).Some? && o.resetTimeoutMs > 0
    ensures ReportsAmong(o, actions) == Openings(o, Completions(actions))
  {
    if actions != [] {
      var n := |actions| - 1;
      var h, a := Completions(actions[..n]), actions[n];
      ReportsInEveryInterleaving(o, actions[..n]);
      ObservedOpenIffRefused(o, actions, a.at);
      if a.Finish? {
        assert (h + [Completion(a.ok, a.at)])[..|h|] == h;
      } else {
        assert Completions(actions) == h;
      }
    }
  }

  // ---- Overlap breaks it, for every threshold ----

  /** `n` calls that begin at once, of which the first `failed` have failed. */
  function Burst(n: nat, failed: nat): seq<Action> {
    if failed > 0 then Burst(n, failed - 1) + [Finish(failed - 1, false, 0)]
    else if n > 0 then Burst(n - 1, 0) + [Start(0)]
    else []
  }

  function Below(n: nat): (r: set<nat>)
    ensures forall c: nat :: c in r <==> c < n
  {
    if n == 0 then {} else Below(n - 1) + {n - 1}
  }

  function Between(from: nat, to: nat): set<nat> {
    set c | c in Below(to) && from <= c
  }

  lemma {:induction false} BurstBegins(o: BreakerOptions, n: nat)
    ensures Run(o, Burst(n, 0)) == Some(Execution(FRESH, Below(n), n, 0))
  {
    if n > 0 {
      BurstBegins(o, n - 1);
      RunAppend(o, Burst(n - 1, 0), Start(0));
    }
  }

  lemma {:induction false} BurstBeginsQuietly(o: BreakerOptions, n: nat)
    ensures ReportsAmong(o, Burst(n, 0)) == 0 && MovesToOpen(o, Burst(n, 0)) == 0
  {
    if n > 0 {
      var front := Burst(n - 1, 0);
      BurstBeginsQuietly(o, n - 1);
      BurstBegins(o, n);
      assert Burst(n, 0)[..|front|] == front;
    }
  }

  function Failed(o: BreakerOptions, failed: nat): Breaker {
    if failed < Max(1, o.failureThreshold) then Breaker(CLOSED, failed, None) else Breaker(OPEN, failed, Some(0))
  }

  lemma {:induction false} BurstState(o: BreakerOptions, n: nat, failed: nat)
    requires failed <= n
    ensures Run(o, Burst(n, failed)) == Some(Execution(Failed(o, failed), Between(failed, n), n, 0))
  {
    if failed == 0 {
      BurstBegins(o, n);
      assert Between(0, n) == Below(n);
    } else {
      BurstState(o, n, failed - 1);
      RunAppend(o, Burst(n, failed - 1), Finish(failed - 1, false, 0));
      assert Between(failed - 1, n) - {failed - 1} == Between(failed, n);
    }
  }

  lemma BurstStep(o: BreakerOptions, n: nat, failed: nat)
    requires 0 < failed <= n && o.resetTimeoutMs > 0
    ensures var b := Burst(n, failed);
            && Run(o, b).Some? && b[..|b| - 1] == Burst(n, failed - 1)
            && (Reported(o, b) <==> failed >= Max(1, o.failureThreshold))
            && (Opens(o, b) <==> failed == Max(1, o.failureThreshold))
  {
    BurstState(o, n, failed - 1);
    BurstState(o, n, failed);
    var front := Burst(n, failed - 1);
    assert Burst(n, failed)[..|front|] == front;
  }

  lemma {:induction false} BurstReports(o: BreakerOptions, n: nat, failed: nat)
    requires failed <= n && o.resetTimeoutMs > 0
    ensures ReportsAmong(o, Burst(n, failed)) == Max(0, failed - Max(1, o.failureThreshold) + 1)
    ensures MovesToOpen(o, Burst(n, failed)) == if failed < Max(1, o.failureThreshold) then 0 else 1
  {
    if failed == 0 {
      BurstBeginsQuietly(o, n);
    } else {
      BurstStep(o, n, failed);
      BurstReports(o, n, failed - 1);
    }
  }

  /**
   * Whatever the threshold, `extra` more calls than it takes to trip the breaker, all begun before it
   * trips and all failing, report the one move `extra` times more.
   */
  lemma OverlappingCallsReportAgain(o: BreakerOptions, extra: nat)
    requires o.resetTimeoutMs > 0
    ensures var n := Max(1, o.failureThreshold) + extra;
            && Run(o, Burst(n, n)).Some?
            && MovesToOpen(o, Burst(n, n)) == 1
            && ReportsAmong(o, Burst(n, n)) == 1 + extra
  {
    var n := Max(1, o.failureThreshold) + extra;
    BurstState(o, n, n);
    BurstReports(o, n, n);
  }
}
