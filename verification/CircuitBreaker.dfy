/** The circuit breaker, as a class over its three fields and as a function of its completion history. */
module CircuitBreakers {
  import opened Common

  datatype CircuitState = CLOSED | OPEN | HALF_OPEN

  datatype BreakerOptions = BreakerOptions(failureThreshold: int, resetTimeoutMs: int)

  /** The values of a breaker's fields. `HALF_OPEN` is only ever observed, never stored. */
  datatype Breaker = Breaker(state: CircuitState, consecutiveFailures: nat, openedAt: Option<int>)

  const FRESH := Breaker(CLOSED, 0, None)

  predicate CanAttemptReset(o: BreakerOptions, b: Breaker, now: int) {
    b.openedAt.Some? && now - b.openedAt.value >= o.resetTimeoutMs
  }

  function Observed(o: BreakerOptions, b: Breaker, now: int): CircuitState {
    if b.state == OPEN && CanAttemptReset(o, b, now) then HALF_OPEN else b.state
  }

  predicate Admits(o: BreakerOptions, b: Breaker, now: int) {
    Observed(o, b, now) != OPEN
  }

  /** The breaker once a call it admitted has completed at `now`. */
  function Settled(o: BreakerOptions, b: Breaker, ok: bool, now: int): Breaker {
    if ok then FRESH
    else
      var failures := b.consecutiveFailures + 1;
      if failures >= o.failureThreshold then Breaker(OPEN, failures, Some(now))
      else b.(consecutiveFailures := failures)
  }

  class CircuitBreaker {
    const options: BreakerOptions
    var state: CircuitState
    var consecutiveFailures: nat
    var openedAt: Option<int>

    function Fields(): Breaker
      reads this
    {
      Breaker(state, consecutiveFailures, openedAt)
    }

    constructor (options: BreakerOptions)
      ensures this.options == options && Fields() == FRESH
    {
      this.options := options;
      state, consecutiveFailures, openedAt := CLOSED, 0, None;
    }

    method GetState(now: int) returns (s: CircuitState)
      ensures s == Observed(options, Fields(), now)
    {
      if state == OPEN {
        var reset := openedAt.Some? && now - openedAt.value >= options.resetTimeoutMs;
        if reset {
          return HALF_OPEN;
        }
      }
      return state;
    }

    /** `execute` up to its `await`: whether the wrapped function is started at all. */
    method Begin(now: int) returns (admitted: bool)
      ensures admitted == Admits(options, Fields(), now)
    {
      var current := GetState(now);
      admitted := current != OPEN;
    }

    /** `execute` after its `await`: the wrapped function has resolved (`ok`) or rejected. */
    method Complete(ok: bool, now: int)
      modifies this
      ensures Fields() == Settled(options, old(Fields()), ok, now)
    {
      if ok {
        OnSuccess();
      } else {
        OnFailure(now);
      }
    }

    method OnSuccess()
      modifies this
      ensures Fields() == FRESH
    {
      consecutiveFailures := 0;
      state := CLOSED;
      openedAt := None;
    }

    method OnFailure(now: int)
      modifies this
      ensures Fields() == Settled(options, old(Fields()), false, now)
    {
      consecutiveFailures := consecutiveFailures + 1;
      if consecutiveFailures >= options.failureThreshold {
        state := OPEN;
        openedAt := Some(now);
      }
    }
  }

  // ---- The reference: what the completion history alone says ----

  datatype Completion = Completion(ok: bool, at: int)

  function TrailingFailures(h: seq<Completion>): nat {
    if h == [] || h[|h| - 1].ok then 0 else 1 + TrailingFailures(h[..|h| - 1])
  }

  predicate Tripped(o: BreakerOptions, h: seq<Completion>) {
    TrailingFailures(h) >= Max(1, o.failureThreshold)
  }

  /** A call is refused: enough trailing failures, and the last completion is too recent. */
  predicate Refused(o: BreakerOptions, h: seq<Completion>, now: int) {
    h != [] && Tripped(o, h) && now - h[|h| - 1].at < o.resetTimeoutMs
  }

  function FromHistory(o: BreakerOptions, h: seq<Completion>): Breaker {
    if h != [] && Tripped(o, h)
    then Breaker(OPEN, TrailingFailures(h), Some(h[|h| - 1].at))
    else Breaker(CLOSED, TrailingFailures(h), None)
  }

  /** `TrailingFailures` is the length of the longest all-failed suffix. */
  lemma {:induction false} TrailingFailuresIsLongestFailedSuffix(h: seq<Completion>, n: nat)
    ensures TrailingFailures(h) == n <==>
            && n <= |h|
            && (forall i :: |h| - n <= i < |h| ==> !h[i].ok)
            && (n < |h| ==> h[|h| - n - 1].ok)
  {
    if h != [] && !h[|h| - 1].ok {
      var front := h[..|h| - 1];
      if n > 0 {
        TrailingFailuresIsLongestFailedSuffix(front, n - 1);
        if n <= |h| && (forall i :: |h| - n <= i < |h| ==> !h[i].ok) {
          assert forall i :: |front| - (n - 1) <= i < |front| ==> front[i] == h[i];
        }
        if TrailingFailures(front) == n - 1 {
          assert forall i :: |h| - n <= i < |h| - 1 ==> h[i] == front[i];
        }
      }
    }
  }

  lemma SettledExtendsHistory(o: BreakerOptions, h: seq<Completion>, ok: bool, at: int)
    ensures Settled(o, FromHistory(o, h), ok, at) == FromHistory(o, h + [Completion(ok, at)])
  {
  }

  // ---- Every interleaving of overlapping `execute` calls ----

  datatype Action =
    | Start(at: int)
    | Finish(call: nat, ok: bool, at: int)

  /** `inFlight`: admitted calls that have not completed. Calls are numbered as they start. */
  datatype Execution = Execution(breaker: Breaker, inFlight: set<nat>, started: nat, clock: int)

  predicate Enabled(x: Execution, a: Action) {
    a.at >= x.clock && (a.Finish? ==> a.call in x.inFlight)
  }

  function Next(o: BreakerOptions, x: Execution, a: Action): Execution {
    match a
    case Start(at) =>
      Execution(x.breaker, if Admits(o, x.breaker, at) then x.inFlight + {x.started} else x.inFlight,
                x.started + 1, at)
    case Finish(call, ok, at) =>
      Execution(Settled(o, x.breaker, ok, at), x.inFlight - {call}, x.started, at)
  }

  /** The state a breaker created at time 0 reaches, or None when some action could not happen. */
  function Run(o: BreakerOptions, actions: seq<Action>): Option<Execution> {
    if actions == [] then Some(Execution(FRESH, {}, 0, 0))
    else
      var n := |actions| - 1;
      match Run(o, actions[..n])
      case None => None
      case Some(x) => if Enabled(x, actions[n]) then Some(Next(o, x, actions[n])) else None
  }

  function Completions(actions: seq<Action>): seq<Completion> {
    if actions == [] then []
    else
      var n := |actions| - 1;
      Completions(actions[..n]) +
      if actions[n].Finish? then [Completion(actions[n].ok, actions[n].at)] else []
  }

  lemma RunAppend(o: BreakerOptions, actions: seq<Action>, a: Action)
    ensures Run(o, actions + [a]) ==
            match Run(o, actions)
            case None => None
            case Some(x) => if Enabled(x, a) then Some(Next(o, x, a)) else None
    ensures Completions(actions + [a]) ==
            Completions(actions) + if a.Finish? then [Completion(a.ok, a.at)] else []
  {
  }

  /** In every interleaving the three fields are a function of the completion history alone. */
  lemma {:induction false} BreakerRefinesHistory(o: BreakerOptions, actions: seq<Action>)
    requires Run(o, actions).Some?
    ensures var b := Run(o, actions).value.breaker;
            && b == FromHistory(o, Completions(actions))
            && b.consecutiveFailures == TrailingFailures(Completions(actions))
            && (b.state == OPEN <==> Tripped(o, Completions(actions)))
            && b.state != HALF_OPEN
            && (b.openedAt.Some? <==> b.state == OPEN)
    ensures Completions(actions) != [] ==>
              Completions(actions)[|Completions(actions)| - 1].at <= Run(o, actions).value.clock
  {
    if actions != [] {
      var n := |actions| - 1;
      BreakerRefinesHistory(o, actions[..n]);
      if actions[n].Finish? {
        SettledExtendsHistory(o, Completions(actions[..n]), actions[n].ok, actions[n].at);
      } else {
        assert Completions(actions) == Completions(actions[..n]);
      }
    }
  }

  /** In every interleaving, whether a call is let through depends only on the history and the clock. */
  lemma CallRefusedIff(o: BreakerOptions, actions: seq<Action>, at: int)
    requires Run(o, actions).Some? && at >= Run(o, actions).value.clock
    ensures var x := Run(o, actions).value;
            var after := Run(o, actions + [Start(at)]);
            && after.Some?
            && after.value.breaker == x.breaker
            && (x.started in after.value.inFlight <==> !Refused(o, Completions(actions), at))
  {
    BreakerRefinesHistory(o, actions);
    InFlightStarted(o, actions);
    RunAppend(o, actions, Start(at));
  }

  lemma {:induction false} InFlightStarted(o: BreakerOptions, actions: seq<Action>)
    requires Run(o, actions).Some?
    ensures forall c :: c in Run(o, actions).value.inFlight ==> c < Run(o, actions).value.started
  {
    if actions != [] {
      InFlightStarted(o, actions[..|actions| - 1]);
    }
  }

  // ---- "Exactly one HALF_OPEN probe": what the code does and when the claim holds ----

  function Starts(times: seq<int>): seq<Action> {
    if times == [] then []
    else Starts(times[..|times| - 1]) + [Start(times[|times| - 1])]
  }

  predicate NonDecreasing(times: seq<int>, from: int) {
    && (forall i :: 0 <= i < |times| ==> from <= times[i])
    && (forall i, j :: 0 <= i < j < |times| ==> times[i] <= times[j])
  }

  /** The arrivals at `due` or later. */
  function ArrivalsFrom(times: seq<int>, due: int): nat {
    if times == [] then 0
    else ArrivalsFrom(times[..|times| - 1], due) + if times[|times| - 1] >= due then 1 else 0
  }

  /** Between two completions calls only start: the history and the breaker stay, and no call ends. */
  lemma {:induction false} StartsChangeNothing(o: BreakerOptions, actions: seq<Action>, times: seq<int>)
    requires Run(o, actions).Some? && NonDecreasing(times, Run(o, actions).value.clock)
    ensures var x, window := Run(o, actions).value, Run(o, actions + Starts(times));
            && window.Some?
            && Completions(actions + Starts(times)) == Completions(actions)
            && window.value.breaker == x.breaker && x.inFlight <= window.value.inFlight
            && window.value.clock == (if times == [] then x.clock else times[|times| - 1])
  {
    if times == [] {
      assert actions + Starts(times) == actions;
    } else {
      var n := |times| - 1;
      StartsChangeNothing(o, actions, times[..n]);
      RunAppend(o, actions + Starts(times[..n]), Start(times[n]));
      assert actions + Starts(times) == actions + Starts(times[..n]) + [Start(times[n])];
    }
  }

  /**
   * Between two completions the breaker does not change, so of the calls that start in that window
   * on a tripped breaker, exactly those arriving after the cooldown become probes. One probe is let
   * through iff exactly one call arrives after the cooldown before a completion: nothing else limits it.
   */
  lemma {:induction false} ProbesLetThrough(o: BreakerOptions, actions: seq<Action>, times: seq<int>)
    requires Run(o, actions).Some? && Tripped(o, Completions(actions)) && Completions(actions) != []
    requires NonDecreasing(times, Run(o, actions).value.clock)
    ensures var h := Completions(actions);
            var x := Run(o, actions).value;
            var window := Run(o, actions + Starts(times));
            && window.Some?
            && Completions(actions + Starts(times)) == h
            && window.value.breaker == x.breaker
            && window.value.clock == (if times == [] then x.clock else times[|times| - 1])
            && |window.value.inFlight - x.inFlight| ==
               ArrivalsFrom(times, h[|h| - 1].at + o.resetTimeoutMs)
            && x.inFlight <= window.value.inFlight
  {
    StartsChangeNothing(o, actions, times);
    if times == [] {
      assert actions + Starts(times) == actions;
    } else {
      var n := |times| - 1;
      var front := actions + Starts(times[..n]);
      ProbesLetThrough(o, actions, times[..n]);
      BreakerRefinesHistory(o, actions);
      NextProbe(o, actions, times[..n], times[n]);
      assert actions + Starts(times) == front + [Start(times[n])];
    }
  }

  lemma NextProbe(o: BreakerOptions, actions: seq<Action>, times: seq<int>, at: int)
    requires Run(o, actions).Some? && Run(o, actions + Starts(times)).Some?
    requires at >= Run(o, actions + Starts(times)).value.clock
    ensures var x, w := Run(o, actions).value, Run(o, actions + Starts(times)).value;
            var after := Run(o, actions + Starts(times) + [Start(at)]);
            && after.Some?
            && |after.value.inFlight - x.inFlight| == |w.inFlight - x.inFlight| + if Admits(o, w.breaker, at) then 1 else 0
  {
    var front := actions + Starts(times);
    RunAppend(o, front, Start(at));
    StartedGrows(o, actions, times);
    InFlightStarted(o, actions);
    InFlightStarted(o, front);
    ProbeAdded(o, Run(o, actions).value, Run(o, front).value, at);
  }

  lemma ProbeAdded(o: BreakerOptions, x: Execution, w: Execution, at: int)
    requires forall c :: c in x.inFlight ==> c < w.started
    requires forall c :: c in w.inFlight ==> c < w.started
    ensures var after := Next(o, w, Start(at)).inFlight;
            |after - x.inFlight| == |w.inFlight - x.inFlight| + if Admits(o, w.breaker, at) then 1 else 0
  {
    if Admits(o, w.breaker, at) {
      assert w.inFlight + {w.started} - x.inFlight == (w.inFlight - x.inFlight) + {w.started};
    }
  }

  lemma {:induction false} StartedGrows(o: BreakerOptions, actions: seq<Action>, times: seq<int>)
    requires Run(o, actions).Some? && Run(o, actions + Starts(times)).Some?
    ensures Run(o, actions).value.started <= Run(o, actions + Starts(times)).value.started
  {
    if times == [] {
      assert actions + Starts(times) == actions;
    } else {
      var n := |times| - 1;
      var all := actions + Starts(times);
      assert all == actions + Starts(times[..n]) + [Start(times[n])];
      RunAppend(o, actions + Starts(times[..n]), Start(times[n]));
      StartedGrows(o, actions, times[..n]);
    }
  }

  /**
   * A call let through on a tripped breaker decides it: success closes the circuit for every later
   * call, failure refuses every call of the next `resetTimeoutMs` and no call after that.
   */
  lemma ProbeDecides(o: BreakerOptions, actions: seq<Action>, at: int, ok: bool, end: int, later: int)
    requires Run(o, actions).Some? && Tripped(o, Completions(actions))
    requires Run(o, actions).value.clock <= at <= end <= later
    requires !Refused(o, Completions(actions), at)
    ensures var probe := Run(o, actions).value.started;
            var run := Run(o, actions + [Start(at)] + [Finish(probe, ok, end)]);
            && run.Some?
            && (ok ==> run.value.breaker == FRESH)
            && (Admits(o, run.value.breaker, later) <==> ok || later >= end + o.resetTimeoutMs)
  {
    CallRefusedIff(o, actions, at);
    BreakerRefinesHistory(o, actions);
    RunAppend(o, actions + [Start(at)], Finish(Run(o, actions).value.started, ok, end));
  }

  /** `n` calls in a row, each failing before the next begins. */
  function Trip(n: nat): seq<Action> {
    if n == 0 then [] else Trip(n - 1) + [Start(0)] + [Finish(n - 1, false, 0)]
  }

  function AfterFailures(o: BreakerOptions, n: nat): Breaker {
    if n < Max(1, o.failureThreshold) then Breaker(CLOSED, n, None) else Breaker(OPEN, n, Some(0))
  }

  lemma OneMoreFailure(o: BreakerOptions, n: nat)
    requires n < Max(1, o.failureThreshold)
    ensures Settled(o, AfterFailures(o, n), false, 0) == AfterFailures(o, n + 1)
    ensures Admits(o, AfterFailures(o, n), 0)
  {
  }

  lemma {:induction false} TripState(o: BreakerOptions, n: nat)
    requires n <= Max(1, o.failureThreshold)
    ensures Run(o, Trip(n)) == Some(Execution(AfterFailures(o, n), {}, n, 0))
  {
    if n > 0 {
      TripState(o, n - 1);
      OneMoreFailure(o, n - 1);
      RunAppend(o, Trip(n - 1), Start(0));
      RunAppend(o, Trip(n - 1) + [Start(0)], Finish(n - 1, false, 0));
      var idle: set<nat> := {};
      assert idle + {n - 1} - {n - 1} == idle;
    }
  }

  lemma {:induction false} TripCompletions(n: nat)
    ensures |Completions(Trip(n))| == n && forall i :: 0 <= i < n ==> Completions(Trip(n))[i].at == 0
  {
    if n > 0 {
      var started := Trip(n - 1) + [Start(0)];
      TripCompletions(n - 1);
      assert started[..|started| - 1] == Trip(n - 1) && Completions(started) == Completions(Trip(n - 1));
      assert Trip(n)[..|started|] == started;
    }
  }

  /** Whatever the threshold and the cooldown, any number of probes can be let through at once. */
  lemma OverlappingProbesAreUnbounded(o: BreakerOptions, n: nat)
    ensures var trip := Trip(Max(1, o.failureThreshold));
            var times := seq(n, _ => Max(0, o.resetTimeoutMs));
            && Run(o, trip + Starts(times)).Some?
            && Tripped(o, Completions(trip))
            && |Run(o, trip + Starts(times)).value.inFlight| == n
  {
    var trip, times := Trip(Max(1, o.failureThreshold)), seq(n, _ => Max(0, o.resetTimeoutMs));
    TripState(o, Max(1, o.failureThreshold));
    TripCompletions(Max(1, o.failureThreshold));
    BreakerRefinesHistory(o, trip);
    ProbesLetThrough(o, trip, times);
    AllArrived(times, o.resetTimeoutMs);
    var x, w := Run(o, trip).value, Run(o, trip + Starts(times)).value;
    assert x.inFlight == {} && w.inFlight - x.inFlight == w.inFlight;
  }

  lemma {:induction false} AllArrived(times: seq<int>, due: int)
    requires forall i :: 0 <= i < |times| ==> times[i] >= due
    ensures ArrivalsFrom(times, due) == |times|
  {
    if times != [] {
      AllArrived(times[..|times| - 1], due);
    }
  }
}
