/** One tenant-scoped integration provider: retries, a circuit breaker and the last known-good result. */
module Providers {
  import opened Common
  import opened CircuitBreakers
  import opened Retries

  datatype IntegrationKey =
    | SERVICENOW | JIRA | SLACK | TEAMS | AWS | AZURE | GCP | SPLUNK | DATADOG | MICROSOFT_SENTINEL

  /** A tenant's decrypted credentials; only `simulateFailure` has a meaning to the platform. */
  datatype Credentials = Credentials(simulateFailure: bool, payload: string)

  datatype Mode = LIVE | STUB_MODE | DEGRADED

  /** `REAL` is the source's reliability 'LIVE', which is also the name of a mode. */
  datatype Reliability = REAL | MOCK

  datatype Message = Stubbed | Sent | FellBack(circuitOpen: bool, lastKnownAt: Option<int>)

  datatype CallResult =
    CallResult(delivered: bool, mode: Mode, freshness: int, reliability: Reliability, message: Message)

  /** The mutable fields of a provider, with those of its breaker. */
  datatype Provider = Provider(breaker: Breaker, lastSuccess: Option<CallResult>, lastSuccessAt: Option<int>)

  const BREAKER_DEFAULTS := BreakerOptions(3, 30_000)
  const RETRY_DEFAULTS := RetryOptions(3, 100.0, 2.0)
  const NEW_PROVIDER := Provider(FRESH, None, None)

  // ---- The inner provider and the network it stands for ----

  const STUB_RESULT := CallResult(true, STUB_MODE, 0, MOCK, Stubbed)
  const LIVE_RESULT := CallResult(true, LIVE, 100, REAL, Sent)

  /** One call of the inner provider against the fixture network. */
  function InnerCall(credentials: Option<Credentials>): Outcome<CallResult, string> {
    if credentials.None? then Returned(STUB_RESULT)
    else if credentials.value.simulateFailure then Threw(Some("Simulated network failure"))
    else Returned(LIVE_RESULT)
  }

  function InnerFn(credentials: Option<Credentials>): int -> Outcome<CallResult, string> {
    _ => InnerCall(credentials)
  }

  /** What `callResilient` sees of a whole retry sequence: the result, or None for any error. */
  function AfterRetries(credentials: Option<Credentials>): Option<CallResult> {
    if InnerCall(credentials).Returned? then Some(InnerCall(credentials).value) else None
  }

  /** How often one admitted call reaches the network: never for a stub, else once per attempt. */
  function NetworkAttempts(credentials: Option<Credentials>): nat {
    if credentials.None? then 0 else CallsMade(InnerFn(credentials), RETRY_DEFAULTS.maxAttempts, 0)
  }

  lemma FixtureAttempts(credentials: Option<Credentials>)
    ensures CallsMade(InnerFn(credentials), RETRY_DEFAULTS.maxAttempts, 0) ==
            if AfterRetries(credentials).Some? then 1 else 3
  {
  }

  // ---- The provider's own steps ----

  function DegradedResult(p: Provider, circuitOpen: bool): CallResult {
    if p.lastSuccess.Some? && p.lastSuccessAt.Some?
    then p.lastSuccess.value.(delivered := false, mode := DEGRADED, message := FellBack(circuitOpen, p.lastSuccessAt))
    else CallResult(false, DEGRADED, 0, MOCK, FellBack(circuitOpen, None))
  }

  /** The provider once an admitted call has ended; `outcome` is None when it failed. */
  function Ended(o: BreakerOptions, p: Provider, outcome: Option<CallResult>, at: int): Provider {
    var breaker := Settled(o, p.breaker, outcome.Some?, at);
    if outcome.Some? then Provider(breaker, outcome, Some(at)) else p.(breaker := breaker)
  }

  function EndResult(p: Provider, outcome: Option<CallResult>): CallResult {
    if outcome.Some? then outcome.value else DegradedResult(p, false)
  }

  /** A whole call during which no other call of this provider starts or ends. */
  function Called(o: BreakerOptions, p: Provider, outcome: Option<CallResult>, beginAt: int, endAt: int): Provider {
    if Admits(o, p.breaker, beginAt) then Ended(o, p, outcome, endAt) else p
  }

  function CalledResult(o: BreakerOptions, p: Provider, outcome: Option<CallResult>, beginAt: int): CallResult {
    if Admits(o, p.breaker, beginAt) then EndResult(p, outcome) else DegradedResult(p, true)
  }

  // ---- The reference: what the completions alone say, in the order they happened ----

  datatype Ending = Ending(outcome: Option<CallResult>, at: int)

  function AsCompletions(h: seq<Ending>): seq<Completion> {
    seq(|h|, i requires 0 <= i < |h| => Completion(h[i].outcome.Some?, h[i].at))
  }

  /** The index of the latest success in completion order, or -1. */
  function LatestSuccess(h: seq<Ending>): (i: int)
    ensures -1 <= i < |h|
    ensures i >= 0 ==> h[i].outcome.Some?
    ensures forall j :: i < j < |h| ==> h[j].outcome.None?
  {
    if h == [] then -1
    else if h[|h| - 1].outcome.Some? then |h| - 1
    else LatestSuccess(h[..|h| - 1])
  }

  /** Reference: the fallback the documentation promises, from the completion history alone. */
  function LastKnownGood(h: seq<Ending>, circuitOpen: bool): CallResult {
    var i := LatestSuccess(h);
    if i < 0 then CallResult(false, DEGRADED, 0, MOCK, FellBack(circuitOpen, None))
    else CallResult(false, DEGRADED, h[i].outcome.value.freshness, h[i].outcome.value.reliability,
                    FellBack(circuitOpen, Some(h[i].at)))
  }

  /** The provider's fields after these completions. */
  function ProviderOf(o: BreakerOptions, h: seq<Ending>): Provider {
    var i := LatestSuccess(h);
    Provider(FromHistory(o, AsCompletions(h)), if i < 0 then None else h[i].outcome, if i < 0 then None else Some(h[i].at))
  }

  /** What a call is answered at once, None if it is let through; and what it is answered when it has ended. */
  function AtOnce(o: BreakerOptions, h: seq<Ending>, at: int): Option<CallResult> {
    if Refused(o, AsCompletions(h), at) then Some(LastKnownGood(h, true)) else None
  }

  function AtTheEnd(h: seq<Ending>, outcome: Option<CallResult>): CallResult {
    if outcome.Some? then outcome.value else LastKnownGood(h, false)
  }

  /** A completion is one more entry of the history, for the breaker and for the last success. */
  lemma EndedExtendsHistory(o: BreakerOptions, h: seq<Ending>, outcome: Option<CallResult>, at: int)
    ensures Ended(o, ProviderOf(o, h), outcome, at) == ProviderOf(o, h + [Ending(outcome, at)])
  {
    var more := h + [Ending(outcome, at)];
    SettledExtendsHistory(o, AsCompletions(h), outcome.Some?, at);
    assert AsCompletions(more) == AsCompletions(h) + [Completion(outcome.Some?, at)];
    assert more[..|h|] == h;
  }

  /** And every answer is what the history says. */
  lemma AnswersFromHistory(o: BreakerOptions, h: seq<Ending>, at: int, outcome: Option<CallResult>)
    ensures AtOnce(o, h, at) ==
            if Admits(o, ProviderOf(o, h).breaker, at) then None else Some(DegradedResult(ProviderOf(o, h), true))
    ensures AtTheEnd(h, outcome) == EndResult(ProviderOf(o, h), outcome)
  {
  }

  /** A sequence of undisturbed calls: the completions of those that are let through, and the answers to all. */
  datatype WholeCall = WholeCall(beginAt: int, outcome: Option<CallResult>, endAt: int)

  function CallsInTurn(o: BreakerOptions, p: Provider, calls: seq<WholeCall>): Provider {
    if calls == [] then p
    else
      var c := calls[|calls| - 1];
      Called(o, CallsInTurn(o, p, calls[..|calls| - 1]), c.outcome, c.beginAt, c.endAt)
  }

  function HistoryInTurn(o: BreakerOptions, h: seq<Ending>, calls: seq<WholeCall>): seq<Ending> {
    if calls == [] then h
    else
      var before, c := HistoryInTurn(o, h, calls[..|calls| - 1]), calls[|calls| - 1];
      if Refused(o, AsCompletions(before), c.beginAt) then before else before + [Ending(c.outcome, c.endAt)]
  }

  /** Every sequence of undisturbed calls leaves the provider, and answers, as its completions say. */
  lemma {:induction false} CallsInTurnFollowHistory(o: BreakerOptions, h: seq<Ending>, calls: seq<WholeCall>, next: WholeCall)
    ensures CallsInTurn(o, ProviderOf(o, h), calls) == ProviderOf(o, HistoryInTurn(o, h, calls))
    ensures var now := HistoryInTurn(o, h, calls);
            CalledResult(o, CallsInTurn(o, ProviderOf(o, h), calls), next.outcome, next.beginAt) ==
            if AtOnce(o, now, next.beginAt).Some? then AtOnce(o, now, next.beginAt).value else AtTheEnd(now, next.outcome)
  {
    var now := HistoryInTurn(o, h, calls);
    AnswersFromHistory(o, now, next.beginAt, next.outcome);
    if calls != [] {
      var before, c := HistoryInTurn(o, h, calls[..|calls| - 1]), calls[|calls| - 1];
      CallsInTurnFollowHistory(o, h, calls[..|calls| - 1], next);
      AnswersFromHistory(o, before, c.beginAt, c.outcome);
      EndedExtendsHistory(o, before, c.outcome, c.endAt);
    }
  }

  class ResilientIntegrationProvider {
    const key: IntegrationKey
    const credentials: Option<Credentials>
    const circuitBreaker: CircuitBreaker
    const retryOptions: RetryOptions
    var lastSuccess: Option<CallResult>
    var lastSuccessAt: Option<int>
    ghost var history: seq<Ending>  // the calls that have ended, in the order they did

    function Fields(): Provider
      reads this, circuitBreaker
    {
      Provider(circuitBreaker.Fields(), lastSuccess, lastSuccessAt)
    }

    /** The fields are those the history says. */
    ghost predicate Valid()
      reads this, circuitBreaker
    {
      Fields() == ProviderOf(circuitBreaker.options, history)
    }

    constructor (key: IntegrationKey, credentials: Option<Credentials>, options: BreakerOptions,
                 retryOptions: RetryOptions)
      ensures this.key == key && this.credentials == credentials && this.retryOptions == retryOptions
      ensures circuitBreaker.options == options && fresh(circuitBreaker)
      ensures Fields() == NEW_PROVIDER && Valid() && history == []
    {
      this.key, this.credentials, this.retryOptions := key, credentials, retryOptions;
      lastSuccess, lastSuccessAt, history := None, None, [];
      circuitBreaker := new CircuitBreaker(options);
    }

    /** `callResilient` up to its `await`: the refusal, or None when the call is under way. */
    method Begin(now: int) returns (refusal: Option<CallResult>)
      requires Valid()
      ensures refusal == AtOnce(circuitBreaker.options, history, now)
      ensures refusal == if Admits(circuitBreaker.options, Fields().breaker, now) then None
                         else Some(DegradedResult(Fields(), true))
    {
      AnswersFromHistory(circuitBreaker.options, history, now, None);
      var admitted := circuitBreaker.Begin(now);
      if admitted {
        return None;
      }
      var degraded := Degrade(true);
      return Some(degraded);
    }

    /** `callResilient` after its `await`. */
    method End(outcome: Option<CallResult>, now: int) returns (r: CallResult)
      requires Valid()
      modifies this`lastSuccess, this`lastSuccessAt, this`history, circuitBreaker
      ensures Valid() && history == old(history) + [Ending(outcome, now)] && r == AtTheEnd(old(history), outcome)
      ensures Fields() == Ended(circuitBreaker.options, old(Fields()), outcome, now)
      ensures r == EndResult(old(Fields()), outcome)
    {
      EndedExtendsHistory(circuitBreaker.options, history, outcome, now);
      AnswersFromHistory(circuitBreaker.options, history, now, outcome);
      history := history + [Ending(outcome, now)];
      circuitBreaker.Complete(outcome.Some?, now);
      if outcome.Some? {
        lastSuccess := outcome;
        lastSuccessAt := Some(now);
        return outcome.value;
      }
      r := Degrade(false);
    }

    method Degrade(circuitOpen: bool) returns (r: CallResult)
      ensures r == DegradedResult(Fields(), circuitOpen)
    {
      if lastSuccess.Some? && lastSuccessAt.Some? {
        r := lastSuccess.value.(delivered := false, mode := DEGRADED,
                                message := FellBack(circuitOpen, lastSuccessAt));
      } else {
        r := CallResult(false, DEGRADED, 0, MOCK, FellBack(circuitOpen, None));
      }
    }

    /** One undisturbed call. It always returns a result; `attempts` counts calls of `fn`. */
    method CallResilient(fn: int -> Outcome<CallResult, string>, beginAt: int, endAt: int)
      returns (r: CallResult, attempts: nat)
      requires Valid()
      modifies this`lastSuccess, this`lastSuccessAt, this`history, circuitBreaker
      ensures Valid()
      ensures var o, was := circuitBreaker.options, old(Fields());
              var calls := CallsMade(fn, retryOptions.maxAttempts, 0);
              var outcome := if calls > 0 && fn(calls).Returned? then Some(fn(calls).value) else None;
              && Fields() == Called(o, was, outcome, beginAt, endAt)
              && r == CalledResult(o, was, outcome, beginAt)
              && (AtOnce(o, old(history), beginAt).Some? ==>
                    history == old(history) && r == AtOnce(o, old(history), beginAt).value)
              && (AtOnce(o, old(history), beginAt).None? ==>
                    history == old(history) + [Ending(outcome, endAt)] && r == AtTheEnd(old(history), outcome))
              && attempts == if Admits(o, was.breaker, beginAt) then calls else 0
    {
      var refusal := Begin(beginAt);
      if refusal.Some? {
        return refusal.value, 0;
      }
      var outcome, calls, sleeps := WithRetry(fn, retryOptions);
      RetryOutcome(fn, retryOptions, outcome, calls);
      r := End(if outcome.Returned? then Some(outcome.value) else None, endAt);
      attempts := calls;
    }

    /** `notifyIncidentCreated` and `notifyDecisionDecided`: the same call of the inner provider. */
    method Notify(beginAt: int, endAt: int) returns (r: CallResult)
      requires Valid() && retryOptions == RETRY_DEFAULTS
      modifies this`lastSuccess, this`lastSuccessAt, this`history, circuitBreaker
      ensures Valid()
      ensures Fields() == Called(circuitBreaker.options, old(Fields()), AfterRetries(credentials), beginAt, endAt)
      ensures r == CalledResult(circuitBreaker.options, old(Fields()), AfterRetries(credentials), beginAt)
    {
      var attempts;
      FixtureAttempts(credentials);
      r, attempts := CallResilient(InnerFn(credentials), beginAt, endAt);
    }
  }

  // ---- Every interleaving of overlapping calls ----

  datatype CallAction =
    | StartCall(at: int)
    | EndCall(call: nat, outcome: Option<CallResult>, at: int)

  datatype Calls = Calls(x: Execution, lastSuccess: Option<CallResult>, lastSuccessAt: Option<int>)
  {
    function AsProvider(): Provider { Provider(x.breaker, lastSuccess, lastSuccessAt) }
  }

  function BreakerAction(a: CallAction): Action {
    match a
    case StartCall(at) => Start(at)
    case EndCall(call, outcome, at) => Finish(call, outcome.Some?, at)
  }

  function NextCalls(o: BreakerOptions, s: Calls, a: CallAction): Calls {
    match a
    case StartCall(at) => s.(x := Next(o, s.x, Start(at)))
    case EndCall(call, outcome, at) =>
      var p := Ended(o, s.AsProvider(), outcome, at);
      Calls(Execution(p.breaker, s.x.inFlight - {call}, s.x.started, at), p.lastSuccess, p.lastSuccessAt)
  }

  /** What the caller is given by this action; None while its call is under way. */
  function Answer(o: BreakerOptions, s: Calls, a: CallAction): Option<CallResult> {
    match a
    case StartCall(at) => if Admits(o, s.x.breaker, at) then None else Some(DegradedResult(s.AsProvider(), true))
    case EndCall(_, outcome, _) => Some(EndResult(s.AsProvider(), outcome))
  }

  function RunCalls(o: BreakerOptions, actions: seq<CallAction>): Option<Calls> {
    if actions == [] then Some(Calls(Execution(FRESH, {}, 0, 0), None, None))
    else
      var n := |actions| - 1;
      match RunCalls(o, actions[..n])
      case None => None
      case Some(s) => if Enabled(s.x, BreakerAction(actions[n])) then Some(NextCalls(o, s, actions[n])) else None
  }

  function Endings(actions: seq<CallAction>): seq<Ending> {
    if actions == [] then []
    else
      var n := |actions| - 1;
      Endings(actions[..n]) + if actions[n].EndCall? then [Ending(actions[n].outcome, actions[n].at)] else []
  }

  function AnswerFromHistory(o: BreakerOptions, h: seq<Ending>, a: CallAction): Option<CallResult> {
    match a
    case StartCall(at) => AtOnce(o, h, at)
    case EndCall(_, outcome, _) => Some(AtTheEnd(h, outcome))
  }

  lemma {:induction false} ProviderRefinesHistory(o: BreakerOptions, actions: seq<CallAction>)
    requires RunCalls(o, actions).Some?
    ensures RunCalls(o, actions).value.AsProvider() == ProviderOf(o, Endings(actions))
  {
    if actions != [] {
      var n := |actions| - 1;
      var a := actions[n];
      ProviderRefinesHistory(o, actions[..n]);
      if a.EndCall? {
        EndedExtendsHistory(o, Endings(actions[..n]), a.outcome, a.at);
      } else {
        assert Endings(actions) == Endings(actions[..n]);
      }
    }
  }

  /**
   * In every interleaving every answer is determined by the completions before it: a call is answered
   * at once iff the breaker refuses it, a success is passed through, and anything else is the last
   * known-good state marked undelivered and DEGRADED.
   */
  lemma EveryAnswerFromHistory(o: BreakerOptions, actions: seq<CallAction>, a: CallAction)
    requires RunCalls(o, actions).Some?
    requires Enabled(RunCalls(o, actions).value.x, BreakerAction(a))
    ensures Answer(o, RunCalls(o, actions).value, a) == AnswerFromHistory(o, Endings(actions), a)
  {
    ProviderRefinesHistory(o, actions);
  }

  /** A fallback carries no signal exactly when the latest success carried none, or there was none. */
  lemma DegradedFreshnessIsZeroIff(o: BreakerOptions, actions: seq<CallAction>, circuitOpen: bool)
    requires RunCalls(o, actions).Some?
    ensures var h := Endings(actions);
            DegradedResult(RunCalls(o, actions).value.AsProvider(), circuitOpen).freshness == 0 <==>
            LatestSuccess(h) < 0 || h[LatestSuccess(h)].outcome.value.freshness == 0
  {
    ProviderRefinesHistory(o, actions);
  }

  /**
   * A provider that has delivered and then fails: its DEGRADED answer still carries full freshness,
   * whatever the threshold and cooldown.
   */
  lemma DegradedAnswerCanCarrySignal(o: BreakerOptions)
    ensures var run := [StartCall(0), EndCall(0, Some(LIVE_RESULT), 0), StartCall(0)];
            var failure := EndCall(1, None, 0);
            && RunCalls(o, run).Some? && Enabled(RunCalls(o, run).value.x, BreakerAction(failure))
            && Answer(o, RunCalls(o, run).value, failure) ==
               Some(CallResult(false, DEGRADED, 100, REAL, FellBack(false, Some(0))))
  {
    var r1, r2 := [StartCall(0)], [StartCall(0), EndCall(0, Some(LIVE_RESULT), 0)];
    var r3 := r2 + [StartCall(0)];
    var nobody: set<nat> := {};
    assert r1[..0] == [] && r2[..1] == r1 && r3[..2] == r2;
    assert nobody + {0} == {0} && {0} - {0} == nobody;
    assert RunCalls(o, r1) == Some(Calls(Execution(FRESH, {0}, 1, 0), None, None));
    assert RunCalls(o, r2) == Some(Calls(Execution(FRESH, {}, 1, 0), Some(LIVE_RESULT), Some(0)));
    assert r3 == [StartCall(0), EndCall(0, Some(LIVE_RESULT), 0), StartCall(0)];
  }

  /** Every call of the run that ends, ends as the fixture network makes it for these credentials. */
  predicate OnFixtureNetwork(actions: seq<CallAction>, credentials: Option<Credentials>) {
    forall i :: 0 <= i < |actions| && actions[i].EndCall? ==> actions[i].outcome == AfterRetries(credentials)
  }

  lemma {:induction false} FixtureState(o: BreakerOptions, actions: seq<CallAction>, credentials: Option<Credentials>)
    requires RunCalls(o, actions).Some? && OnFixtureNetwork(actions, credentials)
    ensures var s := RunCalls(o, actions).value;
            if AfterRetries(credentials).Some? then s.x.breaker == FRESH
            else s.lastSuccess.None? && s.lastSuccessAt.None?
  {
    if actions != [] {
      FixtureState(o, actions[..|actions| - 1], credentials);
    }
  }

  /**
   * With the fixture network, whatever the credentials, no DEGRADED answer of any run carries a signal:
   * credentials that work never need one, and credentials that fail have nothing to fall back on.
   */
  lemma FixtureFallbackHasNoSignal(o: BreakerOptions, actions: seq<CallAction>, a: CallAction,
                                   credentials: Option<Credentials>)
    requires RunCalls(o, actions).Some? && Enabled(RunCalls(o, actions).value.x, BreakerAction(a))
    requires OnFixtureNetwork(actions + [a], credentials)
    ensures var answer := Answer(o, RunCalls(o, actions).value, a);
            answer.Some? && answer.value.mode == DEGRADED ==>
              !answer.value.delivered && answer.value.freshness == 0 && answer.value.reliability == MOCK
  {
    assert (actions + [a])[|actions|] == a;
    forall i | 0 <= i < |actions|
      ensures (actions + [a])[i] == actions[i]
    {
    }
    FixtureState(o, actions, credentials);
  }
}
