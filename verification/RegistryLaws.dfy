/** Cache coherence, the INTEGRATION_BLOCKED events of broadcasts and the circuit-tripping simulation scenario. */
module RegistryLaws {
  import opened Common
  import opened CircuitBreakers
  import opened Providers
  import opened Registries
  import opened BlockedReports

  // ---- Cache coherence over every sequence of atomic operations ----

  datatype RegistryOp =
    | Configure(tenant: TenantId, key: IntegrationKey, credentials: Credentials, iv: int, at: int)
    | UpdateStatus(tenant: TenantId, key: IntegrationKey, status: ConfigStatus, at: int)
    | Remove(tenant: TenantId, key: IntegrationKey)
    | GetProvider(tenant: TenantId, key: IntegrationKey)
    | ListAll(tenant: TenantId)
    | Notify(broadcast: Broadcast)

  function Apply(r: Registry, op: RegistryOp): Registry {
    match op
    case Configure(t, k, credentials, iv, at) => Configured(r, t, k, credentials, iv, at)
    case UpdateStatus(t, k, status, at) => StatusUpdated(r, t, k, status, at)
    case Remove(t, k) => Removed(r, t, k)
    case GetProvider(t, k) => WithProvider(r, t, k)
    case ListAll(t) => WithProviders(r, t, 10)
    case Notify(b) => AfterBroadcast(r, b)
  }

  function ApplyAll(r: Registry, ops: seq<RegistryOp>): Registry {
    if ops == [] then r else Apply(ApplyAll(r, ops[..|ops| - 1]), ops[|ops| - 1])
  }

  /** Every cached provider is the provider that would be built now, up to its breaker and last success. */
  predicate CoherentEntry(r: Registry, t: TenantId, k: IntegrationKey) {
    Entry(r, t, k).key == k && Entry(r, t, k).credentials == LoadCredentials(r.configs, t, k)
  }

  ghost predicate Coherent(r: Registry) {
    forall t, k :: CoherentEntry(r, t, k)
  }

  lemma InvalidatedEntry(r: Registry, u: TenantId, j: IntegrationKey, t: TenantId, k: IntegrationKey)
    ensures Entry(Invalidated(r, u, j), t, k) ==
            if t == u && k == j then Cached(k, LoadCredentials(r.configs, t, k), NEW_PROVIDER)
            else Entry(r, t, k)
  {
    if CacheKey(t, k) == CacheKey(u, j) {
      CacheKeyIsInjective(t, k, u, j);
    }
  }

  lemma BuildingKeepsEntry(r: Registry, u: TenantId, j: IntegrationKey, t: TenantId, k: IntegrationKey)
    ensures Entry(WithProvider(r, u, j), t, k) == Entry(r, t, k)
  {
    if CacheKey(t, k) == CacheKey(u, j) {
      CacheKeyIsInjective(t, k, u, j);
    }
  }

  lemma RowWriteEntry(r: Registry, u: TenantId, j: IntegrationKey, row: Config, t: TenantId, k: IntegrationKey)
    ensures Entry(WithRow(r, u, j, row), t, k) ==
            if t == u && k == j
            then Cached(k, LoadCredentials(WithRow(r, u, j, row).configs, t, k), NEW_PROVIDER)
            else Entry(r, t, k)
  {
    var written := r.(configs := r.configs[(u, j) := row]);
    InvalidatedEntry(written, u, j, t, k);
    BuildingKeepsEntry(Invalidated(written, u, j), u, j, t, k);
  }

  lemma CoherenceKept(r: Registry, op: RegistryOp)
    requires Coherent(r)
    ensures Coherent(Apply(r, op))
  {
    forall t, k
      ensures CoherentEntry(Apply(r, op), t, k)
    {
      assert CoherentEntry(r, t, k);
      match op
      case Configure(u, j, credentials, iv, at) =>
        RowWriteEntry(r, u, j, Config(Sealed(iv, credentials), ACTIVE, at), t, k);
      case UpdateStatus(u, j, status, at) =>
        if (u, j) in r.configs {
          RowWriteEntry(r, u, j, r.configs[(u, j)].(status := status, updatedAt := at), t, k);
        }
      case Remove(u, j) => InvalidatedEntry(r.(configs := r.configs - {(u, j)}), u, j, t, k);
      case GetProvider(u, j) => BuildingKeepsEntry(r, u, j, t, k);
      case ListAll(u) => WithProvidersEntry(r, u, 10, t, k);
      case Notify(b) => BroadcastEntry(r, b, t, k);
    }
  }

  /** From a server start (empty cache, any rows) no sequence of operations leaves a stale provider. */
  lemma {:induction false} AlwaysCoherent(configs: map<(TenantId, IntegrationKey), Config>, ops: seq<RegistryOp>)
    ensures Coherent(ApplyAll(Registry(configs, map[]), ops))
  {
    if ops == [] {
      forall t, k
        ensures CoherentEntry(Registry(configs, map[]), t, k)
      {
      }
    } else {
      AlwaysCoherent(configs, ops[..|ops| - 1]);
      CoherenceKept(ApplyAll(Registry(configs, map[]), ops[..|ops| - 1]), ops[|ops| - 1]);
    }
  }

  /**
   * In every reachable state a summary says configured iff the row is ACTIVE and can be decrypted, and shows the
   * row's status and time and the circuit of the tenant's provider.
   */
  lemma SummaryIsTruthful(configs: map<(TenantId, IntegrationKey), Config>, ops: seq<RegistryOp>,
                          t: TenantId, k: IntegrationKey, now: int)
    ensures var r := ApplyAll(Registry(configs, map[]), ops);
            var s := SummaryOf(r, t, k, now);
            && s.key == k
            && (s.configured <==> (t, k) in r.configs && s.status == Some(ACTIVE)
                                  && r.configs[(t, k)].encryptedCredentials.Sealed?)
            && (s.configured ==> Entry(r, t, k).credentials ==
                                 Some(r.configs[(t, k)].encryptedCredentials.credentials))
            && (if (t, k) in r.configs
                then s.status == Some(r.configs[(t, k)].status) && s.updatedAt == Some(r.configs[(t, k)].updatedAt)
                else s.status == None && s.updatedAt == None)
            && s.circuitState == Observed(BREAKER_DEFAULTS, Entry(r, t, k).provider.breaker, now)
  {
    AlwaysCoherent(configs, ops);
    assert CoherentEntry(ApplyAll(Registry(configs, map[]), ops), t, k);
  }

  /** A listing has one summary for each of the ten keys, in their order. */
  lemma {:induction false} SummariesInKeyOrder(r: Registry, t: TenantId, n: nat, now: int)
    requires n <= 10
    ensures |SummariesOf(r, t, n, now)| == n
    ensures forall i :: 0 <= i < n ==> SummariesOf(r, t, n, now)[i] == SummaryOf(r, t, KeyAt(i), now)
  {
    if n > 0 {
      SummariesInKeyOrder(r, t, n - 1, now);
    }
  }

  // ---- INTEGRATION_BLOCKED events of broadcasts ----

  function BroadcastAll(r: Registry, bs: seq<Broadcast>): Registry {
    if bs == [] then r else AfterBroadcast(BroadcastAll(r, bs[..|bs| - 1]), bs[|bs| - 1])
  }

  function EventLog(r: Registry, bs: seq<Broadcast>): seq<BlockedEvent> {
    if bs == [] then []
    else EventLog(r, bs[..|bs| - 1]) + BroadcastEvents(BroadcastAll(r, bs[..|bs| - 1]), bs[|bs| - 1])
  }

  function CountFor(events: seq<BlockedEvent>, t: TenantId, k: IntegrationKey): nat {
    |Filter(events, (e: BlockedEvent) => e.tenant == t && e.key == k)|
  }

  /** The calls that a sequence of broadcasts makes to the provider of tenant `t` and key `k`. */
  function CallsTo(bs: seq<Broadcast>, t: TenantId, k: IntegrationKey, outcome: Option<CallResult>): seq<TimedCall> {
    if bs == [] then []
    else
      var b := bs[|bs| - 1];
      CallsTo(bs[..|bs| - 1], t, k, outcome) +
      if b.tenant == t then [TimedCall(b.beginAt, outcome, b.ends(k))] else []
  }

  lemma CountStep(events: seq<BlockedEvent>, c: Cached, b: Broadcast, t: TenantId, k: IntegrationKey)
    ensures CountFor(events + EventOf(c, b), t, k) ==
            CountFor(events, t, k) + if t == b.tenant && c.key == k && Blocks(c, b) then 1 else 0
  {
    if Blocks(c, b) {
      FilterAppend(events, EventOf(c, b)[0], (e: BlockedEvent) => e.tenant == t && e.key == k);
    } else {
      assert events + EventOf(c, b) == events;
    }
  }

  lemma {:induction false} EventsOfOneBroadcast(r: Registry, b: Broadcast, n: nat, t: TenantId, k: IntegrationKey)
    requires n <= 10 && Coherent(r)
    ensures CountFor(EventsOf(r, b, n), t, k) ==
            if t == b.tenant && Index(k) < n && Blocks(Entry(r, t, k), b) then 1 else 0
  {
    if n > 0 {
      var j := KeyAt(n - 1);
      EventsOfOneBroadcast(r, b, n - 1, t, k);
      KeysAreDistinct(Index(j), n - 1);
      assert CoherentEntry(r, b.tenant, j);
      CountStep(EventsOf(r, b, n - 1), Entry(r, b.tenant, j), b, t, k);
      assert EventsOf(r, b, n) == EventsOf(r, b, n - 1) + EventOf(Entry(r, b.tenant, j), b);
    }
  }

  lemma EventsOfBroadcast(r: Registry, b: Broadcast, t: TenantId, k: IntegrationKey)
    requires Coherent(r)
    ensures CountFor(BroadcastEvents(r, b), t, k) == if t == b.tenant && Blocks(Entry(r, t, k), b) then 1 else 0
  {
    CoherenceKept(r, ListAll(b.tenant));
    WithProvidersEntry(r, b.tenant, 10, t, k);
    EventsOfOneBroadcast(WithProviders(r, b.tenant, 10), b, 10, t, k);
  }

  lemma {:induction false} BroadcastsKeepCoherence(r: Registry, bs: seq<Broadcast>)
    requires Coherent(r)
    ensures Coherent(BroadcastAll(r, bs))
  {
    if bs != [] {
      BroadcastsKeepCoherence(r, bs[..|bs| - 1]);
      CoherenceKept(BroadcastAll(r, bs[..|bs| - 1]), Notify(bs[|bs| - 1]));
    }
  }

  lemma CallsToStep(bs: seq<Broadcast>, b: Broadcast, t: TenantId, k: IntegrationKey, outcome: Option<CallResult>)
    ensures var calls := CallsTo(bs, t, k, outcome);
            CallsTo(bs + [b], t, k, outcome) ==
            if b.tenant == t then calls + [TimedCall(b.beginAt, outcome, b.ends(k))] else calls
  {
  }

  /** A cached provider after these calls, and how often they are reported. */
  function Driven(c: Cached, calls: seq<TimedCall>): Cached {
    c.(provider := Drive(BREAKER_DEFAULTS, c.provider, calls))
  }

  function ReportsOf(c: Cached, calls: seq<TimedCall>): nat {
    Reports(BREAKER_DEFAULTS, c.provider, calls)
  }

  /** A broadcast is one more call. */
  lemma DriveStep(c: Cached, calls: seq<TimedCall>, b: Broadcast)
    ensures var more := calls + [TimedCall(b.beginAt, AfterRetries(c.credentials), b.ends(c.key))];
            && Driven(c, more) == Notified(Driven(c, calls), b)
            && ReportsOf(c, more) == ReportsOf(c, calls) + if Blocks(Driven(c, calls), b) then 1 else 0
  {
  }

  /** One provider of tenant `t` through a sequence of broadcasts, and the reports it causes. */
  function NotifiedAll(c: Cached, bs: seq<Broadcast>, t: TenantId): Cached {
    if bs == [] then c
    else
      var before, b := NotifiedAll(c, bs[..|bs| - 1], t), bs[|bs| - 1];
      if b.tenant == t then Notified(before, b) else before
  }

  function ReportsIn(c: Cached, bs: seq<Broadcast>, t: TenantId): nat {
    if bs == [] then 0
    else
      var b := bs[|bs| - 1];
      ReportsIn(c, bs[..|bs| - 1], t) +
      if b.tenant == t && Blocks(NotifiedAll(c, bs[..|bs| - 1], t), b) then 1 else 0
  }

  /** The provider sees these broadcasts as a sequence of calls with a fixed outcome. */
  lemma {:induction false} NotifiedIsDriven(c: Cached, bs: seq<Broadcast>, t: TenantId)
    ensures var calls := CallsTo(bs, t, c.key, AfterRetries(c.credentials));
            NotifiedAll(c, bs, t) == Driven(c, calls) && ReportsIn(c, bs, t) == ReportsOf(c, calls)
  {
    if bs != [] {
      var front, b := bs[..|bs| - 1], bs[|bs| - 1];
      NotifiedIsDriven(c, front, t);
      assert bs == front + [b];
      CallsToStep(front, b, t, c.key, AfterRetries(c.credentials));
      if b.tenant == t {
        DriveStep(c, CallsTo(front, t, c.key, AfterRetries(c.credentials)), b);
      }
    }
  }

  lemma {:induction false} BroadcastsDriveEntry(r: Registry, bs: seq<Broadcast>, t: TenantId, k: IntegrationKey)
    ensures Entry(BroadcastAll(r, bs), t, k) == NotifiedAll(Entry(r, t, k), bs, t)
  {
    if bs != [] {
      BroadcastsDriveEntry(r, bs[..|bs| - 1], t, k);
      BroadcastEntry(BroadcastAll(r, bs[..|bs| - 1]), bs[|bs| - 1], t, k);
    }
  }

  lemma EntryKey(r: Registry, t: TenantId, k: IntegrationKey)
    requires Coherent(r)
    ensures Entry(r, t, k).key == k
  {
    assert CoherentEntry(r, t, k);
  }

  lemma EventLogStep(r: Registry, bs: seq<Broadcast>, b: Broadcast, t: TenantId, k: IntegrationKey)
    requires Coherent(r)
    ensures CountFor(EventLog(r, bs + [b]), t, k) ==
            CountFor(EventLog(r, bs), t, k) +
            if t == b.tenant && Blocks(Entry(BroadcastAll(r, bs), t, k), b) then 1 else 0
  {
    assert (bs + [b])[..|bs|] == bs;
    BroadcastsKeepCoherence(r, bs);
    EventsOfBroadcast(BroadcastAll(r, bs), b, t, k);
    FilterConcat(EventLog(r, bs), BroadcastEvents(BroadcastAll(r, bs), b),
                 (e: BlockedEvent) => e.tenant == t && e.key == k);
  }

  lemma ReportsInStep(c: Cached, bs: seq<Broadcast>, b: Broadcast, t: TenantId)
    ensures ReportsIn(c, bs + [b], t) ==
            ReportsIn(c, bs, t) + if t == b.tenant && Blocks(NotifiedAll(c, bs, t), b) then 1 else 0
  {
  }

  predicate EventsMatchReports(r: Registry, bs: seq<Broadcast>, t: TenantId, k: IntegrationKey) {
    CountFor(EventLog(r, bs), t, k) == ReportsIn(Entry(r, t, k), bs, t)
  }

  lemma EventsMatchReportsStep(r: Registry, bs: seq<Broadcast>, b: Broadcast, t: TenantId, k: IntegrationKey)
    requires Coherent(r) && EventsMatchReports(r, bs, t, k)
    ensures EventsMatchReports(r, bs + [b], t, k)
  {
    BroadcastsDriveEntry(r, bs, t, k);
    EventLogStep(r, bs, b, t, k);
    ReportsInStep(Entry(r, t, k), bs, b, t);
  }

  lemma {:induction false} BroadcastsReport(r: Registry, bs: seq<Broadcast>, t: TenantId, k: IntegrationKey)
    requires Coherent(r)
    ensures EventsMatchReports(r, bs, t, k)
  {
    if bs != [] {
      var front := bs[..|bs| - 1];
      BroadcastsReport(r, front, t, k);
      EventsMatchReportsStep(r, front, bs[|bs| - 1], t, k);
      assert bs == front + [bs[|bs| - 1]];
    }
  }

  /**
   * In every run of non-overlapping broadcasts of any tenants, the INTEGRATION_BLOCKED events of one
   * provider are exactly as many as its breaker's moves into OPEN.
   */
  lemma BlockedEventsEqualOpenings(r: Registry, bs: seq<Broadcast>, t: TenantId, k: IntegrationKey, h: seq<Completion>)
    requires Coherent(r) && Entry(r, t, k).provider.breaker == FromHistory(BREAKER_DEFAULTS, h)
    ensures var o := BREAKER_DEFAULTS;
            var h' := Settlements(o, h, CallsTo(bs, t, k, AfterRetries(Entry(r, t, k).credentials)));
            && Entry(BroadcastAll(r, bs), t, k).provider.breaker == FromHistory(o, h')
            && CountFor(EventLog(r, bs), t, k) == Openings(o, h') - Openings(o, h)
  {
    var e := Entry(r, t, k);
    EntryKey(r, t, k);
    BroadcastsDriveEntry(r, bs, t, k);
    BroadcastsReport(r, bs, t, k);
    NotifiedIsDriven(e, bs, t);
    var calls := CallsTo(bs, t, k, AfterRetries(e.credentials));
    OneReportPerOpening(BREAKER_DEFAULTS, e.provider, h, calls);
    DriveFollowsHistory(BREAKER_DEFAULTS, e.provider, h, calls);
  }

  // ---- The simulation scenario that drives DATADOG to OPEN ----

  function AttemptsTo(r: Registry, bs: seq<Broadcast>, t: TenantId, k: IntegrationKey): nat {
    if bs == [] then 0
    else
      var n := |bs| - 1;
      AttemptsTo(r, bs[..n], t, k) +
      if bs[n].tenant == t then AttemptsOf(Entry(BroadcastAll(r, bs[..n]), t, k), bs[n]) else 0
  }

  /** State, attempts and reports of the scenario's provider after its first `n` broadcasts. */
  predicate Tripping(r: Registry, bs: seq<Broadcast>, t: TenantId, payload: string) {
    && |bs| <= 3
    && Entry(r, t, DATADOG) == Cached(DATADOG, Some(Credentials(true, payload)), NEW_PROVIDER)
    && forall i :: 0 <= i < |bs| ==> bs[i].tenant == t
  }

  function TrippingBreaker(bs: seq<Broadcast>): Breaker
    requires |bs| <= 3
  {
    if |bs| < 3 then Breaker(CLOSED, |bs|, None) else Breaker(OPEN, 3, Some(bs[2].ends(DATADOG)))
  }

  lemma FailingCall(c: Cached, b: Broadcast, n: nat)
    requires n < 3 && c.key == DATADOG && c.provider.breaker == Breaker(CLOSED, n, None)
    requires c.credentials.Some? && c.credentials.value.simulateFailure
    ensures Notified(c, b).provider.breaker ==
            if n < 2 then Breaker(CLOSED, n + 1, None) else Breaker(OPEN, 3, Some(b.ends(DATADOG)))
    ensures AttemptsOf(c, b) == 3
    ensures Blocks(c, b) <==> n == 2
  {
  }

  /** The scenario's provider after its first broadcasts. */
  lemma {:induction false} TrippingState(r: Registry, bs: seq<Broadcast>, t: TenantId, payload: string)
    requires Coherent(r) && Tripping(r, bs, t, payload)
    ensures var e := Entry(BroadcastAll(r, bs), t, DATADOG);
            && e.key == DATADOG && e.credentials == Some(Credentials(true, payload))
            && e.provider.breaker == TrippingBreaker(bs)
  {
    if bs != [] {
      var n := |bs| - 1;
      TrippingState(r, bs[..n], t, payload);
      var mid := BroadcastAll(r, bs[..n]);
      BroadcastEntry(mid, bs[n], t, DATADOG);
      FailingCall(Entry(mid, t, DATADOG), bs[n], n);
    }
  }

  lemma {:induction false} TrippingAttempts(r: Registry, bs: seq<Broadcast>, t: TenantId, payload: string)
    requires Coherent(r) && Tripping(r, bs, t, payload)
    ensures AttemptsTo(r, bs, t, DATADOG) == 3 * |bs|
  {
    if bs != [] {
      var front, b := bs[..|bs| - 1], bs[|bs| - 1];
      TrippingAttempts(r, front, t, payload);
      TrippingState(r, front, t, payload);
      FailingCall(Entry(BroadcastAll(r, front), t, DATADOG), b, |front|);
    }
  }

  lemma {:induction false} TrippingReports(r: Registry, bs: seq<Broadcast>, t: TenantId, payload: string)
    requires Coherent(r) && Tripping(r, bs, t, payload)
    ensures CountFor(EventLog(r, bs), t, DATADOG) == if |bs| < 3 then 0 else 1
  {
    if bs != [] {
      var front, b := bs[..|bs| - 1], bs[|bs| - 1];
      TrippingReports(r, front, t, payload);
      TrippingState(r, front, t, payload);
      FailingCall(Entry(BroadcastAll(r, front), t, DATADOG), b, |front|);
      assert bs == front + [b];
      EventLogStep(r, front, b, t, DATADOG);
    }
  }

  /**
   * Whatever the registry held, configuring DATADOG to fail and broadcasting three times leaves it
   * CLOSED after the first two and OPEN after the third, at the cost of nine network attempts and one
   * INTEGRATION_BLOCKED event, raised by the third broadcast.
   */
  lemma ScenarioTripsDatadog(r: Registry, t: TenantId, payload: string, iv: int, at: int, bs: seq<Broadcast>)
    requires Coherent(r) && |bs| == 3
    requires forall i :: 0 <= i < 3 ==> bs[i].tenant == t
    ensures var start := Configured(r, t, DATADOG, Credentials(true, payload), iv, at);
            && (forall n, now: int :: 0 <= n < 3 ==>
                  Observed(BREAKER_DEFAULTS, Entry(BroadcastAll(start, bs[..n]), t, DATADOG).provider.breaker, now) == CLOSED)
            && (forall now :: Observed(BREAKER_DEFAULTS, Entry(BroadcastAll(start, bs), t, DATADOG).provider.breaker, now) ==
                              if now - bs[2].ends(DATADOG) < 30_000 then OPEN else HALF_OPEN)
            && AttemptsTo(start, bs, t, DATADOG) == 9
            && CountFor(EventLog(start, bs[..2]), t, DATADOG) == 0
            && CountFor(EventLog(start, bs), t, DATADOG) == 1
  {
    var start := Configured(r, t, DATADOG, Credentials(true, payload), iv, at);
    ScenarioStart(r, t, payload, iv, at);
    forall n | 0 <= n < 3
      ensures Entry(BroadcastAll(start, bs[..n]), t, DATADOG).provider.breaker == Breaker(CLOSED, n, None)
    {
      TrippingState(start, bs[..n], t, payload);
    }
    TrippingState(start, bs, t, payload);
    TrippingAttempts(start, bs, t, payload);
    TrippingReports(start, bs[..2], t, payload);
    TrippingReports(start, bs, t, payload);
  }

  lemma ScenarioStart(r: Registry, t: TenantId, payload: string, iv: int, at: int)
    requires Coherent(r)
    ensures var start := Configured(r, t, DATADOG, Credentials(true, payload), iv, at);
            && Coherent(start)
            && Entry(start, t, DATADOG) == Cached(DATADOG, Some(Credentials(true, payload)), NEW_PROVIDER)
  {
    CoherenceKept(r, Configure(t, DATADOG, Credentials(true, payload), iv, at));
    RowWriteEntry(r, t, DATADOG, Config(Sealed(iv, Credentials(true, payload)), ACTIVE, at), t, DATADOG);
  }
}
