/** The registry service as it runs: a mutable table, a mutable cache of provider objects, and its callers. */
module RegistryService {
  import opened Common
  import opened CircuitBreakers
  import opened Providers
  import opened Registries
  import opened RegistryLaws

  /** The i-th provider is cached when its turn comes, and nothing has happened to it yet. */
  lemma NextProvider(r: Registry, b: Broadcast, i: nat)
    requires i < 10
    ensures var present := WithProviders(r, b.tenant, 10);
            && CacheKey(b.tenant, KeyAt(i)) in NotifyAll(present, b, i).cache
            && Entry(NotifyAll(present, b, i), b.tenant, KeyAt(i)) == Entry(present, b.tenant, KeyAt(i))
  {
    var present := WithProviders(r, b.tenant, 10);
    KeysAreDistinct(Index(KeyAt(i)), i);
    WithProvidersEntry(r, b.tenant, 10, b.tenant, KeyAt(i));
    NotifyAllEntry(present, b, i, b.tenant, KeyAt(i));
  }

  /** What a broadcast does with one provider: call it, and report if that opened its circuit. */
  method NotifyProvider(p: ResilientIntegrationProvider, b: Broadcast) returns (events: seq<BlockedEvent>)
    requires p.Valid() && p.circuitBreaker.options == BREAKER_DEFAULTS && p.retryOptions == RETRY_DEFAULTS
    modifies p, p.circuitBreaker
    ensures p.Valid()
    ensures var c := Cached(p.key, p.credentials, old(p.Fields()));
            Cached(p.key, p.credentials, p.Fields()) == Notified(c, b) && events == EventOf(c, b)
  {
    var stateBefore := p.circuitBreaker.GetState(b.beginAt);
    var result := p.Notify(b.beginAt, b.ends(p.key));
    var stateAfter := p.circuitBreaker.GetState(b.ends(p.key));
    events := [];
    if stateBefore != OPEN && stateAfter == OPEN {
      events := [BlockedEvent(b.tenant, b.incident, p.key, result)];
    }
  }

  class IntegrationsRegistry {
    ghost var Contents: Registry  // what the table and the provider objects amount to
    ghost var Repr: set<object>   // the provider and breaker objects

    var configs: map<(TenantId, IntegrationKey), Config>
    var providerCache: map<string, ResilientIntegrationProvider>

    /** The cache holds what `Contents` says, and no two entries share a provider or a breaker. */
    ghost predicate Valid()
      reads this, Repr
    {
      && this !in Repr
      && Contents.configs == configs
      && Contents.cache.Keys == providerCache.Keys
      && (forall s :: s in providerCache ==> Holds(providerCache[s], Contents.cache[s]))
      && (forall s, s' :: s in providerCache && s' in providerCache && s != s' ==>
            && providerCache[s] != providerCache[s']
            && providerCache[s].circuitBreaker != providerCache[s'].circuitBreaker)
    }

    ghost predicate Holds(p: ResilientIntegrationProvider, c: Cached)
      reads this, Repr
    {
      && p in Repr && p.circuitBreaker in Repr && p.Valid()
      && p.circuitBreaker.options == BREAKER_DEFAULTS && p.retryOptions == RETRY_DEFAULTS
      && c == Cached(p.key, p.credentials, p.Fields())
    }

    constructor (configs: map<(TenantId, IntegrationKey), Config>)
      ensures Valid() && Contents == Registry(configs, map[]) && Repr == {}
    {
      this.configs := configs;
      providerCache := map[];
      Contents, Repr := Registry(configs, map[]), {};
    }

    method GetProvider(t: TenantId, k: IntegrationKey) returns (p: ResilientIntegrationProvider)
      requires Valid()
      modifies this
      ensures Valid() && Repr >= old(Repr) && fresh(Repr - old(Repr))
      ensures Contents == WithProvider(old(Contents), t, k)
      ensures CacheKey(t, k) in providerCache && providerCache[CacheKey(t, k)] == p
      ensures Holds(p, Entry(old(Contents), t, k))
    {
      var cacheKey := CacheKey(t, k);
      if cacheKey in providerCache {
        return providerCache[cacheKey];
      }
      var credentials := ReadCredentials(t, k);
      p := new ResilientIntegrationProvider(k, credentials, BREAKER_DEFAULTS, RETRY_DEFAULTS);
      Insert(cacheKey, p);
    }

    /** `providerCache.set` of a provider object that nothing else holds. */
    method Insert(cacheKey: string, p: ResilientIntegrationProvider)
      requires Valid() && cacheKey !in providerCache
      requires p !in Repr && p.circuitBreaker !in Repr && p.Valid()
      requires p.circuitBreaker.options == BREAKER_DEFAULTS && p.retryOptions == RETRY_DEFAULTS
      modifies this
      ensures Valid() && Repr == old(Repr) + {p, p.circuitBreaker}
      ensures providerCache == old(providerCache)[cacheKey := p]
      ensures Contents == old(Contents).(cache := old(Contents).cache[cacheKey := Cached(p.key, p.credentials, p.Fields())])
    {
      providerCache := providerCache[cacheKey := p];
      Contents := Contents.(cache := Contents.cache[cacheKey := Cached(p.key, p.credentials, p.Fields())]);
      Repr := Repr + {p, p.circuitBreaker};
    }

    method ReadCredentials(t: TenantId, k: IntegrationKey) returns (c: Option<Credentials>)
      ensures c == LoadCredentials(configs, t, k)
    {
      if (t, k) !in configs || configs[(t, k)].status != ACTIVE {
        return None;
      }
      c := Decrypt(configs[(t, k)].encryptedCredentials);
    }

    /** A write to the table that leaves the cache as it is: callers must invalidate it themselves. */
    method WriteRows(rows: map<(TenantId, IntegrationKey), Config>)
      requires Valid()
      modifies this
      ensures Valid() && Repr == old(Repr)
      ensures Contents == old(Contents).(configs := rows)
    {
      configs := rows;
      Contents := Contents.(configs := rows);
    }

    method Invalidate(t: TenantId, k: IntegrationKey)
      requires Valid()
      modifies this
      ensures Valid() && Repr == old(Repr)
      ensures Contents == Invalidated(old(Contents), t, k)
    {
      providerCache := providerCache - {CacheKey(t, k)};
      Contents := Invalidated(Contents, t, k);
    }

    method GetAllProviders(t: TenantId)
      requires Valid()
      modifies this
      ensures Valid() && Repr >= old(Repr) && fresh(Repr - old(Repr))
      ensures Contents == WithProviders(old(Contents), t, 10)
    {
      ghost var was := Contents;
      for i := 0 to 10
        invariant Valid() && Repr >= old(Repr) && fresh(Repr - old(Repr))
        invariant Contents == WithProviders(was, t, i)
      {
        GetNext(t, i, was);
      }
    }

    method GetNext(t: TenantId, i: nat, ghost was: Registry)
      requires Valid() && i < 10 && Contents == WithProviders(was, t, i)
      modifies this
      ensures Valid() && Repr >= old(Repr) && fresh(Repr - old(Repr))
      ensures Contents == WithProviders(was, t, i + 1)
    {
      var p := GetProvider(t, KeyAt(i));
    }

    /** One provider's part of a broadcast. */
    method NotifyOne(b: Broadcast, k: IntegrationKey) returns (events: seq<BlockedEvent>)
      requires Valid() && CacheKey(b.tenant, k) in Contents.cache
      modifies this, Repr
      ensures Valid() && Repr == old(Repr)
      ensures var s, c := CacheKey(b.tenant, k), old(Contents).cache[CacheKey(b.tenant, k)];
              && Contents == old(Contents).(cache := old(Contents).cache[s := Notified(c, b)])
              && events == EventOf(c, b)
    {
      var cacheKey := CacheKey(b.tenant, k);
      ghost var c := Contents.cache[cacheKey];
      events := NotifyProvider(providerCache[cacheKey], b);
      Contents := Contents.(cache := Contents.cache[cacheKey := Notified(c, b)]);
    }

    method Broadcast(b: Broadcast) returns (events: seq<BlockedEvent>)
      requires Valid()
      modifies this, Repr
      ensures Valid() && fresh(Repr - old(Repr))
      ensures Contents == AfterBroadcast(old(Contents), b)
      ensures events == BroadcastEvents(old(Contents), b)
    {
      GetAllProviders(b.tenant);
      ghost var present := Contents;
      events := [];
      for i := 0 to 10
        invariant Valid() && fresh(Repr - old(Repr))
        invariant present == WithProviders(old(Contents), b.tenant, 10)
        invariant Contents == NotifyAll(present, b, i)
        invariant events == EventsOf(present, b, i)
      {
        NextProvider(old(Contents), b, i);
        var more := NotifyOne(b, KeyAt(i));
        events := events + more;
      }
    }
  }

  /** Building other providers first does not change what a summary will say. */
  lemma SummariesBeforeBuilding(r: Registry, t: TenantId, i: nat, now: int)
    requires i < 10
    ensures WithProviders(r, t, i).configs == r.configs
    ensures SummaryFrom(Entry(WithProviders(r, t, i), t, KeyAt(i)), RowOf(r.configs, t, KeyAt(i)), now) ==
            SummaryOf(r, t, KeyAt(i), now)
  {
    WithProvidersEntry(r, t, i, t, KeyAt(i));
  }

  /** CRUD over a tenant's configuration rows; every write drops the cached provider. */
  class IntegrationConfigService {
    const registry: IntegrationsRegistry

    constructor (registry: IntegrationsRegistry)
      ensures this.registry == registry
    {
      this.registry := registry;
    }

    method Upsert(t: TenantId, k: IntegrationKey, row: Config, now: int) returns (s: Summary)
      requires registry.Valid()
      modifies registry
      ensures registry.Valid() && fresh(registry.Repr - old(registry.Repr))
      ensures registry.Contents == WithRow(old(registry.Contents), t, k, row)
      ensures s == Summary(k, LoadCredentials(registry.configs, t, k).Some?, Some(row.status), CLOSED, Some(row.updatedAt))
    {
      registry.WriteRows(registry.configs[(t, k) := row]);
      registry.Invalidate(t, k);
      s := ToSummary(t, k, Some(row), now);
    }

    method Configure(t: TenantId, k: IntegrationKey, credentials: Credentials, iv: int, now: int) returns (s: Summary)
      requires registry.Valid()
      modifies registry
      ensures registry.Valid() && fresh(registry.Repr - old(registry.Repr))
      ensures registry.Contents == Configured(old(registry.Contents), t, k, credentials, iv, now)
      ensures s == Summary(k, true, Some(ACTIVE), CLOSED, Some(now))
    {
      s := Upsert(t, k, Config(Sealed(iv, credentials), ACTIVE, now), now);
    }

    /** None is the source's NotFoundException. */
    method UpdateStatus(t: TenantId, k: IntegrationKey, status: ConfigStatus, now: int) returns (s: Option<Summary>)
      requires registry.Valid()
      modifies registry
      ensures registry.Valid() && fresh(registry.Repr - old(registry.Repr))
      ensures registry.Contents == StatusUpdated(old(registry.Contents), t, k, status, now)
      ensures s.Some? <==> (t, k) in old(registry.configs)
      ensures s.Some? ==> s.value == Summary(k, LoadCredentials(registry.configs, t, k).Some?, Some(status), CLOSED, Some(now))
    {
      if (t, k) !in registry.configs {
        return None;
      }
      var summary := Upsert(t, k, registry.configs[(t, k)].(status := status, updatedAt := now), now);
      s := Some(summary);
    }

    method Remove(t: TenantId, k: IntegrationKey)
      requires registry.Valid()
      modifies registry
      ensures registry.Valid() && registry.Repr == old(registry.Repr)
      ensures registry.Contents == Removed(old(registry.Contents), t, k)
    {
      registry.WriteRows(registry.configs - {(t, k)});
      registry.Invalidate(t, k);
    }

    method ListAll(t: TenantId, now: int) returns (summaries: seq<Summary>)
      requires registry.Valid()
      modifies registry
      ensures registry.Valid() && fresh(registry.Repr - old(registry.Repr))
      ensures registry.Contents == WithProviders(old(registry.Contents), t, 10)
      ensures summaries == SummariesOf(old(registry.Contents), t, 10, now)
    {
      ghost var was := registry.Contents;
      summaries := [];
      for i := 0 to 10
        invariant registry.Valid() && fresh(registry.Repr - old(registry.Repr))
        invariant registry.Contents == WithProviders(was, t, i)
        invariant summaries == SummariesOf(was, t, i, now)
      {
        var s := ListOne(t, i, now, was);
        summaries := summaries + [s];
      }
    }

    method ListOne(t: TenantId, i: nat, now: int, ghost was: Registry) returns (s: Summary)
      requires registry.Valid() && i < 10 && registry.Contents == WithProviders(was, t, i)
      modifies registry
      ensures registry.Valid() && registry.Repr >= old(registry.Repr)
      ensures fresh(registry.Repr - old(registry.Repr))
      ensures registry.Contents == WithProviders(was, t, i + 1)
      ensures s == SummaryOf(was, t, KeyAt(i), now)
    {
      SummariesBeforeBuilding(was, t, i, now);
      s := ToSummary(t, KeyAt(i), RowOf(registry.configs, t, KeyAt(i)), now);
    }

    method ToSummary(t: TenantId, k: IntegrationKey, row: Option<Config>, now: int) returns (s: Summary)
      requires registry.Valid()
      modifies registry
      ensures registry.Valid() && registry.Repr >= old(registry.Repr)
      ensures fresh(registry.Repr - old(registry.Repr))
      ensures registry.Contents == WithProvider(old(registry.Contents), t, k)
      ensures s == SummaryFrom(Entry(old(registry.Contents), t, k), row, now)
    {
      var provider := registry.GetProvider(t, k);
      var circuitState := provider.circuitBreaker.GetState(now);
      s := Summary(provider.key, provider.credentials.Some?, if row.Some? then Some(row.value.status) else None,
                   circuitState, if row.Some? then Some(row.value.updatedAt) else None);
    }
  }

  /** `tripCircuitBreaker`: three broadcasts in a row. */
  method TripCircuitBreaker(registry: IntegrationsRegistry, bs: seq<Broadcast>) returns (events: seq<BlockedEvent>)
    requires registry.Valid() && |bs| == 3
    modifies registry, registry.Repr
    ensures registry.Valid() && registry.Contents == BroadcastAll(old(registry.Contents), bs)
    ensures events == EventLog(old(registry.Contents), bs)
  {
    ghost var was := registry.Contents;
    events := [];
    for attempt := 0 to 3
      invariant registry.Valid() && fresh(registry.Repr - old(registry.Repr))
      invariant registry.Contents == BroadcastAll(was, bs[..attempt])
      invariant events == EventLog(was, bs[..attempt])
    {
      BroadcastAllStep(was, bs, attempt);
      var more := registry.Broadcast(bs[attempt]);
      events := events + more;
    }
    assert bs[..3] == bs;
  }

  lemma BroadcastAllStep(r: Registry, bs: seq<Broadcast>, n: nat)
    requires n < |bs|
    ensures BroadcastAll(r, bs[..n + 1]) == AfterBroadcast(BroadcastAll(r, bs[..n]), bs[n])
    ensures EventLog(r, bs[..n + 1]) == EventLog(r, bs[..n]) + BroadcastEvents(BroadcastAll(r, bs[..n]), bs[n])
  {
    assert bs[..n + 1][..n] == bs[..n];
  }

  /** The scenario as it runs: configure DATADOG to fail, then trip its breaker. */
  method DriveDatadogOpen(registry: IntegrationsRegistry, t: TenantId, iv: int, at: int, bs: seq<Broadcast>)
    returns (events: seq<BlockedEvent>)
    requires registry.Valid() && Coherent(registry.Contents)
    requires |bs| == 3 && forall i :: 0 <= i < 3 ==> bs[i].tenant == t
    modifies registry, registry.Repr
    ensures registry.Valid() && Coherent(registry.Contents)
    ensures Entry(registry.Contents, t, DATADOG).provider.breaker == Breaker(OPEN, 3, Some(bs[2].ends(DATADOG)))
    ensures CountFor(events, t, DATADOG) == 1
  {
    var configService := new IntegrationConfigService(registry);
    ghost var was := registry.Contents;
    var summary := configService.Configure(t, DATADOG, Credentials(true, ""), iv, at);
    ghost var start := registry.Contents;
    events := TripCircuitBreaker(registry, bs);
    ScenarioStart(was, t, "", iv, at);
    BroadcastsKeepCoherence(start, bs);
    TrippingState(start, bs, t, "");
    TrippingReports(start, bs, t, "");
  }
}
