/** The per-tenant integration configuration, the provider cache that follows it, and broadcasting. */
module Registries {
  import opened Common
  import opened CircuitBreakers
  import opened Providers

  type TenantId = string
  type Id = string

  datatype ConfigStatus = ACTIVE | BROKEN

  /** A sealed blob opens to what was sealed; anything else fails to decrypt. */
  datatype Ciphertext = Sealed(iv: int, credentials: Credentials) | Malformed

  datatype Config = Config(encryptedCredentials: Ciphertext, status: ConfigStatus, updatedAt: int)

  /** The fields of one cached provider. */
  datatype Cached = Cached(key: IntegrationKey, credentials: Option<Credentials>, provider: Provider)

  datatype Registry = Registry(configs: map<(TenantId, IntegrationKey), Config>, cache: map<string, Cached>)

  datatype Summary = Summary(key: IntegrationKey, configured: bool, status: Option<ConfigStatus>,
                             circuitState: CircuitState, updatedAt: Option<int>)

  datatype BlockedEvent = BlockedEvent(tenant: TenantId, incident: Id, key: IntegrationKey, result: CallResult)

  /** The i-th of the ten keys, in the order they are declared. */
  function KeyAt(i: nat): IntegrationKey
    requires i < 10
  {
    if i == 0 then SERVICENOW
    else if i == 1 then JIRA
    else if i == 2 then SLACK
    else if i == 3 then TEAMS
    else if i == 4 then AWS
    else if i == 5 then AZURE
    else if i == 6 then GCP
    else if i == 7 then SPLUNK
    else if i == 8 then DATADOG
    else MICROSOFT_SENTINEL
  }

  function KeyName(k: IntegrationKey): string {
    match k
    case SERVICENOW => "SERVICENOW"
    case JIRA => "JIRA"
    case SLACK => "SLACK"
    case TEAMS => "TEAMS"
    case AWS => "AWS"
    case AZURE => "AZURE"
    case GCP => "GCP"
    case SPLUNK => "SPLUNK"
    case DATADOG => "DATADOG"
    case MICROSOFT_SENTINEL => "MICROSOFT_SENTINEL"
  }

  function CacheKey(t: TenantId, k: IntegrationKey): string {
    t + ":" + KeyName(k)
  }

  /** Position of `k` among the keys. */
  function Index(k: IntegrationKey): (i: nat)
    ensures i < 10 && KeyAt(i) == k
  {
    match k
    case SERVICENOW => 0
    case JIRA => 1
    case SLACK => 2
    case TEAMS => 3
    case AWS => 4
    case AZURE => 5
    case GCP => 6
    case SPLUNK => 7
    case DATADOG => 8
    case MICROSOFT_SENTINEL => 9
  }

  lemma KeysAreDistinct(i: nat, j: nat)
    requires i < 10 && j < 10 && KeyAt(i) == KeyAt(j)
    ensures i == j
  {
  }

  lemma KeyNamesDiffer(k: IntegrationKey, k': IntegrationKey)
    requires KeyName(k) == KeyName(k')
    ensures k == k'
  {
  }

  lemma LastColon(t: TenantId, k: IntegrationKey)
    ensures var s := CacheKey(t, k);
            |t| < |s| && s[|t|] == ':' && forall i :: |t| < i < |s| ==> s[i] != ':'
  {
  }

  /** A tenant id may itself contain colons; the last colon of the cache key still separates the two. */
  lemma CacheKeyIsInjective(t: TenantId, k: IntegrationKey, t': TenantId, k': IntegrationKey)
    requires CacheKey(t, k) == CacheKey(t', k')
    ensures t == t' && k == k'
  {
    LastColon(t, k);
    LastColon(t', k');
    assert |t| == |t'|;
    var s, s' := CacheKey(t, k), CacheKey(t', k');
    assert s[..|t|] == t && s'[..|t'|] == t';
    assert s[|t| + 1..] == KeyName(k) && s'[|t'| + 1..] == KeyName(k');
    KeyNamesDiffer(k, k');
  }

  // ---- Configuration rows and the cache ----

  function Decrypt(c: Ciphertext): Option<Credentials> {
    if c.Sealed? then Some(c.credentials) else None
  }

  /** The credentials a provider built now would get: those of an ACTIVE, readable row, else none. */
  function LoadCredentials(configs: map<(TenantId, IntegrationKey), Config>, t: TenantId, k: IntegrationKey)
    : Option<Credentials>
  {
    if (t, k) !in configs || configs[(t, k)].status != ACTIVE then None
    else Decrypt(configs[(t, k)].encryptedCredentials)
  }

  /** `getProvider`: the cached provider, or a new one built from the current row. */
  function WithProvider(r: Registry, t: TenantId, k: IntegrationKey): Registry {
    if CacheKey(t, k) in r.cache then r
    else r.(cache := r.cache[CacheKey(t, k) := Cached(k, LoadCredentials(r.configs, t, k), NEW_PROVIDER)])
  }

  function Invalidated(r: Registry, t: TenantId, k: IntegrationKey): Registry {
    r.(cache := r.cache - {CacheKey(t, k)})
  }

  function WithRow(r: Registry, t: TenantId, k: IntegrationKey, row: Config): Registry {
    WithProvider(Invalidated(r.(configs := r.configs[(t, k) := row]), t, k), t, k)
  }

  function Configured(r: Registry, t: TenantId, k: IntegrationKey, credentials: Credentials, iv: int, now: int): Registry {
    WithRow(r, t, k, Config(Sealed(iv, credentials), ACTIVE, now))
  }

  function StatusUpdated(r: Registry, t: TenantId, k: IntegrationKey, status: ConfigStatus, now: int): Registry {
    if (t, k) !in r.configs then r
    else WithRow(r, t, k, r.configs[(t, k)].(status := status, updatedAt := now))
  }

  function Removed(r: Registry, t: TenantId, k: IntegrationKey): Registry {
    Invalidated(r.(configs := r.configs - {(t, k)}), t, k)
  }

  /** The first `n` providers of `t` built, as `getAllProviders` does for all ten. */
  function WithProviders(r: Registry, t: TenantId, n: nat): Registry
    requires n <= 10
  {
    if n == 0 then r else WithProvider(WithProviders(r, t, n - 1), t, KeyAt(n - 1))
  }

  /** The provider of `t` and `k`: the cached one, or the one `getProvider` would build. */
  function Entry(r: Registry, t: TenantId, k: IntegrationKey): Cached {
    if CacheKey(t, k) in r.cache then r.cache[CacheKey(t, k)]
    else Cached(k, LoadCredentials(r.configs, t, k), NEW_PROVIDER)
  }

  function RowOf(configs: map<(TenantId, IntegrationKey), Config>, t: TenantId, k: IntegrationKey): Option<Config> {
    if (t, k) in configs then Some(configs[(t, k)]) else None
  }

  function SummaryFrom(c: Cached, row: Option<Config>, now: int): Summary {
    Summary(c.key, c.credentials.Some?, if row.Some? then Some(row.value.status) else None,
            Observed(BREAKER_DEFAULTS, c.provider.breaker, now),
            if row.Some? then Some(row.value.updatedAt) else None)
  }

  function SummaryOf(r: Registry, t: TenantId, k: IntegrationKey, now: int): Summary {
    SummaryFrom(Entry(r, t, k), RowOf(r.configs, t, k), now)
  }

  /** One summary per key, in the order of the keys. */
  function SummariesOf(r: Registry, t: TenantId, n: nat, now: int): seq<Summary>
    requires n <= 10
  {
    if n == 0 then [] else SummariesOf(r, t, n - 1, now) + [SummaryOf(r, t, KeyAt(n - 1), now)]
  }

  // ---- Broadcasting one event to the ten providers of a tenant ----

  /** `ends` is when each provider's call completes; all ten begin together. */
  datatype Broadcast = Broadcast(tenant: TenantId, incident: Id, beginAt: int, ends: IntegrationKey -> int)

  function Notified(c: Cached, b: Broadcast): Cached {
    c.(provider := Called(BREAKER_DEFAULTS, c.provider, AfterRetries(c.credentials), b.beginAt, b.ends(c.key)))
  }

  /** The breaker was not OPEN when the call began and is OPEN when it has completed. */
  predicate Blocks(c: Cached, b: Broadcast) {
    && Observed(BREAKER_DEFAULTS, c.provider.breaker, b.beginAt) != OPEN
    && Observed(BREAKER_DEFAULTS, Notified(c, b).provider.breaker, b.ends(c.key)) == OPEN
  }

  function EventOf(c: Cached, b: Broadcast): seq<BlockedEvent> {
    if Blocks(c, b)
    then [BlockedEvent(b.tenant, b.incident, c.key,
                       CalledResult(BREAKER_DEFAULTS, c.provider, AfterRetries(c.credentials), b.beginAt))]
    else []
  }

  function AttemptsOf(c: Cached, b: Broadcast): nat {
    if Admits(BREAKER_DEFAULTS, c.provider.breaker, b.beginAt) then NetworkAttempts(c.credentials) else 0
  }

  function NotifyAll(r: Registry, b: Broadcast, n: nat): Registry
    requires n <= 10
  {
    if n == 0 then r
    else
      var before := NotifyAll(r, b, n - 1);
      var k := KeyAt(n - 1);
      before.(cache := before.cache[CacheKey(b.tenant, k) := Notified(Entry(before, b.tenant, k), b)])
  }

  function EventsOf(r: Registry, b: Broadcast, n: nat): seq<BlockedEvent>
    requires n <= 10
  {
    if n == 0 then [] else EventsOf(r, b, n - 1) + EventOf(Entry(r, b.tenant, KeyAt(n - 1)), b)
  }

  /** `broadcast`: all ten providers built if they are not cached, then each of them called. */
  function AfterBroadcast(r: Registry, b: Broadcast): Registry {
    NotifyAll(WithProviders(r, b.tenant, 10), b, 10)
  }

  function BroadcastEvents(r: Registry, b: Broadcast): seq<BlockedEvent> {
    EventsOf(WithProviders(r, b.tenant, 10), b, 10)
  }

  // ---- Entry by entry: what each of these does to the provider of one tenant and key ----

  lemma {:induction false} WithProvidersEntry(r: Registry, u: TenantId, n: nat, t: TenantId, k: IntegrationKey)
    requires n <= 10
    ensures var r' := WithProviders(r, u, n);
            && r'.configs == r.configs
            && Entry(r', t, k) == Entry(r, t, k)
            && (CacheKey(t, k) in r'.cache <==> CacheKey(t, k) in r.cache || (t == u && Index(k) < n))
  {
    if n > 0 {
      WithProvidersEntry(r, u, n - 1, t, k);
      KeysAreDistinct(Index(KeyAt(n - 1)), n - 1);
      if CacheKey(t, k) == CacheKey(u, KeyAt(n - 1)) {
        CacheKeyIsInjective(t, k, u, KeyAt(n - 1));
      }
    }
  }

  lemma {:induction false} NotifyAllEntry(r: Registry, b: Broadcast, n: nat, t: TenantId, k: IntegrationKey)
    requires n <= 10
    ensures NotifyAll(r, b, n).configs == r.configs
    ensures Entry(NotifyAll(r, b, n), t, k) ==
            if t == b.tenant && Index(k) < n then Notified(Entry(r, t, k), b) else Entry(r, t, k)
    ensures CacheKey(t, k) in NotifyAll(r, b, n).cache <==> CacheKey(t, k) in r.cache || (t == b.tenant && Index(k) < n)
  {
    if n > 0 {
      NotifyAllEntry(r, b, n - 1, t, k);
      KeysAreDistinct(Index(KeyAt(n - 1)), n - 1);
      if CacheKey(t, k) == CacheKey(b.tenant, KeyAt(n - 1)) {
        CacheKeyIsInjective(t, k, b.tenant, KeyAt(n - 1));
      }
    }
  }

  /** A broadcast calls each provider of its own tenant once and leaves every other tenant's alone. */
  lemma BroadcastEntry(r: Registry, b: Broadcast, t: TenantId, k: IntegrationKey)
    ensures AfterBroadcast(r, b).configs == r.configs
    ensures Entry(AfterBroadcast(r, b), t, k) ==
            if t == b.tenant then Notified(Entry(r, t, k), b) else Entry(r, t, k)
  {
    WithProvidersEntry(r, b.tenant, 10, t, k);
    NotifyAllEntry(WithProviders(r, b.tenant, 10), b, 10, t, k);
  }
}
