/** The ten calls of a broadcast run concurrently: the order they complete in does not matter. */
module BroadcastOrder {
  import opened Providers
  import opened Registries
  import opened RegistryLaws

  /** The calls of one broadcast, completing in this order. */
  function NotifyIn(r: Registry, b: Broadcast, order: seq<IntegrationKey>): Registry {
    if order == [] then r
    else
      var before, k := NotifyIn(r, b, order[..|order| - 1]), order[|order| - 1];
      before.(cache := before.cache[CacheKey(b.tenant, k) := Notified(Entry(before, b.tenant, k), b)])
  }

  /** The events they raise, in the order in which they are inserted. */
  function EventsIn(r: Registry, b: Broadcast, order: seq<IntegrationKey>): seq<BlockedEvent> {
    if order == [] then []
    else
      var front, k := order[..|order| - 1], order[|order| - 1];
      EventsIn(r, b, front) + EventOf(Entry(NotifyIn(r, b, front), b.tenant, k), b)
  }

  predicate NoneTwice(order: seq<IntegrationKey>) {
    forall i, j :: 0 <= i < j < |order| ==> order[i] != order[j]
  }

  predicate EachOnce(order: seq<IntegrationKey>) {
    NoneTwice(order) && forall k :: k in order
  }

  lemma {:induction false} NotifyInEntry(r: Registry, b: Broadcast, order: seq<IntegrationKey>, k: IntegrationKey)
    requires NoneTwice(order)
    ensures Entry(NotifyIn(r, b, order), b.tenant, k) ==
            if k in order then Notified(Entry(r, b.tenant, k), b) else Entry(r, b.tenant, k)
    ensures CacheKey(b.tenant, k) in NotifyIn(r, b, order).cache <==> CacheKey(b.tenant, k) in r.cache || k in order
    ensures NotifyIn(r, b, order).configs == r.configs
  {
    if order != [] {
      var front, last := order[..|order| - 1], order[|order| - 1];
      assert order == front + [last];
      NotifyInEntry(r, b, front, k);
      if CacheKey(b.tenant, k) == CacheKey(b.tenant, last) {
        CacheKeyIsInjective(b.tenant, k, b.tenant, last);
      }
    }
  }

  lemma {:induction false} OtherEntriesStay(r: Registry, b: Broadcast, order: seq<IntegrationKey>, s: string)
    requires forall k :: s != CacheKey(b.tenant, k)
    ensures s in NotifyIn(r, b, order).cache <==> s in r.cache
    ensures s in r.cache ==> NotifyIn(r, b, order).cache[s] == r.cache[s]
  {
    if order != [] {
      OtherEntriesStay(r, b, order[..|order| - 1], s);
    }
  }

  lemma SameEntry(r: Registry, b: Broadcast, order: seq<IntegrationKey>, order': seq<IntegrationKey>, s: string)
    requires EachOnce(order) && EachOnce(order')
    ensures var after, after' := NotifyIn(r, b, order).cache, NotifyIn(r, b, order').cache;
            (s in after <==> s in after') && (s in after ==> after[s] == after'[s])
  {
    if k :| s == CacheKey(b.tenant, k) {
      NotifyInEntry(r, b, order, k);
      NotifyInEntry(r, b, order', k);
    } else {
      OtherEntriesStay(r, b, order, s);
      OtherEntriesStay(r, b, order', s);
    }
  }

  lemma SameRegistryInAnyOrder(r: Registry, b: Broadcast, order: seq<IntegrationKey>, order': seq<IntegrationKey>)
    requires EachOnce(order) && EachOnce(order')
    ensures NotifyIn(r, b, order) == NotifyIn(r, b, order')
  {
    NotifyInEntry(r, b, order, SLACK);
    NotifyInEntry(r, b, order', SLACK);
    forall s
      ensures s in NotifyIn(r, b, order).cache <==> s in NotifyIn(r, b, order').cache
      ensures s in NotifyIn(r, b, order).cache ==> NotifyIn(r, b, order).cache[s] == NotifyIn(r, b, order').cache[s]
    {
      SameEntry(r, b, order, order', s);
    }
    assert NotifyIn(r, b, order).cache == NotifyIn(r, b, order').cache;
  }

  /** An event is raised once if its provider's call blocks, and never otherwise. */
  lemma {:induction false} EventRaised(r: Registry, b: Broadcast, order: seq<IntegrationKey>, e: BlockedEvent)
    requires NoneTwice(order) && Coherent(r)
    ensures multiset(EventsIn(r, b, order))[e] ==
            if e.key in order && e in EventOf(Entry(r, b.tenant, e.key), b) then 1 else 0
  {
    if order != [] {
      var front, last := order[..|order| - 1], order[|order| - 1];
      assert order == front + [last];
      EventRaised(r, b, front, e);
      NotifyInEntry(r, b, front, last);
      EntryKey(r, b.tenant, last);
    }
  }

  lemma SameEventsInAnyOrder(r: Registry, b: Broadcast, order: seq<IntegrationKey>, order': seq<IntegrationKey>)
    requires EachOnce(order) && EachOnce(order') && Coherent(r)
    ensures multiset(EventsIn(r, b, order)) == multiset(EventsIn(r, b, order'))
  {
    forall e
      ensures multiset(EventsIn(r, b, order))[e] == multiset(EventsIn(r, b, order'))[e]
    {
      EventRaised(r, b, order, e);
      EventRaised(r, b, order', e);
    }
  }

  // ---- The order of the keys is one of them ----

  function KeyOrder(n: nat): seq<IntegrationKey>
    requires n <= 10
  {
    seq(n, i requires 0 <= i < n => KeyAt(i))
  }

  lemma KeyOrderIsOnce()
    ensures EachOnce(KeyOrder(10))
  {
    forall i, j | 0 <= i < j < 10
      ensures KeyOrder(10)[i] != KeyOrder(10)[j]
    {
      if KeyAt(i) == KeyAt(j) {
        KeysAreDistinct(i, j);
      }
    }
    forall k
      ensures k in KeyOrder(10)
    {
      assert KeyOrder(10)[Index(k)] == k;
    }
  }

  lemma {:induction false} BroadcastIsInKeyOrder(r: Registry, b: Broadcast, n: nat)
    requires n <= 10
    ensures NotifyAll(r, b, n) == NotifyIn(r, b, KeyOrder(n))
    ensures EventsOf(r, b, n) == EventsIn(r, b, KeyOrder(n))
  {
    if n > 0 {
      BroadcastIsInKeyOrder(r, b, n - 1);
      assert KeyOrder(n)[..n - 1] == KeyOrder(n - 1);
      KeysAreDistinct(Index(KeyAt(n - 1)), n - 1);
      NotifyAllEntry(r, b, n - 1, b.tenant, KeyAt(n - 1));
    }
  }

  lemma CallsInAnyOrder(present: Registry, b: Broadcast, order: seq<IntegrationKey>)
    requires Coherent(present) && EachOnce(order)
    ensures NotifyIn(present, b, order) == NotifyAll(present, b, 10)
    ensures multiset(EventsIn(present, b, order)) == multiset(EventsOf(present, b, 10))
  {
    KeyOrderIsOnce();
    BroadcastIsInKeyOrder(present, b, 10);
    SameRegistryInAnyOrder(present, b, order, KeyOrder(10));
    SameEventsInAnyOrder(present, b, order, KeyOrder(10));
  }

  /**
   * In whatever order the ten calls complete, the broadcast leaves the same providers and raises the same
   * events; only the order in which the events are inserted can differ.
   */
  lemma BroadcastOrderDoesNotMatter(r: Registry, b: Broadcast, order: seq<IntegrationKey>)
    requires Coherent(r) && EachOnce(order)
    ensures var present := WithProviders(r, b.tenant, 10);
            && NotifyIn(present, b, order) == AfterBroadcast(r, b)
            && multiset(EventsIn(present, b, order)) == multiset(BroadcastEvents(r, b))
  {
    CoherenceKept(r, ListAll(b.tenant));
    CallsInAnyOrder(WithProviders(r, b.tenant, 10), b, order);
  }
}
