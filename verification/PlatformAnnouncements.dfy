/** What accepted requests announce, and what every provider and the timeline are once that is done. */
module PlatformAnnouncements {
  import opened Common
  import opened CircuitBreakers
  import opened Providers
  import opened Registries
  import opened RegistryLaws
  import opened BroadcastOrder
  import opened Workflow
  import opened Platform
  import opened WorkflowGates

  /** The incident that is announced: one that is created, or that of a decision that a member decides. */
  function AnnouncedIncident(db: Database, op: Op): Option<Id> {
    match op
    case OpCreateIncident(_, _, id, _, _, _, _) => Some(id)
    case OpDecide(t, _, id, decidedBy, _, _, _) =>
      if id in db.decisions && db.decisions[id].tenant == t && db.decisions[id].status == Undecided && (decidedBy, t) in db.members
      then Some(db.decisions[id].incidentId) else None
    case _ => None
  }

  /** The tenant's ten providers have each been called once, from `at` until `ends`; nothing else has changed. */
  ghost predicate ProvidersHeard(r: Registry, after: Registry, tenant: TenantId, at: int, ends: IntegrationKey -> int) {
    && after.configs == r.configs
    && forall t, k ::
         var c := Entry(r, t, k);
         Entry(after, t, k) ==
         if t == tenant then c.(provider := Called(BREAKER_DEFAULTS, c.provider, AfterRetries(c.credentials), at, ends(k))) else c
  }

  /** This call found the circuit not OPEN, left it OPEN, and was answered so. */
  predicate OpenedCircuit(r: Registry, after: Registry, e: BlockedEvent, at: int, ends: IntegrationKey -> int) {
    var c, c' := Entry(r, e.tenant, e.key), Entry(after, e.tenant, e.key);
    && Observed(BREAKER_DEFAULTS, c.provider.breaker, at) != OPEN
    && Observed(BREAKER_DEFAULTS, c'.provider.breaker, ends(e.key)) == OPEN
    && e.result == CalledResult(BREAKER_DEFAULTS, c.provider, AfterRetries(c.credentials), at)
  }

  /** One event for each circuit opened, and no other, all of this tenant and incident. */
  ghost predicate OneEach(events: seq<BlockedEvent>, r: Registry, after: Registry, tenant: TenantId, incidentId: Id,
                          at: int, ends: IntegrationKey -> int)
  {
    forall e :: multiset(events)[e] ==
                if e.tenant == tenant && e.incident == incidentId && OpenedCircuit(r, after, e, at, ends) then 1 else 0
  }

  function Notices(events: seq<BlockedEvent>): seq<TimelineEvent> {
    seq(|events|, i requires 0 <= i < |events| =>
      TimelineEvent(events[i].tenant, events[i].incident, None, IntegrationBlocked(events[i].key, events[i].result), None))
  }

  lemma {:induction false} NotedInOrder(db: Database, events: seq<BlockedEvent>)
    ensures NoteBlocked(db, events) == db.(timeline := db.timeline + Notices(events))
  {
    if events != [] {
      var n := |events| - 1;
      NotedInOrder(db, events[..n]);
      assert Notices(events) == Notices(events[..n]) + [Notices(events)[n]];
    }
  }

  /** Whether this is the event of a call, in terms of the call. */
  lemma EventOfCall(c: Cached, b: Broadcast, e: BlockedEvent)
    requires c.key == e.key
    ensures e in EventOf(c, b) <==>
            && e.tenant == b.tenant && e.incident == b.incident
            && Observed(BREAKER_DEFAULTS, c.provider.breaker, b.beginAt) != OPEN
            && Observed(BREAKER_DEFAULTS, Notified(c, b).provider.breaker, b.ends(e.key)) == OPEN
            && e.result == CalledResult(BREAKER_DEFAULTS, c.provider, AfterRetries(c.credentials), b.beginAt)
  {
  }

  lemma EventInKeyOrder(present: Registry, b: Broadcast, e: BlockedEvent)
    requires Coherent(present)
    ensures multiset(EventsOf(present, b, 10))[e] == if e in EventOf(Entry(present, b.tenant, e.key), b) then 1 else 0
  {
    KeyOrderIsOnce();
    BroadcastIsInKeyOrder(present, b, 10);
    EventRaised(present, b, KeyOrder(10), e);
  }

  lemma EventIsOfCall(r: Registry, b: Broadcast, e: BlockedEvent)
    requires Coherent(r)
    ensures multiset(BroadcastEvents(r, b))[e] == if e in EventOf(Entry(r, b.tenant, e.key), b) then 1 else 0
  {
    CoherenceKept(r, ListAll(b.tenant));
    WithProvidersEntry(r, b.tenant, 10, b.tenant, e.key);
    EventInKeyOrder(WithProviders(r, b.tenant, 10), b, e);
  }

  lemma EventIsRaised(r: Registry, b: Broadcast, e: BlockedEvent)
    requires Coherent(r)
    ensures multiset(BroadcastEvents(r, b))[e] ==
            if e.tenant == b.tenant && e.incident == b.incident
               && OpenedCircuit(r, AfterBroadcast(r, b), e, b.beginAt, b.ends) then 1 else 0
  {
    EventIsOfCall(r, b, e);
    EntryKey(r, b.tenant, e.key);
    EventOfCall(Entry(r, b.tenant, e.key), b, e);
    BroadcastEntry(r, b, b.tenant, e.key);
  }

  lemma BroadcastIsHeard(r: Registry, b: Broadcast)
    requires Coherent(r)
    ensures ProvidersHeard(r, AfterBroadcast(r, b), b.tenant, b.beginAt, b.ends)
    ensures OneEach(BroadcastEvents(r, b), r, AfterBroadcast(r, b), b.tenant, b.incident, b.beginAt, b.ends)
  {
    BroadcastEntry(r, b, b.tenant, SLACK);
    forall t, k
      ensures Entry(AfterBroadcast(r, b), t, k) == if t == b.tenant then Notified(Entry(r, t, k), b) else Entry(r, t, k)
      ensures Entry(r, t, k).key == k
    {
      BroadcastEntry(r, b, t, k);
      EntryKey(r, t, k);
    }
    forall e
      ensures multiset(BroadcastEvents(r, b))[e] ==
              if e.tenant == b.tenant && e.incident == b.incident
                 && OpenedCircuit(r, AfterBroadcast(r, b), e, b.beginAt, b.ends) then 1 else 0
    {
      EventIsRaised(r, b, e);
    }
  }

  /** Which requests announce, and what: in terms of the rows, not of the reply. */
  lemma WhatIsAnnounced(db: Database, op: Op, ends: IntegrationKey -> int)
    ensures var incidentId := AnnouncedIncident(db, op);
            Announcement(op, Do(db, op).1, ends) ==
            if incidentId.Some? then Some(Broadcast(op.tenant, incidentId.value, op.at, ends)) else None
  {
    if op.OpDecide? {
      DecideAcceptedIff(db, op.tenant, op.actor, op.id, op.decidedBy, op.humanDecision, op.rationale, op.at);
    }
  }

  // ---- In every run of requests ----

  lemma HandledCoherently(s: System, q: Request)
    requires Coherent(s.registry)
    ensures Coherent(Handle(s, q).0.registry)
  {
    if q.IntegrationRequest? {
      CoherenceKept(s.registry, q.integration);
    } else {
      var b := Announcement(q.op, Do(s.db, q.op).1, q.ends);
      if b.Some? {
        CoherenceKept(s.registry, Notify(b.value));
      }
    }
  }

  lemma {:induction false} RequestsKeepCoherence(s: System, qs: seq<Request>)
    requires Coherent(s.registry)
    ensures Coherent(HandleAll(s, qs).registry)
  {
    if qs != [] {
      RequestsKeepCoherence(s, qs[..|qs| - 1]);
      HandledCoherently(HandleAll(s, qs[..|qs| - 1]), qs[|qs| - 1]);
    }
  }

  /** The system after a request to the store that announces this incident, and nothing else. */
  ghost predicate AnnouncedTo(s: System, after: System, op: Op, incidentId: Id, ends: IntegrationKey -> int,
                              events: seq<BlockedEvent>)
  {
    var own := Do(s.db, op).0;
    && ProvidersHeard(s.registry, after.registry, op.tenant, op.at, ends)
    && after.db == own.(timeline := own.timeline + Notices(events))
    && OneEach(events, s.registry, after.registry, op.tenant, incidentId, op.at, ends)
  }

  lemma AnnouncementIsHeard(s: System, op: Op, ends: IntegrationKey -> int) returns (events: seq<BlockedEvent>)
    requires Coherent(s.registry)
    ensures var incidentId, after := AnnouncedIncident(s.db, op), HandleStore(s, op, ends).0;
            if incidentId.Some? then AnnouncedTo(s, after, op, incidentId.value, ends, events)
            else after == System(Do(s.db, op).0, s.registry)
  {
    events := [];
    var incidentId := AnnouncedIncident(s.db, op);
    WhatIsAnnounced(s.db, op, ends);
    if incidentId.Some? {
      var b := Broadcast(op.tenant, incidentId.value, op.at, ends);
      events := BroadcastEvents(s.registry, b);
      BroadcastIsHeard(s.registry, b);
      NotedInOrder(Do(s.db, op).0, events);
    }
  }

  /**
   * In every run of requests: one that creates an incident or decides a decision calls each of its tenant's ten
   * providers once, and nobody else's, and adds one event for each circuit this opened after its own; any other
   * request to the store, and one that is refused, reaches no provider.
   */
  lemma RequestsAnnounce(db: Database, configs: map<(TenantId, IntegrationKey), Config>, qs: seq<Request>,
                         op: Op, ends: IntegrationKey -> int)
    returns (events: seq<BlockedEvent>)
    ensures var s := HandleAll(System(db, Registry(configs, map[])), qs);
            var incidentId, after := AnnouncedIncident(s.db, op), Handle(s, StoreRequest(op, ends)).0;
            if incidentId.Some? then AnnouncedTo(s, after, op, incidentId.value, ends, events)
            else after == System(Do(s.db, op).0, s.registry)
  {
    var start := System(db, Registry(configs, map[]));
    AlwaysCoherent(configs, []);
    RequestsKeepCoherence(start, qs);
    events := AnnouncementIsHeard(HandleAll(start, qs), op, ends);
  }
}
