/** The whole platform: the store, the integration registry, and the requests that touch both. */
module Platform {
  import opened Common
  import opened Providers
  import opened Registries
  import opened RegistryLaws
  import opened Workflow

  datatype System = System(db: Database, registry: Registry)

  /** `ends`: when each provider's call completes, for the requests that broadcast. */
  datatype Request =
    | StoreRequest(op: Op, ends: IntegrationKey -> int)
    | IntegrationRequest(integration: RegistryOp, at: int)

  datatype Reply = StoreReply(answer: Answer) | Summaries(all: seq<Summary>) | NotConfigured | Acknowledged

  function OpTenant(op: RegistryOp): TenantId {
    if op.Notify? then op.broadcast.tenant else op.tenant
  }

  function TenantOf(q: Request): TenantId {
    if q.StoreRequest? then q.op.tenant else OpTenant(q.integration)
  }

  function NoteBlocked(db: Database, events: seq<BlockedEvent>): Database {
    if events == [] then db
    else
      var e := events[|events| - 1];
      Note(NoteBlocked(db, events[..|events| - 1]),
           TimelineEvent(e.tenant, e.incident, None, IntegrationBlocked(e.key, e.result), None))
  }

  /** A broadcast and the timeline events it raises. */
  function Announce(s: System, b: Broadcast): System {
    System(NoteBlocked(s.db, BroadcastEvents(s.registry, b)), AfterBroadcast(s.registry, b))
  }

  /** What creating an incident, or deciding a decision, announces to the tenant's integrations. */
  function Announcement(op: Op, answer: Answer, ends: IntegrationKey -> int): Option<Broadcast> {
    if op.OpCreateIncident? && answer.IncidentRow? then Some(Broadcast(op.tenant, op.id, op.at, ends))
    else if op.OpDecide? && answer.DecisionRow? then Some(Broadcast(op.tenant, answer.decision.incidentId, op.at, ends))
    else None
  }

  /** The system once the store has been left at `next`. */
  function Announced(r: Registry, op: Op, next: (Database, Answer), ends: IntegrationKey -> int): (System, Answer) {
    var b := Announcement(op, next.1, ends);
    (if b.Some? then Announce(System(next.0, r), b.value) else System(next.0, r), next.1)
  }

  function HandleStore(s: System, op: Op, ends: IntegrationKey -> int): (System, Answer) {
    Announced(s.registry, op, Do(s.db, op), ends)
  }

  function IntegrationReply(r: Registry, op: RegistryOp, at: int): Reply {
    match op
    case Configure(t, k, _, _, _) => Summaries([SummaryOf(Apply(r, op), t, k, at)])
    case UpdateStatus(t, k, _, _) =>
      if RowOf(r.configs, t, k).Some? then Summaries([SummaryOf(Apply(r, op), t, k, at)]) else NotConfigured
    case GetProvider(t, k) => Summaries([SummaryOf(r, t, k, at)])
    case ListAll(t) => Summaries(SummariesOf(r, t, 10, at))
    case _ => Acknowledged
  }

  function Handle(s: System, q: Request): (System, Reply) {
    if q.StoreRequest? then
      var (after, answer) := HandleStore(s, q.op, q.ends);
      (after, StoreReply(answer))
    else
      (if q.integration.Notify? then Announce(s, q.integration.broadcast)
       else s.(registry := Apply(s.registry, q.integration)),
       IntegrationReply(s.registry, q.integration, q.at))
  }

  function HandleAll(s: System, qs: seq<Request>): System {
    if qs == [] then s else Handle(HandleAll(s, qs[..|qs| - 1]), qs[|qs| - 1]).0
  }

  predicate FreshRequest(s: System, q: Request) {
    q.StoreRequest? ==> FreshId(s.db, q.op)
  }

  predicate FreshRequests(s: System, qs: seq<Request>) {
    if qs == [] then true
    else FreshRequests(s, qs[..|qs| - 1]) && FreshRequest(HandleAll(s, qs[..|qs| - 1]), qs[|qs| - 1])
  }

  // ---- The platform's store runs are store runs ----

  function BlockedOps(events: seq<BlockedEvent>, at: int): seq<Op> {
    seq(|events|, i requires 0 <= i < |events| =>
      OpBlocked(events[i].tenant, events[i].incident, events[i].key, events[i].result, at))
  }

  function BroadcastOps(r: Registry, b: Option<Broadcast>, at: int): seq<Op> {
    if b.Some? then BlockedOps(BroadcastEvents(r, b.value), at) else []
  }

  /** The store operations one request amounts to: its own, and one for each INTEGRATION_BLOCKED event. */
  function StoreOps(s: System, q: Request): seq<Op> {
    if q.StoreRequest? then
      [q.op] + BroadcastOps(s.registry, Announcement(q.op, Do(s.db, q.op).1, q.ends), q.op.at)
    else
      BroadcastOps(s.registry, if q.integration.Notify? then Some(q.integration.broadcast) else None, q.at)
  }

  function AllStoreOps(s: System, qs: seq<Request>): seq<Op> {
    if qs == [] then []
    else
      var front := qs[..|qs| - 1];
      AllStoreOps(s, front) + StoreOps(HandleAll(s, front), qs[|qs| - 1])
  }

  /** `db` is the store after `ops` from `start`, with fresh ids throughout. */
  predicate Reaches(start: Database, ops: seq<Op>, db: Database) {
    FreshIds(start, ops) && Workflow.Run(start, ops) == db
  }

  lemma ReachesNext(start: Database, ops: seq<Op>, db: Database, op: Op)
    requires Reaches(start, ops, db) && FreshId(db, op)
    ensures Reaches(start, ops + [op], Do(db, op).0)
  {
  }

  lemma ConcatAssociates(a: seq<Op>, b: seq<Op>, c: seq<Op>)
    ensures a + (b + c) == a + b + c
  {
  }

  lemma BlockedOpsLast(events: seq<BlockedEvent>, at: int)
    requires events != []
    ensures var e := events[|events| - 1];
            BlockedOps(events, at) ==
            BlockedOps(events[..|events| - 1], at) + [OpBlocked(e.tenant, e.incident, e.key, e.result, at)]
  {
  }

  lemma NoteIsOp(start: Database, ops: seq<Op>, db: Database, e: BlockedEvent, at: int)
    requires Reaches(start, ops, db)
    ensures Reaches(start, ops + [OpBlocked(e.tenant, e.incident, e.key, e.result, at)],
                    Note(db, TimelineEvent(e.tenant, e.incident, None, IntegrationBlocked(e.key, e.result), None)))
  {
    ReachesNext(start, ops, db, OpBlocked(e.tenant, e.incident, e.key, e.result, at));
  }

  lemma {:induction false} NotesAreOps(start: Database, ops: seq<Op>, db: Database, events: seq<BlockedEvent>, at: int)
    requires Reaches(start, ops, db)
    ensures Reaches(start, ops + BlockedOps(events, at), NoteBlocked(db, events))
  {
    if events == [] {
      assert ops + BlockedOps(events, at) == ops;
    } else {
      var front, e := events[..|events| - 1], events[|events| - 1];
      NotesAreOps(start, ops, db, front, at);
      NoteIsOp(start, ops + BlockedOps(front, at), NoteBlocked(db, front), e, at);
      BlockedOpsLast(events, at);
      ConcatAssociates(ops, BlockedOps(front, at), [OpBlocked(e.tenant, e.incident, e.key, e.result, at)]);
    }
  }

  /** What a request's announcement, if it makes one, adds to a store run. */
  lemma AnnouncementIsRun(start: Database, ops: seq<Op>, s: System, b: Option<Broadcast>, at: int)
    requires Reaches(start, ops, s.db)
    ensures Reaches(start, ops + BroadcastOps(s.registry, b, at), (if b.Some? then Announce(s, b.value) else s).db)
  {
    if b.Some? {
      NotesAreOps(start, ops, s.db, BroadcastEvents(s.registry, b.value), at);
    } else {
      assert ops + [] == ops;
    }
  }

  lemma AnnouncedIsRun(start: Database, ops: seq<Op>, r: Registry, op: Op, next: (Database, Answer),
                       ends: IntegrationKey -> int)
    requires Reaches(start, ops + [op], next.0)
    ensures Reaches(start, ops + ([op] + BroadcastOps(r, Announcement(op, next.1, ends), op.at)),
                    Announced(r, op, next, ends).0.db)
  {
    var b := Announcement(op, next.1, ends);
    AnnouncementIsRun(start, ops + [op], System(next.0, r), b, op.at);
    ConcatAssociates(ops, [op], BroadcastOps(r, b, op.at));
  }

  lemma StoreRequestIsRun(start: Database, ops: seq<Op>, s: System, op: Op, ends: IntegrationKey -> int)
    requires Reaches(start, ops, s.db) && FreshId(s.db, op)
    ensures Reaches(start, ops + StoreOps(s, StoreRequest(op, ends)), HandleStore(s, op, ends).0.db)
  {
    ReachesNext(start, ops, s.db, op);
    AnnouncedIsRun(start, ops, s.registry, op, Do(s.db, op), ends);
  }

  lemma IntegrationRequestIsRun(start: Database, ops: seq<Op>, s: System, q: Request)
    requires q.IntegrationRequest? && Reaches(start, ops, s.db)
    ensures Reaches(start, ops + StoreOps(s, q), Handle(s, q).0.db)
  {
    AnnouncementIsRun(start, ops, s, if q.integration.Notify? then Some(q.integration.broadcast) else None, q.at);
  }

  lemma RequestIsStoreRun(start: Database, ops: seq<Op>, s: System, q: Request)
    requires Reaches(start, ops, s.db) && FreshRequest(s, q)
    ensures Reaches(start, ops + StoreOps(s, q), Handle(s, q).0.db)
  {
    if q.StoreRequest? {
      StoreRequestIsRun(start, ops, s, q.op, q.ends);
    } else {
      IntegrationRequestIsRun(start, ops, s, q);
    }
  }

  /**
   * Every run of requests from an empty store leaves the store as some run of store operations with fresh
   * ids does, so what holds of all of those (log replay, replay fidelity, outcome links) holds of the platform.
   */
  lemma {:induction false} PlatformRunsAreStoreRuns(registry: Registry, qs: seq<Request>)
    requires FreshRequests(System(EMPTY, registry), qs)
    ensures Reaches(EMPTY, AllStoreOps(System(EMPTY, registry), qs), HandleAll(System(EMPTY, registry), qs).db)
  {
    if qs != [] {
      var s, front := System(EMPTY, registry), qs[..|qs| - 1];
      PlatformRunsAreStoreRuns(registry, front);
      RequestIsStoreRun(EMPTY, AllStoreOps(s, front), HandleAll(s, front), qs[|qs| - 1]);
    }
  }
}
