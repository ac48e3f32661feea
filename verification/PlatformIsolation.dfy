/** Two-run tenant isolation of the whole platform: rows, answers, configurations and breakers. */
module PlatformIsolation {
  import opened Common
  import opened Providers
  import opened Registries
  import opened RegistryLaws
  import opened Workflow
  import opened WorkflowIsolation
  import opened Platform

  // ---- Integrations ----

  predicate AgreeOn(r: Registry, r': Registry, t: TenantId, k: IntegrationKey) {
    RowOf(r.configs, t, k) == RowOf(r'.configs, t, k) && Entry(r, t, k) == Entry(r', t, k)
  }

  /** The same configuration rows, and providers that behave the same, for every key of the tenant. */
  ghost predicate Agree(r: Registry, r': Registry, t: TenantId) {
    forall k :: AgreeOn(r, r', t, k)
  }

  lemma RemovedEntry(r: Registry, u: TenantId, j: IntegrationKey, t: TenantId, k: IntegrationKey)
    ensures RowOf(Removed(r, u, j).configs, t, k) == if t == u && k == j then None else RowOf(r.configs, t, k)
    ensures Entry(Removed(r, u, j), t, k) == if t == u && k == j then Cached(k, None, NEW_PROVIDER) else Entry(r, t, k)
  {
    InvalidatedEntry(r.(configs := r.configs - {(u, j)}), u, j, t, k);
  }

  lemma WrittenEntry(r: Registry, u: TenantId, j: IntegrationKey, row: Config, t: TenantId, k: IntegrationKey)
    ensures RowOf(WithRow(r, u, j, row).configs, t, k) == if t == u && k == j then Some(row) else RowOf(r.configs, t, k)
    ensures Entry(WithRow(r, u, j, row), t, k) ==
            if t == u && k == j
            then Cached(k, if row.status != ACTIVE then None else Decrypt(row.encryptedCredentials), NEW_PROVIDER)
            else Entry(r, t, k)
  {
    RowWriteEntry(r, u, j, row, t, k);
  }

  /** What an operation does to one key depends only on that key's row and provider. */
  function RowAfter(row: Option<Config>, op: RegistryOp, t: TenantId, k: IntegrationKey): Option<Config> {
    match op
    case Configure(u, j, credentials, iv, at) => if t == u && k == j then Some(Config(Sealed(iv, credentials), ACTIVE, at)) else row
    case UpdateStatus(u, j, status, at) =>
      if t == u && k == j && row.Some? then Some(row.value.(status := status, updatedAt := at)) else row
    case Remove(u, j) => if t == u && k == j then None else row
    case _ => row
  }

  function EntryAfter(c: Cached, row: Option<Config>, op: RegistryOp, t: TenantId, k: IntegrationKey): Cached {
    if op.Notify? then if t == op.broadcast.tenant then Notified(c, op.broadcast) else c
    else if (op.Configure? || op.Remove? || (op.UpdateStatus? && row.Some?)) && t == op.tenant && k == op.key then
      var after := RowAfter(row, op, t, k);
      Cached(k, if after.None? || after.value.status != ACTIVE then None else Decrypt(after.value.encryptedCredentials), NEW_PROVIDER)
    else c
  }

  lemma KeyByKey(r: Registry, op: RegistryOp, t: TenantId, k: IntegrationKey)
    ensures RowOf(Apply(r, op).configs, t, k) == RowAfter(RowOf(r.configs, t, k), op, t, k)
    ensures Entry(Apply(r, op), t, k) == EntryAfter(Entry(r, t, k), RowOf(r.configs, t, k), op, t, k)
  {
    match op
    case Configure(u, j, credentials, iv, at) => WrittenEntry(r, u, j, Config(Sealed(iv, credentials), ACTIVE, at), t, k);
    case UpdateStatus(u, j, status, at) =>
      if (u, j) in r.configs {
        WrittenEntry(r, u, j, r.configs[(u, j)].(status := status, updatedAt := at), t, k);
      }
    case Remove(u, j) => RemovedEntry(r, u, j, t, k);
    case GetProvider(u, j) => BuildingKeepsEntry(r, u, j, t, k);
    case ListAll(u) => WithProvidersEntry(r, u, 10, t, k);
    case Notify(b) => BroadcastEntry(r, b, t, k);
  }

  lemma ForeignIntegration(r: Registry, op: RegistryOp, t: TenantId)
    requires OpTenant(op) != t
    ensures Agree(r, Apply(r, op), t)
  {
    forall k
      ensures AgreeOn(r, Apply(r, op), t, k)
    {
      KeyByKey(r, op, t, k);
    }
  }

  lemma OwnIntegration(r: Registry, r': Registry, op: RegistryOp, t: TenantId)
    requires Agree(r, r', t)
    ensures Agree(Apply(r, op), Apply(r', op), t)
  {
    forall k
      ensures AgreeOn(Apply(r, op), Apply(r', op), t, k)
    {
      assert AgreeOn(r, r', t, k);
      KeyByKey(r, op, t, k);
      KeyByKey(r', op, t, k);
    }
  }

  lemma {:induction false} SameSummaries(r: Registry, r': Registry, t: TenantId, n: nat, at: int)
    requires n <= 10 && Agree(r, r', t)
    ensures SummariesOf(r, t, n, at) == SummariesOf(r', t, n, at)
  {
    if n > 0 {
      SameSummaries(r, r', t, n - 1, at);
      assert AgreeOn(r, r', t, KeyAt(n - 1));
    }
  }

  lemma SameReply(r: Registry, r': Registry, op: RegistryOp, at: int)
    requires Agree(r, r', OpTenant(op))
    ensures IntegrationReply(r, op, at) == IntegrationReply(r', op, at)
  {
    var t := OpTenant(op);
    if op.ListAll? {
      SameSummaries(r, r', t, 10, at);
    } else if !op.Notify? {
      OwnIntegration(r, r', op, t);
      assert AgreeOn(r, r', t, op.key);
      assert AgreeOn(Apply(r, op), Apply(r', op), t, op.key);
    }
  }

  lemma {:induction false} SameEventsUpTo(r: Registry, r': Registry, b: Broadcast, n: nat)
    requires n <= 10 && Agree(r, r', b.tenant)
    ensures EventsOf(r, b, n) == EventsOf(r', b, n)
  {
    if n > 0 {
      SameEventsUpTo(r, r', b, n - 1);
      assert AgreeOn(r, r', b.tenant, KeyAt(n - 1));
    }
  }

  lemma SameEvents(r: Registry, r': Registry, b: Broadcast)
    requires Agree(r, r', b.tenant)
    ensures BroadcastEvents(r, b) == BroadcastEvents(r', b)
  {
    OwnIntegration(r, r', ListAll(b.tenant), b.tenant);
    SameEventsUpTo(WithProviders(r, b.tenant, 10), WithProviders(r', b.tenant, 10), b, 10);
  }

  // ---- Timeline events of broadcasts ----

  predicate EventsFor(events: seq<BlockedEvent>, t: TenantId) {
    forall i :: 0 <= i < |events| ==> events[i].tenant == t
  }

  lemma {:induction false} EventsAreOwn(r: Registry, b: Broadcast, n: nat)
    requires n <= 10
    ensures EventsFor(EventsOf(r, b, n), b.tenant)
  {
    if n > 0 {
      EventsAreOwn(r, b, n - 1);
    }
  }

  lemma {:induction false} NotesRestricted(db: Database, events: seq<BlockedEvent>, u: TenantId, t: TenantId)
    requires EventsFor(events, u)
    ensures Restrict(NoteBlocked(db, events), t) == if t == u then NoteBlocked(Restrict(db, t), events) else Restrict(db, t)
    ensures OutcomesOwned(db) ==> OutcomesOwned(NoteBlocked(db, events))
  {
    if events != [] {
      var e := events[|events| - 1];
      NotesRestricted(db, events[..|events| - 1], u, t);
      NoteOwn(NoteBlocked(db, events[..|events| - 1]),
              TimelineEvent(e.tenant, e.incident, None, IntegrationBlocked(e.key, e.result), None), t);
    }
  }

  // ---- Requests ----

  /** The two systems look the same to tenant `t`. */
  ghost predicate Alike(s: System, s': System, t: TenantId) {
    Restrict(s.db, t) == Restrict(s'.db, t) && Agree(s.registry, s'.registry, t)
  }

  lemma AnnounceForeign(s: System, b: Broadcast, t: TenantId)
    requires b.tenant != t
    ensures Alike(s, Announce(s, b), t)
  {
    EventsAreOwn(WithProviders(s.registry, b.tenant, 10), b, 10);
    NotesRestricted(s.db, BroadcastEvents(s.registry, b), b.tenant, t);
    ForeignIntegration(s.registry, Notify(b), t);
  }

  lemma AnnounceOwn(s: System, s': System, b: Broadcast)
    requires Alike(s, s', b.tenant)
    ensures Alike(Announce(s, b), Announce(s', b), b.tenant)
  {
    SameEvents(s.registry, s'.registry, b);
    EventsAreOwn(WithProviders(s.registry, b.tenant, 10), b, 10);
    NotesRestricted(s.db, BroadcastEvents(s.registry, b), b.tenant, b.tenant);
    NotesRestricted(s'.db, BroadcastEvents(s'.registry, b), b.tenant, b.tenant);
    OwnIntegration(s.registry, s'.registry, Notify(b), b.tenant);
  }

  lemma AgreeWithItself(s: System, t: TenantId)
    ensures Alike(s, s, t)
  {
  }

  lemma AlikeTransitive(s: System, s': System, s'': System, t: TenantId)
    requires Alike(s, s', t) && Alike(s', s'', t)
    ensures Alike(s, s'', t)
  {
    forall k
      ensures AgreeOn(s.registry, s''.registry, t, k)
    {
      assert AgreeOn(s.registry, s'.registry, t, k) && AgreeOn(s'.registry, s''.registry, t, k);
    }
  }

  /** A request of another tenant changes nothing that `t` can see. */
  lemma ForeignRequest(s: System, q: Request, t: TenantId)
    requires FreshRequest(s, q) && OutcomesOwned(s.db) && TenantOf(q) != t
    ensures Alike(s, Handle(s, q).0, t)
  {
    if q.StoreRequest? {
      EveryOpIsolated(s.db, q.op, t);
      var (db, answer) := Do(s.db, q.op);
      AgreeWithItself(s, t);
      assert Alike(s, System(db, s.registry), t);
      var b := Announcement(q.op, answer, q.ends);
      if b.Some? {
        AnnounceForeign(System(db, s.registry), b.value, t);
        AlikeTransitive(s, System(db, s.registry), Announce(System(db, s.registry), b.value), t);
      }
    } else if q.integration.Notify? {
      AnnounceForeign(s, q.integration.broadcast, t);
    } else {
      ForeignIntegration(s.registry, q.integration, t);
    }
  }

  /** A request of tenant `t` gets the same answer on systems that look the same to `t`, and keeps them so. */
  lemma OwnRequest(s: System, s': System, q: Request, t: TenantId)
    requires FreshRequest(s, q) && FreshRequest(s', q) && OutcomesOwned(s.db) && OutcomesOwned(s'.db)
    requires TenantOf(q) == t && Alike(s, s', t)
    ensures Handle(s, q).1 == Handle(s', q).1
    ensures Alike(Handle(s, q).0, Handle(s', q).0, t)
  {
    if q.StoreRequest? {
      EveryOpIsolated(s.db, q.op, t);
      EveryOpIsolated(s'.db, q.op, t);
      var (db, answer) := Do(s.db, q.op);
      var (db', answer') := Do(s'.db, q.op);
      assert answer == answer' && Alike(System(db, s.registry), System(db', s'.registry), t);
      var b := Announcement(q.op, answer, q.ends);
      if b.Some? {
        AnnounceOwn(System(db, s.registry), System(db', s'.registry), b.value);
      }
    } else {
      SameReply(s.registry, s'.registry, q.integration, q.at);
      if q.integration.Notify? {
        AnnounceOwn(s, s', q.integration.broadcast);
      } else {
        OwnIntegration(s.registry, s'.registry, q.integration, t);
      }
    }
  }

  lemma OwnedAfter(s: System, q: Request)
    requires FreshRequest(s, q) && OutcomesOwned(s.db)
    ensures OutcomesOwned(Handle(s, q).0.db)
  {
    if q.StoreRequest? {
      OutcomesOwnedKept(s.db, q.op);
      var (db, answer) := Do(s.db, q.op);
      var b := Announcement(q.op, answer, q.ends);
      if b.Some? {
        EventsAreOwn(WithProviders(s.registry, b.value.tenant, 10), b.value, 10);
        NotesRestricted(db, BroadcastEvents(s.registry, b.value), b.value.tenant, b.value.tenant);
      }
    } else if q.integration.Notify? {
      var b := q.integration.broadcast;
      EventsAreOwn(WithProviders(s.registry, b.tenant, 10), b, 10);
      NotesRestricted(s.db, BroadcastEvents(s.registry, b), b.tenant, b.tenant);
    }
  }

  // ---- Runs ----

  function OwnRequests(qs: seq<Request>, t: TenantId): seq<Request> {
    Filter(qs, (q: Request) => TenantOf(q) == t)
  }

  /** The replies to tenant `t`'s requests, in order. */
  function OwnReplies(s: System, qs: seq<Request>, t: TenantId): seq<Reply> {
    if qs == [] then []
    else
      var front, q := qs[..|qs| - 1], qs[|qs| - 1];
      OwnReplies(s, front, t) + if TenantOf(q) == t then [Handle(HandleAll(s, front), q).1] else []
  }

  lemma {:induction false} AlwaysOwned(s: System, qs: seq<Request>)
    requires FreshRequests(s, qs) && OutcomesOwned(s.db)
    ensures OutcomesOwned(HandleAll(s, qs).db)
  {
    if qs != [] {
      AlwaysOwned(s, qs[..|qs| - 1]);
      OwnedAfter(HandleAll(s, qs[..|qs| - 1]), qs[|qs| - 1]);
    }
  }

  /**
   * Isolation over two runs: from systems that look the same to tenant `t`, two runs that interleave `t`'s
   * requests with anything any other tenants do give `t` the same replies and leave it the same rows,
   * configurations and providers.
   */
  lemma {:induction false} TenantsAreIsolated(s: System, qs: seq<Request>, s': System, qs': seq<Request>, t: TenantId)
    requires FreshRequests(s, qs) && FreshRequests(s', qs')
    requires OutcomesOwned(s.db) && OutcomesOwned(s'.db) && Alike(s, s', t)
    requires OwnRequests(qs, t) == OwnRequests(qs', t)
    ensures OwnReplies(s, qs, t) == OwnReplies(s', qs', t)
    ensures Alike(HandleAll(s, qs), HandleAll(s', qs'), t)
    decreases |qs| + |qs'|
  {
    if qs != [] && TenantOf(qs[|qs| - 1]) != t {
      DropForeign(s, qs, t);
      TenantsAreIsolated(s, qs[..|qs| - 1], s', qs', t);
      AlikeSymmetric(HandleAll(s, qs[..|qs| - 1]), HandleAll(s, qs), t);
      AlikeTransitive(HandleAll(s, qs), HandleAll(s, qs[..|qs| - 1]), HandleAll(s', qs'), t);
    } else if qs' != [] && TenantOf(qs'[|qs'| - 1]) != t {
      DropForeign(s', qs', t);
      TenantsAreIsolated(s, qs, s', qs'[..|qs'| - 1], t);
      AlikeTransitive(HandleAll(s, qs), HandleAll(s', qs'[..|qs'| - 1]), HandleAll(s', qs'), t);
    } else if qs != [] {
      SameLastRequest(qs, qs', t);
      var front, front' := qs[..|qs| - 1], qs'[..|qs'| - 1];
      TenantsAreIsolated(s, front, s', front', t);
      AlwaysOwned(s, front);
      AlwaysOwned(s', front');
      OwnRequest(HandleAll(s, front), HandleAll(s', front'), qs[|qs| - 1], t);
    } else {
      assert qs' == [] by {
        assert qs' != [] ==> |OwnRequests(qs', t)| > 0;
      }
    }
  }

  lemma AlikeSymmetric(s: System, s': System, t: TenantId)
    requires Alike(s, s', t)
    ensures Alike(s', s, t)
  {
    forall k
      ensures AgreeOn(s'.registry, s.registry, t, k)
    {
      assert AgreeOn(s.registry, s'.registry, t, k);
    }
  }

  lemma DropForeign(s: System, qs: seq<Request>, t: TenantId)
    requires qs != [] && TenantOf(qs[|qs| - 1]) != t && FreshRequests(s, qs) && OutcomesOwned(s.db)
    ensures OwnRequests(qs[..|qs| - 1], t) == OwnRequests(qs, t)
    ensures OwnReplies(s, qs[..|qs| - 1], t) == OwnReplies(s, qs, t)
    ensures Alike(HandleAll(s, qs[..|qs| - 1]), HandleAll(s, qs), t)
  {
    AlwaysOwned(s, qs[..|qs| - 1]);
    ForeignRequest(HandleAll(s, qs[..|qs| - 1]), qs[|qs| - 1], t);
  }

  lemma SameLastRequest(qs: seq<Request>, qs': seq<Request>, t: TenantId)
    requires OwnRequests(qs, t) == OwnRequests(qs', t)
    requires qs != [] && TenantOf(qs[|qs| - 1]) == t && (qs' != [] ==> TenantOf(qs'[|qs'| - 1]) == t)
    ensures qs' != [] && qs[|qs| - 1] == qs'[|qs'| - 1]
    ensures OwnRequests(qs[..|qs| - 1], t) == OwnRequests(qs'[..|qs'| - 1], t)
  {
    var own, own' := OwnRequests(qs, t), OwnRequests(qs', t);
    assert own == OwnRequests(qs[..|qs| - 1], t) + [qs[|qs| - 1]];
    assert own[..|own| - 1] == OwnRequests(qs[..|qs| - 1], t);
    if qs' != [] {
      assert own' == OwnRequests(qs'[..|qs'| - 1], t) + [qs'[|qs'| - 1]];
      assert own'[..|own'| - 1] == OwnRequests(qs'[..|qs'| - 1], t);
    }
  }

  /** The other direction: nothing a tenant does changes another tenant's rows, configurations or providers. */
  lemma {:induction false} OthersAreUntouched(s: System, qs: seq<Request>, t: TenantId)
    requires FreshRequests(s, qs) && OutcomesOwned(s.db)
    requires forall i :: 0 <= i < |qs| ==> TenantOf(qs[i]) != t
    ensures Alike(s, HandleAll(s, qs), t)
  {
    if qs == [] {
      AgreeWithItself(s, t);
    } else {
      OthersAreUntouched(s, qs[..|qs| - 1], t);
      DropForeign(s, qs, t);
      AlikeTransitive(s, HandleAll(s, qs[..|qs| - 1]), HandleAll(s, qs), t);
    }
  }
}
