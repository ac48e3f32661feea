/**
 * What a run's operations alone say about every row, one row at a time and without a store, and that every
 * reachable store holds exactly these rows.
 */
module WorkflowHistory {
  import opened Common
  import opened Registries
  import opened Workflow
  import opened WorkflowFrames
  import opened WorkflowLogs

  function Lookup<K, V>(m: map<K, V>, k: K): Option<V> {
    if k in m then Some(m[k]) else None
  }

  // ---- Members and entities ----

  function MemberNext(before: bool, op: Op, t: TenantId, user: Id): bool {
    if op.OpAddMember? && op.tenant == t && op.user == user then true
    else if op.OpRemoveMember? && op.tenant == t && op.user == user then false
    else before
  }

  function MemberIn(ops: seq<Op>, t: TenantId, user: Id): bool {
    if ops == [] then false else MemberNext(MemberIn(ops[..|ops| - 1], t, user), ops[|ops| - 1], t, user)
  }

  lemma {:induction false} MembersAreThoseAdded(ops: seq<Op>, t: TenantId, user: Id)
    ensures (user, t) in Run(EMPTY, ops).members <==> MemberIn(ops, t, user)
  {
    if ops != [] {
      MembersAreThoseAdded(ops[..|ops| - 1], t, user);
      EffectOf(Run(EMPTY, ops[..|ops| - 1]), ops[|ops| - 1]);
    }
  }

  function EntityIn(ops: seq<Op>, id: Id): Option<TenantId> {
    if ops == [] then None
    else
      var op := ops[|ops| - 1];
      if op.OpAddEntity? && op.id == id then Some(op.tenant) else EntityIn(ops[..|ops| - 1], id)
  }

  lemma {:induction false} EntitiesAreThoseAdded(ops: seq<Op>, id: Id)
    ensures Lookup(Run(EMPTY, ops).entities, id) == EntityIn(ops, id)
  {
    if ops != [] {
      EntitiesAreThoseAdded(ops[..|ops| - 1], id);
      EffectOf(Run(EMPTY, ops[..|ops| - 1]), ops[|ops| - 1]);
    }
  }

  // ---- Incidents ----

  /** Created as asked, then moved one rank at a time by its own tenant, and dated when it is closed. */
  function IncidentNext(before: Option<Incident>, op: Op, id: Id): Option<Incident> {
    if op.OpCreateIncident? && op.id == id then
      Some(Incident(op.tenant, op.title, op.severity, op.kind, Open, op.actor, op.at, None))
    else if op.OpUpdateStatus? && op.id == id && before.Some? && before.value.tenant == op.tenant
            && Rank(op.to) == Rank(before.value.status) + 1 then
      Some(before.value.(status := op.to, closedAt := if op.to == Closed then Some(op.at) else None))
    else before
  }

  function IncidentIn(ops: seq<Op>, id: Id): Option<Incident> {
    if ops == [] then None else IncidentNext(IncidentIn(ops[..|ops| - 1], id), ops[|ops| - 1], id)
  }

  /** An incident is dated only once it is closed, which nothing follows. */
  predicate Undated(incident: Option<Incident>) {
    incident.Some? && incident.value.status != Closed ==> incident.value.closedAt.None?
  }

  lemma IncidentOpStep(db: Database, op: Op, id: Id)
    requires (op.OpCreateIncident? || op.OpUpdateStatus?) && Undated(Lookup(db.incidents, id))
    ensures Lookup(Do(db, op).0.incidents, id) == IncidentNext(Lookup(db.incidents, id), op, id)
  {
  }

  lemma {:induction false} IncidentsAreWhatWasDone(ops: seq<Op>, id: Id)
    ensures Lookup(Run(EMPTY, ops).incidents, id) == IncidentIn(ops, id) && Undated(IncidentIn(ops, id))
  {
    if ops != [] {
      var n := |ops| - 1;
      IncidentsAreWhatWasDone(ops[..n], id);
      if ops[n].OpCreateIncident? || ops[n].OpUpdateStatus? {
        IncidentOpStep(Run(EMPTY, ops[..n]), ops[n], id);
      } else {
        EffectOf(Run(EMPTY, ops[..n]), ops[n]);
      }
    }
  }

  predicate Owns(incident: Option<Incident>, t: TenantId) {
    incident.Some? && incident.value.tenant == t
  }

  // ---- Decisions ----

  /** Whether `op` may open this decision, or decide it: its incident is known, the person named is a member. */
  datatype Known = Known(incident: bool, decider: bool)

  function DecisionNext(before: Option<Decision>, op: Op, id: Id, known: Known): Option<Decision> {
    if op.OpOpenDecision? && op.id == id then
      if known.incident then Some(Decision(op.tenant, op.incidentId, op.question, Undecided, None, None, None, None, op.actor))
      else before
    else if before.None? || before.value.tenant != op.tenant || before.value.status != Undecided then before
    else if op.OpDecide? && op.id == id && known.decider then
      Some(before.value.(status := Decided, humanDecision := Some(op.humanDecision), rationale := op.rationale,
                         decidedBy := Some(op.decidedBy), decidedAt := Some(op.at)))
    else if op.OpCancel? && op.id == id then Some(before.value.(status := Cancelled))
    else before
  }

  function KnownTo(ops: seq<Op>, op: Op): Known {
    Known(op.OpOpenDecision? && Owns(IncidentIn(ops, op.incidentId), op.tenant),
          op.OpDecide? && MemberIn(ops, op.tenant, op.decidedBy))
  }

  function DecisionIn(ops: seq<Op>, id: Id): Option<Decision> {
    if ops == [] then None
    else
      var front, op := ops[..|ops| - 1], ops[|ops| - 1];
      DecisionNext(DecisionIn(front, id), op, id, KnownTo(front, op))
  }

  lemma OpenOpStep(db: Database, op: Op, id: Id, known: Known)
    requires op.OpOpenDecision? && (known.incident <==> Owns(Lookup(db.incidents, op.incidentId), op.tenant))
    ensures Lookup(Do(db, op).0.decisions, id) == DecisionNext(Lookup(db.decisions, id), op, id, known)
  {
  }

  lemma DecideOpStep(db: Database, op: Op, id: Id, known: Known)
    requires op.OpDecide? && (known.decider <==> (op.decidedBy, op.tenant) in db.members)
    ensures Lookup(Do(db, op).0.decisions, id) == DecisionNext(Lookup(db.decisions, id), op, id, known)
  {
  }

  lemma CancelOpStep(db: Database, op: Op, id: Id, known: Known)
    requires op.OpCancel?
    ensures Lookup(Do(db, op).0.decisions, id) == DecisionNext(Lookup(db.decisions, id), op, id, known)
  {
  }

  lemma {:induction false} DecisionsAreWhatWasDone(ops: seq<Op>, id: Id)
    ensures Lookup(Run(EMPTY, ops).decisions, id) == DecisionIn(ops, id)
  {
    if ops != [] {
      var n := |ops| - 1;
      var front, op := ops[..n], ops[n];
      DecisionsAreWhatWasDone(front, id);
      if op.OpOpenDecision? {
        IncidentsAreWhatWasDone(front, op.incidentId);
        OpenOpStep(Run(EMPTY, front), op, id, KnownTo(front, op));
      } else if op.OpDecide? {
        MembersAreThoseAdded(front, op.tenant, op.decidedBy);
        DecideOpStep(Run(EMPTY, front), op, id, KnownTo(front, op));
      } else if op.OpCancel? {
        CancelOpStep(Run(EMPTY, front), op, id, KnownTo(front, op));
      } else {
        EffectOf(Run(EMPTY, front), op);
      }
    }
  }

  // ---- Who decided what ----

  /** The `k`-th operation is the one that decided this decision, as it says it was decided. */
  predicate DecidedBy(ops: seq<Op>, k: nat, id: Id, d: Decision)
    requires k < |ops|
  {
    var op, before := ops[k], DecisionIn(ops[..k], id);
    && op.OpDecide? && op.id == id && MemberIn(ops[..k], op.tenant, op.decidedBy)
    && before.Some? && before.value.status == Undecided && before.value.tenant == op.tenant
    && d == before.value.(status := Decided, humanDecision := Some(op.humanDecision), rationale := op.rationale,
                          decidedBy := Some(op.decidedBy), decidedAt := Some(op.at))
  }

  /** Every decided decision names who decided it, and that was a member of its tenant at the time. */
  lemma {:induction false} DecisionsAreTraced(ops: seq<Op>, id: Id) returns (k: nat)
    requires DecisionIn(ops, id).Some? && DecisionIn(ops, id).value.status == Decided
    ensures k < |ops| && DecidedBy(ops, k, id, DecisionIn(ops, id).value)
  {
    var n := |ops| - 1;
    if DecisionIn(ops[..n], id) == DecisionIn(ops, id) {
      k := DecisionsAreTraced(ops[..n], id);
      assert ops[..n][..k] == ops[..k];
    } else {
      k := n;
    }
  }

  /** No operation opens a decision under an id that is in use. */
  predicate OpenedOnce(ops: seq<Op>, id: Id) {
    forall k :: 0 <= k < |ops| ==> OpensFreshly(ops, k, id)
  }

  predicate OpensFreshly(ops: seq<Op>, k: nat, id: Id)
    requires k < |ops|
  {
    ops[k].OpOpenDecision? && ops[k].id == id ==> DecisionIn(ops[..k], id).None?
  }

  lemma OpensOnceMore(ops: seq<Op>, id: Id)
    requires ops != [] && OpenedOnce(ops[..|ops| - 1], id) && OpensFreshly(ops, |ops| - 1, id)
    ensures OpenedOnce(ops, id)
  {
    var front := ops[..|ops| - 1];
    forall k | 0 <= k < |front|
      ensures OpensFreshly(ops, k, id)
    {
      assert front[..k] == ops[..k] && OpensFreshly(front, k, id);
    }
  }

  lemma {:induction false} FreshIdsOpenOnce(ops: seq<Op>, id: Id)
    requires FreshIds(EMPTY, ops)
    ensures OpenedOnce(ops, id)
  {
    if ops != [] {
      var n := |ops| - 1;
      FreshIdsOpenOnce(ops[..n], id);
      FreshOpening(ops[..n], ops[n], id);
      OpensOnceMore(ops, id);
    }
  }

  lemma FreshOpening(front: seq<Op>, op: Op, id: Id)
    requires FreshId(Run(EMPTY, front), op)
    ensures op.OpOpenDecision? && op.id == id ==> DecisionIn(front, id).None?
  {
    DecisionsAreWhatWasDone(front, id);
  }

  lemma OpenedOncePrefix(ops: seq<Op>, n: nat, id: Id)
    requires OpenedOnce(ops, id) && n <= |ops|
    ensures OpenedOnce(ops[..n], id)
  {
    forall k | 0 <= k < n
      ensures OpensFreshly(ops[..n], k, id)
    {
      assert ops[..n][..k] == ops[..k] && OpensFreshly(ops, k, id);
    }
  }

  lemma OneMoreStays(before: Option<Decision>, op: Op, id: Id, known: Known)
    requires before.Some? && before.value.status != Undecided && !(op.OpOpenDecision? && op.id == id)
    ensures DecisionNext(before, op, id, known) == before
  {
  }

  lemma {:induction false} ReviewedStays(ops: seq<Op>, m: nat, id: Id)
    requires OpenedOnce(ops, id) && m <= |ops|
    requires DecisionIn(ops[..m], id).Some? && DecisionIn(ops[..m], id).value.status != Undecided
    ensures DecisionIn(ops, id) == DecisionIn(ops[..m], id)
    decreases |ops|
  {
    if m == |ops| {
      assert ops[..m] == ops;
    } else {
      var n := |ops| - 1;
      assert ops[..n][..m] == ops[..m];
      OpenedOncePrefix(ops, n, id);
      ReviewedStays(ops[..n], m, id);
      assert OpensFreshly(ops, n, id);
      OneMoreStays(DecisionIn(ops[..n], id), ops[n], id, KnownTo(ops[..n], ops[n]));
    }
  }

  /** And by exactly one operation. */
  lemma DecidedOnce(ops: seq<Op>, j: nat, k: nat, id: Id, d: Decision, e: Decision)
    requires OpenedOnce(ops, id) && j < |ops| && k < |ops| && DecidedBy(ops, j, id, d) && DecidedBy(ops, k, id, e)
    ensures j == k
  {
    if j < k {
      DecidedNotAgain(ops, j, k, id);
    } else if k < j {
      DecidedNotAgain(ops, k, j, id);
    }
  }

  lemma DecidedNotAgain(ops: seq<Op>, j: nat, k: nat, id: Id)
    requires OpenedOnce(ops, id) && j < k < |ops| && ops[j].OpDecide? && ops[j].id == id
    requires MemberIn(ops[..j], ops[j].tenant, ops[j].decidedBy)
    requires DecisionIn(ops[..j], id).Some? && DecisionIn(ops[..j], id).value.status == Undecided
    requires DecisionIn(ops[..j], id).value.tenant == ops[j].tenant
    ensures DecisionIn(ops[..k], id).Some? && DecisionIn(ops[..k], id).value.status == Decided
  {
    assert ops[..j + 1][..j] == ops[..j];
    assert ops[..k][..j + 1] == ops[..j + 1];
    OpenedOncePrefix(ops, k, id);
    ReviewedStays(ops[..k], j + 1, id);
  }
}
