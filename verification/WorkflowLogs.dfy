/** The timeline and the audit log tell the whole story: replaying them gives every current status. */
module WorkflowLogs {
  import opened Common
  import opened Registries
  import opened Workflow
  import opened WorkflowFrames

  // ---- Replaying a log ----

  function IncidentStatusIn(timeline: seq<TimelineEvent>, id: Id): Option<IncidentStatus> {
    if timeline == [] then None
    else
      var e := timeline[|timeline| - 1];
      var before := IncidentStatusIn(timeline[..|timeline| - 1], id);
      if e.incidentId != id then before
      else
        match e.kind
        case IncidentCreated => Some(Open)
        case StatusChanged(_, to) => Some(to)
        case _ => before
  }

  function StatusChanges(timeline: seq<TimelineEvent>, id: Id): nat {
    if timeline == [] then 0
    else
      var e := timeline[|timeline| - 1];
      StatusChanges(timeline[..|timeline| - 1], id) + if e.incidentId == id && e.kind.StatusChanged? then 1 else 0
  }

  /** Every status change starts from where the one before it, or the creation, left the incident. */
  predicate Chained(timeline: seq<TimelineEvent>, id: Id) {
    forall j :: 0 <= j < |timeline| && timeline[j].incidentId == id && timeline[j].kind.StatusChanged? ==>
      IncidentStatusIn(timeline[..j], id) == Some(timeline[j].kind.from)
  }

  function DecisionStatusIn(timeline: seq<TimelineEvent>, id: Id): Option<DecisionStatus> {
    if timeline == [] then None
    else
      var e := timeline[|timeline| - 1];
      var before := DecisionStatusIn(timeline[..|timeline| - 1], id);
      if e.decisionId != Some(id) then before
      else
        match e.kind
        case DecisionOpened => Some(Undecided)
        case DecisionDecided(_) => Some(Decided)
        case DecisionCancelled => Some(Cancelled)
        case _ => before
  }

  function RelationshipStatusIn(audit: seq<AuditEntry>, id: Id): Option<RelationshipStatus> {
    if audit == [] then None
    else
      var e := audit[|audit| - 1];
      if e.target != id then RelationshipStatusIn(audit[..|audit| - 1], id)
      else
        match e.action
        case CreateRelationship => Some(Suggested)
        case ConfirmRelationship => Some(Confirmed)
        case RejectRelationship => Some(Rejected)
  }

  // ---- Agreement of the tables with their logs ----

  function Rank(s: IncidentStatus): nat {
    match s
    case Open => 0
    case Mitigated => 1
    case Resolved => 2
    case Closed => 3
  }

  predicate IncidentReplays(incidents: map<Id, Incident>, timeline: seq<TimelineEvent>, id: Id) {
    && Chained(timeline, id)
    && IncidentStatusIn(timeline, id) == (if id in incidents then Some(incidents[id].status) else None)
    && StatusChanges(timeline, id) == (if id in incidents then Rank(incidents[id].status) else 0)
    && (id in incidents ==> (incidents[id].closedAt.Some? <==> incidents[id].status == Closed))
  }

  predicate DecisionReplays(decisions: map<Id, Decision>, timeline: seq<TimelineEvent>, id: Id) {
    && DecisionStatusIn(timeline, id) == (if id in decisions then Some(decisions[id].status) else None)
    && (id in decisions ==>
          && (decisions[id].status == Decided <==> decisions[id].decidedAt.Some?)
          && (decisions[id].status == Decided <==> decisions[id].decidedBy.Some? && decisions[id].humanDecision.Some?))
  }

  predicate RelationshipReplays(relationships: map<Id, Relationship>, links: seq<EvidenceLink>, audit: seq<AuditEntry>, id: Id) {
    && RelationshipStatusIn(audit, id) == (if id in relationships then Some(relationships[id].status) else None)
    && (id in relationships ==>
          && LinksOf(links, relationships[id].tenant, id) != []
          && (relationships[id].status == Confirmed <==> relationships[id].confirmedBy.Some?))
  }

  lemma IncidentStatusStep(timeline: seq<TimelineEvent>, e: TimelineEvent, id: Id)
    ensures IncidentStatusIn(timeline + [e], id) ==
            if e.incidentId == id && e.kind.IncidentCreated? then Some(Open)
            else if e.incidentId == id && e.kind.StatusChanged? then Some(e.kind.to)
            else IncidentStatusIn(timeline, id)
    ensures StatusChanges(timeline + [e], id) ==
            StatusChanges(timeline, id) + if e.incidentId == id && e.kind.StatusChanged? then 1 else 0
    ensures Chained(timeline + [e], id) <==>
            Chained(timeline, id) &&
            (e.incidentId == id && e.kind.StatusChanged? ==> IncidentStatusIn(timeline, id) == Some(e.kind.from))
  {
    var more := timeline + [e];
    assert more[..|timeline|] == timeline;
    assert forall j :: 0 <= j < |timeline| ==> more[..j] == timeline[..j] && more[j] == timeline[j];
    if Chained(more, id) {
      forall j | 0 <= j < |timeline| && timeline[j].incidentId == id && timeline[j].kind.StatusChanged?
        ensures IncidentStatusIn(timeline[..j], id) == Some(timeline[j].kind.from)
      {
        assert more[j].kind.StatusChanged?;
      }
      assert more[|timeline|] == e;
    }
  }

  lemma DecisionStatusStep(timeline: seq<TimelineEvent>, e: TimelineEvent, id: Id)
    ensures DecisionStatusIn(timeline + [e], id) ==
            if e.decisionId != Some(id) then DecisionStatusIn(timeline, id)
            else if e.kind.DecisionOpened? then Some(Undecided)
            else if e.kind.DecisionDecided? then Some(Decided)
            else if e.kind.DecisionCancelled? then Some(Cancelled)
            else DecisionStatusIn(timeline, id)
  {
  }

  // ---- Each operation keeps the agreement ----

  /** Any other operation leaves the incidents alone and logs no creation and no status change. */
  lemma IncidentsUntouched(db: Database, op: Op)
    requires !op.OpCreateIncident? && !op.OpUpdateStatus?
    ensures var db' := Do(db, op).0;
            var e := Added(db, db');
            && db'.incidents == db.incidents
            && db'.timeline == (if e.Some? then db.timeline + [e.value] else db.timeline)
            && (e.Some? ==> !e.value.kind.IncidentCreated? && !e.value.kind.StatusChanged?)
  {
    EffectOf(db, op);
  }

  lemma CreationReplays(db: Database, op: Op, id: Id)
    requires op.OpCreateIncident? && FreshId(db, op) && IncidentReplays(db.incidents, db.timeline, id)
    ensures IncidentReplays(Do(db, op).0.incidents, Do(db, op).0.timeline, id)
  {
    IncidentStatusStep(db.timeline, TimelineEvent(op.tenant, op.id, None, IncidentCreated, Some(op.actor)), id);
  }

  lemma UpdateReplays(db: Database, t: TenantId, actor: Id, changed: Id, to: IncidentStatus, at: int, id: Id)
    requires IncidentReplays(db.incidents, db.timeline, id)
    ensures var db' := UpdateStatus(db, t, actor, changed, to, at).0;
            IncidentReplays(db'.incidents, db'.timeline, id)
  {
    if HasIncident(db, t, changed) {
      var e := TimelineEvent(t, changed, None, StatusChanged(db.incidents[changed].status, to), Some(actor));
      IncidentStatusStep(db.timeline, e, id);
    }
  }

  lemma StatusChangeReplays(db: Database, op: Op, id: Id)
    requires op.OpUpdateStatus? && IncidentReplays(db.incidents, db.timeline, id)
    ensures IncidentReplays(Do(db, op).0.incidents, Do(db, op).0.timeline, id)
  {
    UpdateReplays(db, op.tenant, op.actor, op.id, op.to, op.at, id);
  }

  lemma IncidentReplayKept(db: Database, op: Op, id: Id)
    requires FreshId(db, op) && IncidentReplays(db.incidents, db.timeline, id)
    ensures IncidentReplays(Do(db, op).0.incidents, Do(db, op).0.timeline, id)
  {
    if op.OpCreateIncident? {
      CreationReplays(db, op, id);
    } else if op.OpUpdateStatus? {
      StatusChangeReplays(db, op, id);
    } else {
      IncidentsUntouched(db, op);
      if Added(db, Do(db, op).0).Some? {
        IncidentStatusStep(db.timeline, Added(db, Do(db, op).0).value, id);
      }
    }
  }

  /** Any other operation leaves the decisions alone and logs no step of a decision. */
  lemma DecisionsUntouched(db: Database, op: Op)
    requires !op.OpOpenDecision? && !op.OpDecide? && !op.OpCancel?
    ensures var db' := Do(db, op).0;
            var e := Added(db, db');
            && db'.decisions == db.decisions
            && db'.timeline == (if e.Some? then db.timeline + [e.value] else db.timeline)
            && (e.Some? ==> !e.value.kind.DecisionOpened? && !e.value.kind.DecisionDecided? && !e.value.kind.DecisionCancelled?)
  {
    EffectOf(db, op);
  }

  lemma DecisionStepReplays(db: Database, op: Op, id: Id)
    requires op.OpOpenDecision? || op.OpDecide? || op.OpCancel?
    requires FreshId(db, op) && DecisionReplays(db.decisions, db.timeline, id)
    ensures DecisionReplays(Do(db, op).0.decisions, Do(db, op).0.timeline, id)
  {
    var db' := Do(db, op).0;
    if db' != db {
      assert db'.timeline == db.timeline + [Added(db, db').value];
      DecisionStatusStep(db.timeline, Added(db, db').value, id);
    }
  }

  lemma DecisionReplayKept(db: Database, op: Op, id: Id)
    requires FreshId(db, op) && DecisionReplays(db.decisions, db.timeline, id)
    ensures DecisionReplays(Do(db, op).0.decisions, Do(db, op).0.timeline, id)
  {
    if op.OpOpenDecision? || op.OpDecide? || op.OpCancel? {
      DecisionStepReplays(db, op, id);
    } else {
      DecisionsUntouched(db, op);
      if Added(db, Do(db, op).0).Some? {
        DecisionStatusStep(db.timeline, Added(db, Do(db, op).0).value, id);
      }
    }
  }

  lemma RelationshipsUntouched(db: Database, op: Op)
    requires !op.OpRelate? && !op.OpConfirm? && !op.OpReject?
    ensures var db' := Do(db, op).0;
            db'.relationships == db.relationships && db'.links == db.links && db'.audit == db.audit
  {
    EffectOf(db, op);
  }

  lemma RelationshipStatusStep(audit: seq<AuditEntry>, e: AuditEntry, id: Id)
    ensures RelationshipStatusIn(audit + [e], id) ==
            if e.target != id then RelationshipStatusIn(audit, id)
            else match e.action
                 case CreateRelationship => Some(Suggested)
                 case ConfirmRelationship => Some(Confirmed)
                 case RejectRelationship => Some(Rejected)
  {
  }

  lemma RelateReplays(db: Database, op: Op, id: Id)
    requires op.OpRelate? && FreshId(db, op) && RelationshipReplays(db.relationships, db.links, db.audit, id)
    ensures var db' := Do(db, op).0; RelationshipReplays(db'.relationships, db'.links, db'.audit, id)
  {
  }

  lemma ConfirmReplays(db: Database, t: TenantId, actor: Id, confirmed: Id, at: int, id: Id)
    requires RelationshipReplays(db.relationships, db.links, db.audit, id)
    ensures var db' := Confirm(db, t, actor, confirmed, at).0;
            RelationshipReplays(db'.relationships, db'.links, db'.audit, id)
  {
    assert db.links + [] == db.links;
    RelationshipStatusStep(db.audit, AuditEntry(t, actor, ConfirmRelationship, confirmed), id);
  }

  lemma RejectReplays(db: Database, t: TenantId, actor: Id, rejected: Id, id: Id)
    requires RelationshipReplays(db.relationships, db.links, db.audit, id)
    ensures var db' := Reject(db, t, actor, rejected).0;
            RelationshipReplays(db'.relationships, db'.links, db'.audit, id)
  {
    assert db.links + [] == db.links;
    RelationshipStatusStep(db.audit, AuditEntry(t, actor, RejectRelationship, rejected), id);
  }

  lemma ReviewReplays(db: Database, op: Op, id: Id)
    requires (op.OpConfirm? || op.OpReject?) && RelationshipReplays(db.relationships, db.links, db.audit, id)
    ensures var db' := Do(db, op).0; RelationshipReplays(db'.relationships, db'.links, db'.audit, id)
  {
    if op.OpConfirm? {
      ConfirmReplays(db, op.tenant, op.actor, op.id, op.at, id);
    } else {
      RejectReplays(db, op.tenant, op.actor, op.id, id);
    }
  }

  lemma RelationshipReplayKept(db: Database, op: Op, id: Id)
    requires FreshId(db, op) && RelationshipReplays(db.relationships, db.links, db.audit, id)
    ensures var db' := Do(db, op).0; RelationshipReplays(db'.relationships, db'.links, db'.audit, id)
  {
    if op.OpRelate? {
      RelateReplays(db, op, id);
    } else if op.OpConfirm? || op.OpReject? {
      ReviewReplays(db, op, id);
    } else {
      RelationshipsUntouched(db, op);
    }
  }

  /**
   * In every reachable state, for every id: the incident's, decision's and relationship's current status is
   * what its log replays to; each status change starts where the previous one ended, so there are as many as
   * the status's rank (at most three); closedAt is set iff CLOSED; a decision is DECIDED iff it names a
   * human, a text and a time; and every relationship cites evidence.
   */
  lemma {:induction false} LogsReplayToCurrentState(ops: seq<Op>, id: Id)
    requires FreshIds(EMPTY, ops)
    ensures var db := Run(EMPTY, ops);
            && IncidentReplays(db.incidents, db.timeline, id)
            && DecisionReplays(db.decisions, db.timeline, id)
            && RelationshipReplays(db.relationships, db.links, db.audit, id)
            && StatusChanges(db.timeline, id) <= 3
  {
    if ops != [] {
      var n := |ops| - 1;
      LogsReplayToCurrentState(ops[..n], id);
      IncidentReplayKept(Run(EMPTY, ops[..n]), ops[n], id);
      DecisionReplayKept(Run(EMPTY, ops[..n]), ops[n], id);
      RelationshipReplayKept(Run(EMPTY, ops[..n]), ops[n], id);
    }
  }

  // ---- What never changes again ----

  predicate Settled(db: Database, id: Id) {
    id in db.decisions && db.decisions[id].status != Undecided
  }

  lemma DecisionOpSettles(db: Database, op: Op, id: Id)
    requires op.OpOpenDecision? || op.OpDecide? || op.OpCancel?
    requires FreshId(db, op) && Settled(db, id)
    ensures var db' := Do(db, op).0; id in db'.decisions && db'.decisions[id] == db.decisions[id]
  {
  }

  lemma SettledStep(db: Database, op: Op, id: Id)
    requires FreshId(db, op) && Settled(db, id)
    ensures var db' := Do(db, op).0; id in db'.decisions && db'.decisions[id] == db.decisions[id]
  {
    if op.OpOpenDecision? || op.OpDecide? || op.OpCancel? {
      DecisionOpSettles(db, op, id);
    } else {
      EffectOf(db, op);
    }
  }

  /** A decided or cancelled decision, and everything about it, stays as it is. */
  lemma {:induction false} DecidedIsFinal(db: Database, ops: seq<Op>, id: Id)
    requires FreshIds(db, ops) && Settled(db, id)
    ensures id in Run(db, ops).decisions && Run(db, ops).decisions[id] == db.decisions[id]
  {
    if ops != [] {
      DecidedIsFinal(db, ops[..|ops| - 1], id);
      SettledStep(Run(db, ops[..|ops| - 1]), ops[|ops| - 1], id);
    }
  }

  /** Everything but the status and the closing time is the same, and the status has not gone back. */
  predicate Advanced(was: Incident, now: Incident) {
    && now == was.(status := now.status, closedAt := now.closedAt)
    && Rank(was.status) <= Rank(now.status)
    && (was.status == now.status ==> now == was)
  }

  lemma IncidentOpStep(db: Database, op: Op, id: Id)
    requires op.OpCreateIncident? || op.OpUpdateStatus?
    requires FreshId(db, op) && id in db.incidents
    ensures var db' := Do(db, op).0; id in db'.incidents && Advanced(db.incidents[id], db'.incidents[id])
  {
  }

  lemma IncidentStep(db: Database, op: Op, id: Id)
    requires FreshId(db, op) && id in db.incidents
    ensures var db' := Do(db, op).0; id in db'.incidents && Advanced(db.incidents[id], db'.incidents[id])
  {
    if op.OpCreateIncident? || op.OpUpdateStatus? {
      IncidentOpStep(db, op, id);
    } else {
      EffectOf(db, op);
    }
  }

  lemma {:induction false} IncidentOnlyAdvances(db: Database, ops: seq<Op>, id: Id)
    requires FreshIds(db, ops) && id in db.incidents
    ensures id in Run(db, ops).incidents && Advanced(db.incidents[id], Run(db, ops).incidents[id])
  {
    if ops != [] {
      IncidentOnlyAdvances(db, ops[..|ops| - 1], id);
      IncidentStep(Run(db, ops[..|ops| - 1]), ops[|ops| - 1], id);
    }
  }
}
