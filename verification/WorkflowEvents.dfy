/** The timeline and the audit log are exactly what the accepted operations of a run say, one entry each, in order. */
module WorkflowEvents {
  import opened Common
  import opened Registries
  import opened Workflow
  import opened WorkflowFrames
  import opened WorkflowGates
  import opened WorkflowHistory
  import opened WorkflowLogs
  import opened WorkflowRecords

  /** An incident of this tenant and rank can be moved to `to`. */
  predicate CanMove(incident: Option<Incident>, t: TenantId, to: IncidentStatus) {
    Owns(incident, t) && Rank(to) == Rank(incident.value.status) + 1
  }

  predicate CanReview(d: Option<Decision>, t: TenantId) {
    d.Some? && d.value.tenant == t && d.value.status == Undecided
  }

  predicate CanAnalyze(front: seq<Op>, op: Op)
    requires op.OpAnalyze?
  {
    var incident := IncidentIn(front, op.incidentId);
    Owns(incident, op.tenant) && op.dto.valid
    && NoneTooEarly(EvidenceIn(front), op.tenant, op.incidentId, incident.value.severity, op.now)
  }

  /** The event an operation leaves behind when it is accepted. `link` is the analysis a recorded outcome links to. */
  function EventNext(front: seq<Op>, op: Op, link: Option<Id>): seq<TimelineEvent> {
    match op
    case OpCreateIncident(t, actor, id, _, _, _, _) => [TimelineEvent(t, id, None, IncidentCreated, Some(actor))]
    case OpUpdateStatus(t, actor, id, to, _) =>
      var incident := IncidentIn(front, id);
      if CanMove(incident, t, to) then [TimelineEvent(t, id, None, StatusChanged(incident.value.status, to), Some(actor))] else []
    case OpOpenDecision(t, actor, id, incidentId, _, _) =>
      if Owns(IncidentIn(front, incidentId), t)
      then [TimelineEvent(t, incidentId, Some(id), DecisionOpened, Some(actor))] else []
    case OpDecide(t, actor, id, decidedBy, _, _, _) =>
      var d := DecisionIn(front, id);
      if CanReview(d, t) && MemberIn(front, t, decidedBy)
      then [TimelineEvent(t, d.value.incidentId, Some(id), DecisionDecided(decidedBy), Some(actor))] else []
    case OpCancel(t, actor, id, _) =>
      var d := DecisionIn(front, id);
      if CanReview(d, t) then [TimelineEvent(t, d.value.incidentId, Some(id), DecisionCancelled, Some(actor))] else []
    case OpAddEvidence(t, submitter, _, incidentId, decisionId, _, _, _) =>
      if EvidenceNext(front, op) != [] then [TimelineEvent(t, incidentId, decisionId, EvidenceAdded, submitter)] else []
    case OpAnalyze(t, actor, id, incidentId, _, _, _) =>
      if CanAnalyze(front, op) then [TimelineEvent(t, incidentId, None, AnalysisGenerated(id), Some(actor))] else []
    case OpRecordOutcome(t, actor, id, _, _) =>
      if OverIn(front, op) && OutcomeIn(front, id).None?
      then [TimelineEvent(t, DecisionIn(front, id).value.incidentId, Some(id), OutcomeRecorded(link), Some(actor))] else []
    case OpBlocked(t, incidentId, key, result, _) => [TimelineEvent(t, incidentId, None, IntegrationBlocked(key, result), None)]
    case _ => []
  }

  /** The analysis that the outcome of this decision is linked to after these operations. */
  function LinkAfter(ops: seq<Op>, op: Op): Option<Id> {
    if op.OpRecordOutcome? && op.id in Run(EMPTY, ops).outcomes then Run(EMPTY, ops).outcomes[op.id].analysisId else None
  }

  function EventsIn(ops: seq<Op>): seq<TimelineEvent> {
    if ops == [] then []
    else
      var front, op := ops[..|ops| - 1], ops[|ops| - 1];
      EventsIn(front) + EventNext(front, op, LinkAfter(ops, op))
  }

  lemma CreateIncidentEvents(front: seq<Op>, op: Op, link: Option<Id>)
    requires op.OpCreateIncident?
    ensures var db := Run(EMPTY, front); Do(db, op).0.timeline == db.timeline + EventNext(front, op, link)
  {
  }

  lemma UpdateStatusNotes(db: Database, t: TenantId, actor: Id, id: Id, to: IncidentStatus, at: int)
    ensures var incident := Lookup(db.incidents, id);
            UpdateStatus(db, t, actor, id, to, at).0.timeline == db.timeline +
            if CanMove(incident, t, to) then [TimelineEvent(t, id, None, StatusChanged(incident.value.status, to), Some(actor))] else []
  {
  }

  lemma UpdateStatusEvents(front: seq<Op>, op: Op, link: Option<Id>)
    requires op.OpUpdateStatus?
    ensures var db := Run(EMPTY, front); Do(db, op).0.timeline == db.timeline + EventNext(front, op, link)
  {
    IncidentsAreWhatWasDone(front, op.id);
    UpdateStatusNotes(Run(EMPTY, front), op.tenant, op.actor, op.id, op.to, op.at);
  }

  lemma OpenDecisionEvents(front: seq<Op>, op: Op, link: Option<Id>)
    requires op.OpOpenDecision?
    ensures var db := Run(EMPTY, front); Do(db, op).0.timeline == db.timeline + EventNext(front, op, link)
  {
    IncidentsAreWhatWasDone(front, op.incidentId);
  }

  lemma DecideNotes(db: Database, t: TenantId, actor: Id, id: Id, decidedBy: Id, text: string, why: Option<string>, at: int)
    ensures var d := Lookup(db.decisions, id);
            Decide(db, t, actor, id, decidedBy, text, why, at).0.timeline == db.timeline +
            if CanReview(d, t) && (decidedBy, t) in db.members
            then [TimelineEvent(t, d.value.incidentId, Some(id), DecisionDecided(decidedBy), Some(actor))] else []
  {
  }

  lemma DecideEvents(front: seq<Op>, op: Op, link: Option<Id>)
    requires op.OpDecide?
    ensures var db := Run(EMPTY, front); Do(db, op).0.timeline == db.timeline + EventNext(front, op, link)
  {
    DecisionsAreWhatWasDone(front, op.id);
    MembersAreThoseAdded(front, op.tenant, op.decidedBy);
    DecideNotes(Run(EMPTY, front), op.tenant, op.actor, op.id, op.decidedBy, op.humanDecision, op.rationale, op.at);
  }

  lemma CancelEvents(front: seq<Op>, op: Op, link: Option<Id>)
    requires op.OpCancel?
    ensures var db := Run(EMPTY, front); Do(db, op).0.timeline == db.timeline + EventNext(front, op, link)
  {
    DecisionsAreWhatWasDone(front, op.id);
  }

  lemma AddEvidenceNotes(db: Database, op: Op)
    requires op.OpAddEvidence?
    ensures var after := Do(db, op).0;
            after.timeline == db.timeline +
            if |after.evidence| > |db.evidence| then [TimelineEvent(op.tenant, op.incidentId, op.decisionId, EvidenceAdded, op.submitter)]
            else []
  {
  }

  lemma EvidenceEvents(front: seq<Op>, op: Op, link: Option<Id>)
    requires op.OpAddEvidence?
    ensures var db := Run(EMPTY, front); Do(db, op).0.timeline == db.timeline + EventNext(front, op, link)
  {
    AddEvidenceNotes(Run(EMPTY, front), op);
    EvidenceIsWhatWasAdded(front);
    EvidenceIsWhatWasAdded(front + [op]);
    assert (front + [op])[..|front|] == front;
  }

  lemma AnalyzeEvents(front: seq<Op>, op: Op, link: Option<Id>)
    requires op.OpAnalyze?
    ensures var db := Run(EMPTY, front); Do(db, op).0.timeline == db.timeline + EventNext(front, op, link)
  {
    var db := Run(EMPTY, front);
    IncidentsAreWhatWasDone(front, op.incidentId);
    EvidenceIsWhatWasAdded(front);
    AnalyzeAcceptedIff(db, op.tenant, op.actor, op.id, op.incidentId, op.dto, op.now, op.at);
    AnalyzeWrites(db, op.tenant, op.actor, op.id, op.incidentId, op.dto, op.now, op.at);
  }

  lemma RecordOutcomeNotes(db: Database, t: TenantId, actor: Id, id: Id, quality: Quality, at: int, incident: Option<Incident>)
    requires var d := Lookup(db.decisions, id); d.Some? ==> incident == Lookup(db.incidents, d.value.incidentId)
    ensures var after := RecordOutcome(db, t, actor, id, quality, at).0;
            var d := Lookup(db.decisions, id);
            after.timeline == db.timeline +
            if IsOver(d, incident, t) && id !in db.outcomes
            then [TimelineEvent(t, d.value.incidentId, Some(id), OutcomeRecorded(after.outcomes[id].analysisId), Some(actor))] else []
  {
  }

  lemma OutcomeEvents(front: seq<Op>, op: Op)
    requires op.OpRecordOutcome?
    ensures var db := Run(EMPTY, front);
            var after := Do(db, op).0;
            var link := if op.id in after.outcomes then after.outcomes[op.id].analysisId else None;
            after.timeline == db.timeline + EventNext(front, op, link)
  {
    var d := DecisionIn(front, op.id);
    var incident := if d.Some? then IncidentIn(front, d.value.incidentId) else None;
    DecisionsAreWhatWasDone(front, op.id);
    OutcomesAreWhatWasRecorded(front, op.id);
    if d.Some? {
      IncidentsAreWhatWasDone(front, d.value.incidentId);
    }
    RecordOutcomeNotes(Run(EMPTY, front), op.tenant, op.actor, op.id, op.quality, op.at, incident);
  }

  lemma OtherEvents(front: seq<Op>, op: Op, link: Option<Id>)
    requires op.OpListAnalyses? || op.OpAddMember? || op.OpRemoveMember? || op.OpAddEntity? || op.OpBlocked?
             || op.OpRelate? || op.OpConfirm? || op.OpReject?
    ensures var db := Run(EMPTY, front); Do(db, op).0.timeline == db.timeline + EventNext(front, op, link)
  {
    EffectOf(Run(EMPTY, front), op);
  }

  lemma {:induction false} TimelineIsWhatWasDone(ops: seq<Op>)
    ensures Run(EMPTY, ops).timeline == EventsIn(ops)
  {
    if ops != [] {
      var front, op := ops[..|ops| - 1], ops[|ops| - 1];
      TimelineIsWhatWasDone(front);
      var link := LinkAfter(ops, op);
      if op.OpCreateIncident? {
        CreateIncidentEvents(front, op, link);
      } else if op.OpUpdateStatus? {
        UpdateStatusEvents(front, op, link);
      } else if op.OpOpenDecision? {
        OpenDecisionEvents(front, op, link);
      } else if op.OpDecide? {
        DecideEvents(front, op, link);
      } else if op.OpCancel? {
        CancelEvents(front, op, link);
      } else if op.OpAddEvidence? {
        EvidenceEvents(front, op, link);
      } else if op.OpAnalyze? {
        AnalyzeEvents(front, op, link);
      } else if op.OpRecordOutcome? {
        OutcomeEvents(front, op);
      } else {
        OtherEvents(front, op, link);
      }
    }
  }

  lemma {:induction false} EventsPrefix(ops: seq<Op>, k: nat)
    requires k <= |ops|
    ensures EventsIn(ops[..k]) <= EventsIn(ops)
    decreases |ops|
  {
    if k == |ops| {
      assert ops[..k] == ops;
    } else {
      var front, last := ops[..|ops| - 1], ops[|ops| - 1];
      EventsPrefix(front, k);
      assert front[..k] == ops[..k];
      assert EventsIn(ops) == EventsIn(front) + EventNext(front, last, LinkAfter(ops, last));
    }
  }

  lemma DecidedIsNoted(ops: seq<Op>, k: nat, id: Id, d: Decision)
    requires k < |ops| && DecidedBy(ops, k, id, d)
    ensures var j := |EventsIn(ops[..k])|;
            j < |EventsIn(ops)| &&
            EventsIn(ops)[j] == TimelineEvent(d.tenant, d.incidentId, Some(id), DecisionDecided(ops[k].decidedBy), Some(ops[k].actor))
  {
    assert ops[..k + 1][..k] == ops[..k];
    EventsPrefix(ops, k + 1);
  }

  /** The `k`-th operation decided this decision: it names the person, a member then, and so does its event. */
  predicate DecidedInStore(ops: seq<Op>, k: nat, id: Id, d: Decision)
    requires k < |ops|
  {
    var op := ops[k];
    && op.OpDecide? && op.id == id && op.tenant == d.tenant
    && d.decidedBy == Some(op.decidedBy) && d.humanDecision == Some(op.humanDecision)
    && d.rationale == op.rationale && d.decidedAt == Some(op.at)
    && (op.decidedBy, d.tenant) in Run(EMPTY, ops[..k]).members
    && TimelineEvent(d.tenant, d.incidentId, Some(id), DecisionDecided(op.decidedBy), Some(op.actor)) in Run(EMPTY, ops).timeline
  }

  /** In every reachable state every decided decision was decided by an operation that says so in every field. */
  lemma DecidedDecisionsAreTraced(ops: seq<Op>, id: Id, d: Decision) returns (k: nat)
    requires Lookup(Run(EMPTY, ops).decisions, id) == Some(d) && d.status == Decided
    ensures k < |ops| && DecidedInStore(ops, k, id, d)
  {
    DecisionsAreWhatWasDone(ops, id);
    k := DecisionsAreTraced(ops, id);
    DecidedIsInStore(ops, k, id, d);
  }

  lemma DecidedIsInStore(ops: seq<Op>, k: nat, id: Id, d: Decision)
    requires k < |ops| && DecidedBy(ops, k, id, d)
    ensures DecidedInStore(ops, k, id, d)
  {
    MembersAreThoseAdded(ops[..k], ops[k].tenant, ops[k].decidedBy);
    DecidedIsNoted(ops, k, id, d);
    TimelineIsWhatWasDone(ops);
  }

  // ---- The audit log ----

  predicate CanReviewLink(r: Option<Relationship>, t: TenantId) {
    r.Some? && r.value.tenant == t && r.value.status == Suggested
  }

  function AuditNext(front: seq<Op>, op: Op): seq<AuditEntry> {
    match op
    case OpRelate(t, actor, id, _, _, _, _) =>
      if Relatable(front, op) then [AuditEntry(t, actor, CreateRelationship, id)] else []
    case OpConfirm(t, actor, id, _) =>
      if CanReviewLink(RelationshipIn(front, id), t) && Cited(LinksIn(front), t, id)
      then [AuditEntry(t, actor, ConfirmRelationship, id)] else []
    case OpReject(t, actor, id, _) =>
      if CanReviewLink(RelationshipIn(front, id), t) then [AuditEntry(t, actor, RejectRelationship, id)] else []
    case _ => []
  }

  function AuditIn(ops: seq<Op>): seq<AuditEntry> {
    if ops == [] then [] else AuditIn(ops[..|ops| - 1]) + AuditNext(ops[..|ops| - 1], ops[|ops| - 1])
  }

  lemma RelateAudit(front: seq<Op>, op: Op)
    requires op.OpRelate?
    ensures var db := Run(EMPTY, front); Do(db, op).0.audit == db.audit + AuditNext(front, op)
  {
    RelatableIff(front, op);
  }

  lemma ConfirmAudits(db: Database, t: TenantId, actor: Id, id: Id, at: int)
    ensures Confirm(db, t, actor, id, at).0.audit == db.audit +
            if CanReviewLink(Lookup(db.relationships, id), t) && Cited(db.links, t, id)
            then [AuditEntry(t, actor, ConfirmRelationship, id)] else []
  {
    CitedIff(db.links, t, id);
  }

  lemma ConfirmAudit(front: seq<Op>, op: Op)
    requires op.OpConfirm?
    ensures var db := Run(EMPTY, front); Do(db, op).0.audit == db.audit + AuditNext(front, op)
  {
    RelationshipsAreWhatWasDone(front, op.id);
    ConfirmAudits(Run(EMPTY, front), op.tenant, op.actor, op.id, op.at);
  }

  lemma RejectAudits(db: Database, t: TenantId, actor: Id, id: Id)
    ensures Reject(db, t, actor, id).0.audit == db.audit +
            if CanReviewLink(Lookup(db.relationships, id), t) then [AuditEntry(t, actor, RejectRelationship, id)] else []
  {
  }

  lemma RejectAudit(front: seq<Op>, op: Op)
    requires op.OpReject?
    ensures var db := Run(EMPTY, front); Do(db, op).0.audit == db.audit + AuditNext(front, op)
  {
    RelationshipsAreWhatWasDone(front, op.id);
    RejectAudits(Run(EMPTY, front), op.tenant, op.actor, op.id);
  }

  lemma {:induction false} AuditIsWhatWasDone(ops: seq<Op>)
    ensures Run(EMPTY, ops).audit == AuditIn(ops)
  {
    if ops != [] {
      var front, op := ops[..|ops| - 1], ops[|ops| - 1];
      AuditIsWhatWasDone(front);
      if op.OpRelate? {
        RelateAudit(front, op);
      } else if op.OpConfirm? {
        ConfirmAudit(front, op);
      } else if op.OpReject? {
        RejectAudit(front, op);
      } else {
        EffectOf(Run(EMPTY, front), op);
      }
    }
  }
}
