/** What each operation may change, and what it leaves alone: the frames that invariants are carried over. */
module WorkflowFrames {
  import opened Common
  import opened Registries
  import opened Scoring
  import opened Workflow

  /** The kinds of event an operation may log. */
  predicate Fits(op: Op, kind: EventKind) {
    match kind
    case IncidentCreated => op.OpCreateIncident?
    case StatusChanged(_, _) => op.OpUpdateStatus?
    case DecisionOpened => op.OpOpenDecision?
    case DecisionDecided(_) => op.OpDecide?
    case DecisionCancelled => op.OpCancel?
    case EvidenceAdded => op.OpAddEvidence?
    case AnalysisGenerated(_) => op.OpAnalyze?
    case OutcomeRecorded(_) => op.OpRecordOutcome?
    case IntegrationBlocked(_, _) => op.OpBlocked?
  }

  /** At most one event is added, of a kind that fits. */
  predicate Logs(timeline: seq<TimelineEvent>, op: Op, timeline': seq<TimelineEvent>) {
    timeline' == timeline ||
    (|timeline'| == |timeline| + 1 && timeline' == timeline + [timeline'[|timeline|]] && Fits(op, timeline'[|timeline|].kind))
  }

  /** Each table is written by its own operations only. */
  predicate Effect(db: Database, op: Op, db': Database) {
    && Logs(db.timeline, op, db'.timeline)
    && (db'.members == db.members || op.OpAddMember? || op.OpRemoveMember?)
    && (db'.entities == db.entities || op.OpAddEntity?)
    && (db'.incidents == db.incidents || op.OpCreateIncident? || op.OpUpdateStatus?)
    && (db'.decisions == db.decisions || op.OpOpenDecision? || op.OpDecide? || op.OpCancel?)
    && (db'.evidence == db.evidence || op.OpAddEvidence?)
    && (db'.analyses == db.analyses || op.OpAnalyze?)
    && (db'.outcomes == db.outcomes || op.OpRecordOutcome?)
    && ((db'.relationships == db.relationships && db'.links == db.links && db'.audit == db.audit)
        || op.OpRelate? || op.OpConfirm? || op.OpReject?)
  }

  /** The event an operation adds to the timeline, if any. */
  function Added(db: Database, db': Database): Option<TimelineEvent> {
    if |db'.timeline| == |db.timeline| + 1 then Some(db'.timeline[|db.timeline|]) else None
  }

  // ---- Writes ----

  lemma IncidentWriteEffect(db: Database, op: Op, id: Id, row: Incident, e: TimelineEvent)
    requires (op.OpCreateIncident? || op.OpUpdateStatus?) && Fits(op, e.kind)
    ensures Effect(db, op, Note(db.(incidents := db.incidents[id := row]), e))
  {
  }

  lemma DecisionWriteEffect(db: Database, op: Op, id: Id, row: Decision, e: TimelineEvent)
    requires (op.OpOpenDecision? || op.OpDecide? || op.OpCancel?) && Fits(op, e.kind)
    ensures Effect(db, op, Note(db.(decisions := db.decisions[id := row]), e))
  {
  }

  lemma EvidenceWriteEffect(db: Database, op: Op, row: Evidence, actor: Option<Id>)
    requires op.OpAddEvidence?
    ensures Effect(db, op, WithEvidence(db, row, actor))
  {
  }

  lemma AnalysisWriteEffect(db: Database, op: Op, row: Analysis, e: TimelineEvent)
    requires op.OpAnalyze? && Fits(op, e.kind)
    ensures Effect(db, op, Note(db.(analyses := db.analyses + [row]), e))
  {
  }

  lemma OutcomeWriteEffect(db: Database, op: Op, id: Id, incidentId: Id, row: Outcome)
    requires op.OpRecordOutcome?
    ensures Effect(db, op, WithOutcome(db, id, incidentId, row))
  {
  }

  lemma RelationshipWriteEffect(db: Database, op: Op, id: Id, row: Relationship, links: seq<EvidenceLink>, e: AuditEntry)
    requires op.OpRelate? || op.OpConfirm? || op.OpReject?
    ensures Effect(db, op, WithRelationship(db, id, row, links, e))
  {
  }

  // ---- Operations ----

  lemma CreateIncidentEffect(db: Database, op: Op)
    requires op.OpCreateIncident?
    ensures Effect(db, op, Do(db, op).0)
  {
    IncidentWriteEffect(db, op, op.id, Do(db, op).1.incident,
                        TimelineEvent(op.tenant, op.id, None, IncidentCreated, Some(op.actor)));
  }

  lemma UpdateStatusEffect(db: Database, op: Op)
    requires op.OpUpdateStatus?
    ensures Effect(db, op, Do(db, op).0)
  {
    var r := UpdateStatus(db, op.tenant, op.actor, op.id, op.to, op.at).1;
    if r.IncidentRow? {
      var e := TimelineEvent(op.tenant, op.id, None, StatusChanged(db.incidents[op.id].status, op.to), Some(op.actor));
      IncidentWriteEffect(db, op, op.id, r.incident, e);
    }
  }

  lemma OpenDecisionEffect(db: Database, op: Op)
    requires op.OpOpenDecision?
    ensures Effect(db, op, Do(db, op).0)
  {
    var r := OpenDecision(db, op.tenant, op.actor, op.id, op.incidentId, op.question).1;
    if r.DecisionRow? {
      var e := TimelineEvent(op.tenant, op.incidentId, Some(op.id), DecisionOpened, Some(op.actor));
      DecisionWriteEffect(db, op, op.id, r.decision, e);
    }
  }

  lemma DecideEffect(db: Database, op: Op)
    requires op.OpDecide?
    ensures Effect(db, op, Do(db, op).0)
  {
    var r := Decide(db, op.tenant, op.actor, op.id, op.decidedBy, op.humanDecision, op.rationale, op.at).1;
    if r.DecisionRow? {
      var e := TimelineEvent(op.tenant, r.decision.incidentId, Some(op.id), DecisionDecided(op.decidedBy), Some(op.actor));
      DecisionWriteEffect(db, op, op.id, r.decision, e);
    }
  }

  lemma CancelEffect(db: Database, op: Op)
    requires op.OpCancel?
    ensures Effect(db, op, Do(db, op).0)
  {
    var r := Cancel(db, op.tenant, op.actor, op.id).1;
    if r.DecisionRow? {
      var e := TimelineEvent(op.tenant, r.decision.incidentId, Some(op.id), DecisionCancelled, Some(op.actor));
      DecisionWriteEffect(db, op, op.id, r.decision, e);
    }
  }

  lemma AddEvidenceEffect(db: Database, op: Op)
    requires op.OpAddEvidence?
    ensures Effect(db, op, Do(db, op).0)
  {
    var row := Evidence(op.id, op.tenant, op.incidentId, op.decisionId, op.category, op.source, op.at);
    EvidenceWriteEffect(db, op, row, op.submitter);
  }

  lemma AnalyzeWrites(db: Database, t: TenantId, actor: Id, id: Id, incidentId: Id, dto: Submission, now: int, at: int)
    ensures var (db', r) := Analyze(db, t, actor, id, incidentId, dto, now, at);
            db' == if r.AnalysisRow?
                   then Note(db.(analyses := db.analyses + [r.listed.analysis]),
                             TimelineEvent(t, incidentId, None, AnalysisGenerated(id), Some(actor)))
                   else db
  {
  }

  lemma AnalyzeEffect(db: Database, op: Op)
    requires op.OpAnalyze?
    ensures Effect(db, op, Do(db, op).0)
  {
    var r := Analyze(db, op.tenant, op.actor, op.id, op.incidentId, op.dto, op.now, op.at).1;
    AnalyzeWrites(db, op.tenant, op.actor, op.id, op.incidentId, op.dto, op.now, op.at);
    if r.AnalysisRow? {
      var e := TimelineEvent(op.tenant, op.incidentId, None, AnalysisGenerated(op.id), Some(op.actor));
      AnalysisWriteEffect(db, op, r.listed.analysis, e);
    }
  }

  lemma ListAnalysesEffect(db: Database, op: Op)
    requires op.OpListAnalyses?
    ensures Effect(db, op, Do(db, op).0)
  {
  }

  lemma RecordOutcomeEffect(db: Database, op: Op)
    requires op.OpRecordOutcome?
    ensures Effect(db, op, Do(db, op).0)
  {
    var r := RecordOutcome(db, op.tenant, op.actor, op.id, op.quality, op.at).1;
    if r.OutcomeRow? {
      OutcomeWriteEffect(db, op, op.id, db.decisions[op.id].incidentId, r.outcome);
    }
  }

  lemma RelateEffect(db: Database, op: Op)
    requires op.OpRelate?
    ensures Effect(db, op, Do(db, op).0)
  {
    var r := Relate(db, op.tenant, op.actor, op.id, op.fromId, op.toId, op.evidenceId).1;
    if r.RelationshipRow? {
      RelationshipWriteEffect(db, op, op.id, r.relationship, [EvidenceLink(op.tenant, op.id, op.evidenceId)],
                              AuditEntry(op.tenant, op.actor, CreateRelationship, op.id));
    }
  }

  lemma ConfirmEffect(db: Database, op: Op)
    requires op.OpConfirm?
    ensures Effect(db, op, Do(db, op).0)
  {
    var r := Confirm(db, op.tenant, op.actor, op.id, op.at).1;
    if r.RelationshipRow? {
      RelationshipWriteEffect(db, op, op.id, r.relationship, [], AuditEntry(op.tenant, op.actor, ConfirmRelationship, op.id));
    }
  }

  lemma RejectEffect(db: Database, op: Op)
    requires op.OpReject?
    ensures Effect(db, op, Do(db, op).0)
  {
    var r := Reject(db, op.tenant, op.actor, op.id).1;
    if r.RelationshipRow? {
      RelationshipWriteEffect(db, op, op.id, r.relationship, [], AuditEntry(op.tenant, op.actor, RejectRelationship, op.id));
    }
  }

  lemma OtherEffect(db: Database, op: Op)
    requires op.OpAddMember? || op.OpRemoveMember? || op.OpAddEntity? || op.OpBlocked?
    ensures Effect(db, op, Do(db, op).0)
  {
  }

  lemma EffectOf(db: Database, op: Op)
    ensures Effect(db, op, Do(db, op).0)
  {
    match op
    case OpCreateIncident(_, _, _, _, _, _, _) => CreateIncidentEffect(db, op);
    case OpUpdateStatus(_, _, _, _, _) => UpdateStatusEffect(db, op);
    case OpOpenDecision(_, _, _, _, _, _) => OpenDecisionEffect(db, op);
    case OpDecide(_, _, _, _, _, _, _) => DecideEffect(db, op);
    case OpCancel(_, _, _, _) => CancelEffect(db, op);
    case OpAddEvidence(_, _, _, _, _, _, _, _) => AddEvidenceEffect(db, op);
    case OpAnalyze(_, _, _, _, _, _, _) => AnalyzeEffect(db, op);
    case OpListAnalyses(_, _, _) => ListAnalysesEffect(db, op);
    case OpRecordOutcome(_, _, _, _, _) => RecordOutcomeEffect(db, op);
    case OpRelate(_, _, _, _, _, _, _) => RelateEffect(db, op);
    case OpConfirm(_, _, _, _) => ConfirmEffect(db, op);
    case OpReject(_, _, _, _) => RejectEffect(db, op);
    case _ => OtherEffect(db, op);
  }
}
