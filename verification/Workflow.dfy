/**
 * The multi-tenant store and the operations of the incident, decision, evidence, analysis, outcome and
 * relationship services. Each operation is one transaction, so it is one function from store to store.
 */
module Workflow {
  import opened Common
  import opened Providers
  import opened Registries
  import opened Scoring

  // ---- Status machines ----

  datatype IncidentStatus = Open | Mitigated | Resolved | Closed
  datatype DecisionStatus = Undecided | Decided | Cancelled
  datatype RelationshipStatus = Suggested | Confirmed | Rejected

  /** `assertValidTransition`: a same-state move is not free, it must be listed like any other. */
  predicate ValidTransition<T(==)>(allowed: T -> seq<T>, from: T, to: T) {
    to in allowed(from)
  }

  function IncidentTransitions(s: IncidentStatus): seq<IncidentStatus> {
    match s
    case Open => [Mitigated]
    case Mitigated => [Resolved]
    case Resolved => [Closed]
    case Closed => []
  }

  function DecisionTransitions(s: DecisionStatus): seq<DecisionStatus> {
    match s
    case Undecided => [Decided, Cancelled]
    case _ => []
  }

  function RelationshipTransitions(s: RelationshipStatus): seq<RelationshipStatus> {
    match s
    case Suggested => [Confirmed, Rejected]
    case _ => []
  }

  // ---- Rows ----

  datatype Incident = Incident(tenant: TenantId, title: string, severity: Severity, kind: IncidentType,
                               status: IncidentStatus, createdBy: Id, createdAt: int, closedAt: Option<int>)

  datatype Decision = Decision(tenant: TenantId, incidentId: Id, question: string, status: DecisionStatus,
                               humanDecision: Option<string>, rationale: Option<string>,
                               decidedBy: Option<Id>, decidedAt: Option<int>, createdBy: Id)

  datatype Analysis = Analysis(id: Id, tenant: TenantId, incidentId: Id, scores: Scores, evidenceUsed: seq<Id>,
                               missing: seq<Category>, conflicts: seq<string>, content: string, submittedBy: Id,
                               createdAt: int)

  /** What a caller submits: the conflicts, which are scored, the other fields, and whether they pass validation. */
  datatype Submission = Submission(conflicts: seq<string>, content: string, valid: bool)

  datatype Quality = GOOD | BAD | MIXED | UNKNOWN

  datatype Outcome = Outcome(tenant: TenantId, analysisId: Option<Id>, quality: Quality, recordedBy: Id, recordedAt: int)

  datatype Relationship = Relationship(tenant: TenantId, from: Id, to: Id, status: RelationshipStatus,
                                       confirmedBy: Option<Id>, confirmedAt: Option<int>)

  datatype EvidenceLink = EvidenceLink(tenant: TenantId, relationshipId: Id, evidenceId: Id)

  datatype EventKind =
    | IncidentCreated
    | StatusChanged(from: IncidentStatus, to: IncidentStatus)
    | DecisionOpened
    | DecisionDecided(decidedBy: Id)
    | DecisionCancelled
    | EvidenceAdded
    | AnalysisGenerated(analysisId: Id)
    | OutcomeRecorded(analysisLink: Option<Id>)
    | IntegrationBlocked(key: IntegrationKey, result: CallResult)

  datatype TimelineEvent = TimelineEvent(tenant: TenantId, incidentId: Id, decisionId: Option<Id>, kind: EventKind,
                                         actor: Option<Id>)

  datatype AuditAction = CreateRelationship | ConfirmRelationship | RejectRelationship

  datatype AuditEntry = AuditEntry(tenant: TenantId, actor: Id, action: AuditAction, target: Id)

  /** Outcomes are keyed by their decision, which is unique in their table; entities by id. */
  datatype Database = Database(
    members: set<(Id, TenantId)>,
    incidents: map<Id, Incident>,
    decisions: map<Id, Decision>,
    evidence: seq<Evidence>,
    analyses: seq<Analysis>,
    outcomes: map<Id, Outcome>,
    timeline: seq<TimelineEvent>,
    entities: map<Id, TenantId>,
    relationships: map<Id, Relationship>,
    links: seq<EvidenceLink>,
    audit: seq<AuditEntry>)

  datatype Error = NotFound | BadRequest | Conflict

  datatype Listed = Listed(analysis: Analysis, breakdown: Breakdown)

  datatype Answer =
    | IncidentRow(incidentId: Id, incident: Incident)
    | DecisionRow(decisionId: Id, decision: Decision)
    | EvidenceRow(evidence: Evidence)
    | AnalysisRow(listed: Listed)
    | AnalysisList(all: seq<Listed>)
    | OutcomeRow(outcome: Outcome)
    | RelationshipRow(relationshipId: Id, relationship: Relationship)
    | Done
    | Failed(error: Error)

  // ---- Tenant-filtered lookups ----

  predicate HasIncident(db: Database, t: TenantId, id: Id) {
    id in db.incidents && db.incidents[id].tenant == t
  }

  predicate HasDecision(db: Database, t: TenantId, id: Id) {
    id in db.decisions && db.decisions[id].tenant == t
  }

  predicate HasRelationship(db: Database, t: TenantId, id: Id) {
    id in db.relationships && db.relationships[id].tenant == t
  }

  predicate HasEntity(db: Database, t: TenantId, id: Id) {
    id in db.entities && db.entities[id] == t
  }

  function EvidenceOf(evidence: seq<Evidence>, t: TenantId, incidentId: Id): seq<Evidence> {
    Filter(evidence, (e: Evidence) => e.tenant == t && e.incidentId == incidentId)
  }

  function EvidenceWithIds(evidence: seq<Evidence>, t: TenantId, ids: set<Id>): seq<Evidence> {
    Filter(evidence, (e: Evidence) => e.tenant == t && e.id in ids)
  }

  function AnalysesOf(analyses: seq<Analysis>, t: TenantId, incidentId: Id): seq<Analysis> {
    Filter(analyses, (a: Analysis) => a.tenant == t && a.incidentId == incidentId)
  }

  function LinksOf(links: seq<EvidenceLink>, t: TenantId, relationshipId: Id): seq<EvidenceLink> {
    Filter(links, (l: EvidenceLink) => l.tenant == t && l.relationshipId == relationshipId)
  }

  function Ids(evidence: seq<Evidence>): seq<Id> {
    seq(|evidence|, i requires 0 <= i < |evidence| => evidence[i].id)
  }

  function Note(db: Database, e: TimelineEvent): Database {
    db.(timeline := db.timeline + [e])
  }

  // ---- Incidents ----

  function CreateIncident(db: Database, t: TenantId, actor: Id, id: Id, title: string, severity: Severity,
                          kind: IncidentType, at: int): (Database, Answer)
  {
    var row := Incident(t, title, severity, kind, Open, actor, at, None);
    (Note(db.(incidents := db.incidents[id := row]), TimelineEvent(t, id, None, IncidentCreated, Some(actor))),
     IncidentRow(id, row))
  }

  function UpdateStatus(db: Database, t: TenantId, actor: Id, id: Id, to: IncidentStatus, at: int): (Database, Answer) {
    if !HasIncident(db, t, id) then (db, Failed(NotFound))
    else if !ValidTransition(IncidentTransitions, db.incidents[id].status, to) then (db, Failed(BadRequest))
    else
      var was := db.incidents[id];
      var row := was.(status := to, closedAt := if to == Closed then Some(at) else was.closedAt);
      (Note(db.(incidents := db.incidents[id := row]),
            TimelineEvent(t, id, None, StatusChanged(was.status, to), Some(actor))),
       IncidentRow(id, row))
  }

  // ---- Decisions ----

  function OpenDecision(db: Database, t: TenantId, actor: Id, id: Id, incidentId: Id, question: string)
    : (Database, Answer)
  {
    if !HasIncident(db, t, incidentId) then (db, Failed(NotFound))
    else
      var row := Decision(t, incidentId, question, Undecided, None, None, None, None, actor);
      (Note(db.(decisions := db.decisions[id := row]),
            TimelineEvent(t, incidentId, Some(id), DecisionOpened, Some(actor))),
       DecisionRow(id, row))
  }

  function Decide(db: Database, t: TenantId, actor: Id, id: Id, decidedBy: Id, humanDecision: string,
                  rationale: Option<string>, at: int): (Database, Answer)
  {
    if !HasDecision(db, t, id) then (db, Failed(NotFound))
    else if !ValidTransition(DecisionTransitions, db.decisions[id].status, Decided) then (db, Failed(BadRequest))
    else if (decidedBy, t) !in db.members then (db, Failed(BadRequest))
    else
      var row := db.decisions[id].(status := Decided, humanDecision := Some(humanDecision), rationale := rationale,
                                   decidedBy := Some(decidedBy), decidedAt := Some(at));
      (Note(db.(decisions := db.decisions[id := row]),
            TimelineEvent(t, row.incidentId, Some(id), DecisionDecided(decidedBy), Some(actor))),
       DecisionRow(id, row))
  }

  function Cancel(db: Database, t: TenantId, actor: Id, id: Id): (Database, Answer) {
    if !HasDecision(db, t, id) then (db, Failed(NotFound))
    else if !ValidTransition(DecisionTransitions, db.decisions[id].status, Cancelled) then (db, Failed(BadRequest))
    else
      var row := db.decisions[id].(status := Cancelled);
      (Note(db.(decisions := db.decisions[id := row]),
            TimelineEvent(t, row.incidentId, Some(id), DecisionCancelled, Some(actor))),
       DecisionRow(id, row))
  }

  // ---- Evidence: insert-only ----

  function EvidenceRefusal(db: Database, t: TenantId, incidentId: Id, decisionId: Option<Id>): Option<Error> {
    if !HasIncident(db, t, incidentId) then Some(NotFound)
    else if decisionId.Some? && !(HasDecision(db, t, decisionId.value)
                                  && db.decisions[decisionId.value].incidentId == incidentId)
    then Some(BadRequest)
    else None
  }

  function WithEvidence(db: Database, row: Evidence, actor: Option<Id>): Database {
    Note(db.(evidence := db.evidence + [row]), TimelineEvent(row.tenant, row.incidentId, row.decisionId, EvidenceAdded, actor))
  }

  function AddEvidence(db: Database, t: TenantId, actor: Option<Id>, id: Id, incidentId: Id, decisionId: Option<Id>,
                       category: Category, source: string, at: int): (Database, Answer)
  {
    var refusal := EvidenceRefusal(db, t, incidentId, decisionId);
    if refusal.Some? then (db, Failed(refusal.value))
    else
      var row := Evidence(id, t, incidentId, decisionId, category, source, at);
      (WithEvidence(db, row, actor), EvidenceRow(row))
  }

  // ---- Analyses ----

  /** `analyze`: scored at `now`, the row created at `at`. */
  function Analyze(db: Database, t: TenantId, actor: Id, id: Id, incidentId: Id, dto: Submission,
                   now: int, at: int): (Database, Answer)
  {
    if !HasIncident(db, t, incidentId) then (db, Failed(NotFound))
    else
      var incident := db.incidents[incidentId];
      var evidence := EvidenceOf(db.evidence, t, incidentId);
      var breakdown := BuildBreakdown(incident.kind, incident.severity, evidence, |dto.conflicts|, now);
      if !dto.valid || !MeetsContract(ScoresOf(breakdown)) then (db, Failed(BadRequest))
      else
        var row := Analysis(id, t, incidentId, ScoresOf(breakdown), Ids(evidence), breakdown.completeness.missing,
                            dto.conflicts, dto.content, actor, at);
        (Note(db.(analyses := db.analyses + [row]), TimelineEvent(t, incidentId, None, AnalysisGenerated(id), Some(actor))),
         AnalysisRow(Listed(row, breakdown)))
  }

  /** The latest row with this id, as a map built from the rows would hold it. */
  function FindEvidence(rows: seq<Evidence>, id: Id): Option<Evidence> {
    if rows == [] then None
    else if rows[|rows| - 1].id == id then Some(rows[|rows| - 1])
    else FindEvidence(rows[..|rows| - 1], id)
  }

  function Snapshot(rows: seq<Evidence>, ids: seq<Id>): seq<Evidence> {
    FilterMap(ids, (id: Id) => FindEvidence(rows, id))
  }

  /** The scores of an analysis rebuilt from its evidence snapshot, as of its own creation time. */
  function Rebuild(incident: Incident, rows: seq<Evidence>, a: Analysis): Breakdown {
    BuildBreakdown(incident.kind, incident.severity, Snapshot(rows, a.evidenceUsed), |a.conflicts|, a.createdAt)
  }

  /** All evidence ids any of these analyses used, for the one batched query. */
  function UsedIds(analyses: seq<Analysis>): set<Id> {
    set a, id | a in analyses && id in a.evidenceUsed :: id
  }

  /** `sorted` with `a` put after everything that is not older than it. */
  function InsertByAge(sorted: seq<Analysis>, a: Analysis): seq<Analysis> {
    if sorted == [] then [a]
    else if sorted[0].createdAt < a.createdAt then [a] + sorted
    else [sorted[0]] + InsertByAge(sorted[1..], a)
  }

  /** `orderBy: { createdAt: 'desc' }`, rows of the same instant in the order they were written. */
  function NewestFirst(analyses: seq<Analysis>): seq<Analysis> {
    if analyses == [] then []
    else InsertByAge(NewestFirst(analyses[..|analyses| - 1]), analyses[|analyses| - 1])
  }

  /** `list`: every analysis of the incident with its breakdown, the newest first. */
  function ListAnalyses(db: Database, t: TenantId, incidentId: Id): Answer {
    if !HasIncident(db, t, incidentId) then Failed(NotFound)
    else
      var incident := db.incidents[incidentId];
      var analyses := AnalysesOf(db.analyses, t, incidentId);
      var rows := EvidenceWithIds(db.evidence, t, UsedIds(analyses));
      var newest := NewestFirst(analyses);
      AnalysisList(seq(|newest|, i requires 0 <= i < |newest| => Listed(newest[i], Rebuild(incident, rows, newest[i]))))
  }

  // ---- Outcomes ----

  /** The first of the latest analyses of the incident that existed at `decidedAt`. */
  function Informing(analyses: seq<Analysis>, t: TenantId, incidentId: Id, decidedAt: int): Option<Analysis> {
    Latest(Filter(analyses, (a: Analysis) => a.tenant == t && a.incidentId == incidentId && a.createdAt <= decidedAt))
  }

  function Latest(analyses: seq<Analysis>): (r: Option<Analysis>)
    ensures r.None? <==> analyses == []
    ensures r.Some? ==> r.value in analyses && forall a :: a in analyses ==> a.createdAt <= r.value.createdAt
  {
    if analyses == [] then None
    else
      var n := |analyses| - 1;
      assert analyses == analyses[..n] + [analyses[n]];
      var before := Latest(analyses[..n]);
      if before.None? || analyses[n].createdAt > before.value.createdAt then Some(analyses[n]) else before
  }

  /** The gates of `record`, in order. */
  function OutcomeRefusal(db: Database, t: TenantId, decisionId: Id): Option<Error> {
    if !HasDecision(db, t, decisionId) then Some(NotFound)
    else
      var d := db.decisions[decisionId];
      if d.status != Decided then Some(BadRequest)
      else if !HasIncident(db, t, d.incidentId) || db.incidents[d.incidentId].status != Closed then Some(BadRequest)
      else if decisionId in db.outcomes then Some(Conflict)
      else None
  }

  function InformingLink(db: Database, t: TenantId, d: Decision): Option<Id> {
    var informing := if d.decidedAt.Some? then Informing(db.analyses, t, d.incidentId, d.decidedAt.value) else None;
    if informing.Some? then Some(informing.value.id) else None
  }

  function WithOutcome(db: Database, decisionId: Id, incidentId: Id, row: Outcome): Database {
    Note(db.(outcomes := db.outcomes[decisionId := row]),
         TimelineEvent(row.tenant, incidentId, Some(decisionId), OutcomeRecorded(row.analysisId), Some(row.recordedBy)))
  }

  function RecordOutcome(db: Database, t: TenantId, actor: Id, decisionId: Id, quality: Quality, at: int): (Database, Answer) {
    var refusal := OutcomeRefusal(db, t, decisionId);
    if refusal.Some? then (db, Failed(refusal.value))
    else
      var d := db.decisions[decisionId];
      var row := Outcome(t, InformingLink(db, t, d), quality, actor, at);
      (WithOutcome(db, decisionId, d.incidentId, row), OutcomeRow(row))
  }

  // ---- Relationships ----

  /** A relationship row written, with new citations, and the audit entry for it. */
  function WithRelationship(db: Database, id: Id, row: Relationship, citations: seq<EvidenceLink>, e: AuditEntry): Database {
    db.(relationships := db.relationships[id := row], links := db.links + citations, audit := db.audit + [e])
  }

  predicate CanRelate(db: Database, t: TenantId, from: Id, to: Id, evidenceId: Id) {
    HasEntity(db, t, from) && HasEntity(db, t, to) && EvidenceWithIds(db.evidence, t, {evidenceId}) != []
  }

  function Relate(db: Database, t: TenantId, actor: Id, id: Id, from: Id, to: Id, evidenceId: Id): (Database, Answer) {
    if !CanRelate(db, t, from, to, evidenceId) then (db, Failed(NotFound))
    else
      var row := Relationship(t, from, to, Suggested, None, None);
      (WithRelationship(db, id, row, [EvidenceLink(t, id, evidenceId)], AuditEntry(t, actor, CreateRelationship, id)),
       RelationshipRow(id, row))
  }

  function Confirm(db: Database, t: TenantId, actor: Id, id: Id, at: int): (Database, Answer) {
    if !HasRelationship(db, t, id) then (db, Failed(NotFound))
    else if !ValidTransition(RelationshipTransitions, db.relationships[id].status, Confirmed) then (db, Failed(BadRequest))
    else if LinksOf(db.links, t, id) == [] then (db, Failed(BadRequest))
    else
      var row := db.relationships[id].(status := Confirmed, confirmedBy := Some(actor), confirmedAt := Some(at));
      (WithRelationship(db, id, row, [], AuditEntry(t, actor, ConfirmRelationship, id)), RelationshipRow(id, row))
  }

  function Reject(db: Database, t: TenantId, actor: Id, id: Id): (Database, Answer) {
    if !HasRelationship(db, t, id) then (db, Failed(NotFound))
    else if !ValidTransition(RelationshipTransitions, db.relationships[id].status, Rejected) then (db, Failed(BadRequest))
    else
      var row := db.relationships[id].(status := Rejected);
      (WithRelationship(db, id, row, [], AuditEntry(t, actor, RejectRelationship, id)), RelationshipRow(id, row))
  }

  // ---- Operations as values, and runs ----

  datatype Op =
    | OpCreateIncident(tenant: TenantId, actor: Id, id: Id, title: string, severity: Severity, kind: IncidentType, at: int)
    | OpUpdateStatus(tenant: TenantId, actor: Id, id: Id, to: IncidentStatus, at: int)
    | OpOpenDecision(tenant: TenantId, actor: Id, id: Id, incidentId: Id, question: string, at: int)
    | OpDecide(tenant: TenantId, actor: Id, id: Id, decidedBy: Id, humanDecision: string, rationale: Option<string>, at: int)
    | OpCancel(tenant: TenantId, actor: Id, id: Id, at: int)
    | OpAddEvidence(tenant: TenantId, submitter: Option<Id>, id: Id, incidentId: Id, decisionId: Option<Id>,
                    category: Category, source: string, at: int)
    | OpAnalyze(tenant: TenantId, actor: Id, id: Id, incidentId: Id, dto: Submission, now: int, at: int)
    | OpListAnalyses(tenant: TenantId, incidentId: Id, at: int)
    | OpRecordOutcome(tenant: TenantId, actor: Id, id: Id, quality: Quality, at: int)
    | OpRelate(tenant: TenantId, actor: Id, id: Id, fromId: Id, toId: Id, evidenceId: Id, at: int)
    | OpConfirm(tenant: TenantId, actor: Id, id: Id, at: int)
    | OpReject(tenant: TenantId, actor: Id, id: Id, at: int)
    | OpAddMember(tenant: TenantId, user: Id, at: int)
    | OpRemoveMember(tenant: TenantId, user: Id, at: int)
    | OpAddEntity(tenant: TenantId, id: Id, at: int)
    | OpBlocked(tenant: TenantId, incidentId: Id, key: IntegrationKey, result: CallResult, at: int)

  function Do(db: Database, op: Op): (Database, Answer) {
    match op
    case OpCreateIncident(t, actor, id, title, severity, kind, at) => CreateIncident(db, t, actor, id, title, severity, kind, at)
    case OpUpdateStatus(t, actor, id, to, at) => UpdateStatus(db, t, actor, id, to, at)
    case OpOpenDecision(t, actor, id, incidentId, question, at) => OpenDecision(db, t, actor, id, incidentId, question)
    case OpDecide(t, actor, id, decider, text, why, at) => Decide(db, t, actor, id, decider, text, why, at)
    case OpCancel(t, actor, id, at) => Cancel(db, t, actor, id)
    case OpAddEvidence(t, actor, id, incidentId, decisionId, category, source, at) =>
      AddEvidence(db, t, actor, id, incidentId, decisionId, category, source, at)
    case OpAnalyze(t, actor, id, incidentId, dto, now, at) => Analyze(db, t, actor, id, incidentId, dto, now, at)
    case OpListAnalyses(t, incidentId, at) => (db, ListAnalyses(db, t, incidentId))
    case OpRecordOutcome(t, actor, id, quality, at) => RecordOutcome(db, t, actor, id, quality, at)
    case OpRelate(t, actor, id, from, to, evidenceId, at) => Relate(db, t, actor, id, from, to, evidenceId)
    case OpConfirm(t, actor, id, at) => Confirm(db, t, actor, id, at)
    case OpReject(t, actor, id, at) => Reject(db, t, actor, id)
    case OpAddMember(t, user, at) => (db.(members := db.members + {(user, t)}), Done)
    case OpRemoveMember(t, user, at) => (db.(members := db.members - {(user, t)}), Done)
    case OpAddEntity(t, id, at) => (db.(entities := db.entities[id := t]), Done)
    case OpBlocked(t, incidentId, key, result, at) =>
      (Note(db, TimelineEvent(t, incidentId, None, IntegrationBlocked(key, result), None)), Done)
  }

  const EMPTY := Database({}, map[], map[], [], [], map[], [], map[], map[], [], [])

  function Run(db: Database, ops: seq<Op>): Database {
    if ops == [] then db else Do(Run(db, ops[..|ops| - 1]), ops[|ops| - 1]).0
  }

  /** Generated ids are not in use in the table they are inserted into. */
  predicate FreshId(db: Database, op: Op) {
    && (op.OpCreateIncident? ==> op.id !in db.incidents)
    && (op.OpOpenDecision? ==> op.id !in db.decisions)
    && (op.OpAddEvidence? ==> forall e :: e in db.evidence ==> e.id != op.id)
    && (op.OpAnalyze? ==> forall a :: a in db.analyses ==> a.id != op.id)
    && (op.OpRelate? ==> op.id !in db.relationships)
    && (op.OpAddEntity? ==> op.id !in db.entities)
  }

  predicate FreshIds(db: Database, ops: seq<Op>) {
    if ops == [] then true
    else FreshIds(db, ops[..|ops| - 1]) && FreshId(Run(db, ops[..|ops| - 1]), ops[|ops| - 1])
  }
}
