/** The same for evidence, outcomes, relationships and their citations: every row is what an operation said. */
module WorkflowRecords {
  import opened Common
  import opened Registries
  import opened Scoring
  import opened Workflow
  import opened WorkflowFrames
  import opened WorkflowGates
  import opened WorkflowHistory

  // ---- Evidence ----

  /** The item an operation adds: to an incident of its tenant, and to a decision of that incident or to none. */
  function EvidenceNext(front: seq<Op>, op: Op): seq<Evidence> {
    if op.OpAddEvidence? && Owns(IncidentIn(front, op.incidentId), op.tenant)
       && (op.decisionId.None? || BelongsTo(DecisionIn(front, op.decisionId.value), op.tenant, op.incidentId))
    then [Evidence(op.id, op.tenant, op.incidentId, op.decisionId, op.category, op.source, op.at)]
    else []
  }

  predicate BelongsTo(d: Option<Decision>, t: TenantId, incidentId: Id) {
    d.Some? && d.value.tenant == t && d.value.incidentId == incidentId
  }

  function EvidenceIn(ops: seq<Op>): seq<Evidence> {
    if ops == [] then [] else EvidenceIn(ops[..|ops| - 1]) + EvidenceNext(ops[..|ops| - 1], ops[|ops| - 1])
  }

  lemma AddEvidenceStep(db: Database, op: Op, incident: Option<Incident>, decision: Option<Decision>)
    requires op.OpAddEvidence? && incident == Lookup(db.incidents, op.incidentId)
    requires op.decisionId.Some? ==> decision == Lookup(db.decisions, op.decisionId.value)
    ensures Do(db, op).0.evidence ==
            db.evidence +
            if Owns(incident, op.tenant) && (op.decisionId.None? || BelongsTo(decision, op.tenant, op.incidentId))
            then [Evidence(op.id, op.tenant, op.incidentId, op.decisionId, op.category, op.source, op.at)] else []
  {
  }

  /** The evidence table is what has been added, in order. */
  lemma {:induction false} EvidenceIsWhatWasAdded(ops: seq<Op>)
    ensures Run(EMPTY, ops).evidence == EvidenceIn(ops)
  {
    if ops != [] {
      var n := |ops| - 1;
      var front, op := ops[..n], ops[n];
      EvidenceIsWhatWasAdded(front);
      if op.OpAddEvidence? {
        IncidentsAreWhatWasDone(front, op.incidentId);
        var decision := if op.decisionId.Some? then DecisionIn(front, op.decisionId.value) else None;
        if op.decisionId.Some? {
          DecisionsAreWhatWasDone(front, op.decisionId.value);
        }
        AddEvidenceStep(Run(EMPTY, front), op, IncidentIn(front, op.incidentId), decision);
      } else {
        EffectOf(Run(EMPTY, front), op);
      }
    }
  }

  // ---- Outcomes ----

  /** An outcome as its operation gives it; the analysis it links to is left to its own law. */
  datatype Verdict = Verdict(tenant: TenantId, quality: Quality, recordedBy: Id, recordedAt: int)

  function VerdictOf(o: Option<Outcome>): Option<Verdict> {
    if o.Some? then Some(Verdict(o.value.tenant, o.value.quality, o.value.recordedBy, o.value.recordedAt)) else None
  }

  /** The decision is decided and its incident closed, both of this tenant. */
  predicate IsOver(d: Option<Decision>, incident: Option<Incident>, t: TenantId) {
    d.Some? && d.value.tenant == t && d.value.status == Decided && Owns(incident, t) && incident.value.status == Closed
  }

  function OutcomeNext(before: Option<Verdict>, op: Op, id: Id, over: bool): Option<Verdict> {
    if op.OpRecordOutcome? && op.id == id && before.None? && over
    then Some(Verdict(op.tenant, op.quality, op.actor, op.at)) else before
  }

  function OverIn(ops: seq<Op>, op: Op): bool
    requires op.OpRecordOutcome?
  {
    var d := DecisionIn(ops, op.id);
    IsOver(d, if d.Some? then IncidentIn(ops, d.value.incidentId) else None, op.tenant)
  }

  function OutcomeIn(ops: seq<Op>, id: Id): Option<Verdict> {
    if ops == [] then None
    else
      var front, op := ops[..|ops| - 1], ops[|ops| - 1];
      OutcomeNext(OutcomeIn(front, id), op, id, op.OpRecordOutcome? && OverIn(front, op))
  }

  lemma RecordOutcomeStep(db: Database, op: Op, id: Id, d: Option<Decision>, incident: Option<Incident>)
    requires op.OpRecordOutcome? && d == Lookup(db.decisions, op.id)
    requires d.Some? ==> incident == Lookup(db.incidents, d.value.incidentId)
    ensures VerdictOf(Lookup(Do(db, op).0.outcomes, id)) ==
            OutcomeNext(VerdictOf(Lookup(db.outcomes, id)), op, id, IsOver(d, incident, op.tenant))
  {
  }

  /** Every outcome is what was said of it, once its decision was decided and its incident closed. */
  lemma {:induction false} OutcomesAreWhatWasRecorded(ops: seq<Op>, id: Id)
    ensures VerdictOf(Lookup(Run(EMPTY, ops).outcomes, id)) == OutcomeIn(ops, id)
  {
    if ops != [] {
      var n := |ops| - 1;
      var front, op := ops[..n], ops[n];
      OutcomesAreWhatWasRecorded(front, id);
      if op.OpRecordOutcome? {
        var d := DecisionIn(front, op.id);
        DecisionsAreWhatWasDone(front, op.id);
        if d.Some? {
          IncidentsAreWhatWasDone(front, d.value.incidentId);
        }
        RecordOutcomeStep(Run(EMPTY, front), op, id, d, if d.Some? then IncidentIn(front, d.value.incidentId) else None);
      } else {
        EffectOf(Run(EMPTY, front), op);
      }
    }
  }

  // ---- Relationships ----

  /** Both ends are entities of the tenant, and so is the evidence cited. */
  predicate Relatable(front: seq<Op>, op: Op)
    requires op.OpRelate?
  {
    && EntityIn(front, op.fromId) == Some(op.tenant) && EntityIn(front, op.toId) == Some(op.tenant)
    && exists e :: e in EvidenceIn(front) && e.tenant == op.tenant && e.id == op.evidenceId
  }

  function LinksNext(front: seq<Op>, op: Op): seq<EvidenceLink> {
    if op.OpRelate? && Relatable(front, op) then [EvidenceLink(op.tenant, op.id, op.evidenceId)] else []
  }

  function LinksIn(ops: seq<Op>): seq<EvidenceLink> {
    if ops == [] then [] else LinksIn(ops[..|ops| - 1]) + LinksNext(ops[..|ops| - 1], ops[|ops| - 1])
  }

  /** `able`: an operation that relates finds what it relates, one that confirms finds a citation. */
  function RelationshipNext(before: Option<Relationship>, op: Op, id: Id, able: bool): Option<Relationship> {
    if op.OpRelate? && op.id == id then
      if able then Some(Relationship(op.tenant, op.fromId, op.toId, Suggested, None, None)) else before
    else if before.None? || before.value.tenant != op.tenant || before.value.status != Suggested then before
    else if op.OpConfirm? && op.id == id && able then
      Some(before.value.(status := Confirmed, confirmedBy := Some(op.actor), confirmedAt := Some(op.at)))
    else if op.OpReject? && op.id == id then Some(before.value.(status := Rejected))
    else before
  }

  function Able(front: seq<Op>, op: Op): bool {
    (op.OpRelate? && Relatable(front, op)) || (op.OpConfirm? && Cited(LinksIn(front), op.tenant, op.id))
  }

  function RelationshipIn(ops: seq<Op>, id: Id): Option<Relationship> {
    if ops == [] then None
    else
      var front, op := ops[..|ops| - 1], ops[|ops| - 1];
      RelationshipNext(RelationshipIn(front, id), op, id, Able(front, op))
  }

  lemma RelateOpStep(db: Database, op: Op, id: Id, able: bool)
    requires op.OpRelate? && (able <==> CanRelate(db, op.tenant, op.fromId, op.toId, op.evidenceId))
    ensures Lookup(Do(db, op).0.relationships, id) == RelationshipNext(Lookup(db.relationships, id), op, id, able)
    ensures Do(db, op).0.links == db.links + if able then [EvidenceLink(op.tenant, op.id, op.evidenceId)] else []
  {
  }

  lemma ConfirmOpStep(db: Database, op: Op, id: Id, able: bool)
    requires op.OpConfirm? && (able <==> LinksOf(db.links, op.tenant, op.id) != [])
    ensures Lookup(Do(db, op).0.relationships, id) == RelationshipNext(Lookup(db.relationships, id), op, id, able)
    ensures Do(db, op).0.links == db.links
  {
    assert db.links + [] == db.links;
  }

  lemma RejectOpStep(db: Database, op: Op, id: Id)
    requires op.OpReject?
    ensures Lookup(Do(db, op).0.relationships, id) == RelationshipNext(Lookup(db.relationships, id), op, id, false)
    ensures Do(db, op).0.links == db.links
  {
    assert db.links + [] == db.links;
  }

  /** Relationships and citations are what was related, confirmed and rejected. */
  lemma {:induction false} RelationshipsAreWhatWasDone(ops: seq<Op>, id: Id)
    ensures Lookup(Run(EMPTY, ops).relationships, id) == RelationshipIn(ops, id)
    ensures Run(EMPTY, ops).links == LinksIn(ops)
  {
    if ops != [] {
      var n := |ops| - 1;
      var front, op := ops[..n], ops[n];
      RelationshipsAreWhatWasDone(front, id);
      if op.OpRelate? {
        RelatableIff(front, op);
        RelateOpStep(Run(EMPTY, front), op, id, Able(front, op));
      } else if op.OpConfirm? {
        CitedIff(LinksIn(front), op.tenant, op.id);
        ConfirmOpStep(Run(EMPTY, front), op, id, Able(front, op));
      } else if op.OpReject? {
        RejectOpStep(Run(EMPTY, front), op, id);
      } else {
        EffectOf(Run(EMPTY, front), op);
      }
    }
  }

  lemma RelatableIff(front: seq<Op>, op: Op)
    requires op.OpRelate?
    ensures Relatable(front, op) <==> CanRelate(Run(EMPTY, front), op.tenant, op.fromId, op.toId, op.evidenceId)
  {
    EntitiesAreThoseAdded(front, op.fromId);
    EntitiesAreThoseAdded(front, op.toId);
    EvidenceIsWhatWasAdded(front);
    CanRelateIff(Run(EMPTY, front), op.tenant, op.fromId, op.toId, op.evidenceId);
  }
}
