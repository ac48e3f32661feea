/** Which analysis an outcome is linked to, and that the link stays right. */
module WorkflowOutcomes {
  import opened Common
  import opened Registries
  import opened Workflow
  import opened WorkflowFrames
  import opened WorkflowLogs

  /** `a` could have informed a decision of tenant `t` about this incident taken at `decidedAt`. */
  predicate Candidate(a: Analysis, t: TenantId, incidentId: Id, decidedAt: int) {
    a.tenant == t && a.incidentId == incidentId && a.createdAt <= decidedAt
  }

  /** The link names a latest candidate, and is empty iff there is none. */
  predicate LinksLatest(analyses: seq<Analysis>, link: Option<Id>, t: TenantId, incidentId: Id, decidedAt: int) {
    if link.None? then forall a :: a in analyses ==> !Candidate(a, t, incidentId, decidedAt)
    else exists a :: a in analyses && a.id == link.value && Candidate(a, t, incidentId, decidedAt)
                     && forall b :: b in analyses && Candidate(b, t, incidentId, decidedAt) ==> b.createdAt <= a.createdAt
  }

  lemma InformingIsLatest(analyses: seq<Analysis>, t: TenantId, incidentId: Id, decidedAt: int)
    ensures var informing := Informing(analyses, t, incidentId, decidedAt);
            LinksLatest(analyses, if informing.Some? then Some(informing.value.id) else None, t, incidentId, decidedAt)
  {
    var p := (a: Analysis) => a.tenant == t && a.incidentId == incidentId && a.createdAt <= decidedAt;
    forall a
      ensures a in Filter(analyses, p) <==> a in analyses && Candidate(a, t, incidentId, decidedAt)
    {
      FilterMember(analyses, a, p);
    }
  }

  /** An outcome's decision is DECIDED, its incident CLOSED, both of its tenant, and its link is right. */
  predicate OutcomeHolds(db: Database, decisionId: Id) {
    decisionId in db.outcomes ==>
      var o := db.outcomes[decisionId];
      && HasDecision(db, o.tenant, decisionId)
      && db.decisions[decisionId].status == Decided && db.decisions[decisionId].decidedAt.Some?
      && HasIncident(db, o.tenant, db.decisions[decisionId].incidentId)
      && db.incidents[db.decisions[decisionId].incidentId].status == Closed
      && LinksLatest(db.analyses, o.analysisId, o.tenant, db.decisions[decisionId].incidentId,
                     db.decisions[decisionId].decidedAt.value)
  }

  /** A decided decision carries its time, which is not in the future. */
  predicate DecisionDated(db: Database, id: Id, clock: int) {
    id in db.decisions && db.decisions[id].status == Decided ==>
      db.decisions[id].decidedAt.Some? && db.decisions[id].decidedAt.value <= clock
  }

  /** Time does not run backwards, and no analysis is created at the instant of an earlier operation. */
  predicate Ticks(ops: seq<Op>) {
    forall i, j :: 0 <= i < j < |ops| ==> ops[i].at <= ops[j].at && (ops[j].OpAnalyze? ==> ops[i].at < ops[j].at)
  }

  lemma DecisionStepDated(db: Database, op: Op, id: Id, clock: int)
    requires op.OpOpenDecision? || op.OpDecide? || op.OpCancel?
    requires clock <= op.at && DecisionDated(db, id, clock)
    ensures DecisionDated(Do(db, op).0, id, op.at)
  {
  }

  lemma DecisionDatedKept(db: Database, op: Op, id: Id, clock: int)
    requires clock <= op.at && DecisionDated(db, id, clock)
    ensures DecisionDated(Do(db, op).0, id, op.at)
  {
    if op.OpOpenDecision? || op.OpDecide? || op.OpCancel? {
      DecisionStepDated(db, op, id, clock);
    } else {
      DecisionsUntouched(db, op);
    }
  }

  lemma AnalysesStep(db: Database, op: Op)
    ensures var db' := Do(db, op).0;
            db'.analyses == db.analyses ||
            (op.OpAnalyze? && |db'.analyses| == |db.analyses| + 1
             && db'.analyses == db.analyses + [db'.analyses[|db.analyses|]]
             && db'.analyses[|db.analyses|].createdAt == op.at && db'.analyses[|db.analyses|].id == op.id
             && db'.analyses[|db.analyses|].tenant == op.tenant && db'.analyses[|db.analyses|].incidentId == op.incidentId)
  {
    EffectOf(db, op);
    if op.OpAnalyze? {
      AnalyzeWrites(db, op.tenant, op.actor, op.id, op.incidentId, op.dto, op.now, op.at);
    }
  }

  /**
   * A new analysis keeps a right link right iff it is not itself a later candidate: it is not of that
   * incident, or came after the decision, or is no later than the analysis already linked.
   */
  lemma NewAnalysisKeepsLinkIff(analyses: seq<Analysis>, added: Analysis, linked: Option<Analysis>,
                                t: TenantId, incidentId: Id, decidedAt: int)
    requires forall a, b :: a in analyses + [added] && b in analyses + [added] && a.id == b.id ==> a == b
    requires added !in analyses && (linked.Some? ==> linked.value in analyses)
    requires LinksLatest(analyses, if linked.Some? then Some(linked.value.id) else None, t, incidentId, decidedAt)
    ensures LinksLatest(analyses + [added], if linked.Some? then Some(linked.value.id) else None, t, incidentId, decidedAt) <==>
            !Candidate(added, t, incidentId, decidedAt) || (linked.Some? && added.createdAt <= linked.value.createdAt)
  {
  }

  lemma LaterAnalysisKeepsLink(analyses: seq<Analysis>, added: Analysis, link: Option<Id>,
                               t: TenantId, incidentId: Id, decidedAt: int)
    requires LinksLatest(analyses, link, t, incidentId, decidedAt) && added.createdAt > decidedAt
    ensures LinksLatest(analyses + [added], link, t, incidentId, decidedAt)
  {
  }

  lemma NewOutcomeHolds(db: Database, op: Op, clock: int)
    requires op.OpRecordOutcome? && op.id !in db.outcomes && DecisionDated(db, op.id, clock)
    ensures OutcomeHolds(Do(db, op).0, op.id)
  {
    if HasDecision(db, op.tenant, op.id) && db.decisions[op.id].status == Decided {
      var d := db.decisions[op.id];
      InformingIsLatest(db.analyses, op.tenant, d.incidentId, d.decidedAt.value);
    }
  }

  lemma OutcomesStep(db: Database, op: Op, id: Id)
    ensures var db' := Do(db, op).0;
            && (id in db.outcomes ==> id in db'.outcomes && db'.outcomes[id] == db.outcomes[id])
            && (id in db'.outcomes && id !in db.outcomes ==> op.OpRecordOutcome? && op.id == id)
  {
    EffectOf(db, op);
  }

  lemma OldOutcomeHolds(db: Database, op: Op, id: Id, clock: int)
    requires FreshId(db, op) && id in db.outcomes && OutcomeHolds(db, id)
    requires DecisionDated(db, id, clock) && (op.OpAnalyze? ==> clock < op.at)
    ensures OutcomeHolds(Do(db, op).0, id)
  {
    var o, d := db.outcomes[id], db.decisions[id];
    OutcomesStep(db, op, id);
    SettledStep(db, op, id);
    IncidentStep(db, op, d.incidentId);
    AnalysesStep(db, op);
    if Do(db, op).0.analyses != db.analyses {
      LaterAnalysisKeepsLink(db.analyses, Do(db, op).0.analyses[|db.analyses|], o.analysisId, o.tenant, d.incidentId,
                             d.decidedAt.value);
    }
  }

  lemma OutcomeKept(db: Database, op: Op, id: Id, clock: int)
    requires FreshId(db, op) && OutcomeHolds(db, id) && DecisionDated(db, id, clock)
    requires clock <= op.at && (op.OpAnalyze? ==> clock < op.at)
    ensures OutcomeHolds(Do(db, op).0, id) && DecisionDated(Do(db, op).0, id, op.at)
  {
    DecisionDatedKept(db, op, id, clock);
    OutcomesStep(db, op, id);
    if id in db.outcomes {
      OldOutcomeHolds(db, op, id, clock);
    } else if op.OpRecordOutcome? && op.id == id {
      NewOutcomeHolds(db, op, clock);
    }
  }

  /**
   * In every state reachable while time moves on, every outcome belongs to a DECIDED decision
   * of a CLOSED incident of its tenant, and links to the latest analysis of that incident made no later than
   * the decision, or to none iff there is none.
   */
  lemma {:induction false} OutcomesLinkInformingAnalysis(ops: seq<Op>, id: Id)
    requires FreshIds(EMPTY, ops) && Ticks(ops)
    ensures OutcomeHolds(Run(EMPTY, ops), id)
    ensures ops != [] ==> DecisionDated(Run(EMPTY, ops), id, ops[|ops| - 1].at)
  {
    if ops != [] {
      var n := |ops| - 1;
      OutcomesLinkInformingAnalysis(ops[..n], id);
      OutcomeKept(Run(EMPTY, ops[..n]), ops[n], id, if n > 0 then ops[n - 1].at else ops[n].at - 1);
    }
  }

  /** One outcome per decision, for good: once recorded it is never replaced or changed. */
  lemma {:induction false} OutcomeIsPermanent(db: Database, ops: seq<Op>, id: Id)
    requires id in db.outcomes
    ensures id in Run(db, ops).outcomes && Run(db, ops).outcomes[id] == db.outcomes[id]
  {
    if ops != [] {
      OutcomeIsPermanent(db, ops[..|ops| - 1], id);
      OutcomesStep(Run(db, ops[..|ops| - 1]), ops[|ops| - 1], id);
    }
  }
}
