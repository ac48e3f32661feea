/** Tenant isolation of the store: to its own tenant an operation is the same as on that tenant's rows alone. */
module WorkflowIsolation {
  import opened Common
  import opened Registries
  import opened Scoring
  import opened Workflow
  import opened WorkflowFrames

  function OwnRows<K, V>(m: map<K, V>, owns: V -> bool): map<K, V> {
    map k | k in m && owns(m[k]) :: m[k]
  }

  /** The rows of one tenant. */
  function Restrict(db: Database, t: TenantId): Database {
    Database(
      (set m | m in db.members && m.1 == t),
      OwnRows(db.incidents, (r: Incident) => r.tenant == t),
      OwnRows(db.decisions, (r: Decision) => r.tenant == t),
      Filter(db.evidence, (r: Evidence) => r.tenant == t),
      Filter(db.analyses, (r: Analysis) => r.tenant == t),
      OwnRows(db.outcomes, (r: Outcome) => r.tenant == t),
      Filter(db.timeline, (r: TimelineEvent) => r.tenant == t),
      OwnRows(db.entities, (r: TenantId) => r == t),
      OwnRows(db.relationships, (r: Relationship) => r.tenant == t),
      Filter(db.links, (r: EvidenceLink) => r.tenant == t),
      Filter(db.audit, (r: AuditEntry) => r.tenant == t))
  }

  lemma OwnUpdate<K, V>(m: map<K, V>, k: K, v: V, owns: V -> bool)
    ensures owns(v) ==> OwnRows(m[k := v], owns) == OwnRows(m, owns)[k := v]
    ensures !owns(v) && (k in m ==> !owns(m[k])) ==> OwnRows(m[k := v], owns) == OwnRows(m, owns)
  {
  }

  lemma {:induction false} FilterTwice<T>(s: seq<T>, p: T -> bool, q: T -> bool)
    requires forall x :: x in s && q(x) ==> p(x)
    ensures Filter(Filter(s, p), q) == Filter(s, q)
  {
    if s != [] {
      var n := |s| - 1;
      assert s == s[..n] + [s[n]];
      FilterTwice(s[..n], p, q);
      FilterAppend(Filter(s[..n], p), s[n], q);
    }
  }

  // ---- Queries on the tenant's rows ----

  lemma OwnEvidence(db: Database, t: TenantId, incidentId: Id)
    ensures EvidenceOf(Restrict(db, t).evidence, t, incidentId) == EvidenceOf(db.evidence, t, incidentId)
  {
    FilterTwice(db.evidence, (r: Evidence) => r.tenant == t, (e: Evidence) => e.tenant == t && e.incidentId == incidentId);
  }

  lemma OwnEvidenceWithIds(db: Database, t: TenantId, ids: set<Id>)
    ensures EvidenceWithIds(Restrict(db, t).evidence, t, ids) == EvidenceWithIds(db.evidence, t, ids)
  {
    FilterTwice(db.evidence, (r: Evidence) => r.tenant == t, (e: Evidence) => e.tenant == t && e.id in ids);
  }

  lemma OwnAnalyses(db: Database, t: TenantId, incidentId: Id)
    ensures AnalysesOf(Restrict(db, t).analyses, t, incidentId) == AnalysesOf(db.analyses, t, incidentId)
  {
    FilterTwice(db.analyses, (r: Analysis) => r.tenant == t, (a: Analysis) => a.tenant == t && a.incidentId == incidentId);
  }

  lemma OwnInforming(db: Database, t: TenantId, incidentId: Id, decidedAt: int)
    ensures Informing(Restrict(db, t).analyses, t, incidentId, decidedAt) == Informing(db.analyses, t, incidentId, decidedAt)
  {
    FilterTwice(db.analyses, (r: Analysis) => r.tenant == t,
                (a: Analysis) => a.tenant == t && a.incidentId == incidentId && a.createdAt <= decidedAt);
  }

  lemma OwnLinks(db: Database, t: TenantId, id: Id)
    ensures LinksOf(Restrict(db, t).links, t, id) == LinksOf(db.links, t, id)
  {
    FilterTwice(db.links, (r: EvidenceLink) => r.tenant == t, (l: EvidenceLink) => l.tenant == t && l.relationshipId == id);
  }

  // ---- Writes ----

  lemma NoteOwn(db: Database, e: TimelineEvent, t: TenantId)
    ensures Restrict(Note(db, e), t) == if e.tenant == t then Note(Restrict(db, t), e) else Restrict(db, t)
  {
  }

  lemma IncidentWrite(db: Database, id: Id, row: Incident, t: TenantId)
    requires id in db.incidents ==> db.incidents[id].tenant == row.tenant
    ensures var db' := db.(incidents := db.incidents[id := row]);
            Restrict(db', t) ==
            if row.tenant == t then Restrict(db, t).(incidents := Restrict(db, t).incidents[id := row]) else Restrict(db, t)
  {
    OwnUpdate(db.incidents, id, row, (r: Incident) => r.tenant == t);
  }

  lemma DecisionWrite(db: Database, id: Id, row: Decision, t: TenantId)
    requires id in db.decisions ==> db.decisions[id].tenant == row.tenant
    ensures var db' := db.(decisions := db.decisions[id := row]);
            Restrict(db', t) ==
            if row.tenant == t then Restrict(db, t).(decisions := Restrict(db, t).decisions[id := row]) else Restrict(db, t)
  {
    OwnUpdate(db.decisions, id, row, (r: Decision) => r.tenant == t);
  }

  lemma OutcomeWrite(db: Database, id: Id, row: Outcome, t: TenantId)
    requires id !in db.outcomes
    ensures var db' := db.(outcomes := db.outcomes[id := row]);
            Restrict(db', t) ==
            if row.tenant == t then Restrict(db, t).(outcomes := Restrict(db, t).outcomes[id := row]) else Restrict(db, t)
  {
    OwnUpdate(db.outcomes, id, row, (r: Outcome) => r.tenant == t);
  }

  lemma AnalysisWrite(db: Database, row: Analysis, t: TenantId)
    ensures var db' := db.(analyses := db.analyses + [row]);
            Restrict(db', t) ==
            if row.tenant == t then Restrict(db, t).(analyses := Restrict(db, t).analyses + [row]) else Restrict(db, t)
  {
  }

  lemma RelationshipWrite(db: Database, id: Id, row: Relationship, links: seq<EvidenceLink>, e: AuditEntry, t: TenantId)
    requires id in db.relationships ==> db.relationships[id].tenant == row.tenant
    requires e.tenant == row.tenant && |links| <= 1 && forall l :: l in links ==> l.tenant == row.tenant
    ensures Restrict(WithRelationship(db, id, row, links, e), t) ==
            if row.tenant == t then WithRelationship(Restrict(db, t), id, row, links, e) else Restrict(db, t)
  {
    OwnUpdate(db.relationships, id, row, (r: Relationship) => r.tenant == t);
    FilterAppend(db.audit, e, (r: AuditEntry) => r.tenant == t);
    if links == [] {
      assert db.links + links == db.links && Restrict(db, t).links + links == Restrict(db, t).links;
    } else {
      assert links == [links[0]];
      FilterAppend(db.links, links[0], (r: EvidenceLink) => r.tenant == t);
    }
  }

  // ---- Each operation ----

  /** What isolation from `t`'s side asks of one operation. */
  predicate Isolated(db: Database, op: Op, t: TenantId) {
    var (after, answer) := Do(db, op);
    if op.tenant == t then Do(Restrict(db, t), op) == (Restrict(after, t), answer)
    else Restrict(after, t) == Restrict(db, t)
  }

  /** An outcome belongs to the tenant of its decision. Its table is looked up by decision only. */
  predicate OutcomesOwned(db: Database) {
    forall id :: id in db.outcomes ==> id in db.decisions && db.decisions[id].tenant == db.outcomes[id].tenant
  }

  lemma DecisionOpKeepsOwners(db: Database, op: Op, id: Id)
    requires op.OpOpenDecision? || op.OpDecide? || op.OpCancel?
    requires FreshId(db, op) && id in db.decisions
    ensures var db' := Do(db, op).0; id in db'.decisions && db'.decisions[id].tenant == db.decisions[id].tenant
  {
  }

  lemma RecordOutcomeOwned(db: Database, op: Op)
    requires op.OpRecordOutcome? && OutcomesOwned(db)
    ensures OutcomesOwned(Do(db, op).0)
  {
  }

  lemma OutcomesOwnedKept(db: Database, op: Op)
    requires FreshId(db, op) && OutcomesOwned(db)
    ensures OutcomesOwned(Do(db, op).0)
  {
    if op.OpRecordOutcome? {
      RecordOutcomeOwned(db, op);
    } else {
      EffectOf(db, op);
      forall id | id in db.decisions && (op.OpOpenDecision? || op.OpDecide? || op.OpCancel?)
        ensures id in Do(db, op).0.decisions && Do(db, op).0.decisions[id].tenant == db.decisions[id].tenant
      {
        DecisionOpKeepsOwners(db, op, id);
      }
    }
  }

  lemma CreateIncidentIsolated(db: Database, op: Op, t: TenantId)
    requires FreshId(db, op) && op.OpCreateIncident?
    ensures Isolated(db, op, t)
  {
    var row := Incident(op.tenant, op.title, op.severity, op.kind, Open, op.actor, op.at, None);
    IncidentWrite(db, op.id, row, t);
    NoteOwn(db.(incidents := db.incidents[op.id := row]),
            TimelineEvent(op.tenant, op.id, None, IncidentCreated, Some(op.actor)), t);
  }

  lemma UpdateStatusStep(db: Database, t: TenantId, actor: Id, id: Id, to: IncidentStatus, at: int, u: TenantId)
    ensures var (after, answer) := UpdateStatus(db, t, actor, id, to, at);
            if t == u then UpdateStatus(Restrict(db, u), t, actor, id, to, at) == (Restrict(after, u), answer)
            else Restrict(after, u) == Restrict(db, u)
  {
    var r := UpdateStatus(db, t, actor, id, to, at).1;
    if r.IncidentRow? {
      IncidentWrite(db, id, r.incident, u);
      NoteOwn(db.(incidents := db.incidents[id := r.incident]),
              TimelineEvent(t, id, None, StatusChanged(db.incidents[id].status, to), Some(actor)), u);
    }
  }

  lemma UpdateStatusIsolated(db: Database, op: Op, t: TenantId)
    requires op.OpUpdateStatus?
    ensures Isolated(db, op, t)
  {
    UpdateStatusStep(db, op.tenant, op.actor, op.id, op.to, op.at, t);
  }

  lemma OpenDecisionIsolated(db: Database, op: Op, t: TenantId)
    requires FreshId(db, op) && op.OpOpenDecision?
    ensures Isolated(db, op, t)
  {
    var row := Decision(op.tenant, op.incidentId, op.question, Undecided, None, None, None, None, op.actor);
    DecisionWrite(db, op.id, row, t);
    NoteOwn(db.(decisions := db.decisions[op.id := row]),
            TimelineEvent(op.tenant, op.incidentId, Some(op.id), DecisionOpened, Some(op.actor)), t);
  }

  lemma DecideIsolated(db: Database, op: Op, t: TenantId)
    requires op.OpDecide?
    ensures Isolated(db, op, t)
  {
    if HasDecision(db, op.tenant, op.id) {
      var row := db.decisions[op.id].(status := Decided, humanDecision := Some(op.humanDecision), rationale := op.rationale,
                                      decidedBy := Some(op.decidedBy), decidedAt := Some(op.at));
      DecisionWrite(db, op.id, row, t);
      NoteOwn(db.(decisions := db.decisions[op.id := row]),
              TimelineEvent(op.tenant, row.incidentId, Some(op.id), DecisionDecided(op.decidedBy), Some(op.actor)), t);
    }
  }

  lemma CancelIsolated(db: Database, op: Op, t: TenantId)
    requires op.OpCancel?
    ensures Isolated(db, op, t)
  {
    if HasDecision(db, op.tenant, op.id) {
      var row := db.decisions[op.id].(status := Cancelled);
      DecisionWrite(db, op.id, row, t);
      NoteOwn(db.(decisions := db.decisions[op.id := row]),
              TimelineEvent(op.tenant, row.incidentId, Some(op.id), DecisionCancelled, Some(op.actor)), t);
    }
  }

  lemma OwnEvidenceGates(db: Database, t: TenantId, incidentId: Id, decisionId: Option<Id>)
    ensures EvidenceRefusal(Restrict(db, t), t, incidentId, decisionId) == EvidenceRefusal(db, t, incidentId, decisionId)
  {
  }

  lemma WithEvidenceOwn(db: Database, row: Evidence, actor: Option<Id>, t: TenantId)
    ensures Restrict(WithEvidence(db, row, actor), t) ==
            if row.tenant == t then WithEvidence(Restrict(db, t), row, actor) else Restrict(db, t)
  {
  }

  lemma AddEvidenceStep(db: Database, t: TenantId, actor: Option<Id>, id: Id, incidentId: Id, decisionId: Option<Id>,
                        category: Category, source: string, at: int, u: TenantId)
    ensures var (after, answer) := AddEvidence(db, t, actor, id, incidentId, decisionId, category, source, at);
            if t == u
            then AddEvidence(Restrict(db, u), t, actor, id, incidentId, decisionId, category, source, at) == (Restrict(after, u), answer)
            else Restrict(after, u) == Restrict(db, u)
  {
    OwnEvidenceGates(db, t, incidentId, decisionId);
    WithEvidenceOwn(db, Evidence(id, t, incidentId, decisionId, category, source, at), actor, u);
  }

  lemma AddEvidenceIsolated(db: Database, op: Op, t: TenantId)
    requires op.OpAddEvidence?
    ensures Isolated(db, op, t)
  {
    AddEvidenceStep(db, op.tenant, op.submitter, op.id, op.incidentId, op.decisionId, op.category, op.source, op.at, t);
  }

  lemma AnalyzeStep(db: Database, t: TenantId, actor: Id, id: Id, incidentId: Id, dto: Submission,
                    now: int, at: int, u: TenantId)
    ensures var (after, answer) := Analyze(db, t, actor, id, incidentId, dto, now, at);
            if t == u then Analyze(Restrict(db, u), t, actor, id, incidentId, dto, now, at) == (Restrict(after, u), answer)
            else Restrict(after, u) == Restrict(db, u)
  {
    var (after, answer) := Analyze(db, t, actor, id, incidentId, dto, now, at);
    OwnEvidence(db, t, incidentId);
    if answer.AnalysisRow? {
      var row := answer.listed.analysis;
      AnalysisWrite(db, row, u);
      NoteOwn(db.(analyses := db.analyses + [row]), TimelineEvent(t, incidentId, None, AnalysisGenerated(id), Some(actor)), u);
    }
  }

  lemma AnalyzeIsolated(db: Database, op: Op, t: TenantId)
    requires op.OpAnalyze?
    ensures Isolated(db, op, t)
  {
    AnalyzeStep(db, op.tenant, op.actor, op.id, op.incidentId, op.dto, op.now, op.at, t);
  }

  lemma ListIsolated(db: Database, op: Op, t: TenantId)
    requires op.OpListAnalyses?
    ensures Isolated(db, op, t)
  {
    OwnAnalyses(db, op.tenant, op.incidentId);
    OwnEvidenceWithIds(db, op.tenant, UsedIds(AnalysesOf(db.analyses, op.tenant, op.incidentId)));
  }

  lemma OwnOutcomeGates(db: Database, t: TenantId, id: Id)
    requires OutcomesOwned(db)
    ensures OutcomeRefusal(Restrict(db, t), t, id) == OutcomeRefusal(db, t, id)
    ensures HasDecision(db, t, id) ==>
              && Restrict(db, t).decisions[id] == db.decisions[id]
              && InformingLink(Restrict(db, t), t, db.decisions[id]) == InformingLink(db, t, db.decisions[id])
  {
    if HasDecision(db, t, id) && db.decisions[id].decidedAt.Some? {
      OwnInforming(db, t, db.decisions[id].incidentId, db.decisions[id].decidedAt.value);
    }
  }

  lemma WithOutcomeOwn(db: Database, id: Id, incidentId: Id, row: Outcome, t: TenantId)
    requires id !in db.outcomes
    ensures Restrict(WithOutcome(db, id, incidentId, row), t) ==
            if row.tenant == t then WithOutcome(Restrict(db, t), id, incidentId, row) else Restrict(db, t)
  {
    OutcomeWrite(db, id, row, t);
    NoteOwn(db.(outcomes := db.outcomes[id := row]),
            TimelineEvent(row.tenant, incidentId, Some(id), OutcomeRecorded(row.analysisId), Some(row.recordedBy)), t);
  }

  lemma RecordOutcomeStep(db: Database, t: TenantId, actor: Id, id: Id, quality: Quality, at: int, u: TenantId)
    requires OutcomesOwned(db)
    ensures var (after, answer) := RecordOutcome(db, t, actor, id, quality, at);
            if t == u then RecordOutcome(Restrict(db, u), t, actor, id, quality, at) == (Restrict(after, u), answer)
            else Restrict(after, u) == Restrict(db, u)
  {
    OwnOutcomeGates(db, t, id);
    if OutcomeRefusal(db, t, id).None? {
      var d := db.decisions[id];
      WithOutcomeOwn(db, id, d.incidentId, Outcome(t, InformingLink(db, t, d), quality, actor, at), u);
    }
  }

  lemma RecordOutcomeIsolated(db: Database, op: Op, t: TenantId)
    requires op.OpRecordOutcome? && OutcomesOwned(db)
    ensures Isolated(db, op, t)
  {
    RecordOutcomeStep(db, op.tenant, op.actor, op.id, op.quality, op.at, t);
  }

  lemma OwnRelateGates(db: Database, t: TenantId, from: Id, to: Id, evidenceId: Id)
    ensures CanRelate(Restrict(db, t), t, from, to, evidenceId) == CanRelate(db, t, from, to, evidenceId)
  {
    OwnEvidenceWithIds(db, t, {evidenceId});
  }

  lemma RelateStep(db: Database, t: TenantId, actor: Id, id: Id, from: Id, to: Id, evidenceId: Id, u: TenantId)
    requires id !in db.relationships
    ensures var (after, answer) := Relate(db, t, actor, id, from, to, evidenceId);
            if t == u then Relate(Restrict(db, u), t, actor, id, from, to, evidenceId) == (Restrict(after, u), answer)
            else Restrict(after, u) == Restrict(db, u)
  {
    OwnRelateGates(db, t, from, to, evidenceId);
    RelationshipWrite(db, id, Relationship(t, from, to, Suggested, None, None), [EvidenceLink(t, id, evidenceId)],
                      AuditEntry(t, actor, CreateRelationship, id), u);
  }

  lemma RelateIsolated(db: Database, op: Op, t: TenantId)
    requires FreshId(db, op) && op.OpRelate?
    ensures Isolated(db, op, t)
  {
    RelateStep(db, op.tenant, op.actor, op.id, op.fromId, op.toId, op.evidenceId, t);
  }

  lemma ConfirmIsolated(db: Database, op: Op, t: TenantId)
    requires op.OpConfirm?
    ensures Isolated(db, op, t)
  {
    if HasRelationship(db, op.tenant, op.id) {
      OwnLinks(db, op.tenant, op.id);
      RelationshipWrite(db, op.id,
                        db.relationships[op.id].(status := Confirmed, confirmedBy := Some(op.actor), confirmedAt := Some(op.at)),
                        [], AuditEntry(op.tenant, op.actor, ConfirmRelationship, op.id), t);
    }
  }

  lemma RejectIsolated(db: Database, op: Op, t: TenantId)
    requires op.OpReject?
    ensures Isolated(db, op, t)
  {
    if HasRelationship(db, op.tenant, op.id) {
      RelationshipWrite(db, op.id, db.relationships[op.id].(status := Rejected), [],
                        AuditEntry(op.tenant, op.actor, RejectRelationship, op.id), t);
    }
  }

  lemma MembersIsolated(db: Database, op: Op, t: TenantId)
    requires op.OpAddMember? || op.OpRemoveMember?
    ensures Isolated(db, op, t)
  {
    var after := Do(db, op).0.members;
    assert (set m | m in after && m.1 == t) ==
           if op.tenant != t then Restrict(db, t).members
           else if op.OpAddMember? then Restrict(db, t).members + {(op.user, t)}
           else Restrict(db, t).members - {(op.user, t)};
  }

  lemma AddEntityIsolated(db: Database, op: Op, t: TenantId)
    requires FreshId(db, op) && op.OpAddEntity?
    ensures Isolated(db, op, t)
  {
    OwnUpdate(db.entities, op.id, op.tenant, (r: TenantId) => r == t);
  }

  lemma BlockedIsolated(db: Database, op: Op, t: TenantId)
    requires op.OpBlocked?
    ensures Isolated(db, op, t)
  {
    NoteOwn(db, TimelineEvent(op.tenant, op.incidentId, None, IntegrationBlocked(op.key, op.result), None), t);
  }

  lemma EveryOpIsolated(db: Database, op: Op, t: TenantId)
    requires FreshId(db, op) && OutcomesOwned(db)
    ensures Isolated(db, op, t)
  {
    if op.OpCreateIncident? {
      CreateIncidentIsolated(db, op, t);
    } else if op.OpUpdateStatus? {
      UpdateStatusIsolated(db, op, t);
    } else if op.OpOpenDecision? {
      OpenDecisionIsolated(db, op, t);
    } else if op.OpDecide? {
      DecideIsolated(db, op, t);
    } else if op.OpCancel? {
      CancelIsolated(db, op, t);
    } else if op.OpAddEvidence? {
      AddEvidenceIsolated(db, op, t);
    } else if op.OpAnalyze? {
      AnalyzeIsolated(db, op, t);
    } else if op.OpListAnalyses? {
      ListIsolated(db, op, t);
    } else if op.OpRecordOutcome? {
      RecordOutcomeIsolated(db, op, t);
    } else if op.OpRelate? {
      RelateIsolated(db, op, t);
    } else if op.OpConfirm? {
      ConfirmIsolated(db, op, t);
    } else if op.OpReject? {
      RejectIsolated(db, op, t);
    } else if op.OpAddMember? || op.OpRemoveMember? {
      MembersIsolated(db, op, t);
    } else if op.OpAddEntity? {
      AddEntityIsolated(db, op, t);
    } else {
      BlockedIsolated(db, op, t);
    }
  }
}
