/** When each operation is accepted and how it is refused, in terms of the rows there are. */
module WorkflowGates {
  import opened Common
  import opened Registries
  import opened Scoring
  import opened ScoringLaws
  import opened Workflow
  import opened WorkflowLogs

  // ---- Incidents ----

  /** Only one step forward is ever accepted: no skipping, no going back, no standing still. */
  lemma UpdateStatusAcceptedIff(db: Database, t: TenantId, actor: Id, id: Id, to: IncidentStatus, at: int)
    ensures var (after, r) := UpdateStatus(db, t, actor, id, to, at);
            var known := id in db.incidents && db.incidents[id].tenant == t;
            && (r == Failed(NotFound) <==> !known)
            && (r == Failed(BadRequest) <==> known && Rank(to) != Rank(db.incidents[id].status) + 1)
            && (r.Failed? ==> after == db && (r == Failed(NotFound) || r == Failed(BadRequest)))
  {
  }

  // ---- Decisions ----

  lemma OpenDecisionAcceptedIff(db: Database, t: TenantId, actor: Id, id: Id, incidentId: Id, question: string)
    ensures var (after, r) := OpenDecision(db, t, actor, id, incidentId, question);
            && (!r.Failed? <==> incidentId in db.incidents && db.incidents[incidentId].tenant == t)
            && (r.Failed? ==> after == db && r == Failed(NotFound))
  {
  }

  /** A known decision that is still open is decided iff the person named, not the one acting, is a member. */
  lemma DecideAcceptedIff(db: Database, t: TenantId, actor: Id, id: Id, decidedBy: Id, text: string, why: Option<string>, at: int)
    ensures var (after, r) := Decide(db, t, actor, id, decidedBy, text, why, at);
            var known := id in db.decisions && db.decisions[id].tenant == t;
            && (!r.Failed? <==> known && db.decisions[id].status == Undecided && (decidedBy, t) in db.members)
            && (r == Failed(NotFound) <==> !known)
            && (r.Failed? ==> after == db && (r == Failed(NotFound) || r == Failed(BadRequest)))
  {
  }

  lemma CancelAcceptedIff(db: Database, t: TenantId, actor: Id, id: Id)
    ensures var (after, r) := Cancel(db, t, actor, id);
            var known := id in db.decisions && db.decisions[id].tenant == t;
            && (!r.Failed? <==> known && db.decisions[id].status == Undecided)
            && (r == Failed(NotFound) <==> !known)
            && (r.Failed? ==> after == db && (r == Failed(NotFound) || r == Failed(BadRequest)))
  {
  }

  // ---- Evidence and analyses ----

  lemma AddEvidenceAcceptedIff(db: Database, t: TenantId, actor: Option<Id>, id: Id, incidentId: Id, decisionId: Option<Id>,
                               category: Category, source: string, at: int)
    ensures var (after, r) := AddEvidence(db, t, actor, id, incidentId, decisionId, category, source, at);
            var known := incidentId in db.incidents && db.incidents[incidentId].tenant == t;
            var fits := decisionId.None? || (decisionId.value in db.decisions && db.decisions[decisionId.value].tenant == t
                                             && db.decisions[decisionId.value].incidentId == incidentId);
            && (r == Failed(NotFound) <==> !known)
            && (r == Failed(BadRequest) <==> known && !fits)
            && (r.Failed? ==> after == db && (r == Failed(NotFound) || r == Failed(BadRequest)))
  {
  }

  lemma EvidenceOfMember(evidence: seq<Evidence>, t: TenantId, incidentId: Id, e: Evidence)
    ensures e in EvidenceOf(evidence, t, incidentId) <==> e in evidence && e.tenant == t && e.incidentId == incidentId
  {
    FilterMember(evidence, e, (e: Evidence) => e.tenant == t && e.incidentId == incidentId);
  }

  /** This item of the incident's evidence is so far in the future that it would score over 100. */
  predicate TooEarly(e: Evidence, t: TenantId, incidentId: Id, s: Severity, now: int) {
    e.tenant == t && e.incidentId == incidentId && 2 * (e.createdAt - now) * TenthsPerMinute(s) >= 10 * MINUTE
  }

  predicate NoneTooEarly(evidence: seq<Evidence>, t: TenantId, incidentId: Id, s: Severity, now: int) {
    forall e :: e in evidence ==> !TooEarly(e, t, incidentId, s, now)
  }

  /** A valid submission is refused only for evidence of the incident from the future. */
  lemma AnalyzeAcceptedIff(db: Database, t: TenantId, actor: Id, id: Id, incidentId: Id, dto: Submission, now: int, at: int)
    ensures var (after, r) := Analyze(db, t, actor, id, incidentId, dto, now, at);
            var known := incidentId in db.incidents && db.incidents[incidentId].tenant == t;
            && (r == Failed(NotFound) <==> !known)
            && (!r.Failed? <==> known && dto.valid
                                && NoneTooEarly(db.evidence, t, incidentId, db.incidents[incidentId].severity, now))
            && (r.Failed? ==> after == db && (r == Failed(NotFound) || r == Failed(BadRequest)))
  {
    if HasIncident(db, t, incidentId) {
      var incident, own := db.incidents[incidentId], EvidenceOf(db.evidence, t, incidentId);
      ContractRejectsIff(incident.kind, incident.severity, own, |dto.conflicts|, now);
      OwnEvidenceTooEarly(db.evidence, t, incidentId, incident.severity, now);
    }
  }

  lemma OwnEvidenceTooEarly(evidence: seq<Evidence>, t: TenantId, incidentId: Id, s: Severity, now: int)
    ensures (exists e :: e in EvidenceOf(evidence, t, incidentId) && 2 * (e.createdAt - now) * TenthsPerMinute(s) >= 10 * MINUTE) <==>
            exists e :: e in evidence && TooEarly(e, t, incidentId, s, now)
  {
    forall e
      ensures e in EvidenceOf(evidence, t, incidentId) <==> e in evidence && e.tenant == t && e.incidentId == incidentId
    {
      EvidenceOfMember(evidence, t, incidentId, e);
    }
  }

  lemma ListAcceptedIff(db: Database, t: TenantId, incidentId: Id)
    ensures var r := ListAnalyses(db, t, incidentId);
            && (r.AnalysisList? <==> incidentId in db.incidents && db.incidents[incidentId].tenant == t)
            && (r.AnalysisList? || r == Failed(NotFound))
  {
  }

  // ---- Outcomes ----

  lemma RecordOutcomeAcceptedIff(db: Database, t: TenantId, actor: Id, id: Id, quality: Quality, at: int)
    ensures var (after, r) := RecordOutcome(db, t, actor, id, quality, at);
            var known := id in db.decisions && db.decisions[id].tenant == t;
            var over := known && db.decisions[id].status == Decided
                        && db.decisions[id].incidentId in db.incidents
                        && db.incidents[db.decisions[id].incidentId].tenant == t
                        && db.incidents[db.decisions[id].incidentId].status == Closed;
            && (r == Failed(NotFound) <==> !known)
            && (r == Failed(BadRequest) <==> known && !over)
            && (r == Failed(Conflict) <==> over && id in db.outcomes)
            && (r.Failed? ==> after == db)
  {
  }

  // ---- Relationships ----

  lemma CanRelateIff(db: Database, t: TenantId, from: Id, to: Id, evidenceId: Id)
    ensures CanRelate(db, t, from, to, evidenceId) <==>
            && from in db.entities && db.entities[from] == t && to in db.entities && db.entities[to] == t
            && exists e :: e in db.evidence && e.tenant == t && e.id == evidenceId
  {
    var ids := {evidenceId};
    var rows := EvidenceWithIds(db.evidence, t, ids);
    forall e
      ensures e in rows <==> e in db.evidence && e.tenant == t && e.id == evidenceId
    {
      FilterMember(db.evidence, e, (e: Evidence) => e.tenant == t && e.id in ids);
    }
    if rows != [] {
      assert rows[0] in rows;
    }
  }

  lemma RelateAcceptedIff(db: Database, t: TenantId, actor: Id, id: Id, from: Id, to: Id, evidenceId: Id)
    ensures var (after, r) := Relate(db, t, actor, id, from, to, evidenceId);
            && (!r.Failed? <==> && from in db.entities && db.entities[from] == t
                                && to in db.entities && db.entities[to] == t
                                && exists e :: e in db.evidence && e.tenant == t && e.id == evidenceId)
            && (r.Failed? ==> after == db && r == Failed(NotFound))
  {
    CanRelateIff(db, t, from, to, evidenceId);
  }

  predicate Cited(links: seq<EvidenceLink>, t: TenantId, id: Id) {
    exists l :: l in links && l.tenant == t && l.relationshipId == id
  }

  lemma CitedIff(links: seq<EvidenceLink>, t: TenantId, id: Id)
    ensures LinksOf(links, t, id) != [] <==> Cited(links, t, id)
  {
    var cited := LinksOf(links, t, id);
    forall l
      ensures l in cited <==> l in links && l.tenant == t && l.relationshipId == id
    {
      FilterMember(links, l, (l: EvidenceLink) => l.tenant == t && l.relationshipId == id);
    }
    if cited != [] {
      assert cited[0] in cited;
    }
  }

  lemma ConfirmAcceptedIff(db: Database, t: TenantId, actor: Id, id: Id, at: int)
    ensures var (after, r) := Confirm(db, t, actor, id, at);
            var known := id in db.relationships && db.relationships[id].tenant == t;
            && (r == Failed(NotFound) <==> !known)
            && (!r.Failed? <==> known && db.relationships[id].status == Suggested
                                && Cited(db.links, t, id))
            && (r.Failed? ==> after == db && (r == Failed(NotFound) || r == Failed(BadRequest)))
  {
    CitedIff(db.links, t, id);
  }

  lemma RejectAcceptedIff(db: Database, t: TenantId, actor: Id, id: Id)
    ensures var (after, r) := Reject(db, t, actor, id);
            var known := id in db.relationships && db.relationships[id].tenant == t;
            && (!r.Failed? <==> known && db.relationships[id].status == Suggested)
            && (r == Failed(NotFound) <==> !known)
            && (r.Failed? ==> after == db && (r == Failed(NotFound) || r == Failed(BadRequest)))
  {
  }
}
