/** The services as they run: they write their tables and the logs in place, and announce to the integrations. */
module WorkflowServices {
  import opened Common
  import opened Providers
  import opened Registries
  import opened RegistryService
  import opened Scoring
  import opened Workflow
  import opened Platform

  class Services {
    const integrations: IntegrationsRegistry
    var members: set<(Id, TenantId)>
    var incidents: map<Id, Incident>
    var decisions: map<Id, Decision>
    var evidence: seq<Evidence>
    var analyses: seq<Analysis>
    var outcomes: map<Id, Outcome>
    var timeline: seq<TimelineEvent>
    var entities: map<Id, TenantId>
    var relationships: map<Id, Relationship>
    var links: seq<EvidenceLink>
    var audit: seq<AuditEntry>

    function Tables(): Database
      reads this
    {
      Database(members, incidents, decisions, evidence, analyses, outcomes, timeline, entities, relationships, links, audit)
    }

    ghost predicate Valid()
      reads this, integrations, integrations.Repr
    {
      integrations.Valid() && this !in integrations.Repr
    }

    ghost function State(): System
      reads this, integrations
    {
      System(Tables(), integrations.Contents)
    }

    constructor (integrations: IntegrationsRegistry)
      requires integrations.Valid()
      ensures Valid() && this.integrations == integrations && Tables() == EMPTY
    {
      this.integrations := integrations;
      members, incidents, decisions, evidence, analyses, outcomes := {}, map[], map[], [], [], map[];
      timeline, entities, relationships, links, audit := [], map[], map[], [], [];
    }

    // ---- Incidents ----

    method CreateIncident(t: TenantId, actor: Id, id: Id, title: string, severity: Severity, kind: IncidentType, at: int,
                          ends: IntegrationKey -> int) returns (r: Answer)
      requires Valid()
      modifies this, integrations, integrations.Repr
      ensures Valid() && fresh(integrations.Repr - old(integrations.Repr))
      ensures (State(), r) == HandleStore(old(State()), OpCreateIncident(t, actor, id, title, severity, kind, at), ends)
    {
      r := InsertIncident(t, actor, id, title, severity, kind, at);
      Announce(Broadcast(t, id, at, ends));
    }

    method InsertIncident(t: TenantId, actor: Id, id: Id, title: string, severity: Severity, kind: IncidentType, at: int)
      returns (r: Answer)
      modifies this`incidents, this`timeline
      ensures (Tables(), r) == Do(old(Tables()), OpCreateIncident(t, actor, id, title, severity, kind, at)) && r.IncidentRow?
    {
      var row := Incident(t, title, severity, kind, Open, actor, at, None);
      incidents := incidents[id := row];
      timeline := timeline + [TimelineEvent(t, id, None, IncidentCreated, Some(actor))];
      r := IncidentRow(id, row);
    }

    /** The registry's broadcast, and one timeline event for each circuit it opened. */
    method Announce(b: Broadcast)
      requires Valid()
      modifies this`timeline, integrations, integrations.Repr
      ensures Valid() && fresh(integrations.Repr - old(integrations.Repr))
      ensures State() == Platform.Announce(old(State()), b)
    {
      ghost var was := Tables();
      var events := integrations.Broadcast(b);
      for i := 0 to |events|
        invariant Valid() && fresh(integrations.Repr - old(integrations.Repr))
        invariant integrations.Contents == AfterBroadcast(old(integrations.Contents), b)
        invariant Tables() == NoteBlocked(was, events[..i])
      {
        assert events[..i + 1][..i] == events[..i];
        var e := events[i];
        timeline := timeline + [TimelineEvent(e.tenant, e.incident, None, IntegrationBlocked(e.key, e.result), None)];
      }
      assert events[..|events|] == events;
    }

    method UpdateStatus(t: TenantId, actor: Id, id: Id, to: IncidentStatus, at: int) returns (r: Answer)
      modifies this`incidents, this`timeline
      ensures (Tables(), r) == Do(old(Tables()), OpUpdateStatus(t, actor, id, to, at))
    {
      if id !in incidents || incidents[id].tenant != t {
        return Failed(NotFound);
      }
      var incident := incidents[id];
      if !ValidTransition(IncidentTransitions, incident.status, to) {
        return Failed(BadRequest);
      }
      var updated := incident.(status := to, closedAt := if to == Closed then Some(at) else incident.closedAt);
      incidents := incidents[id := updated];
      timeline := timeline + [TimelineEvent(t, id, None, StatusChanged(incident.status, to), Some(actor))];
      r := IncidentRow(id, updated);
    }

    // ---- Decisions ----

    method OpenDecision(t: TenantId, actor: Id, id: Id, incidentId: Id, question: string, at: int) returns (r: Answer)
      modifies this`decisions, this`timeline
      ensures (Tables(), r) == Do(old(Tables()), OpOpenDecision(t, actor, id, incidentId, question, at))
    {
      if incidentId !in incidents || incidents[incidentId].tenant != t {
        return Failed(NotFound);
      }
      var decision := Decision(t, incidentId, question, Undecided, None, None, None, None, actor);
      decisions := decisions[id := decision];
      timeline := timeline + [TimelineEvent(t, incidentId, Some(id), DecisionOpened, Some(actor))];
      r := DecisionRow(id, decision);
    }

    method Decide(t: TenantId, actor: Id, id: Id, decidedBy: Id, humanDecision: string, rationale: Option<string>, at: int,
                  ends: IntegrationKey -> int) returns (r: Answer)
      requires Valid()
      modifies this, integrations, integrations.Repr
      ensures Valid() && fresh(integrations.Repr - old(integrations.Repr))
      ensures (State(), r) == HandleStore(old(State()), OpDecide(t, actor, id, decidedBy, humanDecision, rationale, at), ends)
    {
      r := WriteDecision(t, actor, id, decidedBy, humanDecision, rationale, at);
      if r.DecisionRow? {
        Announce(Broadcast(t, r.decision.incidentId, at, ends));
      }
    }

    method WriteDecision(t: TenantId, actor: Id, id: Id, decidedBy: Id, humanDecision: string, rationale: Option<string>,
                         at: int) returns (r: Answer)
      modifies this`decisions, this`timeline
      ensures (Tables(), r) == Do(old(Tables()), OpDecide(t, actor, id, decidedBy, humanDecision, rationale, at))
    {
      if id !in decisions || decisions[id].tenant != t {
        return Failed(NotFound);
      }
      var decision := decisions[id];
      if !ValidTransition(DecisionTransitions, decision.status, Decided) || (decidedBy, t) !in members {
        return Failed(BadRequest);
      }
      var updated := decision.(status := Decided, humanDecision := Some(humanDecision), rationale := rationale,
                               decidedBy := Some(decidedBy), decidedAt := Some(at));
      decisions := decisions[id := updated];
      timeline := timeline + [TimelineEvent(t, decision.incidentId, Some(id), DecisionDecided(decidedBy), Some(actor))];
      r := DecisionRow(id, updated);
    }

    method Cancel(t: TenantId, actor: Id, id: Id, at: int) returns (r: Answer)
      modifies this`decisions, this`timeline
      ensures (Tables(), r) == Do(old(Tables()), OpCancel(t, actor, id, at))
    {
      if id !in decisions || decisions[id].tenant != t {
        return Failed(NotFound);
      }
      if !ValidTransition(DecisionTransitions, decisions[id].status, Cancelled) {
        return Failed(BadRequest);
      }
      var updated := decisions[id].(status := Cancelled);
      decisions := decisions[id := updated];
      timeline := timeline + [TimelineEvent(t, updated.incidentId, Some(id), DecisionCancelled, Some(actor))];
      r := DecisionRow(id, updated);
    }

    // ---- Evidence and analyses ----

    method AddEvidence(t: TenantId, actor: Option<Id>, id: Id, incidentId: Id, decisionId: Option<Id>,
                       category: Category, source: string, at: int) returns (r: Answer)
      modifies this`evidence, this`timeline
      ensures (Tables(), r) == Do(old(Tables()), OpAddEvidence(t, actor, id, incidentId, decisionId, category, source, at))
    {
      if incidentId !in incidents || incidents[incidentId].tenant != t {
        return Failed(NotFound);
      }
      if decisionId.Some? {
        var d := decisionId.value;
        if d !in decisions || decisions[d].tenant != t || decisions[d].incidentId != incidentId {
          return Failed(BadRequest);
        }
      }
      var row := Evidence(id, t, incidentId, decisionId, category, source, at);
      evidence := evidence + [row];
      timeline := timeline + [TimelineEvent(t, incidentId, decisionId, EvidenceAdded, actor)];
      r := EvidenceRow(row);
    }

    method Analyze(t: TenantId, actor: Id, id: Id, incidentId: Id, dto: Submission, now: int, at: int)
      returns (r: Answer)
      modifies this`analyses, this`timeline
      ensures (Tables(), r) == Do(old(Tables()), OpAnalyze(t, actor, id, incidentId, dto, now, at))
    {
      if incidentId !in incidents || incidents[incidentId].tenant != t {
        return Failed(NotFound);
      }
      var used := EvidenceOf(evidence, t, incidentId);
      var breakdown := BuildBreakdown(incidents[incidentId].kind, incidents[incidentId].severity, used, |dto.conflicts|, now);
      var scores := ScoresOf(breakdown);
      if !dto.valid || !MeetsContract(scores) {
        return Failed(BadRequest);
      }
      var created := Analysis(id, t, incidentId, scores, Ids(used), breakdown.completeness.missing, dto.conflicts, dto.content,
                              actor, at);
      analyses := analyses + [created];
      timeline := timeline + [TimelineEvent(t, incidentId, None, AnalysisGenerated(id), Some(actor))];
      r := AnalysisRow(Listed(created, breakdown));
    }

    method ListAnalyses(t: TenantId, incidentId: Id, at: int) returns (r: Answer)
      ensures (Tables(), r) == Do(Tables(), OpListAnalyses(t, incidentId, at))
    {
      if incidentId !in incidents || incidents[incidentId].tenant != t {
        return Failed(NotFound);
      }
      var incident, own := incidents[incidentId], AnalysesOf(analyses, t, incidentId);
      var rows := EvidenceWithIds(evidence, t, UsedIds(own));
      var newest := NewestFirst(own);
      r := AnalysisList(seq(|newest|, i requires 0 <= i < |newest| => Listed(newest[i], Rebuild(incident, rows, newest[i]))));
    }

    // ---- Outcomes ----

    method RecordOutcome(t: TenantId, actor: Id, decisionId: Id, quality: Quality, at: int) returns (r: Answer)
      modifies this`outcomes, this`timeline
      ensures (Tables(), r) == Do(old(Tables()), OpRecordOutcome(t, actor, decisionId, quality, at))
    {
      if decisionId !in decisions || decisions[decisionId].tenant != t {
        return Failed(NotFound);
      }
      var decision := decisions[decisionId];
      if decision.status != Decided {
        return Failed(BadRequest);
      }
      var i := decision.incidentId;
      if i !in incidents || incidents[i].tenant != t || incidents[i].status != Closed {
        return Failed(BadRequest);
      }
      if decisionId in outcomes {
        return Failed(Conflict);
      }
      var link := InformingLink(Tables(), t, decision);
      var outcome := Outcome(t, link, quality, actor, at);
      outcomes := outcomes[decisionId := outcome];
      timeline := timeline + [TimelineEvent(t, i, Some(decisionId), OutcomeRecorded(link), Some(actor))];
      r := OutcomeRow(outcome);
    }

    // ---- Relationships ----

    method Relate(t: TenantId, actor: Id, id: Id, from: Id, to: Id, evidenceId: Id, at: int) returns (r: Answer)
      modifies this`relationships, this`links, this`audit
      ensures (Tables(), r) == Do(old(Tables()), OpRelate(t, actor, id, from, to, evidenceId, at))
    {
      if from !in entities || entities[from] != t || to !in entities || entities[to] != t {
        return Failed(NotFound);
      }
      if EvidenceWithIds(evidence, t, {evidenceId}) == [] {
        return Failed(NotFound);
      }
      var relationship := Relationship(t, from, to, Suggested, None, None);
      relationships := relationships[id := relationship];
      links := links + [EvidenceLink(t, id, evidenceId)];
      audit := audit + [AuditEntry(t, actor, AuditAction.CreateRelationship, id)];
      r := RelationshipRow(id, relationship);
    }

    method Confirm(t: TenantId, actor: Id, id: Id, at: int) returns (r: Answer)
      modifies this`relationships, this`audit
      ensures (Tables(), r) == Do(old(Tables()), OpConfirm(t, actor, id, at))
    {
      assert links + [] == links;
      if id !in relationships || relationships[id].tenant != t {
        return Failed(NotFound);
      }
      if !ValidTransition(RelationshipTransitions, relationships[id].status, Confirmed) || LinksOf(links, t, id) == [] {
        return Failed(BadRequest);
      }
      var updated := relationships[id].(status := Confirmed, confirmedBy := Some(actor), confirmedAt := Some(at));
      relationships := relationships[id := updated];
      audit := audit + [AuditEntry(t, actor, AuditAction.ConfirmRelationship, id)];
      r := RelationshipRow(id, updated);
    }

    method Reject(t: TenantId, actor: Id, id: Id, at: int) returns (r: Answer)
      modifies this`relationships, this`audit
      ensures (Tables(), r) == Do(old(Tables()), OpReject(t, actor, id, at))
    {
      assert links + [] == links;
      if id !in relationships || relationships[id].tenant != t {
        return Failed(NotFound);
      }
      if !ValidTransition(RelationshipTransitions, relationships[id].status, Rejected) {
        return Failed(BadRequest);
      }
      var updated := relationships[id].(status := Rejected);
      relationships := relationships[id := updated];
      audit := audit + [AuditEntry(t, actor, AuditAction.RejectRelationship, id)];
      r := RelationshipRow(id, updated);
    }

    // ---- Members and entities, as far as the services above look them up ----

    method AddMember(t: TenantId, user: Id, at: int) returns (r: Answer)
      modifies this`members
      ensures (Tables(), r) == Do(old(Tables()), OpAddMember(t, user, at))
    {
      members := members + {(user, t)};
      r := Done;
    }

    method RemoveMember(t: TenantId, user: Id, at: int) returns (r: Answer)
      modifies this`members
      ensures (Tables(), r) == Do(old(Tables()), OpRemoveMember(t, user, at))
    {
      members := members - {(user, t)};
      r := Done;
    }

    method AddEntity(t: TenantId, id: Id, at: int) returns (r: Answer)
      modifies this`entities
      ensures (Tables(), r) == Do(old(Tables()), OpAddEntity(t, id, at))
    {
      entities := entities[id := t];
      r := Done;
    }
  }
}
