/** What every accepted analysis says: its operation's fields, the evidence it used, and the sources it missed. */
module WorkflowAnalyses {
  import opened Common
  import opened Registries
  import opened Scoring
  import opened Workflow
  import opened WorkflowReplay

  lemma AnalysisSaysWhatWasAsked(ops: seq<Op>, k: nat, a: Analysis)
    requires k < |ops| && MadeBy(ops, k, a)
    ensures var op := ops[k];
            && a.id == op.id && a.tenant == op.tenant && a.incidentId == op.incidentId
            && a.conflicts == op.dto.conflicts && a.content == op.dto.content
            && a.submittedBy == op.actor && a.createdAt == op.at
  {
  }

  predicate IsOf(e: Evidence, t: TenantId, incidentId: Id) {
    e.tenant == t && e.incidentId == incidentId
  }

  /** `used` are the ids of all the rows of this tenant's incident, in order: those at the positions `at`. */
  predicate UsesAll(evidence: seq<Evidence>, t: TenantId, incidentId: Id, used: seq<Id>, at: seq<nat>) {
    && |at| == |used|
    && (forall i, j :: 0 <= i < j < |at| ==> at[i] < at[j])
    && (forall i :: 0 <= i < |at| ==> at[i] < |evidence| && IsOf(evidence[at[i]], t, incidentId) && evidence[at[i]].id == used[i])
    && (forall n :: 0 <= n < |evidence| && IsOf(evidence[n], t, incidentId) ==> n in at)
  }

  lemma OwnEvidenceAt(evidence: seq<Evidence>, t: TenantId, incidentId: Id) returns (at: seq<nat>)
    ensures UsesAll(evidence, t, incidentId, Ids(EvidenceOf(evidence, t, incidentId)), at)
  {
    at := FilterPicks(evidence, (e: Evidence) => e.tenant == t && e.incidentId == incidentId);
  }

  /** Every accepted analysis uses exactly the evidence its own incident has at that moment, each item once. */
  lemma AnalysisUsesItsIncidentsEvidence(ops: seq<Op>, k: nat, a: Analysis) returns (at: seq<nat>)
    requires k < |ops| && MadeBy(ops, k, a)
    ensures UsesAll(Run(EMPTY, ops[..k]).evidence, a.tenant, a.incidentId, a.evidenceUsed, at)
  {
    var op, db := ops[k], Run(EMPTY, ops[..k]);
    AnalyzeStores(db, op.tenant, op.actor, op.id, op.incidentId, op.dto, op.now, op.at);
    at := OwnEvidenceAt(db.evidence, op.tenant, op.incidentId);
  }

  lemma UsedIdsAreDistinct(ops: seq<Op>, k: nat, a: Analysis, i: nat, j: nat)
    requires k < |ops| && FreshIds(EMPTY, ops[..k]) && MadeBy(ops, k, a) && i < j < |a.evidenceUsed|
    ensures a.evidenceUsed[i] != a.evidenceUsed[j]
  {
    var at := AnalysisUsesItsIncidentsEvidence(ops, k, a);
    EvidenceIdsStayDistinct(ops[..k]);
  }

  /** Some row of this tenant's incident comes from such a source. */
  predicate Covers(evidence: seq<Evidence>, t: TenantId, incidentId: Id, c: Category) {
    exists e :: e in evidence && IsOf(e, t, incidentId) && e.category == c
  }

  /** `missing` are the required sources that no such row covers, in the order they are required. */
  predicate Misses(evidence: seq<Evidence>, t: TenantId, incidentId: Id, required: seq<Category>, missing: seq<Category>, at: seq<nat>) {
    && |at| == |missing|
    && (forall i, j :: 0 <= i < j < |at| ==> at[i] < at[j])
    && (forall i :: 0 <= i < |at| ==> at[i] < |required| && missing[i] == required[at[i]]
                                      && !Covers(evidence, t, incidentId, required[at[i]]))
    && (forall n :: 0 <= n < |required| && !Covers(evidence, t, incidentId, required[n]) ==> n in at)
  }

  lemma CoversIff(evidence: seq<Evidence>, t: TenantId, incidentId: Id, c: Category)
    ensures c in Categories(EvidenceOf(evidence, t, incidentId)) <==> Covers(evidence, t, incidentId, c)
  {
    var own := EvidenceOf(evidence, t, incidentId);
    forall e
      ensures e in own <==> e in evidence && IsOf(e, t, incidentId)
    {
      FilterMember(evidence, e, (e: Evidence) => e.tenant == t && e.incidentId == incidentId);
    }
  }

  lemma MissedAt(evidence: seq<Evidence>, t: TenantId, incidentId: Id, kind: IncidentType) returns (at: seq<nat>)
    ensures Misses(evidence, t, incidentId, Required(kind),
                   Completeness(kind, Categories(EvidenceOf(evidence, t, incidentId))).missing, at)
  {
    var present := Categories(EvidenceOf(evidence, t, incidentId));
    at := FilterPicks(Required(kind), (c: Category) => c !in present);
    forall n | 0 <= n < |Required(kind)|
      ensures Required(kind)[n] in present <==> Covers(evidence, t, incidentId, Required(kind)[n])
    {
      CoversIff(evidence, t, incidentId, Required(kind)[n]);
    }
  }

  /** And misses exactly the sources its incident's type requires and its incident's evidence does not cover. */
  lemma AnalysisMissesWhatIsNotCovered(ops: seq<Op>, k: nat, a: Analysis) returns (at: seq<nat>)
    requires k < |ops| && MadeBy(ops, k, a)
    ensures var db := Run(EMPTY, ops[..k]);
            && a.incidentId in db.incidents
            && Misses(db.evidence, a.tenant, a.incidentId, Required(db.incidents[a.incidentId].kind), a.missing, at)
  {
    var op, db := ops[k], Run(EMPTY, ops[..k]);
    AnalyzeMisses(db, op.tenant, op.actor, op.id, op.incidentId, op.dto, op.now, op.at);
    at := MissedAt(db.evidence, op.tenant, op.incidentId, db.incidents[op.incidentId].kind);
  }

  lemma AnalyzeMisses(db: Database, t: TenantId, actor: Id, id: Id, incidentId: Id, dto: Submission, now: int, at: int)
    requires Analyze(db, t, actor, id, incidentId, dto, now, at).1.AnalysisRow?
    ensures incidentId in db.incidents
    ensures Analyze(db, t, actor, id, incidentId, dto, now, at).1.listed.analysis.missing ==
            Completeness(db.incidents[incidentId].kind, Categories(EvidenceOf(db.evidence, t, incidentId))).missing
  {
  }
}
