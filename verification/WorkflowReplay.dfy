/** What `list` rebuilds from frozen evidence snapshots, in every reachable state. */
module WorkflowReplay {
  import opened Common
  import opened Registries
  import opened Scoring
  import opened ScoringLaws
  import opened Workflow
  import opened WorkflowFrames
  import opened WorkflowLogs

  predicate DistinctIds(rows: seq<Evidence>) {
    forall i, j :: 0 <= i < j < |rows| ==> rows[i].id != rows[j].id
  }

  function TenantRows(db: Database, t: TenantId): seq<Evidence> {
    Filter(db.evidence, (e: Evidence) => e.tenant == t)
  }

  // ---- Snapshots ----

  lemma {:induction false} FindUnique(rows: seq<Evidence>, e: Evidence)
    requires DistinctIds(rows) && e in rows
    ensures FindEvidence(rows, e.id) == Some(e)
  {
    var n := |rows| - 1;
    if rows[n] != e {
      assert rows == rows[..n] + [rows[n]];
      assert e in rows[..n];
      FindUnique(rows[..n], e);
    }
  }

  lemma {:induction false} FilterDistinct(rows: seq<Evidence>, p: Evidence -> bool)
    requires DistinctIds(rows)
    ensures DistinctIds(Filter(rows, p))
  {
    if rows != [] {
      var n := |rows| - 1;
      FilterDistinct(rows[..n], p);
      var kept := Filter(rows[..n], p);
      forall i | 0 <= i < |kept|
        ensures kept[i].id != rows[n].id
      {
        FilterMember(rows[..n], kept[i], p);
      }
    }
  }

  /** The snapshot of the ids of some stored rows is those rows. */
  lemma SnapshotOfIds(rows: seq<Evidence>, evidence: seq<Evidence>)
    requires DistinctIds(rows) && forall e :: e in evidence ==> e in rows
    ensures Snapshot(rows, Ids(evidence)) == evidence
  {
    var find := (id: Id) => FindEvidence(rows, id);
    forall i | 0 <= i < |evidence|
      ensures find(Ids(evidence)[i]) == Some(evidence[i])
    {
      FindUnique(rows, evidence[i]);
    }
    FilterMapAll(Ids(evidence), find, evidence);
  }

  lemma {:induction false} FilterMapAgrees<T, U>(s: seq<T>, f: T -> Option<U>, g: T -> Option<U>)
    requires forall x :: x in s ==> f(x) == g(x)
    ensures FilterMap(s, f) == FilterMap(s, g)
  {
    if s != [] {
      assert s == s[..|s| - 1] + [s[|s| - 1]];
      FilterMapAgrees(s[..|s| - 1], f, g);
    }
  }

  /** Rows with other ids do not matter to a snapshot. */
  lemma SnapshotIgnoresNewRow(rows: seq<Evidence>, e: Evidence, ids: seq<Id>)
    requires e.id !in ids
    ensures Snapshot(rows + [e], ids) == Snapshot(rows, ids)
  {
    forall id | id in ids
      ensures FindEvidence(rows + [e], id) == FindEvidence(rows, id)
    {
      FindAppend(rows, e, id);
    }
    FilterMapAgrees(ids, (id: Id) => FindEvidence(rows + [e], id), (id: Id) => FindEvidence(rows, id));
  }

  lemma FindAppend(rows: seq<Evidence>, e: Evidence, id: Id)
    ensures FindEvidence(rows + [e], id) == if e.id == id then Some(e) else FindEvidence(rows, id)
  {
  }

  lemma {:induction false} FindInBatch(evidence: seq<Evidence>, t: TenantId, ids: set<Id>, id: Id)
    requires id in ids
    ensures FindEvidence(EvidenceWithIds(evidence, t, ids), id) ==
            FindEvidence(Filter(evidence, (e: Evidence) => e.tenant == t), id)
  {
    if evidence != [] {
      var n := |evidence| - 1;
      FindInBatch(evidence[..n], t, ids, id);
      FindAppend(EvidenceWithIds(evidence[..n], t, ids), evidence[n], id);
      FindAppend(Filter(evidence[..n], (e: Evidence) => e.tenant == t), evidence[n], id);
    }
  }

  /** One batched query serves every analysis as a query of its own would. */
  lemma BatchServesEach(db: Database, t: TenantId, ids: set<Id>, wanted: seq<Id>)
    requires forall id :: id in wanted ==> id in ids
    ensures Snapshot(EvidenceWithIds(db.evidence, t, ids), wanted) == Snapshot(TenantRows(db, t), wanted)
  {
    forall id | id in wanted
      ensures FindEvidence(EvidenceWithIds(db.evidence, t, ids), id) == FindEvidence(TenantRows(db, t), id)
    {
      FindInBatch(db.evidence, t, ids, id);
    }
    FilterMapAgrees(wanted, (id: Id) => FindEvidence(EvidenceWithIds(db.evidence, t, ids), id),
                    (id: Id) => FindEvidence(TenantRows(db, t), id));
  }

  // ---- Fidelity ----

  predicate Within(stored: int, rebuilt: int, s: Severity, early: nat, late: nat) {
    && stored - CeilDiv(late * TenthsPerMinute(s), 10 * MINUTE) <= rebuilt
    && rebuilt <= stored + CeilDiv(early * TenthsPerMinute(s), 10 * MINUTE)
  }

  /** Equal but for freshness, which the row's creation up to `late` ms after or `early` ms before may shift. */
  predicate Replays(stored: Scores, rebuilt: Scores, s: Severity, early: nat, late: nat) {
    && rebuilt.completeness == stored.completeness
    && rebuilt.reliability == stored.reliability
    && rebuilt.certainty == stored.certainty
    && Within(stored.freshness, rebuilt.freshness, s, early, late)
  }

  /**
   * The stored scores are those of the analysis's own evidence, as it is stored now, at the instant `now`.
   * What is rebuilt is scored from the same evidence, at the analysis's creation time.
   */
  predicate ScoredAt(db: Database, a: Analysis, now: int) {
    && HasIncident(db, a.tenant, a.incidentId)
    && (forall id :: id in a.evidenceUsed ==> exists e :: e in db.evidence && e.id == id)
    && var incident := db.incidents[a.incidentId];
    a.scores == Score(incident.kind, incident.severity, Snapshot(TenantRows(db, a.tenant), a.evidenceUsed), |a.conflicts|, now)
  }

  lemma CeilMonotone(a: nat, b: nat, d: int)
    requires a <= b && d > 0
    ensures CeilDiv(a, d) <= CeilDiv(b, d)
  {
    QuotientIsGreatest(b + d - 1, d, CeilDiv(a, d));
    QuotientIsGreatest(a + d - 1, d, CeilDiv(a, d));
  }

  lemma DriftMonotone(d: nat, d': nat, k: nat)
    requires d <= d'
    ensures CeilDiv(d * k, 10 * MINUTE) <= CeilDiv(d' * k, 10 * MINUTE)
  {
    MultiplyMonotone(k, d, d');
    CeilMonotone(d * k, d' * k, 10 * MINUTE);
  }

  lemma DriftNonNegative(d: nat, k: nat)
    ensures CeilDiv(d * k, 10 * MINUTE) >= 0
  {
    DriftMonotone(0, d, k);
    assert 0 * k == 0;
  }

  lemma FreshnessWithin(evidence: seq<Evidence>, s: Severity, now: int, at: int, early: nat, late: nat)
    requires now - early <= at <= now + late
    ensures Within(FreshnessScore(evidence, s, now), FreshnessScore(evidence, s, at), s, early, late)
  {
    if now <= at {
      LaterFreshness(evidence, s, now, at - now, early, late);
    } else {
      EarlierFreshness(evidence, s, now, now - at, early, late);
    }
  }

  lemma LaterFreshness(evidence: seq<Evidence>, s: Severity, now: int, d: nat, early: nat, late: nat)
    requires d <= late
    ensures Within(FreshnessScore(evidence, s, now), FreshnessScore(evidence, s, now + d), s, early, late)
  {
    FreshnessDrift(evidence, s, now, d);
    DriftMonotone(d, late, TenthsPerMinute(s));
    DriftNonNegative(early, TenthsPerMinute(s));
  }

  lemma EarlierFreshness(evidence: seq<Evidence>, s: Severity, now: int, d: nat, early: nat, late: nat)
    requires d <= early
    ensures Within(FreshnessScore(evidence, s, now), FreshnessScore(evidence, s, now - d), s, early, late)
  {
    FreshnessDrift(evidence, s, now - d, d);
    DriftMonotone(d, early, TenthsPerMinute(s));
    DriftNonNegative(late, TenthsPerMinute(s));
  }

  lemma LagShiftsFreshness(kind: IncidentType, s: Severity, evidence: seq<Evidence>, conflicts: nat,
                           now: int, at: int, early: nat, late: nat)
    requires now - early <= at <= now + late
    ensures Replays(Score(kind, s, evidence, conflicts, now), Score(kind, s, evidence, conflicts, at), s, early, late)
  {
    FreshnessWithin(evidence, s, now, at, early, late);
  }

  /** The ids an analysis stores lead back to the very evidence it scored. */
  lemma UsedEvidenceIsFound(db: Database, t: TenantId, incidentId: Id)
    requires DistinctIds(db.evidence)
    ensures var evidence := EvidenceOf(db.evidence, t, incidentId);
            && Snapshot(TenantRows(db, t), Ids(evidence)) == evidence
            && forall id :: id in Ids(evidence) ==> exists e :: e in db.evidence && e.id == id
  {
    var evidence, rows := EvidenceOf(db.evidence, t, incidentId), TenantRows(db, t);
    forall e | e in evidence
      ensures e in db.evidence && e in rows
    {
      FilterMember(db.evidence, e, (e: Evidence) => e.tenant == t && e.incidentId == incidentId);
      FilterMember(db.evidence, e, (e: Evidence) => e.tenant == t);
    }
    FilterDistinct(db.evidence, (e: Evidence) => e.tenant == t);
    SnapshotOfIds(rows, evidence);
    forall id | id in Ids(evidence)
      ensures exists e :: e in db.evidence && e.id == id
    {
      var i :| 0 <= i < |evidence| && Ids(evidence)[i] == id;
      assert evidence[i] in db.evidence;
    }
  }

  lemma AnalyzeStores(db: Database, t: TenantId, actor: Id, id: Id, incidentId: Id, dto: Submission, now: int, at: int)
    requires Analyze(db, t, actor, id, incidentId, dto, now, at).1.AnalysisRow?
    ensures HasIncident(db, t, incidentId)
    ensures var a := Analyze(db, t, actor, id, incidentId, dto, now, at).1.listed.analysis;
            var incident, evidence := db.incidents[incidentId], EvidenceOf(db.evidence, t, incidentId);
            && a == Analysis(id, t, incidentId, Score(incident.kind, incident.severity, evidence, |dto.conflicts|, now),
                             Ids(evidence), a.missing, dto.conflicts, dto.content, actor, at)
  {
  }

  lemma NewAnalysisIsScored(db: Database, op: Op)
    requires op.OpAnalyze? && DistinctIds(db.evidence) && Do(db, op).1.AnalysisRow?
    ensures var (db', r) := Do(db, op);
            && db'.analyses == db.analyses + [r.listed.analysis]
            && r.listed.analysis.createdAt == op.at && ScoredAt(db', r.listed.analysis, op.now)
  {
    AnalyzeStores(db, op.tenant, op.actor, op.id, op.incidentId, op.dto, op.now, op.at);
    AnalyzeWrites(db, op.tenant, op.actor, op.id, op.incidentId, op.dto, op.now, op.at);
    UsedEvidenceIsFound(db, op.tenant, op.incidentId);
  }

  /** Evidence is insert-only and incidents keep what scoring reads, so nothing later changes a rebuild. */
  lemma FidelityKept(db: Database, op: Op, a: Analysis, now: int)
    requires FreshId(db, op) && ScoredAt(db, a, now)
    ensures ScoredAt(Do(db, op).0, a, now)
  {
    var db' := Do(db, op).0;
    IncidentStep(db, op, a.incidentId);
    EvidenceOnlyGrows(db, op);
    if db'.evidence != db.evidence {
      var e := db'.evidence[|db.evidence|];
      FilterAppend(db.evidence, e, (e: Evidence) => e.tenant == a.tenant);
      SnapshotIgnoresNewRow(TenantRows(db, a.tenant), e, a.evidenceUsed);
    }
  }

  lemma EvidenceOnlyGrows(db: Database, op: Op)
    requires FreshId(db, op)
    ensures var db' := Do(db, op).0;
            db'.evidence == db.evidence ||
            (op.OpAddEvidence? && |db'.evidence| == |db.evidence| + 1
             && db'.evidence == db.evidence + [db'.evidence[|db.evidence|]]
             && forall e :: e in db.evidence ==> e.id != db'.evidence[|db.evidence|].id)
  {
    EffectOf(db, op);
  }

  lemma AnalysesOnlyGrow(db: Database, op: Op)
    ensures var (db', r) := Do(db, op);
            db'.analyses == db.analyses || (op.OpAnalyze? && r.AnalysisRow? && db'.analyses == db.analyses + [r.listed.analysis])
  {
    EffectOf(db, op);
  }

  // ---- Every analysis of every run ----

  /** The `k`-th operation of a run is the one that made this analysis. */
  predicate MadeBy(ops: seq<Op>, k: nat, a: Analysis)
    requires k < |ops|
  {
    var r := Do(Run(EMPTY, ops[..k]), ops[k]).1;
    ops[k].OpAnalyze? && r.AnalysisRow? && r.listed.analysis == a
  }

  predicate TracedTo(ops: seq<Op>, a: Analysis, k: nat)
    requires k < |ops|
  {
    MadeBy(ops, k, a) && a.createdAt == ops[k].at && ScoredAt(Run(EMPTY, ops), a, ops[k].now)
  }

  predicate Traced(ops: seq<Op>, a: Analysis) {
    exists k :: 0 <= k < |ops| && TracedTo(ops, a, k)
  }

  lemma {:induction false} EvidenceIdsStayDistinct(ops: seq<Op>)
    requires FreshIds(EMPTY, ops)
    ensures DistinctIds(Run(EMPTY, ops).evidence)
  {
    if ops != [] {
      EvidenceIdsStayDistinct(ops[..|ops| - 1]);
      EvidenceOnlyGrows(Run(EMPTY, ops[..|ops| - 1]), ops[|ops| - 1]);
    }
  }

  lemma MadeByPrefix(ops: seq<Op>, n: nat, k: nat, a: Analysis)
    requires k < n <= |ops|
    ensures MadeBy(ops[..n], k, a) <==> MadeBy(ops, k, a)
  {
    assert ops[..n][..k] == ops[..k];
  }

  lemma TraceKept(ops: seq<Op>, a: Analysis)
    requires ops != [] && FreshIds(EMPTY, ops) && Traced(ops[..|ops| - 1], a)
    ensures Traced(ops, a)
  {
    var n := |ops| - 1;
    var k :| 0 <= k < n && TracedTo(ops[..n], a, k);
    MadeByPrefix(ops, n, k, a);
    FidelityKept(Run(EMPTY, ops[..n]), ops[n], a, ops[k].now);
    assert TracedTo(ops, a, k);
  }

  lemma NewAnalysisIsTraced(ops: seq<Op>)
    requires ops != [] && FreshIds(EMPTY, ops) && ops[|ops| - 1].OpAnalyze?
    requires Do(Run(EMPTY, ops[..|ops| - 1]), ops[|ops| - 1]).1.AnalysisRow?
    ensures Traced(ops, Do(Run(EMPTY, ops[..|ops| - 1]), ops[|ops| - 1]).1.listed.analysis)
  {
    var n := |ops| - 1;
    EvidenceIdsStayDistinct(ops[..n]);
    NewAnalysisIsScored(Run(EMPTY, ops[..n]), ops[n]);
    assert TracedTo(ops, Do(Run(EMPTY, ops[..n]), ops[n]).1.listed.analysis, n);
  }

  /** Every stored analysis was made by some operation of the run, and is scored as of that operation's instant. */
  lemma {:induction false} AnalysesAreTraced(ops: seq<Op>, a: Analysis)
    requires FreshIds(EMPTY, ops) && a in Run(EMPTY, ops).analyses
    ensures Traced(ops, a)
  {
    var n := |ops| - 1;
    var front := ops[..n];
    AnalysesOnlyGrow(Run(EMPTY, front), ops[n]);
    if a in Run(EMPTY, front).analyses {
      AnalysesAreTraced(front, a);
      TraceKept(ops, a);
    } else {
      NewAnalysisIsTraced(ops);
    }
  }

  lemma AcceptedAnalysisIsStored(db: Database, op: Op)
    requires op.OpAnalyze? && Do(db, op).1.AnalysisRow?
    ensures Do(db, op).1.listed.analysis in Do(db, op).0.analyses
  {
    AnalyzeWrites(db, op.tenant, op.actor, op.id, op.incidentId, op.dto, op.now, op.at);
  }

  lemma StoredAnalysisStays(db: Database, op: Op, a: Analysis)
    requires a in db.analyses
    ensures a in Do(db, op).0.analyses
  {
    AnalysesOnlyGrow(db, op);
  }

  lemma MadeIsStored(ops: seq<Op>, k: nat, a: Analysis)
    requires k < |ops| && MadeBy(ops, k, a)
    ensures a in Run(EMPTY, ops[..k + 1]).analyses
  {
    AcceptedAnalysisIsStored(Run(EMPTY, ops[..k]), ops[k]);
    assert ops[..k + 1][..k] == ops[..k];
  }

  lemma {:induction false} StoredAnalysisNeverGoes(ops: seq<Op>, n: nat, a: Analysis)
    requires n <= |ops| && a in Run(EMPTY, ops[..n]).analyses
    ensures a in Run(EMPTY, ops).analyses
    decreases |ops|
  {
    if n == |ops| {
      assert ops[..n] == ops;
    } else {
      var front := ops[..|ops| - 1];
      assert front[..n] == ops[..n];
      StoredAnalysisNeverGoes(front, n, a);
      StoredAnalysisStays(Run(EMPTY, front), ops[|ops| - 1], a);
    }
  }

  /** And every accepted analysis is stored from then on. */
  lemma AcceptedAnalysisStays(ops: seq<Op>, k: nat, a: Analysis)
    requires k < |ops| && MadeBy(ops, k, a)
    ensures a in Run(EMPTY, ops).analyses
  {
    MadeIsStored(ops, k, a);
    StoredAnalysisNeverGoes(ops, k + 1, a);
  }

  // ---- What is listed ----

  /**
   * `listed` is `a`, scored at `now`, with what is rebuilt for it: completeness, reliability and certainty as
   * stored; freshness off by at most the decay between the two instants, in its direction, and equal iff that
   * decay leaves the score where it was.
   */
  predicate Fidelity(listed: Listed, a: Analysis, s: Severity, now: int) {
    var stored, rebuilt, latest := a.scores, ScoresOf(listed.breakdown), listed.breakdown.freshness.mostRecentAt;
    && listed.analysis == a
    && Replays(stored, rebuilt, s, Max(0, now - a.createdAt), Max(0, a.createdAt - now))
    && (rebuilt == stored <==> latest.None? || SameDecay(now - latest.value, a.createdAt - latest.value, s))
  }

  lemma RebuildIsFaithful(kind: IncidentType, s: Severity, evidence: seq<Evidence>, a: Analysis, now: int)
    requires a.scores == Score(kind, s, evidence, |a.conflicts|, now)
    ensures Fidelity(Listed(a, BuildBreakdown(kind, s, evidence, |a.conflicts|, a.createdAt)), a, s, now)
  {
    LagShiftsFreshness(kind, s, evidence, |a.conflicts|, now, a.createdAt, Max(0, now - a.createdAt), Max(0, a.createdAt - now));
    ReplayIsExactIff(evidence, s, now, a.createdAt);
  }

  lemma ListedIsFaithful(db: Database, t: TenantId, incidentId: Id, a: Analysis, now: int)
    requires a in AnalysesOf(db.analyses, t, incidentId) && ScoredAt(db, a, now)
    ensures var rows := EvidenceWithIds(db.evidence, t, UsedIds(AnalysesOf(db.analyses, t, incidentId)));
            && HasIncident(db, t, incidentId)
            && Fidelity(Listed(a, Rebuild(db.incidents[incidentId], rows, a)), a, db.incidents[incidentId].severity, now)
  {
    FilterMember(db.analyses, a, (a: Analysis) => a.tenant == t && a.incidentId == incidentId);
    BatchServesEach(db, t, UsedIds(AnalysesOf(db.analyses, t, incidentId)), a.evidenceUsed);
    RebuildIsFaithful(db.incidents[incidentId].kind, db.incidents[incidentId].severity,
                      Snapshot(TenantRows(db, t), a.evidenceUsed), a, now);
  }

  predicate NewestAreFirst(analyses: seq<Analysis>) {
    forall i, j :: 0 <= i < j < |analyses| ==> analyses[i].createdAt >= analyses[j].createdAt
  }

  lemma {:induction false} InsertByAgeAdds(sorted: seq<Analysis>, a: Analysis)
    ensures multiset(InsertByAge(sorted, a)) == multiset(sorted) + multiset{a}
  {
    if sorted != [] {
      assert sorted == [sorted[0]] + sorted[1..];
      InsertByAgeAdds(sorted[1..], a);
    }
  }

  lemma {:induction false} InsertByAgeBounded(sorted: seq<Analysis>, a: Analysis, top: int)
    requires a.createdAt <= top && forall i :: 0 <= i < |sorted| ==> sorted[i].createdAt <= top
    ensures forall i :: 0 <= i < |InsertByAge(sorted, a)| ==> InsertByAge(sorted, a)[i].createdAt <= top
  {
    if sorted != [] {
      InsertByAgeBounded(sorted[1..], a, top);
    }
  }

  lemma {:induction false} InsertByAgeOrders(sorted: seq<Analysis>, a: Analysis)
    requires NewestAreFirst(sorted)
    ensures NewestAreFirst(InsertByAge(sorted, a))
  {
    if sorted != [] && sorted[0].createdAt >= a.createdAt {
      InsertByAgeOrders(sorted[1..], a);
      InsertByAgeBounded(sorted[1..], a, sorted[0].createdAt);
    }
  }

  /** The listed analyses are all of them, each as often as it is stored, and in order. */
  lemma {:induction false} NewestFirstOrders(analyses: seq<Analysis>)
    ensures NewestAreFirst(NewestFirst(analyses))
    ensures multiset(NewestFirst(analyses)) == multiset(analyses)
  {
    if analyses != [] {
      var n := |analyses| - 1;
      NewestFirstOrders(analyses[..n]);
      InsertByAgeOrders(NewestFirst(analyses[..n]), analyses[n]);
      InsertByAgeAdds(NewestFirst(analyses[..n]), analyses[n]);
      assert analyses == analyses[..n] + [analyses[n]];
    }
  }

  function AnalysesIn(all: seq<Listed>): seq<Analysis> {
    seq(|all|, i requires 0 <= i < |all| => all[i].analysis)
  }

  /**
   * The listing holds every stored analysis of that tenant and incident, as often as it is stored, and no
   * other; the newest come first.
   */
  ghost predicate ListsAll(db: Database, t: TenantId, incidentId: Id) {
    var answer := ListAnalyses(db, t, incidentId);
    && answer.AnalysisList? && NewestAreFirst(AnalysesIn(answer.all))
    && forall a: Analysis :: multiset(AnalysesIn(answer.all))[a] ==
                             if a.tenant == t && a.incidentId == incidentId then multiset(db.analyses)[a] else 0
  }

  lemma ListingIsOwn(db: Database, t: TenantId, incidentId: Id)
    requires HasIncident(db, t, incidentId)
    ensures var answer, own := ListAnalyses(db, t, incidentId), AnalysesOf(db.analyses, t, incidentId);
            && answer.AnalysisList? && AnalysesIn(answer.all) == NewestFirst(own)
            && multiset(AnalysesIn(answer.all)) == multiset(own) && NewestAreFirst(AnalysesIn(answer.all))
  {
    NewestFirstOrders(AnalysesOf(db.analyses, t, incidentId));
  }

  lemma ListingIsComplete(db: Database, t: TenantId, incidentId: Id)
    requires HasIncident(db, t, incidentId)
    ensures ListsAll(db, t, incidentId)
  {
    var all := ListAnalyses(db, t, incidentId).all;
    ListingIsOwn(db, t, incidentId);
    forall a: Analysis
      ensures multiset(AnalysesIn(all))[a] ==
              if a.tenant == t && a.incidentId == incidentId then multiset(db.analyses)[a] else 0
    {
      FilterCounts(db.analyses, (a: Analysis) => a.tenant == t && a.incidentId == incidentId, a);
    }
  }

  lemma ListedIsOwn(db: Database, t: TenantId, incidentId: Id, listed: Listed)
    requires HasIncident(db, t, incidentId) && listed in ListAnalyses(db, t, incidentId).all
    ensures listed.analysis in AnalysesOf(db.analyses, t, incidentId)
  {
    var all := ListAnalyses(db, t, incidentId).all;
    ListingIsOwn(db, t, incidentId);
    var i :| 0 <= i < |all| && all[i] == listed;
    assert AnalysesIn(all)[i] == listed.analysis;
    assert listed.analysis in multiset(AnalysesIn(all));
  }

  /** A listing holds this analysis. */
  predicate Lists(db: Database, t: TenantId, incidentId: Id, a: Analysis) {
    var answer := ListAnalyses(db, t, incidentId);
    answer.AnalysisList? && exists i :: 0 <= i < |answer.all| && answer.all[i].analysis == a
  }

  lemma StoredIsListed(db: Database, t: TenantId, incidentId: Id, a: Analysis)
    requires HasIncident(db, t, incidentId) && a in db.analyses && a.tenant == t && a.incidentId == incidentId
    ensures Lists(db, t, incidentId, a)
  {
    var all := ListAnalyses(db, t, incidentId).all;
    ListingIsComplete(db, t, incidentId);
    assert a in multiset(db.analyses);
    assert a in multiset(AnalysesIn(all));
    var i :| 0 <= i < |AnalysesIn(all)| && AnalysesIn(all)[i] == a;
    assert all[i].analysis == a;
  }

  /** Every analysis that an operation of a run was answered with is listed for its incident in every later state. */
  lemma AcceptedAnalysisIsListed(ops: seq<Op>, k: nat, a: Analysis)
    requires FreshIds(EMPTY, ops) && k < |ops| && MadeBy(ops, k, a)
    ensures Lists(Run(EMPTY, ops), a.tenant, a.incidentId, a)
  {
    AcceptedAnalysisStays(ops, k, a);
    AnalysesAreTraced(ops, a);
    var m :| 0 <= m < |ops| && TracedTo(ops, a, m);
    StoredIsListed(Run(EMPTY, ops), a.tenant, a.incidentId, a);
  }

  /** The operation that made the `i`-th listed analysis, and how what is rebuilt for it agrees with that. */
  predicate ListedFrom(ops: seq<Op>, listed: Listed, s: Severity, k: nat)
    requires k < |ops|
  {
    MadeBy(ops, k, listed.analysis) && listed.analysis.createdAt == ops[k].at
    && Fidelity(listed, listed.analysis, s, ops[k].now)
  }

  ghost predicate ListReplays(ops: seq<Op>, t: TenantId, incidentId: Id) {
    var db := Run(EMPTY, ops);
    HasIncident(db, t, incidentId) ==>
      && ListsAll(db, t, incidentId)
      && forall listed :: listed in ListAnalyses(db, t, incidentId).all ==>
           exists k :: 0 <= k < |ops| && ListedFrom(ops, listed, db.incidents[incidentId].severity, k)
  }

  /**
   * In every reachable state `list` returns every analysis of the incident once, the newest first, and for
   * each replays what the operation that made it stored, whatever has been added since: exactly for one that
   * was created at its scoring instant, and with that one's own lag for any other.
   */
  lemma ListReplaysStoredScores(ops: seq<Op>, t: TenantId, incidentId: Id)
    requires FreshIds(EMPTY, ops)
    ensures ListReplays(ops, t, incidentId)
  {
    var db := Run(EMPTY, ops);
    if HasIncident(db, t, incidentId) {
      ListingIsComplete(db, t, incidentId);
      forall listed | listed in ListAnalyses(db, t, incidentId).all
        ensures exists k :: 0 <= k < |ops| && ListedFrom(ops, listed, db.incidents[incidentId].severity, k)
      {
        ListedIsTraced(ops, t, incidentId, listed);
      }
    }
  }

  lemma ListedIsTraced(ops: seq<Op>, t: TenantId, incidentId: Id, listed: Listed)
    requires FreshIds(EMPTY, ops) && HasIncident(Run(EMPTY, ops), t, incidentId)
    requires listed in ListAnalyses(Run(EMPTY, ops), t, incidentId).all
    ensures exists k :: 0 <= k < |ops| && ListedFrom(ops, listed, Run(EMPTY, ops).incidents[incidentId].severity, k)
  {
    var db, a := Run(EMPTY, ops), listed.analysis;
    ListedIsOwn(db, t, incidentId, listed);
    FilterMember(db.analyses, a, (a: Analysis) => a.tenant == t && a.incidentId == incidentId);
    AnalysesAreTraced(ops, a);
    var k :| 0 <= k < |ops| && TracedTo(ops, a, k);
    ListedIsFaithful(db, t, incidentId, a, ops[k].now);
    assert ListedFrom(ops, listed, db.incidents[incidentId].severity, k);
  }

  lemma SameInstantIsSameDecay(age: int, s: Severity)
    ensures SameDecay(age, age, s)
  {
  }

  /** So an analysis created at the instant it was scored for is listed exactly as stored. */
  lemma NoLagIsExact(listed: Listed, a: Analysis, s: Severity, now: int)
    requires Fidelity(listed, a, s, now) && a.createdAt == now
    ensures ScoresOf(listed.breakdown) == a.scores
  {
    if listed.breakdown.freshness.mostRecentAt.Some? {
      SameInstantIsSameDecay(now - listed.breakdown.freshness.mostRecentAt.value, s);
    }
  }

  predicate LagWithin(op: Op, early: nat, late: nat) {
    op.OpAnalyze? ==> op.now - early <= op.at <= op.now + late
  }

  lemma WiderLag(stored: Scores, rebuilt: Scores, s: Severity, early: nat, late: nat, early': nat, late': nat)
    requires Replays(stored, rebuilt, s, early, late) && early <= early' && late <= late'
    ensures Replays(stored, rebuilt, s, early', late')
  {
    DriftMonotone(early, early', TenthsPerMinute(s));
    DriftMonotone(late, late', TenthsPerMinute(s));
  }

  lemma OwnLagWithin(op: Op, listed: Listed, s: Severity, early: nat, late: nat)
    requires op.OpAnalyze? && LagWithin(op, early, late) && listed.analysis.createdAt == op.at
    requires Fidelity(listed, listed.analysis, s, op.now)
    ensures Replays(listed.analysis.scores, ScoresOf(listed.breakdown), s, early, late)
  {
    WiderLag(listed.analysis.scores, ScoresOf(listed.breakdown), s, Max(0, op.now - op.at), Max(0, op.at - op.now), early, late);
  }

  /** And if no analysis of the run lags more than a bound, none is listed further off than that bound allows. */
  lemma ListReplaysWithinLag(ops: seq<Op>, t: TenantId, incidentId: Id, listed: Listed, early: nat, late: nat)
    requires FreshIds(EMPTY, ops) && HasIncident(Run(EMPTY, ops), t, incidentId)
    requires forall i :: 0 <= i < |ops| ==> LagWithin(ops[i], early, late)
    requires listed in ListAnalyses(Run(EMPTY, ops), t, incidentId).all
    ensures Replays(listed.analysis.scores, ScoresOf(listed.breakdown), Run(EMPTY, ops).incidents[incidentId].severity,
                    early, late)
  {
    var s := Run(EMPTY, ops).incidents[incidentId].severity;
    ListedIsTraced(ops, t, incidentId, listed);
    var k :| 0 <= k < |ops| && ListedFrom(ops, listed, s, k);
    OwnLagWithin(ops[k], listed, s, early, late);
  }
}
