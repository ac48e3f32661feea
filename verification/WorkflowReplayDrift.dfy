/** A reachable state whose listing does not return the freshness that was stored. */
module WorkflowReplayDrift {
  import opened Common
  import opened Registries
  import opened Scoring
  import opened ScoringLaws
  import opened Workflow
  import opened WorkflowFrames
  import opened WorkflowReplay

  const SILENT := Submission([], "", true)

  /** When evidence from time 0 is about to lose its first point. */
  function Turn(s: Severity): int {
    300_000 / TenthsPerMinute(s)
  }

  function LateEvidence(t: TenantId): Evidence {
    Evidence("evidence", t, "incident", None, OTHER, "", 0)
  }

  lemma RunNext(ops: seq<Op>, op: Op)
    requires FreshIds(EMPTY, ops) && FreshId(Run(EMPTY, ops), op)
    ensures FreshIds(EMPTY, ops + [op]) && Run(EMPTY, ops + [op]) == Do(Run(EMPTY, ops), op).0
  {
    assert (ops + [op])[..|ops|] == ops;
  }

  lemma AnalyzeNext(ops: seq<Op>, t: TenantId, now: int, at: int)
    requires FreshIds(EMPTY, ops) && Run(EMPTY, ops).analyses == []
    ensures var op := OpAnalyze(t, "user", "analysis", "incident", SILENT, now, at);
            && FreshIds(EMPTY, ops + [op])
            && Run(EMPTY, ops + [op]) == Analyze(Run(EMPTY, ops), t, "user", "analysis", "incident", SILENT, now, at).0
  {
    RunNext(ops, OpAnalyze(t, "user", "analysis", "incident", SILENT, now, at));
  }

  /** A run that opens an incident and adds one piece of evidence to it. */
  lemma BeforeLateAnalysis(t: TenantId, kind: IncidentType, s: Severity) returns (ops: seq<Op>)
    ensures |ops| == 2 && ops[0].OpCreateIncident? && ops[1].OpAddEvidence?
    ensures var db := Run(EMPTY, ops);
            && FreshIds(EMPTY, ops) && HasIncident(db, t, "incident")
            && db.incidents["incident"].kind == kind && db.incidents["incident"].severity == s
            && db.evidence == [LateEvidence(t)] && db.analyses == []
  {
    var create := OpCreateIncident(t, "user", "incident", "", s, kind, 0);
    var add := OpAddEvidence(t, None, "evidence", "incident", None, OTHER, "", 0);
    assert [] + [create] == [create];
    RunNext([], create);
    RunNext([create], add);
    ops := [create] + [add];
  }

  lemma TurnScores(s: Severity, late: nat)
    ensures Turn(s) >= 0 && Decayed(Turn(s), s) == 100
    ensures late > 0 ==> Decayed(Turn(s) + late, s) < 100
  {
    var k := TenthsPerMinute(s);
    assert Turn(s) * k == 300_000;
    assert (Turn(s) + late) * k == 300_000 + late * k;
    assert late > 0 ==> late * k >= 1;
  }

  lemma LateScores(kind: IncidentType, s: Severity, e: Evidence, late: nat)
    requires e.createdAt == 0
    ensures MeetsContract(Score(kind, s, [e], 0, Turn(s))) && FreshnessScore([e], s, Turn(s)) == 100
    ensures late > 0 ==> FreshnessScore([e], s, Turn(s) + late) < 100
  {
    TurnScores(s, late);
    NoFutureEvidenceMeetsContract(kind, s, [e], 0, Turn(s));
    assert MostRecent([e]) == e;
  }

  lemma ListOfOne(db: Database, t: TenantId, incidentId: Id, a: Analysis)
    requires HasIncident(db, t, incidentId) && AnalysesOf(db.analyses, t, incidentId) == [a]
    ensures ListAnalyses(db, t, incidentId) ==
            AnalysisList([Listed(a, Rebuild(db.incidents[incidentId], TenantRows(db, t), a))])
  {
    BatchServesEach(db, t, UsedIds([a]), a.evidenceUsed);
    assert [a][..0] == [] && NewestFirst([a]) == [a];
  }

  /** The incident's one analysis was stored with freshness 100, and is listed with less. */
  predicate ListsOther(db: Database, t: TenantId) {
    var answer := ListAnalyses(db, t, "incident");
    && answer.AnalysisList? && |answer.all| == 1
    && answer.all[0].analysis.scores.freshness == 100 && answer.all[0].breakdown.freshness.score < 100
  }

  /** An analysis scored 100 at `now`, whose evidence scores less at `at`, when the row is created. */
  lemma DropIsListed(db: Database, t: TenantId, kind: IncidentType, s: Severity, e: Evidence, now: int, at: int)
    returns (after: Database)
    requires HasIncident(db, t, "incident") && db.incidents["incident"].kind == kind && db.incidents["incident"].severity == s
    requires db.evidence == [e] && e.tenant == t && e.incidentId == "incident" && db.analyses == []
    requires MeetsContract(Score(kind, s, [e], 0, now)) && FreshnessScore([e], s, now) == 100
    requires FreshnessScore([e], s, at) < 100
    ensures after == Analyze(db, t, "user", "analysis", "incident", SILENT, now, at).0 && ListsOther(after, t)
  {
    LateAnalysis(db, t, kind, s, e, now, at);
    after := Analyze(db, t, "user", "analysis", "incident", SILENT, now, at).0;
  }

  lemma DropAfter(ops: seq<Op>, t: TenantId, kind: IncidentType, s: Severity, e: Evidence, now: int, at: int)
    returns (after: Database)
    requires FreshIds(EMPTY, ops)
    requires var db := Run(EMPTY, ops);
             && HasIncident(db, t, "incident") && db.incidents["incident"].kind == kind
             && db.incidents["incident"].severity == s && db.evidence == [e] && db.analyses == []
    requires e.tenant == t && e.incidentId == "incident"
    requires MeetsContract(Score(kind, s, [e], 0, now)) && FreshnessScore([e], s, now) == 100
    requires FreshnessScore([e], s, at) < 100
    ensures var op := OpAnalyze(t, "user", "analysis", "incident", SILENT, now, at);
            FreshIds(EMPTY, ops + [op]) && Run(EMPTY, ops + [op]) == after
    ensures ListsOther(after, t)
  {
    AnalyzeNext(ops, t, now, at);
    after := DropIsListed(Run(EMPTY, ops), t, kind, s, e, now, at);
  }

  /**
   * Whatever the incident, a millisecond between scoring and creation can be enough to list another freshness:
   * a run of an incident, a piece of evidence and an analysis, in that order, after which it is.
   */
  lemma ListedFreshnessCanDiffer(t: TenantId, kind: IncidentType, s: Severity, late: nat) returns (ops: seq<Op>)
    requires late > 0
    ensures |ops| == 3 && ops[0].OpCreateIncident? && ops[1].OpAddEvidence?
    ensures ops[2] == OpAnalyze(t, "user", "analysis", "incident", SILENT, Turn(s), Turn(s) + late)
    ensures FreshIds(EMPTY, ops) && ListsOther(Run(EMPTY, ops), t)
  {
    var before := BeforeLateAnalysis(t, kind, s);
    LateScores(kind, s, LateEvidence(t), late);
    var after := DropAfter(before, t, kind, s, LateEvidence(t), Turn(s), Turn(s) + late);
    ops := before + [OpAnalyze(t, "user", "analysis", "incident", SILENT, Turn(s), Turn(s) + late)];
  }

  lemma OneEvidence(db: Database, t: TenantId, e: Evidence)
    requires db.evidence == [e] && e.tenant == t && e.incidentId == "incident"
    ensures EvidenceOf(db.evidence, t, "incident") == [e] && Snapshot(TenantRows(db, t), [e.id]) == [e]
  {
    FilterOne(e, (e: Evidence) => e.tenant == t && e.incidentId == "incident");
    assert Ids([e]) == [e.id];
    UsedEvidenceIsFound(db, t, "incident");
  }

  lemma OneAnalysis(db: Database, t: TenantId, kind: IncidentType, s: Severity, e: Evidence, now: int, at: int)
    requires HasIncident(db, t, "incident") && db.incidents["incident"].kind == kind && db.incidents["incident"].severity == s
    requires EvidenceOf(db.evidence, t, "incident") == [e] && db.analyses == []
    requires MeetsContract(Score(kind, s, [e], 0, now))
    ensures var (db', r) := Analyze(db, t, "user", "analysis", "incident", SILENT, now, at);
            && r.AnalysisRow? && db'.analyses == [r.listed.analysis]
            && db'.evidence == db.evidence && db'.incidents == db.incidents
            && var a := r.listed.analysis;
            && a.tenant == t && a.incidentId == "incident" && a.scores == Score(kind, s, [e], 0, now)
            && a.evidenceUsed == Ids([e]) && a.conflicts == [] && a.createdAt == at
  {
    AnalyzeWrites(db, t, "user", "analysis", "incident", SILENT, now, at);
  }

  lemma LateListing(db: Database, t: TenantId, kind: IncidentType, s: Severity, e: Evidence, a: Analysis)
    requires HasIncident(db, t, "incident") && db.incidents["incident"].kind == kind && db.incidents["incident"].severity == s
    requires Snapshot(TenantRows(db, t), [e.id]) == [e] && db.analyses == [a]
    requires a.tenant == t && a.incidentId == "incident" && a.evidenceUsed == [e.id] && a.conflicts == []
    ensures var answer := ListAnalyses(db, t, "incident");
            && answer.AnalysisList? && |answer.all| == 1 && answer.all[0].analysis == a
            && answer.all[0].breakdown.freshness.score == FreshnessScore([e], s, a.createdAt)
  {
    FilterOne(a, (a: Analysis) => a.tenant == t && a.incidentId == "incident");
    ListOfOne(db, t, "incident", a);
  }

  lemma LateAnalysis(db: Database, t: TenantId, kind: IncidentType, s: Severity, e: Evidence, now: int, at: int)
    requires HasIncident(db, t, "incident") && db.incidents["incident"].kind == kind && db.incidents["incident"].severity == s
    requires db.evidence == [e] && e.tenant == t && e.incidentId == "incident" && db.analyses == []
    requires MeetsContract(Score(kind, s, [e], 0, now))
    ensures var (db', r) := Analyze(db, t, "user", "analysis", "incident", SILENT, now, at);
            && r.AnalysisRow? && r.listed.analysis.scores.freshness == FreshnessScore([e], s, now)
            && var answer := ListAnalyses(db', t, "incident");
            && answer.AnalysisList? && |answer.all| == 1 && answer.all[0].analysis == r.listed.analysis
            && answer.all[0].breakdown.freshness.score == FreshnessScore([e], s, at)
  {
    var (db', r) := Analyze(db, t, "user", "analysis", "incident", SILENT, now, at);
    OneEvidence(db, t, e);
    OneAnalysis(db, t, kind, s, e, now, at);
    OneEvidence(db', t, e);
    assert Ids([e]) == [e.id];
    LateListing(db', t, kind, s, e, r.listed.analysis);
  }
}
