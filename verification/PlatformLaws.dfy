/** The laws of the store hold of the whole platform, in every run of its requests. */
module PlatformLaws {
  import opened Registries
  import opened Scoring
  import opened Workflow
  import opened WorkflowLogs
  import opened WorkflowOutcomes
  import opened WorkflowReplay
  import opened Platform

  function TimeOf(q: Request): int {
    if q.StoreRequest? then q.op.at else q.at
  }

  predicate Analyzes(q: Request) {
    q.StoreRequest? && q.op.OpAnalyze?
  }

  /** Time does not run backwards, and no analysis is requested at the instant of an earlier request. */
  predicate RequestsTick(qs: seq<Request>) {
    forall i, j :: 0 <= i < j < |qs| ==> TimeOf(qs[i]) <= TimeOf(qs[j]) && (Analyzes(qs[j]) ==> TimeOf(qs[i]) < TimeOf(qs[j]))
  }

  /** No analysis is created more than `late` ms after, or `early` ms before, the instant it is scored for. */
  predicate RequestsLag(qs: seq<Request>, early: nat, late: nat) {
    forall i :: 0 <= i < |qs| && qs[i].StoreRequest? ==> LagWithin(qs[i].op, early, late)
  }

  /** All the store operations of a request happen at its time, and only the first can be an analysis. */
  lemma StoreOpsOfRequest(s: System, q: Request)
    ensures var ops := StoreOps(s, q);
            forall k :: 0 <= k < |ops| ==>
              ops[k].at == TimeOf(q) && (ops[k].OpAnalyze? ==> k == 0 && Analyzes(q) && ops[k] == q.op)
  {
  }

  lemma TicksConcat(a: seq<Op>, b: seq<Op>, at: int)
    requires Ticks(a) && Before(a, at + 1)
    requires forall k :: 0 <= k < |b| ==> b[k].at == at && (b[k].OpAnalyze? ==> k == 0 && Before(a, at))
    ensures Ticks(a + b)
  {
  }

  predicate Before(ops: seq<Op>, limit: int) {
    forall k :: 0 <= k < |ops| ==> ops[k].at < limit
  }

  lemma BeforeConcat(a: seq<Op>, b: seq<Op>, limit: int)
    requires Before(a, limit) && Before(b, limit)
    ensures Before(a + b, limit)
  {
  }

  lemma {:induction false} StoreOpsBounded(s: System, qs: seq<Request>, limit: int)
    requires forall i :: 0 <= i < |qs| ==> TimeOf(qs[i]) < limit
    ensures Before(AllStoreOps(s, qs), limit)
  {
    if qs != [] {
      var front, q := qs[..|qs| - 1], qs[|qs| - 1];
      StoreOpsBounded(s, front, limit);
      StoreOpsOfRequest(HandleAll(s, front), q);
      assert TimeOf(q) < limit;
      BeforeConcat(AllStoreOps(s, front), StoreOps(HandleAll(s, front), q), limit);
    }
  }

  lemma {:induction false} RunTicks(s: System, qs: seq<Request>)
    requires RequestsTick(qs)
    ensures Ticks(AllStoreOps(s, qs))
  {
    if qs != [] {
      var front, q := qs[..|qs| - 1], qs[|qs| - 1];
      RunTicks(s, front);
      StoreOpsOfRequest(HandleAll(s, front), q);
      StoreOpsBounded(s, front, TimeOf(q) + 1);
      if Analyzes(q) {
        StoreOpsBounded(s, front, TimeOf(q));
      }
      TicksConcat(AllStoreOps(s, front), StoreOps(HandleAll(s, front), q), TimeOf(q));
    }
  }

  lemma {:induction false} RunLags(s: System, qs: seq<Request>, early: nat, late: nat)
    requires RequestsLag(qs, early, late)
    ensures forall k :: 0 <= k < |AllStoreOps(s, qs)| ==> LagWithin(AllStoreOps(s, qs)[k], early, late)
  {
    if qs != [] {
      var front, q := qs[..|qs| - 1], qs[|qs| - 1];
      RunLags(s, front, early, late);
      StoreOpsOfRequest(HandleAll(s, front), q);
    }
  }

  /** What the workflow laws say of one store. */
  predicate LogsReplay(db: Database, id: Id) {
    && IncidentReplays(db.incidents, db.timeline, id) && StatusChanges(db.timeline, id) <= 3
    && DecisionReplays(db.decisions, db.timeline, id)
    && RelationshipReplays(db.relationships, db.links, db.audit, id)
  }

  lemma PlatformLogsReplay(registry: Registry, qs: seq<Request>, id: Id)
    requires FreshRequests(System(EMPTY, registry), qs)
    ensures LogsReplay(HandleAll(System(EMPTY, registry), qs).db, id)
  {
    PlatformRunsAreStoreRuns(registry, qs);
    LogsReplayToCurrentState(AllStoreOps(System(EMPTY, registry), qs), id);
  }

  /** However requests of all tenants, broadcasts and configuration changes mix, every outcome link is right. */
  lemma PlatformOutcomesLinkInformingAnalysis(registry: Registry, qs: seq<Request>, id: Id)
    requires FreshRequests(System(EMPTY, registry), qs) && RequestsTick(qs)
    ensures OutcomeHolds(HandleAll(System(EMPTY, registry), qs).db, id)
  {
    PlatformRunsAreStoreRuns(registry, qs);
    RunTicks(System(EMPTY, registry), qs);
    OutcomesLinkInformingAnalysis(AllStoreOps(System(EMPTY, registry), qs), id);
  }

  // ---- What is listed, and the request that made it ----

  /** The `i`-th request of a run is the one that was answered with this analysis. */
  predicate Answered(registry: Registry, qs: seq<Request>, i: nat, a: Analysis)
    requires i < |qs|
  {
    Analyzes(qs[i]) &&
    var r := Handle(HandleAll(System(EMPTY, registry), qs[..i]), qs[i]).1;
    r.StoreReply? && r.answer.AnalysisRow? && r.answer.listed.analysis == a
  }

  predicate ListedFromRequest(registry: Registry, qs: seq<Request>, listed: Listed, s: Severity, i: nat)
    requires i < |qs|
  {
    && Answered(registry, qs, i, listed.analysis) && listed.analysis.createdAt == qs[i].op.at
    && Fidelity(listed, listed.analysis, s, qs[i].op.now)
  }

  /** An analysis among the store operations of a run belongs to one of its requests, the `i`-th. */
  lemma {:induction false} AnalysisOfRequest(s: System, qs: seq<Request>, k: nat) returns (i: nat)
    requires k < |AllStoreOps(s, qs)| && AllStoreOps(s, qs)[k].OpAnalyze?
    ensures i < |qs| && Analyzes(qs[i]) && qs[i].op == AllStoreOps(s, qs)[k]
    ensures AllStoreOps(s, qs)[..k] == AllStoreOps(s, qs[..i])
  {
    var n := |qs| - 1;
    var front := AllStoreOps(s, qs[..n]);
    if k < |front| {
      i := AnalysisOfRequest(s, qs[..n], k);
      assert qs[..n][..i] == qs[..i];
      assert AllStoreOps(s, qs)[..k] == front[..k];
    } else {
      StoreOpsOfRequest(HandleAll(s, qs[..n]), qs[n]);
      i := n;
      assert AllStoreOps(s, qs)[..k] == front;
    }
  }

  lemma {:induction false} FreshPrefix(s: System, qs: seq<Request>, i: nat)
    requires FreshRequests(s, qs) && i <= |qs|
    ensures FreshRequests(s, qs[..i])
    decreases |qs|
  {
    if i == |qs| {
      assert qs[..i] == qs;
    } else {
      FreshPrefix(s, qs[..|qs| - 1], i);
      assert qs[..|qs| - 1][..i] == qs[..i];
    }
  }

  lemma MadeByRequest(registry: Registry, qs: seq<Request>, listed: Listed, s: Severity, k: nat) returns (i: nat)
    requires FreshRequests(System(EMPTY, registry), qs) && k < |AllStoreOps(System(EMPTY, registry), qs)|
    requires ListedFrom(AllStoreOps(System(EMPTY, registry), qs), listed, s, k)
    ensures i < |qs| && ListedFromRequest(registry, qs, listed, s, i)
  {
    var start := System(EMPTY, registry);
    i := AnalysisOfRequest(start, qs, k);
    FreshPrefix(start, qs, i);
    PlatformRunsAreStoreRuns(registry, qs[..i]);
  }

  /**
   * In every run of requests every listing is complete, newest first, and replays for each analysis what the
   * request that made it was answered with, as of that request's own scoring and creation times.
   */
  lemma PlatformListReplaysStoredScores(registry: Registry, qs: seq<Request>, t: TenantId, incidentId: Id, listed: Listed)
    requires FreshRequests(System(EMPTY, registry), qs)
    requires HasIncident(HandleAll(System(EMPTY, registry), qs).db, t, incidentId)
    ensures ListsAll(HandleAll(System(EMPTY, registry), qs).db, t, incidentId)
    ensures var db := HandleAll(System(EMPTY, registry), qs).db;
            listed in ListAnalyses(db, t, incidentId).all ==>
              exists i :: 0 <= i < |qs| && ListedFromRequest(registry, qs, listed, db.incidents[incidentId].severity, i)
  {
    var ops, db := AllStoreOps(System(EMPTY, registry), qs), HandleAll(System(EMPTY, registry), qs).db;
    PlatformRunsAreStoreRuns(registry, qs);
    ListingIsComplete(db, t, incidentId);
    if listed in ListAnalyses(db, t, incidentId).all {
      ListedIsTraced(ops, t, incidentId, listed);
      var k :| 0 <= k < |ops| && ListedFrom(ops, listed, db.incidents[incidentId].severity, k);
      var i := MadeByRequest(registry, qs, listed, db.incidents[incidentId].severity, k);
    }
  }

  lemma PrefixOfConcat(a: seq<Op>, b: seq<Op>, c: seq<Op>)
    requires a <= b
    ensures a <= b + c
  {
  }

  lemma AllStoreOpsOf(s: System, qs: seq<Request>)
    requires qs != []
    ensures var n := |qs| - 1;
            AllStoreOps(s, qs) == AllStoreOps(s, qs[..n]) + StoreOps(HandleAll(s, qs[..n]), qs[n])
  {
  }

  /** The store operations of the first requests are the first of the run. */
  lemma {:induction false} StoreOpsPrefix(s: System, qs: seq<Request>, i: nat)
    requires i <= |qs|
    ensures AllStoreOps(s, qs[..i]) <= AllStoreOps(s, qs)
    decreases |qs|
  {
    var n := |qs| - 1;
    if i == |qs| {
      assert qs[..i] == qs;
    } else {
      StoreOpsPrefix(s, qs[..n], i);
      assert qs[..n][..i] == qs[..i];
      AllStoreOpsOf(s, qs);
      PrefixOfConcat(AllStoreOps(s, qs[..i]), AllStoreOps(s, qs[..n]), StoreOps(HandleAll(s, qs[..n]), qs[n]));
    }
  }

  /** The store operations of a request, at their place among those of the run. */
  lemma StoreOpsInPlace(s: System, qs: seq<Request>, i: nat)
    requires i < |qs|
    ensures AllStoreOps(s, qs[..i]) + StoreOps(HandleAll(s, qs[..i]), qs[i]) <= AllStoreOps(s, qs)
  {
    StoreOpsPrefix(s, qs, i + 1);
    AllStoreOpsOf(s, qs[..i + 1]);
    assert qs[..i + 1][..i] == qs[..i];
  }

  lemma AnsweredIsMade(registry: Registry, qs: seq<Request>, i: nat, a: Analysis) returns (k: nat)
    requires FreshRequests(System(EMPTY, registry), qs) && i < |qs| && Answered(registry, qs, i, a)
    ensures k < |AllStoreOps(System(EMPTY, registry), qs)| && MadeBy(AllStoreOps(System(EMPTY, registry), qs), k, a)
  {
    var start := System(EMPTY, registry);
    var before := AllStoreOps(start, qs[..i]);
    k := |before|;
    StoreOpsInPlace(start, qs, i);
    FreshPrefix(start, qs, i);
    PlatformRunsAreStoreRuns(registry, qs[..i]);
    assert AllStoreOps(start, qs)[..k] == before;
    assert (before + StoreOps(HandleAll(start, qs[..i]), qs[i]))[k] == qs[i].op;
  }

  /** Every analysis a request was answered with is listed for its incident from then on, in every run of requests. */
  lemma AnsweredIsListed(registry: Registry, qs: seq<Request>, i: nat, a: Analysis)
    requires FreshRequests(System(EMPTY, registry), qs) && i < |qs| && Answered(registry, qs, i, a)
    ensures Lists(HandleAll(System(EMPTY, registry), qs).db, a.tenant, a.incidentId, a)
  {
    var k := AnsweredIsMade(registry, qs, i, a);
    PlatformRunsAreStoreRuns(registry, qs);
    AcceptedAnalysisIsListed(AllStoreOps(System(EMPTY, registry), qs), k, a);
  }

  /** And if no analysis request lags more than a bound, no listing is further off than that bound allows. */
  lemma PlatformListReplaysWithinLag(registry: Registry, qs: seq<Request>, t: TenantId, incidentId: Id, listed: Listed,
                                     early: nat, late: nat)
    requires FreshRequests(System(EMPTY, registry), qs) && RequestsLag(qs, early, late)
    requires HasIncident(HandleAll(System(EMPTY, registry), qs).db, t, incidentId)
    requires listed in ListAnalyses(HandleAll(System(EMPTY, registry), qs).db, t, incidentId).all
    ensures Replays(listed.analysis.scores, ScoresOf(listed.breakdown),
                    HandleAll(System(EMPTY, registry), qs).db.incidents[incidentId].severity, early, late)
  {
    PlatformRunsAreStoreRuns(registry, qs);
    RunLags(System(EMPTY, registry), qs, early, late);
    ListReplaysWithinLag(AllStoreOps(System(EMPTY, registry), qs), t, incidentId, listed, early, late);
  }
}
