/** The four confidence scores and their breakdowns. Times are in milliseconds, factors in tenths. */
module Scoring {
  import opened Common

  datatype Severity = LOW | MEDIUM | HIGH | CRITICAL

  datatype IncidentType = CLOUD_OUTAGE | SECURITY_BREACH | DATA_LOSS | PERFORMANCE_DEGRADATION | OTHER_INCIDENT

  datatype Category = MONITORING | CLOUD_PROVIDER | LOG_AGGREGATOR | TICKETING | CHAT | HUMAN | OTHER

  /** An evidence row. */
  datatype Evidence = Evidence(id: string, tenant: string, incidentId: string, decisionId: Option<string>,
                               category: Category, source: string, createdAt: int)

  datatype Contribution = Contribution(evidenceId: string, source: string, category: Category, reliability: int)

  datatype CompletenessBreakdown =
    CompletenessBreakdown(required: seq<Category>, present: seq<Category>, missing: seq<Category>, score: int)

  datatype ReliabilityBreakdown = ReliabilityBreakdown(perEvidence: seq<Contribution>, score: int)

  datatype FreshnessBreakdown =
    FreshnessBreakdown(mostRecentId: Option<string>, mostRecentAt: Option<int>, minutesSince: Option<int>,
                       severity: Severity, tenthsPerMinute: int, score: int)

  datatype CertaintyBreakdown =
    CertaintyBreakdown(evidenceCount: nat, uniqueCategories: nat, conflicts: nat,
                       volume: int, diversity: int, penalty: int, score: int)

  datatype Breakdown = Breakdown(completeness: CompletenessBreakdown, reliability: ReliabilityBreakdown,
                                 freshness: FreshnessBreakdown, certainty: CertaintyBreakdown)

  const MINUTE := 60_000

  /** `Math.round(n / d)`: the integer nearest to n / d, halves rounded up. */
  function RoundDiv(n: int, d: int): (r: int)
    requires d > 0
    ensures 2 * n - d < 2 * d * r <= 2 * n + d
  {
    (2 * n + d) / (2 * d)
  }

  /** n / d rounded up. */
  function CeilDiv(n: int, d: int): (r: int)
    requires d > 0
    ensures n <= d * r < n + d
  {
    (n + d - 1) / d
  }

  // ---- Completeness ----

  function Required(t: IncidentType): seq<Category> {
    match t
    case CLOUD_OUTAGE => [MONITORING, CLOUD_PROVIDER]
    case SECURITY_BREACH => [MONITORING, LOG_AGGREGATOR, HUMAN]
    case DATA_LOSS => [LOG_AGGREGATOR, CLOUD_PROVIDER]
    case PERFORMANCE_DEGRADATION => [MONITORING, LOG_AGGREGATOR]
    case OTHER_INCIDENT => []
  }

  function Categories(evidence: seq<Evidence>): set<Category> {
    set e | e in evidence :: e.category
  }

  function Completeness(t: IncidentType, present: set<Category>): CompletenessBreakdown {
    var required := Required(t);
    var found := Filter(required, (c: Category) => c in present);
    CompletenessBreakdown(required, found, Filter(required, (c: Category) => c !in present),
                          if |required| == 0 then 100 else RoundDiv(100 * |found|, |required|))
  }

  // ---- Reliability ----

  function Weight(c: Category): int {
    match c
    case CLOUD_PROVIDER => 95
    case MONITORING => 90
    case LOG_AGGREGATOR => 85
    case TICKETING => 70
    case HUMAN => 60
    case CHAT => 40
    case OTHER => 50
  }

  function TotalWeight(evidence: seq<Evidence>): int {
    if evidence == [] then 0
    else TotalWeight(evidence[..|evidence| - 1]) + Weight(evidence[|evidence| - 1].category)
  }

  function Reliability(evidence: seq<Evidence>): ReliabilityBreakdown {
    ReliabilityBreakdown(
      seq(|evidence|, i requires 0 <= i < |evidence| =>
        Contribution(evidence[i].id, evidence[i].source, evidence[i].category, Weight(evidence[i].category))),
      if |evidence| == 0 then 0 else RoundDiv(TotalWeight(evidence), |evidence|))
  }

  // ---- Freshness ----

  function TenthsPerMinute(s: Severity): int {
    match s
    case CRITICAL => 50
    case HIGH => 20
    case MEDIUM => 10
    case LOW => 3
  }

  /** Where the latest item stands; of several, the first, because `reduce` only moves on to a later one. */
  function LatestIndex(evidence: seq<Evidence>): (i: nat)
    requires evidence != []
    ensures i < |evidence|
    ensures forall j :: 0 <= j < |evidence| ==> evidence[j].createdAt <= evidence[i].createdAt
    ensures forall j :: 0 <= j < i ==> evidence[j].createdAt < evidence[i].createdAt
  {
    var n := |evidence| - 1;
    if n == 0 then 0
    else
      var i := LatestIndex(evidence[..n]);
      if evidence[n].createdAt > evidence[i].createdAt then n else i
  }

  function MostRecent(evidence: seq<Evidence>): (m: Evidence)
    requires evidence != []
    ensures m in evidence && forall e :: e in evidence ==> e.createdAt <= m.createdAt
  {
    evidence[LatestIndex(evidence)]
  }

  /** 100 minus the decay over `age` milliseconds, rounded, not below 0. */
  function Decayed(age: int, s: Severity): int {
    Max(0, RoundDiv(100 * 10 * MINUTE - age * TenthsPerMinute(s), 10 * MINUTE))
  }

  function FreshnessScore(evidence: seq<Evidence>, s: Severity, now: int): int {
    if evidence == [] then 0 else Decayed(now - MostRecent(evidence).createdAt, s)
  }

  function Freshness(evidence: seq<Evidence>, s: Severity, now: int): FreshnessBreakdown {
    if evidence == [] then FreshnessBreakdown(None, None, None, s, TenthsPerMinute(s), 0)
    else
      var m := MostRecent(evidence);
      FreshnessBreakdown(Some(m.id), Some(m.createdAt), Some(RoundDiv(now - m.createdAt, MINUTE)),
                         s, TenthsPerMinute(s), FreshnessScore(evidence, s, now))
  }

  // ---- Certainty ----

  function CertaintyScore(count: nat, unique: nat, conflicts: nat): int {
    Max(0, Min(100, Min(70, 15 * count) + Min(20, 7 * unique) - 15 * conflicts))
  }

  function Certainty(count: nat, unique: nat, conflicts: nat): CertaintyBreakdown {
    CertaintyBreakdown(count, unique, conflicts, Min(70, 15 * count), Min(20, 7 * unique), 15 * conflicts,
                       CertaintyScore(count, unique, conflicts))
  }

  // ---- All four ----

  function BuildBreakdown(t: IncidentType, s: Severity, evidence: seq<Evidence>, conflicts: nat, now: int): Breakdown {
    Breakdown(Completeness(t, Categories(evidence)), Reliability(evidence), Freshness(evidence, s, now),
              Certainty(|evidence|, |Categories(evidence)|, conflicts))
  }

  datatype Scores = Scores(completeness: int, reliability: int, freshness: int, certainty: int)

  function ScoresOf(b: Breakdown): Scores {
    Scores(b.completeness.score, b.reliability.score, b.freshness.score, b.certainty.score)
  }

  function Score(t: IncidentType, s: Severity, evidence: seq<Evidence>, conflicts: nat, now: int): Scores {
    ScoresOf(BuildBreakdown(t, s, evidence, conflicts, now))
  }

  /** The numeric part of the AI Output Contract. */
  predicate MeetsContract(s: Scores) {
    0 <= s.completeness <= 100 && 0 <= s.reliability <= 100 && 0 <= s.freshness <= 100 && 0 <= s.certainty <= 100
  }
}
