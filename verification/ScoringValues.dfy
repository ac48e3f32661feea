/** What each score is, exactly, and that every breakdown explains its score. */
module ScoringValues {
  import opened Common
  import opened Scoring
  import opened ScoringLaws

  /** `r` is n / d to the nearest integer, halves rounded up. */
  predicate Nearest(r: int, n: int, d: int) {
    2 * n - d < 2 * d * r <= 2 * n + d
  }

  // ---- Completeness: the share of the required sources that are found ----

  lemma RequiredAreDistinct(t: IncidentType, i: nat, j: nat)
    requires i < j < |Required(t)|
    ensures Required(t)[i] != Required(t)[j]
  {
  }

  function Found(required: seq<Category>, present: set<Category>): set<Category> {
    set c | c in required && c in present
  }

  lemma FoundNext(required: seq<Category>, present: set<Category>)
    requires required != []
    ensures var front, last := required[..|required| - 1], required[|required| - 1];
            Found(required, present) == if last in present then Found(front, present) + {last} else Found(front, present)
  {
    assert required == required[..|required| - 1] + [required[|required| - 1]];
  }

  lemma {:induction false} FoundCount(required: seq<Category>, present: set<Category>)
    requires forall i, j :: 0 <= i < j < |required| ==> required[i] != required[j]
    ensures |Filter(required, (c: Category) => c in present)| == |Found(required, present)|
  {
    if required == [] {
      assert Found(required, present) == {};
    } else {
      var n := |required| - 1;
      FoundCount(required[..n], present);
      FoundNext(required, present);
      assert required[n] !in Found(required[..n], present);
    }
  }

  lemma CompletenessIsShare(t: IncidentType, present: set<Category>)
    ensures var required, found := Required(t), Found(Required(t), present);
            && (required == [] ==> Completeness(t, present).score == 100)
            && (required != [] ==> Nearest(Completeness(t, present).score, 100 * |found|, |required|))
  {
    forall i, j | 0 <= i < j < |Required(t)|
      ensures Required(t)[i] != Required(t)[j]
    {
      RequiredAreDistinct(t, i, j);
    }
    FoundCount(Required(t), present);
  }

  // ---- Reliability: the mean of the weights ----

  lemma ReliabilityIsMean(evidence: seq<Evidence>)
    ensures evidence != [] ==> Nearest(Reliability(evidence).score, TotalWeight(evidence), |evidence|)
    ensures TotalWeight([]) == 0
    ensures forall e :: TotalWeight(evidence + [e]) == TotalWeight(evidence) + Weight(e.category)
  {
    forall e
      ensures TotalWeight(evidence + [e]) == TotalWeight(evidence) + Weight(e.category)
    {
      TotalWeightAppend(evidence, e);
    }
  }

  // ---- Freshness: what is left of 100 after the decay since the latest item ----

  lemma FreshnessIsWhatIsLeft(evidence: seq<Evidence>, s: Severity, now: int)
    ensures evidence == [] ==> FreshnessScore(evidence, s, now) == 0
    ensures evidence != [] ==>
              var age, step := now - evidence[LatestIndex(evidence)].createdAt, 10 * MINUTE;
              var left := 100 * step - age * TenthsPerMinute(s);
              if 2 * left < step then FreshnessScore(evidence, s, now) == 0
              else Nearest(FreshnessScore(evidence, s, now), left, step)
  {
  }

  // ---- Certainty: what each item, category and conflict is worth ----

  // Five items and three categories are worth something; with no conflict at nothing, this fixes every value.

  lemma NothingIsNotCertain()
    ensures CertaintyScore(0, 0, 0) == 0
  {
  }

  lemma VolumeSteps(count: nat, unique: nat)
    ensures CertaintyScore(count + 1, unique, 0) ==
            CertaintyScore(count, unique, 0) + if count < 4 then 15 else if count == 4 then 10 else 0
  {
  }

  lemma DiversitySteps(count: nat, unique: nat)
    ensures CertaintyScore(count, unique + 1, 0) ==
            CertaintyScore(count, unique, 0) + if unique < 2 then 7 else if unique == 2 then 6 else 0
  {
  }

  lemma ConflictSteps(count: nat, unique: nat, conflicts: nat)
    ensures CertaintyScore(count, unique, conflicts + 1) == Max(0, CertaintyScore(count, unique, conflicts) - 15)
  {
    var gained := Min(70, 15 * count) + Min(20, 7 * unique);
    assert gained <= 90;
  }

  // ---- Breakdowns ----

  function Contributed(all: seq<Contribution>): int {
    if all == [] then 0 else Contributed(all[..|all| - 1]) + all[|all| - 1].reliability
  }

  lemma {:induction false} ContributionsAddUp(evidence: seq<Evidence>)
    ensures Contributed(Reliability(evidence).perEvidence) == TotalWeight(evidence)
  {
    if evidence != [] {
      var n := |evidence| - 1;
      ContributionsAddUp(evidence[..n]);
      assert Reliability(evidence).perEvidence[..n] == Reliability(evidence[..n]).perEvidence;
    }
  }

  /** Completeness and reliability: the sources are split, and every item contributes the weight of its category. */
  lemma SourcesExplain(t: IncidentType, s: Severity, evidence: seq<Evidence>, conflicts: nat, now: int)
    ensures var b := BuildBreakdown(t, s, evidence, conflicts, now);
            && b.completeness.required == Required(t) && Splits(b.completeness, t, Categories(evidence))
            && |b.reliability.perEvidence| == |evidence|
            && (forall i :: 0 <= i < |evidence| ==>
                  b.reliability.perEvidence[i] ==
                  Contribution(evidence[i].id, evidence[i].source, evidence[i].category, Weight(evidence[i].category)))
            && (evidence != [] ==> Nearest(b.reliability.score, Contributed(b.reliability.perEvidence), |evidence|))
  {
    CompletenessSplits(t, Categories(evidence));
    ContributionsAddUp(evidence);
  }

  /** Freshness names the first of the latest items and how long ago it was, in whole minutes. */
  lemma LatestExplains(t: IncidentType, s: Severity, evidence: seq<Evidence>, conflicts: nat, now: int)
    ensures var f := BuildBreakdown(t, s, evidence, conflicts, now).freshness;
            && f.severity == s && f.tenthsPerMinute == TenthsPerMinute(s)
            && (evidence == [] ==> f.mostRecentId.None? && f.mostRecentAt.None? && f.minutesSince.None? && f.score == 0)
            && (evidence != [] ==>
                  var latest := evidence[LatestIndex(evidence)];
                  && f.mostRecentId == Some(latest.id) && f.mostRecentAt == Some(latest.createdAt)
                  && f.minutesSince.Some? && Nearest(f.minutesSince.value, now - latest.createdAt, MINUTE))
  {
  }

  /** Certainty is its volume and diversity less its penalty, of the counts of this very evidence. */
  lemma CountsExplain(t: IncidentType, s: Severity, evidence: seq<Evidence>, conflicts: nat, now: int)
    ensures var c := BuildBreakdown(t, s, evidence, conflicts, now).certainty;
            && c.evidenceCount == |evidence| && c.uniqueCategories == |Categories(evidence)| && c.conflicts == conflicts
            && c.score == Max(0, c.volume + c.diversity - c.penalty)
            && 0 <= c.volume <= 70 && 0 <= c.diversity <= 20 && 0 <= c.penalty
            && c.volume == CertaintyScore(|evidence|, 0, 0) && c.diversity == CertaintyScore(0, |Categories(evidence)|, 0)
  {
  }
}
