/** Laws of the four confidence scores, for every incident and every list of evidence. */
module ScoringLaws {
  import opened Common
  import opened Scoring

  // ---- Ranges, and exactly when the contract check rejects ----

  lemma {:induction false} FilterLength<T>(s: seq<T>, p: T -> bool, q: T -> bool)
    requires forall x :: x in s ==> q(x) == !p(x)
    ensures |Filter(s, p)| + |Filter(s, q)| == |s|
  {
    if s != [] {
      assert s == s[..|s| - 1] + [s[|s| - 1]];
      FilterLength(s[..|s| - 1], p, q);
    }
  }

  /** Required sources are split into those found and those missing. */
  predicate Splits(b: CompletenessBreakdown, t: IncidentType, present: set<Category>) {
    && |b.present| + |b.missing| == |b.required|
    && (forall c :: c in b.present <==> c in Required(t) && c in present)
    && (forall c :: c in b.missing <==> c in Required(t) && c !in present)
  }

  lemma CompletenessSplits(t: IncidentType, present: set<Category>)
    ensures Splits(Completeness(t, present), t, present)
  {
    var required := Required(t);
    FilterLength(required, (c: Category) => c in present, (c: Category) => c !in present);
    forall c
      ensures c in Filter(required, (c: Category) => c in present) <==> c in required && c in present
      ensures c in Filter(required, (c: Category) => c !in present) <==> c in required && c !in present
    {
      FilterMember(required, c, (c: Category) => c in present);
      FilterMember(required, c, (c: Category) => c !in present);
    }
  }

  lemma PercentageRange(found: nat, required: nat)
    requires found <= required && 0 < required <= 3
    ensures 0 <= RoundDiv(100 * found, required) <= 100
    ensures RoundDiv(100 * found, required) == 100 <==> found == required
  {
  }

  /** 100 means that nothing is missing. */
  lemma CompletenessCounts(t: IncidentType, present: set<Category>)
    ensures var b := Completeness(t, present);
            && Splits(b, t, present)
            && 0 <= b.score <= 100
            && (b.score == 100 <==> b.missing == [])
  {
    CompletenessSplits(t, present);
    if Required(t) != [] {
      PercentageRange(|Completeness(t, present).present|, |Required(t)|);
    }
  }

  lemma RoundIsGreatest(n: int, d: int, q: int)
    requires d > 0
    ensures q * (2 * d) <= 2 * n + d <==> q <= RoundDiv(n, d)
  {
    QuotientIsGreatest(2 * n + d, 2 * d, q);
  }

  lemma {:induction false} TotalWeightBounds(evidence: seq<Evidence>)
    ensures 40 * |evidence| <= TotalWeight(evidence) <= 95 * |evidence|
  {
    if evidence != [] {
      TotalWeightBounds(evidence[..|evidence| - 1]);
    }
  }

  lemma RoundedMean(total: int, n: int, low: int, high: int)
    requires n > 0 && low * n <= total <= high * n
    ensures low <= RoundDiv(total, n) <= high
  {
    RoundIsGreatest(total, n, low);
    RoundIsGreatest(total, n, high + 1);
    assert (high + 1) * (2 * n) == 2 * (high * n) + 2 * n && low * (2 * n) == 2 * (low * n);
  }

  lemma ReliabilityRange(evidence: seq<Evidence>)
    ensures evidence == [] ==> Reliability(evidence).score == 0
    ensures evidence != [] ==> 40 <= Reliability(evidence).score <= 95
  {
    TotalWeightBounds(evidence);
    if evidence != [] {
      RoundedMean(TotalWeight(evidence), |evidence|, 40, 95);
    }
  }

  lemma CertaintyRange(count: nat, unique: nat, conflicts: nat)
    ensures 0 <= CertaintyScore(count, unique, conflicts) <= 90
    ensures conflicts >= 6 ==> CertaintyScore(count, unique, conflicts) == 0
  {
  }

  /** Only evidence from the future, by at least half a point of decay, makes a score break the contract. */
  lemma ContractRejectsIff(t: IncidentType, s: Severity, evidence: seq<Evidence>, conflicts: nat, now: int)
    ensures !MeetsContract(Score(t, s, evidence, conflicts, now)) <==>
            exists e :: e in evidence && 2 * (e.createdAt - now) * TenthsPerMinute(s) >= 10 * MINUTE
  {
    CompletenessCounts(t, Categories(evidence));
    ReliabilityRange(evidence);
    CertaintyRange(|evidence|, |Categories(evidence)|, conflicts);
    if evidence != [] {
      var m := MostRecent(evidence);
      FreshnessTooHigh(now - m.createdAt, s);
      forall e | e in evidence
        ensures 2 * (e.createdAt - now) * TenthsPerMinute(s) <= 2 * (m.createdAt - now) * TenthsPerMinute(s)
      {
      }
    }
  }

  lemma FreshnessTooHigh(age: int, s: Severity)
    ensures Decayed(age, s) > 100 <==> 2 * -age * TenthsPerMinute(s) >= 10 * MINUTE
  {
  }

  lemma NoFutureEvidenceMeetsContract(t: IncidentType, s: Severity, evidence: seq<Evidence>, conflicts: nat, now: int)
    requires forall e :: e in evidence ==> e.createdAt <= now
    ensures MeetsContract(Score(t, s, evidence, conflicts, now))
  {
    ContractRejectsIff(t, s, evidence, conflicts, now);
  }

  // ---- Order does not matter ----

  lemma {:induction false} TotalWeightConcat(a: seq<Evidence>, b: seq<Evidence>)
    ensures TotalWeight(a + b) == TotalWeight(a) + TotalWeight(b)
  {
    if b == [] {
      assert a + b == a;
    } else {
      assert (a + b)[..|a + b| - 1] == a + b[..|b| - 1];
      TotalWeightConcat(a, b[..|b| - 1]);
    }
  }

  lemma TotalWeightAppend(evidence: seq<Evidence>, e: Evidence)
    ensures TotalWeight(evidence + [e]) == TotalWeight(evidence) + Weight(e.category)
  {
    assert (evidence + [e])[..|evidence|] == evidence;
  }

  lemma OneItemMore(front: seq<Evidence>, x: Evidence, back: seq<Evidence>)
    ensures multiset(front + [x] + back) == multiset(front + back) + multiset{x}
    ensures TotalWeight(front + [x] + back) == TotalWeight(front + back) + Weight(x.category)
  {
    TotalWeightAppend(front, x);
    TotalWeightConcat(front + [x], back);
    TotalWeightConcat(front, back);
  }

  lemma SameWithoutItem(a: multiset<Evidence>, b: multiset<Evidence>, x: Evidence)
    requires a + multiset{x} == b + multiset{x}
    ensures a == b
  {
    assert a == a + multiset{x} - multiset{x} && b == b + multiset{x} - multiset{x};
  }

  lemma {:induction false} TotalWeightReordered(a: seq<Evidence>, b: seq<Evidence>)
    requires multiset(a) == multiset(b)
    ensures TotalWeight(a) == TotalWeight(b)
  {
    if a == [] {
      assert |b| == |multiset(b)| == 0;
    } else {
      var front, x := a[..|a| - 1], a[|a| - 1];
      assert a == front + [x];
      assert x in multiset(b);
      var i :| 0 <= i < |b| && b[i] == x;
      var left, right := b[..i], b[i + 1..];
      assert b == left + [x] + right;
      OneItemMore(left, x, right);
      SameWithoutItem(multiset(front), multiset(left + right), x);
      TotalWeightReordered(front, left + right);
    }
  }

  lemma SameMembers(a: seq<Evidence>, b: seq<Evidence>)
    requires multiset(a) == multiset(b)
    ensures |a| == |b| && Categories(a) == Categories(b)
    ensures a != [] ==> MostRecent(a).createdAt == MostRecent(b).createdAt
  {
    assert |a| == |multiset(a)| && |b| == |multiset(b)|;
    assert forall e :: e in a <==> e in multiset(a);
    assert forall e :: e in b <==> e in multiset(b);
    if a != [] {
      assert MostRecent(a) in b && MostRecent(b) in a;
    }
  }

  /** All four scores depend on which evidence there is, not on the order it comes in. */
  lemma ScoresIgnoreOrder(t: IncidentType, s: Severity, a: seq<Evidence>, b: seq<Evidence>, conflicts: nat, now: int)
    requires multiset(a) == multiset(b)
    ensures Score(t, s, a, conflicts, now) == Score(t, s, b, conflicts, now)
  {
    TotalWeightReordered(a, b);
    SameMembers(a, b);
  }

  // ---- More evidence ----

  lemma {:induction false} FilterMonotone<T>(s: seq<T>, p: T -> bool, q: T -> bool)
    requires forall x :: x in s && p(x) ==> q(x)
    ensures |Filter(s, p)| <= |Filter(s, q)|
  {
    if s != [] {
      assert s == s[..|s| - 1] + [s[|s| - 1]];
      FilterMonotone(s[..|s| - 1], p, q);
    }
  }

  lemma RoundMonotone(n: int, n': int, d: int)
    requires d > 0 && n <= n'
    ensures RoundDiv(n, d) <= RoundDiv(n', d)
  {
    RoundIsGreatest(n, d, RoundDiv(n, d));
    RoundIsGreatest(n', d, RoundDiv(n, d));
  }

  lemma DecayMonotone(age: int, age': int, s: Severity)
    requires age <= age'
    ensures Decayed(age, s) >= Decayed(age', s)
  {
  }

  lemma MoreCategories(t: IncidentType, a: set<Category>, b: set<Category>)
    requires a <= b
    ensures Completeness(t, a).score <= Completeness(t, b).score
  {
    FilterMonotone(Required(t), (c: Category) => c in a, (c: Category) => c in b);
    if Required(t) != [] {
      RoundMonotone(100 * |Completeness(t, a).present|, 100 * |Completeness(t, b).present|, |Required(t)|);
    }
  }

  lemma MoreFreshness(evidence: seq<Evidence>, e: Evidence, s: Severity, now: int)
    ensures FreshnessScore(evidence, s, now) <= FreshnessScore(evidence + [e], s, now)
  {
    if evidence != [] {
      assert MostRecent(evidence) in evidence + [e];
      DecayMonotone(now - MostRecent(evidence + [e]).createdAt, now - MostRecent(evidence).createdAt, s);
    }
  }

  lemma MoreCertainty(count: nat, unique: nat, more: nat, conflicts: nat)
    requires unique <= more
    ensures CertaintyScore(count, unique, conflicts) <= CertaintyScore(count + 1, more, conflicts)
  {
  }

  lemma CategoriesOfAppended(evidence: seq<Evidence>, e: Evidence)
    ensures Categories(evidence) <= Categories(evidence + [e])
    ensures |Categories(evidence)| <= |Categories(evidence + [e])|
  {
    assert forall x :: x in evidence ==> x in evidence + [e];
    SubsetSize(Categories(evidence), Categories(evidence + [e]));
  }

  /** One more item of evidence never lowers completeness, freshness or certainty; reliability it can. */
  lemma MoreEvidenceNeverLowers(t: IncidentType, s: Severity, evidence: seq<Evidence>, e: Evidence, conflicts: nat,
                                now: int)
    ensures var before, after := Score(t, s, evidence, conflicts, now), Score(t, s, evidence + [e], conflicts, now);
            && before.completeness <= after.completeness
            && before.freshness <= after.freshness
            && before.certainty <= after.certainty
  {
    var was, more := Categories(evidence), Categories(evidence + [e]);
    CategoriesOfAppended(evidence, e);
    MoreCategories(t, was, more);
    MoreFreshness(evidence, e, s, now);
    MoreCertainty(|evidence|, |was|, |more|, conflicts);
  }

  /** Adding one item to a mean: (total + w) / (n + 1) < total / n, multiplied out. */
  lemma MeanDropsIff(total: int, n: int, w: int, more: int)
    requires more == total + w
    ensures more * n < total * (n + 1) <==> w * n < total
  {
    assert more * n == total * n + w * n;
    assert total * (n + 1) == total * n + total;
  }

  /** Reliability is a mean, the exception: an item lowers the mean iff it weighs less than the mean so far. */
  lemma MeanWeightDropsIff(evidence: seq<Evidence>, e: Evidence)
    ensures TotalWeight(evidence + [e]) * |evidence| < TotalWeight(evidence) * (|evidence| + 1) <==>
            Weight(e.category) * |evidence| < TotalWeight(evidence)
  {
    TotalWeightAppend(evidence, e);
    MeanDropsIff(TotalWeight(evidence), |evidence|, Weight(e.category), TotalWeight(evidence + [e]));
  }

  /**
   * The rounded score drops iff the new total misses half a point below the old score; only an item that
   * weighs less than the mean can lower it, and only one that weighs more can raise it.
   */
  lemma ReliabilityDropsIff(evidence: seq<Evidence>, e: Evidence)
    requires evidence != []
    ensures var was, now := Reliability(evidence).score, Reliability(evidence + [e]).score;
            && (now < was <==> 2 * TotalWeight(evidence + [e]) < (2 * was - 1) * |evidence + [e]|)
            && (now < was ==> Weight(e.category) * |evidence| < TotalWeight(evidence))
            && (now > was ==> Weight(e.category) * |evidence| > TotalWeight(evidence))
  {
    TotalWeightAppend(evidence, e);
    RoundedMeanDrops(TotalWeight(evidence), |evidence|, Weight(e.category), TotalWeight(evidence + [e]), |evidence + [e]|);
  }

  lemma DropFactor(x: int, y: int, n: int)
    requires n > 0 && n * x <= n * y
    ensures x <= y
  {
    if y + 1 <= x {
      MultiplyMonotone(n, y + 1, x);
    }
  }

  /** From k / 2 <= a / n and a / n <= b / m. */
  lemma HalvesBelow(k: int, a: int, n: int, b: int, m: int)
    requires n > 0 && m > 0 && a * m <= b * n && k * n <= 2 * a
    ensures k * m <= 2 * b
  {
    MultiplyMonotone(m, k * n, 2 * a);
    assert n * (k * m) == m * (k * n);
    assert m * (2 * a) == 2 * (a * m) && n * (2 * b) == 2 * (b * n);
    DropFactor(k * m, 2 * b, n);
  }

  /** Rounding keeps the order of fractions: a / n <= b / m. */
  lemma RoundOrder(a: int, n: int, b: int, m: int)
    requires n > 0 && m > 0 && a * m <= b * n
    ensures RoundDiv(a, n) <= RoundDiv(b, m)
  {
    var r := RoundDiv(a, n);
    RoundIsGreatest(a, n, r);
    HalvesBelow(2 * r - 1, a, n, b, m);
    RoundIsGreatest(b, m, r);
  }

  lemma RoundedMeanKeeps(total: int, n: int, w: int, more: int, m: int)
    requires n > 0 && more == total + w && m == n + 1
    ensures w * n >= total ==> RoundDiv(total, n) <= RoundDiv(more, m)
    ensures w * n <= total ==> RoundDiv(more, m) <= RoundDiv(total, n)
  {
    assert more * n == total * n + w * n && total * m == total * n + total;
    if w * n >= total {
      RoundOrder(total, n, more, m);
    }
    if w * n <= total {
      RoundOrder(more, m, total, n);
    }
  }

  lemma RoundedMeanDrops(total: int, n: int, w: int, more: int, m: int)
    requires n > 0 && more == total + w && m == n + 1
    ensures var was, now := RoundDiv(total, n), RoundDiv(more, m);
            && (now < was <==> 2 * more < (2 * was - 1) * m)
            && (now < was ==> w * n < total) && (now > was ==> w * n > total)
  {
    var was := RoundDiv(total, n);
    RoundIsGreatest(more, m, was);
    assert was * (2 * m) == (2 * was - 1) * m + m;
    RoundedMeanKeeps(total, n, w, more, m);
  }

  // ---- The same evidence at two instants ----

  /** Later by `d` ms, a freshness score is never higher and lower by at most the decay over `d`, rounded up. */
  lemma FreshnessDrift(evidence: seq<Evidence>, s: Severity, now: int, d: nat)
    ensures var drift := CeilDiv(d * TenthsPerMinute(s), 10 * MINUTE);
            FreshnessScore(evidence, s, now) - drift <= FreshnessScore(evidence, s, now + d)
            <= FreshnessScore(evidence, s, now)
  {
    if evidence != [] {
      var age := now - MostRecent(evidence).createdAt;
      DecayMonotone(age, age + d, s);
      DecayDrift(1000 * MINUTE - age * TenthsPerMinute(s), d * TenthsPerMinute(s), 10 * MINUTE);
      assert (age + d) * TenthsPerMinute(s) == age * TenthsPerMinute(s) + d * TenthsPerMinute(s);
    }
  }

  lemma DecayDrift(n: int, loss: nat, d: int)
    requires d > 0
    ensures RoundDiv(n, d) - CeilDiv(loss, d) <= RoundDiv(n - loss, d)
  {
    var r, c := RoundDiv(n, d), CeilDiv(loss, d);
    RoundIsGreatest(n, d, r);
    RoundIsGreatest(n - loss, d, r - c);
    assert (r - c) * (2 * d) == r * (2 * d) - 2 * (d * c);
  }

  /**
   * Evidence of age `age` scores the same at age `age'`: the decay in between does not leave the rounding
   * step, or both have come down to 0.
   */
  predicate SameDecay(age: int, age': int, s: Severity) {
    var step := 10 * MINUTE;
    var n, loss := 100 * step - age * TenthsPerMinute(s), (age' - age) * TenthsPerMinute(s);
    var above := (2 * n + step) % (2 * step);
    if loss >= 0 then Decayed(age, s) == 0 || 2 * loss <= above
    else (Decayed(age, s) == 0 && 2 * (n - loss) < step) || above - 2 * loss < 2 * step
  }

  /** `n - loss` rounds like `n` iff the loss stays within the rounding step, on the side it goes. */
  lemma SameRounding(n: int, loss: int, d: int)
    requires d > 0
    ensures RoundDiv(n - loss, d) == RoundDiv(n, d) <==> 0 <= (2 * n + d) % (2 * d) - 2 * loss < 2 * d
  {
    var r, above := RoundDiv(n, d), (2 * n + d) % (2 * d);
    assert 2 * n + d == 2 * d * r + above;
    assert 2 * (n - loss) + d == 2 * d * r + (above - 2 * loss);
    RoundIsGreatest(n - loss, d, r);
    RoundIsGreatest(n - loss, d, r + 1);
    assert r * (2 * d) == 2 * d * r && (r + 1) * (2 * d) == 2 * d * r + 2 * d;
  }

  lemma NoLaterDecay(n: int, loss: nat, d: int)
    requires d > 0
    ensures Max(0, RoundDiv(n - loss, d)) == Max(0, RoundDiv(n, d)) <==>
            Max(0, RoundDiv(n, d)) == 0 || 2 * loss <= (2 * n + d) % (2 * d)
  {
    SameRounding(n, loss, d);
    RoundMonotone(n - loss, n, d);
  }

  lemma NoEarlierDecay(n: int, gain: int, d: int)
    requires d > 0 && gain >= 0
    ensures Max(0, RoundDiv(n + gain, d)) == Max(0, RoundDiv(n, d)) <==>
            (Max(0, RoundDiv(n, d)) == 0 && 2 * (n + gain) < d) || (2 * n + d) % (2 * d) + 2 * gain < 2 * d
  {
    SameRounding(n, -gain, d);
    assert n - -gain == n + gain;
    RoundIsGreatest(n + gain, d, 1);
    RoundMonotone(n, n + gain, d);
  }

  lemma DecaySameIff(age: int, age': int, s: Severity)
    ensures Decayed(age', s) == Decayed(age, s) <==> SameDecay(age, age', s)
  {
    var step := 10 * MINUTE;
    var n, loss := 100 * step - age * TenthsPerMinute(s), (age' - age) * TenthsPerMinute(s);
    assert 100 * step - age' * TenthsPerMinute(s) == n - loss;
    if loss >= 0 {
      NoLaterDecay(n, loss, step);
    } else {
      NoEarlierDecay(n, -loss, step);
    }
  }

  /** Replayed at another instant, before or after, a freshness score comes out the same exactly then. */
  lemma ReplayIsExactIff(evidence: seq<Evidence>, s: Severity, now: int, at: int)
    ensures FreshnessScore(evidence, s, at) == FreshnessScore(evidence, s, now) <==>
            evidence == [] ||
            SameDecay(now - MostRecent(evidence).createdAt, at - MostRecent(evidence).createdAt, s)
  {
    if evidence != [] {
      DecaySameIff(now - MostRecent(evidence).createdAt, at - MostRecent(evidence).createdAt, s);
    }
  }

  /** Evidence that is about to lose a point: it scores 100 now and less a millisecond later. */
  function Turning(s: Severity, now: int): Evidence {
    Evidence("", "", "", None, OTHER, "", now - 300_000 / TenthsPerMinute(s))
  }

  lemma TurningDrops(s: Severity, now: int, later: int)
    requires now < later
    ensures FreshnessScore([Turning(s, now)], s, later) < FreshnessScore([Turning(s, now)], s, now)
  {
    var e := Turning(s, now);
    assert MostRecent([e]) == e;
    assert Decayed(now - e.createdAt, s) == 100;
    assert (later - e.createdAt) * TenthsPerMinute(s) > 300_000;
  }

  /** Replay is exact for all evidence iff it is for the same instant: any other changes some score. */
  lemma ReplayIsAlwaysExactIff(s: Severity, now: int, at: int)
    ensures at == now <==>
            forall evidence :: FreshnessScore(evidence, s, at) == FreshnessScore(evidence, s, now)
  {
    if now < at {
      TurningDrops(s, now, at);
      assert FreshnessScore([Turning(s, now)], s, at) != FreshnessScore([Turning(s, now)], s, now);
    } else if at < now {
      TurningDrops(s, at, now);
      assert FreshnessScore([Turning(s, at)], s, at) != FreshnessScore([Turning(s, at)], s, now);
    }
  }
}
