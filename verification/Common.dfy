/** Small value types and sequence facts used by every other module. */
module Common {

  datatype Option<+T> = None | Some(value: T)

  function Max(a: int, b: int): int { if a < b then b else a }

  function Min(a: int, b: int): int { if a < b then a else b }

  /** The elements of `s` that satisfy `p`, in order. */
  function Filter<T>(s: seq<T>, p: T -> bool): seq<T> {
    if s == [] then []
    else if p(s[|s| - 1]) then Filter(s[..|s| - 1], p) + [s[|s| - 1]]
    else Filter(s[..|s| - 1], p)
  }

  lemma FilterAppend<T>(s: seq<T>, x: T, p: T -> bool)
    ensures Filter(s + [x], p) == Filter(s, p) + if p(x) then [x] else []
  {
  }

  lemma FilterOne<T>(x: T, p: T -> bool)
    ensures Filter([x], p) == if p(x) then [x] else []
  {
    FilterAppend([], x, p);
    assert [] + [x] == [x];
  }

  lemma {:induction false} FilterMember<T>(s: seq<T>, x: T, p: T -> bool)
    ensures x in Filter(s, p) <==> x in s && p(x)
  {
    if s != [] {
      var n := |s| - 1;
      FilterMember(s[..n], x, p);
      assert s == s[..n] + [s[n]];
    }
  }

  lemma {:induction false} FilterConcat<T>(s: seq<T>, t: seq<T>, p: T -> bool)
    ensures Filter(s + t, p) == Filter(s, p) + Filter(t, p)
  {
    if t == [] {
      assert s + t == s;
    } else {
      var n := |t| - 1;
      assert s + t == (s + t[..n]) + [t[n]];
      FilterAppend(s + t[..n], t[n], p);
      FilterConcat(s, t[..n], p);
    }
  }

  /** What is kept is kept as often as it occurs. */
  lemma {:induction false} FilterCounts<T>(s: seq<T>, p: T -> bool, x: T)
    ensures multiset(Filter(s, p))[x] == if p(x) then multiset(s)[x] else 0
  {
    if s != [] {
      FilterCounts(s[..|s| - 1], p, x);
      assert s == s[..|s| - 1] + [s[|s| - 1]];
    }
  }

  /** `at` are the positions of `s` at which `p` holds, in order. */
  predicate Picks<T>(s: seq<T>, p: T -> bool, at: seq<nat>) {
    && (forall i, j :: 0 <= i < j < |at| ==> at[i] < at[j])
    && (forall i :: 0 <= i < |at| ==> at[i] < |s| && p(s[at[i]]))
    && (forall n :: 0 <= n < |s| && p(s[n]) ==> n in at)
  }

  lemma {:induction false} FilterPicks<T>(s: seq<T>, p: T -> bool) returns (at: seq<nat>)
    ensures Picks(s, p, at) && |at| == |Filter(s, p)|
    ensures forall i :: 0 <= i < |at| ==> Filter(s, p)[i] == s[at[i]]
  {
    at := [];
    if s != [] {
      var n := |s| - 1;
      at := FilterPicks(s[..n], p);
      if p(s[n]) {
        at := at + [n];
      }
    }
  }

  /** The values `f` gives for the elements of `s`, in order, leaving out those it gives none for. */
  function FilterMap<T, U>(s: seq<T>, f: T -> Option<U>): seq<U> {
    if s == [] then []
    else
      var r := f(s[|s| - 1]);
      FilterMap(s[..|s| - 1], f) + if r.Some? then [r.value] else []
  }

  lemma FilterMapAppend<T, U>(s: seq<T>, x: T, f: T -> Option<U>)
    ensures FilterMap(s + [x], f) == FilterMap(s, f) + if f(x).Some? then [f(x).value] else []
  {
  }

  lemma {:induction false} FilterMapAll<T, U>(s: seq<T>, f: T -> Option<U>, values: seq<U>)
    requires |s| == |values| && forall i :: 0 <= i < |s| ==> f(s[i]) == Some(values[i])
    ensures FilterMap(s, f) == values
  {
    if s != [] {
      var n := |s| - 1;
      FilterMapAll(s[..n], f, values[..n]);
      assert values == values[..n] + [values[n]];
    }
  }

  lemma MultiplyMonotone(k: nat, a: int, b: int)
    requires a <= b
    ensures k * a <= k * b
  {
  }

  /** a / d is the greatest q with q * d <= a. */
  lemma QuotientIsGreatest(a: int, d: int, q: int)
    requires d > 0
    ensures q * d <= a <==> q <= a / d
  {
    var r := a / d;
    assert r * d <= a < r * d + d;
    if q <= r {
      MultiplyMonotone(d, q, r);
    } else {
      MultiplyMonotone(d, r + 1, q);
    }
  }

  lemma SubsetSize<T>(a: set<T>, b: set<T>)
    requires a <= b
    ensures |a| <= |b|
  {
    assert b == a + (b - a);
  }

  // ---- Strings ----

  /** The characters `trim` removes: ECMAScript white space and line terminators. */
  predicate IsSpace(c: char) {
    var n := c as int;
    9 <= n <= 13 || n in {0x20, 0xA0, 0x1680, 0x2028, 0x2029, 0x202F, 0x205F, 0x3000, 0xFEFF} || 0x2000 <= n <= 0x200A
  }

  predicate Trimmed(s: string) {
    s == [] || (!IsSpace(s[0]) && !IsSpace(s[|s| - 1]))
  }

  function Trim(s: string): (r: string)
    ensures Trimmed(r)
  {
    if s == [] then s
    else if IsSpace(s[0]) then Trim(s[1..])
    else if IsSpace(s[|s| - 1]) then Trim(s[..|s| - 1])
    else s
  }

  predicate AllSpace(s: string) {
    forall i :: 0 <= i < |s| ==> IsSpace(s[i])
  }

  /** `trim` takes off white space at the two ends, all of it, and nothing else. */
  lemma {:induction false} TrimTakesTheEnds(s: string) returns (lead: string, trail: string)
    ensures s == lead + Trim(s) + trail && AllSpace(lead) && AllSpace(trail) && Trimmed(Trim(s))
    decreases |s|
  {
    lead, trail := "", "";
    if s != "" && IsSpace(s[0]) {
      lead, trail := TrimTakesTheEnds(s[1..]);
      assert s == [s[0]] + (lead + Trim(s) + trail) == ([s[0]] + lead) + Trim(s) + trail;
      lead := [s[0]] + lead;
    } else if s != "" && IsSpace(s[|s| - 1]) {
      lead, trail := TrimTakesTheEnds(s[..|s| - 1]);
      assert s == lead + Trim(s) + trail + [s[|s| - 1]] == lead + Trim(s) + (trail + [s[|s| - 1]]);
      trail := trail + [s[|s| - 1]];
    }
  }
}
