/** Tenant slugs: how a name becomes one, and how registration finds one that is still free. */
module Slugs {
  import opened Common

  predicate Letter(c: char) { 'a' <= c <= 'z' || '0' <= c <= '9' }

  /** Non-empty, of letters, digits and single inner hyphens. */
  predicate WellFormed(s: string) {
    && s != ""
    && (forall i :: 0 <= i < |s| ==> Letter(s[i]) || s[i] == '-')
    && s[0] != '-' && s[|s| - 1] != '-'
    && NoDoubledHyphen(s)
  }

  predicate NoDoubledHyphen(s: string) {
    forall i :: 1 <= i < |s| ==> s[i - 1] != '-' || s[i] != '-'
  }

  /** `replace(/[^a-z0-9]+/g, '-')`; `inRun` says that the character before was replaced too. */
  function Hyphenate(s: string, inRun: bool): string {
    if s == "" then ""
    else if Letter(s[0]) then [s[0]] + Hyphenate(s[1..], false)
    else (if inRun then "" else "-") + Hyphenate(s[1..], true)
  }

  /** `replace(/(^-|-$)/g, '')`. */
  function StripEnds(s: string): string {
    var t := if s != "" && s[0] == '-' then s[1..] else s;
    if t != "" && t[|t| - 1] == '-' then t[..|t| - 1] else t
  }

  /** `lower` is the platform's lower-casing of a whole string. */
  function Slugify(lower: string -> string, name: string): string {
    OrTenant(StripEnds(Hyphenate(Trim(lower(name)), false)))
  }

  /** `|| 'tenant'`. */
  function OrTenant(s: string): string {
    if s == "" then "tenant" else s
  }

  // ---- Laws of `slugify` ----

  lemma {:induction false} HyphenateShape(s: string, inRun: bool)
    ensures var h := Hyphenate(s, inRun);
            && (forall i :: 0 <= i < |h| ==> Letter(h[i]) || h[i] == '-')
            && (inRun && h != "" ==> h[0] != '-')
            && NoDoubledHyphen(h)
  {
    if s != "" {
      HyphenateShape(s[1..], !Letter(s[0]));
    }
  }

  lemma HyphenatedIsWellFormed(s: string)
    ensures var h := StripEnds(Hyphenate(s, false)); h != "" ==> WellFormed(h)
  {
    HyphenateShape(s, false);
  }

  lemma OrTenantIsWellFormed(s: string)
    requires s != "" ==> WellFormed(s)
    ensures WellFormed(OrTenant(s))
  {
    assert WellFormed("tenant");
  }

  lemma SlugIsWellFormed(lower: string -> string, name: string)
    ensures WellFormed(Slugify(lower, name))
  {
    HyphenatedIsWellFormed(Trim(lower(name)));
    OrTenantIsWellFormed(StripEnds(Hyphenate(Trim(lower(name)), false)));
  }

  lemma {:induction false} HyphenateFixes(s: string, inRun: bool)
    requires forall i :: 0 <= i < |s| ==> Letter(s[i]) || s[i] == '-'
    requires NoDoubledHyphen(s) && (inRun && s != "" ==> s[0] != '-')
    ensures Hyphenate(s, inRun) == s
  {
    if s != "" {
      HyphenateFixes(s[1..], !Letter(s[0]));
      assert [s[0]] + s[1..] == s;
    }
  }

  lemma SlugIsFixed(s: string)
    requires WellFormed(s)
    ensures OrTenant(StripEnds(Hyphenate(Trim(s), false))) == s
  {
    assert Trim(s) == s;
    HyphenateFixes(s, false);
  }

  /** Slugs are fixed by `slugify`, for every lower-casing that leaves slugs alone. */
  lemma SlugifyIsIdempotent(lower: string -> string, name: string)
    requires forall s :: WellFormed(s) ==> lower(s) == s
    ensures Slugify(lower, Slugify(lower, name)) == Slugify(lower, name)
  {
    SlugIsWellFormed(lower, name);
    SlugIsFixed(Slugify(lower, name));
  }

  function Letters(s: string): string {
    Filter(s, Letter)
  }

  lemma {:induction false} HyphenateKeepsLetters(s: string, inRun: bool)
    ensures Letters(Hyphenate(s, inRun)) == Letters(s)
  {
    if s != "" {
      HyphenateKeepsLetters(s[1..], !Letter(s[0]));
      var rest := Hyphenate(s[1..], !Letter(s[0]));
      assert s == [s[0]] + s[1..];
      FilterConcat([s[0]], s[1..], Letter);
      FilterAppend([], s[0], Letter);
      FilterAppend([], '-', Letter);
      assert [] + [s[0]] == [s[0]] && [] + ['-'] == "-";
      FilterConcat([s[0]], rest, Letter);
      FilterConcat("-", rest, Letter);
      assert "" + rest == rest;
    }
  }

  lemma {:induction false} TrimKeepsLetters(s: string)
    ensures Letters(Trim(s)) == Letters(s)
    decreases |s|
  {
    if s != "" {
      if IsSpace(s[0]) {
        TrimKeepsLetters(s[1..]);
        assert s == [s[0]] + s[1..];
        FilterConcat([s[0]], s[1..], Letter);
        FilterAppend([], s[0], Letter);
        assert [] + [s[0]] == [s[0]];
      } else if IsSpace(s[|s| - 1]) {
        TrimKeepsLetters(s[..|s| - 1]);
      }
    }
  }

  lemma StripKeepsLetters(s: string)
    ensures Letters(StripEnds(s)) == Letters(s)
  {
    if s != "" && s[0] == '-' {
      assert s == ['-'] + s[1..];
      FilterConcat(['-'], s[1..], Letter);
      FilterAppend([], '-', Letter);
      assert [] + ['-'] == ['-'];
    }
  }

  /** A slug has exactly the letters and digits of the lower-cased name, in order, unless it has none. */
  lemma SlugKeepsLetters(lower: string -> string, name: string)
    ensures Letters(lower(name)) != "" ==> Letters(Slugify(lower, name)) == Letters(lower(name))
    ensures Letters(lower(name)) == "" ==> Slugify(lower, name) == "tenant"
  {
    var t := Trim(lower(name));
    TrimKeepsLetters(lower(name));
    HyphenateKeepsLetters(t, false);
    StripKeepsLetters(Hyphenate(t, false));
    var s := StripEnds(Hyphenate(t, false));
    HyphenateShape(t, false);
    if s != "" {
      FilterMember(s, s[0], Letter);
    }
  }

  // ---- What a slug is: the words of the name, with hyphens between them ----

  /** The longest stretches of letters and digits, in order. */
  function Words(s: string): seq<string> {
    if s == "" then []
    else if !Letter(s[0]) then Words(s[1..])
    else if |s| > 1 && Letter(s[1]) then
      var rest := Words(s[1..]);
      if rest == [] then [[s[0]]] else [[s[0]] + rest[0]] + rest[1..]
    else [[s[0]]] + Words(s[1..])
  }

  function Hyphened(words: seq<string>): string {
    if words == [] then ""
    else if |words| == 1 then words[0]
    else words[0] + "-" + Hyphened(words[1..])
  }

  lemma {:induction false} WordsAreNotEmpty(s: string)
    ensures forall i :: 0 <= i < |Words(s)| ==> Words(s)[i] != ""
    ensures s != "" && Letter(s[0]) ==> Words(s) != []
  {
    if s != "" {
      WordsAreNotEmpty(s[1..]);
    }
  }

  predicate NoHyphenAtEnds(s: string) {
    s != "" ==> s[0] != '-' && s[|s| - 1] != '-'
  }

  predicate OfLetters(word: string) {
    word != "" && forall i :: 0 <= i < |word| ==> Letter(word[i])
  }

  lemma {:induction false} WordsAreOfLetters(s: string)
    ensures forall i :: 0 <= i < |Words(s)| ==> OfLetters(Words(s)[i])
  {
    if s != "" {
      WordsAreOfLetters(s[1..]);
      WordsAreNotEmpty(s[1..]);
    }
  }

  lemma {:induction false} HyphenedHasNoHyphenAtEnds(words: seq<string>)
    requires forall i :: 0 <= i < |words| ==> OfLetters(words[i])
    ensures NoHyphenAtEnds(Hyphened(words)) && (words != [] ==> Hyphened(words) != "")
  {
    if |words| > 1 {
      HyphenedHasNoHyphenAtEnds(words[1..]);
    }
  }

  /** What `replace` makes of a text: its words, and a hyphen where it starts or ends with something else. */
  function Outside(s: string, inRun: bool): (string, string) {
    (if s != "" && !Letter(s[0]) && !inRun then "-" else "",
     if s != "" && !Letter(s[|s| - 1]) && Words(s) != [] then "-" else "")
  }

  lemma HyphenedLonger(c: char, first: string, more: seq<string>)
    ensures Hyphened([[c] + first] + more) == [c] + Hyphened([first] + more)
  {
    assert ([[c] + first] + more)[1..] == more && ([first] + more)[1..] == more;
    if more != [] {
      assert [c] + (first + ("-" + Hyphened(more))) == ([c] + first) + ("-" + Hyphened(more));
      assert first + "-" + Hyphened(more) == first + ("-" + Hyphened(more));
      assert ([c] + first) + "-" + Hyphened(more) == ([c] + first) + ("-" + Hyphened(more));
    }
  }

  lemma HyphenedMore(c: char, words: seq<string>)
    requires words != []
    ensures Hyphened([[c]] + words) == [c] + "-" + Hyphened(words)
  {
    assert ([[c]] + words)[1..] == words;
  }

  predicate KeepsWords(s: string, inRun: bool) {
    Hyphenate(s, inRun) == Outside(s, inRun).0 + Hyphened(Words(s)) + Outside(s, inRun).1
  }

  lemma OtherKeepsWords(s: string, inRun: bool)
    requires s != "" && !Letter(s[0]) && KeepsWords(s[1..], true)
    ensures KeepsWords(s, inRun)
  {
    var rest := s[1..];
    assert Words(s) == Words(rest);
    assert Outside(rest, true).1 == Outside(s, inRun).1;
    assert Hyphenate(rest, true) == Hyphened(Words(rest)) + Outside(rest, true).1;
  }

  /** A letter that the word goes on after. */
  lemma LetterInWord(s: string, inRun: bool)
    requires |s| > 1 && Letter(s[0]) && Letter(s[1]) && KeepsWords(s[1..], false)
    ensures KeepsWords(s, inRun)
  {
    var rest, words := s[1..], Words(s[1..]);
    WordsAreNotEmpty(rest);
    HyphenedLonger(s[0], words[0], words[1..]);
    assert [words[0]] + words[1..] == words;
    assert Outside(rest, false).1 == Outside(s, inRun).1;
    assert Hyphenate(rest, false) == Hyphened(words) + Outside(rest, false).1;
  }

  /** A letter that ends its word. */
  lemma LetterEndsWord(s: string, inRun: bool)
    requires s != "" && Letter(s[0]) && (|s| > 1 ==> !Letter(s[1])) && KeepsWords(s[1..], false)
    ensures KeepsWords(s, inRun)
  {
    var rest, words := s[1..], Words(s[1..]);
    assert Words(s) == [[s[0]]] + words;
    if rest == "" {
      assert Hyphenate(rest, false) == "";
    } else {
      assert rest[|rest| - 1] == s[|s| - 1];
      assert Hyphenate(rest, false) == "-" + Hyphened(words) + Outside(rest, false).1;
      if words != [] {
        HyphenedMore(s[0], words);
      } else {
        LettersAreInWords(rest);
      }
    }
  }

  lemma {:induction false} LettersAreInWords(s: string)
    ensures Words(s) == [] ==> forall i :: 0 <= i < |s| ==> !Letter(s[i])
  {
    if s != "" {
      LettersAreInWords(s[1..]);
    }
  }

  lemma {:induction false} HyphenateKeepsWords(s: string, inRun: bool)
    ensures KeepsWords(s, inRun)
  {
    if s != "" {
      HyphenateKeepsWords(s[1..], !Letter(s[0]));
      if !Letter(s[0]) {
        OtherKeepsWords(s, inRun);
      } else if |s| > 1 && Letter(s[1]) {
        LetterInWord(s, inRun);
      } else {
        LetterEndsWord(s, inRun);
      }
    }
  }

  lemma StripLeavesWords(lead: string, middle: string, trail: string)
    requires lead in {"", "-"} && trail in {"", "-"} && NoHyphenAtEnds(middle) && (middle == "" ==> trail == "")
    ensures StripEnds(lead + middle + trail) == middle
  {
    var s := lead + middle + trail;
    var t := if s != "" && s[0] == '-' then s[1..] else s;
    assert t == middle + trail;
  }

  lemma {:induction false} WordsWithoutLast(s: string)
    requires s != "" && !Letter(s[|s| - 1])
    ensures Words(s[..|s| - 1]) == Words(s)
  {
    if |s| > 1 {
      var front := s[..|s| - 1];
      assert s[1..][..|s| - 2] == front[1..];
      WordsWithoutLast(s[1..]);
    }
  }

  lemma {:induction false} TrimKeepsWords(s: string)
    ensures Words(Trim(s)) == Words(s)
    decreases |s|
  {
    if s != "" {
      if IsSpace(s[0]) {
        TrimKeepsWords(s[1..]);
      } else if IsSpace(s[|s| - 1]) {
        TrimKeepsWords(s[..|s| - 1]);
        WordsWithoutLast(s);
      }
    }
  }

  /** A slug is the words of the lower-cased name with one hyphen between each two, or `tenant` if there are none. */
  lemma SlugIsHyphenedWords(lower: string -> string, name: string)
    ensures var words := Words(lower(name)); Slugify(lower, name) == if words == [] then "tenant" else Hyphened(words)
  {
    var t := Trim(lower(name));
    TrimKeepsWords(lower(name));
    WordsAreOfLetters(t);
    HyphenedHasNoHyphenAtEnds(Words(t));
    HyphenateKeepsWords(t, false);
    StripLeavesWords(Outside(t, false).0, Hyphened(Words(t)), Outside(t, false).1);
  }

  // ---- Decimal suffixes ----

  function Digit(n: nat): char
    requires n < 10
  {
    "0123456789"[n]
  }

  function Decimal(n: nat): (s: string)
    ensures s != ""
  {
    if n < 10 then [Digit(n)] else Decimal(n / 10) + [Digit(n % 10)]
  }

  lemma {:induction false} DecimalIsInjective(m: nat, n: nat)
    requires Decimal(m) == Decimal(n)
    ensures m == n
  {
    var s := Decimal(m);
    assert s[|s| - 1] == Digit(m % 10) == Digit(n % 10);
    if m >= 10 && n >= 10 {
      assert Decimal(m / 10) == s[..|s| - 1] == Decimal(n / 10);
      DecimalIsInjective(m / 10, n / 10);
    }
  }

  lemma {:induction false} DecimalIsDigits(n: nat)
    ensures forall i :: 0 <= i < |Decimal(n)| ==> Letter(Decimal(n)[i])
  {
    if n >= 10 {
      DecimalIsDigits(n / 10);
    }
  }

  predicate Numeral(s: string) {
    forall i :: 0 <= i < |s| ==> '0' <= s[i] <= '9'
  }

  function ValueOf(s: string): nat
    requires Numeral(s)
  {
    if s == "" then 0 else 10 * ValueOf(s[..|s| - 1]) + (s[|s| - 1] as int - '0' as int)
  }

  /** `Decimal(n)` is the numeral of n: digits that are worth n, without a leading zero. */
  lemma {:induction false} DecimalIsNumeral(n: nat)
    ensures Numeral(Decimal(n)) && ValueOf(Decimal(n)) == n
    ensures n > 0 ==> Decimal(n)[0] != '0'
  {
    if n >= 10 {
      DecimalIsNumeral(n / 10);
      assert Decimal(n)[..|Decimal(n)| - 1] == Decimal(n / 10);
    } else {
      assert Decimal(n)[..0] == "";
    }
  }

  // ---- Finding a free slug ----

  /** The slugs tried in turn: base, base-2, base-3, ... */
  function Candidate(base: string, i: nat): string {
    if i == 0 then base else base + "-" + Decimal(i + 1)
  }

  /** The first is the base itself; the i-th after it ends in the numeral of i + 1. */
  lemma CandidateIsNumbered(base: string, i: nat)
    ensures Candidate(base, 0) == base
    ensures i > 0 ==>
              && base + "-" <= Candidate(base, i)
              && var suffix := Candidate(base, i)[|base| + 1..];
              Numeral(suffix) && ValueOf(suffix) == i + 1 && suffix != "" && suffix[0] != '0'
  {
    if i > 0 {
      DecimalIsNumeral(i + 1);
      assert Candidate(base, i)[|base| + 1..] == Decimal(i + 1);
    }
  }

  lemma CandidatesDiffer(base: string, i: nat, j: nat)
    requires Candidate(base, i) == Candidate(base, j)
    ensures i == j
  {
    var prefix := base + "-";
    if i > 0 && j > 0 {
      assert Candidate(base, i)[|prefix|..] == Decimal(i + 1);
      assert Candidate(base, j)[|prefix|..] == Decimal(j + 1);
      DecimalIsInjective(i + 1, j + 1);
    } else {
      assert i > 0 ==> |Candidate(base, i)| > |base|;
      assert j > 0 ==> |Candidate(base, j)| > |base|;
    }
  }

  lemma NumberedIsWellFormed(base: string, digits: string)
    requires WellFormed(base) && OfLetters(digits)
    ensures WellFormed(base + "-" + digits)
  {
    var s := base + "-" + digits;
    assert forall i :: 0 <= i < |s| ==> s[i] == if i < |base| then base[i] else if i == |base| then '-' else digits[i - |base| - 1];
  }

  lemma CandidateIsWellFormed(base: string, i: nat)
    requires WellFormed(base)
    ensures WellFormed(Candidate(base, i))
  {
    DecimalIsDigits(i + 1);
    NumberedIsWellFormed(base, Decimal(i + 1));
  }

  function FirstCandidates(base: string, n: nat): set<string> {
    if n == 0 then {} else FirstCandidates(base, n - 1) + {Candidate(base, n - 1)}
  }

  lemma {:induction false} CandidatesAreNew(base: string, n: nat, m: nat)
    requires n <= m
    ensures Candidate(base, m) !in FirstCandidates(base, n)
  {
    if n > 0 {
      CandidatesAreNew(base, n - 1, m);
      if Candidate(base, m) == Candidate(base, n - 1) {
        CandidatesDiffer(base, m, n - 1);
      }
    }
  }

  lemma {:induction false} CandidatesCount(taken: set<string>, base: string, n: nat)
    requires forall i :: 0 <= i < n ==> Candidate(base, i) in taken
    ensures FirstCandidates(base, n) <= taken && |FirstCandidates(base, n)| == n
  {
    if n > 0 {
      CandidatesCount(taken, base, n - 1);
      CandidatesAreNew(base, n - 1, n - 1);
    }
  }

  /** Pigeonhole: no more candidates can be taken than there are taken slugs. */
  lemma TakenCandidates(taken: set<string>, base: string, n: nat)
    requires forall i :: 0 <= i < n ==> Candidate(base, i) in taken
    ensures n <= |taken|
  {
    CandidatesCount(taken, base, n);
    SubsetSize(FirstCandidates(base, n), taken);
  }

  /**
   * The search loop of registration. With n slugs taken it makes at most n + 1 lookups, because the
   * candidates are all different, and it stops at the first that is free.
   */
  method FindFreeSlug(taken: set<string>, base: string) returns (slug: string, lookups: nat)
    ensures 1 <= lookups <= |taken| + 1
    ensures slug == Candidate(base, lookups - 1) && slug !in taken
    ensures forall i :: 0 <= i < lookups - 1 ==> Candidate(base, i) in taken
  {
    slug, lookups := base, 1;
    var attempt := 0;
    while slug in taken
      invariant slug == Candidate(base, attempt) && lookups == attempt + 1
      invariant attempt <= |taken|
      invariant forall i :: 0 <= i < attempt ==> Candidate(base, i) in taken
      decreases |taken| - attempt
    {
      TakenCandidates(taken, base, attempt + 1);
      slug := base + "-" + Decimal(attempt + 2);
      attempt := attempt + 1;
      lookups := lookups + 1;
    }
  }

  function SetOf(s: seq<string>): (r: set<string>)
    ensures |r| <= |s| && forall x :: x in r <==> x in s
  {
    if s == [] then {} else SetOf(s[..|s| - 1]) + {s[|s| - 1]}
  }
}
