/** `withRetry`: exponential backoff around a function that may fail on each attempt. */
module Retries {
  import opened Common

  datatype RetryOptions = RetryOptions(maxAttempts: int, baseDelayMs: real, factor: real)

  /** How one attempt, or the whole retry sequence, ended. `Threw(None)` is a thrown `undefined`. */
  datatype Outcome<+T, +E> = Returned(value: T) | Threw(error: Option<E>)

  function Pow(x: real, n: nat): real {
    if n == 0 then 1.0 else x * Pow(x, n - 1)
  }

  /** The wait after the (i+1)-th failed attempt. */
  function Delay(options: RetryOptions, i: nat): real {
    options.baseDelayMs * Pow(options.factor, i)
  }

  /** The waits are base, base * factor, base * factor^2, ... */
  predicate Backoff(options: RetryOptions, sleeps: seq<real>) {
    forall i :: 0 <= i < |sleeps| ==> sleeps[i] == Delay(options, i)
  }

  function Sum(s: seq<real>): real {
    if s == [] then 0.0 else Sum(s[..|s| - 1]) + s[|s| - 1]
  }

  /**
   * `fn(i)` is what the i-th call (from 1) of the wrapped function does. `calls` and `sleeps` record
   * how often it was called and every wait that was requested, in order.
   */
  method WithRetry<T, E>(fn: int -> Outcome<T, E>, options: RetryOptions)
    returns (r: Outcome<T, E>, calls: nat, sleeps: seq<real>)
    ensures calls <= Max(0, options.maxAttempts)
    // the first success is returned and nothing is called after it
    ensures r.Returned? ==> 1 <= calls && r == fn(calls)
    ensures forall i :: 1 <= i < calls ==> fn(i).Threw?
    // otherwise every attempt failed and the last error is thrown
    ensures r.Threw? ==> calls == Max(0, options.maxAttempts)
    ensures r.Threw? ==> r == if calls == 0 then Threw(None) else fn(calls)
    // one wait after each failed attempt that is not the last one allowed
    ensures |sleeps| == Max(0, calls - 1)
    ensures Backoff(options, sleeps)
    ensures Sum(sleeps) * (options.factor - 1.0) ==
            options.baseDelayMs * (Pow(options.factor, Max(0, calls - 1)) - 1.0)
  {
    var lastError: Option<E> := None;
    calls, sleeps := 0, [];
    var attempt := 1;
    while attempt <= options.maxAttempts
      invariant 1 <= attempt <= Max(0, options.maxAttempts) + 1
      invariant calls == attempt - 1
      invariant forall i :: 1 <= i < attempt ==> fn(i).Threw?
      invariant lastError == if calls == 0 then None else fn(calls).error
      invariant |sleeps| == Min(calls, Max(0, options.maxAttempts - 1))
      invariant Backoff(options, sleeps)
    {
      var tried := fn(attempt);
      calls := calls + 1;
      if tried.Returned? {
        TotalBackoff(options, sleeps);
        return tried, calls, sleeps;
      }
      lastError := tried.error;
      if attempt < options.maxAttempts {
        sleeps := sleeps + [Delay(options, attempt - 1)];
      }
      attempt := attempt + 1;
    }
    TotalBackoff(options, sleeps);
    r := Threw(lastError);
  }

  // ---- The same, as a function: what a caller that cannot see the loop reasons with ----

  /** The number of the first attempt that succeeds, or maxAttempts when none does. */
  function CallsMade<T, E>(fn: int -> Outcome<T, E>, maxAttempts: int, from: nat): (n: nat)
    requires from <= Max(0, maxAttempts)
    ensures from <= n <= Max(0, maxAttempts)
    ensures forall i :: from < i < n ==> fn(i).Threw?
    ensures n < Max(0, maxAttempts) ==> n > from && fn(n).Returned?
    decreases maxAttempts - from
  {
    if from >= maxAttempts then from
    else if fn(from + 1).Returned? then from + 1
    else CallsMade(fn, maxAttempts, from + 1)
  }

  /**
   * The result of `WithRetry` is determined by `fn` alone: it returns iff some allowed attempt
   * succeeds, and any two runs that meet its contract agree.
   */
  lemma RetryOutcome<T, E>(fn: int -> Outcome<T, E>, options: RetryOptions, r: Outcome<T, E>, calls: nat)
    requires calls <= Max(0, options.maxAttempts)
    requires r.Returned? ==> 1 <= calls && r == fn(calls)
    requires forall i :: 1 <= i < calls ==> fn(i).Threw?
    requires r.Threw? ==> calls == Max(0, options.maxAttempts)
    requires r.Threw? ==> r == if calls == 0 then Threw(None) else fn(calls)
    ensures calls == CallsMade(fn, options.maxAttempts, 0)
    ensures r.Returned? <==> exists i :: 1 <= i <= options.maxAttempts && fn(i).Returned?
  {
  }

  lemma {:induction false} TotalBackoff(options: RetryOptions, sleeps: seq<real>)
    requires Backoff(options, sleeps)
    ensures Sum(sleeps) * (options.factor - 1.0) == options.baseDelayMs * (Pow(options.factor, |sleeps|) - 1.0)
  {
    if sleeps == [] {
      assert Pow(options.factor, |sleeps|) - 1.0 == 0.0;
      assert Sum(sleeps) == 0.0;
    } else {
      var n := |sleeps| - 1;
      TotalBackoff(options, sleeps[..n]);
      BackoffStep(Sum(sleeps[..n]), options.baseDelayMs, Pow(options.factor, n), options.factor);
    }
  }

  /** The closed form of the total wait: a geometric sum, or a multiple of the base when factor is 1. */
  lemma {:induction false} TotalBackoffClosedForm(options: RetryOptions, sleeps: seq<real>)
    requires Backoff(options, sleeps)
    ensures options.factor != 1.0 ==>
              Sum(sleeps) == options.baseDelayMs * (Pow(options.factor, |sleeps|) - 1.0) / (options.factor - 1.0)
    ensures options.factor == 1.0 ==> Sum(sleeps) == options.baseDelayMs * |sleeps| as real
  {
    if options.factor != 1.0 {
      TotalBackoff(options, sleeps);
      DivideOut(Sum(sleeps), options.factor - 1.0, options.baseDelayMs * (Pow(options.factor, |sleeps|) - 1.0));
    } else {
      ConstantBackoff(options, sleeps);
    }
  }

  lemma {:induction false} ConstantBackoff(options: RetryOptions, sleeps: seq<real>)
    requires Backoff(options, sleeps) && options.factor == 1.0
    ensures Sum(sleeps) == options.baseDelayMs * |sleeps| as real
  {
    if sleeps != [] {
      var n := |sleeps| - 1;
      ConstantBackoff(options, sleeps[..n]);
      PowOne(n);
    }
  }

  lemma {:induction false} PowOne(n: nat)
    ensures Pow(1.0, n) == 1.0
  {
    if n > 0 {
      PowOne(n - 1);
    }
  }

  lemma BackoffStep(total: real, b: real, p: real, f: real)
    requires total * (f - 1.0) == b * (p - 1.0)
    ensures (total + b * p) * (f - 1.0) == b * (f * p - 1.0)
  {
  }

  lemma DivideOut(x: real, d: real, y: real)
    requires d != 0.0 && x * d == y
    ensures x == y / d
  {
  }
}
