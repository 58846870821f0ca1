/** The wait before a retry, in 64-bit arithmetic. */
module Backoff {
  import opened Arith

  const TWO62 := 0x4000_0000_0000_0000

  const DEFAULT_BACKOFF := 500_000_000
  const DEFAULT_BASE := 100_000_000

  datatype Policy = Fixed | Exponential(base: int, max: int, jitter: bool) {
    predicate Valid() { Exponential? ==> 0 < base <= max <= MAX_INT64 }
  }

  /** `WithExponentialBackoff`. */
  function Sanitise(base: int, max: int, jitter: bool): (p: Policy)
    requires base <= MAX_INT64 && max <= MAX_INT64
    ensures p.Exponential? && p.Valid() && p.jitter == jitter
    ensures p.base == (if base <= 0 then 100_000_000 else base) && p.max == (if max < p.base then p.base else max)
  {
    var b := if base <= 0 then DEFAULT_BASE else base;
    Exponential(b, if max < b then b else max, jitter)
  }

  function Pow2(n: nat): int { if n == 0 then 1 else 2 * Pow2(n - 1) }

  /** As documented: the base doubled `attempt` times, at most the maximum. */
  function Ideal(base: int, max: int, attempt: nat): int { Min(max, base * Pow2(attempt)) }

  /** The doubling loop, on a machine word. */
  function Doubled(d: int, max: int, n: nat): int
    decreases n
  {
    if n == 0 || d >= max then d else Doubled(Wrap(2 * d), max, n - 1)
  }

  function Cap(d: int, max: int): int { if d <= 0 || d > max then max else d }

  function Capped(base: int, max: int, attempt: nat): int { Cap(Doubled(base, max, attempt), max) }

  /** The waits that `backoffFor` may return. */
  predicate Possible(p: Policy, attempt: nat, d: int) {
    match p
    case Fixed => d == DEFAULT_BACKOFF
    case Exponential(base, max, jitter) =>
      var c := Capped(base, max, attempt);
      if jitter && c > 1 then c / 2 <= d < c / 2 + c / 2 else d == c
  }

  /** `backoffFor`. */
  method BackoffFor(p: Policy, attempt: nat) returns (d: int)
    ensures Possible(p, attempt, d)
  {
    if p.Fixed? {
      return DEFAULT_BACKOFF;
    }
    d := p.base;
    var i := 0;
    while i < attempt && d < p.max
      invariant 0 <= i <= attempt
      invariant Doubled(d, p.max, attempt - i) == Doubled(p.base, p.max, attempt)
    {
      d := Wrap(d * 2);
      i := i + 1;
    }
    if d <= 0 || d > p.max {
      d := p.max;
    }
    if p.jitter && d > 1 {
      var half := d / 2;
      var r: int :| 0 <= r < half;
      d := half + r;
    }
  }

  lemma {:induction false} Pow2Positive(n: nat)
    ensures Pow2(n) >= 1
  {
    if n > 0 {
      Pow2Positive(n - 1);
    }
  }

  lemma PowZero()
    ensures Pow2(0) == 1
  {
  }

  lemma ScaledPow2(d: int, n: nat)
    requires d > 0
    ensures d * Pow2(n) >= d
    ensures n > 0 ==> d * Pow2(n) == (2 * d) * Pow2(n - 1)
  {
    Pow2Positive(n);
    assert d * (Pow2(n) - 1) >= 0;
  }

  /** The most negative word doubles to zero and stays there. */
  lemma {:induction false} LowestWordIsCapped(d: int, max: int, n: nat)
    requires max > 0 && (d == -TWO63 || d == 0)
    ensures Doubled(d, max, n) <= 0
    decreases n
  {
    if n > 0 {
      LowestWordIsCapped(Wrap(2 * d), max, n - 1);
    }
  }

  /** Doubling a word: exact below 2^62, and the most negative word at 2^62. */
  lemma DoublingWraps(d: int)
    ensures 0 < d < TWO62 ==> Wrap(2 * d) == 2 * d
    ensures d == TWO62 ==> Wrap(2 * d) == -TWO63
  {
    WrapRange(2 * d);
  }

  lemma {:induction false} NoOverflow(d: int, max: int, n: nat)
    requires 0 < d < TWO63 && 0 < max <= TWO62 + 1
    ensures Cap(Doubled(d, max, n), max) == Min(max, d * Pow2(n))
    decreases n
  {
    hide Wrap, Pow2;
    ScaledPow2(d, n);
    if n == 0 {
      PowZero();
    } else if d < max {
      DoublingWraps(d);
      if d < TWO62 {
        NoOverflow(2 * d, max, n - 1);
      } else {
        LowestWordIsCapped(-TWO63, max, n - 1);
        ScaledPow2(2 * d, n - 1);
      }
    }
  }

  /** The wait is the documented one for every base and attempt exactly when the
      maximum is at most 2^62 + 1 ns; above that the doubled word can wrap twice
      and come back small and positive. */
  lemma CappedIsIdealIff(max: int)
    requires 0 < max <= MAX_INT64
    ensures (forall base: int, attempt: nat | 0 < base <= max ::
               Capped(base, max, attempt) == Ideal(base, max, attempt))
            <==> max <= TWO62 + 1
  {
    if max <= TWO62 + 1 {
      forall base: int, attempt: nat | 0 < base <= max
        ensures Capped(base, max, attempt) == Ideal(base, max, attempt)
      {
        NoOverflow(base, max, attempt);
      }
    } else {
      var base := TWO62 + 1;
      var first := Wrap(2 * base);
      assert first == 2 - TWO63 && Wrap(2 * first) == 4;
      assert Doubled(base, max, 2) == Doubled(first, max, 1) == Doubled(4, max, 0) == 4;
      assert Pow2(2) == 4;
      assert Capped(base, max, 2) == 4 && Ideal(base, max, 2) == max;
    }
  }

  /** The waits that are possible: without exponential backoff half a second; with it
      the documented wait, and with jitter all those from the half of it, rounded
      down, to short of twice that half, and no others. All are positive. */
  lemma WaitRange(p: Policy, attempt: nat, d: int)
    requires p.Valid()
    ensures Possible(p, attempt, d) ==> 0 < d
    ensures p.Fixed? ==> (Possible(p, attempt, d) <==> d == 500_000_000)
    ensures p.Exponential? && p.max <= TWO62 + 1 ==>
              var ideal := Min(p.max, p.base * Pow2(attempt));
              Possible(p, attempt, d)
              <==> if p.jitter && ideal > 1 then ideal / 2 <= d < 2 * (ideal / 2) else d == ideal
  {
    if p.Exponential? && p.max <= TWO62 + 1 {
      NoOverflow(p.base, p.max, attempt);
    }
  }

  lemma SomeWait(p: Policy, attempt: nat) returns (d: int)
    ensures Possible(p, attempt, d)
  {
    if p.Fixed? {
      d := DEFAULT_BACKOFF;
    } else {
      var c := Capped(p.base, p.max, attempt);
      d := if p.jitter && c > 1 then c / 2 else c;
    }
  }
}
