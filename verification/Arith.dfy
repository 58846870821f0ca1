/** Machine words, and the few facts of integer arithmetic that the solver needs
    spelled out. */
module Arith {
  const TWO63 := 0x8000_0000_0000_0000
  const TWO64 := 0x1_0000_0000_0000_0000
  const MAX_INT64 := TWO63 - 1

  const SECOND := 1_000_000_000 // in nanoseconds

  function Min(a: int, b: int): int { if a < b then a else b }

  /** What the low 64 bits of an integer stand for. */
  function Wrap(x: int): int { (x + TWO63) % TWO64 - TWO63 }

  predicate IsWord(x: int) { -TWO63 <= x <= MAX_INT64 }

  /** Wrapping yields a word, keeps words, and takes what is too large below zero
      unless it is far too large. */
  lemma WrapRange(x: int)
    ensures IsWord(Wrap(x))
    ensures IsWord(x) <==> Wrap(x) == x
    ensures x >= 0 ==> Wrap(x) <= x
    ensures MAX_INT64 < x <= 2 * MAX_INT64 + 1 ==> Wrap(x) < 0
  {
  }

  lemma Monotone(k: int, a: int, b: int)
    requires k >= 0
    ensures a <= b ==> k * a <= k * b
    ensures k * (a + 1) == k * a + k
  {
    if a <= b {
      assert k * (b - a) >= 0;
    }
  }

  lemma FitsInQuotient(n: int, d: int, total: int)
    requires d > 0 && n * d <= total
    ensures n <= total / d
  {
    var q := total / d;
    Monotone(d, q + 1, n);
    assert total < d * (q + 1);
  }

  /** Quotient rounded up. */
  function CeilDiv(n: int, d: int): int
    requires d > 0
  {
    (n + d - 1) / d
  }

  lemma CeilDivBounds(n: int, d: int)
    requires d > 0
    ensures (CeilDiv(n, d) - 1) * d < n <= CeilDiv(n, d) * d
    ensures n >= 0 ==> CeilDiv(n, d) >= 0
  {
    var q := (n + d - 1) / d;
    assert q * d <= n + d - 1 < q * d + d;
    assert (q - 1) * d == q * d - d;
  }

  /** The quotient rounded up is the number with those bounds. */
  lemma CeilDivIs(n: int, d: int, q: int)
    requires d > 0 && (q - 1) * d < n <= q * d
    ensures CeilDiv(n, d) == q
  {
    CeilDivBounds(n, d);
    var c := CeilDiv(n, d);
    Monotone(d, c, q - 1);
    Monotone(d, q, c - 1);
  }

  /** At most that many points a distance `d` apart fit in a half-open width. */
  lemma SpreadFits(n: int, d: int, width: int)
    requires d > 0 && width >= 0 && (n >= 1 ==> (n - 1) * d < width)
    ensures n <= CeilDiv(width, d)
  {
    CeilDivBounds(width, d);
    Monotone(d, CeilDiv(width, d), n - 1);
  }
}
