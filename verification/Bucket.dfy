/** The token bucket: its parameters, its legal histories, and how many tokens
    any window of time can see leave it. Times are nanoseconds. */
module Bucket {
  import opened Errors
  import opened Arith

  const MIN_TOKEN_INTERVAL := 1_000_000
  const CLAMPED_TICK := 25_000_000
  const MAX_BUCKET_CAPACITY := 1_000_000

  datatype Plan = Plan(capacity: int, perTick: int, interval: int) {
    predicate Valid() { 1 <= perTick <= capacity && interval > 0 }
  }

  /** `math.Round` for non-negative arguments: halves away from zero. */
  function Round(x: real): int { (x + 0.5).Floor }

  /** The burst asked for; without `WithBurst` it is the number of requests. */
  function Burst(maxRequests: int, burst: int): int { if burst > 0 then burst else maxRequests }

  function Capacity(maxRequests: int, burst: int): int {
    var c := Burst(maxRequests, burst);
    if c > MAX_BUCKET_CAPACITY then MAX_BUCKET_CAPACITY else c
  }

  function NominalInterval(maxRequests: int, windowSeconds: int): int
    requires maxRequests > 0
  {
    windowSeconds * SECOND / maxRequests
  }

  function BatchSize(maxRequests: int, windowSeconds: int): int
    requires windowSeconds > 0
  {
    Round(maxRequests as real / windowSeconds as real * 0.025)
  }

  /** `initTokenBucket`: no bucket at all without both rate parameters. */
  function MakePlan(maxRequests: int, windowSeconds: int, burst: int): Option<Plan> {
    if maxRequests <= 0 || windowSeconds <= 0 then None
    else
      var c := Capacity(maxRequests, burst);
      var interval := NominalInterval(maxRequests, windowSeconds);
      if interval < MIN_TOKEN_INTERVAL then
        var raw := BatchSize(maxRequests, windowSeconds);
        var atLeastOne := if raw < 1 then 1 else raw;
        Some(Plan(c, if atLeastOne > c then c else atLeastOne, CLAMPED_TICK))
      else Some(Plan(c, 1, interval))
  }

  lemma PlansAreValid(maxRequests: int, windowSeconds: int, burst: int)
    ensures var o := MakePlan(maxRequests, windowSeconds, burst);
            o.Some? ==> o.value.Valid() && o.value.interval >= MIN_TOKEN_INTERVAL
  {
  }

  /** With a coarsened tick the "at least one token" guard never fires, and a
      batch every 25 ms restores the nominal rate to within 2 percent. */
  lemma CoarseTickKeepsTheRate(maxRequests: int, windowSeconds: int)
    requires maxRequests > 0 && windowSeconds > 0
    requires NominalInterval(maxRequests, windowSeconds) < MIN_TOKEN_INTERVAL
    ensures maxRequests > 1000 * windowSeconds
    ensures BatchSize(maxRequests, windowSeconds) >= 25
    ensures var restored := 40 * windowSeconds * BatchSize(maxRequests, windowSeconds);
            -maxRequests <= 50 * (restored - maxRequests) <= maxRequests
  {
    DivUpper(windowSeconds * SECOND, maxRequests, MIN_TOKEN_INTERVAL);
    BatchSizeExactly(maxRequests, windowSeconds);
    var raw, unit := BatchSize(maxRequests, windowSeconds), 40 * windowSeconds;
    Monotone(unit, raw + 1, 25);
  }

  lemma DivUpper(n: int, d: int, bound: int)
    requires d > 0 && n / d < bound
    ensures n < bound * d
  {
    var q := n / d;
    assert n < d * (q + 1);
    Monotone(d, q + 1, bound);
  }

  /** Rounding num / den, over the integers. */
  lemma RoundOfQuotient(x: real, num: int, den: int)
    requires den > 0 && x * den as real == num as real
    ensures 2 * (Round(x) * den) <= 2 * num + den < 2 * (Round(x) * den) + 2 * den
  {
    Floored(x + 0.5);
    NearestInteger(Round(x), x, num, den);
  }

  lemma Floored(y: real)
    ensures y.Floor as real <= y < y.Floor as real + 1.0
  {
  }

  lemma NearestInteger(r: int, x: real, num: int, den: int)
    requires den > 0 && x * den as real == num as real && r as real <= x + 0.5 < r as real + 1.0
    ensures 2 * (r * den) <= 2 * num + den < 2 * (r * den) + 2 * den
  {
    ProductIsInteger(r, den);
    AtLeast(r as real, x, den as real, (r * den) as real, num as real);
    Below(r as real, x, den as real, (r * den) as real, num as real);
    FromReals(r * den, num, den);
  }

  lemma AtLeast(f: real, x: real, d: real, p: real, n: real)
    requires d > 0.0 && f <= x + 0.5 && p == f * d && n == x * d
    ensures p <= n + 0.5 * d
  {
    HalfMore(x, d, n);
    if f < x + 0.5 {
      Scaled(f, x + 0.5, d);
    }
  }

  lemma Below(f: real, x: real, d: real, p: real, n: real)
    requires d > 0.0 && x + 0.5 < f + 1.0 && p == f * d && n == x * d
    ensures n + 0.5 * d < p + d
  {
    HalfMore(x, d, n);
    OneMore(f, d, p);
    Scaled(x + 0.5, f + 1.0, d);
  }

  lemma Scaled(a: real, b: real, d: real)
    requires d > 0.0 && a < b
    ensures a * d < b * d
  {
    var gap := b - a;
    assert gap * d > 0.0;
    assert gap * d == b * d - a * d;
  }

  lemma HalfMore(x: real, d: real, n: real)
    requires n == x * d
    ensures (x + 0.5) * d == n + 0.5 * d
  {
  }

  lemma OneMore(f: real, d: real, p: real)
    requires p == f * d
    ensures (f + 1.0) * d == p + d
  {
  }

  lemma ProductIsInteger(a: int, b: int)
    ensures a as real * b as real == (a * b) as real
  {
  }

  lemma FromReals(p: int, num: int, den: int)
    requires p as real <= num as real + 0.5 * den as real < p as real + den as real
    ensures 2 * p <= 2 * num + den < 2 * p + 2 * den
  {
  }

  /** The rate times 0.025, scaled by 40 w. */
  lemma ScaledRate(m: int, w: int)
    requires w > 0
    ensures m as real / w as real * 0.025 * (40 * w) as real == m as real
  {
    var u := w as real;
    assert m as real / u * u == m as real;
    assert m as real / u * 0.025 * (40.0 * u) == m as real / u * u;
    assert (40 * w) as real == 40.0 * u;
  }

  /** The float expression is the integer nearest to m / 40w. */
  lemma BatchSizeExactly(m: int, w: int)
    requires w > 0
    ensures var raw := BatchSize(m, w); 40 * w * raw <= m + 20 * w < 40 * w * raw + 40 * w
  {
    var x, raw := m as real / w as real * 0.025, BatchSize(m, w);
    ScaledRate(m, w);
    RoundOfQuotient(x, m, 40 * w);
    assert raw * (40 * w) == 40 * w * raw;
  }

  /** The interval is coarsened exactly when the window has less than a million
      nanoseconds per request. */
  lemma CoarseIff(maxRequests: int, windowSeconds: int)
    requires maxRequests > 0
    ensures NominalInterval(maxRequests, windowSeconds) < MIN_TOKEN_INTERVAL
            <==> windowSeconds * 1_000_000_000 < 1_000_000 * maxRequests
  {
    var n, q := windowSeconds * 1_000_000_000, NominalInterval(maxRequests, windowSeconds);
    assert maxRequests * q <= n < maxRequests * q + maxRequests;
    Monotone(maxRequests, q + 1, 1_000_000);
    Monotone(maxRequests, 1_000_000, q);
  }

  /** How every bucket is sized. There is one exactly with both rate parameters. It
      holds the burst asked for, or else the number of requests, up to a million.
      With at least a million nanoseconds per request it gets one token per interval,
      the longest of which `maxRequests` fit the window; else every 25 ms the nearest
      whole number of tokens for that time, halves up, as long as it holds so many. */
  lemma SizeOfEveryBucket(maxRequests: int, windowSeconds: int, burst: int)
    ensures MakePlan(maxRequests, windowSeconds, burst).Some? <==> maxRequests > 0 && windowSeconds > 0
    ensures MakePlan(maxRequests, windowSeconds, burst).Some? ==>
              var p, m, w := MakePlan(maxRequests, windowSeconds, burst).value, maxRequests, windowSeconds;
              && p.capacity == Min(if burst > 0 then burst else m, 1_000_000)
              && if w * 1_000_000_000 >= 1_000_000 * m
                 then && p.perTick == 1
                      && p.interval * m <= w * 1_000_000_000 < (p.interval + 1) * m
                 else && p.interval == 25_000_000
                      && var n := BatchSize(m, w);
                         && 40 * w * n <= m + 20 * w < 40 * w * n + 40 * w
                         && p.perTick == Min(n, p.capacity)
  {
    var m, w := maxRequests, windowSeconds;
    if m > 0 && w > 0 {
      CoarseIff(m, w);
      if NominalInterval(m, w) < MIN_TOKEN_INTERVAL {
        CoarseTickKeepsTheRate(m, w);
        BatchSizeExactly(m, w);
      } else {
        NominalBounds(m, w);
      }
      hide BatchSize, NominalInterval;
    }
  }

  lemma NominalBounds(m: int, w: int)
    requires m > 0
    ensures var i := NominalInterval(m, w); i * m <= w * 1_000_000_000 < (i + 1) * m
  {
    var i := NominalInterval(m, w);
    assert i * m == m * i && (i + 1) * m == i * m + m;
  }
}
