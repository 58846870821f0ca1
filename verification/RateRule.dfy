/** The rule for hard limits, `maxRequests + burst <= L` per window of
    `windowSeconds`, read as one about tokens that leave the bucket: for which
    configurations it is safe, and by how much the others miss. What becomes of it
    when requests are counted is in `RequestRule`. */
module RateRule {
  import opened Errors
  import opened Arith
  import opened Bucket
  import opened RateBound

  /** Tokens that left in the window of that width starting at `from`. */
  function Passed(log: seq<Ev>, from: int, width: int): nat { Within(log, Takes, from, from + width) }

  /** No legal, well-timed history lets more than `bound` tokens out in any
      half-open window of the given width. */
  ghost predicate NeverMoreThan(p: Plan, width: int, bound: int) {
    forall log: seq<Ev>, from: int :: Legal(p, log) && Ordered(log) && Timed(p, log) ==>
      Passed(log, from, width) <= bound
  }

  /** The least safe bound. */
  lemma SharpBound(p: Plan, width: int, bound: int)
    requires p.Valid() && width > 0
    ensures NeverMoreThan(p, width, bound) <==> p.capacity + p.perTick * CeilDiv(width, p.interval) <= bound
  {
    if p.capacity + p.perTick * CeilDiv(width, p.interval) <= bound {
      forall log: seq<Ev>, from: int | Legal(p, log) && Ordered(log) && Timed(p, log)
        ensures Passed(log, from, width) <= bound
      {
        WindowBound(p, log, from, width);
      }
    } else {
      BoundIsReached(p, 0, width);
      var log := Barrage(p, 0, CeilDiv(width, p.interval));
      assert Passed(log, 0, width) > bound;
    }
  }

  /** With the coarse tick the window divides evenly; one window passes at most
      the capacity and 40 batches a second, within 2 percent of the rate. */
  lemma CoarseTickRule(maxRequests: int, windowSeconds: int, burst: int, bound: int)
    requires maxRequests > 0 && windowSeconds > 0
    requires NominalInterval(maxRequests, windowSeconds) < MIN_TOKEN_INTERVAL
    ensures var p := MakePlan(maxRequests, windowSeconds, burst).value;
            && (NeverMoreThan(p, windowSeconds * SECOND, bound)
                <==> p.capacity + p.perTick * (40 * windowSeconds) <= bound)
            && 50 * (p.perTick * (40 * windowSeconds)) <= 51 * maxRequests
            && (BatchSize(maxRequests, windowSeconds) <= p.capacity
                ==> 49 * maxRequests <= 50 * (p.perTick * (40 * windowSeconds)))
  {
    var p := MakePlan(maxRequests, windowSeconds, burst).value;
    PlansAreValid(maxRequests, windowSeconds, burst);
    CoarseTickKeepsTheRate(maxRequests, windowSeconds);
    CeilDivIs(windowSeconds * SECOND, CLAMPED_TICK, 40 * windowSeconds);
    SharpBound(p, windowSeconds * SECOND, bound);
    Monotone(40 * windowSeconds, p.perTick, BatchSize(maxRequests, windowSeconds));
  }

  /** What the cap on the capacity takes from the burst. */
  function Spare(maxRequests: int, burst: int): int {
    Burst(maxRequests, burst) - Capacity(maxRequests, burst)
  }

  /** Which configurations stay within the rule for tokens: as long as the
      interval is not coarsened, those whose rounding error per window is made up
      for by the cap, in particular those whose `maxRequests` divides the window;
      with the coarse tick, those whose batches of a window make up no more than
      `maxRequests` and the spare. */
  predicate KeepsRule(maxRequests: int, windowSeconds: int, burst: int)
    requires maxRequests > 0 && windowSeconds > 0
  {
    var interval, spare := NominalInterval(maxRequests, windowSeconds), Spare(maxRequests, burst);
    if interval >= MIN_TOKEN_INTERVAL then windowSeconds * SECOND % maxRequests <= spare * interval
    else
      var raw, c := BatchSize(maxRequests, windowSeconds), Capacity(maxRequests, burst);
      (if raw < c then raw else c) * (40 * windowSeconds) <= maxRequests + spare
  }

  lemma CeilAtMost(i: int, m: int, r: int, s: int)
    requires i > 0
    ensures CeilDiv(i * m + r, i) <= m + s <==> r <= s * i
  {
    var c := CeilDiv(i * m + r, i);
    CeilDivBounds(i * m + r, i);
    assert i * (m + s) == i * m + s * i;
    assert c * i == i * c && (c - 1) * i == i * (c - 1);
    Monotone(i, c, m + s);
    Monotone(i, m + s, c - 1);
  }

  /** Ticks of an interval that was rounded down to whole units, per window. */
  lemma TicksPerWindow(width: int, m: int, s: int)
    requires m > 0 && width / m > 0
    ensures CeilDiv(width, width / m) <= m + s <==> width % m <= s * (width / m)
  {
    var i, r := width / m, width % m;
    assert m * i == i * m && width == i * m + r;
    CeilAtMost(i, m, r, s);
  }

  /** What the rule promises, of tokens. */
  ghost predicate RuleHolds(maxRequests: int, windowSeconds: int, burst: int)
    requires maxRequests > 0 && windowSeconds > 0
  {
    NeverMoreThan(MakePlan(maxRequests, windowSeconds, burst).value, windowSeconds * SECOND,
                  maxRequests + Burst(maxRequests, burst))
  }

  lemma FineRule(maxRequests: int, windowSeconds: int, burst: int)
    requires maxRequests > 0 && windowSeconds > 0
    requires NominalInterval(maxRequests, windowSeconds) >= MIN_TOKEN_INTERVAL
    ensures RuleHolds(maxRequests, windowSeconds, burst) <==> KeepsRule(maxRequests, windowSeconds, burst)
  {
    hide NeverMoreThan, BatchSize, CeilDiv;
    var p, window := MakePlan(maxRequests, windowSeconds, burst).value, windowSeconds * SECOND;
    assert p == Plan(Capacity(maxRequests, burst), 1, NominalInterval(maxRequests, windowSeconds));
    SharpBound(p, window, maxRequests + Burst(maxRequests, burst));
    TicksPerWindow(window, maxRequests, Spare(maxRequests, burst));
  }

  lemma CoarsePlan(maxRequests: int, windowSeconds: int, burst: int)
    requires maxRequests > 0 && windowSeconds > 0
    requires NominalInterval(maxRequests, windowSeconds) < MIN_TOKEN_INTERVAL
    ensures var raw, c := BatchSize(maxRequests, windowSeconds), Capacity(maxRequests, burst);
            MakePlan(maxRequests, windowSeconds, burst) == Some(Plan(c, if raw < c then raw else c, CLAMPED_TICK))
  {
    CoarseTickKeepsTheRate(maxRequests, windowSeconds);
  }

  lemma CoarseRule(maxRequests: int, windowSeconds: int, burst: int)
    requires maxRequests > 0 && windowSeconds > 0
    requires NominalInterval(maxRequests, windowSeconds) < MIN_TOKEN_INTERVAL
    ensures RuleHolds(maxRequests, windowSeconds, burst) <==> KeepsRule(maxRequests, windowSeconds, burst)
  {
    hide NeverMoreThan, BatchSize;
    CoarsePlan(maxRequests, windowSeconds, burst);
    CoarseTickRule(maxRequests, windowSeconds, burst, maxRequests + Burst(maxRequests, burst));
  }

  /** The rule for hard limits, about tokens: no more than `maxRequests + burst` of
      them leave in any sliding window. It holds of exactly these configurations. */
  lemma HardLimitRule(maxRequests: int, windowSeconds: int, burst: int)
    requires maxRequests > 0 && windowSeconds > 0
    ensures RuleHolds(maxRequests, windowSeconds, burst) <==> KeepsRule(maxRequests, windowSeconds, burst)
  {
    hide *;
    if NominalInterval(maxRequests, windowSeconds) >= MIN_TOKEN_INTERVAL {
      FineRule(maxRequests, windowSeconds, burst);
    } else {
      CoarseRule(maxRequests, windowSeconds, burst);
    }
  }

  /** Short of the cap and of the coarse tick the rule is about divisibility, and
      a configuration that breaks it does so by one token as long as `maxRequests`
      is at most the interval. */
  lemma DivisibilityRule(maxRequests: int, windowSeconds: int, burst: int)
    requires maxRequests > 0 && windowSeconds > 0
    ensures var p, window := MakePlan(maxRequests, windowSeconds, burst).value, windowSeconds * SECOND;
            NominalInterval(maxRequests, windowSeconds) >= MIN_TOKEN_INTERVAL ==>
              && (Burst(maxRequests, burst) <= MAX_BUCKET_CAPACITY ==>
                    (KeepsRule(maxRequests, windowSeconds, burst) <==> window % maxRequests == 0))
              && (maxRequests <= p.interval ==> NeverMoreThan(p, window, maxRequests + p.capacity + 1))
  {
    var p, window := MakePlan(maxRequests, windowSeconds, burst).value, windowSeconds * SECOND;
    if NominalInterval(maxRequests, windowSeconds) >= MIN_TOKEN_INTERVAL {
      PlansAreValid(maxRequests, windowSeconds, burst);
      TicksPerWindow(window, maxRequests, 1);
      SharpBound(p, window, maxRequests + p.capacity + 1);
    }
  }

  /** The configuration recommended for a limit of 200 per minute passes 201 tokens. */
  lemma RecommendedConfigurationExceeds()
    ensures MakePlan(199, 60, 1) == Some(Plan(1, 1, 301_507_537))
    ensures NeverMoreThan(Plan(1, 1, 301_507_537), 60 * SECOND, 201)
    ensures !NeverMoreThan(Plan(1, 1, 301_507_537), 60 * SECOND, 200)
  {
    HardLimitRule(199, 60, 1);
    DivisibilityRule(199, 60, 1);
  }

  /** A coarse tick can break the rule although `maxRequests` divides the window:
      2500 per second with a burst of 100 pass 2620 tokens, not just 2600. */
  lemma CoarseTickExceeds()
    ensures 1 * SECOND % 2500 == 0
    ensures MakePlan(2500, 1, 100) == Some(Plan(100, 63, CLAMPED_TICK))
    ensures NeverMoreThan(Plan(100, 63, CLAMPED_TICK), 1 * SECOND, 2620)
    ensures !NeverMoreThan(Plan(100, 63, CLAMPED_TICK), 1 * SECOND, 2619)
    ensures !KeepsRule(2500, 1, 100)
  {
    BatchSizeIs(2500, 1, 63);
    CoarseTickRule(2500, 1, 100, 2620);
    CoarseTickRule(2500, 1, 100, 2619);
  }

  lemma BatchSizeIs(m: int, w: int, raw: int)
    requires w > 0 && 40 * w * raw <= m + 20 * w < 40 * w * raw + 40 * w
    ensures BatchSize(m, w) == raw
  {
    BatchSizeExactly(m, w);
    var b := BatchSize(m, w);
    Monotone(40 * w, b + 1, raw);
    Monotone(40 * w, raw + 1, b);
    Monotone(40 * w, b, b);
    Monotone(40 * w, raw, raw);
  }

  /** And a burst above the cap can keep it although `maxRequests` does not. */
  lemma CappedBurstComplies()
    ensures 60 * SECOND % 7 != 0 && KeepsRule(7, 60, 2_000_000)
    ensures NeverMoreThan(MakePlan(7, 60, 2_000_000).value, 60 * SECOND, 7 + 2_000_000)
  {
    HardLimitRule(7, 60, 2_000_000);
  }
}
