/** The rule for hard limits as it is meant: no sliding window of `windowSeconds`
    sees more than `maxRequests + burst` requests. */
module RequestRule {
  import opened Arith
  import opened Bucket
  import RateBound
  import RateRule
  import opened DoCalls
  import opened Settings
  import Options
  import opened Circuit
  import Guarantees
  import opened Requests
  import opened Barrages

  /** No run whose ticks keep their distance sends more than `bound` requests in
      any half-open window of the given width. */
  ghost predicate NeverSendsMore(k: Config, width: int, bound: int)
    requires k.plan.Some?
  {
    forall s: State, from: int | Reachable(k, s) && RateBound.Timed(k.plan.value, s.bucket.log) ::
      SentDuring(s, from, width) <= bound
  }

  /** The least safe bound on requests; without a semaphore there is none. */
  lemma SharpRequestBound(k: Config, width: int, bound: int)
    requires k.Valid() && k.plan.Some? && k.maxRetries >= 0 && width > 0
    ensures NeverSendsMore(k, width, bound) <==> k.maxConcurrent > 0 && MostRequests(k, width) <= bound
  {
    hide Reachable, SentDuring, MostRequests, RateBound.Timed;
    if k.maxConcurrent > 0 && MostRequests(k, width) <= bound {
      forall s: State, from: int | Reachable(k, s) && RateBound.Timed(k.plan.value, s.bucket.log)
        ensures SentDuring(s, from, width) <= bound
      {
        RequestBound(k, s, from, width);
      }
    } else if k.maxConcurrent > 0 {
      var s, from := MostAreSent(k, width);
      assert SentDuring(s, from, width) > bound;
    } else {
      var s, from := AnyNumberIsSent(k, width, if bound < 0 then 0 else bound + 1);
      assert SentDuring(s, from, width) > bound;
    }
  }

  /** With a negative retry limit nothing is ever sent. */
  lemma NothingIsSent(k: Config, s: State, from: int, upto: int)
    requires k.Valid() && Reachable(k, s) && k.maxRetries < 0
    ensures SentIn(s.calls, from, upto) == {}
  {
    forall id | id in s.calls ensures s.calls[id].sends == [] {
      Guarantees.RetryLaw(k, s, id);
    }
    hide Reachable;
  }

  // -------------------------------------------------------------------------
  // The rule

  /** What a rounded-down interval, the coarse tick and the semaphore add to the
      requests of one window must not exceed what the cap takes from the burst. */
  predicate KeepsRequestRule(maxRequests: int, windowSeconds: int, burst: int, maxConcurrent: int)
    requires maxRequests > 0 && windowSeconds > 0
  {
    var interval := NominalInterval(maxRequests, windowSeconds);
    var slack := RateRule.Spare(maxRequests, burst) - maxConcurrent;
    && maxConcurrent > 0
    && if interval >= MIN_TOKEN_INTERVAL then windowSeconds * SECOND % maxRequests <= slack * interval
       else Min(BatchSize(maxRequests, windowSeconds), Capacity(maxRequests, burst)) * (40 * windowSeconds)
            <= maxRequests + slack
  }

  /** The configuration has a bucket of these parameters. */
  predicate HasRate(k: Config, maxRequests: int, windowSeconds: int, burst: int) {
    k.Valid() && maxRequests > 0 && windowSeconds > 0 && k.plan == MakePlan(maxRequests, windowSeconds, burst)
  }

  /** What the documentation promises. */
  ghost predicate RequestRuleHolds(k: Config, maxRequests: int, windowSeconds: int, burst: int)
    requires HasRate(k, maxRequests, windowSeconds, burst)
  {
    NeverSendsMore(k, windowSeconds * SECOND, maxRequests + Burst(maxRequests, burst))
  }

  lemma FineMost(k: Config, m: int, w: int, burst: int)
    requires HasRate(k, m, w, burst) && NominalInterval(m, w) >= MIN_TOKEN_INTERVAL
    ensures k.plan.value == Plan(Capacity(m, burst), 1, NominalInterval(m, w))
    ensures MostRequests(k, w * SECOND) <= m + Burst(m, burst)
            <==> w * SECOND % m <= (RateRule.Spare(m, burst) - k.maxConcurrent) * NominalInterval(m, w)
  {
    hide CeilDiv, BatchSize;
    RateRule.TicksPerWindow(w * SECOND, m, RateRule.Spare(m, burst) - k.maxConcurrent);
  }

  lemma CoarseMost(k: Config, m: int, w: int, burst: int)
    requires HasRate(k, m, w, burst) && NominalInterval(m, w) < MIN_TOKEN_INTERVAL
    ensures MostRequests(k, w * SECOND)
            == Capacity(m, burst) + Min(BatchSize(m, w), Capacity(m, burst)) * (40 * w) + k.maxConcurrent
  {
    hide CeilDiv, BatchSize, Capacity, NominalInterval, MakePlan;
    RateRule.CoarsePlan(m, w, burst);
    CeilDivIs(w * SECOND, CLAMPED_TICK, 40 * w);
  }

  lemma MostMeansRule(k: Config, m: int, w: int, burst: int)
    requires HasRate(k, m, w, burst)
    ensures k.plan.Some? && k.plan.value.interval > 0
    ensures KeepsRequestRule(m, w, burst, k.maxConcurrent)
            <==> k.maxConcurrent > 0 && MostRequests(k, w * SECOND) <= m + Burst(m, burst)
  {
    hide MostRequests, BatchSize;
    if NominalInterval(m, w) >= MIN_TOKEN_INTERVAL {
      FineMost(k, m, w, burst);
    } else {
      CoarseMost(k, m, w, burst);
    }
  }

  /** The documented rule for hard limits, about requests: it holds of exactly the
      configurations whose semaphore fits into the slack, and of those that never
      send anything. */
  lemma RequestRuleIff(k: Config, maxRequests: int, windowSeconds: int, burst: int)
    requires HasRate(k, maxRequests, windowSeconds, burst)
    ensures RequestRuleHolds(k, maxRequests, windowSeconds, burst)
            <==> k.maxRetries < 0 || KeepsRequestRule(maxRequests, windowSeconds, burst, k.maxConcurrent)
  {
    var width, bound := windowSeconds * SECOND, maxRequests + Burst(maxRequests, burst);
    MostMeansRule(k, maxRequests, windowSeconds, burst);
    hide Reachable, MostRequests, MakePlan, KeepsRequestRule;
    if k.maxRetries < 0 {
      hide SentIn;
      forall s: State, from: int | Reachable(k, s) && RateBound.Timed(k.plan.value, s.bucket.log)
        ensures SentDuring(s, from, width) <= bound
      {
        NothingIsSent(k, s, from, from + width);
      }
    } else {
      hide NeverSendsMore;
      SharpRequestBound(k, width, bound);
    }
  }

  /** While the interval is not coarsened and the burst is not capped, the rule
      never holds of a breaker that sends. What is safe instead, for `maxRequests`
      up to the interval, takes the semaphore and one more into account. */
  lemma FineTickNeedsMore(k: Config, maxRequests: int, windowSeconds: int, burst: int)
    requires HasRate(k, maxRequests, windowSeconds, burst) && k.maxRetries >= 0
    requires NominalInterval(maxRequests, windowSeconds) >= MIN_TOKEN_INTERVAL
    requires Burst(maxRequests, burst) <= MAX_BUCKET_CAPACITY
    ensures !RequestRuleHolds(k, maxRequests, windowSeconds, burst)
    ensures k.maxConcurrent > 0 && maxRequests <= NominalInterval(maxRequests, windowSeconds) ==>
              NeverSendsMore(k, windowSeconds * SECOND,
                             maxRequests + Burst(maxRequests, burst) + k.maxConcurrent + 1)
  {
    var i := NominalInterval(maxRequests, windowSeconds);
    hide RequestRuleHolds, NeverSendsMore, CeilDiv, BatchSize;
    RequestRuleIff(k, maxRequests, windowSeconds, burst);
    if k.maxConcurrent > 0 {
      Monotone(i, -k.maxConcurrent, -1);
      if maxRequests <= i {
        RateRule.TicksPerWindow(windowSeconds * SECOND, maxRequests, 1);
        SharpRequestBound(k, windowSeconds * SECOND, maxRequests + Burst(maxRequests, burst) + k.maxConcurrent + 1);
      }
    }
  }

  /** The configuration recommended for a limit of 200 per minute can send 201
      requests and one more for every slot of its semaphore. */
  lemma RecommendedConfigurationSends(k: Config, bound: int)
    requires HasRate(k, 199, 60, 1) && k.maxRetries >= 0
    ensures NeverSendsMore(k, 60 * SECOND, bound) <==> k.maxConcurrent > 0 && 201 + k.maxConcurrent <= bound
  {
    hide NeverSendsMore, CeilDiv;
    SharpRequestBound(k, 60 * SECOND, bound);
    CeilDivIs(60 * SECOND, 301_507_537, 200);
  }

  /** A configuration whose tokens keep the rule and whose requests keep no bound. */
  lemma NoBoundWithoutSemaphore(bound: int)
    ensures RateRule.KeepsRule(1, 1, 1)
    ensures HasRate(Options.Built(0, 1, 1, 0, [WithBurst(1)]), 1, 1, 1)
    ensures !NeverSendsMore(Options.Built(0, 1, 1, 0, [WithBurst(1)]), 1 * SECOND, bound)
  {
    hide NeverSendsMore;
    var os := [WithBurst(1)];
    Options.BuiltIsValid(0, 1, 1, 0, os);
    assert os[1..] == [];
    SharpRequestBound(Options.Built(0, 1, 1, 0, os), 1 * SECOND, bound);
  }

  /** With the coarse tick the rounding of a batch can make room for a semaphore:
      2499 per second with a burst of 100 keep the rule with at most 19 slots. */
  lemma CoarseTickCanComply(k: Config)
    requires HasRate(k, 2499, 1, 100) && k.maxRetries >= 0
    ensures RequestRuleHolds(k, 2499, 1, 100) <==> 1 <= k.maxConcurrent <= 19
  {
    hide RequestRuleHolds;
    RateRule.BatchSizeIs(2499, 1, 62);
    RequestRuleIff(k, 2499, 1, 100);
  }
}
