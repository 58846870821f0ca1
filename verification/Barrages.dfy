/** Barrages of requests: how many requests one window can see, and that it can. */
module Barrages {
  import opened Arith
  import RateBound
  import opened DoCalls
  import opened Circuit
  import opened Requests
  import opened Steering

  /** There is room for `n` more calls. */
  predicate Room(k: Config, p: Pose, n: nat) { k.maxConcurrent > 0 ==> |p.ready| + n <= k.maxConcurrent }

  /** Between two batches, with no call on its way. */
  predicate Between(k: Config, s: State, p: Pose) {
    p.busy == {} && p.left == 0 && s.clock <= p.next && s.gate <= s.clock
  }

  /** Waits for a token if one is needed and there is none. */
  lemma WaitsForToken(k: Config, s: State, p: Pose) returns (d: State, q: Pose)
    requires Posed(k, s, p) && Between(k, s, p)
    ensures Posed(k, d, q) && Between(k, d, q) && q.ready == p.ready && (k.plan.Some? ==> q.tokens > 0)
    ensures d.calls == s.calls && d.gate == s.gate
    ensures s.clock <= d.clock && (s.clock == p.next || k.plan.None? ==> d.clock == s.clock)
  {
    assert k.plan.Some? ==> k.plan.value.Valid() && p.tokens >= 0;
    hide Posed;
    d, q := s, p;
    if k.plan.Some? && p.tokens == 0 {
      d := Ticks(k, s, p);
      q := p.(tokens := Min(k.plan.value.capacity, p.tokens + k.plan.value.perTick),
              next := p.next + k.plan.value.interval);
    }
  }

  /** One more call holds a token. */
  lemma GathersOne(k: Config, s: State, p: Pose) returns (d: State, q: Pose)
    requires Posed(k, s, p) && Between(k, s, p) && Room(k, p, 1)
    ensures Posed(k, d, q) && Between(k, d, q) && |q.ready| == |p.ready| + 1
    ensures SameSends(s.calls, d.calls) && d.gate == s.gate && (k.plan.None? ==> d.clock == s.clock)
  {
    hide Posed, SameSends;
    var there, at := WaitsForToken(k, s, p);
    var id;
    d, id := Hold(k, there, at);
    q := at.(ready := at.ready + {id}, tokens := at.tokens - 1);
  }

  /** Any number of calls that fit the semaphore can hold a token at the same time. */
  lemma {:induction false} Gathers(k: Config, s: State, p: Pose, n: nat) returns (d: State, q: Pose)
    requires Posed(k, s, p) && Between(k, s, p) && Room(k, p, n)
    ensures Posed(k, d, q) && Between(k, d, q) && |q.ready| == |p.ready| + n
    ensures SameSends(s.calls, d.calls) && d.gate == s.gate && (k.plan.None? ==> d.clock == s.clock)
    decreases n
  {
    hide Posed, SentIn;
    d, q := s, p;
    if n > 0 {
      hide SameSends;
      var one, at := GathersOne(k, s, p);
      d, q := Gathers(k, one, at, n - 1);
      SendsChain(s.calls, one.calls, d.calls);
    }
  }

  /** While they wait the bucket fills up again. */
  lemma {:induction false} FillsUp(k: Config, s: State, p: Pose) returns (d: State, q: Pose)
    requires Posed(k, s, p) && Between(k, s, p) && k.plan.Some? && p.tokens <= k.plan.value.capacity
    ensures Posed(k, d, q) && Between(k, d, q) && q == p.(tokens := k.plan.value.capacity, next := q.next)
    ensures d.calls == s.calls
    decreases k.plan.value.capacity - p.tokens
  {
    assert k.plan.value.Valid();
    hide Posed;
    d, q := s, p;
    if p.tokens < k.plan.value.capacity {
      var ticked := Ticks(k, s, p);
      d, q := FillsUp(k, ticked, p.(tokens := Min(k.plan.value.capacity, p.tokens + k.plan.value.perTick),
                                    next := p.next + k.plan.value.interval));
    }
  }

  /** All that hold a token send. */
  lemma {:induction false} AllShoot(k: Config, s: State, p: Pose) returns (d: State)
    requires Posed(k, s, p)
    ensures Posed(k, d, p.(ready := {})) && d.clock == s.clock && d.gate == s.gate
    ensures Adds(s.calls, d.calls, s.clock, |p.ready|)
    decreases |p.ready|
  {
    hide Posed, SentIn;
    d := s;
    if p.ready != {} {
      hide Adds;
      var id :| id in p.ready;
      var shot := ShootAndLeave(k, s, p, id);
      d := AllShoot(k, shot, p.(ready := p.ready - {id}));
      AddsChain(s.calls, shot.calls, d.calls, s.clock, 1, |p.ready| - 1);
    } else {
      assert p.(ready := {}) == p;
    }
  }

  /** New calls take tokens and send at once. */
  lemma {:induction false} ManySend(k: Config, s: State, p: Pose, n: nat) returns (d: State)
    requires Posed(k, s, p) && s.gate <= s.clock && k.plan.Some? && p.tokens >= n && p.ready == p.busy == {}
    ensures Posed(k, d, p.(tokens := p.tokens - n)) && d.clock == s.clock && d.gate == s.gate
    ensures Adds(s.calls, d.calls, s.clock, n)
    decreases n
  {
    hide Posed, SentIn;
    d := s;
    if n > 0 {
      hide Adds;
      var sent := SendOne(k, s, p);
      d := ManySend(k, sent, p.(tokens := p.tokens - 1), n - 1);
      AddsChain(s.calls, sent.calls, d.calls, s.clock, 1, n - 1);
    } else {
      assert p.(tokens := p.tokens - n) == p;
    }
  }

  /** A tick, and every token of its batch sent at once. */
  lemma Round(k: Config, s: State, p: Pose) returns (d: State)
    requires Posed(k, s, p) && Between(k, s, p) && k.plan.Some? && p.tokens == 0 && p.ready == {}
    ensures var q := p.(next := p.next + k.plan.value.interval);
            Posed(k, d, q) && Between(k, d, q) && d.clock == p.next
    ensures Adds(s.calls, d.calls, p.next, k.plan.value.perTick)
  {
    assert k.plan.value.Valid();
    hide Posed, Adds;
    var ticked := Ticks(k, s, p);
    var q := p.(tokens := k.plan.value.perTick, next := p.next + k.plan.value.interval);
    d := ManySend(k, ticked, q, k.plan.value.perTick);
    assert q.(tokens := q.tokens - k.plan.value.perTick) == p.(next := p.next + k.plan.value.interval);
  }

  lemma OneRoundMore(calls: Calls, next: Calls, at: int, n: nat, from: int, upto: int)
    requires Adds(calls, next, at, n) && from <= at < upto
    ensures |SentIn(next, from, upto)| == |SentIn(calls, from, upto)| + n
  {
    hide SentIn;
  }

  /** Round after round, as fast as the ticker allows. */
  lemma {:induction false} Rounds(k: Config, s: State, p: Pose, n: nat, from: int, upto: int) returns (d: State)
    requires Posed(k, s, p) && Between(k, s, p) && k.plan.Some? && p.tokens == 0 && p.ready == {}
    requires from <= p.next && (n > 0 ==> p.next + (n - 1) * k.plan.value.interval < upto)
    ensures Reachable(k, d) && RateBound.Timed(k.plan.value, d.bucket.log)
    ensures |SentIn(d.calls, from, upto)| == |SentIn(s.calls, from, upto)| + k.plan.value.perTick * n
    decreases n
  {
    assert k.plan.value.Valid();
    if n == 0 {
      hide SentIn, Reachable;
      d := s;
    } else {
      hide Posed, SentIn, Reachable;
      var i, b := k.plan.value.interval, k.plan.value.perTick;
      var once := Round(k, s, p);
      Monotone(i, 0, n - 1);
      Monotone(b, 0, n - 1);
      OneRoundMore(s.calls, once.calls, p.next, b, from, upto);
      assert n > 1 ==> p.next + i + (n - 2) * i == p.next + (n - 1) * i;
      d := Rounds(k, once, p.(next := p.next + i), n - 1, from, upto);
    }
  }

  // -------------------------------------------------------------------------
  // The whole run

  /** From the start: so many calls hold a token, the bucket is full, the next tick
      is due, and nothing has been sent. */
  lemma Ambush(k: Config, n: nat) returns (s: State, p: Pose)
    requires k.Valid() && k.maxRetries >= 0 && k.plan.Some? && (k.maxConcurrent > 0 ==> n <= k.maxConcurrent)
    ensures Posed(k, s, p) && Between(k, s, p) && |p.ready| == n
    ensures p.tokens == k.plan.value.capacity && s.clock == p.next
    ensures forall from, upto :: SentIn(s.calls, from, upto) == {}
  {
    hide Posed, SentIn, Reachable;
    var start := Starts(k, SECOND);
    var gathered, at := Gathers(k, start, StartPose(k, SECOND), n);
    FewTokens(k, gathered, at);
    var full;
    full, p := FillsUp(k, gathered, at);
    s := Waits(k, full, p, p.next);
    forall from, upto ensures SentIn(s.calls, from, upto) == {} {
      NothingSent(from, upto);
      assert SentIn(gathered.calls, from, upto) == SentIn(start.calls, from, upto);
    }
  }

  lemma FewTokens(k: Config, s: State, p: Pose)
    requires Posed(k, s, p) && k.plan.Some?
    ensures p.tokens <= k.plan.value.capacity
  {
  }

  lemma NothingSent(from: int, upto: int)
    ensures SentIn(map[], from, upto) == {}
  {
  }

  /** The window sees one request per slot, the full bucket, and every batch. */
  lemma MostAreSent(k: Config, width: int) returns (s: State, from: int)
    requires k.Valid() && k.maxRetries >= 0 && k.plan.Some? && k.maxConcurrent > 0 && width > 0
    ensures Reachable(k, s) && RateBound.Timed(k.plan.value, s.bucket.log)
    ensures SentDuring(s, from, width) == MostRequests(k, width)
  {
    hide Posed, SentIn, Reachable, Adds, CeilDiv;
    var ambush, p := Ambush(k, k.maxConcurrent);
    from := ambush.clock;
    assert SentIn(ambush.calls, from, from + width) == {};
    var shot := AllShoot(k, ambush, p);
    OneRoundMore(ambush.calls, shot.calls, from, k.maxConcurrent, from, from + width);
    var burst := ManySend(k, shot, p.(ready := {}), k.plan.value.capacity);
    OneRoundMore(shot.calls, burst.calls, from, k.plan.value.capacity, from, from + width);
    CeilDivBounds(width, k.plan.value.interval);
    s := Rounds(k, burst, p.(ready := {}, tokens := 0), CeilDiv(width, k.plan.value.interval), from, from + width);
  }

  /** Without a semaphore any number of calls can send in the same moment. */
  lemma AnyNumberIsSent(k: Config, width: int, n: nat) returns (s: State, from: int)
    requires k.Valid() && k.maxRetries >= 0 && k.plan.Some? && k.maxConcurrent <= 0 && width > 0
    ensures Reachable(k, s) && RateBound.Timed(k.plan.value, s.bucket.log)
    ensures SentDuring(s, from, width) == n
  {
    hide Posed, SentIn, Adds;
    var ambush, p := Ambush(k, n);
    from := ambush.clock;
    assert SentIn(ambush.calls, from, from + width) == {};
    s := AllShoot(k, ambush, p);
    OneRoundMore(ambush.calls, s.calls, from, n, from, from + width);
    PosedIsReachable(k, s, p.(ready := {}));
  }
}
