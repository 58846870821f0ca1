/** The bucket with its fields: how it is sized, filled, refilled and emptied. */
module TokenBuckets {
  import opened Errors
  import opened Arith
  import opened Bucket
  import opened RateBound
  import opened BucketOps

  /** The first half of `initTokenBucket`, which sizes the bucket step by step. */
  method Size(maxRequests: int, windowSeconds: int, burst: int) returns (plan: Option<Plan>)
    ensures plan == MakePlan(maxRequests, windowSeconds, burst)
    ensures plan.Some? <==> maxRequests > 0 && windowSeconds > 0
    ensures plan.Some? ==> plan.value.capacity == Min(if burst > 0 then burst else maxRequests, 1_000_000)
  {
    SizeOfEveryBucket(maxRequests, windowSeconds, burst);
    if maxRequests <= 0 || windowSeconds <= 0 {
      return None;
    }
    var capacity := maxRequests;
    if burst > 0 {
      capacity := burst;
    }
    if capacity > MAX_BUCKET_CAPACITY {
      capacity := MAX_BUCKET_CAPACITY;
    }
    var interval, perTick := windowSeconds * SECOND / maxRequests, 1;
    if interval < MIN_TOKEN_INTERVAL {
      perTick := BatchSize(maxRequests, windowSeconds);
      if perTick < 1 {
        perTick := 1;
      }
      if perTick > capacity {
        perTick := capacity;
      }
      interval := CLAMPED_TICK;
    }
    return Some(Plan(capacity, perTick, interval));
  }

  // What each operation does to the history; `Timed` says whether the ticks have
  // kept their distance so far.

  /** One pass of the refill loop at the time of its tick. */
  lemma FeedInTime(p: Plan, b: State, now: int)
    requires Sound(p, b) && Ordered(b.log) && b.left > 0
    requires NoLaterThan(b.log, now) && LastTick(b.log) == Some(now)
    ensures var d := Do(p, b, Feed(now));
            && Sound(p, d) && Ordered(d.log) && (Timed(p, d.log) <==> Timed(p, b.log))
            && NoLaterThan(d.log, now) && LastTick(d.log) == Some(now)
            && Total(d.log, Puts) == Total(b.log, Puts) + (if b.tokens < p.capacity then 1 else 0)
            && Total(d.log, Takes) == Total(b.log, Takes)
            && b.tokens <= p.capacity
  {
    Conservation(p, b);
    Snoc(b.log, Put(now));
    Snoc(b.log, Full(now));
    DoIsSound(p, b, Feed(now));
  }

  /** At least one interval after the latest tick. */
  predicate Spaced(p: Plan, log: seq<Ev>, now: int) {
    LastTick(log).Some? ==> LastTick(log).value + p.interval <= now
  }

  /** The tick itself. */
  lemma TickInTime(p: Plan, b: State, now: int)
    requires Sound(p, b) && Ordered(b.log) && b.left == 0 && !b.done && NoLaterThan(b.log, now)
    ensures var d := Do(p, b, Fire(now));
            && Sound(p, d) && Ordered(d.log) && (Timed(p, d.log) <==> Timed(p, b.log) && Spaced(p, b.log, now))
            && NoLaterThan(d.log, now) && LastTick(d.log) == Some(now)
            && Total(d.log, Puts) == Total(b.log, Puts) && Total(d.log, Takes) == Total(b.log, Takes)
            && d.left == p.perTick >= 1 && 0 <= b.tokens <= p.capacity
  {
    Conservation(p, b);
    Snoc(b.log, Tick(now));
    DoIsSound(p, b, Fire(now));
  }

  lemma TakeInTime(p: Plan, b: State, now: int, who: nat)
    requires Sound(p, b) && Ordered(b.log) && b.tokens > 0 && NoLaterThan(b.log, now)
    ensures var d := Do(p, b, Grab(now, who));
            && Sound(p, d) && Ordered(d.log) && (Timed(p, d.log) <==> Timed(p, b.log))
            && NoLaterThan(d.log, now) && LastTick(d.log) == LastTick(b.log) && d.left == b.left
            && Total(d.log, Puts) == Total(b.log, Puts) && Total(d.log, Takes) == Total(b.log, Takes) + 1
  {
    Snoc(b.log, Take(now, who));
    DoIsSound(p, b, Grab(now, who));
  }

  /** What can happen while `Stop` waits for the refiller: a tick that it handles
      first, with so many takers after each of its passes, or just takers. */
  datatype Meanwhile = Ticked(at: int, takers: seq<nat>) | Wanted(at: int, n: nat)

  class TokenBucket {
    const present: bool // false when either rate parameter is missing: no limit
    const capacity: int
    const tokenInterval: int
    const tokensPerTick: int

    var tokens: int
    var stopped: bool // the stop channel is closed
    var running: bool // the refill goroutine

    ghost var run: State

    ghost function Settings(): Plan { Plan(capacity, tokensPerTick, tokenInterval) }

    /** The fields are what the history makes of them, in the middle of a batch, too. */
    ghost predicate Consistent()
      reads this
    {
      && Sound(Settings(), run) && Ordered(run.log)
      && run.tokens == tokens && run.closed == stopped && run.done == !running
    }

    /** Between calls no batch is under way. */
    ghost predicate Valid()
      reads this
    {
      present ==> Consistent() && run.left == 0
    }

    /** So far the ticks have kept their distance, and no batch has taken time. */
    ghost predicate OnPace()
      reads this
    {
      Timed(Settings(), run.log)
    }

    ghost function Added(): nat
      reads this
    {
      Total(run.log, Puts)
    }

    ghost function Taken(): nat
      reads this
    {
      Total(run.log, Takes)
    }

    /** `initTokenBucket`, after the options have been applied; the bucket starts full. */
    constructor (maxRequests: int, windowSeconds: int, burst: int)
      ensures Valid()
      ensures present <==> MakePlan(maxRequests, windowSeconds, burst).Some?
      ensures present ==> MakePlan(maxRequests, windowSeconds, burst).value == Settings()
      ensures present ==> run == Filled(Settings())
      ensures present ==> OnPace()
    {
      var plan := Size(maxRequests, windowSeconds, burst);
      var filled := 0;
      if plan.Some? {
        PlansAreValid(maxRequests, windowSeconds, burst);
        while filled < plan.value.capacity
          invariant 0 <= filled <= plan.value.capacity
        {
          filled := filled + 1;
        }
        FilledIsSound(plan.value);
      }
      present := plan.Some?;
      capacity := if plan.Some? then plan.value.capacity else 0;
      tokenInterval := if plan.Some? then plan.value.interval else 0;
      tokensPerTick := if plan.Some? then plan.value.perTick else 0;
      tokens, stopped, running := filled, false, plan.Some?;
      run := State(filled, 0, false, false, []);
    }

    /** What the refiller does with one tick, whenever it comes: a batch, cut short
        by a full bucket. Anybody may take tokens between two of its passes; the
        environment says how many do, in `takers`. */
    method Refill(now: int, takers: seq<nat>)
      requires present && Valid() && running && NoLaterThan(run.log, now)
      modifies this`tokens, this`run
      ensures Valid() && NoLaterThan(run.log, now) && LastTick(run.log) == Some(now)
      ensures OnPace() <==> old(OnPace() && Spaced(Settings(), run.log, now))
      ensures tokens == old(tokens) + (Added() - old(Added())) - (Taken() - old(Taken()))
      ensures Min(capacity, old(tokens) + tokensPerTick) <= tokens + (Taken() - old(Taken()))
      ensures tokens + (Taken() - old(Taken())) <= old(tokens) + tokensPerTick
      ensures Added() >= old(Added()) && Taken() >= old(Taken()) && (takers == [] ==> Taken() == old(Taken()))
      ensures 0 <= tokens <= capacity
      ensures run.closed == old(run.closed) && run.done == old(run.done)
    {
      hide Sound, Ordered, Timed, Total, NoLaterThan, LastTick, Spaced;
      ghost var p := Settings();
      TickInTime(p, run, now);
      run := Do(p, run, Fire(now));
      var k := 0;
      while k < tokensPerTick
        invariant 0 <= k <= tokensPerTick
        invariant Consistent() && run.left == tokensPerTick - k
        invariant NoLaterThan(run.log, now) && LastTick(run.log) == Some(now)
        invariant OnPace() <==> old(OnPace() && Spaced(Settings(), run.log, now))
        invariant Added() == old(Added()) + k && Taken() >= old(Taken())
        invariant tokens == old(tokens) + k - (Taken() - old(Taken()))
        invariant takers == [] ==> Taken() == old(Taken())
        invariant run.closed == old(run.closed) && run.done == old(run.done)
      {
        var full := PutOne(now);
        if full {
          break;
        }
        k := k + 1;
        if k <= |takers| {
          Serve(now, takers[k - 1]);
        }
      }
      Conservation(p, run);
    }

    /** One pass of the loop: a token, unless the bucket is full. */
    method PutOne(now: int) returns (full: bool)
      requires present && Consistent() && run.left > 0
      requires NoLaterThan(run.log, now) && LastTick(run.log) == Some(now)
      modifies this`tokens, this`run
      ensures Consistent() && NoLaterThan(run.log, now) && LastTick(run.log) == Some(now)
      ensures full <==> old(tokens) >= capacity
      ensures tokens == old(tokens) + if full then 0 else 1
      ensures run.left == (if full then 0 else old(run.left) - 1) && OnPace() == old(OnPace())
      ensures Added() == old(Added()) + (if full then 0 else 1) && Taken() == old(Taken())
      ensures run.closed == old(run.closed) && run.done == old(run.done)
    {
      FeedInTime(Settings(), run, now);
      full := tokens >= capacity;
      run := Do(Settings(), run, Feed(now));
      if !full {
        tokens := tokens + 1;
      }
    }

    /** So many others try to take a token. */
    method Serve(now: int, n: nat)
      requires present && Consistent() && NoLaterThan(run.log, now)
      modifies this`tokens, this`run
      ensures Consistent() && NoLaterThan(run.log, now) && LastTick(run.log) == old(LastTick(run.log))
      ensures Added() == old(Added()) && tokens + Taken() == old(tokens) + old(Taken()) && Taken() >= old(Taken())
      ensures run.left == old(run.left) && run.closed == old(run.closed) && run.done == old(run.done)
      ensures OnPace() == old(OnPace()) && (n == 0 ==> run == old(run))
    {
      hide Sound, Ordered, Timed, Total, NoLaterThan, LastTick;
      var i := 0;
      while i < n
        invariant 0 <= i <= n
        invariant Consistent() && NoLaterThan(run.log, now) && LastTick(run.log) == old(LastTick(run.log))
        invariant Added() == old(Added()) && tokens + Taken() == old(tokens) + old(Taken())
        invariant Taken() >= old(Taken())
        invariant run.left == old(run.left) && run.closed == old(run.closed) && run.done == old(run.done)
        invariant OnPace() == old(OnPace()) && (i == 0 ==> run == old(run))
      {
        var ok := TryTake(now, i);
        i := i + 1;
      }
    }

    /** The non-blocking receive: the fast path of `waitForToken`. */
    method TryTake(now: int, ghost who: nat) returns (ok: bool)
      requires present && Consistent() && NoLaterThan(run.log, now)
      modifies this`tokens, this`run
      ensures Consistent() && NoLaterThan(run.log, now) && LastTick(run.log) == old(LastTick(run.log))
      ensures ok <==> old(tokens) > 0
      ensures run == if ok then Do(Settings(), old(run), Grab(now, who)) else old(run)
      ensures tokens == old(tokens) - if ok then 1 else 0
      ensures run.left == old(run.left) && OnPace() == old(OnPace())
      ensures Added() == old(Added()) && Taken() == old(Taken()) + if ok then 1 else 0
    {
      hide Sound, Ordered, Timed, Total, NoLaterThan, LastTick;
      ok := tokens > 0;
      if ok {
        TakeInTime(Settings(), run, now, who);
        run := Do(Settings(), run, Grab(now, who));
        tokens := tokens - 1;
      }
    }

    /** `Stop` closes the channel and waits for the refiller, which may handle some
        more ticks before it notices, while others take tokens. No token is lost.
        Stopping again changes nothing. */
    method Stop(meanwhile: seq<Meanwhile>)
      requires Valid() && (present && running ==> InOrder(run.log, meanwhile))
      modifies this`stopped, this`running, this`tokens, this`run
      ensures Valid() && (present ==> stopped && !running)
      ensures present ==> tokens - old(tokens) == (Added() - old(Added())) - (Taken() - old(Taken()))
      ensures present ==> 0 <= tokens <= capacity && Added() >= old(Added()) && Taken() >= old(Taken())
      ensures present && (meanwhile == [] || !old(running)) ==> run == old(run).(closed := true, done := true)
      ensures present && Tickless(meanwhile) ==> Added() == old(Added()) && OnPace() == old(OnPace())
    {
      if present {
        stopped := true;
        run := Do(Settings(), run, Shut);
        Conservation(Settings(), run);
        if running {
          GoOn(meanwhile);
          run := Do(Settings(), run, Quit);
          running := false;
        }
      }
    }

    /** Time does not run backwards. */
    ghost predicate InOrder(log: seq<Ev>, meanwhile: seq<Meanwhile>) {
      && (meanwhile != [] ==> NoLaterThan(log, meanwhile[0].at))
      && forall i | 0 < i < |meanwhile| :: meanwhile[i - 1].at <= meanwhile[i].at
    }

    /** The refiller notices the stop before its next tick. */
    predicate Tickless(meanwhile: seq<Meanwhile>) { forall m | m in meanwhile :: m.Wanted? }

    method GoOn(meanwhile: seq<Meanwhile>)
      requires present && Valid() && running && InOrder(run.log, meanwhile)
      modifies this`tokens, this`run
      ensures Valid() && run.closed == old(run.closed) && run.done == old(run.done)
      ensures tokens - old(tokens) == (Added() - old(Added())) - (Taken() - old(Taken()))
      ensures 0 <= tokens <= capacity && Added() >= old(Added()) && Taken() >= old(Taken())
      ensures meanwhile == [] ==> run == old(run)
      ensures Tickless(meanwhile) ==> Added() == old(Added()) && OnPace() == old(OnPace())
    {
      Conservation(Settings(), run);
      hide Sound, Ordered, Timed, Total, NoLaterThan, LastTick;
      var i := 0;
      while i < |meanwhile|
        invariant 0 <= i <= |meanwhile|
        invariant Valid() && run.closed == old(run.closed) && run.done == old(run.done)
        invariant i < |meanwhile| ==> NoLaterThan(run.log, meanwhile[i].at)
        invariant tokens - old(tokens) == (Added() - old(Added())) - (Taken() - old(Taken()))
        invariant 0 <= tokens <= capacity && Added() >= old(Added()) && Taken() >= old(Taken())
        invariant i == 0 ==> run == old(run)
        invariant Tickless(meanwhile) ==> Added() == old(Added()) && OnPace() == old(OnPace())
      {
        var m := meanwhile[i];
        assert m in meanwhile;
        match m {
          case Ticked(at, takers) => Refill(at, takers);
          case Wanted(at, n) => Serve(at, n);
        }
        Conservation(Settings(), run);
        i := i + 1;
        if i < |meanwhile| {
          StillNoLater(run.log, m.at, meanwhile[i].at);
        }
      }
    }

    lemma StillNoLater(log: seq<Ev>, at: int, later: int)
      requires NoLaterThan(log, at) && at <= later
      ensures NoLaterThan(log, later)
    {
    }

    /** As long as the ticks keep their distance, no window of time sees more tokens
        leave than that. */
    lemma Guarantee(from: int, width: int)
      requires present && Valid() && OnPace() && width >= 0
      ensures Within(run.log, Takes, from, from + width) <= capacity + tokensPerTick * CeilDiv(width, tokenInterval)
    {
      WindowBound(Settings(), run.log, from, width);
    }
  }
}
