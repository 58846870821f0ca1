/** Histories of a token bucket, and the number of tokens that any half-open
    window of time can see leave it. */
module RateBound {
  import opened Errors
  import opened Arith
  import opened Bucket

  /** A tick starts a batch; the batch puts tokens one by one and stops early at
      a full bucket. Takers may come in between. */
  datatype Ev =
    | Tick(at: int)
    | Put(at: int)
    | Full(at: int)
    | Take(at: int, who: nat)

  datatype Kind = Ticks | Puts | Takes

  predicate Of(e: Ev, k: Kind) {
    match k
    case Ticks => e.Tick?
    case Puts => e.Put?
    case Takes => e.Take?
  }

  function Front(log: seq<Ev>): seq<Ev>
    requires log != []
  {
    log[..|log| - 1]
  }

  function Last(log: seq<Ev>): Ev
    requires log != []
  {
    log[|log| - 1]
  }

  function Total(log: seq<Ev>, k: Kind): nat {
    if log == [] then 0 else Total(Front(log), k) + if Of(Last(log), k) then 1 else 0
  }

  /** Events of one kind at times in [from, to). */
  function Within(log: seq<Ev>, k: Kind, from: int, to: int): nat {
    if log == [] then 0
    else Within(Front(log), k, from, to) + if Of(Last(log), k) && from <= Last(log).at < to then 1 else 0
  }

  /** Tokens in the bucket, which starts full. */
  function Level(p: Plan, log: seq<Ev>): int { p.capacity + Total(log, Puts) - Total(log, Takes) }

  /** Tokens that the current batch has yet to put. */
  function Left(p: Plan, log: seq<Ev>): int {
    if log == [] then 0
    else match Last(log)
      case Tick(_) => p.perTick
      case Put(_) => Left(p, Front(log)) - 1
      case Full(_) => 0
      case Take(_, _) => Left(p, Front(log))
  }

  /** What the channel and the refill loop let happen. */
  ghost predicate Legal(p: Plan, log: seq<Ev>) {
    log == []
    || (&& Legal(p, Front(log))
        && match Last(log)
           case Tick(_) => Left(p, Front(log)) == 0
           case Put(_) => Left(p, Front(log)) > 0 && Level(p, Front(log)) < p.capacity
           case Full(_) => Left(p, Front(log)) > 0 && Level(p, Front(log)) == p.capacity
           case Take(_, _) => Level(p, Front(log)) > 0)
  }

  function LastTick(log: seq<Ev>): Option<int> {
    if log == [] then None
    else if Last(log).Tick? then Some(Last(log).at)
    else LastTick(Front(log))
  }

  ghost predicate NoLaterThan(log: seq<Ev>, at: int) { log == [] || Last(log).at <= at }

  /** Time does not run backwards. */
  ghost predicate Ordered(log: seq<Ev>) {
    log == [] || (Ordered(Front(log)) && NoLaterThan(Front(log), Last(log).at))
  }

  /** The timing assumption: ticks arrive at least an interval apart and a batch
      takes no time. */
  ghost predicate Timed(p: Plan, log: seq<Ev>) {
    log == []
    || (&& Timed(p, Front(log))
        && match Last(log)
           case Tick(at) => LastTick(Front(log)).Some? ==> LastTick(Front(log)).value + p.interval <= at
           case Take(_, _) => true
           case _ => LastTick(Front(log)) == Some(Last(log).at))
  }

  lemma {:induction false} LevelBounds(p: Plan, log: seq<Ev>)
    requires p.Valid() && Legal(p, log)
    ensures 0 <= Level(p, log) <= p.capacity
    ensures 0 <= Left(p, log) <= p.perTick
  {
    if log != [] {
      LevelBounds(p, Front(log));
    }
  }

  /** Nothing of an ordered history that ends before a window lies in it. */
  lemma {:induction false} NothingYet(log: seq<Ev>, k: Kind, from: int, to: int)
    requires Ordered(log) && NoLaterThan(log, from - 1)
    ensures Within(log, k, from, to) == 0
  {
    if log != [] {
      NothingYet(Front(log), k, from, to);
    }
  }

  /** What leaves in a window was there or was put there. */
  lemma {:induction false} TakesFromPuts(p: Plan, log: seq<Ev>, from: int, to: int)
    requires p.Valid() && Legal(p, log) && Ordered(log)
    ensures Within(log, Takes, from, to) <= p.capacity + Within(log, Puts, from, to)
    ensures NoLaterThan(log, to - 1) ==>
              Within(log, Takes, from, to) + Level(p, log) <= p.capacity + Within(log, Puts, from, to)
  {
    LevelBounds(p, log);
    if log != [] {
      TakesFromPuts(p, Front(log), from, to);
      if Last(log).at < from {
        NothingYet(log, Takes, from, to);
        NothingYet(log, Puts, from, to);
      }
    }
  }

  /** What is put in a window belongs to ticks of that window. */
  lemma {:induction false} PutsFromTicks(p: Plan, log: seq<Ev>, from: int, to: int)
    requires p.Valid() && Legal(p, log) && Timed(p, log)
    ensures var open := LastTick(log).Some? && from <= LastTick(log).value < to;
            Within(log, Puts, from, to) + (if open then Left(p, log) else 0)
            <= p.perTick * Within(log, Ticks, from, to)
  {
    if log != [] {
      LevelBounds(p, Front(log));
      PutsFromTicks(p, Front(log), from, to);
      var n := Within(Front(log), Ticks, from, to);
      Monotone(p.perTick, n, n + 1);
    }
  }

  /** Ticks in a window are spread over it. */
  lemma {:induction false} TicksAreSpread(p: Plan, log: seq<Ev>, from: int, to: int)
    requires p.Valid() && Timed(p, log)
    ensures var n := Within(log, Ticks, from, to);
            n >= 1 ==> && LastTick(log).Some?
                       && from + (n - 1) * p.interval <= LastTick(log).value
                       && from + (n - 1) * p.interval < to
  {
    if log != [] {
      TicksAreSpread(p, Front(log), from, to);
      var n: int := Within(Front(log), Ticks, from, to);
      Monotone(p.interval, n - 1, n);
    }
  }

  /** The bound on every history and every window. */
  lemma WindowBound(p: Plan, log: seq<Ev>, from: int, width: int)
    requires p.Valid() && Legal(p, log) && Ordered(log) && Timed(p, log) && width >= 0
    ensures Within(log, Takes, from, from + width) <= p.capacity + p.perTick * CeilDiv(width, p.interval)
  {
    LevelBounds(p, log);
    TakesFromPuts(p, log, from, from + width);
    PutsFromTicks(p, log, from, from + width);
    TicksAreSpread(p, log, from, from + width);
    SpreadFits(Within(log, Ticks, from, from + width), p.interval, width);
    Monotone(p.perTick, Within(log, Ticks, from, from + width), CeilDiv(width, p.interval));
  }

  // -------------------------------------------------------------------------
  // The bound is reached

  /** `k` tokens taken, or put, at time `at`. */
  function TakeMany(log: seq<Ev>, k: nat, at: int): seq<Ev> {
    if k == 0 then log else TakeMany(log, k - 1, at) + [Take(at, 0)]
  }

  function PutMany(log: seq<Ev>, k: nat, at: int): seq<Ev> {
    if k == 0 then log else PutMany(log, k - 1, at) + [Put(at)]
  }

  /** After an idle spell: drain the full bucket, then take every token of `n`
      ticks as it arrives. */
  function Barrage(p: Plan, at: int, n: nat): seq<Ev>
    requires p.Valid()
  {
    if n == 0 then TakeMany([], p.capacity, at)
    else
      var t := at + (n - 1) * p.interval;
      TakeMany(PutMany(Barrage(p, at, n - 1) + [Tick(t)], p.perTick, t), p.perTick, t)
  }

  lemma Snoc(log: seq<Ev>, e: Ev)
    ensures Front(log + [e]) == log && Last(log + [e]) == e
  {
  }

  /** Everything about a history that its extensions depend on. */
  ghost predicate Reaches(p: Plan, log: seq<Ev>, at: int, level: int, left: int, tick: Option<int>,
                          last: int, taken: nat)
  {
    && Legal(p, log) && Ordered(log) && Timed(p, log)
    && Level(p, log) == level && Left(p, log) == left && LastTick(log) == tick
    && NoLaterThan(log, last)
    && forall to | to > last :: Within(log, Takes, at, to) == taken
  }

  lemma {:induction false} TakesReach(p: Plan, log: seq<Ev>, k: nat, at: int, level: int, left: int,
                                      tick: Option<int>, last: int, taken: nat)
    requires p.Valid() && Reaches(p, log, at, level, left, tick, last, taken) && k <= level && at <= last
    ensures Reaches(p, TakeMany(log, k, last), at, level - k, left, tick, last, taken + k)
  {
    if k > 0 {
      TakesReach(p, log, k - 1, at, level, left, tick, last, taken);
      Snoc(TakeMany(log, k - 1, last), Take(last, 0));
    }
  }

  lemma {:induction false} PutsReach(p: Plan, log: seq<Ev>, k: nat, at: int, level: int, left: int,
                                     last: int, taken: nat)
    requires p.Valid() && Reaches(p, log, at, level, left, Some(last), last, taken)
    requires k <= left && level + k <= p.capacity
    ensures Reaches(p, PutMany(log, k, last), at, level + k, left - k, Some(last), last, taken)
  {
    if k > 0 {
      PutsReach(p, log, k - 1, at, level, left, last, taken);
      Snoc(PutMany(log, k - 1, last), Put(last));
    }
  }

  lemma TickReaches(p: Plan, log: seq<Ev>, at: int, tick: Option<int>, last: int, next: int, taken: nat)
    requires p.Valid() && Reaches(p, log, at, 0, 0, tick, last, taken)
    requires last <= next && (tick.Some? ==> tick.value + p.interval <= next)
    ensures Reaches(p, log + [Tick(next)], at, 0, p.perTick, Some(next), next, taken)
  {
    Snoc(log, Tick(next));
  }

  /** One tick, its batch, and every token of it taken. */
  lemma RoundReaches(p: Plan, log: seq<Ev>, at: int, tick: Option<int>, last: int, t: int, taken: nat)
    requires p.Valid() && Reaches(p, log, at, 0, 0, tick, last, taken)
    requires at <= t && last <= t && (tick.Some? ==> tick.value + p.interval <= t)
    ensures Reaches(p, TakeMany(PutMany(log + [Tick(t)], p.perTick, t), p.perTick, t),
                    at, 0, 0, Some(t), t, taken + p.perTick)
  {
    TickReaches(p, log, at, tick, last, t, taken);
    PutsReach(p, log + [Tick(t)], p.perTick, at, 0, p.perTick, t, taken);
    TakesReach(p, PutMany(log + [Tick(t)], p.perTick, t), p.perTick, at, p.perTick, 0, Some(t), t, taken);
  }

  function RoundTime(p: Plan, at: int, n: int): int { at + (n - 1) * p.interval }

  lemma {:induction false} BarrageReaches(p: Plan, at: int, n: nat)
    requires p.Valid()
    ensures n == 0 ==> Reaches(p, Barrage(p, at, n), at, 0, 0, None, at, p.capacity)
    ensures n > 0 ==> Reaches(p, Barrage(p, at, n), at, 0, 0, Some(RoundTime(p, at, n)), RoundTime(p, at, n),
                              p.capacity + p.perTick * n)
    ensures n > 0 ==> at <= RoundTime(p, at, n)
  {
    if n == 0 {
      TakesReach(p, [], p.capacity, at, p.capacity, 0, None, at, 0);
    } else {
      BarrageReaches(p, at, n - 1);
      var t, m := RoundTime(p, at, n), p.capacity + p.perTick * (n - 1);
      Monotone(p.perTick, n - 1, n);
      Monotone(p.perTick, 0, n - 1);
      assert n > 1 ==> RoundTime(p, at, n - 1) + p.interval == t;
      RoundReaches(p, Barrage(p, at, n - 1), at, if n == 1 then None else Some(RoundTime(p, at, n - 1)),
                   if n == 1 then at else RoundTime(p, at, n - 1), t, m);
    }
  }

  /** For every plan and window some legal, well-timed history meets the bound. */
  lemma BoundIsReached(p: Plan, from: int, width: int)
    requires p.Valid() && width > 0
    ensures var log := Barrage(p, from, CeilDiv(width, p.interval));
            && Legal(p, log) && Ordered(log) && Timed(p, log)
            && Within(log, Takes, from, from + width) == p.capacity + p.perTick * CeilDiv(width, p.interval)
  {
    CeilDivBounds(width, p.interval);
    BarrageReaches(p, from, CeilDiv(width, p.interval));
  }

  // -------------------------------------------------------------------------
  // Before the first tick

  lemma {:induction false} NoTickNoPut(p: Plan, log: seq<Ev>)
    requires p.Valid() && Legal(p, log) && Total(log, Ticks) == 0
    ensures Total(log, Puts) == 0 && Left(p, log) == 0
  {
    if log != [] {
      NoTickNoPut(p, Front(log));
    }
  }

  lemma {:induction false} TakesOnly(k: nat, at: int)
    ensures Total(TakeMany([], k, at), Ticks) == 0 && Total(TakeMany([], k, at), Takes) == k
  {
    if k > 0 {
      TakesOnly(k - 1, at);
      Snoc(TakeMany([], k - 1, at), Take(at, 0));
    }
  }

  /** A fresh bucket of `maxRequests` per window without a burst lets exactly that
      many tokens out before its first tick, up to a million: no history more, and
      one that many, at any moment. */
  lemma FreshBucketLetsOut(maxRequests: int, windowSeconds: int, at: int)
    requires maxRequests > 0 && windowSeconds > 0
    ensures MakePlan(maxRequests, windowSeconds, 0).Some?
    ensures var p, n := MakePlan(maxRequests, windowSeconds, 0).value, Min(maxRequests, 1_000_000);
            && (forall log | Legal(p, log) && Total(log, Ticks) == 0 :: Total(log, Takes) <= n)
            && Legal(p, TakeMany([], n, at)) && Total(TakeMany([], n, at), Ticks) == 0
            && Total(TakeMany([], n, at), Takes) == n
  {
    SizeOfEveryBucket(maxRequests, windowSeconds, 0);
    PlansAreValid(maxRequests, windowSeconds, 0);
    var p, n := MakePlan(maxRequests, windowSeconds, 0).value, Min(maxRequests, 1_000_000);
    hide MakePlan;
    forall log | Legal(p, log) && Total(log, Ticks) == 0 ensures Total(log, Takes) <= n {
      NoTickNoPut(p, log);
      LevelBounds(p, log);
    }
    TakesReach(p, [], n, at, n, 0, None, at, 0);
    TakesOnly(n, at);
  }
}
