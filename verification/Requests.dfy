/** Requests instead of tokens: how many requests any window can see reach the
    transport. A call may hold its token for as long as it likes before it sends. */
module Requests {
  import opened Arith
  import opened Sets
  import RateBound
  import BucketOps
  import opened DoCalls
  import opened CallInvs
  import opened Circuit
  import opened Sending

  /** The sends of all calls at times in [from, upto): call and number. */
  function SentIn(calls: Calls, from: int, upto: int): set<(nat, nat)> {
    set id: nat, i: nat | id in calls && i < |calls[id].sends| && from <= calls[id].sends[i].at < upto :: (id, i)
  }

  /** Requests sent in the window of that width starting at `from`. */
  function SentDuring(s: State, from: int, width: int): nat { |SentIn(s.calls, from, from + width)| }

  /** The calls that hold a token and have yet to send. */
  function Carrying(calls: Calls): set<nat> {
    set id | id in calls && (calls[id].pc.HasToken? || calls[id].pc.Ready?)
  }

  lemma SentStays(calls: Calls, id: nat, d: Call, from: int, upto: int)
    requires d.sends == if id in calls then calls[id].sends else []
    ensures SentIn(calls[id := d], from, upto) == SentIn(calls, from, upto)
  {
  }

  lemma SentGrows(calls: Calls, id: nat, d: Call, x: Send, from: int, upto: int)
    requires id in calls && d.sends == calls[id].sends + [x]
    ensures SentIn(calls[id := d], from, upto)
            == SentIn(calls, from, upto) + if from <= x.at < upto then {(id, |calls[id].sends|)} else {}
    ensures (id, |calls[id].sends|) !in SentIn(calls, from, upto)
  {
  }

  lemma SentSize(calls: Calls, id: nat, d: Call, x: Send, from: int, upto: int)
    requires id in calls && d.sends == calls[id].sends + [x]
    ensures |SentIn(calls[id := d], from, upto)|
            == |SentIn(calls, from, upto)| + if from <= x.at < upto then 1 else 0
  {
    SentGrows(calls, id, d, x, from, upto);
    hide SentIn;
  }

  // -------------------------------------------------------------------------
  // At most the tokens of the window and one per slot

  function Taken(s: State, from: int, upto: int): nat { RateBound.Within(s.bucket.log, RateBound.Takes, from, upto) }

  /** Every send of the window is paid for by a token of the window, or belongs to
      a call that held its token and a slot when the window began. */
  ghost predicate Charged(k: Config, s: State, from: int, upto: int) {
    var sent := |SentIn(s.calls, from, upto)|;
    && (s.clock < from ==> sent == 0)
    && (from <= s.clock < upto ==> sent + |Carrying(s.calls)| <= Taken(s, from, upto) + k.maxConcurrent)
    && (upto <= s.clock ==> sent <= Taken(s, from, upto) + k.maxConcurrent)
  }

  /** Who holds a token holds a slot. */
  lemma CarriersHoldSlots(k: Config, s: State)
    requires k.Valid() && Inv(k, s) && k.maxConcurrent > 0
    ensures |Carrying(s.calls)| <= k.maxConcurrent
  {
    assert SlotsInv(k, s.inUse, s.holders, s.calls);
    forall id | id in Carrying(s.calls) ensures id in s.holders {
      assert CallInv(k, s.calls[id], s.clock) && Holding(k, s.calls[id]);
    }
    hide Inv, Carrying, SlotsInv;
    SubsetIsSmaller(Carrying(s.calls), s.holders);
    assert |s.holders| <= k.maxConcurrent by {
      SlotsAreFew(k, s);
    }
  }

  lemma SlotsAreFew(k: Config, s: State)
    requires SlotsInv(k, s.inUse, s.holders, s.calls) && k.maxConcurrent > 0
    ensures |s.holders| <= k.maxConcurrent
  {
  }

  /** How a step changes who carries a token. */
  lemma CarryingFollows(k: Config, calls: Calls, id: nat, a: Act, d: Call, t: int)
    requires id in calls && Moves(k, calls[id], a, d, t)
    ensures a.GrabToken? || a.SkipToken? ==> Carrying(calls[id := d]) <= Carrying(calls) + {id}
    ensures !a.GrabToken? && !a.SkipToken? ==> Carrying(calls[id := d]) <= Carrying(calls)
    ensures a.Launch? ==> id in Carrying(calls) && Carrying(calls[id := d]) <= Carrying(calls) - {id}
  {
  }

  lemma CarryingSize(k: Config, calls: Calls, id: nat, a: Act, d: Call, t: int)
    requires id in calls && Moves(k, calls[id], a, d, t)
    ensures |Carrying(calls[id := d])| + (if a.Launch? then 1 else 0)
            <= |Carrying(calls)| + if a.GrabToken? || a.SkipToken? then 1 else 0
  {
    CarryingFollows(k, calls, id, a, d, t);
    hide Carrying, Moves;
    var c := Carrying(calls);
    if a.Launch? {
      SubsetIsSmaller(Carrying(calls[id := d]), c - {id});
    } else if a.GrabToken? || a.SkipToken? {
      SubsetIsSmaller(Carrying(calls[id := d]), c + {id});
    } else {
      SubsetIsSmaller(Carrying(calls[id := d]), c);
    }
  }

  lemma TakesFollow(k: Config, s: State, id: nat, fx: Effect, from: int, upto: int)
    requires fx.Took? ==> k.plan.Some?
    ensures RateBound.Within(BucketAfter(k, s.bucket, id, s.clock, fx).log, RateBound.Takes, from, upto)
            == Taken(s, from, upto) + if fx.Took? && from <= s.clock < upto then 1 else 0
  {
    if fx.Took? {
      RateBound.Snoc(s.bucket.log, RateBound.Take(s.clock, id));
    }
  }

  lemma GrabTakes(k: Config, c: Call, a: Act, t: int)
    requires k.plan.Some? && Can(k, c, a, t)
    ensures !a.SkipToken? && (EffectOf(k, c, a, t).Took? <==> a.GrabToken?)
  {
  }

  lemma DoCharged(k: Config, s: State, id: nat, a: Act, from: int, upto: int)
    requires k.plan.Some? && Charged(k, s, from, upto) && Enabled(k, s, Do(id, a))
    ensures Charged(k, Next(k, s, Do(id, a)), from, upto)
  {
    var c, t := s.calls[id], s.clock;
    GrabTakes(k, c, a, t);
    EveryStepMoves(k, c, a, t);
    var fx, d := EffectOf(k, c, a, t), Step(k, c, a, t);
    hide Can, EffectOf, Step, BreakerAfter, AccountsAfter, BucketAfter, GateAfter, Permits, SentIn, Carrying;
    TakesFollow(k, s, id, fx, from, upto);
    CarryingSize(k, s.calls, id, a, d, t);
    if a.Launch? {
      SentSize(s.calls, id, d, Send(t, Payload(c)), from, upto);
    } else {
      SentStays(s.calls, id, d, from, upto);
    }
    hide Moves, Payload, RateBound.Within;
  }

  lemma RefillerTakesNothing(k: Config, s: State, op: BucketOps.Op, from: int, upto: int)
    requires Enabled(k, s, Refiller(op))
    ensures Taken(Next(k, s, Refiller(op)), from, upto) == Taken(s, from, upto)
  {
    match op
    case Fire(at) => RateBound.Snoc(s.bucket.log, RateBound.Tick(at));
    case Feed(at) =>
      RateBound.Snoc(s.bucket.log, RateBound.Put(at));
      RateBound.Snoc(s.bucket.log, RateBound.Full(at));
    case Shut =>
    case Quit =>
    case Grab(_, _) =>
  }

  lemma BeginCarriesNothing(calls: Calls, id: nat, req: Request, now: int, from: int, upto: int)
    requires id !in calls
    ensures Carrying(calls[id := NewCall(req, now)]) == Carrying(calls)
    ensures SentIn(calls[id := NewCall(req, now)], from, upto) == SentIn(calls, from, upto)
  {
    SentStays(calls, id, NewCall(req, now), from, upto);
    hide SentIn;
  }

  lemma NextCharged(k: Config, s: State, e: Event, from: int, upto: int)
    requires k.Valid() && Inv(k, s) && k.plan.Some? && k.maxConcurrent > 0 && from <= upto
    requires Charged(k, s, from, upto) && Enabled(k, s, e)
    ensures Charged(k, Next(k, s, e), from, upto)
  {
    match e
    case Pass(_) =>
      CarriersHoldSlots(k, s);
      hide Inv, SentIn, Carrying, RateBound.Within;
    case Refiller(op) =>
      RefillerTakesNothing(k, s, op, from, upto);
      hide Inv, SentIn, Carrying, Taken, BucketOps.Do, BucketOps.Can;
    case Begin(id, req) =>
      BeginCarriesNothing(s.calls, id, req, s.clock, from, upto);
      hide Inv, SentIn, Carrying, NewCall;
    case Do(id, a) =>
      hide Inv, Charged, Enabled, Next;
      DoCharged(k, s, id, a, from, upto);
  }

  lemma {:induction false} RunCharged(k: Config, s: State, es: seq<Event>, from: int, upto: int)
    requires k.Valid() && Inv(k, s) && k.plan.Some? && k.maxConcurrent > 0 && from <= upto
    requires Charged(k, s, from, upto) && CanRun(k, s, es)
    ensures Charged(k, After(k, s, es), from, upto)
    decreases |es|
  {
    hide Inv, Charged, Enabled, Next;
    if es != [] {
      NextInv(k, s, es[0]);
      NextCharged(k, s, es[0], from, upto);
      RunCharged(k, Next(k, s, es[0]), es[1..], from, upto);
    }
  }

  lemma InitCharged(k: Config, t0: int, from: int, upto: int)
    requires k.maxConcurrent > 0
    ensures Charged(k, Init(k, t0), from, upto)
  {
    var calls := Init(k, t0).calls;
    assert SentIn(calls, from, upto) == {} && Carrying(calls) == {};
  }

  /** In any window no more requests are sent than tokens are taken, plus one per
      slot. */
  lemma SentWithinTaken(k: Config, s: State, from: int, upto: int)
    requires k.Valid() && Reachable(k, s) && k.plan.Some? && k.maxConcurrent > 0 && from <= upto
    ensures |SentIn(s.calls, from, upto)| <= Taken(s, from, upto) + k.maxConcurrent
  {
    var t0: int, es: seq<Event> :|
      SECOND <= t0 && CanRun(k, Init(k, t0), es) && After(k, Init(k, t0), es) == s;
    hide Init, Inv, Charged, CanRun, After;
    InitInv(k, t0);
    InitCharged(k, t0, from, upto);
    RunCharged(k, Init(k, t0), es, from, upto);
    ChargedIsBounded(k, s, from, upto);
  }

  lemma ChargedIsBounded(k: Config, s: State, from: int, upto: int)
    requires k.maxConcurrent > 0 && Charged(k, s, from, upto)
    ensures |SentIn(s.calls, from, upto)| <= Taken(s, from, upto) + k.maxConcurrent
  {
    hide SentIn, Carrying, RateBound.Within;
  }

  /** What a window can see at most: the bound on tokens, and one per slot. */
  function MostRequests(k: Config, width: int): int
    requires k.plan.Some? && k.plan.value.interval > 0
  {
    k.plan.value.capacity + k.plan.value.perTick * CeilDiv(width, k.plan.value.interval) + k.maxConcurrent
  }

  lemma TakenWithinBound(k: Config, s: State, from: int, width: int)
    requires k.plan.Some? && BucketInv(k, s.bucket, s.calls, s.clock) && width >= 0
    requires RateBound.Timed(k.plan.value, s.bucket.log)
    ensures k.plan.value.interval > 0
    ensures Taken(s, from, from + width) + k.maxConcurrent <= MostRequests(k, width)
  {
    hide TokensTied, CeilDiv, RateBound.Timed, RateBound.Ordered, RateBound.Within;
    RateBound.WindowBound(k.plan.value, s.bucket.log, from, width);
  }

  lemma SentDuringIs(s: State, from: int, width: int)
    ensures SentDuring(s, from, width) == |SentIn(s.calls, from, from + width)|
  {
  }

  lemma BucketOfInv(k: Config, s: State)
    requires Inv(k, s)
    ensures BucketInv(k, s.bucket, s.calls, s.clock)
  {
  }

  /** If ticks came at least an interval apart and batches took no time, any
      half-open window saw at most so many requests. */
  lemma RequestBound(k: Config, s: State, from: int, width: int)
    requires k.Valid() && Reachable(k, s) && k.plan.Some? && k.maxConcurrent > 0 && width >= 0
    requires RateBound.Timed(k.plan.value, s.bucket.log)
    ensures SentDuring(s, from, width) <= MostRequests(k, width)
  {
    hide *;
    ReachableInv(k, s);
    BucketOfInv(k, s);
    SentWithinTaken(k, s, from, from + width);
    SentDuringIs(s, from, width);
    TakenWithinBound(k, s, from, width);
  }
}
