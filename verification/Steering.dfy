/** Runs in which the environment has its way: calls arrive, take tokens, wait as
    long as they please, send and are cancelled, and the ticker keeps its pace. */
module Steering {
  import opened Arith
  import opened Errors
  import opened Sets
  import Breaker
  import Probing
  import RateBound
  import BucketOps
  import Gate
  import opened DoCalls
  import opened CallInvs
  import opened Circuit
  import opened Sending
  import opened Runs
  import opened Requests
  import Pausing

  /** Who stands where: calls about to send their first attempt, calls in any
      other situation, and the bucket, with the earliest time of its next tick. */
  datatype Pose = Pose(ready: set<nat>, busy: set<nat>, tokens: int, left: int, next: int)

  ghost predicate CallsAt(calls: Calls, ready: set<nat>, busy: set<nat>) {
    && ready <= calls.Keys && busy <= calls.Keys && ready !! busy
    && (forall id | id in ready :: calls[id].pc.Ready? && calls[id].attempt == 0)
    && (forall id | id in calls && id !in ready && id !in busy :: calls[id].pc.Done?)
  }

  ghost predicate BucketAt(k: Config, b: BucketOps.State, clock: int, tokens: int, left: int, next: int) {
    k.plan.Some? ==>
      && !b.done && b.tokens == tokens && 0 <= tokens <= k.plan.value.capacity && b.left == left >= 0
      && RateBound.Timed(k.plan.value, b.log)
      && (RateBound.LastTick(b.log).Some? ==> RateBound.LastTick(b.log).value + k.plan.value.interval <= next)
      && (left > 0 ==> RateBound.LastTick(b.log) == Some(clock))
  }

  predicate IsClosed(k: Config, b: Probing.State) { k.breaker.Some? ==> b.core.cur.Closed? }

  ghost predicate Posed(k: Config, s: State, p: Pose) {
    && k.Valid() && Reachable(k, s) && k.maxRetries >= 0
    && CallsAt(s.calls, p.ready, p.busy)
    && BucketAt(k, s.bucket, s.clock, p.tokens, p.left, p.next) && IsClosed(k, s.breaker)
  }

  lemma PosedIsReachable(k: Config, s: State, p: Pose)
    requires Posed(k, s, p)
    ensures Reachable(k, s)
    ensures k.plan.Some? ==> s.bucket.tokens == p.tokens >= 0 && RateBound.Timed(k.plan.value, s.bucket.log)
  {
    hide Reachable;
  }

  ghost predicate SameSends(a: Calls, b: Calls) {
    forall from, upto :: SentIn(b, from, upto) == SentIn(a, from, upto)
  }

  /** So many more sends at one moment, and no others. */
  ghost predicate Adds(a: Calls, b: Calls, at: int, n: nat) {
    forall from, upto :: |SentIn(b, from, upto)| == |SentIn(a, from, upto)| + if from <= at < upto then n else 0
  }

  lemma AddsChain(a: Calls, b: Calls, c: Calls, at: int, m: nat, n: nat)
    requires Adds(a, b, at, m) && Adds(b, c, at, n)
    ensures Adds(a, c, at, m + n)
  {
    hide SentIn;
  }

  lemma SameAdds(a: Calls, b: Calls, at: int)
    requires SameSends(a, b)
    ensures Adds(a, b, at, 0)
  {
    hide SentIn;
  }

  lemma SendsChain(a: Calls, b: Calls, c: Calls)
    requires SameSends(a, b) && SameSends(b, c)
    ensures SameSends(a, c)
  {
    hide SentIn;
  }

  lemma Untouched(calls: Calls, id: nat, d: Call)
    requires d.sends == if id in calls then calls[id].sends else []
    ensures SameSends(calls, calls[id := d])
  {
    forall from, upto ensures SentIn(calls[id := d], from, upto) == SentIn(calls, from, upto) {
      SentStays(calls, id, d, from, upto);
    }
    hide SentIn;
  }

  // -------------------------------------------------------------------------
  // Single events

  lemma EffectKinds(k: Config, c: Call, a: Act, t: int)
    requires Can(k, c, a, t)
    ensures EffectOf(k, c, a, t).Took? ==> a.GrabToken?
    ensures EffectOf(k, c, a, t).Knocked? ==> a.Enter?
    ensures EffectOf(k, c, a, t).Filed? ==> a.FileReport?
    ensures EffectOf(k, c, a, t).Raised? ==> a.Arm?
  {
  }

  lemma PoseAfter(calls: Calls, ready: set<nat>, busy: set<nat>, id: nat, d: Call)
    requires CallsAt(calls, ready, busy) && id in busy
    ensures CallsAt(calls[id := d], ready, busy)
    ensures d.pc.Ready? && d.attempt == 0 ==> CallsAt(calls[id := d], ready + {id}, busy - {id})
    ensures d.pc.Done? ==> CallsAt(calls[id := d], ready, busy - {id})
  {
  }

  /** A step of a busy call that leaves circuit and bucket alone. */
  lemma BusyStep(k: Config, s: State, p: Pose, id: nat, a: Act) returns (d: State)
    requires Posed(k, s, p) && id in p.busy && Enabled(k, s, Do(id, a))
    requires !a.GrabToken? && !a.Enter? && !a.FileReport? && !a.Launch?
    ensures Posed(k, d, p) && d.clock == s.clock && (!a.Arm? ==> d.gate == s.gate) && d.bucket == s.bucket
    ensures d == Next(k, s, Do(id, a)) && d.calls == s.calls[id := Step(k, s.calls[id], a, s.clock)]
    ensures SameSends(s.calls, d.calls)
  {
    var c, t := s.calls[id], s.clock;
    EffectKinds(k, c, a, t);
    EveryStepMoves(k, c, a, t);
    hide Reachable, Can, EffectOf, Step, AccountsAfter, Permits, SameSends, CallsAt, BucketAt;
    d := Go(k, s, id, a);
    PoseAfter(s.calls, p.ready, p.busy, id, Step(k, c, a, t));
    Untouched(s.calls, id, Step(k, c, a, t));
  }

  /** The same, to a call that is known. */
  lemma BusyMove(k: Config, s: State, p: Pose, id: nat, a: Act, c: Call) returns (d: State)
    requires Posed(k, s, p) && id in p.busy && Enabled(k, s, Do(id, a)) && Step(k, s.calls[id], a, s.clock) == c
    requires !a.GrabToken? && !a.Enter? && !a.FileReport? && !a.Launch?
    ensures Posed(k, d, p) && d.clock == s.clock && (!a.Arm? ==> d.gate == s.gate) && d.bucket == s.bucket
    ensures d.calls == s.calls[id := c] && id in d.calls && SameSends(s.calls, d.calls)
  {
    hide Posed, Enabled, Step, SameSends;
    d := BusyStep(k, s, p, id, a);
  }

  lemma {:induction false} FreshId(ids: set<nat>) returns (id: nat)
    ensures id !in ids
    ensures forall i | i in ids :: i < id
  {
    if ids == {} {
      id := 0;
    } else {
      var x :| x in ids;
      var y := FreshId(ids - {x});
      id := if x < y then y else x + 1;
      assert forall i | i in ids :: i == x || i in ids - {x};
    }
  }

  lemma Begins(k: Config, s: State, p: Pose, req: Request) returns (d: State, id: nat)
    requires Posed(k, s, p) && req.wellFormed
    ensures Posed(k, d, p.(busy := p.busy + {id})) && id !in s.calls
    ensures d == s.(calls := s.calls[id := NewCall(req, s.clock)])
    ensures SameSends(s.calls, d.calls)
  {
    hide Reachable, SentIn, SameSends, BucketAt;
    id := FreshId(s.calls.Keys);
    Extend(k, s, Begin(id, req));
    d := Next(k, s, Begin(id, req));
    Untouched(s.calls, id, NewCall(req, s.clock));
  }

  /** A closed circuit admits everybody and stays closed. */
  lemma ClosedAdmits(k: Config, b: Probing.State, id: nat, now: int)
    requires k.breaker.Some? && IsClosed(k, b)
    ensures Breaker.Allow(k.breaker.value, b.core, now).1 == Breaker.Granted(Breaker.Ticket(false, 0))
    ensures IsClosed(k, Probing.AfterKnock(k.breaker.value, b, id, now))
  {
  }

  const ADMISSION := Breaker.Granted(Breaker.Ticket(false, 0))

  lemma Enters(k: Config, s: State, p: Pose, id: nat) returns (d: State)
    requires Posed(k, s, p) && id in p.busy && s.calls[id].pc.Entry?
    ensures Posed(k, d, p) && d.clock == s.clock && d.gate == s.gate && d.bucket == s.bucket
    ensures d.calls == s.calls[id := s.calls[id].(pc := AwaitSlot,
                                                  ticket := if k.breaker.Some? then Some(ADMISSION.ticket) else None)]
    ensures SameSends(s.calls, d.calls)
  {
    var c := s.calls[id];
    if k.breaker.Some? {
      ClosedAdmits(k, s.breaker, id, c.entryNow);
    }
    hide Reachable, AccountsAfter, SentIn, SameSends, CallsAt, BucketAt, Breaker.Allow, Probing.AfterKnock;
    d := Go(k, s, id, Enter(ADMISSION));
    PoseAfter(s.calls, p.ready, p.busy, id, d.calls[id]);
    Untouched(s.calls, id, d.calls[id]);
  }

  lemma GrabKeepsTime(k: Config, b: BucketOps.State, clock: int, tokens: int, left: int, next: int, id: nat)
    requires k.plan.Some? && BucketAt(k, b, clock, tokens, left, next) && tokens > 0
    ensures BucketAt(k, BucketOps.Do(k.plan.value, b, BucketOps.Grab(clock, id)), clock, tokens - 1, left, next)
  {
    RateBound.Snoc(b.log, RateBound.Take(clock, id));
  }

  lemma GrabsNow(k: Config, s: State, id: nat) returns (d: State)
    requires Reachable(k, s) && Enabled(k, s, Do(id, GrabToken))
    ensures Reachable(k, d) && d.clock == s.clock && d.gate == s.gate && d.breaker == s.breaker
    ensures k.plan.Some? && d.bucket == BucketOps.Do(k.plan.value, s.bucket, BucketOps.Grab(s.clock, id))
    ensures d.calls == s.calls[id := s.calls[id].(pc := HasToken, tokens := s.calls[id].tokens + 1)]
  {
    hide Reachable, AccountsAfter;
    d := Go(k, s, id, GrabToken);
  }

  lemma Grabs(k: Config, s: State, p: Pose, id: nat) returns (d: State)
    requires Posed(k, s, p) && id in p.busy && s.calls[id].pc.TokenFast? && k.plan.Some? && p.tokens > 0
    ensures Posed(k, d, p.(tokens := p.tokens - 1)) && d.clock == s.clock && d.gate == s.gate
    ensures d.calls == s.calls[id := s.calls[id].(pc := HasToken, tokens := s.calls[id].tokens + 1)]
  {
    assert s.bucket.tokens == p.tokens && id in s.calls;
    GrabKeepsTime(k, s.bucket, s.clock, p.tokens, p.left, p.next, id);
    assert Enabled(k, s, Do(id, GrabToken));
    hide Reachable, CallsAt, BucketAt, Enabled, BucketOps.Do;
    d := GrabsNow(k, s, id);
    PoseAfter(s.calls, p.ready, p.busy, id, s.calls[id].(pc := HasToken, tokens := s.calls[id].tokens + 1));
  }

  lemma Skips(k: Config, s: State, p: Pose, id: nat) returns (d: State)
    requires Posed(k, s, p) && id in p.busy && s.calls[id].pc.TokenFast? && k.plan.None?
    ensures Posed(k, d, p.(tokens := p.tokens - 1)) && d.clock == s.clock && d.gate == s.gate
    ensures d.calls == s.calls[id := s.calls[id].(pc := HasToken)]
  {
    assert id in s.calls;
    hide Reachable, AccountsAfter, CallsAt;
    d := Go(k, s, id, SkipToken);
    PoseAfter(s.calls, p.ready, p.busy, id, s.calls[id].(pc := HasToken));
  }

  /** The token, if there is a bucket. */
  lemma TakesToken(k: Config, s: State, p: Pose, id: nat) returns (d: State)
    requires Posed(k, s, p) && id in p.busy && s.calls[id].pc.TokenFast? && (k.plan.Some? ==> p.tokens > 0)
    ensures Posed(k, d, p.(tokens := p.tokens - 1)) && d.clock == s.clock && d.gate == s.gate
    ensures d.calls == s.calls[id := d.calls[id]] && d.calls[id].pc.HasToken?
    ensures d.calls[id] == s.calls[id].(pc := HasToken, tokens := d.calls[id].tokens)
    ensures SameSends(s.calls, d.calls)
  {
    assert id in s.calls;
    hide Posed, SameSends;
    if k.plan.Some? {
      d := Grabs(k, s, p, id);
    } else {
      d := Skips(k, s, p, id);
    }
    Untouched(s.calls, id, d.calls[id]);
  }

  // -------------------------------------------------------------------------
  // The way to the transport

  /** Who holds a slot is about to send or on its way. */
  lemma HolderIsPlaced(k: Config, s: State, p: Pose, id: nat, i: nat)
    requires Inv(k, s) && k.maxConcurrent > 0 && CallsAt(s.calls, p.ready, p.busy) && i in s.holders
    requires id in s.calls && s.calls[id].pc.AwaitSlot?
    ensures i in p.ready + (p.busy - {id})
  {
    assert SlotsInv(k, s.inUse, s.holders, s.calls);
    assert CallInv(k, s.calls[i], s.clock) && Holding(k, s.calls[i]);
    hide Inv, CallInv;
  }

  lemma SlotsOfInv(k: Config, s: State)
    requires Inv(k, s)
    ensures s.inUse == |s.holders|
  {
    assert SlotsInv(k, s.inUse, s.holders, s.calls);
    hide Inv;
  }

  /** With a slot free for it, a busy call can have one. */
  lemma SlotIsFree(k: Config, s: State, p: Pose, id: nat)
    requires Posed(k, s, p) && id in p.busy && s.calls[id].pc.AwaitSlot?
    requires k.maxConcurrent > 0 ==> |p.ready| + |p.busy| <= k.maxConcurrent
    ensures k.maxConcurrent > 0 ==> s.inUse < k.maxConcurrent
  {
    if k.maxConcurrent > 0 {
      assert CallsAt(s.calls, p.ready, p.busy) && k.Valid() && Reachable(k, s) && id in s.calls;
      hide *;
      ReachableInv(k, s);
      SlotsOfInv(k, s);
      forall i | i in s.holders ensures i in p.ready + (p.busy - {id}) {
        HolderIsPlaced(k, s, p, id, i);
      }
      AllButOne(s.holders, p.ready, p.busy, id);
    }
  }

  lemma TakesFreeSlot(k: Config, s: State, p: Pose, id: nat) returns (d: State)
    requires Posed(k, s, p) && id in p.busy && s.calls[id].pc.AwaitSlot?
    requires k.maxConcurrent > 0 ==> s.inUse < k.maxConcurrent
    ensures Posed(k, d, p) && d.clock == s.clock && d.gate == s.gate && d.bucket == s.bucket
    ensures d.calls == s.calls[id := s.calls[id].(slot := k.maxConcurrent > 0, start := s.clock, pc := LoopHead)]
    ensures SameSends(s.calls, d.calls)
  {
    assert id in s.calls && k.maxRetries >= 0;
    hide Posed, SameSends;
    d := BusyMove(k, s, p, id, TakeSlot,
                  s.calls[id].(slot := k.maxConcurrent > 0, start := s.clock, pc := LoopHead));
  }

  lemma TakesSlot(k: Config, s: State, p: Pose, id: nat) returns (d: State)
    requires Posed(k, s, p) && id in p.busy && s.calls[id].pc.AwaitSlot?
    requires k.maxConcurrent > 0 ==> |p.ready| + |p.busy| <= k.maxConcurrent
    ensures Posed(k, d, p) && d.clock == s.clock && d.gate == s.gate && d.bucket == s.bucket
    ensures d.calls == s.calls[id := s.calls[id].(slot := k.maxConcurrent > 0, start := s.clock, pc := LoopHead)]
    ensures SameSends(s.calls, d.calls)
  {
    SlotIsFree(k, s, p, id);
    hide Posed, SameSends;
    d := TakesFreeSlot(k, s, p, id);
  }

  lemma PassesGate(k: Config, s: State, p: Pose, id: nat) returns (d: State)
    requires Posed(k, s, p) && id in p.busy && s.calls[id].pc.LoopHead? && s.gate <= s.clock
    ensures Posed(k, d, p) && d.clock == s.clock && d.gate == s.gate && d.bucket == s.bucket
    ensures d.calls == s.calls[id := s.calls[id].(pc := TokenFast, emptyAt := None)]
    ensures SameSends(s.calls, d.calls)
  {
    assert id in s.calls;
    hide Posed, SentIn;
    d := s;
    if k.retryAfterMax > 0 {
      d := ReadsGate(k, s, p, id);
    }
    d := BusyMove(k, d, p, id, PassGate, s.calls[id].(pc := TokenFast, emptyAt := None));
  }

  lemma ReadsGate(k: Config, s: State, p: Pose, id: nat) returns (d: State)
    requires Posed(k, s, p) && id in p.busy && s.calls[id].pc.LoopHead? && k.retryAfterMax > 0
    ensures Posed(k, d, p) && d.clock == s.clock && d.gate == s.gate && d.bucket == s.bucket
    ensures d.calls == s.calls[id := s.calls[id].(pc := GateRead(s.gate))]
    ensures SameSends(s.calls, d.calls)
  {
    assert id in s.calls;
    hide Posed, SameSends;
    d := BusyMove(k, s, p, id, ReadGate(s.gate), s.calls[id].(pc := GateRead(s.gate)));
  }

  /** The gate is still closed: the call goes to sleep. */
  lemma Dozes(k: Config, s: State, p: Pose, id: nat) returns (d: State)
    requires Posed(k, s, p) && id in p.busy && s.calls[id].pc.LoopHead? && k.retryAfterMax > 0 && s.clock < s.gate
    ensures Posed(k, d, p) && d.clock == s.clock && d.gate == s.gate && d.bucket == s.bucket
    ensures id in d.calls && d.calls == s.calls[id := s.calls[id].(pc := Asleep(s.gate))]
    ensures SameSends(s.calls, d.calls)
  {
    assert id in s.calls;
    hide Posed, SameSends;
    var read := ReadsGate(k, s, p, id);
    d := BusyMove(k, read, p, id, Doze, s.calls[id].(pc := Asleep(s.gate)));
    SendsChain(s.calls, read.calls, d.calls);
  }

  /** What it has seen has passed: the call looks again. */
  lemma Rises(k: Config, s: State, p: Pose, id: nat) returns (d: State)
    requires Posed(k, s, p) && id in p.busy && s.calls[id].pc.Asleep? && s.calls[id].pc.seen <= s.clock
    ensures Posed(k, d, p) && d.clock == s.clock && d.gate == s.gate && d.bucket == s.bucket
    ensures id in d.calls && d.calls == s.calls[id := s.calls[id].(pc := LoopHead)]
    ensures SameSends(s.calls, d.calls)
  {
    assert id in s.calls;
    hide Posed, SameSends;
    d := BusyMove(k, s, p, id, Reread, s.calls[id].(pc := LoopHead));
  }

  lemma FindsEmpty(k: Config, s: State, p: Pose, id: nat) returns (d: State)
    requires Posed(k, s, p) && id in p.busy && s.calls[id].pc.TokenFast? && k.plan.Some? && p.tokens == 0
    ensures Posed(k, d, p) && d.clock == s.clock && d.gate == s.gate && d.bucket == s.bucket
    ensures id in d.calls && d.calls == s.calls[id := s.calls[id].(pc := TokenSlow, emptyAt := Some(|s.bucket.log|))]
    ensures SameSends(s.calls, d.calls)
  {
    assert id in s.calls && s.bucket.tokens == 0;
    hide Posed, SameSends;
    d := BusyMove(k, s, p, id, FindEmpty(|s.bucket.log|),
                  s.calls[id].(pc := TokenSlow, emptyAt := Some(|s.bucket.log|)));
  }

  lemma Records(k: Config, s: State, p: Pose, id: nat) returns (d: State)
    requires Posed(k, s, p) && id in p.busy && s.calls[id].pc.HasToken? && s.calls[id].attempt == 0
    ensures Posed(k, d, p.(ready := p.ready + {id}, busy := p.busy - {id}))
    ensures d.clock == s.clock && d.gate == s.gate && d.bucket == s.bucket
    ensures id in d.calls && d.calls == s.calls[id := d.calls[id]]
    ensures d.calls[id] == s.calls[id].(pc := Ready, account := Open, tried := s.calls[id].tried + 1)
    ensures SameSends(s.calls, d.calls)
  {
    assert id in s.calls;
    var c := s.calls[id].(pc := Ready, account := Open, tried := s.calls[id].tried + 1);
    PoseAfter(s.calls, p.ready, p.busy, id, c);
    hide SameSends, Reachable, BucketAt, CallsAt;
    d := BusyMove(k, s, p, id, NoteAttempt, c);
  }

  const PLAIN := Request(true, "", "", None, false)

  /** A new call is admitted. */
  lemma IsAdmitted(k: Config, s: State, p: Pose, req: Request) returns (d: State, id: nat)
    requires Posed(k, s, p) && req.wellFormed
    ensures Posed(k, d, p.(busy := p.busy + {id})) && d.clock == s.clock && d.gate == s.gate && d.bucket == s.bucket
    ensures id !in s.calls && id in d.calls && d.calls == s.calls[id := d.calls[id]]
    ensures d.calls[id] == NewCall(req, s.clock).(pc := AwaitSlot, ticket := d.calls[id].ticket)
    ensures d.calls[id].ticket.Some? == k.breaker.Some?
    ensures SameSends(s.calls, d.calls)
  {
    var begun;
    begun, id := Begins(k, s, p, req);
    hide Posed, SameSends, Enabled;
    d := Enters(k, begun, p.(busy := p.busy + {id}), id);
    SendsChain(s.calls, begun.calls, d.calls);
  }

  /** At the head of its first loop. */
  predicate Fresh(c: Call, req: Request, now: int) {
    && c.pc.LoopHead? && c.attempt == 0 && c.sends == [] && c.req == req && c.start == now && c.lastErr.None?
    && c.emptyAt.None? && !c.turnedAway
  }

  /** A new call gets as far as the head of its loop. */
  lemma Arrive(k: Config, s: State, p: Pose, req: Request) returns (d: State, id: nat)
    requires Posed(k, s, p) && req.wellFormed
    requires k.maxConcurrent > 0 ==> |p.ready| + |p.busy| < k.maxConcurrent
    ensures Posed(k, d, p.(busy := p.busy + {id})) && d.clock == s.clock && d.gate == s.gate && d.bucket == s.bucket
    ensures id !in s.calls && id in d.calls && d.calls == s.calls[id := d.calls[id]]
    ensures Fresh(d.calls[id], req, s.clock) && d.calls[id].ticket.Some? == k.breaker.Some?
    ensures SameSends(s.calls, d.calls)
  {
    assert p.busy <= s.calls.Keys;
    hide Posed, SameSends, Enabled;
    var entered;
    entered, id := IsAdmitted(k, s, p, req);
    d := TakesSlot(k, entered, p.(busy := p.busy + {id}), id);
    SendsChain(s.calls, entered.calls, d.calls);
  }

  /** From the head of the loop to a recorded attempt. */
  lemma Pays(k: Config, s: State, p: Pose, id: nat) returns (d: State)
    requires Posed(k, s, p) && id in p.busy && s.gate <= s.clock && (k.plan.Some? ==> p.tokens > 0)
    requires s.calls[id].pc.LoopHead? && s.calls[id].attempt == 0
    ensures Posed(k, d, p.(ready := p.ready + {id}, busy := p.busy - {id}, tokens := p.tokens - 1))
    ensures d.clock == s.clock && d.gate == s.gate
    ensures id in d.calls && d.calls == s.calls[id := d.calls[id]]
    ensures d.calls[id].sends == s.calls[id].sends && d.calls[id].start == s.calls[id].start
    ensures d.calls[id].req == s.calls[id].req
    ensures SameSends(s.calls, d.calls)
  {
    assert id in s.calls;
    hide *;
    var passed := PassesGate(k, s, p, id);
    var paid := TakesToken(k, passed, p, id);
    d := Records(k, paid, p.(tokens := p.tokens - 1), id);
    SendsChain(s.calls, passed.calls, paid.calls);
    SendsChain(s.calls, paid.calls, d.calls);
  }

  lemma IsFresh(c: Call, req: Request, now: int)
    requires Fresh(c, req, now)
    ensures c.pc.LoopHead? && c.attempt == 0 && c.sends == [] && c.start == now
  {
  }

  /** A new call takes a token and holds it. */
  lemma Hold(k: Config, s: State, p: Pose) returns (d: State, id: nat)
    requires Posed(k, s, p) && s.gate <= s.clock && (k.plan.Some? ==> p.tokens > 0)
    requires k.maxConcurrent > 0 ==> |p.ready| + |p.busy| < k.maxConcurrent
    ensures Posed(k, d, p.(ready := p.ready + {id}, tokens := p.tokens - 1)) && d.clock == s.clock && d.gate == s.gate
    ensures id !in s.calls && id !in p.ready && id !in p.busy && id in d.calls && d.calls == s.calls[id := d.calls[id]]
    ensures d.calls[id].sends == [] && d.calls[id].start == s.clock
    ensures SameSends(s.calls, d.calls)
  {
    assert p.busy <= s.calls.Keys && p.ready <= s.calls.Keys;
    hide *;
    var there;
    there, id := Arrive(k, s, p, PLAIN);
    IsFresh(there.calls[id], PLAIN, s.clock);
    var q := p.(busy := p.busy + {id});
    d := Pays(k, there, q, id);
    SendsChain(s.calls, there.calls, d.calls);
    assert p.(ready := p.ready + {id}, tokens := p.tokens - 1)
        == q.(ready := q.ready + {id}, busy := q.busy - {id}, tokens := q.tokens - 1);
  }

  /** A call that holds a token sends. */
  lemma Shoot(k: Config, s: State, p: Pose, id: nat) returns (d: State)
    requires Posed(k, s, p) && id in p.ready
    ensures Posed(k, d, p.(ready := p.ready - {id}, busy := p.busy + {id}))
    ensures d.clock == s.clock && d.gate == s.gate && d.bucket == s.bucket
    ensures d.calls == s.calls[id := d.calls[id]] && id in d.calls
    ensures d.calls[id] == AfterLaunch(s.calls[id], 0, s.clock)
    ensures Adds(s.calls, d.calls, s.clock, 1)
  {
    var c := s.calls[id];
    assert id in s.calls && c.pc.Ready? && c.attempt == 0;
    hide Reachable, AccountsAfter, SentIn, BucketAt, Payload;
    d := Go(k, s, id, Launch(0));
    LaunchAdds(s.calls, id, d.calls[id], Send(s.clock, Payload(c)));
  }

  lemma LaunchAdds(calls: Calls, id: nat, d: Call, x: Send)
    requires id in calls && d.sends == calls[id].sends + [x]
    ensures Adds(calls, calls[id := d], x.at, 1)
  {
    forall from, upto
      ensures |SentIn(calls[id := d], from, upto)|
              == |SentIn(calls, from, upto)| + if from <= x.at < upto then 1 else 0
    {
      SentSize(calls, id, d, x, from, upto);
    }
    hide SentIn;
  }

  const CANCELLED := Wrapped(UrlError, Sentinel(Canceled))

  /** The caller cancels a request on its way: the transport fails with that. */
  lemma Breaks(k: Config, s: State, p: Pose, id: nat) returns (d: State)
    requires Posed(k, s, p) && id in p.busy && s.calls[id].pc.Flight?
    ensures Posed(k, d, p) && d.clock == s.clock && d.gate == s.gate && d.bucket == s.bucket
    ensures id in d.calls && d.calls == s.calls[id := s.calls[id].(pc := Errored(CANCELLED))]
    ensures SameSends(s.calls, d.calls)
  {
    assert id in s.calls;
    hide Posed, SameSends;
    d := BusyMove(k, s, p, id, Break(CANCELLED), s.calls[id].(pc := Errored(CANCELLED)));
  }

  lemma NotesError(k: Config, s: State, p: Pose, id: nat) returns (d: State)
    requires Posed(k, s, p) && id in p.busy && s.calls[id].pc == Errored(CANCELLED)
    ensures Posed(k, d, p) && d.clock == s.clock && d.gate == s.gate && d.bucket == s.bucket
    ensures id in d.calls && d.calls == s.calls[id := d.calls[id]] && d.calls[id].pc == Judging(CANCELLED)
    ensures SameSends(s.calls, d.calls)
  {
    assert id in s.calls;
    hide Posed, SameSends;
    d := BusyMove(k, s, p, id, NoteError,
                  s.calls[id].(pc := Judging(CANCELLED), lastErr := Some(CANCELLED), account := Settled));
  }

  lemma GivesUp(k: Config, s: State, p: Pose, id: nat) returns (d: State)
    requires Posed(k, s, p) && id in p.busy && s.calls[id].pc == Judging(CANCELLED)
    ensures Posed(k, d, p) && d.clock == s.clock && d.gate == s.gate && d.bucket == s.bucket
    ensures id in d.calls && d.calls == s.calls[id := s.calls[id].(pc := Returning(Failed(CANCELLED)))]
    ensures SameSends(s.calls, d.calls)
  {
    assert id in s.calls;
    hide Posed, SameSends;
    d := BusyMove(k, s, p, id, Judge(false), s.calls[id].(pc := Returning(Failed(CANCELLED))));
  }

  lemma Frees(k: Config, s: State, p: Pose, id: nat, r: Result) returns (d: State)
    requires Posed(k, s, p) && id in p.busy && s.calls[id].pc == Returning(r)
    ensures Posed(k, d, p) && d.clock == s.clock && d.gate == s.gate && d.bucket == s.bucket
    ensures id in d.calls && d.calls == s.calls[id := s.calls[id].(pc := Reporting(r), slot := false)]
    ensures SameSends(s.calls, d.calls)
  {
    assert id in s.calls;
    hide Posed, SameSends;
    d := BusyMove(k, s, p, id, ReleaseSlot, s.calls[id].(pc := Reporting(r), slot := false));
  }

  lemma IsJudged(k: Config, s: State, p: Pose, id: nat) returns (d: State)
    requires Posed(k, s, p) && id in p.busy && s.calls[id].pc.Flight?
    ensures Posed(k, d, p) && d.clock == s.clock && d.gate == s.gate && d.bucket == s.bucket
    ensures id in d.calls && d.calls == s.calls[id := d.calls[id]] && d.calls[id].pc == Judging(CANCELLED)
    ensures SameSends(s.calls, d.calls)
  {
    assert id in s.calls;
    hide *;
    var broken := Breaks(k, s, p, id);
    d := NotesError(k, broken, p, id);
    SendsChain(s.calls, broken.calls, d.calls);
  }

  lemma IsReporting(k: Config, s: State, p: Pose, id: nat) returns (d: State)
    requires Posed(k, s, p) && id in p.busy && s.calls[id].pc == Judging(CANCELLED)
    ensures Posed(k, d, p) && d.clock == s.clock && d.gate == s.gate && d.bucket == s.bucket
    ensures id in d.calls && d.calls == s.calls[id := d.calls[id]]
    ensures d.calls[id].pc == Reporting(Failed(CANCELLED))
    ensures SameSends(s.calls, d.calls)
  {
    assert id in s.calls;
    hide *;
    var returning := GivesUp(k, s, p, id);
    d := Frees(k, returning, p, id, Failed(CANCELLED));
    SendsChain(s.calls, returning.calls, d.calls);
  }

  lemma Cancels(k: Config, s: State, p: Pose, id: nat) returns (d: State)
    requires Posed(k, s, p) && id in p.busy && s.calls[id].pc.Flight?
    ensures Posed(k, d, p) && d.clock == s.clock && d.gate == s.gate && d.bucket == s.bucket
    ensures id in d.calls && d.calls == s.calls[id := d.calls[id]]
    ensures d.calls[id].pc == Reporting(Failed(CANCELLED))
    ensures SameSends(s.calls, d.calls)
  {
    assert id in s.calls;
    hide *;
    var judging := IsJudged(k, s, p, id);
    d := IsReporting(k, judging, p, id);
    SendsChain(s.calls, judging.calls, d.calls);
  }

  lemma NeutralKeepsClosed(k: Config, b: Probing.State, id: nat)
    requires k.breaker.Some? && IsClosed(k, b) && id in b.live
    ensures IsClosed(k, Probing.AfterAnswer(k.breaker.value, b, id, Neutral))
  {
  }

  lemma ReportIsNeutral(k: Config, c: Call, t: int)
    requires c.pc == Reporting(Failed(CANCELLED))
    ensures EffectOf(k, c, FileReport, t)
            == if k.breaker.Some? && c.ticket.Some? then Filed(Neutral) else Effect.Quiet
    ensures Step(k, c, FileReport, t).pc.Done? && Step(k, c, FileReport, t).sends == c.sends
  {
    LinearCancelIsNeutral(CANCELLED, c.lastErr.Some?, k.statusFailMin);
    hide Verdict;
  }

  /** Its report is neutral, so the circuit stays closed. */
  lemma Leaves(k: Config, s: State, p: Pose, id: nat) returns (d: State)
    requires Posed(k, s, p) && id in p.busy && s.calls[id].pc == Reporting(Failed(CANCELLED))
    ensures Posed(k, d, p.(busy := p.busy - {id}))
    ensures d.clock == s.clock && d.gate == s.gate && d.bucket == s.bucket
    ensures id in d.calls && d.calls == s.calls[id := d.calls[id]]
    ensures SameSends(s.calls, d.calls)
  {
    var c := s.calls[id];
    assert id in s.calls && Can(k, c, FileReport, s.clock);
    ReportIsNeutral(k, c, s.clock);
    hide Reachable, AccountsAfter, SentIn, SameSends, CallsAt, BucketAt, EffectOf, Step, Probing.AfterAnswer;
    if k.breaker.Some? && id in s.breaker.live {
      NeutralKeepsClosed(k, s.breaker, id);
    }
    d := Go(k, s, id, FileReport);
    PoseAfter(s.calls, p.ready, p.busy, id, d.calls[id]);
    Untouched(s.calls, id, d.calls[id]);
  }

  /** A call that holds a token sends, is cancelled and leaves. */
  lemma ShootAndLeave(k: Config, s: State, p: Pose, id: nat) returns (d: State)
    requires Posed(k, s, p) && id in p.ready
    ensures Posed(k, d, p.(ready := p.ready - {id})) && d.clock == s.clock && d.gate == s.gate && d.bucket == s.bucket
    ensures Adds(s.calls, d.calls, s.clock, 1)
  {
    assert id !in p.busy;
    hide *;
    var q := p.(ready := p.ready - {id}, busy := p.busy + {id});
    var shot := Shoot(k, s, p, id);
    assert shot.calls[id].pc.Flight?;
    var cancelled := Cancels(k, shot, q, id);
    d := Leaves(k, cancelled, q, id);
    assert q.(busy := q.busy - {id}) == p.(ready := p.ready - {id});
    SendsChain(shot.calls, cancelled.calls, d.calls);
    SameAdds(shot.calls, d.calls, s.clock);
    AddsChain(s.calls, shot.calls, d.calls, s.clock, 1, 0);
  }

  /** A new call takes a token and sends at once. */
  lemma SendOne(k: Config, s: State, p: Pose) returns (d: State)
    requires Posed(k, s, p) && s.gate <= s.clock && k.plan.Some? && p.tokens > 0
    requires k.maxConcurrent > 0 ==> |p.ready| + |p.busy| < k.maxConcurrent
    ensures Posed(k, d, p.(tokens := p.tokens - 1)) && d.clock == s.clock && d.gate == s.gate
    ensures Adds(s.calls, d.calls, s.clock, 1)
  {
    hide *;
    var held, id := Hold(k, s, p);
    d := ShootAndLeave(k, held, p.(ready := p.ready + {id}, tokens := p.tokens - 1), id);
    assert p.ready + {id} - {id} == p.ready;
    SameAdds(s.calls, held.calls, s.clock);
    AddsChain(s.calls, held.calls, d.calls, s.clock, 0, 1);
  }

  // -------------------------------------------------------------------------
  // A pause is asked for

  /** The server answers 429 and names a date. */
  lemma Answers(k: Config, s: State, p: Pose, id: nat, delay: int) returns (d: State)
    requires Posed(k, s, p) && id in p.busy && s.calls[id].pc.Flight? && 0 <= delay <= k.retryAfterMax
    ensures Posed(k, d, p) && d.clock == s.clock && d.gate == s.gate && d.bucket == s.bucket
    ensures id in d.calls
    ensures d.calls == s.calls[id := s.calls[id].(pc := Answered(Gate.TOO_MANY_REQUESTS, Gate.Date(delay)))]
    ensures SameSends(s.calls, d.calls)
  {
    assert id in s.calls && k.retryAfterMax <= MAX_INT64;
    hide Posed, SameSends;
    d := BusyMove(k, s, p, id, Respond(Gate.TOO_MANY_REQUESTS, Gate.Date(delay)),
                  s.calls[id].(pc := Answered(Gate.TOO_MANY_REQUESTS, Gate.Date(delay))));
  }

  lemma TakesNote(k: Config, s: State, p: Pose, id: nat, delay: int) returns (d: State)
    requires Posed(k, s, p) && id in p.busy && 0 < k.retryAfterMax && 0 <= delay <= k.retryAfterMax
    requires s.calls[id].pc == Answered(Gate.TOO_MANY_REQUESTS, Gate.Date(delay))
    ensures Posed(k, d, p) && d.clock == s.clock && d.gate == s.gate && d.bucket == s.bucket
    ensures id in d.calls && d.calls == s.calls[id := d.calls[id]]
    ensures d.calls[id] == s.calls[id].(pc := Noted(Gate.TOO_MANY_REQUESTS, delay), account := Settled)
    ensures SameSends(s.calls, d.calls)
  {
    assert id in s.calls;
    hide Posed, SameSends;
    d := BusyMove(k, s, p, id, NoteResponse,
                  s.calls[id].(pc := Noted(Gate.TOO_MANY_REQUESTS, delay), account := Settled));
  }

  lemma Asks(k: Config, s: State, p: Pose, id: nat, delay: int) returns (d: State)
    requires Posed(k, s, p) && id in p.busy && s.calls[id].pc.Flight?
    requires 0 < k.retryAfterMax && 0 <= delay <= k.retryAfterMax
    ensures Posed(k, d, p) && d.clock == s.clock && d.gate == s.gate && d.bucket == s.bucket
    ensures id in d.calls && d.calls == s.calls[id := d.calls[id]]
    ensures d.calls[id].pc == Noted(Gate.TOO_MANY_REQUESTS, delay) && d.calls[id].req == s.calls[id].req
    ensures SameSends(s.calls, d.calls)
  {
    assert id in s.calls;
    hide *;
    var answered := Answers(k, s, p, id, delay);
    d := TakesNote(k, answered, p, id, delay);
    SendsChain(s.calls, answered.calls, d.calls);
  }

  /** And the gate is armed at once. */
  lemma Arms(k: Config, s: State, p: Pose, id: nat) returns (d: State)
    requires Posed(k, s, p) && id in p.busy && s.calls[id].pc.Noted?
    requires s.clock + s.calls[id].pc.delay <= MAX_INT64
    ensures Posed(k, d, p) && d.clock == s.clock && d.bucket == s.bucket
    ensures d.gate == Gate.Max(s.gate, s.clock + s.calls[id].pc.delay)
    ensures id in d.calls && d.calls == s.calls[id := d.calls[id]]
    ensures d.calls[id] == AfterArm(k, s.calls[id], s.clock + s.calls[id].pc.delay)
    ensures SameSends(s.calls, d.calls)
  {
    assert id in s.calls && k.Valid() && Reachable(k, s);
    var a := Arm(s.clock);
    Pausing.AboutToArm(k, s, id);
    WrapRange(s.clock + s.calls[id].pc.delay);
    assert Enabled(k, s, Do(id, a));
    Pausing.ArmsWith(k, s, id, s.clock);
    assert Step(k, s.calls[id], a, s.clock) == AfterArm(k, s.calls[id], s.clock + s.calls[id].pc.delay);
    hide Posed, SameSends, Enabled, Step, Next, AfterArm, Reachable, Wrap;
    d := BusyStep(k, s, p, id, a);
  }

  /** A request that cannot be sent twice. */
  const ONE_WAY := Request(true, "", "", Some([]), false)

  lemma BusyIsKnown(k: Config, s: State, p: Pose, id: nat)
    requires Posed(k, s, p) && id in p.busy
    ensures id in s.calls && id !in p.ready
  {
  }

  /** A call sends, is told to wait, arms the gate and gives its slot back. */
  lemma ArmsAndFrees(k: Config, s: State, p: Pose, a: nat, delay: int) returns (d: State)
    requires Posed(k, s, p) && a in p.busy && s.gate <= s.clock && s.clock + delay <= MAX_INT64
    requires s.calls[a].pc.LoopHead? && s.calls[a].attempt == 0 && s.calls[a].req == ONE_WAY
    requires k.retryAfterMax > 0 && 1 <= delay <= k.retryAfterMax && (k.plan.Some? ==> p.tokens > 0)
    ensures Posed(k, d, p.(tokens := p.tokens - 1)) && d.clock == s.clock && d.gate == s.clock + delay
    ensures a in d.calls && d.calls == s.calls[a := d.calls[a]] && d.calls[a].pc.Reporting?
  {
    hide Posed, SameSends, Adds;
    BusyIsKnown(k, s, p, a);
    var q := p.(tokens := p.tokens - 1);
    var ready := p.(ready := p.ready + {a}, busy := p.busy - {a}, tokens := p.tokens - 1);
    var paid := Pays(k, s, p, a);
    var shot := Shoot(k, paid, ready, a);
    assert ready.(ready := ready.ready - {a}, busy := ready.busy + {a}) == q;
    var asked := Asks(k, shot, q, a, delay);
    var armed := Arms(k, asked, q, a);
    d := Frees(k, armed, q, a, Response(Gate.TOO_MANY_REQUESTS));
  }

  // -------------------------------------------------------------------------
  // Time and the refiller

  /** Time passes between batches. */
  lemma Waits(k: Config, s: State, p: Pose, t: int) returns (d: State)
    requires Posed(k, s, p) && p.left == 0 && s.clock <= t
    ensures Posed(k, d, p) && d == s.(clock := t, breaker := s.breaker.(clock := t))
  {
    hide Reachable, CallsAt;
    Extend(k, s, Pass(t));
    d := Next(k, s, Pass(t));
  }

  /** A tick that keeps its distance. */
  lemma TickStarts(k: Config, s: State, p: Pose) returns (d: State)
    requires Posed(k, s, p) && k.plan.Some? && p.left == 0 && p.next <= s.clock
    ensures Posed(k, d, p.(left := k.plan.value.perTick, next := s.clock + k.plan.value.interval))
    ensures d == s.(bucket := d.bucket)
  {
    RateBound.Snoc(s.bucket.log, RateBound.Tick(s.clock));
    assert k.plan.value.Valid();
    hide Reachable, CallsAt;
    d := Refills(k, s, BucketOps.Fire(s.clock));
  }

  /** One pass of its batch. */
  lemma FeedsOne(k: Config, s: State, p: Pose) returns (d: State)
    requires Posed(k, s, p) && k.plan.Some? && p.left > 0
    ensures var full := p.tokens >= k.plan.value.capacity;
            Posed(k, d, p.(tokens := p.tokens + (if full then 0 else 1), left := if full then 0 else p.left - 1))
    ensures d == s.(bucket := d.bucket)
  {
    RateBound.Snoc(s.bucket.log, RateBound.Put(s.clock));
    RateBound.Snoc(s.bucket.log, RateBound.Full(s.clock));
    hide Reachable, CallsAt;
    d := Refills(k, s, BucketOps.Feed(s.clock));
  }

  lemma {:induction false} FeedsAll(k: Config, s: State, p: Pose) returns (d: State)
    requires Posed(k, s, p) && k.plan.Some? && p.left >= 0 && p.tokens <= k.plan.value.capacity
    ensures Posed(k, d, p.(tokens := Min(k.plan.value.capacity, p.tokens + p.left), left := 0))
    ensures d == s.(bucket := d.bucket)
    decreases p.left
  {
    hide Posed;
    d := s;
    if p.left > 0 {
      d := FeedsOne(k, s, p);
      if p.tokens < k.plan.value.capacity {
        d := FeedsAll(k, d, p.(tokens := p.tokens + 1, left := p.left - 1));
      }
    }
    assert p.left == 0 ==> p.(tokens := Min(k.plan.value.capacity, p.tokens + p.left), left := 0) == p;
  }

  /** The ticker fires at its earliest, and the batch takes no time. */
  lemma Ticks(k: Config, s: State, p: Pose) returns (d: State)
    requires Posed(k, s, p) && k.plan.Some? && p.left == 0 && s.clock <= p.next
    ensures Posed(k, d, p.(tokens := Min(k.plan.value.capacity, p.tokens + k.plan.value.perTick),
                           next := p.next + k.plan.value.interval))
    ensures d.clock == p.next && d.calls == s.calls && d.gate == s.gate
  {
    assert k.plan.value.Valid() && p.tokens <= k.plan.value.capacity;
    hide Posed;
    d := Waits(k, s, p, p.next);
    d := TickStarts(k, d, p);
    d := FeedsAll(k, d, p.(left := k.plan.value.perTick, next := p.next + k.plan.value.interval));
  }

  /** `Stop` begins. */
  lemma Shuts(k: Config, s: State, p: Pose) returns (d: State)
    requires Posed(k, s, p) && k.plan.Some?
    ensures Posed(k, d, p) && d == s.(bucket := s.bucket.(closed := true))
  {
    hide Reachable, CallsAt;
    d := Refills(k, s, BucketOps.Shut);
  }

  // -------------------------------------------------------------------------
  // From the start

  function StartPose(k: Config, t0: int): Pose {
    Pose({}, {}, if k.plan.Some? then k.plan.value.capacity else 0, 0, t0)
  }

  lemma Starts(k: Config, t0: int) returns (s: State)
    requires k.Valid() && k.maxRetries >= 0 && SECOND <= t0
    ensures Posed(k, s, StartPose(k, t0)) && s.clock == t0 && s.gate == 0 && s.calls == map[]
  {
    s := Init(k, t0);
    InitIsReachable(k, t0);
    hide Reachable;
  }
}
