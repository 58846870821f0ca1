/** Exactly which sends can still precede a deadline that the gate holds. */
module Exempting {
  import opened Errors
  import opened Bucket
  import RateBound
  import BucketOps
  import opened DoCalls
  import opened CallInvs
  import opened Circuit
  import opened Pausing
  import opened Sending

  predicate HasSentBefore(s: State, id: nat, n: nat, g: int) {
    id in s.calls && n < |s.calls[id].sends| && s.calls[id].sends[n].at < g
  }

  /** The ticker has kept its pace. */
  ghost predicate OnPace(k: Config, s: State) { k.plan.Some? ==> RateBound.Timed(k.plan.value, s.bucket.log) }

  /** In some continuation in which the ticker keeps its pace, send number `n` of
      the call comes before `g`. */
  ghost predicate CanPrecede(k: Config, s: State, id: nat, n: nat, g: int) {
    exists es :: CanRun(k, s, es) && OnPace(k, After(k, s, es)) && HasSentBefore(After(k, s, es), id, n, g)
  }

  /** The earliest time of the next tick. */
  function NextTick(p: Plan, b: BucketOps.State, now: int): int {
    var last := RateBound.LastTick(b.log);
    if last.Some? && now < last.value + p.interval then last.value + p.interval else now
  }

  /** A token is there before `g`, or can come: from the batch of this very moment
      or from the next tick. */
  predicate Supplied(p: Plan, b: BucketOps.State, now: int, g: int) {
    || b.tokens > 0
    || (if b.left > 0 then RateBound.LastTick(b.log) == Some(now) else !b.done && NextTick(p, b, now) < g)
  }

  /** The call has its token already, or can get one in time. */
  predicate TokenAhead(k: Config, s: State, c: Call, g: int) {
    c.pc.HasToken? || c.pc.Ready? || k.plan.None? || Supplied(k.plan.value, s.bucket, s.clock, g)
  }

  // -------------------------------------------------------------------------
  // No more than that

  /** Sends from number `n` on are made at `t` or later. */
  ghost predicate Late(s: State, id: nat, n: nat, t: int) {
    && t <= s.clock
    && (id in s.calls ==> forall i | n <= i < |s.calls[id].sends| :: t <= s.calls[id].sends[i].at)
  }

  lemma NextLate(k: Config, s: State, e: Event, id: nat, n: nat, t: int)
    requires k.retryAfterMax > 0 && Late(s, id, n, t) && Enabled(k, s, e)
    ensures Late(Next(k, s, e), id, n, t)
  {
    if e.Do? {
      EveryStepMoves(k, s.calls[e.id], e.act, s.clock);
    }
    hide Can, EffectOf, Step, BreakerAfter, AccountsAfter, BucketAfter, GateAfter, BucketOps.Do, Permits;
  }

  lemma {:induction false} RunLate(k: Config, s: State, es: seq<Event>, id: nat, n: nat, t: int)
    requires k.retryAfterMax > 0 && Late(s, id, n, t) && CanRun(k, s, es)
    ensures Late(After(k, s, es), id, n, t)
    decreases |es|
  {
    hide Late, Next, Enabled;
    if es != [] {
      NextLate(k, s, es[0], id, n, t);
      RunLate(k, Next(k, s, es[0]), es[1..], id, n, t);
    }
  }

  /** A pace is kept from the start or not at all. */
  lemma PaceIsOld(k: Config, s: State, e: Event)
    requires Enabled(k, s, e) && OnPace(k, Next(k, s, e))
    ensures OnPace(k, s)
  {
    if k.plan.Some? {
      match e
      case Refiller(op) =>
        RateBound.Snoc(s.bucket.log, RateBound.Tick(s.clock));
        RateBound.Snoc(s.bucket.log, RateBound.Put(s.clock));
        RateBound.Snoc(s.bucket.log, RateBound.Full(s.clock));
      case Do(id, _) =>
        RateBound.Snoc(s.bucket.log, RateBound.Take(s.clock, id));
        hide Can, Step, EffectOf, BreakerAfter, AccountsAfter, Permits;
      case Pass(_) =>
      case Begin(_, _) =>
    }
  }

  lemma {:induction false} PacesAreOld(k: Config, s: State, es: seq<Event>)
    requires CanRun(k, s, es) && OnPace(k, After(k, s, es))
    ensures OnPace(k, s)
    decreases |es|
  {
    hide OnPace, Next, Enabled;
    if es != [] {
      PacesAreOld(k, Next(k, s, es[0]), es[1..]);
      PaceIsOld(k, s, es[0]);
    }
  }

  /** The bucket is empty and stays so until `g`. */
  predicate Dry(p: Plan, b: BucketOps.State, now: int, g: int) {
    var last := RateBound.LastTick(b.log);
    && b.tokens == 0
    && if b.left > 0 then last.Some? && last.value < now
       else b.done || (last.Some? && g <= last.value + p.interval)
  }

  lemma {:induction false} TickIsPast(log: seq<RateBound.Ev>, now: int)
    requires RateBound.Ordered(log) && RateBound.NoLaterThan(log, now)
    ensures RateBound.LastTick(log).Some? ==> RateBound.LastTick(log).value <= now
  {
    if log != [] {
      TickIsPast(RateBound.Front(log), now);
    }
  }

  lemma {:induction false} BatchHasTick(p: Plan, log: seq<RateBound.Ev>)
    requires RateBound.Left(p, log) > 0
    ensures RateBound.LastTick(log).Some?
  {
    if !RateBound.Last(log).Tick? {
      BatchHasTick(p, RateBound.Front(log));
    }
  }

  lemma Unsupplied(k: Config, s: State, g: int)
    requires Inv(k, s) && k.plan.Some? && s.clock < g && !Supplied(k.plan.value, s.bucket, s.clock, g)
    ensures Dry(k.plan.value, s.bucket, s.clock, g)
  {
    assert BucketInv(k, s.bucket, s.calls, s.clock);
    hide Inv;
    BucketOps.Conservation(k.plan.value, s.bucket);
    RateBound.LevelBounds(k.plan.value, s.bucket.log);
    TickIsPast(s.bucket.log, s.clock);
    if s.bucket.left > 0 {
      BatchHasTick(k.plan.value, s.bucket.log);
    }
  }

  /** Nothing is put into a dry bucket as long as the ticker keeps its pace. */
  lemma DryIsClosed(p: Plan, b: BucketOps.State, op: BucketOps.Op, now: int, g: int)
    requires Dry(p, b, now, g) && now < g && BucketOps.Can(p, b, op) && !op.Grab? && b.left >= 0
    requires op.Fire? || op.Feed? ==> op.at == now
    requires RateBound.Timed(p, BucketOps.Do(p, b, op).log)
    ensures Dry(p, BucketOps.Do(p, b, op), now, g)
  {
    match op
    case Fire(_) => RateBound.Snoc(b.log, RateBound.Tick(now));
    case Feed(_) =>
      RateBound.Snoc(b.log, RateBound.Put(now));
      RateBound.Snoc(b.log, RateBound.Full(now));
    case Shut =>
    case Quit =>
  }

  /** The call has no token and gets none before `g`: what it sends, from number
      `n` on, it sends at `g` or later. */
  ghost predicate Starved(k: Config, s: State, id: nat, n: nat, g: int) {
    && k.plan.Some? && id in s.calls
    && (forall i | n <= i < |s.calls[id].sends| :: g <= s.calls[id].sends[i].at)
    && (s.clock < g ==>
          && Dry(k.plan.value, s.bucket, s.clock, g)
          && |s.calls[id].sends| <= n && !s.calls[id].pc.HasToken? && !s.calls[id].pc.Ready?)
  }

  lemma CallStaysStarved(k: Config, s: State, i: nat, a: Act, id: nat, n: nat, g: int)
    requires Starved(k, s, id, n, g) && Enabled(k, s, Do(i, a))
    ensures Starved(k, Next(k, s, Do(i, a)), id, n, g)
  {
    EveryStepMoves(k, s.calls[i], a, s.clock);
    TakesWhat(k, s.calls[i], a, s.clock);
    hide Can, EffectOf, Step, BreakerAfter, AccountsAfter, GateAfter, Payload;
  }

  lemma TakesWhat(k: Config, c: Call, a: Act, t: int)
    requires Can(k, c, a, t)
    ensures a.GrabToken? <==> EffectOf(k, c, a, t).Took?
    ensures a.SkipToken? ==> k.plan.None?
  {
  }

  lemma NextStarved(k: Config, s: State, e: Event, id: nat, n: nat, g: int)
    requires s.bucket.left >= 0 && Starved(k, s, id, n, g) && Enabled(k, s, e) && OnPace(k, Next(k, s, e))
    ensures Starved(k, Next(k, s, e), id, n, g)
  {
    match e
    case Pass(_) => hide RateBound.LastTick, RateBound.Timed;
    case Refiller(op) =>
      if s.clock < g {
        DryIsClosed(k.plan.value, s.bucket, op, s.clock, g);
      }
      hide Dry, BucketOps.Do;
    case Begin(_, _) => hide Dry, RateBound.Timed;
    case Do(i, a) =>
      hide Starved, Next, Enabled;
      CallStaysStarved(k, s, i, a, id, n, g);
  }

  lemma {:induction false} RunStarved(k: Config, s: State, es: seq<Event>, id: nat, n: nat, g: int)
    requires k.Valid() && Inv(k, s) && Starved(k, s, id, n, g) && CanRun(k, s, es) && OnPace(k, After(k, s, es))
    ensures Starved(k, After(k, s, es), id, n, g)
    decreases |es|
  {
    if es != [] {
      assert k.plan.Some? && BucketOps.Sound(k.plan.value, s.bucket);
      RateBound.LevelBounds(k.plan.value, s.bucket.log);
      assert s.bucket.left >= 0;
      hide Starved, Next, Enabled, Inv, BucketOps.Sound, OnPace;
      NextInv(k, s, es[0]);
      PacesAreOld(k, Next(k, s, es[0]), es[1..]);
      NextStarved(k, s, es[0], id, n, g);
      RunStarved(k, Next(k, s, es[0]), es[1..], id, n, g);
    }
  }

  /** Who has no token ahead is starved. */
  lemma Starves(k: Config, s: State, id: nat, g: int)
    requires Inv(k, s) && id in s.calls && s.clock < g && !TokenAhead(k, s, s.calls[id], g)
    ensures Starved(k, s, id, |s.calls[id].sends|, g)
  {
    Unsupplied(k, s, g);
    hide Inv, Dry, Supplied;
  }

  lemma StarvedIsLate(k: Config, s: State, id: nat, n: nat, g: int)
    requires Starved(k, s, id, n, g)
    ensures !HasSentBefore(s, id, n, g)
  {
    hide Dry;
  }

  lemma OnlyTheExempt(k: Config, s: State, es: seq<Event>, id: nat, n: nat, g: int)
    requires k.Valid() && Inv(k, s) && k.retryAfterMax > 0 && g <= s.gate && id in s.calls
    requires |s.calls[id].sends| <= n && CanRun(k, s, es) && OnPace(k, After(k, s, es))
    requires HasSentBefore(After(k, s, es), id, n, g)
    ensures n == |s.calls[id].sends| && Early(s.calls[id], g) && s.clock < g && TokenAhead(k, s, s.calls[id], g)
  {
    assert Late(s, id, n, s.clock);
    RunLate(k, s, es, id, n, s.clock);
    hide Inv, CanRun, After, Early, TokenAhead, OnPace;
    assert s.clock < g;
    if Allowance(s, id, g) <= n {
      GateIsHonoured(k, s, es, id, n, g);
    }
    if !TokenAhead(k, s, s.calls[id], g) {
      Starves(k, s, id, g);
      RunStarved(k, s, es, id, n, g);
      StarvedIsLate(k, After(k, s, es), id, n, g);
    }
  }

  // -------------------------------------------------------------------------
  // No less

  lemma AfterThat(k: Config, s: State, e: Event, id: nat, n: nat, g: int)
    requires Enabled(k, s, e) && CanPrecede(k, Next(k, s, e), id, n, g)
    ensures CanPrecede(k, s, id, n, g)
  {
    hide Enabled, Next, OnPace;
    var rest := Next(k, s, e);
    var es :| CanRun(k, rest, es) && OnPace(k, After(k, rest, es)) && HasSentBefore(After(k, rest, es), id, n, g);
    var more := [e] + es;
    assert more[0] == e && more[1..] == es;
    assert CanRun(k, s, more) && After(k, s, more) == After(k, rest, es);
  }

  /** What a call needs to be able to send next, and in time. */
  ghost predicate OnTime(k: Config, s: State, id: nat, n: nat, g: int) {
    && id in s.calls && n == |s.calls[id].sends| && s.clock < g && OnPace(k, s)
    && (Rewinds(s.calls[id]) ==> s.calls[id].req.rewindable)
  }

  lemma ReadyCan(k: Config, s: State, id: nat, n: nat, g: int)
    requires OnTime(k, s, id, n, g) && s.calls[id].pc.Ready?
    ensures CanPrecede(k, s, id, n, g)
  {
    var e := Do(id, Launch(0));
    var d := Next(k, s, e);
    assert HasSentBefore(d, id, n, g) && OnPace(k, d) by {
      hide BreakerAfter, AccountsAfter, Payload;
    }
    hide Next, Enabled, OnPace;
    assert CanRun(k, d, []) && After(k, d, []) == d;
    AfterThat(k, s, e, id, n, g);
  }

  lemma TokenHolderCan(k: Config, s: State, id: nat, n: nat, g: int)
    requires OnTime(k, s, id, n, g) && s.calls[id].pc.HasToken?
    ensures CanPrecede(k, s, id, n, g)
  {
    var e := Do(id, NoteAttempt);
    assert OnTime(k, Next(k, s, e), id, n, g) && Next(k, s, e).calls[id].pc.Ready? by {
      hide BreakerAfter, AccountsAfter;
    }
    hide Next, OnTime, CanPrecede;
    ReadyCan(k, Next(k, s, e), id, n, g);
    AfterThat(k, s, e, id, n, g);
  }

  lemma GrabKeepsPace(k: Config, s: State, id: nat)
    requires k.plan.Some? && OnPace(k, s) && Enabled(k, s, Do(id, GrabToken))
    ensures OnPace(k, Next(k, s, Do(id, GrabToken)))
  {
    RateBound.Snoc(s.bucket.log, RateBound.Take(s.clock, id));
    hide BreakerAfter, AccountsAfter, Step;
  }

  lemma TakerCan(k: Config, s: State, id: nat, n: nat, g: int)
    requires OnTime(k, s, id, n, g) && k.plan.Some? && s.bucket.tokens > 0
    requires s.calls[id].pc.TokenFast? || s.calls[id].pc.TokenSlow?
    ensures CanPrecede(k, s, id, n, g)
  {
    var e := Do(id, GrabToken);
    GrabKeepsPace(k, s, id);
    hide OnPace;
    assert OnTime(k, Next(k, s, e), id, n, g) && Next(k, s, e).calls[id].pc.HasToken? by {
      hide BreakerAfter, AccountsAfter, BucketAfter;
    }
    hide Next, OnTime, CanPrecede;
    TokenHolderCan(k, Next(k, s, e), id, n, g);
    AfterThat(k, s, e, id, n, g);
  }

  lemma SkipperCan(k: Config, s: State, id: nat, n: nat, g: int)
    requires OnTime(k, s, id, n, g) && k.plan.None? && s.calls[id].pc.TokenFast?
    ensures CanPrecede(k, s, id, n, g)
  {
    var e := Do(id, SkipToken);
    assert OnTime(k, Next(k, s, e), id, n, g) && Next(k, s, e).calls[id].pc.HasToken? by {
      hide BreakerAfter, AccountsAfter;
    }
    hide Next, OnTime, CanPrecede;
    TokenHolderCan(k, Next(k, s, e), id, n, g);
    AfterThat(k, s, e, id, n, g);
  }

  /** Nothing to wait for at the bucket. */
  predicate InStock(k: Config, s: State) { k.plan.None? || s.bucket.tokens > 0 }

  lemma WaiterCan(k: Config, s: State, id: nat, n: nat, g: int)
    requires OnTime(k, s, id, n, g) && InStock(k, s)
    requires s.calls[id].pc.TokenFast? || (s.calls[id].pc.TokenSlow? && k.plan.Some?)
    ensures CanPrecede(k, s, id, n, g)
  {
    hide CanPrecede, OnTime;
    if k.plan.None? {
      SkipperCan(k, s, id, n, g);
    } else {
      TakerCan(k, s, id, n, g);
    }
  }

  /** The gate has been read and will not be read again. */
  lemma ReaderCan(k: Config, s: State, id: nat, n: nat, g: int)
    requires OnTime(k, s, id, n, g) && InStock(k, s) && s.calls[id].pc.GateRead? && s.calls[id].pc.seen <= s.clock
    ensures CanPrecede(k, s, id, n, g)
  {
    var e := Do(id, PassGate);
    var d := Next(k, s, e);
    assert OnTime(k, d, id, n, g) && InStock(k, d) && d.calls[id].pc.TokenFast? by {
      hide BreakerAfter, AccountsAfter;
    }
    hide Next, OnTime, InStock, CanPrecede;
    WaiterCan(k, d, id, n, g);
    AfterThat(k, s, e, id, n, g);
  }

  lemma PatientReaderCan(k: Config, s: State, id: nat, n: nat, g: int)
    requires OnTime(k, s, id, n, g) && InStock(k, s) && s.calls[id].pc.GateRead? && s.calls[id].pc.seen < g
    ensures CanPrecede(k, s, id, n, g)
  {
    hide CanPrecede, OnPace;
    if s.calls[id].pc.seen <= s.clock {
      ReaderCan(k, s, id, n, g);
    } else {
      var e := Pass(s.calls[id].pc.seen);
      assert OnPace(k, Next(k, s, e)) by {
        PassKeepsPace(k, s, s.calls[id].pc.seen);
      }
      ReaderCan(k, Next(k, s, e), id, n, g);
      AfterThat(k, s, e, id, n, g);
    }
  }

  lemma PassKeepsPace(k: Config, s: State, t: int)
    requires OnPace(k, s) && s.clock <= t
    ensures OnPace(k, Next(k, s, Pass(t)))
  {
  }

  /** With a token there, or none needed. */
  lemma StockedCan(k: Config, s: State, id: nat, n: nat, g: int)
    requires OnTime(k, s, id, n, g) && Early(s.calls[id], g) && InStock(k, s)
    requires s.calls[id].pc.TokenSlow? ==> k.plan.Some?
    ensures CanPrecede(k, s, id, n, g)
  {
    assert id in s.calls;
    hide OnTime, CanPrecede;
    var pc := s.calls[id].pc;
    if pc.GateRead? {
      PatientReaderCan(k, s, id, n, g);
    } else if pc.HasToken? {
      TokenHolderCan(k, s, id, n, g);
    } else if pc.Ready? {
      ReadyCan(k, s, id, n, g);
    } else {
      WaiterCan(k, s, id, n, g);
    }
  }

  /** The refiller puts a token first. */
  lemma FedCan(k: Config, s: State, id: nat, n: nat, g: int)
    requires OnTime(k, s, id, n, g) && Early(s.calls[id], g) && k.plan.Some? && k.plan.value.Valid()
    requires s.bucket.tokens == 0 && s.bucket.left > 0 && RateBound.LastTick(s.bucket.log) == Some(s.clock)
    ensures CanPrecede(k, s, id, n, g)
  {
    var e := Refiller(BucketOps.Feed(s.clock));
    RateBound.Snoc(s.bucket.log, RateBound.Put(s.clock));
    var d := Next(k, s, e);
    assert OnTime(k, d, id, n, g) && InStock(k, d) && d.calls == s.calls;
    hide CanPrecede, OnTime, InStock, Next;
    StockedCan(k, d, id, n, g);
    AfterThat(k, s, e, id, n, g);
  }

  lemma TickedCan(k: Config, s: State, id: nat, n: nat, g: int)
    requires OnTime(k, s, id, n, g) && Early(s.calls[id], g) && k.plan.Some? && k.plan.value.Valid()
    requires !s.bucket.done && s.bucket.tokens == 0 && s.bucket.left == 0
    requires NextTick(k.plan.value, s.bucket, s.clock) == s.clock
    ensures CanPrecede(k, s, id, n, g)
  {
    var e := Refiller(BucketOps.Fire(s.clock));
    RateBound.Snoc(s.bucket.log, RateBound.Tick(s.clock));
    var d := Next(k, s, e);
    assert OnTime(k, d, id, n, g) && d.calls == s.calls && d.bucket.left > 0;
    hide CanPrecede, OnTime, Early;
    FedCan(k, d, id, n, g);
    AfterThat(k, s, e, id, n, g);
  }

  /** The refiller waits for its next tick. */
  lemma LaterCan(k: Config, s: State, id: nat, n: nat, g: int)
    requires OnTime(k, s, id, n, g) && Early(s.calls[id], g) && k.plan.Some? && k.plan.value.Valid()
    requires !s.bucket.done && s.bucket.tokens == 0 && s.bucket.left == 0
    requires NextTick(k.plan.value, s.bucket, s.clock) < g
    ensures CanPrecede(k, s, id, n, g)
  {
    var e := Pass(NextTick(k.plan.value, s.bucket, s.clock));
    hide CanPrecede, Early, RateBound.LastTick, RateBound.Timed;
    TickedCan(k, Next(k, s, e), id, n, g);
    AfterThat(k, s, e, id, n, g);
  }

  /** What the invariants tell about a call that is early. */
  lemma EarlyIsOnTime(k: Config, s: State, id: nat, g: int)
    requires k.Valid() && Inv(k, s) && OnPace(k, s) && id in s.calls && s.clock < g
    ensures OnTime(k, s, id, |s.calls[id].sends|, g)
    ensures k.plan.Some? ==> k.plan.value.Valid() && s.bucket.tokens >= 0 && s.bucket.left >= 0
    ensures s.calls[id].pc.TokenSlow? ==> k.plan.Some?
  {
    var c := s.calls[id];
    assert CallInv(k, c, s.clock);
    assert SameBody(c) && Searched(k, c);
    if k.plan.Some? {
      RateBound.LevelBounds(k.plan.value, s.bucket.log);
    }
    hide CallInv;
  }

  lemma TheExemptCan(k: Config, s: State, id: nat, g: int)
    requires k.Valid() && Inv(k, s) && OnPace(k, s) && id in s.calls
    requires Early(s.calls[id], g) && s.clock < g && TokenAhead(k, s, s.calls[id], g)
    ensures CanPrecede(k, s, id, |s.calls[id].sends|, g)
  {
    EarlyIsOnTime(k, s, id, g);
    hide Inv, OnTime, OnPace, Early, CanPrecede, NextTick;
    var n := |s.calls[id].sends|;
    if s.calls[id].pc.HasToken? {
      TokenHolderCan(k, s, id, n, g);
    } else if s.calls[id].pc.Ready? {
      ReadyCan(k, s, id, n, g);
    } else if InStock(k, s) {
      StockedCan(k, s, id, n, g);
    } else if s.bucket.left > 0 {
      FedCan(k, s, id, n, g);
    } else {
      LaterCan(k, s, id, n, g);
    }
  }

  /** While the gate holds `g` or later, exactly these sends can still precede
      `g`: the next one of a call whose attempt has passed the gate already and has
      its token or can get one in time, as long as `g` has not come. */
  lemma ExemptIff(k: Config, s: State, id: nat, n: nat, g: int)
    requires k.Valid() && Reachable(k, s) && OnPace(k, s) && k.retryAfterMax > 0 && g <= s.gate
    requires id in s.calls && |s.calls[id].sends| <= n
    ensures CanPrecede(k, s, id, n, g)
            <==> && n == |s.calls[id].sends| && Early(s.calls[id], g) && s.clock < g
                 && TokenAhead(k, s, s.calls[id], g)
  {
    ReachableInv(k, s);
    hide Inv, Reachable, Early, TokenAhead, HasSentBefore, OnPace;
    if CanPrecede(k, s, id, n, g) {
      var es :| CanRun(k, s, es) && OnPace(k, After(k, s, es)) && HasSentBefore(After(k, s, es), id, n, g);
      OnlyTheExempt(k, s, es, id, n, g);
    } else if n == |s.calls[id].sends| && Early(s.calls[id], g) && s.clock < g && TokenAhead(k, s, s.calls[id], g) {
      TheExemptCan(k, s, id, g);
    }
  }
}
