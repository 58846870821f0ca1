/** Runs of the whole breaker, one event at a time: how to show that something
    can happen. */
module Runs {
  import opened Arith
  import opened Errors
  import Breaker
  import BucketOps
  import RateBound
  import opened DoCalls
  import opened Circuit

  lemma {:induction false} RunSnoc(k: Config, s: State, es: seq<Event>, e: Event)
    requires CanRun(k, s, es) && Enabled(k, After(k, s, es), e)
    ensures CanRun(k, s, es + [e]) && After(k, s, es + [e]) == Next(k, After(k, s, es), e)
    decreases |es|
  {
    hide Enabled, Next;
    if es == [] {
      assert es + [e] == [e] && [e][1..] == [];
    } else {
      assert (es + [e])[0] == es[0] && (es + [e])[1..] == es[1..] + [e];
      RunSnoc(k, Next(k, s, es[0]), es[1..], e);
    }
  }

  /** The last event of a run. */
  lemma {:induction false} RunFront(k: Config, s: State, es: seq<Event>)
    requires es != [] && CanRun(k, s, es)
    ensures var front, e := es[..|es| - 1], es[|es| - 1];
            && CanRun(k, s, front) && Enabled(k, After(k, s, front), e)
            && After(k, s, es) == Next(k, After(k, s, front), e)
    decreases |es|
  {
    hide Enabled, Next;
    var front, e := es[..|es| - 1], es[|es| - 1];
    if |es| == 1 {
      assert front == [] && es[1..] == [];
    } else {
      var d := Next(k, s, es[0]);
      RunFront(k, d, es[1..]);
      assert es[1..][..|es[1..]| - 1] == front[1..];
    }
  }

  /** What is reachable stays so. */
  lemma Extend(k: Config, s: State, e: Event)
    requires Reachable(k, s) && Enabled(k, s, e)
    ensures Reachable(k, Next(k, s, e))
  {
    hide Enabled, Next, Init, CanRun, After;
    var t0: int, es: seq<Event> :|
      SECOND <= t0 && CanRun(k, Init(k, t0), es) && After(k, Init(k, t0), es) == s;
    RunSnoc(k, Init(k, t0), es, e);
  }

  lemma InitIsReachable(k: Config, t0: int)
    requires SECOND <= t0
    ensures Reachable(k, Init(k, t0))
  {
    hide Init;
    assert CanRun(k, Init(k, t0), []) && After(k, Init(k, t0), []) == Init(k, t0);
  }

  /** One step of a call, and everything it leaves. */
  lemma Go(k: Config, s: State, id: nat, a: Act) returns (d: State)
    requires Reachable(k, s) && Enabled(k, s, Do(id, a))
    ensures Reachable(k, d) && d == Next(k, s, Do(id, a))
    ensures d.clock == s.clock && d.calls == s.calls[id := Step(k, s.calls[id], a, s.clock)]
    ensures EffectOf(k, s.calls[id], a, s.clock).Acquired? || EffectOf(k, s.calls[id], a, s.clock).Released?
            || d.inUse == s.inUse
    ensures EffectOf(k, s.calls[id], a, s.clock).Raised? || d.gate == s.gate
    ensures EffectOf(k, s.calls[id], a, s.clock).Took? || d.bucket == s.bucket
    ensures d.bucket.done == s.bucket.done
  {
    d := Next(k, s, Do(id, a));
    Extend(k, s, Do(id, a));
    hide Reachable, Can, EffectOf, Step, BreakerAfter, AccountsAfter;
  }

  // -------------------------------------------------------------------------
  // The first call of a fresh breaker

  /** Nothing but call 0 has happened, and the clock has stood still. */
  ghost predicate Alone(k: Config, s: State, t: int, req: Request) {
    && Reachable(k, s) && s.clock == t && s.gate == 0 && 0 in s.calls
    && s.calls[0].req == req && s.calls[0].lastErr.None? && s.calls[0].start == t
    && s.calls[0].attempt == 0 && s.calls[0].sends == [] && s.calls[0].ticket.Some? == k.breaker.Some?
    && s.calls[0].account.Settled? && !s.bucket.done
  }

  lemma Admitted(k: Config, t: int, req: Request) returns (s: State)
    requires k.Valid() && SECOND <= t && req.wellFormed
    ensures Alone(k, s, t, req) && s.calls[0].pc.AwaitSlot? && s.inUse == 0
    ensures k.plan.Some? ==> s.bucket.tokens > 0
  {
    InitIsReachable(k, t);
    var start := Init(k, t);
    assert Enabled(k, start, Begin(0, req));
    Extend(k, start, Begin(0, req));
    s := Next(k, start, Begin(0, req));
    hide Reachable;
    s := Go(k, s, 0, Enter(Breaker.Granted(Breaker.Ticket(false, 0))));
  }

  lemma SlotTaken(k: Config, t: int, req: Request) returns (s: State)
    requires k.Valid() && SECOND <= t && req.wellFormed
    ensures Alone(k, s, t, req) && (k.plan.Some? ==> s.bucket.tokens > 0)
    ensures k.maxRetries >= 0 ==> s.calls[0].pc.LoopHead?
    ensures k.maxRetries < 0 ==> s.calls[0].pc == Returning(Failed(Exhausted(None))) && s.calls[0].exhausted
  {
    s := Admitted(k, t, req);
    hide Reachable;
    s := Go(k, s, 0, TakeSlot);
  }

  lemma GatePassed(k: Config, t: int, req: Request) returns (s: State)
    requires k.Valid() && SECOND <= t && req.wellFormed && k.maxRetries >= 0
    ensures Alone(k, s, t, req) && (k.plan.Some? ==> s.bucket.tokens > 0) && s.calls[0].pc.TokenFast?
  {
    s := SlotTaken(k, t, req);
    hide Reachable;
    if k.retryAfterMax > 0 {
      s := Go(k, s, 0, ReadGate(0));
    }
    s := Go(k, s, 0, PassGate);
  }

  lemma TokenTaken(k: Config, t: int, req: Request) returns (s: State)
    requires k.Valid() && SECOND <= t && req.wellFormed && k.maxRetries >= 0
    ensures Alone(k, s, t, req) && s.calls[0].pc.HasToken?
  {
    s := GatePassed(k, t, req);
    hide Reachable;
    if k.plan.Some? {
      s := Go(k, s, 0, GrabToken);
    } else {
      s := Go(k, s, 0, SkipToken);
    }
  }

  lemma AttemptRecorded(k: Config, t: int, req: Request) returns (s: State)
    requires k.Valid() && SECOND <= t && req.wellFormed && k.maxRetries >= 0
    ensures Reachable(k, s) && s.clock == t && s.gate == 0 && !s.bucket.done && 0 in s.calls
    ensures var c := s.calls[0];
            && c.pc.Ready? && c.req == req && c.attempt == 0 && c.start == t
            && c.lastErr.None? && c.sends == [] && c.ticket.Some? == k.breaker.Some?
  {
    s := TokenTaken(k, t, req);
    hide Reachable;
    s := Go(k, s, 0, NoteAttempt);
  }

  /** The call is on its way to the server. */
  lemma SentOnce(k: Config, t: int, req: Request) returns (s: State)
    requires k.Valid() && SECOND <= t && req.wellFormed && k.maxRetries >= 0
    ensures Reachable(k, s) && s.clock == t && s.gate == 0 && !s.bucket.done && 0 in s.calls
    ensures var c := s.calls[0];
            && c.pc.Flight? && c.req == req && c.attempt == 0 && c.start == t
            && c.lastErr.None? && |c.sends| == 1 && c.ticket.Some? == k.breaker.Some?
  {
    s := AttemptRecorded(k, t, req);
    hide Reachable, Payload;
    s := Go(k, s, 0, Launch(0));
  }

  // -------------------------------------------------------------------------
  // The refiller

  lemma Refills(k: Config, s: State, op: BucketOps.Op) returns (d: State)
    requires Reachable(k, s) && Enabled(k, s, Refiller(op))
    ensures Reachable(k, d) && d == s.(bucket := BucketOps.Do(k.plan.value, s.bucket, op))
  {
    d := Next(k, s, Refiller(op));
    hide Enabled, BucketOps.Do;
    Extend(k, s, Refiller(op));
  }

  lemma BucketOfReachable(k: Config, s: State)
    requires k.Valid() && Reachable(k, s) && k.plan.Some?
    ensures s.bucket.tokens >= 0 && s.bucket.left >= 0 && k.plan.value.Valid()
  {
    ReachableInv(k, s);
    assert BucketOps.Sound(k.plan.value, s.bucket);
    hide Inv, Reachable;
    RateBound.LevelBounds(k.plan.value, s.bucket.log);
  }

  /** While the refiller runs, a token can come. */
  lemma TokenComes(k: Config, s: State) returns (d: State)
    requires k.Valid() && Reachable(k, s) && k.plan.Some? && !s.bucket.done
    ensures Reachable(k, d) && d == s.(bucket := d.bucket) && d.bucket.tokens > 0
  {
    BucketOfReachable(k, s);
    hide Reachable;
    d := s;
    if d.bucket.tokens == 0 {
      if d.bucket.left == 0 {
        d := Refills(k, d, BucketOps.Fire(s.clock));
      }
      d := Refills(k, d, BucketOps.Feed(s.clock));
    }
  }
}
