/** What `Stop` means for the calls that wait for a token, over whole runs. */
module Draining {
  import opened Errors
  import RateBound
  import BucketOps
  import opened DoCalls
  import opened CallInvs
  import opened Effects
  import opened Circuit

  function Takes(s: State): nat { RateBound.Total(s.bucket.log, RateBound.Takes) }

  /** A step of a call takes a token that is there, or leaves the bucket alone. */
  lemma StepAtBucket(k: Config, s: State, id: nat, a: Act)
    requires k.plan.Some? && Enabled(k, s, Do(id, a))
    ensures var b := Next(k, s, Do(id, a)).bucket;
            b == s.bucket
            || (s.bucket.tokens > 0 && b == BucketOps.Do(k.plan.value, s.bucket, BucketOps.Grab(s.clock, id)))
  {
    hide Step, EffectOf, Can, BreakerAfter, AccountsAfter, BucketOps.Do;
  }

  /** One event after the refiller has returned. */
  lemma DrainStep(k: Config, s: State, e: Event)
    requires k.plan.Some? && BucketOps.Sound(k.plan.value, s.bucket) && s.bucket.done && Enabled(k, s, e)
    ensures var d := Next(k, s, e);
            && d.bucket.done && d.bucket.tokens <= s.bucket.tokens
            && Takes(d) + d.bucket.tokens == Takes(s) + s.bucket.tokens
  {
    match e
    case Pass(_) =>
    case Refiller(op) =>
    case Begin(_, _) =>
    case Do(id, a) =>
      StepAtBucket(k, s, id, a);
      RateBound.Snoc(s.bucket.log, RateBound.Take(s.clock, id));
      hide BucketOps.Sound, Next, Enabled;
  }

  /** Once `Stop` has returned, no more tokens are taken than were left then; an
      empty bucket stays empty. */
  lemma {:induction false} DrainAfterStop(k: Config, s: State, es: seq<Event>)
    requires k.Valid() && Inv(k, s) && k.plan.Some? && s.bucket.done && CanRun(k, s, es)
    ensures var d := After(k, s, es);
            d.bucket.done && Takes(d) + d.bucket.tokens == Takes(s) + s.bucket.tokens
            && 0 <= d.bucket.tokens <= s.bucket.tokens
    decreases |es|
  {
    BucketOps.Conservation(k.plan.value, s.bucket);
    hide Inv, Next, Enabled, Takes, BucketOps.Sound;
    if es != [] {
      NextInv(k, s, es[0]);
      DrainStep(k, s, es[0]);
      DrainAfterStop(k, Next(k, s, es[0]), es[1..]);
    }
  }

  // -------------------------------------------------------------------------
  // Whoever is turned away has found the bucket empty

  /** `ErrStopped` from the token wait: the breaker had been stopped, and in this
      very attempt the call had found the bucket empty: its history says so. In a
      breaker without a gate no other wait ends that way. */
  lemma StopOnlyWhenFoundEmpty(k: Config, s: State, id: nat)
    requires k.Valid() && Reachable(k, s) && id in s.calls
    ensures var c := s.calls[id];
            && (c.turnedAway ==>
                  && s.bucket.closed && c.emptyAt.Some? && k.plan.Some?
                  && BucketOps.WasEmpty(k.plan.value, s.bucket.log, c.emptyAt.value)
                  && (Over(c.pc) ==> ResultOf(c.pc) == Failed(Sentinel(Stopped))))
            && (Over(c.pc) && c.account.Short? ==>
                  ResultOf(c.pc) == Failed(Sentinel(Stopped)) && (k.retryAfterMax <= 0 ==> c.turnedAway))
  {
    ReachableInv(k, s);
    var c := s.calls[id];
    assert CallInv(k, c, s.clock) && Recalls(k, s.bucket, c);
    assert Searched(k, c) && Accounted(c);
    hide Inv, Reachable, CallInv, BucketOps.WasEmpty;
  }

  /** Since the event of the bucket's history numbered `m` the bucket has been
      found empty only when it was empty for good, and call `id` remembers no
      earlier find. */
  ghost predicate EmptySince(s: State, m: nat, id: nat) {
    && s.bucket.done && m <= |s.bucket.log|
    && (forall i | i in s.calls && s.calls[i].emptyAt.Some? && m <= s.calls[i].emptyAt.value :: s.bucket.tokens == 0)
    && (id in s.calls && s.calls[id].emptyAt.Some? ==> m <= s.calls[id].emptyAt.value)
  }

  lemma RefillerIsGone(k: Config, s: State, op: BucketOps.Op)
    requires k.plan.Some? && BucketOps.Sound(k.plan.value, s.bucket) && s.bucket.done && Enabled(k, s, Refiller(op))
    ensures Next(k, s, Refiller(op)).bucket == s.bucket
  {
  }

  lemma CallKeepsEmptySince(k: Config, s: State, i: nat, fx: Effect, d: Call, m: nat, id: nat)
    requires EmptySince(s, m, id) && i in s.calls && Permits(k, s, i, fx) && Follows(k, s.calls[i], fx, d)
    ensures EmptySince(AfterDo(k, s, i, fx, d), m, id)
  {
    hide TicketFollows, AccountFollows, SlotFollows, BreakerAfter, AccountsAfter;
  }

  lemma NextEmptySince(k: Config, s: State, e: Event, m: nat, id: nat)
    requires k.Valid() && Inv(k, s) && k.plan.Some? && Enabled(k, s, e) && EmptySince(s, m, id)
    ensures EmptySince(Next(k, s, e), m, id)
  {
    hide CallsInv, BreakerInv, SlotsInv, SearchInv, AccountsInv, GateInv;
    match e
    case Pass(_) =>
    case Refiller(op) => RefillerIsGone(k, s, op);
    case Begin(_, _) =>
    case Do(i, a) =>
      StepOfCall(k, s, i, a);
      hide EmptySince, Permits, Follows, Can, Step, EffectOf, AfterDo;
      CallKeepsEmptySince(k, s, i, EffectOf(k, s.calls[i], a, s.clock), Step(k, s.calls[i], a, s.clock), m, id);
  }

  lemma {:induction false} RunEmptySince(k: Config, s: State, es: seq<Event>, m: nat, id: nat)
    requires k.Valid() && Inv(k, s) && k.plan.Some? && CanRun(k, s, es) && EmptySince(s, m, id)
    ensures EmptySince(After(k, s, es), m, id)
    decreases |es|
  {
    hide Inv, Next, Enabled, EmptySince;
    if es != [] {
      NextInv(k, s, es[0]);
      NextEmptySince(k, s, es[0], m, id);
      RunEmptySince(k, Next(k, s, es[0]), es[1..], m, id);
    }
  }

  /** Once `Stop` has returned: if a call is turned away whose token wait had not
      found the bucket empty before, then the bucket is empty. */
  lemma TurnedAwayFromEmpty(k: Config, s: State, es: seq<Event>, id: nat)
    requires k.Valid() && Reachable(k, s) && k.plan.Some? && s.bucket.done && CanRun(k, s, es)
    requires id in s.calls ==> s.calls[id].emptyAt.None?
    requires var d := After(k, s, es); id in d.calls && d.calls[id].turnedAway
    ensures After(k, s, es).bucket.tokens == 0
  {
    ReachableInv(k, s);
    RunInv(k, s, es);
    var d, m := After(k, s, es), |s.bucket.log|;
    assert CallInv(k, d.calls[id], d.clock) && Searched(k, d.calls[id]);
    assert EmptySince(s, m, id) by {
      assert SearchInv(k, s.bucket, s.calls) && BucketOps.Sound(k.plan.value, s.bucket);
      hide Inv, Reachable, CanRun, After;
      FoundNow(k, s);
    }
    RunEmptySince(k, s, es, m, id);
    hide Inv, Reachable, CanRun, After, CallInv;
  }

  /** A find at the very end of the history is one that is still true. */
  lemma FoundNow(k: Config, s: State)
    requires SearchInv(k, s.bucket, s.calls) && k.plan.Some? && BucketOps.Sound(k.plan.value, s.bucket)
    ensures forall i | i in s.calls && s.calls[i].emptyAt.Some? && |s.bucket.log| <= s.calls[i].emptyAt.value ::
              s.bucket.tokens == 0
  {
    assert s.bucket.log[..|s.bucket.log|] == s.bucket.log;
  }

  /** And it stays so: from then on nobody gets a token. */
  lemma EmptyForGood(k: Config, s: State, es: seq<Event>)
    requires k.Valid() && Reachable(k, s) && k.plan.Some? && s.bucket.done && s.bucket.tokens == 0 && CanRun(k, s, es)
    ensures After(k, s, es).bucket.tokens == 0 && Takes(After(k, s, es)) == Takes(s)
  {
    ReachableInv(k, s);
    hide Inv, Reachable;
    DrainAfterStop(k, s, es);
  }
}
