/** What holds of every reachable state of the whole breaker, and of every run. */
module Guarantees {
  import opened Arith
  import opened Errors
  import Breaker
  import Probing
  import RateBound
  import BucketOps
  import Backoff
  import Gate
  import Ledger
  import Wheels
  import Accounts
  import opened DoCalls
  import opened CallInvs
  import opened Effects
  import opened Circuit

  lemma EveryCall(k: Config, s: State, id: nat)
    requires k.Valid() && Reachable(k, s) && id in s.calls
    ensures CallInv(k, s.calls[id], s.clock)
  {
    ReachableInv(k, s);
  }

  /** The deadline that an event offers to the gate, as the word it is stored as. */
  function Offered(s: State, e: Event): Option<int> {
    if e.Do? && e.id in s.calls && e.act.Arm? && s.calls[e.id].pc.Noted?
    then Some(Wrap(e.act.at + s.calls[e.id].pc.delay)) else None
  }

  ghost predicate BreakerSteps(k: Config, s: State, s': State) {
    k.breaker.Some? ==>
      || s'.breaker == s.breaker
      || exists a :: Probing.Enabled(s.breaker, a) && s'.breaker == Probing.Next(k.breaker.value, s.breaker, a)
  }

  ghost predicate BucketSteps(k: Config, s: State, s': State) {
    k.plan.Some? ==>
      || s'.bucket == s.bucket
      || exists op ::
           BucketOps.Can(k.plan.value, s.bucket, op) && s'.bucket == BucketOps.Do(k.plan.value, s.bucket, op)
  }

  /** The system adds nothing to its parts: one event is one step of the breaker
      with its calls or none, one operation on the bucket or none, and on the gate
      an atomic maximum with the deadline offered, if one is. */
  lemma PartsTakeTheirOwnSteps(k: Config, s: State, e: Event)
    requires k.Valid() && Reachable(k, s) && Enabled(k, s, e)
    ensures var s', o := Next(k, s, e), Offered(s, e);
            && BreakerSteps(k, s, s') && BucketSteps(k, s, s')
            && s'.gate == (if o.Some? then Gate.Max(s.gate, o.value) else s.gate)
  {
    ReachableInv(k, s);
    match e
    case Pass(now) =>
      assert Probing.Enabled(s.breaker, Probing.Advance(now));
      hide Inv, Reachable, Probing.Enabled;
    case Refiller(op) => hide Inv, Reachable;
    case Begin(_, _) => hide Inv, Reachable;
    case Do(id, a) =>
      assert CallInv(k, s.calls[id], s.clock);
      assert Holding(k, s.calls[id]) && Accounted(s.calls[id]) && Admitted(k, s.calls[id]);
      hide Inv, Reachable, CallInv, Holding, Accounted, Admitted, Can, EffectOf, Step, Permits, BreakerAfter,
        BucketAfter, GateAfter, BreakerSteps, BucketSteps, BreakerInv, Offered;
      StepFollows(k, s.calls[id], a, s.clock);
      CallsTakeSteps(k, s, id, EffectOf(k, s.calls[id], a, s.clock), Step(k, s.calls[id], a, s.clock));
      GateTakesMaximum(k, s, id, a);
  }

  lemma CallsTakeSteps(k: Config, s: State, id: nat, fx: Effect, d: Call)
    requires BreakerInv(k, s.breaker, s.calls) && ClockInv(s) && id in s.calls && s.calls[id].entryNow <= s.clock
    requires Permits(k, s, id, fx) && Follows(k, s.calls[id], fx, d)
    ensures BreakerSteps(k, s, AfterDo(k, s, id, fx, d)) && BucketSteps(k, s, AfterDo(k, s, id, fx, d))
  {
    hide Probing.Inv, SlotFollows, AccountFollows, SearchFollows, Breaker.Allow, TicketsTied;
    match fx {
      case Knocked(_) =>
        TicketsTie(k, s.breaker.live, s.calls, id, fx, d);
        assert Probing.Enabled(s.breaker, Probing.Knock(id, s.calls[id].entryNow));
      case Filed(o) =>
        TicketsTie(k, s.breaker.live, s.calls, id, fx, d);
        assert Probing.Enabled(s.breaker, Probing.Answer(id, o));
      case Took => assert BucketOps.Can(k.plan.value, s.bucket, BucketOps.Grab(s.clock, id));
      case _ =>
    }
  }

  lemma GateTakesMaximum(k: Config, s: State, id: nat, a: Act)
    requires Enabled(k, s, Do(id, a))
    ensures var o := Offered(s, Do(id, a));
            GateAfter(s.gate, EffectOf(k, s.calls[id], a, s.clock))
            == if o.Some? then Gate.Max(s.gate, o.value) else s.gate
  {
    OnlyArmRaises(k, s.calls[id], a, s.clock);
    hide EffectOf, Permits, Wrap;
  }

  // -------------------------------------------------------------------------
  // Probes

  /** Calls admitted as probes of generation `g` that have not reported. */
  function InFlight(s: State, g: nat): set<nat> {
    set id | id in s.calls && s.calls[id].ticket == Some(Breaker.Ticket(true, g)) && !s.calls[id].pc.Done?
  }

  lemma InFlightAreProbes(s: State, g: nat)
    requires TicketsTied(s.breaker.live, s.calls)
    ensures InFlight(s, g) == Probing.Probes(s.breaker, g)
  {
  }

  /** The probe counter is the number of probes in flight, no generation ever
      has more in flight than allowed, and probes are paced over the long run. */
  lemma ProbeAccounting(k: Config, s: State)
    requires k.Valid() && Reachable(k, s) && k.breaker.Some?
    ensures var p, b := k.breaker.value, s.breaker.core;
            && (b.cur.HalfOpen? ==> |InFlight(s, b.gen)| == b.probes)
            && 0 <= b.probes <= p.maxProbes
            && (forall g :: |InFlight(s, g)| <= p.maxProbes)
            && b.gen * p.openFor <= s.clock - s.breaker.t0
            && s.breaker.admitted <= p.maxProbes * ((s.clock - s.breaker.t0) / p.openFor) + s.breaker.returned
  {
    ReachableInv(k, s);
    assert BreakerInv(k, s.breaker, s.calls) && ClockInv(s);
    hide Inv, Reachable, Probing.Budgeted, Probing.Tallied;
    Probing.ProbeBudget(k.breaker.value, s.breaker);
    forall g ensures InFlight(s, g) == Probing.Probes(s.breaker, g) {
      InFlightAreProbes(s, g);
    }
    hide InFlight, Probing.Probes, TicketsTied;
  }

  /** Every admitted call reports exactly once: its ticket is live until it is
      done, then it has reported the verdict on its result, and a call that is
      done does nothing more. */
  lemma ReportsOnce(k: Config, s: State, id: nat, a: Act, t: int)
    requires k.Valid() && Reachable(k, s) && k.breaker.Some? && id in s.calls && s.calls[id].ticket.Some?
    ensures var c := s.calls[id];
            && (id in s.breaker.live <==> !c.pc.Done?) && (c.pc.Done? <==> c.reported.Some?)
            && (c.reported.Some? ==> c.reported.value == Verdict(c.pc.result, c.lastErr.Some?, k.statusFailMin))
            && (c.pc.Done? ==> !Can(k, c, a, t))
  {
    ReachableInv(k, s);
    assert Admitted(k, s.calls[id]);
  }

  /** A refused call changes nothing but itself, ever. */
  lemma RefusalTouchesNothing(k: Config, s: State, id: nat)
    requires k.Valid() && Reachable(k, s)
    requires Enabled(k, s, Do(id, Enter(Breaker.Refused)))
    ensures var s' := Next(k, s, Do(id, Enter(Breaker.Refused)));
            && s' == s.(calls := s'.calls) && s'.calls == s.calls[id := s'.calls[id]]
            && s'.calls[id].pc == Done(Failed(Sentinel(CircuitOpen)))
            && s'.calls[id].sends == [] && s'.calls[id].tokens == 0 && s'.calls[id].tried == 0 && !s'.calls[id].slot
  {
    EveryCall(k, s, id);
    Breaker.RefusedIff(k.breaker.value, s.breaker.core, s.calls[id].entryNow);
  }

  // -------------------------------------------------------------------------
  // Slots, tokens, counters

  /** Occupancy of the semaphore is the number of calls that hold a slot, which
      are all those between taking it and leaving, however they leave. */
  lemma SlotAccounting(k: Config, s: State)
    requires k.Valid() && Reachable(k, s)
    ensures s.inUse == |set id | id in s.calls && s.calls[id].slot|
    ensures k.maxConcurrent > 0 ==> 0 <= s.inUse <= k.maxConcurrent
    ensures forall id | id in s.calls ::
              && ((BeforeSend(s.calls[id].pc) || AfterSend(s.calls[id].pc) || BetweenSends(s.calls[id].pc))
                  ==> s.calls[id].slot == (k.maxConcurrent > 0))
              && (s.calls[id].pc.Reporting? || s.calls[id].pc.Done? ==> !s.calls[id].slot)
  {
    ReachableInv(k, s);
    assert s.holders == set id | id in s.calls && s.calls[id].slot;
    forall id | id in s.calls ensures Holding(k, s.calls[id]) {}
  }

  /** Tokens are conserved, and every recorded attempt took exactly one. */
  lemma TokenAccounting(k: Config, s: State, id: nat)
    requires k.Valid() && Reachable(k, s) && k.plan.Some? && id in s.calls
    ensures var log, c := s.bucket.log, s.calls[id];
            && k.plan.value.capacity + RateBound.Total(log, RateBound.Puts)
               == s.bucket.tokens + RateBound.Total(log, RateBound.Takes)
            && 0 <= s.bucket.tokens <= k.plan.value.capacity
            && TakenBy(log, id) == c.tokens == c.tried + (if c.pc.HasToken? then 1 else 0)
            && |c.sends| <= c.tried <= |c.sends| + 1
  {
    ReachableInv(k, s);
    BucketOps.Conservation(k.plan.value, s.bucket);
    assert Paid(k, s.calls[id]);
  }

  /** If ticks came at least an interval apart and batches took no time, any
      half-open window saw at most so many tokens leave. */
  lemma RateAccounting(k: Config, s: State, from: int, width: int)
    requires k.Valid() && Reachable(k, s) && k.plan.Some? && width >= 0
    requires RateBound.Timed(k.plan.value, s.bucket.log)
    ensures RateBound.Within(s.bucket.log, RateBound.Takes, from, from + width)
            <= k.plan.value.capacity + k.plan.value.perTick * CeilDiv(width, k.plan.value.interval)
  {
    ReachableInv(k, s);
    RateBound.WindowBound(k.plan.value, s.bucket.log, from, width);
  }

  /** Calls counted under a key whose latest attempt has no outcome recorded. */
  function Unanswered(s: State, host: string, key: string): set<nat> {
    set id | id in s.calls && s.calls[id].account.Open?
             && Accounts.Under(s.accounts.metrics, host, key, SiteOf(s.calls[id]))
  }

  /** Calls counted under a key with a failure recorded for no attempt, and no
      cancellation recorded to explain it. */
  function Unexplained(s: State, host: string, key: string): set<nat> {
    set id | id in s.calls && s.calls[id].account.Short?
             && Accounts.Under(s.accounts.metrics, host, key, SiteOf(s.calls[id]))
  }

  lemma HeldAreUnsettled(s: State, host: string, key: string)
    requires AccountsTied(s.accounts.trying, s.accounts.lost, s.calls)
    ensures Unanswered(s, host, key) == Accounts.Held(s.accounts.trying, s.accounts.metrics, host, key)
    ensures Unexplained(s, host, key) == Accounts.Held(s.accounts.lost, s.accounts.metrics, host, key)
  {
    hide SiteOf, Accounts.Under;
  }

  /** The counters of every key, the aggregate included, balance at every moment. */
  lemma CounterConservation(k: Config, s: State, host: string, key: string)
    requires k.Valid() && Reachable(k, s)
    ensures var st := Ledger.At(Ledger.HostOf(s.accounts.metrics, host), key);
            st.total + st.cancellations + |Unexplained(s, host, key)|
            == st.successful + st.failed + |Unanswered(s, host, key)|
  {
    ReachableInv(k, s);
    assert Accounts.Inv(s.accounts) && AccountsTied(s.accounts.trying, s.accounts.lost, s.calls);
    hide Inv, Reachable, AccountsTied, Unexplained, Unanswered, Accounts.Held, Accounts.Tidy;
    HeldAreUnsettled(s, host, key);
    assert Accounts.Balanced(s.accounts, host, key);
  }

  /** Which calls those are: unanswered attempts are on their way, or their call
      panicked; unexplained failures are about to be explained, or `Stop` caused them. */
  lemma WhoIsUnsettled(k: Config, s: State, id: nat)
    requires k.Valid() && Reachable(k, s) && id in s.calls
    ensures var c := s.calls[id];
            && (c.account.Open? ==> c.pc.Ready? || c.pc.RewindFailed? || c.pc.Flight? || c.pc.Answered? || c.pc.Errored?
                                    || (Over(c.pc) && ResultOf(c.pc) == Panicked))
            && (c.account.Short? ==> c.pc.CancelPending? || (Over(c.pc) && ResultOf(c.pc) == Failed(Sentinel(Stopped))))
  {
    EveryCall(k, s, id);
    assert Accounted(s.calls[id]);
  }

  /** The aggregates of the running system: in every counter, and in what the
      wheels return for every window they can hold, asked at any second that none
      of them has passed. The second of the clock and all later ones are such. */
  lemma MetricsAccounting(k: Config, s: State, host: string, c: Ledger.Column, fam: Ledger.Which,
                          now: int, seconds: int)
    requires k.Valid() && Reachable(k, s) && host in s.accounts.metrics
    requires Ledger.NoneAhead(s.accounts.metrics[host], now) && now > 0 && 0 <= seconds <= Wheels.WHEEL_SECONDS
    ensures Ledger.RootIsSum(s.accounts.metrics[host], Ledger.Counter(c))
    ensures Ledger.RootIsSum(s.accounts.metrics[host], Ledger.ReadingOf(fam, now, seconds))
    ensures |s.accounts.metrics[host]| <= Ledger.MAX_ENDPOINTS_PER_HOST + 1
  {
    ReachableInv(k, s);
    var upto := Ledger.Sec(s.clock);
    assert Accounts.Faithful(s.accounts, upto) && upto >= 0;
    hide *;
    StoreAccounting(s.accounts, upto, host, c, fam, now, seconds);
  }

  /** The metrics of the system are those of the live store: its value after the
      same records, each of which that store may be asked to make. */
  lemma StoreIsLive(k: Config, s: State)
    requires k.Valid() && Reachable(k, s)
    ensures s.accounts.metrics == Ledger.Replay(s.accounts.events)
    ensures Ledger.AllTimely(s.accounts.events, Ledger.Sec(s.clock))
  {
    ReachableInv(k, s);
    assert Accounts.Faithful(s.accounts, Ledger.Sec(s.clock));
    hide Inv, Reachable;
  }

  lemma StoreAccounting(st: Accounts.State, upto: nat, host: string, c: Ledger.Column, fam: Ledger.Which,
                        now: int, seconds: int)
    requires Accounts.Faithful(st, upto) && host in st.metrics
    requires Ledger.NoneAhead(st.metrics[host], now) && now > 0 && 0 <= seconds <= Wheels.WHEEL_SECONDS
    ensures Ledger.RootIsSum(st.metrics[host], Ledger.Counter(c))
    ensures Ledger.RootIsSum(st.metrics[host], Ledger.ReadingOf(fam, now, seconds))
    ensures |st.metrics[host]| <= Ledger.MAX_ENDPOINTS_PER_HOST + 1
  {
    hide Ledger.Replay, Ledger.RootIsSum, Ledger.NoneAhead, Ledger.AllTimely;
    Ledger.CountersAreSums(st.events, host, c);
    Ledger.ReadingsAreSums(st.events, host, fam, now, seconds, upto);
    Ledger.KeyCount(st.events, host);
  }

  lemma WheelsBehindTheClock(k: Config, s: State, host: string, now: int)
    requires k.Valid() && Reachable(k, s) && host in s.accounts.metrics && Ledger.Sec(s.clock) <= now
    ensures Ledger.NoneAhead(s.accounts.metrics[host], now)
  {
    ReachableInv(k, s);
    assert Accounts.Faithful(s.accounts, Ledger.Sec(s.clock)) && Ledger.Sec(s.clock) >= 0;
    Ledger.WheelsAlwaysShow(s.accounts.events, host, Ledger.Sec(s.clock));
    Ledger.HostIsKnown(s.accounts.metrics, host);
    hide Inv, Reachable, Ledger.AllShown, Ledger.Replay;
  }

  // -------------------------------------------------------------------------
  // One call

  /** A failure that is reported is evidence: the call reached the transport. The
      only exception is a negative retry limit. A panic is always a failure. A
      bare deadline counts exactly when an attempt of the call had failed before,
      or when the deadline is itself what the transport returned. */
  lemma FailureIsEvidence(k: Config, s: State, id: nat)
    requires k.Valid() && Reachable(k, s) && id in s.calls && s.calls[id].pc.Done? && s.calls[id].ticket.Some?
    ensures var c := s.calls[id];
            && c.reported.Some?
            && (c.reported == Some(Failure) && c.sends == [] ==> k.maxRetries < 0)
            && (c.pc.result.Panicked? ==> c.reported == Some(Failure) && c.sends != [])
            && (c.pc.result == Failed(Sentinel(DeadlineExceeded)) ==>
                  (c.reported == Some(Failure)
                   <==> SomeFailing(c.ends) || c.lastErr == Some(Sentinel(DeadlineExceeded))))
  {
    EveryCall(k, s, id);
    var c := s.calls[id];
    assert Admitted(k, c) && Resulted(k, c) && Ended(k, c) && Remembered(c);
    hide CallInv, Reachable;
  }

  /** A call that was admitted and ended without an attempt is counted against
      the downstream exactly when the retry limit is negative and the loop, which
      then never runs, was reached. */
  lemma UnsentFailureIff(k: Config, s: State, id: nat)
    requires k.Valid() && Reachable(k, s) && id in s.calls
    requires var c := s.calls[id]; c.pc.Done? && c.ticket.Some? && c.sends == []
    ensures var c := s.calls[id]; c.reported == Some(Failure) <==> k.maxRetries < 0 && c.exhausted
  {
    EveryCall(k, s, id);
    var c := s.calls[id];
    assert Admitted(k, c) && Resulted(k, c) && Ended(k, c) && Remembered(c);
    hide CallInv, Reachable;
  }

  /** Attempts are limited, retries need a body that can be replayed, and every
      attempt sends the original bytes. A retry never finds `GetBody` missing. */
  lemma RetryLaw(k: Config, s: State, id: nat)
    requires k.Valid() && Reachable(k, s) && id in s.calls
    ensures var c := s.calls[id];
            && (|c.sends| > 0 ==> |c.sends| <= k.maxRetries + 1)
            && (|c.sends| > 1 ==> c.req.Replayable())
            && (c.pc.Ready? && Rewinds(c) ==> c.req.rewindable)
            && forall i | 0 <= i < |c.sends| :: c.sends[i].payload == c.req.Content()
  {
    EveryCall(k, s, id);
    var c := s.calls[id];
    assert Counted(k, c) && SameBody(c) && Ended(k, c) && SendsSpaced(k, c, s.clock) && WaitsAsAsked(c);
  }

  /** The call remembers an end of every attempt after which the loop goes on, or
      would; which those are is the subject of `Retrying.ExhaustionLaw`. It reports
      exhaustion exactly when that was every permitted attempt, and then the last one
      ended in the transport error that the report unwraps to. */
  lemma ExhaustionLaw(k: Config, s: State, id: nat)
    requires k.Valid() && Reachable(k, s) && id in s.calls && k.maxRetries >= 0
    ensures var c := s.calls[id];
            && (c.exhausted <==> |c.ends| == k.maxRetries + 1)
            && (c.exhausted ==> && |c.sends| == k.maxRetries + 1 && c.ends[k.maxRetries].Failing?
                                && Over(c.pc) && ResultOf(c.pc) == Failed(Exhausted(Some(c.ends[k.maxRetries].err))))
  {
    EveryCall(k, s, id);
    assert Counted(k, s.calls[id]) && Ended(k, s.calls[id]);
  }

  /** Consecutive attempts of a call are at least the backoff wait apart, and
      after a retried 429 or 503 not before the deadline which that one armed. */
  lemma SpacingLaw(k: Config, s: State, id: nat, i: nat)
    requires k.Valid() && Reachable(k, s) && id in s.calls && i + 1 < |s.calls[id].sends|
    ensures var c := s.calls[id];
            && i < |c.waits| && i < |c.ends|
            && Backoff.Possible(k.backoff, i, c.waits[i].floor) && 0 < c.waits[i].floor
            && c.sends[i].at + c.waits[i].floor <= c.sends[i + 1].at
            && (c.ends[i].Asked? ==> c.ends[i].until <= c.sends[i + 1].at)
  {
    EveryCall(k, s, id);
    var c := s.calls[id];
    assert SendsSpaced(k, c, s.clock) && WaitsAsAsked(c);
    assert Spaced(c.sends[i], c.waits[i], c.sends[i + 1].at);
    assert c.waits[i].notBefore == Deadline(c.ends[i]);
    Backoff.WaitRange(k.backoff, i, c.waits[i].floor);
  }
}
