/** The whole breaker: any number of calls, the refiller, `Stop` and the clock,
    in every interleaving. The environment picks the events: transport results,
    panics, cancellations, waiting times, ticks and the passing of time. */
module Circuit {
  import opened Arith
  import opened Errors
  import Breaker
  import Probing
  import opened Bucket
  import RateBound
  import BucketOps
  import Ledger
  import Accounts
  import opened DoCalls
  import opened CallInvs
  import opened Effects

  datatype State = State(
    t0: int,
    clock: int,
    calls: map<nat, Call>,
    breaker: Probing.State,
    inUse: int,             // slots taken in the semaphore
    holders: set<nat>,      // history: by whom
    bucket: BucketOps.State,
    gate: int,              // retryAfterUntil
    accounts: Accounts.State)

  datatype Event =
    | Pass(now: int)
    | Refiller(op: BucketOps.Op)
    | Begin(id: nat, req: Request)
    | Do(id: nat, act: Act)

  function Init(k: Config, t0: int): State {
    State(t0, t0, map[], Probing.Init(t0), 0, {},
        BucketOps.Filled(if k.plan.Some? then k.plan.value else Plan(1, 1, 1)), 0, Accounts.EMPTY)
  }

  /** What the shared parts allow a call to do or to learn. */
  predicate Permits(k: Config, s: State, id: nat, fx: Effect)
    requires id in s.calls
  {
    match fx
    case Knocked(adm) =>
      k.breaker.Some? && adm == Breaker.Allow(k.breaker.value, s.breaker.core, s.calls[id].entryNow).1
    case Acquired => s.inUse < k.maxConcurrent
    case Loaded(v) => v == s.gate
    case Took => s.bucket.tokens > 0
    case FoundEmpty(mark) => s.bucket.tokens == 0 && mark == |s.bucket.log|
    case SawStop => s.bucket.closed
    case _ => true
  }

  predicate Enabled(k: Config, s: State, e: Event) {
    match e
    case Pass(now) => s.clock <= now
    case Refiller(op) =>
      && k.plan.Some? && !op.Grab? && BucketOps.Can(k.plan.value, s.bucket, op)
      && (op.Fire? || op.Feed? ==> op.at == s.clock)
    case Begin(id, _) => id !in s.calls
    case Do(id, a) =>
      id in s.calls && Can(k, s.calls[id], a, s.clock) && Permits(k, s, id, EffectOf(k, s.calls[id], a, s.clock))
  }

  function SiteOf(c: Call): Accounts.Site { Accounts.Site(c.req.host, c.req.Endpoint()) }

  // The shared parts after an effect. A report of a call that holds no live
  // ticket would leave the history alone; no reachable state has one.

  function BreakerAfter(k: Config, b: Probing.State, id: nat, c: Call, fx: Effect): Probing.State
    requires fx.Knocked? || fx.Filed? ==> k.breaker.Some?
  {
    match fx
    case Knocked(_) => Probing.AfterKnock(k.breaker.value, b, id, c.entryNow)
    case Filed(o) => if id in b.live then Probing.AfterAnswer(k.breaker.value, b, id, o) else b
    case _ => b
  }

  function HoldersAfter(holders: set<nat>, id: nat, fx: Effect): set<nat> {
    if fx.Acquired? then holders + {id} else if fx.Released? then holders - {id} else holders
  }

  function InUseAfter(inUse: int, fx: Effect): int {
    if fx.Acquired? then inUse + 1 else if fx.Released? then inUse - 1 else inUse
  }

  function BucketAfter(k: Config, b: BucketOps.State, id: nat, now: int, fx: Effect): BucketOps.State
    requires fx.Took? ==> k.plan.Some?
  {
    if fx.Took? then BucketOps.Do(k.plan.value, b, BucketOps.Grab(now, id)) else b
  }

  function GateAfter(gate: int, fx: Effect): int {
    if fx.Raised? && gate < fx.until then fx.until else gate
  }

  /** The end of an attempt is taken to be the moment of its record. */
  function AccountsAfter(st: Accounts.State, id: nat, c: Call, now: int, fx: Effect): Accounts.State {
    if fx.Booked? then Accounts.Record(st, id, SiteOf(c), fx.kind, Ledger.Span(c.start, now, now)) else st
  }

  lemma EffectsFit(k: Config, c: Call, a: Act, t: int)
    requires Can(k, c, a, t)
    ensures var fx := EffectOf(k, c, a, t);
            (fx.Knocked? || fx.Filed? ==> k.breaker.Some?) && (fx.Took? ==> k.plan.Some?)
  {
  }

  /** The state after one step of a call: `d` replaces it, `fx` acts. */
  function AfterDo(k: Config, s: State, id: nat, fx: Effect, d: Call): State
    requires id in s.calls && (fx.Knocked? || fx.Filed? ==> k.breaker.Some?) && (fx.Took? ==> k.plan.Some?)
  {
    var c := s.calls[id];
    State(s.t0, s.clock, s.calls[id := d],
        BreakerAfter(k, s.breaker, id, c, fx),
        InUseAfter(s.inUse, fx), HoldersAfter(s.holders, id, fx),
        BucketAfter(k, s.bucket, id, s.clock, fx),
        GateAfter(s.gate, fx),
        AccountsAfter(s.accounts, id, c, s.clock, fx))
  }

  function Next(k: Config, s: State, e: Event): State
    requires Enabled(k, s, e)
  {
    match e
    case Pass(now) => s.(clock := now, breaker := s.breaker.(clock := now))
    case Refiller(op) => s.(bucket := BucketOps.Do(k.plan.value, s.bucket, op))
    case Begin(id, req) => s.(calls := s.calls[id := NewCall(req, s.clock)])
    case Do(id, a) =>
      EffectsFit(k, s.calls[id], a, s.clock);
      AfterDo(k, s, id, EffectOf(k, s.calls[id], a, s.clock), Step(k, s.calls[id], a, s.clock))
  }

  // -------------------------------------------------------------------------
  // Invariants: the components, and what ties the calls to them

  type Calls = map<nat, Call>

  ghost predicate CallsInv(k: Config, calls: Calls, now: int) {
    forall id | id in calls :: CallInv(k, calls[id], now)
  }

  /** The live tickets are those of the calls admitted and not yet done. */
  ghost predicate TicketsTied(live: map<nat, Breaker.Ticket>, calls: Calls) {
    && (forall id | id in live :: id in calls && Live(calls[id]))
    && (forall id | id in calls && Live(calls[id]) :: id in live && calls[id].ticket == Some(live[id]))
  }

  ghost predicate BreakerInv(k: Config, b: Probing.State, calls: Calls) {
    k.breaker.Some? ==> Probing.Inv(k.breaker.value, b) && TicketsTied(b.live, calls)
  }

  ghost predicate SlotsInv(k: Config, inUse: int, holders: set<nat>, calls: Calls) {
    && inUse == |holders|
    && inUse <= (if k.maxConcurrent > 0 then k.maxConcurrent else 0)
    && (forall id | id in holders :: id in calls && calls[id].slot)
    && (forall id | id in calls && calls[id].slot :: id in holders)
  }

  function TakenBy(log: seq<RateBound.Ev>, id: nat): nat {
    if log == [] then 0
    else TakenBy(RateBound.Front(log), id)
         + if RateBound.Last(log).Take? && RateBound.Last(log).who == id then 1 else 0
  }

  ghost predicate TokensTied(log: seq<RateBound.Ev>, calls: Calls) {
    forall id: nat :: TakenBy(log, id) == if id in calls then calls[id].tokens else 0
  }

  ghost predicate BucketInv(k: Config, b: BucketOps.State, calls: Calls, now: int) {
    k.plan.Some? ==>
      && BucketOps.Sound(k.plan.value, b)
      && RateBound.Ordered(b.log) && RateBound.NoLaterThan(b.log, now)
      && TokensTied(b.log, calls)
  }

  /** What a call remembers of the bucket is true: it was empty when the call
      found it empty, and `Stop` has closed it if the call was turned away. */
  ghost predicate Recalls(k: Config, b: BucketOps.State, c: Call) {
    && (c.emptyAt.Some? ==> k.plan.Some? && BucketOps.WasEmpty(k.plan.value, b.log, c.emptyAt.value))
    && (c.turnedAway ==> b.closed)
  }

  ghost predicate SearchInv(k: Config, b: BucketOps.State, calls: Calls) {
    forall id | id in calls :: Recalls(k, b, calls[id])
  }

  /** The open and the short accounts are those of the calls. */
  ghost predicate AccountsTied(trying: map<nat, Accounts.Site>, lost: map<nat, Accounts.Site>, calls: Calls) {
    && (forall id | id in trying :: id in calls && calls[id].account.Open?)
    && (forall id | id in lost :: id in calls && calls[id].account.Short?)
    && (forall id | id in calls && calls[id].account.Open? :: id in trying && trying[id] == SiteOf(calls[id]))
    && (forall id | id in calls && calls[id].account.Short? :: id in lost && lost[id] == SiteOf(calls[id]))
  }

  ghost predicate AccountsInv(st: Accounts.State, calls: Calls, now: int) {
    Accounts.Inv(st) && AccountsTied(st.trying, st.lost, calls) && Accounts.Faithful(st, Ledger.Sec(now))
  }

  ghost predicate GateInv(k: Config, gate: int, now: int) {
    0 <= now && IsWord(gate) && 0 <= gate <= now + if k.retryAfterMax > 0 then k.retryAfterMax else 0
  }

  ghost predicate ClockInv(s: State) {
    SECOND <= s.clock && s.breaker.clock == s.clock && s.breaker.t0 == s.t0
  }

  ghost predicate Inv(k: Config, s: State) {
    && ClockInv(s)
    && CallsInv(k, s.calls, s.clock)
    && BreakerInv(k, s.breaker, s.calls)
    && SlotsInv(k, s.inUse, s.holders, s.calls)
    && BucketInv(k, s.bucket, s.calls, s.clock) && SearchInv(k, s.bucket, s.calls)
    && AccountsInv(s.accounts, s.calls, s.clock)
    && GateInv(k, s.gate, s.clock)
  }

  // -------------------------------------------------------------------------
  // Each component follows the effects. Throughout, `d` is the call after the
  // step and `fx` its effect.

  lemma CallsStep(k: Config, calls: Calls, id: nat, d: Call, now: int)
    requires CallsInv(k, calls, now) && CallInv(k, d, now)
    ensures CallsInv(k, calls[id := d], now)
  {
    hide CallInv;
  }

  lemma SlotsStep(k: Config, inUse: int, holders: set<nat>, calls: Calls, id: nat, fx: Effect, d: Call)
    requires SlotsInv(k, inUse, holders, calls) && id in calls && SlotFollows(calls[id], fx, d)
    requires fx.Acquired? ==> inUse < k.maxConcurrent
    ensures SlotsInv(k, InUseAfter(inUse, fx), HoldersAfter(holders, id, fx), calls[id := d])
  {
    if fx.Acquired? {
      assert id !in holders;
    } else if fx.Released? {
      assert id in holders;
    }
  }

  lemma OneMoreEvent(log: seq<RateBound.Ev>, e: RateBound.Ev, id: nat)
    requires RateBound.Ordered(log) && RateBound.NoLaterThan(log, e.at)
    ensures RateBound.Ordered(log + [e]) && RateBound.NoLaterThan(log + [e], e.at)
    ensures TakenBy(log + [e], id) == TakenBy(log, id) + if e.Take? && e.who == id then 1 else 0
  {
    RateBound.Snoc(log, e);
  }

  lemma LogSteps(p: Plan, b: BucketOps.State, now: int, op: BucketOps.Op, id: nat)
    requires RateBound.Ordered(b.log) && RateBound.NoLaterThan(b.log, now)
    requires op.Fire? || op.Feed? || op.Grab? ==> op.at == now
    ensures var d := BucketOps.Do(p, b, op);
            && RateBound.Ordered(d.log) && RateBound.NoLaterThan(d.log, now)
            && TakenBy(d.log, id) == TakenBy(b.log, id) + if op.Grab? && op.who == id then 1 else 0
  {
    hide RateBound.Ordered, RateBound.NoLaterThan, TakenBy;
    match op
    case Fire(at) => OneMoreEvent(b.log, RateBound.Tick(at), id);
    case Feed(at) =>
      OneMoreEvent(b.log, RateBound.Put(at), id);
      OneMoreEvent(b.log, RateBound.Full(at), id);
    case Grab(at, who) => OneMoreEvent(b.log, RateBound.Take(at, who), id);
    case Shut =>
    case Quit =>
  }

  lemma RefillerStep(k: Config, b: BucketOps.State, calls: Calls, now: int, op: BucketOps.Op)
    requires BucketInv(k, b, calls, now) && SearchInv(k, b, calls)
    requires k.plan.Some? && BucketOps.Can(k.plan.value, b, op) && !op.Grab?
    requires op.Fire? || op.Feed? ==> op.at == now
    ensures var d := BucketOps.Do(k.plan.value, b, op); BucketInv(k, d, calls, now) && SearchInv(k, d, calls)
  {
    var d := BucketOps.Do(k.plan.value, b, op);
    BucketOps.DoIsSound(k.plan.value, b, op);
    forall id: nat ensures TakenBy(d.log, id) == TakenBy(b.log, id) {
      LogSteps(k.plan.value, b, now, op, id);
    }
    LogSteps(k.plan.value, b, now, op, 0);
    assert d.closed == (b.closed || op.Shut?);
    hide BucketOps.Do, BucketOps.WasEmpty, BucketOps.Sound, TakenBy;
    forall id | id in calls ensures Recalls(k, d, calls[id]) {
      RecallsStill(k, b, op, calls[id]);
    }
  }

  lemma RecallsStill(k: Config, b: BucketOps.State, op: BucketOps.Op, c: Call)
    requires k.plan.Some? && Recalls(k, b, c)
    ensures Recalls(k, BucketOps.Do(k.plan.value, b, op), c)
  {
    if c.emptyAt.Some? {
      BucketOps.HistoryStands(k.plan.value, b, op, c.emptyAt.value);
    }
    hide BucketOps.WasEmpty;
  }

  lemma TakeStep(k: Config, b: BucketOps.State, calls: Calls, now: int, id: nat, d: Call)
    requires BucketInv(k, b, calls, now) && SearchInv(k, b, calls) && id in calls
    requires k.plan.Some? && b.tokens > 0 && d.tokens == calls[id].tokens + 1 && Recalls(k, b, d)
    ensures var e := BucketOps.Do(k.plan.value, b, BucketOps.Grab(now, id));
            BucketInv(k, e, calls[id := d], now) && SearchInv(k, e, calls[id := d])
  {
    var op := BucketOps.Grab(now, id);
    var e := BucketOps.Do(k.plan.value, b, op);
    BucketOps.DoIsSound(k.plan.value, b, op);
    forall i: nat ensures TakenBy(e.log, i) == TakenBy(b.log, i) + if i == id then 1 else 0 {
      LogSteps(k.plan.value, b, now, op, i);
    }
    LogSteps(k.plan.value, b, now, op, 0);
    hide BucketOps.Do, BucketOps.Sound, BucketOps.Can, TakenBy;
    var after := calls[id := d];
    forall i | i in after ensures Recalls(k, e, after[i]) {
      RecallsStill(k, b, op, after[i]);
    }
  }

  /** A call remembers what is so: nothing new, or that the bucket is empty now,
      or that it is closed. */
  lemma StillRecalls(k: Config, b: BucketOps.State, c: Call, fx: Effect, d: Call)
    requires Recalls(k, b, c) && SearchFollows(c, fx, d)
    requires k.plan.Some? ==> BucketOps.Sound(k.plan.value, b)
    requires fx.FoundEmpty? ==> k.plan.Some? && b.tokens == 0 && fx.mark == |b.log|
    requires fx.SawStop? ==> b.closed
    ensures Recalls(k, b, d)
  {
    assert b.log[..|b.log|] == b.log;
  }

  lemma BucketStep(k: Config, b: BucketOps.State, calls: Calls, now: int, id: nat, fx: Effect, d: Call)
    requires BucketInv(k, b, calls, now) && SearchInv(k, b, calls) && id in calls
    requires TokensFollow(k, calls[id], fx, d) && SearchFollows(calls[id], fx, d)
    requires fx.Took? ==> b.tokens > 0
    requires fx.FoundEmpty? ==> b.tokens == 0 && fx.mark == |b.log|
    requires fx.SawStop? ==> b.closed
    ensures var e := BucketAfter(k, b, id, now, fx);
            BucketInv(k, e, calls[id := d], now) && SearchInv(k, e, calls[id := d])
  {
    StillRecalls(k, b, calls[id], fx, d);
    if fx.Took? {
      hide BucketInv, SearchInv, Recalls;
      TakeStep(k, b, calls, now, id, d);
    } else {
      hide Recalls, BucketOps.Sound, RateBound.Ordered, TakenBy;
    }
  }

  /** The accounts of the calls admit exactly what the ledger admits. */
  lemma AccountsTie(trying: map<nat, Accounts.Site>, lost: map<nat, Accounts.Site>, calls: Calls,
                    id: nat, kind: Ledger.Kind, w: Accounts.Site, d: Call)
    requires AccountsTied(trying, lost, calls) && id in calls && SiteOf(d) == w == SiteOf(calls[id])
    requires AccountFollows(calls[id], Booked(kind), d)
    ensures Accounts.Can(trying, lost, id, w, kind)
    ensures AccountsTied(Accounts.TryingAfter(trying, id, w, kind), Accounts.LostAfter(trying, lost, id, w, kind),
                         calls[id := d])
  {
    hide SiteOf;
    assert id in trying <==> calls[id].account.Open?;
    assert id in lost <==> calls[id].account.Short?;
  }

  lemma BookStep(st: Accounts.State, calls: Calls, now: int, id: nat, kind: Ledger.Kind, d: Call)
    requires AccountsInv(st, calls, now) && id in calls && SiteOf(d) == SiteOf(calls[id])
    requires AccountFollows(calls[id], Booked(kind), d) && SECOND <= calls[id].start <= now
    ensures AccountsInv(AccountsAfter(st, id, calls[id], now, Booked(kind)), calls[id := d], now)
  {
    var w, when := SiteOf(calls[id]), Ledger.Span(calls[id].start, now, now);
    assert Ledger.Timely(when, Ledger.Sec(now));
    hide SiteOf, Accounts.Inv, Accounts.Faithful, AccountsTied, Accounts.Can, Ledger.Update, Ledger.Timely,
      AccountAfter, AccountAdmits;
    AccountsTie(st.trying, st.lost, calls, id, kind, w, d);
    Accounts.RecordKeepsInv(st, id, w, kind, when);
    Accounts.RecordKeepsFaithful(st, id, w, kind, when, Ledger.Sec(now));
  }

  lemma AccountsRest(st: Accounts.State, calls: Calls, now: int, id: nat, d: Call)
    requires AccountsInv(st, calls, now) && id in calls && SiteOf(d) == SiteOf(calls[id])
    requires d.account == calls[id].account
    ensures AccountsInv(st, calls[id := d], now)
  {
    hide SiteOf, Accounts.Inv, Accounts.Faithful;
  }

  lemma AccountsStep(st: Accounts.State, calls: Calls, now: int, id: nat, fx: Effect, d: Call)
    requires AccountsInv(st, calls, now) && id in calls && SiteOf(d) == SiteOf(calls[id])
    requires AccountFollows(calls[id], fx, d) && SECOND <= calls[id].start <= now
    ensures AccountsInv(AccountsAfter(st, id, calls[id], now, fx), calls[id := d], now)
  {
    hide AccountsInv, SiteOf, Accounts.Record;
    if fx.Booked? {
      BookStep(st, calls, now, id, fx.kind, d);
    } else {
      AccountsRest(st, calls, now, id, d);
    }
  }

  lemma TicketsTie(k: Config, live: map<nat, Breaker.Ticket>, calls: Calls, id: nat, fx: Effect, d: Call)
    requires TicketsTied(live, calls) && id in calls && k.breaker.Some? && TicketFollows(k, calls[id], fx, d)
    ensures fx.Knocked? ==> id !in live
    ensures fx.Knocked? && fx.adm.Granted? ==> TicketsTied(live[id := fx.adm.ticket], calls[id := d])
    ensures fx.Knocked? && fx.adm.Refused? ==> TicketsTied(live, calls[id := d])
    ensures fx.Filed? ==> id in live && TicketsTied(live - {id}, calls[id := d])
    ensures !fx.Knocked? && !fx.Filed? ==> TicketsTied(live, calls[id := d])
  {
  }

  lemma BreakerStep(k: Config, b: Probing.State, calls: Calls, id: nat, fx: Effect, d: Call)
    requires BreakerInv(k, b, calls) && id in calls && TicketFollows(k, calls[id], fx, d)
    requires calls[id].entryNow <= b.clock
    requires fx.Knocked? ==> k.breaker.Some? && fx.adm == Breaker.Allow(k.breaker.value, b.core, calls[id].entryNow).1
    ensures BreakerInv(k, BreakerAfter(k, b, id, calls[id], fx), calls[id := d])
    ensures BreakerAfter(k, b, id, calls[id], fx).clock == b.clock && BreakerAfter(k, b, id, calls[id], fx).t0 == b.t0
  {
    if k.breaker.Some? {
      TicketsTie(k, b.live, calls, id, fx, d);
      hide Probing.Inv, TicketsTied, Breaker.Allow;
      if fx.Knocked? {
        Probing.NextInv(k.breaker.value, b, Probing.Knock(id, calls[id].entryNow));
      } else if fx.Filed? {
        Probing.NextInv(k.breaker.value, b, Probing.Answer(id, fx.outcome));
      }
    }
  }

  lemma GateStep(k: Config, c: Call, a: Act, gate: int, now: int)
    requires GateInv(k, gate, now) && Can(k, c, a, now) && DelayFits(k, c) && 0 <= c.start
    ensures GateInv(k, GateAfter(gate, EffectOf(k, c, a, now)), now)
  {
    if a.Arm? {
      WrapRange(a.at + c.pc.delay);
    } else {
      OnlyArmRaises(k, c, a, now);
    }
  }

  lemma OnlyArmRaises(k: Config, c: Call, a: Act, t: int)
    requires Can(k, c, a, t)
    ensures EffectOf(k, c, a, t).Raised? <==> a.Arm?
    ensures a.Arm? ==> EffectOf(k, c, a, t) == Raised(Wrap(a.at + c.pc.delay))
  {
    hide Wrap;
  }

  lemma DoBreaker(k: Config, s: State, id: nat, fx: Effect, d: Call)
    requires BreakerInv(k, s.breaker, s.calls) && ClockInv(s)
    requires id in s.calls && Permits(k, s, id, fx) && TicketFollows(k, s.calls[id], fx, d)
    requires s.calls[id].entryNow <= s.clock && (fx.Took? ==> k.plan.Some?)
    ensures var s' := AfterDo(k, s, id, fx, d); BreakerInv(k, s'.breaker, s'.calls) && ClockInv(s')
  {
    hide BreakerInv, TicketFollows, Breaker.Allow;
    BreakerStep(k, s.breaker, s.calls, id, fx, d);
  }

  lemma DoSlots(k: Config, s: State, id: nat, fx: Effect, d: Call)
    requires SlotsInv(k, s.inUse, s.holders, s.calls)
    requires id in s.calls && Permits(k, s, id, fx) && Follows(k, s.calls[id], fx, d)
    ensures var s' := AfterDo(k, s, id, fx, d); SlotsInv(k, s'.inUse, s'.holders, s'.calls)
  {
    hide SlotsInv, SlotFollows, Breaker.Allow;
    SlotsStep(k, s.inUse, s.holders, s.calls, id, fx, d);
  }

  lemma DoBucket(k: Config, s: State, id: nat, fx: Effect, d: Call)
    requires BucketInv(k, s.bucket, s.calls, s.clock) && SearchInv(k, s.bucket, s.calls)
    requires id in s.calls && Permits(k, s, id, fx) && Follows(k, s.calls[id], fx, d)
    ensures var s' := AfterDo(k, s, id, fx, d);
            BucketInv(k, s'.bucket, s'.calls, s.clock) && SearchInv(k, s'.bucket, s'.calls)
  {
    hide BucketInv, SearchInv, TokensFollow, SearchFollows, Breaker.Allow;
    BucketStep(k, s.bucket, s.calls, s.clock, id, fx, d);
  }

  lemma DoAccounts(k: Config, s: State, id: nat, fx: Effect, d: Call)
    requires AccountsInv(s.accounts, s.calls, s.clock)
    requires id in s.calls && Follows(k, s.calls[id], fx, d) && Punctual(s.calls[id], s.clock)
    ensures var s' := AfterDo(k, s, id, fx, d); AccountsInv(s'.accounts, s'.calls, s.clock)
  {
    hide AccountsInv, AccountFollows;
    AccountsStep(s.accounts, s.calls, s.clock, id, fx, d);
  }

  lemma DoInv(k: Config, s: State, id: nat, a: Act)
    requires Inv(k, s) && Enabled(k, s, Do(id, a))
    ensures Inv(k, Next(k, s, Do(id, a)))
  {
    var c := s.calls[id];
    assert CallInv(k, c, s.clock);
    StepOfCall(k, s, id, a);
    hide CallsInv, BreakerInv, SlotsInv, BucketInv, SearchInv, AccountsInv, GateInv, CallInv, Permits, Follows,
      TicketFollows, Can, Step, EffectOf, BreakerAfter, InUseAfter, HoldersAfter, BucketAfter, GateAfter, AccountsAfter;
    var fx, d := EffectOf(k, c, a, s.clock), Step(k, c, a, s.clock);
    DoBreaker(k, s, id, fx, d);
    DoSlots(k, s, id, fx, d);
    DoBucket(k, s, id, fx, d);
    DoAccounts(k, s, id, fx, d);
  }

  /** The call itself, and what the step means for its surroundings. */
  lemma StepOfCall(k: Config, s: State, id: nat, a: Act)
    requires CallsInv(k, s.calls, s.clock) && GateInv(k, s.gate, s.clock) && Enabled(k, s, Do(id, a))
    ensures var c, fx := s.calls[id], EffectOf(k, s.calls[id], a, s.clock);
            var d := Step(k, c, a, s.clock);
            && CallsInv(k, s.calls[id := d], s.clock) && GateInv(k, GateAfter(s.gate, fx), s.clock)
            && Follows(k, c, fx, d) && TicketFollows(k, c, fx, d) && Permits(k, s, id, fx)
            && Punctual(c, s.clock) && c.entryNow <= s.clock && (fx.Took? ==> k.plan.Some?)
  {
    var c := s.calls[id];
    assert CallInv(k, c, s.clock);
    assert Holding(k, c) && Accounted(c) && Admitted(k, c) && DelayFits(k, c) && Punctual(c, s.clock);
    hide CallInv, CallsInv, Holding, Accounted, Admitted, DelayFits, Can, Step, EffectOf, Permits, GateInv, GateAfter,
      SlotFollows, SearchFollows, AccountFollows, TicketFollows;
    StepInv(k, c, a, s.clock);
    StepFollows(k, c, a, s.clock);
    GateStep(k, c, a, s.gate, s.clock);
    CallsStep(k, s.calls, id, Step(k, c, a, s.clock), s.clock);
  }

  lemma PassInv(k: Config, s: State, now: int)
    requires Inv(k, s) && s.clock <= now
    ensures Inv(k, Next(k, s, Pass(now)))
  {
    hide CallInv, Accounts.Inv, Accounts.Faithful, Probing.Inv, AccountsTied, SlotsInv, SearchInv, TokensTied,
      BucketOps.Sound, TicketsTied;
    forall id | id in s.calls ensures CallInv(k, s.calls[id], now) {
      LaterInv(k, s.calls[id], s.clock, now);
    }
    Accounts.FaithfulLater(s.accounts, Ledger.Sec(s.clock), Ledger.Sec(now));
    if k.breaker.Some? {
      Probing.NextInv(k.breaker.value, s.breaker, Probing.Advance(now));
    }
  }

  lemma RefillerInv(k: Config, s: State, op: BucketOps.Op)
    requires Inv(k, s) && Enabled(k, s, Refiller(op))
    ensures Inv(k, Next(k, s, Refiller(op)))
  {
    hide CallsInv, BreakerInv, SlotsInv, BucketInv, SearchInv, AccountsInv, GateInv, BucketOps.Do;
    RefillerStep(k, s.bucket, s.calls, s.clock, op);
  }

  /** A call that holds nothing joins without disturbing the ties. */
  predicate HoldsNothing(c: Call) {
    !Live(c) && !c.slot && c.tokens == 0 && c.account.Settled? && c.emptyAt.None? && !c.turnedAway
  }

  lemma NewHoldsNothing(req: Request, now: int)
    ensures HoldsNothing(NewCall(req, now))
  {
  }

  lemma JoinTickets(live: map<nat, Breaker.Ticket>, calls: Calls, id: nat, c: Call)
    requires TicketsTied(live, calls) && id !in calls && HoldsNothing(c)
    ensures TicketsTied(live, calls[id := c])
  {
  }

  lemma JoinSlots(k: Config, inUse: int, holders: set<nat>, calls: Calls, id: nat, c: Call)
    requires SlotsInv(k, inUse, holders, calls) && id !in calls && HoldsNothing(c)
    ensures SlotsInv(k, inUse, holders, calls[id := c])
  {
  }

  lemma JoinBucket(k: Config, b: BucketOps.State, calls: Calls, now: int, id: nat, c: Call)
    requires BucketInv(k, b, calls, now) && SearchInv(k, b, calls) && id !in calls && HoldsNothing(c)
    ensures BucketInv(k, b, calls[id := c], now) && SearchInv(k, b, calls[id := c])
  {
    hide BucketOps.Sound, BucketOps.WasEmpty, RateBound.Ordered, TakenBy;
  }

  lemma JoinAccounts(trying: map<nat, Accounts.Site>, lost: map<nat, Accounts.Site>, calls: Calls, id: nat, c: Call)
    requires AccountsTied(trying, lost, calls) && id !in calls && HoldsNothing(c)
    ensures AccountsTied(trying, lost, calls[id := c])
  {
    hide SiteOf;
  }

  lemma BeginInv(k: Config, s: State, id: nat, req: Request)
    requires k.Valid() && Inv(k, s) && id !in s.calls
    ensures Inv(k, Next(k, s, Begin(id, req)))
  {
    var c := NewCall(req, s.clock);
    NewHoldsNothing(req, s.clock);
    hide NewCall, CallInv, HoldsNothing, SlotsInv, BucketInv, SearchInv, TicketsTied, AccountsTied, Probing.Inv,
      Accounts.Inv, Accounts.Faithful;
    NewCallInv(k, req, s.clock);
    CallsStep(k, s.calls, id, c, s.clock);
    if k.breaker.Some? {
      JoinTickets(s.breaker.live, s.calls, id, c);
    }
    JoinSlots(k, s.inUse, s.holders, s.calls, id, c);
    JoinBucket(k, s.bucket, s.calls, s.clock, id, c);
    JoinAccounts(s.accounts.trying, s.accounts.lost, s.calls, id, c);
  }

  lemma NextInv(k: Config, s: State, e: Event)
    requires k.Valid() && Inv(k, s) && Enabled(k, s, e)
    ensures Inv(k, Next(k, s, e))
  {
    hide Inv, Next;
    match e
    case Pass(now) => PassInv(k, s, now);
    case Refiller(op) => RefillerInv(k, s, op);
    case Begin(id, req) => BeginInv(k, s, id, req);
    case Do(id, a) => DoInv(k, s, id, a);
  }

  lemma InitInv(k: Config, t0: int)
    requires k.Valid() && SECOND <= t0
    ensures Inv(k, Init(k, t0))
  {
    if k.breaker.Some? {
      Probing.InitInv(k.breaker.value, t0);
    }
    if k.plan.Some? {
      BucketOps.FilledIsSound(k.plan.value);
    }
    Accounts.EmptyInv();
    hide Probing.Inv, BucketOps.Sound, Accounts.Inv, Accounts.Faithful;
  }

  // -------------------------------------------------------------------------
  // Runs

  ghost predicate CanRun(k: Config, s: State, es: seq<Event>)
    decreases |es|
  {
    es == [] || (Enabled(k, s, es[0]) && CanRun(k, Next(k, s, es[0]), es[1..]))
  }

  ghost function After(k: Config, s: State, es: seq<Event>): State
    requires CanRun(k, s, es)
    decreases |es|
  {
    if es == [] then s else After(k, Next(k, s, es[0]), es[1..])
  }

  /** Some run from the start leads there. The clock starts at a positive second. */
  ghost predicate Reachable(k: Config, s: State) {
    exists t0: int, es: seq<Event> ::
      SECOND <= t0 && CanRun(k, Init(k, t0), es) && After(k, Init(k, t0), es) == s
  }

  lemma {:induction false} RunInv(k: Config, s: State, es: seq<Event>)
    requires k.Valid() && Inv(k, s) && CanRun(k, s, es)
    ensures Inv(k, After(k, s, es))
    decreases |es|
  {
    hide Inv, Next, Enabled;
    if es != [] {
      NextInv(k, s, es[0]);
      RunInv(k, Next(k, s, es[0]), es[1..]);
    }
  }

  lemma ReachableInv(k: Config, s: State)
    requires k.Valid() && Reachable(k, s)
    ensures Inv(k, s)
  {
    var t0: int, es: seq<Event> :|
      SECOND <= t0 && CanRun(k, Init(k, t0), es) && After(k, Init(k, t0), es) == s;
    hide Inv, Init;
    InitInv(k, t0);
    RunInv(k, Init(k, t0), es);
  }
}
