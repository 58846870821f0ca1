/** What the Retry-After gate does for the calls of the running system. */
module Pausing {
  import opened Arith
  import opened Errors
  import BucketOps
  import Gate
  import opened DoCalls
  import opened CallInvs
  import opened Circuit
  import opened Runs
  import opened Sending

  /** The gate never goes down and is never further ahead than the maximum. */
  lemma GateAccounting(k: Config, s: State, e: Event)
    requires k.Valid() && Reachable(k, s) && Enabled(k, s, e)
    ensures s.gate <= Next(k, s, e).gate
    ensures 0 <= s.gate <= s.clock + if k.retryAfterMax > 0 then k.retryAfterMax else 0
    ensures s.gate <= MAX_INT64
  {
    ReachableInv(k, s);
    assert GateInv(k, s.gate, s.clock);
    hide Inv, Reachable;
    GateRises(k, s, e);
  }

  lemma GateRises(k: Config, s: State, e: Event)
    requires Enabled(k, s, e)
    ensures s.gate <= Next(k, s, e).gate
  {
    hide Can, Step, EffectOf, Permits, BreakerAfter, AccountsAfter, BucketAfter;
  }

  // -------------------------------------------------------------------------
  // Which deadlines the gate can hold

  /** What is known of a call that is about to arm the gate. */
  lemma AboutToArm(k: Config, s: State, id: nat)
    requires k.Valid() && Reachable(k, s) && id in s.calls && s.calls[id].pc.Noted?
    ensures 0 <= s.calls[id].pc.delay <= k.retryAfterMax && k.maxRetries >= 0
    ensures SECOND <= s.calls[id].start <= s.clock
    ensures IsWord(s.gate) && 0 <= s.gate
  {
    ReachableInv(k, s);
    var c := s.calls[id];
    assert CallInv(k, c, s.clock) && GateInv(k, s.gate, s.clock);
    assert DelayFits(k, c) && Punctual(c, s.clock) && Counted(k, c);
    hide Inv, Reachable, CallInv;
  }

  lemma ArmsWith(k: Config, s: State, id: nat, at: int)
    requires Enabled(k, s, Do(id, Arm(at)))
    ensures s.calls[id].pc.Noted? && s.calls[id].start <= at <= s.clock
    ensures Next(k, s, Do(id, Arm(at))).gate == Gate.Max(s.gate, Wrap(at + s.calls[id].pc.delay))
  {
    OnlyArmRaises(k, s.calls[id], Arm(at), s.clock);
    hide EffectOf, Permits, Step, BreakerAfter, AccountsAfter, BucketAfter, Wrap;
  }

  /** A response that asks for a pause has armed the gate exactly when its
      deadline fits the 64 bits that the gate has. */
  lemma DeadlineHeldIff(k: Config, s: State, id: nat, at: int)
    requires k.Valid() && Reachable(k, s) && Enabled(k, s, Do(id, Arm(at)))
    ensures var until := at + s.calls[id].pc.delay;
            until <= Next(k, s, Do(id, Arm(at))).gate <==> until <= MAX_INT64
  {
    ArmsWith(k, s, id, at);
    hide Reachable, Enabled, Next, Wrap, Gate.Max;
    AboutToArm(k, s, id);
    Gate.CoversIff(s.gate, at + s.calls[id].pc.delay);
  }

  /** Until the time `horizon`, every pause asked for arms the gate. */
  ghost predicate HoldsAllUntil(k: Config, horizon: int) {
    forall s, id, at | Reachable(k, s) && s.clock <= horizon && Enabled(k, s, Do(id, Arm(at))) ::
      at + s.calls[id].pc.delay <= Next(k, s, Do(id, Arm(at))).gate
  }

  /** What to choose as the maximum: every pause asked for until the horizon arms
      the gate exactly when horizon and maximum together fit 64 bits, unless
      nothing is ever sent. */
  lemma HoldsAllIff(k: Config, horizon: int)
    requires k.Valid() && k.retryAfterMax > 0
    ensures HoldsAllUntil(k, horizon)
            <==> horizon + k.retryAfterMax <= MAX_INT64 || k.maxRetries < 0 || horizon < SECOND
  {
    if horizon + k.retryAfterMax <= MAX_INT64 || k.maxRetries < 0 || horizon < SECOND {
      forall s, id, at | Reachable(k, s) && s.clock <= horizon && Enabled(k, s, Do(id, Arm(at)))
        ensures at + s.calls[id].pc.delay <= Next(k, s, Do(id, Arm(at))).gate
      {
        FitsUntil(k, s, id, at, horizon);
        hide Reachable, Enabled, Next;
      }
    } else {
      var s := AsksForTheMost(k, horizon);
      DeadlineHeldIff(k, s, 0, horizon);
      hide Reachable, Next, Enabled;
    }
  }

  lemma FitsUntil(k: Config, s: State, id: nat, at: int, horizon: int)
    requires k.Valid() && Reachable(k, s) && s.clock <= horizon && Enabled(k, s, Do(id, Arm(at)))
    requires horizon + k.retryAfterMax <= MAX_INT64 || k.maxRetries < 0 || horizon < SECOND
    ensures at + s.calls[id].pc.delay <= Next(k, s, Do(id, Arm(at))).gate
  {
    ArmsWith(k, s, id, at);
    DeadlineHeldIff(k, s, id, at);
    hide Reachable, Enabled, Next;
    AboutToArm(k, s, id);
  }

  /** Some call is asked to wait for as long as the configuration lets it. */
  lemma AsksForTheMost(k: Config, t: int) returns (s: State)
    requires k.Valid() && k.retryAfterMax > 0 && k.maxRetries >= 0 && SECOND <= t
    ensures Reachable(k, s) && s.clock == t && Enabled(k, s, Do(0, Arm(t)))
    ensures s.calls[0].pc == Noted(Gate.TOO_MANY_REQUESTS, k.retryAfterMax)
  {
    var first := SentOnce(k, t, Request(true, "", "", None, false));
    hide Reachable, Next, Step, Enabled;
    var second := AsksForEver(k, first);
    s := TakesNote(k, second);
    MayArm(k, s);
  }

  const FOR_EVER := Gate.Whole(MAX_INT64)

  lemma AsksForEver(k: Config, s: State) returns (d: State)
    requires Reachable(k, s) && 0 in s.calls && s.calls[0].pc.Flight?
    ensures Reachable(k, d) && d.clock == s.clock && 0 in d.calls
    ensures d.calls[0] == s.calls[0].(pc := Answered(Gate.TOO_MANY_REQUESTS, FOR_EVER))
  {
    hide Reachable, Next;
    d := Go(k, s, 0, Respond(Gate.TOO_MANY_REQUESTS, FOR_EVER));
  }

  lemma TakesNote(k: Config, s: State) returns (d: State)
    requires Reachable(k, s) && 0 in s.calls && 0 < k.retryAfterMax <= MAX_INT64
    requires s.calls[0].pc == Answered(Gate.TOO_MANY_REQUESTS, FOR_EVER)
    ensures Reachable(k, d) && d.clock == s.clock && 0 in d.calls
    ensures d.calls[0] == s.calls[0].(pc := Noted(Gate.TOO_MANY_REQUESTS, k.retryAfterMax), account := Settled)
  {
    assert Gate.Armed(FOR_EVER, k.retryAfterMax) == Some(k.retryAfterMax) by {
      Gate.ArmedDelay(FOR_EVER, k.retryAfterMax);
    }
    hide Reachable, Next, Gate.Armed;
    d := Go(k, s, 0, NoteResponse);
  }

  lemma MayArm(k: Config, s: State)
    requires 0 in s.calls && s.calls[0].pc.Noted? && s.calls[0].start <= s.clock
    ensures Enabled(k, s, Do(0, Arm(s.clock)))
  {
    hide Wrap;
  }

  // -------------------------------------------------------------------------
  // Who may still send before a deadline

  /** The attempt under way has passed the gate when it stood below `g`. */
  predicate Early(c: Call, g: int) {
    Passed(c.pc) || (c.pc.GateRead? && c.pc.seen < g)
  }

  /** How many sends of a call the gate at `g` comes too late for. */
  function Exempt(c: Call, g: int): nat { |c.sends| + if Early(c, g) then 1 else 0 }

  /** What a call may have done by `t`, all but the first `n` sends bound by `g`. */
  ghost predicate Behind(c: Call, n: nat, g: int, t: int) {
    && (forall i | n <= i < |c.sends| :: g <= c.sends[i].at)
    && (n <= |c.sends| ==>
          && (c.pc.GateRead? ==> g <= c.pc.seen)
          && (Passed(c.pc) ==> g <= t))
  }

  lemma StaysBehind(k: Config, c: Call, a: Act, n: nat, g: int, t: int)
    requires k.retryAfterMax > 0 && Behind(c, n, g, t) && Can(k, c, a, t) && (a.ReadGate? ==> g <= a.v)
    ensures Behind(Step(k, c, a, t), n, g, t)
  {
    EveryStepMoves(k, c, a, t);
    hide Can, Step;
  }

  /** Calls that exist at `s` are exempt as told, later ones not at all. */
  function Allowance(s: State, id: nat, g: int): nat { if id in s.calls then Exempt(s.calls[id], g) else 0 }

  ghost predicate AllBehind(start: State, s: State, g: int) {
    && g <= s.gate
    && forall id | id in s.calls :: Behind(s.calls[id], Allowance(start, id, g), g, s.clock)
  }

  lemma NextBehind(k: Config, start: State, s: State, e: Event, g: int)
    requires k.retryAfterMax > 0 && start.calls.Keys <= s.calls.Keys && AllBehind(start, s, g) && Enabled(k, s, e)
    ensures start.calls.Keys <= Next(k, s, e).calls.Keys && AllBehind(start, Next(k, s, e), g)
  {
    GateRises(k, s, e);
    match e
    case Pass(_) =>
    case Refiller(_) => hide BucketOps.Do;
    case Begin(_, _) => hide Allowance;
    case Do(id, a) =>
      hide Can, EffectOf, Step, BreakerAfter, AccountsAfter, BucketAfter, GateAfter, Behind, Allowance;
      ReadsTheGate(k, s, id, a);
      StaysBehind(k, s.calls[id], a, Allowance(start, id, g), g, s.clock);
  }

  lemma ReadsTheGate(k: Config, s: State, id: nat, a: Act)
    requires Enabled(k, s, Do(id, a))
    ensures a.ReadGate? ==> a.v == s.gate
  {
  }

  lemma {:induction false} RunBehind(k: Config, start: State, s: State, es: seq<Event>, g: int)
    requires k.retryAfterMax > 0 && start.calls.Keys <= s.calls.Keys && AllBehind(start, s, g) && CanRun(k, s, es)
    ensures AllBehind(start, After(k, s, es), g)
    decreases |es|
  {
    hide AllBehind, Next, Enabled;
    if es != [] {
      NextBehind(k, start, s, es[0], g);
      RunBehind(k, start, Next(k, s, es[0]), es[1..], g);
    }
  }

  /** Once the gate stands at `g` or later, no call reaches the transport before
      `g`, in any continuation: neither a call that begins later nor a retry. The
      one exception is an attempt that had already passed the gate. */
  lemma GateIsHonoured(k: Config, s: State, es: seq<Event>, id: nat, i: nat, g: int)
    requires k.retryAfterMax > 0 && g <= s.gate && CanRun(k, s, es)
    requires var c := After(k, s, es).calls; id in c && Allowance(s, id, g) <= i < |c[id].sends|
    ensures g <= After(k, s, es).calls[id].sends[i].at
  {
    assert AllBehind(s, s, g) by {
      hide CanRun, After;
    }
    RunBehind(k, s, s, es, g);
    hide CanRun, After, Allowance;
  }
}
