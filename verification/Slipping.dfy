/** Which configurations let a send slip through: one that precedes a deadline
    which the gate already holds. */
module Slipping {
  import opened Arith
  import opened Sets
  import BucketOps
  import opened DoCalls
  import opened CallInvs
  import opened Circuit
  import opened Sending
  import opened Steering
  import Barrages
  import Pausing
  import Exempting

  /** The gate holds `g`, which is still to come, and yet a send of the call can
      precede it. */
  ghost predicate Slips(k: Config, s: State, id: nat, n: nat, g: int) {
    && Reachable(k, s) && Exempting.OnPace(k, s) && s.clock < g <= s.gate
    && id in s.calls && |s.calls[id].sends| <= n && Exempting.CanPrecede(k, s, id, n, g)
  }

  ghost predicate LetsSlip(k: Config) { exists s, id, n, g :: Slips(k, s, id, n, g) }

  // -------------------------------------------------------------------------
  // With two slots it happens

  /** One call holds its token while another one holds the next. */
  lemma TwoHold(k: Config) returns (s: State, p: Pose, a: nat, b: nat)
    requires k.Valid() && k.maxRetries >= 0 && k.maxConcurrent != 1
    ensures Posed(k, s, p) && p.ready == {a, b} && a != b && p.busy == {} && s.clock == SECOND && s.gate == 0
  {
    var start := Starts(k, SECOND);
    assert k.plan.Some? ==> k.plan.value.Valid();
    hide Posed;
    var one, two, q := start, start, StartPose(k, SECOND);
    one, a := Hold(k, start, q);
    two, q := Barrages.WaitsForToken(k, one, q.(ready := q.ready + {a}, tokens := q.tokens - 1));
    s, b := Hold(k, two, q);
    p := q.(ready := q.ready + {b}, tokens := q.tokens - 1);
  }

  /** One of them is told to wait, and arms the gate. */
  lemma OneArms(k: Config) returns (s: State, p: Pose, b: nat)
    requires k.Valid() && k.maxRetries >= 0 && k.maxConcurrent != 1 && k.retryAfterMax > 0
    ensures Posed(k, s, p) && b in p.ready && s.clock < s.gate
  {
    hide Posed, SameSends, Adds;
    var held, q, a;
    held, q, a, b := TwoHold(k);
    var shot := Shoot(k, held, q, a);
    p := q.(ready := q.ready - {a}, busy := q.busy + {a});
    var asked := Asks(k, shot, p, a, 1);
    s := Arms(k, asked, p, a);
  }

  lemma HolderSlips(k: Config, s: State, p: Pose, b: nat)
    requires Posed(k, s, p) && b in p.ready && s.clock < s.gate && k.retryAfterMax > 0
    ensures Slips(k, s, b, |s.calls[b].sends|, s.gate)
  {
    assert b in s.calls && s.calls[b].pc.Ready? && Exempting.OnPace(k, s);
    hide Posed, Reachable, Exempting.OnPace, Exempting.CanPrecede;
    Exempting.ExemptIff(k, s, b, |s.calls[b].sends|, s.gate);
  }

  // -------------------------------------------------------------------------
  // With one it does not

  /** The look at the gate, if any, is up to date. */
  predicate Current(c: Call, gate: int, now: int) {
    (c.pc.GateRead? ==> c.pc.seen == gate) && (Passed(c.pc) ==> gate <= now)
  }

  ghost predicate UpToDate(calls: Calls, gate: int, now: int) {
    forall id | id in calls :: Current(calls[id], gate, now)
  }

  /** The semaphore has one slot. */
  lemma OnlyHolder(k: Config, s: State, id: nat, i: nat)
    requires Inv(k, s) && k.maxConcurrent == 1 && id in s.calls && i in s.calls
    requires s.calls[id].slot && s.calls[i].slot
    ensures id == i
  {
    assert SlotsInv(k, s.inUse, s.holders, s.calls);
    hide Inv;
    OnlyMember(s.holders, id, i);
  }

  lemma WhoHolds(k: Config, c: Call, t: int)
    requires CallInv(k, c, t) && k.maxConcurrent == 1
    ensures c.pc.Noted? || BeforeSend(c.pc) ==> c.slot
  {
    assert Holding(k, c);
    hide CallInv;
  }

  /** Who arms the gate is alone past it. */
  lemma AlonePastTheGate(k: Config, s: State, id: nat, i: nat)
    requires Inv(k, s) && k.maxConcurrent == 1 && id in s.calls && i in s.calls && s.calls[id].pc.Noted?
    ensures !BeforeSend(s.calls[i].pc)
  {
    assert CallInv(k, s.calls[id], s.clock) && CallInv(k, s.calls[i], s.clock);
    hide Inv, CallInv;
    WhoHolds(k, s.calls[id], s.clock);
    WhoHolds(k, s.calls[i], s.clock);
    if BeforeSend(s.calls[i].pc) {
      OnlyHolder(k, s, id, i);
    }
  }

  lemma StaysCurrent(k: Config, c: Call, a: Act, gate: int, t: int)
    requires Can(k, c, a, t) && k.retryAfterMax > 0 && (a.ReadGate? ==> a.v == gate) && Current(c, gate, t)
    ensures !a.Arm? ==> Current(Step(k, c, a, t), gate, t)
    ensures a.Arm? ==> c.pc.Noted? && !Step(k, c, a, t).pc.GateRead? && !Passed(Step(k, c, a, t).pc)
  {
    EveryStepMoves(k, c, a, t);
    hide Can, Step, Payload;
  }

  lemma OnlyArmMoves(k: Config, s: State, id: nat, a: Act)
    requires Enabled(k, s, Do(id, a))
    ensures id in s.calls && Can(k, s.calls[id], a, s.clock)
    ensures Next(k, s, Do(id, a)).calls == s.calls[id := Step(k, s.calls[id], a, s.clock)]
    ensures a.Arm? || Next(k, s, Do(id, a)).gate == s.gate
  {
    OnlyArmRaises(k, s.calls[id], a, s.clock);
    hide Can, EffectOf, Step, BreakerAfter, AccountsAfter, BucketAfter, Permits;
  }

  lemma DoUpToDate(k: Config, s: State, id: nat, a: Act)
    requires Inv(k, s) && k.maxConcurrent == 1 && k.retryAfterMax > 0 && Enabled(k, s, Do(id, a))
    requires UpToDate(s.calls, s.gate, s.clock)
    ensures UpToDate(Next(k, s, Do(id, a)).calls, Next(k, s, Do(id, a)).gate, s.clock)
  {
    OnlyArmMoves(k, s, id, a);
    Pausing.ReadsTheGate(k, s, id, a);
    hide Inv, Enabled, Next, Can, Step;
    StaysCurrent(k, s.calls[id], a, s.gate, s.clock);
    if a.Arm? {
      forall i | i in s.calls ensures !s.calls[i].pc.GateRead? && !Passed(s.calls[i].pc) {
        AlonePastTheGate(k, s, id, i);
      }
    }
  }

  lemma NextUpToDate(k: Config, s: State, e: Event)
    requires Inv(k, s) && k.maxConcurrent == 1 && k.retryAfterMax > 0 && Enabled(k, s, e)
    requires UpToDate(s.calls, s.gate, s.clock)
    ensures UpToDate(Next(k, s, e).calls, Next(k, s, e).gate, Next(k, s, e).clock)
  {
    match e
    case Pass(_) => hide Inv;
    case Refiller(op) => hide Inv, BucketOps.Do;
    case Begin(_, _) => hide Inv;
    case Do(id, a) =>
      hide Inv, Enabled, UpToDate;
      DoUpToDate(k, s, id, a);
      assert Next(k, s, Do(id, a)).clock == s.clock;
  }

  lemma {:induction false} RunUpToDate(k: Config, s: State, es: seq<Event>)
    requires k.Valid() && Inv(k, s) && k.maxConcurrent == 1 && k.retryAfterMax > 0 && CanRun(k, s, es)
    requires UpToDate(s.calls, s.gate, s.clock)
    ensures UpToDate(After(k, s, es).calls, After(k, s, es).gate, After(k, s, es).clock)
    decreases |es|
  {
    hide Inv, Next, Enabled, UpToDate;
    if es != [] {
      NextInv(k, s, es[0]);
      NextUpToDate(k, s, es[0]);
      RunUpToDate(k, Next(k, s, es[0]), es[1..]);
    }
  }

  lemma AlwaysUpToDate(k: Config, s: State)
    requires k.Valid() && Reachable(k, s) && k.maxConcurrent == 1 && k.retryAfterMax > 0
    ensures UpToDate(s.calls, s.gate, s.clock)
  {
    var t0: int, es: seq<Event> :|
      SECOND <= t0 && CanRun(k, Init(k, t0), es) && After(k, Init(k, t0), es) == s;
    hide Inv, CanRun, After;
    InitInv(k, t0);
    RunUpToDate(k, Init(k, t0), es);
  }

  /** Without attempts nobody gets past the gate. */
  lemma NobodyIsEarly(k: Config, s: State, id: nat, g: int)
    requires k.Valid() && Reachable(k, s) && id in s.calls && Pausing.Early(s.calls[id], g)
    ensures k.maxRetries >= 0
  {
    ReachableInv(k, s);
    assert CallInv(k, s.calls[id], s.clock) && Counted(k, s.calls[id]);
    hide Inv, Reachable, CallInv;
  }

  lemma CannotSlip(k: Config, s: State, id: nat, n: nat, g: int)
    requires k.Valid() && k.retryAfterMax > 0 && Slips(k, s, id, n, g)
    ensures k.maxRetries >= 0 && k.maxConcurrent != 1
  {
    hide Reachable, Exempting.OnPace, Exempting.CanPrecede;
    Exempting.ExemptIff(k, s, id, n, g);
    NobodyIsEarly(k, s, id, g);
    if k.maxConcurrent == 1 {
      AlwaysUpToDate(k, s);
    }
  }

  /** With a gate, a send can precede a deadline that the gate already holds in
      exactly the breakers that send at all and let two calls in at a time. */
  lemma LetsSlipIff(k: Config)
    requires k.Valid() && k.retryAfterMax > 0
    ensures LetsSlip(k) <==> k.maxRetries >= 0 && k.maxConcurrent != 1
  {
    if LetsSlip(k) {
      var s, id, n, g :| Slips(k, s, id, n, g);
      hide Slips;
      CannotSlip(k, s, id, n, g);
    } else if k.maxRetries >= 0 && k.maxConcurrent != 1 {
      hide Slips, Posed;
      var s, p, b := OneArms(k);
      HolderSlips(k, s, p, b);
    }
  }
}
