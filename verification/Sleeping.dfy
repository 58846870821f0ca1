/** How long a call waits for the gate: the maximum bounds the wait from the last
    time the gate was armed, not from the time the wait began. */
module Sleeping {
  import opened Arith
  import opened Sets
  import BucketOps
  import opened DoCalls
  import opened CallInvs
  import opened Circuit
  import opened Sending
  import opened Steering
  import Pausing
  import Slipping

  // -------------------------------------------------------------------------
  // From the last arming on

  /** No call has seen the gate higher than it stands. */
  predicate Modest(c: Call, gate: int) { c.pc.GateRead? || c.pc.Asleep? ==> c.pc.seen <= gate }

  ghost predicate AllModest(calls: Calls, gate: int) { forall id | id in calls :: Modest(calls[id], gate) }

  lemma StaysModest(k: Config, c: Call, a: Act, gate: int, t: int)
    requires Can(k, c, a, t) && Modest(c, gate) && (a.ReadGate? ==> a.v <= gate)
    ensures Modest(Step(k, c, a, t), gate)
  {
    EveryStepMoves(k, c, a, t);
    hide Can, Step, Payload;
  }

  lemma CallsAfter(k: Config, s: State, id: nat, a: Act)
    requires Enabled(k, s, Do(id, a))
    ensures id in s.calls && Can(k, s.calls[id], a, s.clock)
    ensures Next(k, s, Do(id, a)).calls == s.calls[id := Step(k, s.calls[id], a, s.clock)]
  {
    hide Can, EffectOf, Step, BreakerAfter, AccountsAfter, BucketAfter, GateAfter, Permits;
  }

  lemma NextModest(k: Config, s: State, e: Event)
    requires AllModest(s.calls, s.gate) && Enabled(k, s, e)
    ensures AllModest(Next(k, s, e).calls, Next(k, s, e).gate)
  {
    Pausing.GateRises(k, s, e);
    match e
    case Pass(_) =>
    case Refiller(_) => hide BucketOps.Do;
    case Begin(_, _) =>
    case Do(id, a) =>
      CallsAfter(k, s, id, a);
      Pausing.ReadsTheGate(k, s, id, a);
      hide Enabled, Next, Can, Step;
      StaysModest(k, s.calls[id], a, s.gate, s.clock);
  }

  lemma {:induction false} RunModest(k: Config, s: State, es: seq<Event>)
    requires AllModest(s.calls, s.gate) && CanRun(k, s, es)
    ensures AllModest(After(k, s, es).calls, After(k, s, es).gate)
    decreases |es|
  {
    hide AllModest, Enabled, Next;
    if es != [] {
      NextModest(k, s, es[0]);
      RunModest(k, Next(k, s, es[0]), es[1..]);
    }
  }

  lemma AlwaysModest(k: Config, s: State)
    requires Reachable(k, s)
    ensures AllModest(s.calls, s.gate)
  {
    var t0: int, es: seq<Event> :|
      SECOND <= t0 && CanRun(k, Init(k, t0), es) && After(k, Init(k, t0), es) == s;
    hide CanRun, After;
    RunModest(k, Init(k, t0), es);
  }

  /** Nobody arms the gate. */
  predicate Unarmed(es: seq<Event>) { forall e | e in es :: !(e.Do? && e.act.Arm?) }

  lemma GateStays(k: Config, s: State, e: Event)
    requires Enabled(k, s, e) && !(e.Do? && e.act.Arm?)
    ensures Next(k, s, e).gate == s.gate
  {
    if e.Do? {
      OnlyArmRaises(k, s.calls[e.id], e.act, s.clock);
    }
    hide Can, EffectOf, Step, BreakerAfter, AccountsAfter, BucketAfter, BucketOps.Do, Permits;
  }

  lemma {:induction false} UnarmedRun(k: Config, s: State, es: seq<Event>)
    requires CanRun(k, s, es) && Unarmed(es)
    ensures After(k, s, es).gate == s.gate
    decreases |es|
  {
    hide Enabled, Next;
    if es != [] {
      assert es[0] in es;
      GateStays(k, s, es[0]);
      UnarmedRun(k, Next(k, s, es[0]), es[1..]);
    }
  }

  /** The gate lets the call pass: it cannot fall asleep, and can wake up if it is. */
  ghost predicate LetsPass(k: Config, s: State, id: nat)
    requires id in s.calls
  {
    && s.gate <= s.clock
    && !Enabled(k, s, Do(id, Doze))
    && (s.calls[id].pc.Asleep? ==> Enabled(k, s, Do(id, Reread)))
    && (s.calls[id].pc.GateRead? ==> Enabled(k, s, Do(id, PassGate)))
  }

  lemma ModestPasses(k: Config, s: State, id: nat)
    requires id in s.calls && Modest(s.calls[id], s.gate) && s.gate <= s.clock
    ensures LetsPass(k, s, id)
  {
  }

  /** From one maximum after the last arming on the gate holds nobody back. */
  lemma GateWaitEnds(k: Config, s: State, es: seq<Event>, id: nat)
    requires k.Valid() && Reachable(k, s) && k.retryAfterMax > 0 && CanRun(k, s, es) && Unarmed(es)
    requires id in After(k, s, es).calls && s.clock + k.retryAfterMax <= After(k, s, es).clock
    ensures LetsPass(k, After(k, s, es), id)
  {
    var d := After(k, s, es);
    ReachableInv(k, s);
    assert GateInv(k, s.gate, s.clock);
    hide Inv, Reachable, CanRun, After, Unarmed, LetsPass, Modest;
    AlwaysModest(k, s);
    RunModest(k, s, es);
    UnarmedRun(k, s, es);
    ModestPasses(k, d, id);
  }

  // -------------------------------------------------------------------------
  // The responses of others keep a sleeper asleep

  /** The call has been waiting since `since` and will sleep until `until`. */
  ghost predicate SleepsFrom(k: Config, s: State, id: nat, since: int, until: int) {
    Reachable(k, s) && id in s.calls && s.calls[id].pc == Asleep(until) && s.calls[id].start == since
  }

  /** Whoever is on its way apart from the waiting call has given its slot back. */
  ghost predicate OthersReport(calls: Calls, p: Pose, id: nat) {
    p.ready == {} && id in p.busy && forall i | i in p.busy && i in calls && i != id :: calls[i].pc.Reporting?
  }

  /** So there is a slot for one more. */
  lemma RoomForOne(k: Config, s: State, p: Pose, id: nat, x: nat)
    requires Inv(k, s) && CallsAt(s.calls, p.ready, p.busy) && k.maxConcurrent != 1 && x in s.calls
    requires s.calls[x].pc.AwaitSlot? && OthersReport(s.calls, p.(busy := p.busy - {x}), id)
    ensures k.maxConcurrent > 0 ==> s.inUse < k.maxConcurrent
  {
    if k.maxConcurrent > 0 {
      assert SlotsInv(k, s.inUse, s.holders, s.calls);
      forall i | i in s.holders ensures i == id {
        assert CallInv(k, s.calls[i], s.clock) && Holding(k, s.calls[i]);
      }
      hide Inv, CallInv;
      SubsetIsSmaller(s.holders, {id});
    }
  }

  lemma RoomIfPosed(k: Config, s: State, p: Pose, id: nat, x: nat)
    requires Posed(k, s, p) && k.maxConcurrent != 1 && x in s.calls
    requires s.calls[x].pc.AwaitSlot? && OthersReport(s.calls, p.(busy := p.busy - {x}), id)
    ensures k.maxConcurrent > 0 ==> s.inUse < k.maxConcurrent
  {
    assert k.Valid() && Reachable(k, s) && CallsAt(s.calls, p.ready, p.busy);
    hide *;
    ReachableInv(k, s);
    RoomForOne(k, s, p, id, x);
  }

  /** Another call gets past the gate first, sends and arms it. */
  lemma AnotherArms(k: Config, s: State, p: Pose, id: nat, delay: int) returns (d: State, q: Pose)
    requires Posed(k, s, p) && OthersReport(s.calls, p, id) && k.maxConcurrent != 1 && k.plan.None? && p.left == 0
    requires k.retryAfterMax > 0 && 1 <= delay <= k.retryAfterMax
    requires s.gate <= s.clock && s.clock + delay <= MAX_INT64
    ensures Posed(k, d, q) && OthersReport(d.calls, q, id) && q.left == 0
    ensures d.clock == s.clock && d.gate == s.clock + delay
    ensures id in s.calls && id in d.calls && d.calls[id] == s.calls[id]
  {
    BusyIsKnown(k, s, p, id);
    hide Posed, SameSends;
    var entered, x := IsAdmitted(k, s, p, ONE_WAY);
    q := p.(busy := p.busy + {x});
    RoomIfPosed(k, entered, q, id, x);
    var there := TakesFreeSlot(k, entered, q, x);
    d := ArmsAndFrees(k, there, q, x, delay);
    q := q.(tokens := q.tokens - 1);
  }

  /** And the waiting call finds the gate closed again. */
  lemma SleepsOn(k: Config, s: State, p: Pose, id: nat, delay: int) returns (d: State, q: Pose)
    requires Posed(k, s, p) && OthersReport(s.calls, p, id) && k.maxConcurrent != 1 && k.plan.None? && p.left == 0
    requires k.retryAfterMax > 0 && 1 <= delay <= k.retryAfterMax
    requires s.gate <= s.clock && s.clock + delay <= MAX_INT64 && id in s.calls && s.calls[id].pc.LoopHead?
    ensures Posed(k, d, q) && OthersReport(d.calls, q, id) && q.left == 0
    ensures d.clock == s.clock && d.gate == s.clock + delay
    ensures id in d.calls && d.calls[id] == s.calls[id].(pc := Asleep(d.gate))
  {
    hide Posed, SameSends;
    var armed;
    armed, q := AnotherArms(k, s, p, id, delay);
    d := Dozes(k, armed, q, id);
  }

  /** When it wakes up it is where it was before. */
  lemma {:induction false} Relay(k: Config, s: State, p: Pose, id: nat, n: nat) returns (d: State, q: Pose)
    requires Posed(k, s, p) && OthersReport(s.calls, p, id) && k.maxConcurrent != 1 && k.plan.None? && p.left == 0
    requires k.retryAfterMax > 0 && s.gate <= s.clock && s.clock + n * k.retryAfterMax <= MAX_INT64
    requires id in s.calls && s.calls[id].pc.LoopHead?
    ensures Posed(k, d, q) && OthersReport(d.calls, q, id) && q.left == 0
    ensures d.gate <= d.clock == s.clock + n * k.retryAfterMax && id in d.calls && d.calls[id] == s.calls[id]
    decreases n
  {
    hide Posed, SameSends;
    d, q := s, p;
    if n > 0 {
      var most := k.retryAfterMax;
      Monotone(most, 1, n);
      assert (n - 1) * most == n * most - most;
      var asleep, up;
      asleep, q := SleepsOn(k, s, p, id, most);
      var later := Waits(k, asleep, q, asleep.gate);
      up := Rises(k, later, q, id);
      d, q := Relay(k, up, q, id, n - 1);
    }
  }

  /** Two slots are enough: without a rate limit, too, a call can wait for the gate
      `n` times the maximum and more, for every `n`. */
  lemma LongWait(k: Config, n: nat, delay: int) returns (s: State, id: nat)
    requires k.Valid() && k.plan.None? && k.retryAfterMax > 0 && k.maxRetries >= 0 && k.maxConcurrent != 1
    requires 1 <= delay <= k.retryAfterMax && SECOND + n * k.retryAfterMax + delay <= MAX_INT64
    ensures SleepsFrom(k, s, id, SECOND, SECOND + n * k.retryAfterMax + delay)
  {
    Monotone(k.retryAfterMax, 0, n);
    hide Posed, SameSends, Reachable;
    var start, there, again, q;
    start := Starts(k, SECOND);
    there, id := Arrive(k, start, StartPose(k, SECOND), PLAIN);
    again, q := Relay(k, there, StartPose(k, SECOND).(busy := {id}), id, n);
    s, q := SleepsOn(k, again, q, id, delay);
    PosedIsReachable(k, s, q);
  }

  // -------------------------------------------------------------------------
  // With one slot the wait is bounded

  predicate Facing(pc: Pc) { pc.LoopHead? || pc.GateRead? || pc.Asleep? }

  /** The gate opens at most one maximum after the call came to it. */
  predicate Soon(c: Call, gate: int, most: int) { Facing(c.pc) ==> gate <= c.start + most }

  ghost predicate AllSoon(calls: Calls, gate: int, most: int) { forall id | id in calls :: Soon(calls[id], gate, most) }

  /** The steps that lead to the gate or stay there. */
  lemma FacingSteps(k: Config, c: Call, a: Act, t: int)
    requires Can(k, c, a, t) && (a.TakeSlot? || a.Wake? || a.ReadGate? || a.Reread? || c.pc.GateRead?)
    ensures var d := Step(k, c, a, t); d.start == t || (Facing(c.pc) && d.start == c.start)
  {
  }

  lemma StaysSoon(k: Config, c: Call, a: Act, gate: int, most: int, t: int)
    requires Can(k, c, a, t) && Soon(c, gate, most) && gate <= t + most
    ensures Soon(Step(k, c, a, t), gate, most)
    ensures a.Arm? ==> c.pc.Noted? && !Facing(Step(k, c, a, t).pc)
  {
    EveryStepMoves(k, c, a, t);
    hide Can, Step, Payload;
    if Facing(Step(k, c, a, t).pc) {
      FacingSteps(k, c, a, t);
    }
  }

  lemma ArmSurprisesNobody(k: Config, s: State, id: nat, i: nat)
    requires Inv(k, s) && k.maxConcurrent == 1 && id in s.calls && i in s.calls && s.calls[id].pc.Noted?
    ensures !Facing(s.calls[i].pc)
  {
    hide Inv;
    Slipping.AlonePastTheGate(k, s, id, i);
  }

  lemma DoSoon(k: Config, s: State, id: nat, a: Act)
    requires Inv(k, s) && k.maxConcurrent == 1 && k.retryAfterMax > 0 && Enabled(k, s, Do(id, a))
    requires AllSoon(s.calls, s.gate, k.retryAfterMax)
    ensures AllSoon(Next(k, s, Do(id, a)).calls, Next(k, s, Do(id, a)).gate, k.retryAfterMax)
  {
    CallsAfter(k, s, id, a);
    assert GateInv(k, s.gate, s.clock);
    if !a.Arm? {
      GateStays(k, s, Do(id, a));
    }
    hide Inv, Enabled, Next, Can, Step, Facing;
    StaysSoon(k, s.calls[id], a, s.gate, k.retryAfterMax, s.clock);
    if a.Arm? {
      forall i | i in s.calls ensures !Facing(s.calls[i].pc) {
        ArmSurprisesNobody(k, s, id, i);
      }
    }
  }

  lemma NextSoon(k: Config, s: State, e: Event)
    requires Inv(k, s) && k.maxConcurrent == 1 && k.retryAfterMax > 0 && Enabled(k, s, e)
    requires AllSoon(s.calls, s.gate, k.retryAfterMax)
    ensures AllSoon(Next(k, s, e).calls, Next(k, s, e).gate, k.retryAfterMax)
  {
    match e
    case Pass(_) => hide Inv;
    case Refiller(_) => hide Inv, BucketOps.Do;
    case Begin(_, _) => hide Inv;
    case Do(id, a) =>
      hide Inv, Enabled, Next, AllSoon;
      DoSoon(k, s, id, a);
  }

  lemma {:induction false} RunSoon(k: Config, s: State, es: seq<Event>)
    requires k.Valid() && Inv(k, s) && k.maxConcurrent == 1 && k.retryAfterMax > 0 && CanRun(k, s, es)
    requires AllSoon(s.calls, s.gate, k.retryAfterMax)
    ensures AllSoon(After(k, s, es).calls, After(k, s, es).gate, k.retryAfterMax)
    decreases |es|
  {
    hide Inv, Next, Enabled, AllSoon;
    if es != [] {
      NextInv(k, s, es[0]);
      NextSoon(k, s, es[0]);
      RunSoon(k, Next(k, s, es[0]), es[1..]);
    }
  }

  lemma AlwaysSoon(k: Config, s: State)
    requires k.Valid() && Reachable(k, s) && k.maxConcurrent == 1 && k.retryAfterMax > 0
    ensures AllSoon(s.calls, s.gate, k.retryAfterMax)
  {
    var t0: int, es: seq<Event> :|
      SECOND <= t0 && CanRun(k, Init(k, t0), es) && After(k, Init(k, t0), es) == s;
    hide Inv, CanRun, After;
    InitInv(k, t0);
    RunSoon(k, Init(k, t0), es);
  }

  lemma SleepersAre(k: Config, s: State, id: nat)
    requires k.Valid() && Reachable(k, s) && id in s.calls && s.calls[id].pc.Asleep?
    ensures k.maxRetries >= 0 && SECOND <= s.calls[id].start && s.calls[id].pc.seen <= s.gate <= MAX_INT64
  {
    AlwaysModest(k, s);
    ReachableInv(k, s);
    assert CallInv(k, s.calls[id], s.clock) && GateInv(k, s.gate, s.clock);
    assert Counted(k, s.calls[id]) && Punctual(s.calls[id], s.clock);
    hide Inv, Reachable, CallInv;
  }

  /** No call sleeps longer than one maximum after it came to the gate. */
  ghost predicate WaitIsBounded(k: Config) {
    forall s, id, since, until | SleepsFrom(k, s, id, since, until) :: until <= since + k.retryAfterMax
  }

  /** What the documentation promises without a rate limit holds of exactly the
      breakers with one slot, of those that never send, and of those whose maximum
      leaves no room in 64 bits for a later deadline. */
  lemma WaitIsBoundedIff(k: Config)
    requires k.Valid() && k.plan.None? && k.retryAfterMax > 0
    ensures WaitIsBounded(k)
            <==> k.maxConcurrent == 1 || k.maxRetries < 0 || SECOND + k.retryAfterMax >= MAX_INT64
  {
    if k.maxConcurrent == 1 || k.maxRetries < 0 || SECOND + k.retryAfterMax >= MAX_INT64 {
      forall s, id, since, until | SleepsFrom(k, s, id, since, until)
        ensures until <= since + k.retryAfterMax
      {
        SleepersAre(k, s, id);
        if k.maxConcurrent == 1 {
          AlwaysSoon(k, s);
        }
        hide Reachable;
      }
    } else {
      var s, id := LongWait(k, 1, 1);
      hide Reachable;
    }
  }
}
