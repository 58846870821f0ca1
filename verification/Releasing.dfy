/** After `Stop` nobody is left waiting: whatever the other calls do, the steps
    that a waiting call has still to take are bounded. */
module Releasing {
  import opened Errors
  import opened Sets
  import BucketOps
  import opened DoCalls
  import opened CallInvs
  import opened Circuit
  import opened Sending
  import Draining

  /** `Stop` has returned and the bucket is empty. */
  predicate Drained(k: Config, s: State) { k.plan.Some? && s.bucket.closed && s.bucket.done && s.bucket.tokens == 0 }

  /** Waiting for the gate or for a token, or just turned away. */
  predicate Waits(pc: Pc) {
    pc.LoopHead? || pc.GateRead? || pc.Asleep? || pc.TokenFast? || pc.TokenSlow? || pc == WaitFailed(Stop)
  }

  /** Out of the loop with `ErrStopped`. */
  predicate Turned(c: Call) { Over(c.pc) && ResultOf(c.pc) == Failed(Sentinel(Stopped)) }

  /** A step that is not the context's doing. */
  predicate Uncancelled(a: Act) {
    && !a.AbandonSlot? && !a.AbandonBackoff?
    && (a.GateGivesUp? || a.TokenGivesUp? ==> a.why.Stop?)
  }

  // -------------------------------------------------------------------------
  // What a waiting call has ahead of it

  /** The call has its token, and its response may arm the gate. */
  predicate MayArm(pc: Pc) { pc.HasToken? || pc.Ready? || pc.Flight? || pc.Answered? || pc.Noted? }

  function Arming(calls: Calls): set<nat> { set id | id in calls && MayArm(calls[id].pc) }

  /** The gate stands higher than the call knows. */
  predicate Surprised(pc: Pc, gate: int, now: int) {
    match pc
    case LoopHead => now < gate
    case GateRead(seen) => now < seen < gate
    case Asleep(seen) => seen < gate
    case _ => false
  }

  function StepsLeft(pc: Pc, now: int): nat {
    match pc
    case GateRead(seen) => if seen <= now then 5 else 9
    case Asleep(_) => 8
    case LoopHead => 6
    case TokenFast => 4
    case TokenSlow => 3
    case _ => 1
  }

  /** Each time the gate moves costs the call another round. */
  function Effort(pc: Pc, gate: int, now: int): nat {
    StepsLeft(pc, now) + if Surprised(pc, gate, now) then 10 else 0
  }

  function Rank(s: State, id: nat): nat
    requires id in s.calls
  {
    10 * |Arming(s.calls)| + Effort(s.calls[id].pc, s.gate, s.clock)
  }

  lemma TimeHelps(pc: Pc, gate: int, now: int, later: int)
    requires now <= later
    ensures Effort(pc, gate, later) <= Effort(pc, gate, now)
  {
  }

  lemma GateCostsARound(pc: Pc, gate: int, higher: int, now: int)
    ensures Effort(pc, higher, now) <= Effort(pc, gate, now) + 10
  {
  }

  /** A step of the waiting call itself. */
  predicate Helps(c: Call, d: Call, gate: int, t: int) {
    && (Turned(d) || (Waits(d.pc) && Effort(d.pc, gate, t) < Effort(c.pc, gate, t)))
    && !MayArm(c.pc) && !MayArm(d.pc)
  }

  lemma GateStepHelps(k: Config, c: Call, a: Act, gate: int, t: int)
    requires Can(k, c, a, t) && AtGate(a) && Uncancelled(a) && (a.ReadGate? ==> a.v == gate)
    ensures Helps(c, Step(k, c, a, t), gate, t)
  {
  }

  lemma TokenStepHelps(k: Config, c: Call, a: Act, gate: int, t: int)
    requires Can(k, c, a, t) && AtBucket(a) && Uncancelled(a) && k.plan.Some? && !a.GrabToken?
    ensures Helps(c, Step(k, c, a, t), gate, t)
  {
  }

  lemma LastStepHelps(k: Config, c: Call, gate: int, t: int)
    requires Can(k, c, NoteWaitFailure, t) && c.pc == WaitFailed(Stop)
    ensures Helps(c, Step(k, c, NoteWaitFailure, t), gate, t)
  {
  }

  lemma WaiterSteps(k: Config, c: Call, a: Act, t: int)
    requires Can(k, c, a, t) && Waits(c.pc)
    ensures AtGate(a) || AtBucket(a) || (a.NoteWaitFailure? && c.pc == WaitFailed(Stop))
  {
  }

  lemma OwnStepHelps(k: Config, c: Call, a: Act, gate: int, t: int)
    requires Can(k, c, a, t) && Uncancelled(a) && Waits(c.pc) && k.plan.Some? && !a.GrabToken?
    requires a.ReadGate? ==> a.v == gate
    ensures Helps(c, Step(k, c, a, t), gate, t) && !a.Arm?
  {
    WaiterSteps(k, c, a, t);
    hide Can, Step, Helps, Uncancelled;
    if AtGate(a) {
      GateStepHelps(k, c, a, gate, t);
    } else if AtBucket(a) {
      TokenStepHelps(k, c, a, gate, t);
    } else {
      LastStepHelps(k, c, gate, t);
    }
  }

  lemma TurnedForGood(k: Config, c: Call, a: Act, t: int)
    requires Can(k, c, a, t) && Turned(c)
    ensures Turned(Step(k, c, a, t))
  {
    hide Verdict;
  }

  /** Nobody joins those who may arm the gate, and who does so leaves them. */
  lemma ArmsOnce(k: Config, c: Call, a: Act, t: int)
    requires Can(k, c, a, t) && k.plan.Some? && !a.GrabToken?
    ensures MayArm(Step(k, c, a, t).pc) ==> MayArm(c.pc)
    ensures a.Arm? ==> MayArm(c.pc) && !MayArm(Step(k, c, a, t).pc)
  {
    EveryStepMoves(k, c, a, t);
    SkipsWithoutBucket(k, c, a, t);
    hide Can, Step, Payload;
  }

  lemma SkipsWithoutBucket(k: Config, c: Call, a: Act, t: int)
    requires Can(k, c, a, t) && k.plan.Some?
    ensures !a.SkipToken?
  {
  }

  lemma ArmingShrinks(calls: Calls, id: nat, d: Call, armed: bool)
    requires id in calls && (MayArm(d.pc) ==> MayArm(calls[id].pc))
    requires armed ==> MayArm(calls[id].pc) && !MayArm(d.pc)
    ensures |Arming(calls[id := d])| + (if armed then 1 else 0) <= |Arming(calls)|
  {
    if armed {
      assert Arming(calls[id := d]) <= Arming(calls) - {id} && id in Arming(calls);
      SubsetIsSmaller(Arming(calls[id := d]), Arming(calls) - {id});
    } else {
      SubsetIsSmaller(Arming(calls[id := d]), Arming(calls));
    }
  }

  // -------------------------------------------------------------------------
  // One event of a run

  /** What one step of any call does to the parts that matter here. */
  lemma StepWhenDrained(k: Config, s: State, i: nat, a: Act)
    requires Drained(k, s) && Enabled(k, s, Do(i, a))
    ensures i in s.calls && Can(k, s.calls[i], a, s.clock) && !a.GrabToken? && (a.ReadGate? ==> a.v == s.gate)
    ensures var d := Next(k, s, Do(i, a));
            && Drained(k, d) && d.clock == s.clock && d.calls == s.calls[i := Step(k, s.calls[i], a, s.clock)]
            && (a.Arm? || d.gate == s.gate)
  {
    OnlyArmRaises(k, s.calls[i], a, s.clock);
    TakesOnlyByGrab(k, s.calls[i], a, s.clock);
    hide Step, BreakerAfter, AccountsAfter, Can;
  }

  lemma TakesOnlyByGrab(k: Config, c: Call, a: Act, t: int)
    requires Can(k, c, a, t)
    ensures EffectOf(k, c, a, t).Took? <==> a.GrabToken?
    ensures a.ReadGate? ==> EffectOf(k, c, a, t) == Loaded(a.v)
  {
  }

  /** Still waiting, with no more ahead than that; or turned away. */
  predicate Within(s: State, id: nat, most: int) {
    id in s.calls && (Turned(s.calls[id]) || (Waits(s.calls[id].pc) && Rank(s, id) <= most))
  }

  lemma OwnStep(k: Config, s: State, id: nat, a: Act, most: int)
    requires Drained(k, s) && Within(s, id, most) && Enabled(k, s, Do(id, a)) && Uncancelled(a)
    ensures Drained(k, Next(k, s, Do(id, a))) && Within(Next(k, s, Do(id, a)), id, most - 1)
  {
    StepWhenDrained(k, s, id, a);
    var c, d := s.calls[id], Step(k, s.calls[id], a, s.clock);
    hide Next, Enabled, Can, Step, Drained, Turned, Waits, Effort, MayArm, Arming, Uncancelled;
    if Turned(c) {
      TurnedForGood(k, c, a, s.clock);
    } else {
      assert k.plan.Some? by {
        PlanOfDrained(k, s);
      }
      OwnStepHelps(k, c, a, s.gate, s.clock);
      ArmingShrinks(s.calls, id, d, false);
    }
  }

  lemma PlanOfDrained(k: Config, s: State)
    requires Drained(k, s)
    ensures k.plan.Some?
  {
  }

  lemma StepOfOther(k: Config, s: State, id: nat, i: nat, a: Act, most: int)
    requires Drained(k, s) && Within(s, id, most) && Enabled(k, s, Do(i, a)) && i != id
    ensures Drained(k, Next(k, s, Do(i, a))) && Within(Next(k, s, Do(i, a)), id, most)
  {
    StepWhenDrained(k, s, i, a);
    PlanOfDrained(k, s);
    var d, after := Step(k, s.calls[i], a, s.clock), Next(k, s, Do(i, a));
    hide Next, Enabled, Can, Step, Drained, Turned, Waits, Effort, Arming, MayArm;
    ArmsOnce(k, s.calls[i], a, s.clock);
    ArmingShrinks(s.calls, i, d, a.Arm?);
    GateCostsARound(s.calls[id].pc, s.gate, after.gate, s.clock);
  }

  lemma BeginArmsNothing(calls: Calls, i: nat, req: Request, now: int)
    requires i !in calls
    ensures Arming(calls[i := NewCall(req, now)]) == Arming(calls)
  {
  }

  lemma OtherEvent(k: Config, s: State, e: Event, id: nat, most: int)
    requires Drained(k, s) && BucketOps.Sound(k.plan.value, s.bucket) && Within(s, id, most)
    requires Enabled(k, s, e) && !(e.Do? && e.id == id)
    ensures Drained(k, Next(k, s, e)) && Within(Next(k, s, e), id, most)
  {
    match e
    case Pass(now) =>
      TimeHelps(s.calls[id].pc, s.gate, s.clock, now);
      hide Turned, Waits, Effort, Arming;
    case Refiller(op) =>
      Draining.RefillerIsGone(k, s, op);
      assert op.Shut?;
      hide Turned, Waits, Effort, Arming;
    case Begin(i, req) =>
      BeginArmsNothing(s.calls, i, req, s.clock);
      hide Turned, Waits, Effort, Arming, NewCall;
    case Do(i, a) =>
      hide Drained, Within, Enabled, Next, BucketOps.Sound;
      StepOfOther(k, s, id, i, a, most);
  }

  // -------------------------------------------------------------------------
  // Whole runs

  /** The steps of one call in a run. */
  function OwnSteps(es: seq<Event>, id: nat): nat {
    if es == [] then 0 else OwnSteps(es[1..], id) + if es[0].Do? && es[0].id == id then 1 else 0
  }

  /** The call is not cancelled. */
  predicate Patient(es: seq<Event>, id: nat) {
    forall e | e in es && e.Do? && e.id == id :: Uncancelled(e.act)
  }

  lemma RunUnfolds(k: Config, s: State, es: seq<Event>, id: nat)
    requires es != [] && CanRun(k, s, es) && Patient(es, id)
    ensures Enabled(k, s, es[0]) && CanRun(k, Next(k, s, es[0]), es[1..]) && Patient(es[1..], id)
    ensures After(k, s, es) == After(k, Next(k, s, es[0]), es[1..])
    ensures es[0].Do? && es[0].id == id ==> Uncancelled(es[0].act)
    ensures OwnSteps(es, id) == OwnSteps(es[1..], id) + if es[0].Do? && es[0].id == id then 1 else 0
  {
    hide Enabled, Next, Uncancelled;
    assert es[0] in es;
  }

  lemma RunEnds(k: Config, s: State, id: nat)
    ensures CanRun(k, s, []) && After(k, s, []) == s && OwnSteps([], id) == 0
  {
  }

  lemma SoundWhenDrained(k: Config, s: State)
    requires Inv(k, s) && Drained(k, s)
    ensures k.plan.Some? && BucketOps.Sound(k.plan.value, s.bucket)
  {
  }

  lemma {:induction false} RunWithin(k: Config, s: State, es: seq<Event>, id: nat, most: int)
    requires k.Valid() && Inv(k, s) && Drained(k, s) && Within(s, id, most) && CanRun(k, s, es) && Patient(es, id)
    ensures Drained(k, After(k, s, es)) && Within(After(k, s, es), id, most - OwnSteps(es, id))
    decreases |es|
  {
    hide *;
    if es == [] {
      RunEnds(k, s, id);
    } else {
      var e := es[0];
      RunUnfolds(k, s, es, id);
      SoundWhenDrained(k, s);
      NextInv(k, s, e);
      if e.Do? && e.id == id {
        OwnStep(k, s, id, e.act, most);
        RunWithin(k, Next(k, s, e), es[1..], id, most - 1);
      } else {
        OtherEvent(k, s, e, id, most);
        RunWithin(k, Next(k, s, e), es[1..], id, most);
      }
    }
  }

  /** A waiting call can always take a step, without the clock and without others. */
  lemma CanMove(k: Config, s: State, id: nat) returns (a: Act)
    requires Drained(k, s) && id in s.calls && Waits(s.calls[id].pc)
    ensures Uncancelled(a) && Enabled(k, s, Do(id, a))
  {
    var pc := s.calls[id].pc;
    a :=
      if pc.LoopHead? then (if k.retryAfterMax > 0 then ReadGate(s.gate) else PassGate)
      else if pc.GateRead? then (if pc.seen <= s.clock then PassGate else Doze)
      else if pc.Asleep? then GateGivesUp(Stop)
      else if pc.TokenFast? then FindEmpty(|s.bucket.log|)
      else if pc.TokenSlow? then TokenGivesUp(Stop)
      else NoteWaitFailure;
  }

  lemma WithinIsFinal(s: State, id: nat, most: int)
    requires Within(s, id, most)
    ensures id in s.calls && (Turned(s.calls[id]) || (Waits(s.calls[id].pc) && 0 < most))
  {
    hide Arming, Turned, Waits;
  }

  lemma RankIsSmall(s: State, id: nat)
    requires id in s.calls && Waits(s.calls[id].pc)
    ensures Within(s, id, 10 * |Arming(s.calls)| + 19)
  {
    hide Arming, Turned, Waits;
  }

  /** Whoever is not turned away yet can go on. */
  ghost predicate Resolved(k: Config, s: State, id: nat) {
    && id in s.calls
    && (Turned(s.calls[id])
        || (Waits(s.calls[id].pc) && exists a :: Uncancelled(a) && Enabled(k, s, Do(id, a))))
  }

  lemma IsResolved(k: Config, s: State, id: nat, most: int)
    requires Drained(k, s) && Within(s, id, most)
    ensures Resolved(k, s, id) && (most <= 0 ==> Turned(s.calls[id]))
  {
    hide Within, Drained, Turned, Waits, Enabled, Uncancelled;
    WithinIsFinal(s, id, most);
    if Waits(s.calls[id].pc) {
      var a := CanMove(k, s, id);
    }
  }

  /** When `Stop` has returned and the bucket is empty: in every run in which it is
      not cancelled, a call that waits for the gate or for a token is turned away
      with `ErrStopped` after at most so many steps of its own, whatever the others
      do in between; until then one of them is always possible. */
  lemma StopReleasesEverybody(k: Config, s: State, es: seq<Event>, id: nat)
    requires k.Valid() && Reachable(k, s) && Drained(k, s) && id in s.calls && Waits(s.calls[id].pc)
    requires CanRun(k, s, es) && Patient(es, id)
    ensures Resolved(k, After(k, s, es), id)
    ensures OwnSteps(es, id) >= 10 * |Arming(s.calls)| + 19 ==> Turned(After(k, s, es).calls[id])
  {
    hide *;
    ReachableInv(k, s);
    var most := 10 * |Arming(s.calls)| + 19;
    RankIsSmall(s, id);
    RunWithin(k, s, es, id, most);
    IsResolved(k, After(k, s, es), id, most - OwnSteps(es, id));
  }
}
