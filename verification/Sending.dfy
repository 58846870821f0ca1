/** How the steps of a call get past the gate and reach the transport. */
module Sending {
  import opened Errors
  import Backoff
  import Gate
  import opened DoCalls
  import opened CallInvs

  /** Past the gate, in the attempt under way. */
  predicate Passed(pc: Pc) { pc.TokenFast? || pc.TokenSlow? || pc.HasToken? || pc.Ready? }

  /** How a step from `c` to `d` can send, get past the gate, and arm it. */
  predicate Moves(k: Config, c: Call, a: Act, d: Call, t: int) {
    && (if a.Launch? then c.pc.Ready? && d.pc.Flight? && d.sends == c.sends + [Send(t, Payload(c))]
        else d.sends == c.sends)
    && (d.pc.GateRead? ==> a.ReadGate? && d.pc.seen == a.v)
    && (d.pc.LoopHead? ==> a.TakeSlot? || a.Wake? || a.Reread?)
    && (d.pc.Asleep? ==> c.pc.GateRead? && d.pc.seen == c.pc.seen)
    && (Passed(d.pc) ==>
          || Passed(c.pc) || (c.pc.GateRead? && c.pc.seen <= t)
          || (c.pc.LoopHead? && k.retryAfterMax <= 0))
    && (d.pc.HasToken? ==> a.GrabToken? || a.SkipToken?)
    && (d.pc.Ready? ==> c.pc.HasToken?) && (d.pc.Flight? ==> a.Launch?)
    && (d.pc.Answered? ==> c.pc.Flight?) && (d.pc.Noted? ==> c.pc.Answered?) && (a.Arm? ==> c.pc.Noted?)
  }

  lemma ArrivalMoves(k: Config, c: Call, a: Act, t: int)
    requires Can(k, c, a, t) && Arrives(a)
    ensures Moves(k, c, a, Step(k, c, a, t), t)
  {
  }

  lemma AtGateMoves(k: Config, c: Call, a: Act, t: int)
    requires Can(k, c, a, t) && AtGate(a)
    ensures Moves(k, c, a, Step(k, c, a, t), t)
  {
  }

  lemma AtBucketMoves(k: Config, c: Call, a: Act, t: int)
    requires Can(k, c, a, t) && AtBucket(a)
    ensures Moves(k, c, a, Step(k, c, a, t), t)
  {
  }

  lemma RecordMoves(k: Config, c: Call, a: Act, t: int)
    requires Can(k, c, a, t) && Records(a)
    ensures Moves(k, c, a, Step(k, c, a, t), t)
  {
    hide Gate.Armed, Payload;
  }

  lemma TransportMoves(k: Config, c: Call, a: Act, t: int)
    requires Can(k, c, a, t) && AtTransport(a)
    ensures Moves(k, c, a, Step(k, c, a, t), t)
  {
    hide Payload;
  }

  lemma DecisionMoves(k: Config, c: Call, a: Act, t: int)
    requires Can(k, c, a, t) && Decides(a)
    ensures Moves(k, c, a, Step(k, c, a, t), t)
  {
    hide Backoff.Possible, Payload, AfterArm, AfterJudge;
    match a
    case Arm(at) => ArmMoves(k, c, a, at + c.pc.delay, t);
    case Judge(retryable) => JudgeMoves(k, c, a, retryable, t);
    case NoteRetry(_) =>
    case Wake =>
    case AbandonBackoff(_) =>
  }

  lemma ArmMoves(k: Config, c: Call, a: Act, until: int, t: int)
    requires c.pc.Noted? && !a.Launch?
    ensures Moves(k, c, a, AfterArm(k, c, until), t)
  {
    hide Payload;
  }

  lemma JudgeMoves(k: Config, c: Call, a: Act, retryable: bool, t: int)
    requires c.pc.Judging? && !a.Launch? && !a.Arm?
    ensures Moves(k, c, a, AfterJudge(k, c, retryable), t)
  {
    hide Payload;
  }

  lemma LeavingMoves(k: Config, c: Call, a: Act, t: int)
    requires Can(k, c, a, t) && Leaves(a)
    ensures Moves(k, c, a, Step(k, c, a, t), t)
  {
    hide Verdict, Payload;
  }

  lemma EveryStepMoves(k: Config, c: Call, a: Act, t: int)
    requires Can(k, c, a, t)
    ensures Moves(k, c, a, Step(k, c, a, t), t)
  {
    hide Can, Step, Moves;
    if Arrives(a) {
      ArrivalMoves(k, c, a, t);
    } else if AtGate(a) {
      AtGateMoves(k, c, a, t);
    } else if AtBucket(a) {
      AtBucketMoves(k, c, a, t);
    } else if Records(a) {
      RecordMoves(k, c, a, t);
    } else if AtTransport(a) {
      TransportMoves(k, c, a, t);
    } else if Decides(a) {
      DecisionMoves(k, c, a, t);
    } else {
      LeavingMoves(k, c, a, t);
    }
  }

  /** What a step from `c` to `d` leaves alone, and what it cannot come from. */
  predicate Keeps(c: Call, a: Act, d: Call, t: int) {
    && d.req == c.req && d.entryNow == c.entryNow
    && (a.Judge? || a.Arm? || d.ends == c.ends) && (a.NoteRetry? || d.waits == c.waits)
    && d.start == (if a.TakeSlot? || a.Wake? then t else c.start)
    && (a.NoteError? <==> c.pc.Errored?) && (d.pc.Errored? <==> a.Break?)
    && d.lastErr == (if a.NoteError? then Some(c.pc.err) else c.lastErr)
    && (Over(c.pc) ==> Over(d.pc) && ResultOf(d.pc) == ResultOf(c.pc))
    && (c.pc.Noted? ==> a.Arm?) && (a.Judge? ==> c.pc.Judging?) && (a.NoteResponse? <==> c.pc.Answered?)
    && (c.pc.RetryPending? <==> a.NoteRetry?)
    && (d.pc.Backing? ==> a.NoteRetry?) && (d.pc.RetryPending? ==> a.Judge? || a.Arm?)
    && (d.refused ==> c.refused || d.pc.Done?)
  }

  lemma ArrivalKeeps(k: Config, c: Call, a: Act, t: int)
    requires Can(k, c, a, t) && Arrives(a)
    ensures Keeps(c, a, Step(k, c, a, t), t)
  {
    hide Payload;
  }

  lemma AtGateKeeps(k: Config, c: Call, a: Act, t: int)
    requires Can(k, c, a, t) && AtGate(a)
    ensures Keeps(c, a, Step(k, c, a, t), t)
  {
  }

  lemma AtBucketKeeps(k: Config, c: Call, a: Act, t: int)
    requires Can(k, c, a, t) && AtBucket(a)
    ensures Keeps(c, a, Step(k, c, a, t), t)
  {
  }

  lemma RecordKeeps(k: Config, c: Call, a: Act, t: int)
    requires Can(k, c, a, t) && Records(a)
    ensures Keeps(c, a, Step(k, c, a, t), t)
  {
    hide Gate.Armed;
  }

  lemma TransportKeeps(k: Config, c: Call, a: Act, t: int)
    requires Can(k, c, a, t) && AtTransport(a)
    ensures Keeps(c, a, Step(k, c, a, t), t)
  {
    hide Payload;
  }

  lemma ArmKeeps(k: Config, c: Call, a: Act, until: int, t: int)
    requires c.pc.Noted? && a.Arm?
    ensures Keeps(c, a, AfterArm(k, c, until), t)
  {
  }

  lemma JudgeKeeps(k: Config, c: Call, a: Act, t: int)
    requires c.pc.Judging? && a.Judge?
    ensures Keeps(c, a, AfterJudge(k, c, a.retryable), t)
  {
  }

  lemma DecisionKeeps(k: Config, c: Call, a: Act, t: int)
    requires Can(k, c, a, t) && Decides(a)
    ensures Keeps(c, a, Step(k, c, a, t), t)
  {
    hide Backoff.Possible, AfterArm, AfterJudge;
    match a
    case Arm(at) => ArmKeeps(k, c, a, at + c.pc.delay, t);
    case Judge(retryable) => JudgeKeeps(k, c, a, t);
    case NoteRetry(_) =>
    case Wake =>
    case AbandonBackoff(_) =>
  }

  lemma LeavingKeeps(k: Config, c: Call, a: Act, t: int)
    requires Can(k, c, a, t) && Leaves(a)
    ensures Keeps(c, a, Step(k, c, a, t), t)
  {
    hide Verdict;
  }

  lemma EveryStepKeeps(k: Config, c: Call, a: Act, t: int)
    requires Can(k, c, a, t)
    ensures Keeps(c, a, Step(k, c, a, t), t)
  {
    hide Can, Step, Keeps;
    if Arrives(a) {
      ArrivalKeeps(k, c, a, t);
    } else if AtGate(a) {
      AtGateKeeps(k, c, a, t);
    } else if AtBucket(a) {
      AtBucketKeeps(k, c, a, t);
    } else if Records(a) {
      RecordKeeps(k, c, a, t);
    } else if AtTransport(a) {
      TransportKeeps(k, c, a, t);
    } else if Decides(a) {
      DecisionKeeps(k, c, a, t);
    } else {
      LeavingKeeps(k, c, a, t);
    }
  }
}
