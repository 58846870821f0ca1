/** How the fields of a call follow the effects of its steps: the only facts
    about single steps that the shared parts need. */
module Effects {
  import Backoff
  import opened Errors
  import Gate
  import opened DoCalls
  import opened CallInvs

  /** The call has been admitted and has not reported yet. */
  predicate Live(c: Call) { c.ticket.Some? && !c.pc.Done? }

  // In what follows `d` is the call `c` after a step with effect `fx`.

  predicate SameRequest(c: Call, d: Call) { d.req == c.req && d.entryNow == c.entryNow }

  predicate SlotFollows(c: Call, fx: Effect, d: Call) {
    && d.slot == (if fx.Acquired? then true else if fx.Released? then false else c.slot)
    && (fx.Acquired? ==> !c.slot) && (fx.Released? ==> c.slot)
  }

  predicate TokensFollow(k: Config, c: Call, fx: Effect, d: Call) {
    && d.tokens == c.tokens + (if fx.Took? then 1 else 0)
    && (fx.Took? || fx.FoundEmpty? || fx.SawStop? ==> k.plan.Some?)
  }

  /** What a call remembers of the bucket it found empty, and of the stop. */
  predicate SearchFollows(c: Call, fx: Effect, d: Call) {
    && (fx.FoundEmpty? ==> d.emptyAt == Some(fx.mark))
    && (!fx.FoundEmpty? ==> d.emptyAt == c.emptyAt || d.emptyAt.None?)
    && (d.turnedAway ==> c.turnedAway || fx.SawStop?)
  }

  /** What an effect does to the account of the call. */
  function AccountAfter(acc: Account, fx: Effect): Account {
    if !fx.Booked? then acc
    else match fx.kind
      case Tried => Open
      case Won => Settled
      case Lost => if acc.Open? then Settled else Short
      case GaveUp => Settled
      case Retried => acc
  }

  /** Which effects an account admits. */
  predicate AccountAdmits(acc: Account, fx: Effect) {
    fx.Booked? ==>
      match fx.kind
      case Tried => acc.Settled?
      case Won => acc.Open?
      case Lost => acc.Open? || acc.Settled?
      case GaveUp => acc.Short?
      case Retried => acc.Settled?
  }

  predicate AccountFollows(c: Call, fx: Effect, d: Call) {
    d.account == AccountAfter(c.account, fx) && AccountAdmits(c.account, fx)
  }

  predicate TicketFollows(k: Config, c: Call, fx: Effect, d: Call) {
    && (fx.Knocked? ==> k.breaker.Some? && !Live(c)
                        && d.ticket == (if fx.adm.Granted? then Some(fx.adm.ticket) else None)
                        && (fx.adm.Granted? ==> Live(d)))
    && (fx.Filed? ==>
          k.breaker.Some? && Live(c) && !Live(d) && d.ticket == c.ticket && d.reported == Some(fx.outcome))
    && (k.breaker.Some? && !fx.Knocked? && !fx.Filed? ==> Live(d) == Live(c) && d.ticket == c.ticket)
  }

  /** All of it: what the shared parts can tell of a step. */
  predicate Follows(k: Config, c: Call, fx: Effect, d: Call) {
    && SameRequest(c, d) && SlotFollows(c, fx, d) && TokensFollow(k, c, fx, d) && SearchFollows(c, fx, d)
    && AccountFollows(c, fx, d) && TicketFollows(k, c, fx, d)
  }

  lemma ArrivalFollows(k: Config, c: Call, a: Act, t: int)
    requires Holding(k, c) && Admitted(k, c) && Can(k, c, a, t) && Arrives(a)
    ensures Follows(k, c, EffectOf(k, c, a, t), Step(k, c, a, t))
  {
  }

  lemma AtGateFollows(k: Config, c: Call, a: Act, t: int)
    requires Can(k, c, a, t) && AtGate(a)
    ensures Follows(k, c, EffectOf(k, c, a, t), Step(k, c, a, t))
  {
  }

  lemma AtBucketFollows(k: Config, c: Call, a: Act, t: int)
    requires Can(k, c, a, t) && AtBucket(a)
    ensures Follows(k, c, EffectOf(k, c, a, t), Step(k, c, a, t))
  {
  }

  lemma WaitRecordFollows(k: Config, c: Call, a: Act, t: int)
    requires Accounted(c) && Can(k, c, a, t) && (a.NoteWaitFailure? || a.NoteCancel? || a.NoteAttempt?)
    ensures Follows(k, c, EffectOf(k, c, a, t), Step(k, c, a, t))
  {
  }

  lemma OutcomeRecordFollows(k: Config, c: Call, a: Act, t: int)
    requires Accounted(c) && Can(k, c, a, t) && (a.NoteRewindFailure? || a.NoteResponse? || a.NoteError?)
    ensures Follows(k, c, EffectOf(k, c, a, t), Step(k, c, a, t))
  {
    hide Gate.Armed;
  }

  lemma RecordFollows(k: Config, c: Call, a: Act, t: int)
    requires Accounted(c) && Can(k, c, a, t) && Records(a)
    ensures Follows(k, c, EffectOf(k, c, a, t), Step(k, c, a, t))
  {
    hide Accounted, Can, EffectOf, Step, Follows;
    if a.NoteWaitFailure? || a.NoteCancel? || a.NoteAttempt? {
      WaitRecordFollows(k, c, a, t);
    } else {
      OutcomeRecordFollows(k, c, a, t);
    }
  }

  lemma TransportFollows(k: Config, c: Call, a: Act, t: int)
    requires Can(k, c, a, t) && AtTransport(a)
    ensures Follows(k, c, EffectOf(k, c, a, t), Step(k, c, a, t))
  {
  }

  /** Nothing that the shared parts could tell has changed. */
  predicate SameOutside(c: Call, d: Call) {
    && SameRequest(c, d) && d.slot == c.slot && d.tokens == c.tokens && d.account == c.account
    && d.ticket == c.ticket && !c.pc.Done? && !d.pc.Done?
    && d.emptyAt == c.emptyAt && d.turnedAway == c.turnedAway
  }

  lemma ArmsInside(k: Config, c: Call, until: int)
    requires c.pc.Noted?
    ensures SameOutside(c, AfterArm(k, c, until))
  {
  }

  lemma JudgesInside(k: Config, c: Call, retryable: bool)
    requires c.pc.Judging?
    ensures SameOutside(c, AfterJudge(k, c, retryable))
  {
  }

  lemma WaitsInside(c: Call, floor: int, t: int)
    requires c.pc.RetryPending?
    ensures SameOutside(c, AfterNoteRetry(c, floor, t))
  {
  }

  lemma DecidesInside(k: Config, c: Call, a: Act, t: int)
    requires Can(k, c, a, t) && Decides(a)
    ensures SameOutside(c, Step(k, c, a, t))
  {
    hide Backoff.Possible, AfterArm, AfterJudge, AfterNoteRetry;
    match a
    case Arm(at) => ArmsInside(k, c, at + c.pc.delay);
    case Judge(retryable) => JudgesInside(k, c, retryable);
    case NoteRetry(floor) => WaitsInside(c, floor, t);
    case Wake =>
    case AbandonBackoff(_) =>
  }

  lemma DecisionFollows(k: Config, c: Call, a: Act, t: int)
    requires Accounted(c) && Can(k, c, a, t) && Decides(a)
    ensures Follows(k, c, EffectOf(k, c, a, t), Step(k, c, a, t))
  {
    DecidesInside(k, c, a, t);
    hide Step, Backoff.Possible;
  }

  lemma LeavingFollows(k: Config, c: Call, a: Act, t: int)
    requires Holding(k, c) && Admitted(k, c) && Can(k, c, a, t) && Leaves(a)
    ensures Follows(k, c, EffectOf(k, c, a, t), Step(k, c, a, t))
  {
    hide Verdict;
  }

  lemma StepFollows(k: Config, c: Call, a: Act, t: int)
    requires Holding(k, c) && Accounted(c) && Admitted(k, c) && Can(k, c, a, t)
    ensures Follows(k, c, EffectOf(k, c, a, t), Step(k, c, a, t))
  {
    hide Holding, Accounted, Admitted, Can, EffectOf, Step, Follows;
    if Arrives(a) {
      ArrivalFollows(k, c, a, t);
    } else if AtGate(a) {
      AtGateFollows(k, c, a, t);
    } else if AtBucket(a) {
      AtBucketFollows(k, c, a, t);
    } else if Records(a) {
      RecordFollows(k, c, a, t);
    } else if AtTransport(a) {
      TransportFollows(k, c, a, t);
    } else if Decides(a) {
      DecisionFollows(k, c, a, t);
    } else {
      LeavingFollows(k, c, a, t);
    }
  }
}
