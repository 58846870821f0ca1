/** What holds of every call at every point, whatever the shared parts do. */
module CallInvs {
  import opened Arith
  import opened Errors
  import Backoff
  import Breaker
  import Gate
  import opened DoCalls

  /** In attempt number `attempt`, before its request is sent. */
  predicate BeforeSend(pc: Pc) {
    || pc.LoopHead? || pc.GateRead? || pc.Asleep? || pc.TokenFast? || pc.TokenSlow?
    || pc.WaitFailed? || pc.CancelPending? || pc.HasToken? || pc.Ready? || pc.RewindFailed?
  }

  /** In attempt number `attempt`, after its request is sent. */
  predicate AfterSend(pc: Pc) {
    pc.Flight? || pc.Answered? || pc.Noted? || pc.Errored? || pc.Judging?
  }

  /** Attempt number `attempt` is over and another one will follow. */
  predicate BetweenSends(pc: Pc) { pc.RetryPending? || pc.Backing? }

  predicate Starting(pc: Pc) { pc.Entry? || pc.AwaitSlot? }

  predicate Over(pc: Pc) { pc.Returning? || pc.Reporting? || pc.Done? }

  function ResultOf(pc: Pc): Result
    requires Over(pc)
  {
    match pc
    case Returning(r) => r
    case Reporting(r) => r
    case Done(r) => r
  }

  // -------------------------------------------------------------------------
  // Properties of the histories

  ghost predicate AllCarry(sends: seq<Send>, bytes: seq<int>) {
    forall i | 0 <= i < |sends| :: sends[i].payload == bytes
  }

  ghost predicate AllBy(sends: seq<Send>, t: int) {
    forall i | 0 <= i < |sends| :: sends[i].at <= t
  }

  ghost predicate SomeFailing(ends: seq<End>) {
    exists i | 0 <= i < |ends| :: ends[i].Failing?
  }

  ghost predicate FloorsFit(policy: Backoff.Policy, waits: seq<Wait>) {
    forall i | 0 <= i < |waits| :: Backoff.Possible(policy, i, waits[i].floor)
  }

  /** A send keeps its distance to the one before. */
  ghost predicate Spaced(from: Send, w: Wait, at: int) {
    && from.at + w.floor <= at
    && (w.notBefore.Some? ==> w.notBefore.value <= at)
  }

  ghost predicate AllSpaced(sends: seq<Send>, waits: seq<Wait>) {
    forall i | 0 <= i < |waits| && i + 1 < |sends| :: Spaced(sends[i], waits[i], sends[i + 1].at)
  }

  function Deadline(e: End): Option<int> { if e.Asked? then Some(e.until) else None }

  /** The wait after a 429 or 503 ends no earlier than the deadline it asked for. */
  ghost predicate AsAsked(waits: seq<Wait>, ends: seq<End>) {
    |waits| <= |ends| && forall i | 0 <= i < |waits| :: waits[i].notBefore == Deadline(ends[i])
  }

  lemma OneMoreSend(sends: seq<Send>, waits: seq<Wait>, s: Send)
    requires |waits| == |sends|
    requires |sends| > 0 ==> Spaced(sends[|sends| - 1], waits[|sends| - 1], s.at)
    ensures AllCarry(sends, s.payload) ==> AllCarry(sends + [s], s.payload)
    ensures AllBy(sends, s.at) ==> AllBy(sends + [s], s.at)
    ensures AllSpaced(sends, waits) ==> AllSpaced(sends + [s], waits)
  {
  }

  lemma OneMoreEnd(ends: seq<End>, waits: seq<Wait>, e: End)
    ensures SomeFailing(ends + [e]) <==> SomeFailing(ends) || e.Failing?
    ensures AsAsked(waits, ends) ==> AsAsked(waits, ends + [e])
  {
    var more := ends + [e];
    assert more[|ends|] == e;
    forall i | 0 <= i < |ends| ensures more[i] == ends[i] {}
  }

  lemma OneMoreWait(policy: Backoff.Policy, sends: seq<Send>, waits: seq<Wait>, ends: seq<End>, w: Wait)
    requires |sends| == |waits| + 1
    ensures FloorsFit(policy, waits) && Backoff.Possible(policy, |waits|, w.floor) ==> FloorsFit(policy, waits + [w])
    ensures AllSpaced(sends, waits) ==> AllSpaced(sends, waits + [w])
    ensures AsAsked(waits, ends) && |waits| < |ends| && w.notBefore == Deadline(ends[|waits|])
            ==> AsAsked(waits + [w], ends)
  {
    hide Backoff.Possible;
  }

  lemma StillBy(sends: seq<Send>, t: int, later: int)
    requires AllBy(sends, t) && t <= later
    ensures AllBy(sends, later)
  {
  }

  // -------------------------------------------------------------------------
  // Attempts and bodies

  ghost predicate Counted(k: Config, c: Call) {
    && (Starting(c.pc) ==> c.attempt == 0 && |c.sends| == 0 && |c.ends| == 0)
    && (BeforeSend(c.pc) ==> c.attempt <= k.maxRetries && |c.sends| == c.attempt && |c.ends| == c.attempt)
    && (AfterSend(c.pc) ==> c.attempt <= k.maxRetries && |c.sends| == c.attempt + 1 && |c.ends| == c.attempt)
    && (BetweenSends(c.pc) ==>
          c.attempt < k.maxRetries && |c.sends| == c.attempt + 1 == |c.ends| && c.req.Replayable())
    && (c.pc.RewindFailed? ==> c.attempt > 0)
    && (Over(c.pc) ==> |c.sends| > 0 ==> |c.sends| <= k.maxRetries + 1)
    && (Over(c.pc) ==> |c.ends| <= |c.sends| <= |c.ends| + 1)
    && |c.sends| <= c.attempt + 1
  }

  /** Every attempt sends the original body, and only replayable bodies are sent twice. */
  ghost predicate SameBody(c: Call) {
    && (c.attempt > 0 ==> c.req.Replayable())
    && (c.attempt == 0 && (Starting(c.pc) || BeforeSend(c.pc)) ==> c.reader == c.req.Content())
    && AllCarry(c.sends, c.req.Content())
  }

  /** The loop runs out exactly when every permitted attempt was sent and ended
      in a retryable way; the cause is the last attempt's transport error. */
  ghost predicate Ended(k: Config, c: Call) {
    && (c.exhausted ==> Over(c.pc) && c.lastErr.None? == (k.maxRetries < 0)
                        && ResultOf(c.pc) == Failed(Exhausted(c.lastErr)))
    && (k.maxRetries >= 0 ==> (c.exhausted <==> |c.ends| == k.maxRetries + 1))
    && (k.maxRetries >= 0 && c.exhausted ==> c.ends[k.maxRetries] == Failing(c.lastErr.value))
    && (k.maxRetries < 0 ==> |c.ends| == 0 == |c.sends|)
  }

  /** `lastErr` remembers whether some attempt ended in a transport error. */
  ghost predicate Remembered(c: Call) {
    && (Starting(c.pc) ==> c.lastErr.None?)
    && (c.lastErr.Some? ==> |c.sends| > 0)
    && (c.pc.Judging? ==> c.lastErr == Some(c.pc.err))
    && (SomeFailing(c.ends) ==> c.lastErr.Some?)
    && (c.lastErr.Some? && !c.pc.Judging? && !SomeFailing(c.ends) ==>
          Over(c.pc) && (ResultOf(c.pc) == Failed(c.lastErr.value) || ResultOf(c.pc) == Panicked))
  }

  // -------------------------------------------------------------------------
  // Slots, tokens and accounts

  ghost predicate Holding(k: Config, c: Call) {
    && (c.slot ==> k.maxConcurrent > 0 && !Starting(c.pc) && !c.pc.Reporting? && !c.pc.Done?)
    && (BeforeSend(c.pc) || AfterSend(c.pc) || BetweenSends(c.pc) ==> c.slot == (k.maxConcurrent > 0))
  }

  /** Each recorded attempt took one token, and only the step after a token is
      taken leaves them apart. */
  ghost predicate Paid(k: Config, c: Call) {
    && (k.plan.None? ==> c.tokens == 0)
    && (k.plan.Some? ==> c.tokens == c.tried + if c.pc.HasToken? then 1 else 0)
    && (Starting(c.pc) ==> c.tried == 0)
    && (BeforeSend(c.pc) ==> c.tried == c.attempt + if c.pc.Ready? || c.pc.RewindFailed? then 1 else 0)
    && (AfterSend(c.pc) || BetweenSends(c.pc) ==> c.tried == c.attempt + 1)
    && |c.sends| <= c.tried <= |c.sends| + 1
  }

  /** Where an account is open or short. */
  ghost predicate Accounted(c: Call) {
    && (!Over(c.pc) ==>
          (c.account.Open? <==> c.pc.Ready? || c.pc.RewindFailed? || c.pc.Flight? || c.pc.Answered? || c.pc.Errored?))
    && (!Over(c.pc) ==> (c.account.Short? <==> c.pc.CancelPending?))
    && (Over(c.pc) && c.account.Open? ==> ResultOf(c.pc) == Panicked)
    && (Over(c.pc) && c.account.Short? ==> ResultOf(c.pc) == Failed(Sentinel(Stopped)))
  }

  /** A call is on the slow path of the token wait only after its fast path, and
      turned away by the stop only from there. Without a gate nothing else sees
      the stop. */
  ghost predicate Searched(k: Config, c: Call) {
    && (c.pc.TokenSlow? ==> c.emptyAt.Some?)
    && (c.turnedAway ==> && c.emptyAt.Some?
                         && (c.pc == WaitFailed(Stop)
                             || (Over(c.pc) && ResultOf(c.pc) == Failed(Sentinel(Stopped)))))
    && (c.emptyAt.Some? ==> k.plan.Some?)
    && (c.pc.GateRead? || c.pc.Asleep? ==> k.retryAfterMax > 0)
    && (c.pc == WaitFailed(Stop) && k.retryAfterMax <= 0 ==> c.turnedAway)
    && (Over(c.pc) && c.account.Short? && k.retryAfterMax <= 0 ==> c.turnedAway)
  }

  // -------------------------------------------------------------------------
  // Spacing

  ghost predicate SendsSpaced(k: Config, c: Call, t: int) {
    && AllBy(c.sends, t) && FloorsFit(k.backoff, c.waits) && AllSpaced(c.sends, c.waits)
    && |c.waits| <= |c.sends| <= |c.waits| + 1
    && (BeforeSend(c.pc) ==>
          |c.waits| == c.attempt == |c.sends|
          && (c.attempt > 0 ==> Spaced(c.sends[c.attempt - 1], c.waits[c.attempt - 1], t)))
    && (Starting(c.pc) || AfterSend(c.pc) || c.pc.RetryPending? ==> |c.waits| == c.attempt)
    && (c.pc.Backing? ==>
          |c.waits| == c.attempt + 1 == |c.sends| && Spaced(c.sends[c.attempt], c.waits[c.attempt], c.pc.wakeAt))
  }

  ghost predicate WaitsAsAsked(c: Call) {
    && AsAsked(c.waits, c.ends)
    && (BetweenSends(c.pc) ==> |c.ends| == c.attempt + 1)
    && (c.pc.RetryPending? ==> c.pc.until == Deadline(c.ends[c.attempt]))
  }

  // -------------------------------------------------------------------------
  // Admission, results and reports

  ghost predicate Admitted(k: Config, c: Call) {
    && (k.breaker.None? ==> c.ticket.None?)
    && (c.pc.Entry? ==> c.ticket.None?)
    && (k.breaker.Some? && c.pc != Entry && c.ticket.None? ==> c.pc.Done?)
    && (c.reported.Some? <==> c.pc.Done? && c.ticket.Some?)
    && (c.reported.Some? ==> c.reported.value == Verdict(c.pc.result, c.lastErr.Some?, k.statusFailMin))
    && (c.refused ==> c.pc == Done(Failed(Sentinel(CircuitOpen))) && c.ticket.None?)
    && (c.refused || c.pc.Entry? ==>
          c.sends == [] && c.tokens == 0 && c.tried == 0 && c.account.Settled? && !c.slot)
  }

  /** A call ends without having sent anything only in these ways. */
  ghost predicate Resulted(k: Config, c: Call) {
    Over(c.pc) && |c.sends| == 0 ==>
      match ResultOf(c.pc)
      case Response(_) => false
      case Panicked => false
      case Failed(e) =>
        if c.exhausted then e == Exhausted(None) && k.maxRetries < 0
        else c.ticket.None? || e == Sentinel(Canceled) || e == Sentinel(DeadlineExceeded) || e == Sentinel(Stopped)
  }

  /** A delay that is about to arm the gate is within the configured maximum. */
  ghost predicate DelayFits(k: Config, c: Call) {
    && (c.pc.Answered? ==> Gate.Fits64(c.pc.header))
    && (c.pc.Noted? ==> 0 <= c.pc.delay <= k.retryAfterMax)
  }

  /** The clock has passed its first second, and a call remembers no later time. */
  ghost predicate Punctual(c: Call, t: int) {
    SECOND <= c.entryNow <= c.start <= t
  }

  // -------------------------------------------------------------------------
  // All together

  ghost predicate CallInv(k: Config, c: Call, t: int) {
    && k.Valid()
    && Counted(k, c) && SameBody(c) && Ended(k, c) && Remembered(c)
    && Holding(k, c) && Paid(k, c) && Accounted(c) && Searched(k, c)
    && SendsSpaced(k, c, t) && WaitsAsAsked(c)
    && Admitted(k, c) && Resulted(k, c) && DelayFits(k, c) && Punctual(c, t)
  }

  lemma NewCallInv(k: Config, req: Request, t: int)
    requires k.Valid() && SECOND <= t
    ensures CallInv(k, NewCall(req, t), t)
  {
  }

  /** Time passes. */
  lemma LaterInv(k: Config, c: Call, t: int, later: int)
    requires CallInv(k, c, t) && t <= later
    ensures CallInv(k, c, later)
  {
    StillBy(c.sends, t, later);
  }

  // -------------------------------------------------------------------------
  // One lemma per kind of step, on the call that the step leaves

  /** Waiting for permission to send: only the program counter moves. */
  predicate Waiting(pc: Pc) {
    pc.LoopHead? || pc.GateRead? || pc.Asleep? || pc.TokenFast? || pc.WaitFailed?
  }

  lemma MoveInv(k: Config, c: Call, pc: Pc, t: int)
    requires CallInv(k, c, t) && (Waiting(c.pc) || c.pc.TokenSlow?) && Waiting(pc) && !c.turnedAway
    requires pc == WaitFailed(Stop) || pc.GateRead? || pc.Asleep? ==> k.retryAfterMax > 0
    ensures CallInv(k, c.(pc := pc), t)
  {
    hide AllBy, FloorsFit, AllSpaced, AsAsked, AllCarry, SomeFailing, Verdict;
    assert BeforeSend(pc) && BeforeSend(c.pc) && !Over(pc);
  }

  /** The token wait begins, and forgets what an earlier one found. */
  lemma PassGateInv(k: Config, c: Call, t: int)
    requires CallInv(k, c, t) && (c.pc.LoopHead? || c.pc.GateRead?)
    ensures CallInv(k, c.(pc := TokenFast, emptyAt := None), t)
  {
    hide AllBy, FloorsFit, AllSpaced, AsAsked, AllCarry, SomeFailing, Verdict;
  }

  lemma FindEmptyInv(k: Config, c: Call, mark: nat, t: int)
    requires CallInv(k, c, t) && c.pc.TokenFast? && k.plan.Some?
    ensures CallInv(k, c.(pc := TokenSlow, emptyAt := Some(mark)), t)
  {
  }

  lemma TurnedAwayInv(k: Config, c: Call, t: int)
    requires CallInv(k, c, t) && c.pc.TokenSlow?
    ensures CallInv(k, c.(pc := WaitFailed(Stop), turnedAway := true), t)
  {
  }

  lemma SkipTokenInv(k: Config, c: Call, t: int)
    requires CallInv(k, c, t) && c.pc.TokenFast? && k.plan.None?
    ensures CallInv(k, c.(pc := HasToken), t)
  {
  }

  lemma GrabTokenInv(k: Config, c: Call, t: int)
    requires CallInv(k, c, t) && (c.pc.TokenFast? || c.pc.TokenSlow?) && k.plan.Some?
    ensures CallInv(k, c.(pc := HasToken, tokens := c.tokens + 1), t)
  {
  }

  lemma RefusedInv(k: Config, c: Call, t: int)
    requires CallInv(k, c, t) && c.pc.Entry?
    ensures CallInv(k, c.(pc := Done(Failed(Sentinel(CircuitOpen))), refused := true), t)
  {
  }

  lemma GrantedInv(k: Config, c: Call, ticket: Option<Breaker.Ticket>, t: int)
    requires CallInv(k, c, t) && c.pc.Entry? && ticket.Some? == k.breaker.Some?
    ensures CallInv(k, c.(pc := AwaitSlot, ticket := ticket), t)
  {
  }

  lemma TakeSlotInv(k: Config, c: Call, t: int)
    requires CallInv(k, c, t) && c.pc.AwaitSlot? && k.maxRetries >= 0
    ensures CallInv(k, c.(slot := k.maxConcurrent > 0, start := t, pc := LoopHead), t)
  {
  }

  lemma NoAttemptInv(k: Config, c: Call, t: int)
    requires CallInv(k, c, t) && c.pc.AwaitSlot? && k.maxRetries < 0
    ensures CallInv(k, c.(slot := k.maxConcurrent > 0, start := t, pc := Returning(Failed(Exhausted(None))),
                          exhausted := true), t)
  {
  }

  /** The context ends a wait for a slot, or between two attempts. */
  lemma AbandonInv(k: Config, c: Call, cause: Cause, t: int)
    requires CallInv(k, c, t) && (c.pc.AwaitSlot? || c.pc.Backing?)
    ensures CallInv(k, c.(pc := Returning(Failed(CauseErr(cause)))), t)
  {
  }

  lemma StopReturnsInv(k: Config, c: Call, t: int)
    requires CallInv(k, c, t) && c.pc == WaitFailed(Stop)
    ensures CallInv(k, c.(pc := Returning(Failed(Sentinel(Stopped))), account := Short), t)
  {
  }

  lemma NoteWaitFailureInv(k: Config, c: Call, t: int)
    requires CallInv(k, c, t) && c.pc.WaitFailed? && c.pc.why.Context?
    ensures CallInv(k, c.(pc := CancelPending(c.pc.why), account := Short), t)
  {
  }

  lemma NoteCancelInv(k: Config, c: Call, t: int)
    requires CallInv(k, c, t) && c.pc.CancelPending?
    ensures CallInv(k, c.(pc := Returning(Failed(WhyErr(c.pc.why))), account := Settled), t)
  {
  }

  lemma NoteAttemptInv(k: Config, c: Call, t: int)
    requires CallInv(k, c, t) && c.pc.HasToken?
    ensures CallInv(k, c.(pc := Ready, account := Open, tried := c.tried + 1), t)
  {
  }

  lemma RewindFailsInv(k: Config, c: Call, err: Err, t: int)
    requires CallInv(k, c, t) && c.pc.Ready? && Rewinds(c)
    ensures CallInv(k, c.(pc := RewindFailed(err)), t)
  {
  }

  lemma NoteRewindFailureInv(k: Config, c: Call, t: int)
    requires CallInv(k, c, t) && c.pc.RewindFailed?
    ensures CallInv(k, c.(pc := Returning(Failed(Wrapped(LocalOp, c.pc.err))), account := Settled), t)
  {
  }

  lemma LaunchInv(k: Config, c: Call, consumed: nat, t: int)
    requires CallInv(k, c, t) && c.pc.Ready? && consumed <= |Payload(c)|
    ensures CallInv(k, AfterLaunch(c, consumed, t), t)
  {
    assert |c.waits| == |c.sends| == c.attempt;
    assert Payload(c) == c.req.Content();
    OneMoreSend(c.sends, c.waits, Send(t, Payload(c)));
  }

  /** The transport answers. */
  lemma AnswerInv(k: Config, c: Call, pc: Pc, t: int)
    requires CallInv(k, c, t) && c.pc.Flight?
    requires pc.Errored? || (pc.Answered? && Gate.Fits64(pc.header))
    ensures CallInv(k, c.(pc := pc), t)
  {
  }

  lemma PanicInv(k: Config, c: Call, t: int)
    requires CallInv(k, c, t) && (c.pc.Flight? || c.pc.Judging? || (c.pc.Ready? && Rewinds(c)))
    ensures CallInv(k, c.(pc := Returning(Panicked)), t)
  {
  }

  lemma NotedInv(k: Config, c: Call, delay: int, t: int)
    requires CallInv(k, c, t) && c.pc.Answered? && 0 <= delay <= k.retryAfterMax
    ensures CallInv(k, c.(pc := Noted(c.pc.status, delay), account := Settled), t)
  {
  }

  /** A response goes to the caller. */
  lemma RespondInv(k: Config, c: Call, status: int, t: int)
    requires CallInv(k, c, t) && (c.pc.Answered? || c.pc.Noted?)
    ensures CallInv(k, c.(pc := Returning(Response(status)), account := Settled), t)
  {
  }

  lemma NoteResponseInv(k: Config, c: Call, t: int)
    requires CallInv(k, c, t) && c.pc.Answered?
    ensures CallInv(k, AfterNoteResponse(k, c), t)
  {
    assert Gate.Fits64(c.pc.header) && k.retryAfterMax <= MAX_INT64;
    hide CallInv;
    RespondInv(k, c, c.pc.status, t);
    if k.retryAfterMax > 0 && Gate.Armed(c.pc.header, k.retryAfterMax).Some? {
      Gate.ArmedDelay(c.pc.header, k.retryAfterMax);
      NotedInv(k, c, Gate.Armed(c.pc.header, k.retryAfterMax).value, t);
    }
  }

  /** An attempt ends and will be followed by another. */
  lemma RetryInv(k: Config, c: Call, e: End, t: int)
    requires CallInv(k, c, t) && ((c.pc.Noted? && e.Asked?) || (c.pc.Judging? && e.Failing?))
    requires c.attempt < k.maxRetries && c.req.Replayable()
    ensures CallInv(k, c.(pc := RetryPending(Deadline(e)), ends := c.ends + [e]), t)
  {
    OneMoreEnd(c.ends, c.waits, e);
  }

  lemma ArmInv(k: Config, c: Call, until: int, t: int)
    requires CallInv(k, c, t) && c.pc.Noted?
    ensures CallInv(k, AfterArm(k, c, until), t)
  {
    assert c.account.Settled?;
    hide CallInv;
    if c.attempt < k.maxRetries && c.req.Replayable() {
      RetryInv(k, c, Asked(until), t);
    } else {
      RespondInv(k, c, c.pc.status, t);
      assert c.(pc := Returning(Response(c.pc.status)), account := Settled) == AfterArm(k, c, until);
    }
  }

  lemma NoteErrorInv(k: Config, c: Call, t: int)
    requires CallInv(k, c, t) && c.pc.Errored?
    ensures CallInv(k, c.(pc := Judging(c.pc.err), lastErr := Some(c.pc.err), account := Settled), t)
  {
  }

  lemma GiveUpInv(k: Config, c: Call, t: int)
    requires CallInv(k, c, t) && c.pc.Judging?
    ensures CallInv(k, c.(pc := Returning(Failed(c.pc.err))), t)
  {
  }

  lemma ExhaustInv(k: Config, c: Call, t: int)
    requires CallInv(k, c, t) && c.pc.Judging? && c.attempt >= k.maxRetries
    ensures var err := c.pc.err;
            CallInv(k, c.(pc := Returning(Failed(Exhausted(Some(err)))), ends := c.ends + [Failing(err)],
                          exhausted := true), t)
  {
    OneMoreEnd(c.ends, c.waits, Failing(c.pc.err));
  }

  lemma JudgeInv(k: Config, c: Call, retryable: bool, t: int)
    requires CallInv(k, c, t) && c.pc.Judging?
    ensures CallInv(k, AfterJudge(k, c, retryable), t)
  {
    hide CallInv;
    if !retryable || !c.req.Replayable() {
      GiveUpInv(k, c, t);
    } else if c.attempt < k.maxRetries {
      RetryInv(k, c, Failing(c.pc.err), t);
    } else {
      ExhaustInv(k, c, t);
    }
  }

  lemma NoteRetryInv(k: Config, c: Call, floor: int, t: int)
    requires CallInv(k, c, t) && c.pc.RetryPending? && Backoff.Possible(k.backoff, c.attempt, floor)
    ensures CallInv(k, AfterNoteRetry(c, floor, t), t)
  {
    assert |c.sends| == c.attempt + 1 == |c.ends| && |c.waits| == c.attempt && AllBy(c.sends, t);
    assert c.sends[c.attempt].at <= t;
    OneMoreWait(k.backoff, c.sends, c.waits, c.ends, Wait(t, floor, c.pc.until));
  }

  lemma WakeInv(k: Config, c: Call, t: int)
    requires CallInv(k, c, t) && c.pc.Backing? && c.pc.wakeAt <= t
    ensures CallInv(k, c.(pc := LoopHead, attempt := c.attempt + 1, start := t), t)
  {
  }

  lemma ReleaseSlotInv(k: Config, c: Call, t: int)
    requires CallInv(k, c, t) && c.pc.Returning?
    ensures CallInv(k, c.(pc := Reporting(c.pc.result), slot := false), t)
  {
  }

  lemma FileReportInv(k: Config, c: Call, t: int)
    requires CallInv(k, c, t) && c.pc.Reporting?
    ensures CallInv(k, c.(pc := Done(c.pc.result),
                          reported := if c.ticket.Some?
                                      then Some(Verdict(c.pc.result, c.lastErr.Some?, k.statusFailMin)) else None), t)
  {
  }

  // -------------------------------------------------------------------------
  // Every step

  predicate Arrives(a: Act) { a.Enter? || a.TakeSlot? || a.AbandonSlot? }

  predicate AtGate(a: Act) { a.ReadGate? || a.PassGate? || a.Doze? || a.Reread? || a.GateGivesUp? }

  predicate AtBucket(a: Act) { a.SkipToken? || a.GrabToken? || a.FindEmpty? || a.TokenGivesUp? }

  predicate Records(a: Act) {
    a.NoteWaitFailure? || a.NoteCancel? || a.NoteAttempt? || a.NoteRewindFailure? || a.NoteResponse? || a.NoteError?
  }

  predicate AtTransport(a: Act) { a.RewindFails? || a.Launch? || a.Respond? || a.Break? || a.Panic? }

  predicate Decides(a: Act) { a.Arm? || a.Judge? || a.NoteRetry? || a.Wake? || a.AbandonBackoff? }

  predicate Leaves(a: Act) { a.ReleaseSlot? || a.FileReport? }

  lemma ArrivalInv(k: Config, c: Call, a: Act, t: int)
    requires CallInv(k, c, t) && Can(k, c, a, t) && Arrives(a)
    ensures CallInv(k, Step(k, c, a, t), t)
  {
    hide CallInv;
    match a
    case Enter(adm) =>
      if adm.Refused? {
        RefusedInv(k, c, t);
      } else {
        GrantedInv(k, c, if k.breaker.Some? then Some(adm.ticket) else None, t);
      }
    case TakeSlot =>
      if k.maxRetries >= 0 {
        TakeSlotInv(k, c, t);
      } else {
        NoAttemptInv(k, c, t);
      }
    case AbandonSlot(cause) => AbandonInv(k, c, cause, t);
  }

  lemma NotTurnedAway(k: Config, c: Call, t: int)
    requires CallInv(k, c, t) && BeforeSend(c.pc) && !c.pc.WaitFailed?
    ensures !c.turnedAway
  {
    assert Searched(k, c);
  }

  lemma AtGateInv(k: Config, c: Call, a: Act, t: int)
    requires CallInv(k, c, t) && Can(k, c, a, t) && AtGate(a)
    ensures CallInv(k, Step(k, c, a, t), t)
  {
    assert Searched(k, c);
    hide CallInv, Searched;
    NotTurnedAway(k, c, t);
    if a.PassGate? {
      PassGateInv(k, c, t);
    } else {
      MoveInv(k, c, Step(k, c, a, t).pc, t);
    }
  }

  lemma AtBucketInv(k: Config, c: Call, a: Act, t: int)
    requires CallInv(k, c, t) && Can(k, c, a, t) && AtBucket(a)
    ensures CallInv(k, Step(k, c, a, t), t)
  {
    hide CallInv;
    NotTurnedAway(k, c, t);
    match a
    case SkipToken => SkipTokenInv(k, c, t);
    case GrabToken => GrabTokenInv(k, c, t);
    case FindEmpty(mark) => FindEmptyInv(k, c, mark, t);
    case TokenGivesUp(why) =>
      if why.Stop? {
        TurnedAwayInv(k, c, t);
      } else {
        MoveInv(k, c, WaitFailed(why), t);
        assert Step(k, c, a, t) == c.(pc := WaitFailed(why));
      }
  }

  lemma RecordInv(k: Config, c: Call, a: Act, t: int)
    requires CallInv(k, c, t) && Can(k, c, a, t) && Records(a)
    ensures CallInv(k, Step(k, c, a, t), t)
  {
    hide CallInv, AfterNoteResponse;
    match a
    case NoteWaitFailure =>
      if c.pc.why.Stop? {
        StopReturnsInv(k, c, t);
      } else {
        NoteWaitFailureInv(k, c, t);
      }
    case NoteCancel => NoteCancelInv(k, c, t);
    case NoteAttempt => NoteAttemptInv(k, c, t);
    case NoteRewindFailure => NoteRewindFailureInv(k, c, t);
    case NoteResponse => NoteResponseInv(k, c, t);
    case NoteError => NoteErrorInv(k, c, t);
  }

  lemma TransportInv(k: Config, c: Call, a: Act, t: int)
    requires CallInv(k, c, t) && Can(k, c, a, t) && AtTransport(a)
    ensures CallInv(k, Step(k, c, a, t), t)
  {
    hide CallInv, AfterLaunch, Payload;
    match a
    case RewindFails(err) => RewindFailsInv(k, c, err, t);
    case Launch(consumed) => LaunchInv(k, c, consumed, t);
    case Respond(status, h) => AnswerInv(k, c, Answered(status, h), t);
    case Break(err) => AnswerInv(k, c, Errored(err), t);
    case Panic => PanicInv(k, c, t);
  }

  lemma DecisionInv(k: Config, c: Call, a: Act, t: int)
    requires CallInv(k, c, t) && Can(k, c, a, t) && Decides(a)
    ensures CallInv(k, Step(k, c, a, t), t)
  {
    hide CallInv, AfterArm, AfterJudge, AfterNoteRetry, Backoff.Possible;
    match a
    case Arm(at) => ArmInv(k, c, at + c.pc.delay, t);
    case Judge(retryable) => JudgeInv(k, c, retryable, t);
    case NoteRetry(floor) => NoteRetryInv(k, c, floor, t);
    case Wake => WakeInv(k, c, t);
    case AbandonBackoff(cause) => AbandonInv(k, c, cause, t);
  }

  lemma LeavingInv(k: Config, c: Call, a: Act, t: int)
    requires CallInv(k, c, t) && Can(k, c, a, t) && Leaves(a)
    ensures CallInv(k, Step(k, c, a, t), t)
  {
    hide CallInv, Verdict;
    if a.ReleaseSlot? {
      ReleaseSlotInv(k, c, t);
    } else {
      FileReportInv(k, c, t);
    }
  }

  lemma StepInv(k: Config, c: Call, a: Act, t: int)
    requires CallInv(k, c, t) && Can(k, c, a, t)
    ensures CallInv(k, Step(k, c, a, t), t)
  {
    hide CallInv, Can, Step;
    if Arrives(a) {
      ArrivalInv(k, c, a, t);
    } else if AtGate(a) {
      AtGateInv(k, c, a, t);
    } else if AtBucket(a) {
      AtBucketInv(k, c, a, t);
    } else if Records(a) {
      RecordInv(k, c, a, t);
    } else if AtTransport(a) {
      TransportInv(k, c, a, t);
    } else if Decides(a) {
      DecisionInv(k, c, a, t);
    } else {
      LeavingInv(k, c, a, t);
    }
  }
}
