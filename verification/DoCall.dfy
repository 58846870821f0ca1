/** One call of `Do` as a machine: a program counter, what the call holds, and
    its history. What it reads from and does to the shared parts of the breaker
    is left to the effect of each step. */
module DoCalls {
  import opened Arith
  import opened Errors
  import Breaker
  import opened Bucket
  import Backoff
  import Gate
  import Ledger

  datatype Config = Config(
    breaker: Option<Breaker.Params>, // WithBreaker
    maxConcurrent: int,
    maxRetries: int,
    statusFailMin: int,              // WithStatusCodeFailure
    retryAfterMax: int,              // WithRetryAfter, 0 when off
    plan: Option<Plan>,              // the token bucket, if any
    backoff: Backoff.Policy)
  {
    predicate Valid() {
      && (breaker.Some? ==> breaker.value.Valid())
      && (plan.Some? ==> plan.value.Valid())
      && backoff.Valid()
      && retryAfterMax <= MAX_INT64
    }
  }

  /** `rewindable` says that `GetBody` is set. */
  datatype Request = Request(wellFormed: bool, host: string, path: string, body: Option<seq<int>>, rewindable: bool) {
    function Content(): seq<int> { if body.Some? then body.value else [] }

    predicate Replayable() { body.None? || rewindable }

    function Endpoint(): string { if path == "" then "/" else path }
  }

  datatype Cause = Cancellation | Expiry

  /** Why a wait for permission to send failed. */
  datatype Why = Context(cause: Cause) | Stop

  function CauseErr(c: Cause): Err { Sentinel(if c.Cancellation? then Canceled else DeadlineExceeded) }

  function WhyErr(w: Why): Err { if w.Stop? then Sentinel(Stopped) else CauseErr(w.cause) }

  datatype Pc =
    | Entry                                            // before `allow`
    | AwaitSlot
    | LoopHead | GateRead(seen: int) | Asleep(seen: int)
    | TokenFast | TokenSlow
    | WaitFailed(why: Why) | CancelPending(why: Why)   // failure, then cancellation, to be recorded
    | HasToken | Ready
    | RewindFailed(err: Err)
    | Flight
    | Answered(status: int, header: Gate.Header)       // response to be recorded
    | Noted(status: int, delay: int)                   // gate to be armed
    | Errored(err: Err) | Judging(err: Err)
    | RetryPending(until: Option<int>)                 // retry to be recorded
    | Backing(wakeAt: int)
    | Returning(result: Result) | Reporting(result: Result) | Done(result: Result)

  /** An attempt that reached the transport. */
  datatype Send = Send(at: int, payload: seq<int>)

  /** How an attempt that is not the last one, or the last one of an exhausted
      call, ended. */
  datatype End = Failing(err: Err) | Asked(until: int)

  /** The wait between two attempts, as it was when it began. */
  datatype Wait = Wait(begun: int, floor: int, notBefore: Option<int>)

  /** What the metrics owe: an attempt without an outcome, or a failure that
      belongs to no attempt. */
  datatype Account = Settled | Open | Short

  datatype Call = Call(
    req: Request,
    pc: Pc,
    entryNow: int,           // time.Now() read before `allow` takes the lock
    ticket: Option<Breaker.Ticket>,
    refused: bool,
    slot: bool,
    attempt: nat,
    start: int,
    reader: seq<int>,        // what is left of the request body
    lastErr: Option<Err>,
    account: Account,
    reported: Option<Outcome>,
    tokens: nat,             // tokens taken
    tried: nat,              // attempts recorded
    sends: seq<Send>,
    ends: seq<End>,
    waits: seq<Wait>,
    exhausted: bool,
    emptyAt: Option<nat>,    // events of the bucket when this attempt's token wait found it empty
    turnedAway: bool)        // a token wait saw the stop

  function NewCall(req: Request, now: int): Call {
    Call(req, if req.wellFormed then Entry else Done(Failed(Sentinel(Plain))), now, None, false, false, 0, now,
         req.Content(), None, Settled, None, 0, 0, [], [], [], false, None, false)
  }

  datatype Act =
    | Enter(adm: Breaker.Admission)
    | TakeSlot | AbandonSlot(cause: Cause)
    | ReadGate(v: int) | PassGate | Doze | Reread | GateGivesUp(why: Why)
    | SkipToken | GrabToken | FindEmpty(mark: nat) | TokenGivesUp(why: Why)
    | NoteWaitFailure | NoteCancel
    | NoteAttempt
    | RewindFails(err: Err) | NoteRewindFailure
    | Launch(consumed: nat)
    | Respond(status: int, header: Gate.Header) | Break(err: Err) | Panic
    | NoteResponse | Arm(at: int)
    | NoteError | Judge(retryable: bool)
    | NoteRetry(floor: int) | Wake | AbandonBackoff(cause: Cause)
    | ReleaseSlot | FileReport

  /** What a step does to, or learns from, the shared parts. The gate is offered
      the word that `UnixNano` makes of a deadline. */
  datatype Effect =
    | Quiet
    | Knocked(adm: Breaker.Admission)
    | Acquired | Released
    | Loaded(v: int) | Raised(until: int)
    | Took | FoundEmpty(mark: nat) | SawStop
    | Booked(kind: Ledger.Kind)
    | Filed(outcome: Outcome)

  /** The bytes that the next attempt would send: retries rewind the body. */
  function Payload(c: Call): seq<int> {
    if c.req.body.None? then []
    else if c.attempt > 0 then c.req.Content()
    else c.reader
  }

  predicate Rewinds(c: Call) { c.attempt > 0 && c.req.body.Some? }

  predicate Can(k: Config, c: Call, a: Act, t: int) {
    match a
    case Enter(adm) => c.pc.Entry? && (k.breaker.None? ==> adm.Granted?)
    case TakeSlot => c.pc.AwaitSlot?
    case AbandonSlot(_) => c.pc.AwaitSlot? && k.maxConcurrent > 0
    case ReadGate(_) => c.pc.LoopHead? && k.retryAfterMax > 0
    case PassGate => (c.pc.LoopHead? && k.retryAfterMax <= 0) || (c.pc.GateRead? && c.pc.seen <= t)
    case Doze => c.pc.GateRead? && c.pc.seen > t
    case Reread => c.pc.Asleep? && c.pc.seen <= t
    case GateGivesUp(why) => c.pc.Asleep? && (why.Stop? ==> k.plan.Some?)
    case SkipToken => c.pc.TokenFast? && k.plan.None?
    case GrabToken => (c.pc.TokenFast? || c.pc.TokenSlow?) && k.plan.Some?
    case FindEmpty(_) => c.pc.TokenFast? && k.plan.Some?
    case TokenGivesUp(why) => k.plan.Some? && ((c.pc.TokenFast? && why.Context?) || c.pc.TokenSlow?)
    case NoteWaitFailure => c.pc.WaitFailed?
    case NoteCancel => c.pc.CancelPending?
    case NoteAttempt => c.pc.HasToken?
    case RewindFails(_) => c.pc.Ready? && Rewinds(c) && c.req.rewindable
    case NoteRewindFailure => c.pc.RewindFailed?
    case Launch(consumed) => c.pc.Ready? && (Rewinds(c) ==> c.req.rewindable) && consumed <= |Payload(c)|
    case Respond(_, h) => c.pc.Flight? && Gate.Fits64(h)
    case Break(_) => c.pc.Flight?
    case Panic => c.pc.Flight? || c.pc.Judging? || (c.pc.Ready? && Rewinds(c))
    case NoteResponse => c.pc.Answered?
    case Arm(at) => c.pc.Noted? && c.start <= at <= t
    case NoteError => c.pc.Errored?
    case Judge(_) => c.pc.Judging?
    case NoteRetry(floor) => c.pc.RetryPending? && Backoff.Possible(k.backoff, c.attempt, floor)
    case Wake => c.pc.Backing? && c.pc.wakeAt <= t
    case AbandonBackoff(_) => c.pc.Backing?
    case ReleaseSlot => c.pc.Returning?
    case FileReport => c.pc.Reporting?
  }

  /** What `NoteResponse` books. */
  function ResponseKind(k: Config, status: int): Ledger.Kind {
    if k.statusFailMin > 0 && status >= k.statusFailMin then Ledger.Lost else Ledger.Won
  }

  function EffectOf(k: Config, c: Call, a: Act, t: int): Effect
    requires Can(k, c, a, t)
  {
    match a
    case Enter(adm) => if k.breaker.Some? then Knocked(adm) else Quiet
    case TakeSlot => if k.maxConcurrent > 0 then Acquired else Quiet
    case ReadGate(v) => Loaded(v)
    case GateGivesUp(why) => if why.Stop? then SawStop else Quiet
    case GrabToken => Took
    case FindEmpty(mark) => FoundEmpty(mark)
    case TokenGivesUp(why) => if why.Stop? then SawStop else Quiet
    case NoteWaitFailure => Booked(Ledger.Lost)
    case NoteCancel => Booked(Ledger.GaveUp)
    case NoteAttempt => Booked(Ledger.Tried)
    case NoteRewindFailure => Booked(Ledger.Lost)
    case NoteResponse => Booked(ResponseKind(k, c.pc.status))
    case Arm(at) => Raised(Wrap(at + c.pc.delay))
    case NoteError => Booked(Ledger.Lost)
    case NoteRetry(_) => Booked(Ledger.Retried)
    case ReleaseSlot => if c.slot then Released else Quiet
    case FileReport =>
      if k.breaker.Some? && c.ticket.Some?
      then Filed(Verdict(c.pc.result, c.lastErr.Some?, k.statusFailMin)) else Quiet
    case _ => Quiet
  }

  function AfterNoteResponse(k: Config, c: Call): Call
    requires c.pc.Answered?
  {
    var delay := Gate.Armed(c.pc.header, k.retryAfterMax);
    var next :=
      if k.retryAfterMax > 0 && Gate.AsksToWait(c.pc.status) && delay.Some? then Noted(c.pc.status, delay.value)
      else Returning(Response(c.pc.status));
    c.(pc := next, account := Settled)
  }

  function AfterArm(k: Config, c: Call, until: int): Call
    requires c.pc.Noted?
  {
    if c.attempt < k.maxRetries && c.req.Replayable()
    then c.(pc := RetryPending(Some(until)), ends := c.ends + [Asked(until)])
    else c.(pc := Returning(Response(c.pc.status)))
  }

  function AfterJudge(k: Config, c: Call, retryable: bool): Call
    requires c.pc.Judging?
  {
    var err := c.pc.err;
    if !retryable || !c.req.Replayable() then c.(pc := Returning(Failed(err)))
    else if c.attempt < k.maxRetries then c.(pc := RetryPending(None), ends := c.ends + [Failing(err)])
    else c.(pc := Returning(Failed(Exhausted(Some(err)))), ends := c.ends + [Failing(err)], exhausted := true)
  }

  function AfterLaunch(c: Call, consumed: nat, t: int): Call
    requires consumed <= |Payload(c)|
  {
    c.(pc := Flight, sends := c.sends + [Send(t, Payload(c))],
       reader := if c.attempt == 0 && c.req.body.Some? then c.reader[consumed..] else c.reader)
  }

  function AfterNoteRetry(c: Call, floor: int, t: int): Call
    requires c.pc.RetryPending?
  {
    var u := c.pc.until;
    var wait := if u.Some? && u.value - t > floor then u.value - t else floor;
    c.(pc := Backing(t + wait), waits := c.waits + [Wait(t, floor, u)])
  }

  function Step(k: Config, c: Call, a: Act, t: int): Call
    requires Can(k, c, a, t)
  {
    match a
    case Enter(adm) =>
      if adm.Refused? then c.(pc := Done(Failed(Sentinel(CircuitOpen))), refused := true)
      else c.(pc := AwaitSlot, ticket := if k.breaker.Some? then Some(adm.ticket) else None)
    case TakeSlot =>
      var held := c.(slot := k.maxConcurrent > 0, start := t);
      if k.maxRetries >= 0 then held.(pc := LoopHead)
      else held.(pc := Returning(Failed(Exhausted(None))), exhausted := true)
    case AbandonSlot(cause) => c.(pc := Returning(Failed(CauseErr(cause))))
    case ReadGate(v) => c.(pc := GateRead(v))
    case PassGate => c.(pc := TokenFast, emptyAt := None)
    case Doze => c.(pc := Asleep(c.pc.seen))
    case Reread => c.(pc := LoopHead)
    case GateGivesUp(why) => c.(pc := WaitFailed(why))
    case SkipToken => c.(pc := HasToken)
    case GrabToken => c.(pc := HasToken, tokens := c.tokens + 1)
    case FindEmpty(mark) => c.(pc := TokenSlow, emptyAt := Some(mark))
    case TokenGivesUp(why) => c.(pc := WaitFailed(why), turnedAway := why.Stop?)
    case NoteWaitFailure =>
      c.(pc := if c.pc.why.Stop? then Returning(Failed(Sentinel(Stopped))) else CancelPending(c.pc.why),
         account := Short)
    case NoteCancel => c.(pc := Returning(Failed(WhyErr(c.pc.why))), account := Settled)
    case NoteAttempt => c.(pc := Ready, account := Open, tried := c.tried + 1)
    case RewindFails(err) => c.(pc := RewindFailed(err))
    case NoteRewindFailure => c.(pc := Returning(Failed(Wrapped(LocalOp, c.pc.err))), account := Settled)
    case Launch(consumed) => AfterLaunch(c, consumed, t)
    case Respond(status, h) => c.(pc := Answered(status, h))
    case Break(err) => c.(pc := Errored(err))
    case Panic => c.(pc := Returning(Panicked))
    case NoteResponse => AfterNoteResponse(k, c)
    case Arm(at) => AfterArm(k, c, at + c.pc.delay)
    case NoteError => c.(pc := Judging(c.pc.err), lastErr := Some(c.pc.err), account := Settled)
    case Judge(retryable) => AfterJudge(k, c, retryable)
    case NoteRetry(floor) => AfterNoteRetry(c, floor, t)
    case Wake => c.(pc := LoopHead, attempt := c.attempt + 1, start := t)
    case AbandonBackoff(cause) => c.(pc := Returning(Failed(CauseErr(cause))))
    case ReleaseSlot => c.(pc := Reporting(c.pc.result), slot := false)
    case FileReport =>
      c.(pc := Done(c.pc.result),
         reported := if c.ticket.Some? then Some(Verdict(c.pc.result, c.lastErr.Some?, k.statusFailMin)) else None)
  }
}
