/** The story of a call, read off a run: its steps in order, what the transport
    and the context said last, and what `Do` has to make of that. */
module Chronicle {
  import opened Arith
  import opened Errors
  import Gate
  import Backoff
  import opened DoCalls
  import opened CallInvs
  import opened Circuit
  import opened Runs
  import opened Sending

  /** The steps of one call in a run. */
  function Story(es: seq<Event>, id: nat): seq<Act>
    decreases |es|
  {
    if es == [] then []
    else
      var e := es[|es| - 1];
      Story(es[..|es| - 1], id) + if e.Do? && e.id == id then [e.act] else []
  }

  /** What decides how an attempt goes on: a response, a transport error before and
      after it has been judged, a body that cannot be read again, a wait for
      permission that failed, a context that ended another wait, or a panic. */
  datatype Word =
    | Said(status: int, header: Gate.Header)
    | Broke(err: Err)
    | Judged(err: Err, retryable: bool)
    | Stuck(err: Err)
    | Denied(why: Why)
    | Quit(cause: Cause)
    | Blew

  /** A new attempt starts with nothing said. */
  function Heard(w: Option<Word>, a: Act): Option<Word> {
    match a
    case Respond(status, h) => Some(Said(status, h))
    case Break(err) => Some(Broke(err))
    case Judge(r) => if w.Some? && w.value.Broke? then Some(Judged(w.value.err, r)) else w
    case RewindFails(err) => Some(Stuck(err))
    case GateGivesUp(why) => Some(Denied(why))
    case TokenGivesUp(why) => Some(Denied(why))
    case AbandonSlot(cause) => Some(Quit(cause))
    case AbandonBackoff(cause) => Some(Quit(cause))
    case Panic => Some(Blew)
    case Wake => None
    case _ => w
  }

  /** The last word of a story. */
  function LastWord(story: seq<Act>): Option<Word> {
    if story == [] then None else Heard(LastWord(story[..|story| - 1]), story[|story| - 1])
  }

  /** How the attempts ended that got as far as a recorded response or a judgement. */
  function Endings(story: seq<Act>): seq<Word> {
    if story == [] then []
    else
      var front, a := story[..|story| - 1], story[|story| - 1];
      Endings(front) + Ending(LastWord(front), a)
  }

  function Ending(w: Option<Word>, a: Act): seq<Word> {
    if a.Judge? && w.Some? && w.value.Broke? then [Judged(w.value.err, a.retryable)]
    else if a.NoteResponse? && w.Some? && w.value.Said? then [w.value]
    else []
  }

  /** Attempts sent. */
  function Launches(story: seq<Act>): nat {
    if story == [] then 0
    else Launches(story[..|story| - 1]) + if story[|story| - 1].Launch? then 1 else 0
  }

  /** Some attempt ended in a transport error. */
  predicate HasBroken(story: seq<Act>) {
    story != [] && (story[|story| - 1].Break? || HasBroken(story[..|story| - 1]))
  }

  lemma {:induction false} BrokeIsRemembered(story: seq<Act>)
    requires LastWord(story).Some? && (LastWord(story).value.Broke? || LastWord(story).value.Judged?)
    ensures HasBroken(story)
  {
    if !story[|story| - 1].Break? {
      BrokeIsRemembered(story[..|story| - 1]);
    }
  }

  // -------------------------------------------------------------------------
  // What has to follow

  /** The pause that a response asks for, if it is one that asks and the breaker
      listens. */
  function Pause(k: Config, status: int, h: Gate.Header): Option<int> {
    if k.retryAfterMax <= 0 || (status != 429 && status != 503) then None
    else match h
      case Unreadable => None
      case Whole(secs) => if secs < 0 then None else Some(Min(k.retryAfterMax, secs * 1_000_000_000))
      case Date(ahead) => Some(Min(k.retryAfterMax, if ahead < 0 then 0 else ahead))
  }

  /** The error that a wait cut short returns. */
  function ErrorFor(why: Why): Err {
    match why
    case Stop => Sentinel(Stopped)
    case Context(Cancellation) => Sentinel(Canceled)
    case Context(Expiry) => Sentinel(DeadlineExceeded)
  }

  predicate Returns(c: Call, r: Result) { Over(c.pc) && ResultOf(c.pc) == r }

  /** Another attempt is allowed: there is one left, and the body can be sent again. */
  predicate MayRetry(k: Config, c: Call) {
    |c.sends| <= k.maxRetries && (c.req.body.None? || c.req.rewindable)
  }

  /** Nothing has been said in the attempt under way. */
  predicate Unheard(pc: Pc) {
    || Starting(pc) || pc.LoopHead? || pc.GateRead? || pc.Asleep? || pc.TokenFast? || pc.TokenSlow?
    || pc.HasToken? || pc.Ready? || pc.Flight?
  }

  /** A call that is over without a word: refused, unusable, or allowed no attempt. */
  function SilentResult(k: Config, c: Call): Result {
    Failed(if !c.req.wellFormed then Sentinel(Plain)
           else if c.refused then Sentinel(CircuitOpen)
           else Exhausted(None))
  }

  /** The call is where its last word demands. */
  predicate Obeys(k: Config, c: Call, w: Option<Word>) {
    match w
    case None =>
      Unheard(c.pc)
      || (Returns(c, SilentResult(k, c)) && (!c.req.wellFormed || c.refused || k.maxRetries < 0))
    case Some(Said(status, h)) =>
      var pause := Pause(k, status, h);
      if c.pc.Answered? then c.pc == Answered(status, h)
      else if c.pc.Noted? then pause.Some? && c.pc == Noted(status, pause.value)
      else if pause.Some? && MayRetry(k, c) then BetweenSends(c.pc)
      else Returns(c, Response(status))
    case Some(Broke(err)) => c.pc == Errored(err) || c.pc == Judging(err)
    case Some(Judged(err, retryable)) =>
      if !retryable || !c.req.Replayable() then Returns(c, Failed(err))
      else if |c.sends| <= k.maxRetries then BetweenSends(c.pc)
      else Returns(c, Failed(Exhausted(Some(err))))
    case Some(Stuck(err)) => c.pc == RewindFailed(err) || Returns(c, Failed(Wrapped(LocalOp, err)))
    case Some(Denied(why)) =>
      c.pc == WaitFailed(why) || (why.Context? && c.pc == CancelPending(why)) || Returns(c, Failed(ErrorFor(why)))
    case Some(Quit(cause)) =>
      Returns(c, Failed(ErrorFor(Context(cause)))) && (c.sends == [] ==> k.maxConcurrent > 0)
    case Some(Blew) => Returns(c, Panicked)
  }

  // -------------------------------------------------------------------------
  // Every step obeys

  predicate Heeds(k: Config, c: Call, a: Act, t: int, w: Option<Word>)
    requires Can(k, c, a, t)
  {
    Obeys(k, Step(k, c, a, t), Heard(w, a))
  }

  lemma ArrivalHeeds(k: Config, c: Call, a: Act, t: int, w: Option<Word>)
    requires Obeys(k, c, w) && Counted(k, c) && Can(k, c, a, t) && Arrives(a)
    requires !c.refused && c.req.wellFormed
    ensures Heeds(k, c, a, t, w)
  {
    hide Pause;
  }

  lemma AtGateHeeds(k: Config, c: Call, a: Act, t: int, w: Option<Word>)
    requires Obeys(k, c, w) && Can(k, c, a, t) && AtGate(a)
    ensures Heeds(k, c, a, t, w)
  {
    hide Pause;
  }

  lemma AtBucketHeeds(k: Config, c: Call, a: Act, t: int, w: Option<Word>)
    requires Obeys(k, c, w) && Can(k, c, a, t) && AtBucket(a)
    ensures Heeds(k, c, a, t, w)
  {
    hide Pause;
  }

  lemma WaitRecordHeeds(k: Config, c: Call, a: Act, t: int, w: Option<Word>)
    requires Obeys(k, c, w) && Can(k, c, a, t) && (a.NoteWaitFailure? || a.NoteCancel? || a.NoteAttempt?)
    ensures Heeds(k, c, a, t, w)
  {
    hide Pause;
  }

  /** The delay that arms the gate is the pause asked for. */
  lemma PauseIsArmed(k: Config, status: int, h: Gate.Header)
    requires k.Valid() && k.retryAfterMax > 0 && Gate.Fits64(h)
    ensures Pause(k, status, h)
            == if Gate.AsksToWait(status) then Gate.Armed(h, k.retryAfterMax) else None
  {
    Gate.ArmedDelay(h, k.retryAfterMax);
    hide Gate.Armed;
  }

  lemma ResponseHeeds(k: Config, c: Call, w: Option<Word>)
    requires k.Valid() && Obeys(k, c, w) && c.pc.Answered? && Gate.Fits64(c.pc.header)
    ensures Obeys(k, AfterNoteResponse(k, c), w)
  {
    if k.retryAfterMax > 0 {
      PauseIsArmed(k, c.pc.status, c.pc.header);
    }
    hide Gate.Armed;
  }

  lemma OutcomeRecordHeeds(k: Config, c: Call, a: Act, t: int, w: Option<Word>)
    requires k.Valid() && Obeys(k, c, w) && DelayFits(k, c) && Can(k, c, a, t)
    requires a.NoteRewindFailure? || a.NoteResponse? || a.NoteError?
    ensures Heeds(k, c, a, t, w)
  {
    if a.NoteResponse? {
      ResponseHeeds(k, c, w);
    }
    hide Pause, AfterNoteResponse;
  }

  lemma RecordHeeds(k: Config, c: Call, a: Act, t: int, w: Option<Word>)
    requires k.Valid() && Obeys(k, c, w) && DelayFits(k, c) && Can(k, c, a, t) && Records(a)
    ensures Heeds(k, c, a, t, w)
  {
    hide Obeys, DelayFits, Can, Heeds;
    if a.NoteWaitFailure? || a.NoteCancel? || a.NoteAttempt? {
      WaitRecordHeeds(k, c, a, t, w);
    } else {
      OutcomeRecordHeeds(k, c, a, t, w);
    }
  }

  lemma TransportHeeds(k: Config, c: Call, a: Act, t: int, w: Option<Word>)
    requires Obeys(k, c, w) && Can(k, c, a, t) && AtTransport(a)
    ensures Heeds(k, c, a, t, w)
  {
    hide Pause, Payload;
  }

  /** What is said is one thing; whether to go on is the next. */
  lemma ArmHeeds(k: Config, c: Call, until: int, w: Option<Word>)
    requires Obeys(k, c, w) && Counted(k, c) && c.pc.Noted?
    ensures Obeys(k, AfterArm(k, c, until), w)
  {
    hide Pause;
  }

  lemma JudgeHeeds(k: Config, c: Call, retryable: bool, w: Option<Word>)
    requires Obeys(k, c, w) && Counted(k, c) && c.pc.Judging?
    ensures Obeys(k, AfterJudge(k, c, retryable), Heard(w, Judge(retryable)))
  {
    hide Pause;
  }

  lemma WaitHeeds(k: Config, c: Call, floor: int, t: int, w: Option<Word>)
    requires Obeys(k, c, w) && c.pc.RetryPending?
    ensures Obeys(k, AfterNoteRetry(c, floor, t), w)
  {
    hide Pause;
  }

  lemma DecisionHeeds(k: Config, c: Call, a: Act, t: int, w: Option<Word>)
    requires Obeys(k, c, w) && Counted(k, c) && Can(k, c, a, t) && Decides(a)
    ensures Heeds(k, c, a, t, w)
  {
    hide Pause, AfterArm, AfterJudge, AfterNoteRetry, Backoff.Possible;
    match a
    case Arm(at) => ArmHeeds(k, c, at + c.pc.delay, w);
    case Judge(retryable) => JudgeHeeds(k, c, retryable, w);
    case NoteRetry(floor) => WaitHeeds(k, c, floor, t, w);
    case Wake =>
    case AbandonBackoff(_) =>
  }

  lemma LeavingHeeds(k: Config, c: Call, a: Act, t: int, w: Option<Word>)
    requires Obeys(k, c, w) && Can(k, c, a, t) && Leaves(a)
    ensures Heeds(k, c, a, t, w)
  {
    hide Pause, Verdict;
  }

  /** Who can still take a step was fit to be sent and has not been refused. */
  predicate Proper(c: Call) {
    (!c.req.wellFormed ==> c.pc.Done? && c.ticket.None?) && (c.refused ==> c.pc.Done?)
  }

  lemma StepHeeds(k: Config, c: Call, a: Act, t: int, w: Option<Word>)
    requires k.Valid() && Obeys(k, c, w) && Counted(k, c) && DelayFits(k, c) && Proper(c) && Can(k, c, a, t)
    ensures Heeds(k, c, a, t, w)
  {
    assert !c.pc.Done? by {
      DoneIsDone(k, c, a, t);
    }
    hide Obeys, Counted, DelayFits, Can, Heeds;
    if Arrives(a) {
      ArrivalHeeds(k, c, a, t, w);
    } else if AtGate(a) {
      AtGateHeeds(k, c, a, t, w);
    } else if AtBucket(a) {
      AtBucketHeeds(k, c, a, t, w);
    } else if Records(a) {
      RecordHeeds(k, c, a, t, w);
    } else if AtTransport(a) {
      TransportHeeds(k, c, a, t, w);
    } else if Decides(a) {
      DecisionHeeds(k, c, a, t, w);
    } else {
      LeavingHeeds(k, c, a, t, w);
    }
  }

  lemma DoneIsDone(k: Config, c: Call, a: Act, t: int)
    requires Can(k, c, a, t)
    ensures !c.pc.Done?
  {
  }

  // -------------------------------------------------------------------------
  // The attempts of the past

  /** The call went on after this attempt: its error was judged retryable, or its
      response asked for a pause. */
  predicate WentOn(k: Config, w: Word, e: End) {
    match e
    case Failing(err) => w == Judged(err, true)
    case Asked(_) => w.Said? && Pause(k, w.status, w.header).Some?
  }

  ghost predicate AllWentOn(k: Config, e: seq<Word>, ends: seq<End>) {
    |ends| <= |e| && forall i | 0 <= i < |ends| :: WentOn(k, e[i], ends[i])
  }

  lemma OneMoreEnding(k: Config, e: seq<Word>, ends: seq<End>, w: Word, x: End)
    requires AllWentOn(k, e, ends)
    ensures AllWentOn(k, e + [w], ends)
    ensures |e| == |ends| && WentOn(k, w, x) ==> AllWentOn(k, e + [w], ends + [x])
    ensures |e| == |ends| + 1 && WentOn(k, e[|ends|], x) ==> AllWentOn(k, e, ends + [x])
  {
    hide WentOn;
  }

  /** What the call remembers of its attempts is what was said about them: `e` is
      how they ended, `w` the last word. */
  ghost predicate Recorded(k: Config, e: seq<Word>, w: Option<Word>, c: Call) {
    var n := |c.ends|;
    && AllWentOn(k, e, c.ends)
    && n <= |e| <= n + 1 && |e| <= |c.sends| && (n > 0 ==> c.req.Replayable())
    && (!Over(c.pc) && !c.pc.Noted? ==> |e| == n)
    && (c.pc.Noted? ==> |e| == n + 1 && w == Some(e[n]))
    && (|e| == n + 1 && e[n].Judged? ==> !(e[n].retryable && c.req.Replayable()))
  }

  lemma StorySnoc(story: seq<Act>, a: Act)
    ensures LastWord(story + [a]) == Heard(LastWord(story), a)
    ensures Endings(story + [a]) == Endings(story) + Ending(LastWord(story), a)
    ensures Launches(story + [a]) == Launches(story) + if a.Launch? then 1 else 0
    ensures HasBroken(story + [a]) <==> HasBroken(story) || a.Break?
  {
    assert (story + [a])[..|story|] == story;
  }

  lemma JudgeRecords(k: Config, e: seq<Word>, w: Option<Word>, c: Call, retryable: bool)
    requires Recorded(k, e, w, c) && Obeys(k, c, w) && Counted(k, c) && c.pc.Judging?
    ensures var a := Judge(retryable); Recorded(k, e + Ending(w, a), Heard(w, a), AfterJudge(k, c, retryable))
  {
    OneMoreEnding(k, e, c.ends, Judged(c.pc.err, retryable), Failing(c.pc.err));
    hide Pause, AllWentOn;
  }

  lemma ArmRecords(k: Config, e: seq<Word>, w: Option<Word>, c: Call, until: int)
    requires Recorded(k, e, w, c) && Obeys(k, c, w) && c.pc.Noted?
    ensures Recorded(k, e, w, AfterArm(k, c, until))
  {
    OneMoreEnding(k, e, c.ends, Blew, Asked(until));
    hide Pause, AllWentOn;
  }

  lemma ResponseRecords(k: Config, e: seq<Word>, w: Option<Word>, c: Call, d: Call)
    requires Recorded(k, e, w, c) && Obeys(k, c, w) && Counted(k, c) && c.pc.Answered?
    requires d.ends == c.ends && d.req == c.req && d.sends == c.sends && (d.pc.Noted? || Over(d.pc))
    ensures Recorded(k, e + Ending(w, NoteResponse), w, d)
  {
    OneMoreEnding(k, e, c.ends, Said(c.pc.status, c.pc.header), Asked(0));
    hide Pause, AllWentOn;
  }

  lemma NoteResponseLeads(k: Config, c: Call)
    requires c.pc.Answered?
    ensures var d := AfterNoteResponse(k, c);
            d.ends == c.ends && d.req == c.req && d.sends == c.sends && (d.pc.Noted? || Over(d.pc))
  {
  }

  lemma OtherRecords(k: Config, e: seq<Word>, w: Option<Word>, c: Call, a: Act, d: Call, t: int)
    requires Recorded(k, e, w, c) && Moves(k, c, a, d, t) && Keeps(c, a, d, t)
    requires !a.Judge? && !a.Arm? && !a.NoteResponse?
    ensures Recorded(k, e + Ending(w, a), Heard(w, a), d)
  {
    assert e + [] == e;
    hide Pause, Payload, AllWentOn;
  }

  lemma StepOfDecision(k: Config, c: Call, a: Act, t: int)
    requires Can(k, c, a, t)
    ensures a.Judge? ==> c.pc.Judging? && Step(k, c, a, t) == AfterJudge(k, c, a.retryable)
    ensures a.Arm? ==> c.pc.Noted? && Step(k, c, a, t) == AfterArm(k, c, a.at + c.pc.delay)
    ensures a.NoteResponse? ==> c.pc.Answered? && Step(k, c, a, t) == AfterNoteResponse(k, c)
  {
    hide AfterJudge, AfterArm, AfterNoteResponse;
  }

  lemma StepRecords(k: Config, e: seq<Word>, w: Option<Word>, c: Call, a: Act, t: int)
    requires Recorded(k, e, w, c) && Obeys(k, c, w) && Counted(k, c) && Can(k, c, a, t)
    ensures Recorded(k, e + Ending(w, a), Heard(w, a), Step(k, c, a, t))
  {
    StepOfDecision(k, c, a, t);
    assert a.Arm? ==> e + Ending(w, a) == e && Heard(w, a) == w;
    hide Recorded, Obeys, Counted, Can, Step, AfterJudge, AfterArm, AfterNoteResponse, Ending;
    if a.Judge? {
      JudgeRecords(k, e, w, c, a.retryable);
    } else if a.Arm? {
      ArmRecords(k, e, w, c, a.at + c.pc.delay);
    } else if a.NoteResponse? {
      NoteResponseLeads(k, c);
      ResponseRecords(k, e, w, c, Step(k, c, a, t));
    } else {
      EveryStepMoves(k, c, a, t);
      EveryStepKeeps(k, c, a, t);
      OtherRecords(k, e, w, c, a, Step(k, c, a, t), t);
    }
  }

  // -------------------------------------------------------------------------
  // Runs

  /** A wait between attempts begins with its record. */
  predicate InOrder(story: seq<Act>, c: Call) {
    BetweenSends(c.pc) ==>
      story != [] && var a := story[|story| - 1];
                     if c.pc.RetryPending? then a.Judge? || a.Arm? else a.NoteRetry?
  }

  /** When a wait ends: after the backoff, and not before the deadline asked for. */
  function WakeTime(w: Wait): int {
    var earliest := w.begun + w.floor;
    if w.notBefore.Some? && earliest < w.notBefore.value then w.notBefore.value else earliest
  }

  predicate WaitsExactly(c: Call) {
    c.pc.Backing? ==> c.waits != [] && c.pc.wakeAt == WakeTime(c.waits[|c.waits| - 1])
  }

  /** The call is what its story makes of it. */
  ghost predicate Told(k: Config, story: seq<Act>, c: Call) {
    && Obeys(k, c, LastWord(story)) && Recorded(k, Endings(story), LastWord(story), c) && Proper(c) && InOrder(story, c)
    && |c.sends| == Launches(story) && WaitsExactly(c)
    && (HasBroken(story) <==> c.lastErr.Some? || c.pc.Errored?)
  }

  lemma NewIsTold(k: Config, req: Request, now: int)
    ensures Told(k, [], NewCall(req, now))
  {
  }

  lemma StaysInOrder(k: Config, story: seq<Act>, c: Call, a: Act, t: int)
    requires Can(k, c, a, t)
    ensures InOrder(story + [a], Step(k, c, a, t))
  {
    EveryStepKeeps(k, c, a, t);
    hide Can, Step;
  }

  lemma StaysProper(k: Config, c: Call, a: Act, t: int)
    requires Proper(c) && Can(k, c, a, t)
    ensures Proper(Step(k, c, a, t))
  {
    DoneIsDone(k, c, a, t);
    EveryStepKeeps(k, c, a, t);
    hide Can, Step;
  }

  lemma WaitIsExact(k: Config, c: Call, floor: int, t: int)
    requires Can(k, c, NoteRetry(floor), t)
    ensures WaitsExactly(Step(k, c, NoteRetry(floor), t))
  {
    hide Backoff.Possible;
  }

  lemma StaysExact(k: Config, c: Call, a: Act, t: int)
    requires Can(k, c, a, t)
    ensures WaitsExactly(Step(k, c, a, t))
  {
    EveryStepKeeps(k, c, a, t);
    hide Can, Step;
    if a.NoteRetry? {
      WaitIsExact(k, c, a.floor, t);
    }
  }

  lemma StepTells(k: Config, story: seq<Act>, c: Call, a: Act, t: int)
    requires Told(k, story, c) && CallInv(k, c, t) && Can(k, c, a, t)
    ensures Told(k, story + [a], Step(k, c, a, t))
  {
    assert Counted(k, c) && DelayFits(k, c) && k.Valid();
    hide CallInv, Obeys, Recorded, Proper, InOrder, WaitsExactly, Can, Step, Counted, DelayFits, Endings, LastWord,
      Launches, HasBroken;
    StepHeeds(k, c, a, t, LastWord(story));
    StepRecords(k, Endings(story), LastWord(story), c, a, t);
    StaysInOrder(k, story, c, a, t);
    StaysProper(k, c, a, t);
    StaysExact(k, c, a, t);
    EveryStepMoves(k, c, a, t);
    EveryStepKeeps(k, c, a, t);
    StorySnoc(story, a);
  }

  /** A run from the start. */
  ghost predicate Run(k: Config, t0: int, es: seq<Event>) { SECOND <= t0 && CanRun(k, Init(k, t0), es) }

  ghost function Now(k: Config, t0: int, es: seq<Event>): State
    requires Run(k, t0, es)
  {
    After(k, Init(k, t0), es)
  }

  ghost predicate ToldOf(k: Config, story: seq<Act>, calls: Calls, id: nat) {
    if id in calls then Told(k, story, calls[id]) else story == []
  }

  ghost predicate AllTold(k: Config, es: seq<Event>, calls: Calls) {
    forall id: nat :: ToldOf(k, Story(es, id), calls, id)
  }

  lemma StoryOfRun(es: seq<Event>, e: Event, id: nat)
    ensures Story(es + [e], id) == Story(es, id) + if e.Do? && e.id == id then [e.act] else []
  {
    assert (es + [e])[..|es|] == es;
  }

  lemma CallsAfter(k: Config, s: State, e: Event)
    requires Enabled(k, s, e)
    ensures e.Do? ==> e.id in s.calls && Can(k, s.calls[e.id], e.act, s.clock)
    ensures Next(k, s, e).calls
            == match e
               case Begin(id, req) => s.calls[id := NewCall(req, s.clock)]
               case Do(id, a) => s.calls[id := Step(k, s.calls[id], a, s.clock)]
               case _ => s.calls
  {
    hide Can, EffectOf, Step, NewCall, BreakerAfter, AccountsAfter, BucketAfter, GateAfter, Permits;
  }

  lemma CallOfInv(k: Config, s: State, id: nat)
    requires Inv(k, s) && id in s.calls
    ensures CallInv(k, s.calls[id], s.clock)
  {
    hide CallInv;
  }

  lemma CallTells(k: Config, s: State, story: seq<Act>, e: Event, id: nat)
    requires k.Valid() && Inv(k, s) && ToldOf(k, story, s.calls, id) && Enabled(k, s, e)
    ensures ToldOf(k, story + if e.Do? && e.id == id then [e.act] else [], Next(k, s, e).calls, id)
  {
    CallsAfter(k, s, e);
    assert e.Begin? ==> e.id !in s.calls;
    hide Inv, Enabled, Next, Told, NewCall, Can, Step;
    assert story + [] == story;
    if e.Begin? && e.id == id {
      NewIsTold(k, e.req, s.clock);
    } else if e.Do? && e.id == id {
      CallOfInv(k, s, id);
      StepTells(k, story, s.calls[id], e.act, s.clock);
    }
  }

  lemma NextTells(k: Config, s: State, es: seq<Event>, e: Event)
    requires k.Valid() && Inv(k, s) && AllTold(k, es, s.calls) && Enabled(k, s, e)
    ensures AllTold(k, es + [e], Next(k, s, e).calls)
  {
    hide Inv, Enabled, Next, ToldOf, Story;
    forall id: nat ensures ToldOf(k, Story(es + [e], id), Next(k, s, e).calls, id) {
      StoryOfRun(es, e, id);
      CallTells(k, s, Story(es, id), e, id);
    }
  }

  lemma NothingTold(k: Config, t0: int)
    ensures AllTold(k, [], Init(k, t0).calls)
  {
  }

  /** In every run, every call is what its story makes of it. */
  lemma {:induction false} RunTells(k: Config, t0: int, es: seq<Event>)
    requires k.Valid() && Run(k, t0, es)
    ensures AllTold(k, es, Now(k, t0, es).calls) && Inv(k, Now(k, t0, es))
    decreases |es|
  {
    hide Inv, Enabled, Next, ToldOf;
    InitInv(k, t0);
    assert es == [] ==> AllTold(k, es, Init(k, t0).calls) by {
      NothingTold(k, t0);
    }
    if es != [] {
      var front, e := es[..|es| - 1], es[|es| - 1];
      RunFront(k, Init(k, t0), es);
      RunTells(k, t0, front);
      hide Init;
      NextInv(k, Now(k, t0, front), e);
      NextTells(k, Now(k, t0, front), front, e);
      assert front + [e] == es;
    }
  }

  lemma CallIsTold(k: Config, t0: int, es: seq<Event>, id: nat)
    requires k.Valid() && Run(k, t0, es) && id in Now(k, t0, es).calls
    ensures Told(k, Story(es, id), Now(k, t0, es).calls[id])
    ensures CallInv(k, Now(k, t0, es).calls[id], Now(k, t0, es).clock)
  {
    hide Run, Now, Inv, Told, CallInv, Story;
    RunTells(k, t0, es);
    CallOfInv(k, Now(k, t0, es), id);
    assert ToldOf(k, Story(es, id), Now(k, t0, es).calls, id);
  }

  /** What the invariants tell about a call at some point of a run. */
  lemma CallObeys(k: Config, t0: int, es: seq<Event>, id: nat)
    requires k.Valid() && Run(k, t0, es) && id in Now(k, t0, es).calls
    ensures var c := Now(k, t0, es).calls[id];
            && Obeys(k, c, LastWord(Story(es, id))) && Counted(k, c) && DelayFits(k, c) && Proper(c)
            && Punctual(c, Now(k, t0, es).clock)
  {
    hide Run, Now, Obeys, Recorded, Counted, DelayFits, Proper, Punctual, Story, LastWord, Endings, Launches;
    CallIsTold(k, t0, es, id);
  }
}
