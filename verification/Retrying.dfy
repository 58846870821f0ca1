/** What becomes of a call once something has been said: how it ends, and when it
    goes on, in every run. */
module Retrying {
  import opened Errors
  import Ledger
  import opened DoCalls
  import opened CallInvs
  import opened Circuit
  import opened Runs
  import opened Sending
  import opened Chronicle

  /** In every run every call is where its last word demands, and has sent what its
      story says it sent. */
  lemma LastWordDecides(k: Config, t0: int, es: seq<Event>, id: nat)
    requires k.Valid() && Run(k, t0, es) && id in Now(k, t0, es).calls
    ensures var c := Now(k, t0, es).calls[id];
            Obeys(k, c, LastWord(Story(es, id))) && |c.sends| == Launches(Story(es, id))
  {
    CallIsTold(k, t0, es, id);
    hide Run, Now, CallInv, Obeys, Recorded, Story, LastWord, Launches;
  }

  /** A run up to some point, and from there on. */
  lemma {:induction false} RunSplit(k: Config, s: State, es: seq<Event>, i: nat)
    requires CanRun(k, s, es) && i <= |es|
    ensures CanRun(k, s, es[..i]) && CanRun(k, After(k, s, es[..i]), es[i..])
    ensures After(k, s, es) == After(k, After(k, s, es[..i]), es[i..])
    decreases i
  {
    hide Enabled, Next;
    if i == 0 {
      assert es[..0] == [] && es[0..] == es;
    } else {
      assert es[..i][0] == es[0] && es[..i][1..] == es[1..][..i - 1] && es[1..][i - 1..] == es[i..];
      RunSplit(k, Next(k, s, es[0]), es[1..], i - 1);
    }
  }

  // -------------------------------------------------------------------------
  // The end is the end

  /** The call has come out of its loop with that result and those sends. */
  predicate Final(s: State, id: nat, r: Result, sends: seq<Send>) {
    id in s.calls && Returns(s.calls[id], r) && s.calls[id].sends == sends
  }

  lemma NextEnded(k: Config, s: State, e: Event, id: nat, r: Result, sends: seq<Send>)
    requires Final(s, id, r, sends) && Enabled(k, s, e)
    ensures Final(Next(k, s, e), id, r, sends)
  {
    CallsAfter(k, s, e);
    assert e.Begin? ==> e.id !in s.calls;
    if e.Do? {
      EveryStepMoves(k, s.calls[e.id], e.act, s.clock);
      EveryStepKeeps(k, s.calls[e.id], e.act, s.clock);
    }
    hide Enabled, Next, Step, Can, NewCall, Payload;
  }

  /** Nothing changes the result of a call that is over, and it sends no more. */
  lemma {:induction false} OverForGood(k: Config, s: State, es: seq<Event>, id: nat, r: Result, sends: seq<Send>)
    requires CanRun(k, s, es) && Final(s, id, r, sends)
    ensures Final(After(k, s, es), id, r, sends)
    decreases |es|
  {
    hide Enabled, Next, Final;
    if es != [] {
      NextEnded(k, s, es[0], id, r, sends);
      OverForGood(k, Next(k, s, es[0]), es[1..], id, r, sends);
    }
  }

  // -------------------------------------------------------------------------
  // The judgement

  /** What the judgement leads to at once. */
  lemma JudgementStep(k: Config, c: Call, retryable: bool, t: int, w: Option<Word>)
    requires k.Valid() && Obeys(k, c, w) && Counted(k, c) && DelayFits(k, c) && Proper(c)
    requires Can(k, c, Judge(retryable), t) && w.Some? && w.value.Broke?
    ensures var d := Step(k, c, Judge(retryable), t);
            && d.sends == c.sends && d.req == c.req
            && (!retryable || !c.req.Replayable() ==> Returns(d, Failed(w.value.err)))
            && (retryable && c.req.Replayable() && |c.sends| <= k.maxRetries ==> d.pc.RetryPending?)
            && (retryable && c.req.Replayable() && |c.sends| > k.maxRetries ==>
                  Returns(d, Failed(Exhausted(Some(w.value.err)))))
  {
    StepHeeds(k, c, Judge(retryable), t, w);
    StaysInOrder(k, [], c, Judge(retryable), t);
    EveryStepMoves(k, c, Judge(retryable), t);
    EveryStepKeeps(k, c, Judge(retryable), t);
    hide Can, Step, Counted, DelayFits, Payload;
  }

  lemma JudgingMeansBroke(k: Config, c: Call, w: Option<Word>, retryable: bool, t: int)
    requires Obeys(k, c, w) && Can(k, c, Judge(retryable), t)
    ensures c.pc.Judging? && w == Some(Broke(c.pc.err))
  {
    hide Pause;
  }

  lemma EventOfRun(k: Config, t0: int, es: seq<Event>, i: nat)
    requires Run(k, t0, es) && i < |es|
    ensures Run(k, t0, es[..i]) && Enabled(k, Now(k, t0, es[..i]), es[i])
    ensures CanRun(k, Next(k, Now(k, t0, es[..i]), es[i]), es[i + 1..])
    ensures Run(k, t0, es[..i + 1]) && Now(k, t0, es[..i + 1]) == Next(k, Now(k, t0, es[..i]), es[i])
    ensures Now(k, t0, es) == After(k, Next(k, Now(k, t0, es[..i]), es[i]), es[i + 1..])
  {
    hide Enabled, Next, Init;
    RunSplit(k, Init(k, t0), es, i);
    RunSplit(k, Init(k, t0), es, i + 1);
    assert es[i..][0] == es[i] && es[i..][1..] == es[i + 1..];
    RunFront(k, Init(k, t0), es[..i + 1]);
    assert es[..i + 1][..i] == es[..i];
  }

  /** What `Do` makes of the judgement of a transport error, in every run: if it is
      not to be retried, or its body cannot be, the call sends no more and returns
      exactly that error; if it is and no attempt is left, the call sends no more and
      returns that it has exhausted its retries; otherwise it retries. */
  lemma JudgementDecides(k: Config, t0: int, es: seq<Event>, i: nat, id: nat, retryable: bool)
    requires k.Valid() && Run(k, t0, es) && i < |es| && es[i] == Do(id, Judge(retryable))
    ensures Run(k, t0, es[..i]) && Run(k, t0, es[..i + 1])
    ensures var s := Now(k, t0, es[..i]);
            && id in s.calls && s.calls[id].pc.Judging? && id in Now(k, t0, es[..i + 1]).calls
            && var c, err, d := s.calls[id], s.calls[id].pc.err, Now(k, t0, es[..i + 1]).calls[id];
               && LastWord(Story(es[..i], id)) == Some(Broke(err))
               && (!retryable || !c.req.Replayable() ==> Final(Now(k, t0, es), id, Failed(err), c.sends))
               && (retryable && c.req.Replayable() && |c.sends| > k.maxRetries ==>
                     Final(Now(k, t0, es), id, Failed(Exhausted(Some(err))), c.sends))
               && (retryable && c.req.Replayable() && |c.sends| <= k.maxRetries ==> d.pc.RetryPending?)
  {
    hide Run, Now, CanRun, After, Enabled, Next, Obeys, Can, Step, Counted, DelayFits, Proper, Story, LastWord;
    EventOfRun(k, t0, es, i);
    var s := Now(k, t0, es[..i]);
    CallsAfter(k, s, es[i]);
    CallObeys(k, t0, es[..i], id);
    var c, w := s.calls[id], LastWord(Story(es[..i], id));
    JudgingMeansBroke(k, c, w, retryable, s.clock);
    JudgementStep(k, c, retryable, s.clock, w);
    var next := Next(k, s, es[i]);
    if !retryable || !c.req.Replayable() {
      OverForGood(k, next, es[i + 1..], id, Failed(c.pc.err), c.sends);
    } else if |c.sends| > k.maxRetries {
      OverForGood(k, next, es[i + 1..], id, Failed(Exhausted(Some(c.pc.err))), c.sends);
    }
  }

  /** A retry that has been decided on is recorded by the very next step of the call,
      which can do nothing else; the wait that begins then lasts for the backoff, and
      for the pause that the response asked for. */
  lemma RetryIsRecordedNext(k: Config, c: Call, a: Act, t: int)
    requires c.pc.RetryPending? && Can(k, c, a, t)
    ensures a.NoteRetry? && EffectOf(k, c, a, t) == Booked(Ledger.Retried)
    ensures var d := Step(k, c, a, t); d.pc.Backing? && d.waits == c.waits + [Wait(t, a.floor, c.pc.until)]
  {
    EveryStepKeeps(k, c, a, t);
  }

  /** In every run a wait between two attempts ends exactly one backoff after it
      began, or at the deadline asked for if that is later; it can end then. */
  lemma WaitEndsOnTime(k: Config, t0: int, es: seq<Event>, id: nat)
    requires k.Valid() && Run(k, t0, es)
    requires id in Now(k, t0, es).calls && Now(k, t0, es).calls[id].pc.Backing?
    ensures var c := Now(k, t0, es).calls[id];
            && c.waits != [] && c.pc.wakeAt == WakeTime(c.waits[|c.waits| - 1])
            && (c.pc.wakeAt <= Now(k, t0, es).clock ==> Enabled(k, Now(k, t0, es), Do(id, Wake)))
  {
    hide *;
    CallIsTold(k, t0, es, id);
    ToldWaits(k, Story(es, id), Now(k, t0, es).calls[id]);
    CanWake(k, Now(k, t0, es), id);
  }

  lemma ToldWaits(k: Config, story: seq<Act>, c: Call)
    requires Told(k, story, c) && c.pc.Backing?
    ensures c.waits != [] && c.pc.wakeAt == WakeTime(c.waits[|c.waits| - 1])
  {
  }

  lemma CanWake(k: Config, s: State, id: nat)
    requires id in s.calls && s.calls[id].pc.Backing?
    ensures s.calls[id].pc.wakeAt <= s.clock ==> Enabled(k, s, Do(id, Wake))
  {
  }

  // -------------------------------------------------------------------------
  // Exhaustion

  /** After this attempt the loop goes on, or would. */
  predicate GoesOn(k: Config, w: Word) {
    (w.Judged? && w.retryable) || (w.Said? && Pause(k, w.status, w.header).Some?)
  }

  lemma ToldExhausts(k: Config, story: seq<Act>, c: Call, t: int)
    requires Told(k, story, c) && CallInv(k, c, t) && k.maxRetries >= 0
    ensures var e := Endings(story);
            && (c.exhausted
                <==> && |e| == k.maxRetries + 1 && (forall i | 0 <= i < |e| :: GoesOn(k, e[i]))
                     && e[k.maxRetries].Judged? && c.req.Replayable())
            && (c.exhausted ==> && |c.sends| == k.maxRetries + 1
                                && Returns(c, Failed(Exhausted(Some(e[k.maxRetries].err)))))
  {
    assert Counted(k, c) && Ended(k, c) && Recorded(k, Endings(story), LastWord(story), c);
    hide CallInv, Told, Endings, LastWord, Launches, Pause;
  }

  /** In every run a call reports exhaustion exactly when its body can be sent again,
      every attempt permitted was made and ended in a transport error judged
      retryable or in a response that asked for a pause, and the last one in such an
      error, which is what the report unwraps to. */
  lemma ExhaustionLaw(k: Config, t0: int, es: seq<Event>, id: nat)
    requires k.Valid() && Run(k, t0, es) && k.maxRetries >= 0 && id in Now(k, t0, es).calls
    ensures var c, e := Now(k, t0, es).calls[id], Endings(Story(es, id));
            && (c.exhausted
                <==> && |e| == k.maxRetries + 1 && (forall i | 0 <= i < |e| :: GoesOn(k, e[i]))
                     && e[k.maxRetries].Judged? && c.req.Replayable())
            && (c.exhausted ==> && |c.sends| == k.maxRetries + 1
                                && Returns(c, Failed(Exhausted(Some(e[k.maxRetries].err)))))
  {
    var s := Now(k, t0, es);
    hide *;
    CallIsTold(k, t0, es, id);
    ToldExhausts(k, Story(es, id), s.calls[id], s.clock);
  }
}
