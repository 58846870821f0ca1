/** What becomes of a response that asks for a pause, in every run. */
module Asking {
  import opened Arith
  import opened Errors
  import Gate
  import opened DoCalls
  import opened CallInvs
  import opened Circuit
  import Pausing
  import opened Chronicle
  import opened Retrying

  /** Recording a response leads to the gate exactly when the response asks for a
      pause; else the response is returned. */
  lemma ResponseStep(k: Config, c: Call, t: int, w: Option<Word>)
    requires k.Valid() && Obeys(k, c, w) && DelayFits(k, c) && Can(k, c, NoteResponse, t)
    ensures c.pc.Answered? && w == Some(Said(c.pc.status, c.pc.header))
    ensures var d, pause := Step(k, c, NoteResponse, t), Pause(k, c.pc.status, c.pc.header);
            && d.sends == c.sends && d.req == c.req
            && if pause.Some? then d.pc == Noted(c.pc.status, pause.value) else Returns(d, Response(c.pc.status))
  {
    if k.retryAfterMax > 0 {
      PauseIsArmed(k, c.pc.status, c.pc.header);
    }
    hide Gate.Armed, Pause;
  }

  /** In every run a recorded response is either on its way to the gate, with the
      pause that it asks for, or returned for good. */
  lemma ResponseDecides(k: Config, t0: int, es: seq<Event>, i: nat, id: nat)
    requires k.Valid() && Run(k, t0, es) && i < |es| && es[i] == Do(id, NoteResponse)
    ensures Run(k, t0, es[..i]) && Run(k, t0, es[..i + 1])
    ensures var s, d := Now(k, t0, es[..i]), Now(k, t0, es[..i + 1]);
            && id in s.calls && s.calls[id].pc.Answered? && id in d.calls
            && var status, h := s.calls[id].pc.status, s.calls[id].pc.header;
               && LastWord(Story(es[..i], id)) == Some(Said(status, h))
               && match Pause(k, status, h)
                  case Some(delay) => d.calls[id].pc == Noted(status, delay)
                  case None => Final(Now(k, t0, es), id, Response(status), s.calls[id].sends)
  {
    hide Run, Now, CanRun, After, Enabled, Next, Obeys, Can, Step, DelayFits, Story, LastWord, Pause;
    EventOfRun(k, t0, es, i);
    var s := Now(k, t0, es[..i]);
    CallsAfter(k, s, es[i]);
    CallObeys(k, t0, es[..i], id);
    var c, w := s.calls[id], LastWord(Story(es[..i], id));
    ResponseStep(k, c, s.clock, w);
    if Pause(k, c.pc.status, c.pc.header).None? {
      OverForGood(k, Next(k, s, es[i]), es[i + 1..], id, Response(c.pc.status), c.sends);
    }
  }

  lemma ArmStep(k: Config, c: Call, at: int, t: int, w: Option<Word>)
    requires Obeys(k, c, w) && Counted(k, c) && Can(k, c, Arm(at), t)
    ensures c.pc.Noted? && w.Some? && w.value.Said? && c.start <= at <= t
    ensures Pause(k, w.value.status, w.value.header) == Some(c.pc.delay) && c.pc.status == w.value.status
    ensures var d := Step(k, c, Arm(at), t);
            && d.sends == c.sends
            && if MayRetry(k, c) then d.pc == RetryPending(Some(at + c.pc.delay)) else Returns(d, Response(c.pc.status))
  {
    hide Pause;
  }

  /** In every run the gate is armed with the time of the arming and the pause that
      the response asks for; after that the call retries, not before that deadline, if
      it may, and returns the response for good if not. */
  lemma ArmingDecides(k: Config, t0: int, es: seq<Event>, i: nat, id: nat, at: int)
    requires k.Valid() && Run(k, t0, es) && i < |es| && es[i] == Do(id, Arm(at))
    ensures Run(k, t0, es[..i]) && Run(k, t0, es[..i + 1])
    ensures var s, d, w := Now(k, t0, es[..i]), Now(k, t0, es[..i + 1]), LastWord(Story(es[..i], id));
            && id in s.calls && id in d.calls && w.Some? && w.value.Said?
            && var c, status, pause := s.calls[id], w.value.status, Pause(k, w.value.status, w.value.header);
               && pause.Some? && c.start <= at <= s.clock
               && d.gate == Gate.Max(s.gate, Wrap(at + pause.value))
               && if MayRetry(k, c) then d.calls[id].pc == RetryPending(Some(at + pause.value))
                  else Final(Now(k, t0, es), id, Response(status), c.sends)
  {
    hide Run, Now, CanRun, After, Enabled, Next, Obeys, Can, Step, Counted, Story, LastWord, Pause, MayRetry, Wrap,
      Gate.Max;
    EventOfRun(k, t0, es, i);
    var s := Now(k, t0, es[..i]);
    CallsAfter(k, s, es[i]);
    CallObeys(k, t0, es[..i], id);
    var c, w := s.calls[id], LastWord(Story(es[..i], id));
    ArmStep(k, c, at, s.clock, w);
    Pausing.ArmsWith(k, s, id, at);
    if !MayRetry(k, c) {
      OverForGood(k, Next(k, s, es[i]), es[i + 1..], id, Response(c.pc.status), c.sends);
    }
  }

  /** A response whose date has passed does not move the gate beyond the clock of its
      arming, however high the maximum is. */
  lemma PastDateIsHarmless(k: Config, t0: int, es: seq<Event>, i: nat, id: nat, at: int)
    requires k.Valid() && Run(k, t0, es) && i < |es| && es[i] == Do(id, Arm(at))
    requires var w := LastWord(Story(es[..i], id));
             w.Some? && w.value.Said? && w.value.header.Date? && w.value.header.ahead <= 0
    ensures Run(k, t0, es[..i]) && Run(k, t0, es[..i + 1])
    ensures var s, d := Now(k, t0, es[..i]), Now(k, t0, es[..i + 1]);
            d.gate == s.gate || (s.gate < d.gate <= s.clock)
  {
    var w := LastWord(Story(es[..i], id)).value;
    ArmingDecides(k, t0, es, i, id, at);
    assert Pause(k, w.status, w.header) == Some(0);
    CallObeys(k, t0, es[..i], id);
    hide Run, Now, Obeys, Story, LastWord, Pause, Wrap;
    WrapRange(at);
  }
}
