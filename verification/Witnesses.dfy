/** Runs that show what can go wrong: calls that are counted against the
    downstream although the caller ended them, or although nothing was sent. */
module Witnesses {
  import opened Arith
  import opened Errors
  import Backoff
  import opened DoCalls
  import opened Circuit
  import opened Runs

  /** Some reachable call has ended like this, after so many attempts, and was
      reported as a failure. */
  ghost predicate CountsAsFailure(k: Config, r: Result, sent: nat) {
    exists s: State, id: nat | id in s.calls && Reachable(k, s) ::
      && s.calls[id].pc == Done(r) && |s.calls[id].sends| == sent
      && s.calls[id].reported == Some(Failure)
  }

  /** One step of call 0 whose outcome is known. */
  lemma Move(k: Config, s: State, a: Act, c: Call) returns (d: State)
    requires Reachable(k, s) && 0 in s.calls && Enabled(k, s, Do(0, a)) && Step(k, s.calls[0], a, s.clock) == c
    ensures Reachable(k, d) && d.clock == s.clock && 0 in d.calls && d.calls[0] == c
    ensures EffectOf(k, s.calls[0], a, s.clock).Raised? || d.gate == s.gate
    ensures d.bucket.done == s.bucket.done
  {
    hide Reachable, Enabled, Step, EffectOf;
    d := Go(k, s, 0, a);
  }

  /** A call with a result leaves and reports. */
  lemma LeavesSlot(k: Config, s: State) returns (d: State)
    requires Reachable(k, s) && 0 in s.calls && s.calls[0].pc.Returning?
    ensures Reachable(k, d) && d.clock == s.clock && 0 in d.calls
    ensures d.calls[0] == s.calls[0].(pc := Reporting(s.calls[0].pc.result), slot := false)
  {
    hide Reachable;
    d := Move(k, s, ReleaseSlot, s.calls[0].(pc := Reporting(s.calls[0].pc.result), slot := false));
  }

  lemma Files(k: Config, s: State) returns (d: State)
    requires Reachable(k, s) && 0 in s.calls && s.calls[0].pc.Reporting? && s.calls[0].ticket.Some?
    ensures Reachable(k, d) && 0 in d.calls
    ensures var c := s.calls[0];
            && d.calls[0].pc == Done(c.pc.result) && d.calls[0].sends == c.sends
            && d.calls[0].reported == Some(Verdict(c.pc.result, c.lastErr.Some?, k.statusFailMin))
  {
    hide Reachable, Verdict;
    var c := s.calls[0];
    d := Move(k, s, FileReport,
              c.(pc := Done(c.pc.result),
                 reported := Some(Verdict(c.pc.result, c.lastErr.Some?, k.statusFailMin))));
  }

  lemma EndsInFailure(k: Config, s: State)
    requires Reachable(k, s) && 0 in s.calls && s.calls[0].pc.Returning? && s.calls[0].ticket.Some?
    requires Verdict(s.calls[0].pc.result, s.calls[0].lastErr.Some?, k.statusFailMin) == Failure
    ensures CountsAsFailure(k, s.calls[0].pc.result, |s.calls[0].sends|)
  {
    hide Reachable, Verdict;
    var leaving := LeavesSlot(k, s);
    var gone := Files(k, leaving);
    assert 0 in gone.calls && gone.calls[0].pc == Done(s.calls[0].pc.result);
  }

  /** With a negative retry limit every configuration with a circuit has a run of
      five events that fails, against the downstream, without an attempt. */
  lemma UnsentFailureHappens(k: Config)
    requires k.Valid() && k.breaker.Some? && k.maxRetries < 0
    ensures CountsAsFailure(k, Failed(Exhausted(None)), 0)
  {
    var s := SlotTaken(k, SECOND, Request(true, "", "", None, false));
    assert Verdict(Failed(Exhausted(None)), false, k.statusFailMin) == Failure;
    hide Reachable, Verdict, CountsAsFailure;
    EndsInFailure(k, s);
  }

  /** The transport fails. */
  lemma Fails(k: Config, req: Request, err: Err) returns (s: State)
    requires k.Valid() && k.maxRetries >= 0 && req.wellFormed
    ensures Reachable(k, s) && 0 in s.calls && s.gate == 0 && s.clock == SECOND && !s.bucket.done
    ensures var c := s.calls[0];
            && c.pc == Errored(err) && c.attempt == 0 && |c.sends| == 1 && c.req == req
            && c.ticket.Some? == k.breaker.Some?
  {
    s := SentOnce(k, SECOND, req);
    hide Reachable;
    s := Move(k, s, Break(err), s.calls[0].(pc := Errored(err)));
  }

  lemma Judged(k: Config, req: Request, err: Err) returns (s: State)
    requires k.Valid() && k.maxRetries >= 0 && req.wellFormed
    ensures Reachable(k, s) && 0 in s.calls && s.gate == 0 && s.clock == SECOND && !s.bucket.done
    ensures var c := s.calls[0];
            && c.pc == Judging(err) && c.lastErr == Some(err) && c.attempt == 0 && |c.sends| == 1
            && c.req == req && c.ticket.Some? == k.breaker.Some?
  {
    s := Fails(k, req, err);
    hide Reachable;
    s := Move(k, s, NoteError, s.calls[0].(pc := Judging(err), lastErr := Some(err), account := Settled));
  }

  /** Whatever the configuration, a cancellation that the transport joins with a
      deadline is counted against the downstream by the first attempt already. */
  lemma CancelledCallCounts(k: Config)
    requires k.Valid() && k.breaker.Some? && k.maxRetries >= 0
    ensures CountsAsFailure(k, Failed(CancelledLate()), 1) && Is(CancelledLate(), Canceled)
  {
    JoinedCancelCanFail(k.statusFailMin);
    hide Reachable, Verdict, CountsAsFailure, Is, CancelledLate;
    var s := Judged(k, Request(true, "", "", None, false), CancelledLate());
    s := Move(k, s, Judge(false), s.calls[0].(pc := Returning(Failed(CancelledLate()))));
    EndsInFailure(k, s);
  }

  // -------------------------------------------------------------------------
  // A body that cannot be read again in time

  const REWINDABLE := Request(true, "", "", Some([]), true)

  /** The first attempt has failed, and the second one begins. */
  lemma BacksOff(k: Config) returns (s: State)
    requires k.Valid() && k.maxRetries >= 1
    ensures Reachable(k, s) && 0 in s.calls && s.gate == 0 && s.clock == SECOND && !s.bucket.done
    ensures var c := s.calls[0];
            && c.pc.Backing? && c.lastErr.Some? && c.attempt == 0 && |c.sends| == 1
            && c.req == REWINDABLE && c.ticket.Some? == k.breaker.Some?
  {
    hide Reachable;
    s := Judged(k, REWINDABLE, Sentinel(Plain));
    s := Move(k, s, Judge(true),
              s.calls[0].(pc := RetryPending(None), ends := s.calls[0].ends + [Failing(Sentinel(Plain))]));
    var floor := Backoff.SomeWait(k.backoff, 0);
    hide Backoff.Possible;
    s := Move(k, s, NoteRetry(floor), AfterNoteRetry(s.calls[0], floor, s.clock));
  }

  lemma WakesUp(k: Config) returns (s: State)
    requires k.Valid() && k.maxRetries >= 1
    ensures Reachable(k, s) && 0 in s.calls && s.gate == 0 && s.clock >= 0 && !s.bucket.done
    ensures var c := s.calls[0];
            && c.pc.LoopHead? && c.lastErr.Some? && c.attempt == 1 && |c.sends| == 1
            && c.req == REWINDABLE && c.ticket.Some? == k.breaker.Some?
  {
    hide Reachable;
    var asleep := BacksOff(k);
    var wakeAt := asleep.calls[0].pc.wakeAt;
    var e := Pass(if wakeAt < asleep.clock then asleep.clock else wakeAt);
    Extend(k, asleep, e);
    s := Next(k, asleep, e);
    s := Move(k, s, Wake, s.calls[0].(pc := LoopHead, attempt := 1, start := s.clock));
  }

  lemma PassesGate(k: Config) returns (s: State)
    requires k.Valid() && k.maxRetries >= 1
    ensures Reachable(k, s) && 0 in s.calls && !s.bucket.done
    ensures var c := s.calls[0];
            && c.pc.TokenFast? && c.lastErr.Some? && c.attempt == 1 && |c.sends| == 1
            && c.req == REWINDABLE && c.ticket.Some? == k.breaker.Some?
  {
    hide Reachable;
    s := WakesUp(k);
    if k.retryAfterMax > 0 {
      s := Move(k, s, ReadGate(0), s.calls[0].(pc := GateRead(0)));
    }
    s := Move(k, s, PassGate, s.calls[0].(pc := TokenFast, emptyAt := None));
  }

  lemma ReachesToken(k: Config) returns (s: State)
    requires k.Valid() && k.maxRetries >= 1
    ensures Reachable(k, s) && 0 in s.calls
    ensures var c := s.calls[0];
            && c.pc.HasToken? && c.lastErr.Some? && c.attempt == 1 && |c.sends| == 1
            && c.req == REWINDABLE && c.ticket.Some? == k.breaker.Some?
  {
    hide Reachable;
    s := PassesGate(k);
    if k.plan.None? {
      s := Move(k, s, SkipToken, s.calls[0].(pc := HasToken));
    } else {
      s := TokenComes(k, s);
      s := Move(k, s, GrabToken, s.calls[0].(pc := HasToken, tokens := s.calls[0].tokens + 1));
    }
  }

  lemma ReadyAgain(k: Config) returns (s: State)
    requires k.Valid() && k.maxRetries >= 1
    ensures Reachable(k, s) && 0 in s.calls
    ensures var c := s.calls[0];
            && c.pc.Ready? && c.lastErr.Some? && c.attempt == 1 && |c.sends| == 1
            && c.req == REWINDABLE && c.ticket.Some? == k.breaker.Some?
  {
    hide Reachable;
    s := ReachesToken(k);
    s := Move(k, s, NoteAttempt, s.calls[0].(pc := Ready, account := Open, tried := s.calls[0].tried + 1));
  }

  lemma CannotRewind(k: Config) returns (s: State)
    requires k.Valid() && k.maxRetries >= 1
    ensures Reachable(k, s) && 0 in s.calls
    ensures var c := s.calls[0];
            && c.pc == Returning(Failed(RewoundLate())) && c.lastErr.Some? && |c.sends| == 1
            && c.ticket.Some? == k.breaker.Some?
  {
    hide Reachable;
    s := ReadyAgain(k);
    var late := Sentinel(DeadlineExceeded);
    s := Move(k, s, RewindFails(late), s.calls[0].(pc := RewindFailed(late)));
    s := Move(k, s, NoteRewindFailure, s.calls[0].(pc := Returning(Failed(RewoundLate())), account := Settled));
  }

  /** A failure of the caller's own `GetBody` is counted against the downstream. */
  lemma LocalFailureCounts(k: Config)
    requires k.Valid() && k.breaker.Some? && k.maxRetries >= 1
    ensures CountsAsFailure(k, Failed(RewoundLate()), 1)
  {
    LocalErrorCanFail(k.statusFailMin);
    hide Reachable, Verdict, CountsAsFailure, RewoundLate;
    var s := CannotRewind(k);
    EndsInFailure(k, s);
  }
}
