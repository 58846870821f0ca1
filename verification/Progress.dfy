/** Nothing holds a call up but what is meant to. */
module Progress {
  import opened Errors
  import Breaker
  import Backoff
  import BucketOps
  import Gate
  import opened DoCalls
  import opened CallInvs
  import opened Circuit
  import opened Releasing

  /** The call waits for a slot, for a token, for the gate to open, or for the end of
      its backoff. */
  predicate HeldUp(k: Config, s: State, id: nat)
    requires id in s.calls
  {
    var pc := s.calls[id].pc;
    || (pc.AwaitSlot? && 0 < k.maxConcurrent <= s.inUse)
    || (pc.TokenSlow? && s.bucket.tokens == 0 && !s.bucket.closed)
    || (pc.Asleep? && s.clock < pc.seen && !(k.plan.Some? && s.bucket.closed))
    || (pc.Backing? && s.clock < pc.wakeAt)
  }

  ghost predicate CanGoOn(k: Config, s: State, id: nat) { exists a :: Uncancelled(a) && Enabled(k, s, Do(id, a)) }

  /** What the invariants give a call that wants to go on. */
  predicate Equipped(k: Config, s: State, c: Call) {
    && (Rewinds(c) ==> c.req.rewindable) && c.start <= s.clock && (c.pc.TokenSlow? ==> k.plan.Some?)
    && (k.plan.Some? ==> s.bucket.tokens >= 0)
  }

  lemma EveryCallIsEquipped(k: Config, s: State, id: nat)
    requires k.Valid() && Inv(k, s) && id in s.calls
    ensures Equipped(k, s, s.calls[id]) || s.calls[id].pc.Done?
  {
    var c := s.calls[id];
    assert CallInv(k, c, s.clock);
    assert SameBody(c) && Searched(k, c) && Punctual(c, s.clock);
    if k.plan.Some? {
      BucketOps.Conservation(k.plan.value, s.bucket);
    }
    hide CallInv, Inv;
  }

  /** A step that waits for nothing. */
  lemma FreeStep(k: Config, s: State, id: nat, a: Act)
    requires id in s.calls && Can(k, s.calls[id], a, s.clock) && Uncancelled(a)
    requires EffectOf(k, s.calls[id], a, s.clock).Quiet? || EffectOf(k, s.calls[id], a, s.clock).Booked?
             || EffectOf(k, s.calls[id], a, s.clock).Raised? || EffectOf(k, s.calls[id], a, s.clock).Released?
             || EffectOf(k, s.calls[id], a, s.clock).Filed?
    ensures CanGoOn(k, s, id)
  {
    hide Can, EffectOf, Uncancelled;
  }

  lemma ArriverGoesOn(k: Config, s: State, id: nat)
    requires k.Valid() && id in s.calls && !HeldUp(k, s, id) && Starting(s.calls[id].pc)
    ensures CanGoOn(k, s, id)
  {
    if s.calls[id].pc.Entry? {
      var adm := if k.breaker.Some? then Breaker.Allow(k.breaker.value, s.breaker.core, s.calls[id].entryNow).1
                 else Breaker.Granted(Breaker.Ticket(false, 0));
      hide Breaker.Allow;
      assert Enabled(k, s, Do(id, Enter(adm))) && Uncancelled(Enter(adm));
    } else {
      assert Enabled(k, s, Do(id, TakeSlot)) && Uncancelled(TakeSlot);
    }
  }

  lemma WaiterGoesOn(k: Config, s: State, id: nat)
    requires id in s.calls && !HeldUp(k, s, id) && Equipped(k, s, s.calls[id])
    requires var pc := s.calls[id].pc; pc.LoopHead? || pc.GateRead? || pc.Asleep? || pc.TokenFast? || pc.TokenSlow?
    ensures CanGoOn(k, s, id)
  {
    var pc := s.calls[id].pc;
    var a :=
      if pc.LoopHead? then (if k.retryAfterMax > 0 then ReadGate(s.gate) else PassGate)
      else if pc.GateRead? then (if pc.seen <= s.clock then PassGate else Doze)
      else if pc.Asleep? then (if pc.seen <= s.clock then Reread else GateGivesUp(Stop))
      else if k.plan.None? then SkipToken
      else if s.bucket.tokens > 0 then GrabToken
      else if pc.TokenFast? then FindEmpty(|s.bucket.log|)
      else TokenGivesUp(Stop);
    assert Enabled(k, s, Do(id, a)) && Uncancelled(a);
  }

  /** The one step, or one of the steps, of a call that waits for nothing. */
  lemma OtherGoesOn(k: Config, s: State, id: nat)
    requires k.Valid() && id in s.calls && !HeldUp(k, s, id) && Equipped(k, s, s.calls[id])
    requires BeforeSend(s.calls[id].pc) || AfterSend(s.calls[id].pc)
    requires var pc := s.calls[id].pc; !(pc.LoopHead? || pc.GateRead? || pc.Asleep? || pc.TokenFast? || pc.TokenSlow?)
    ensures CanGoOn(k, s, id)
  {
    var pc := s.calls[id].pc;
    var a :=
      if pc.WaitFailed? then NoteWaitFailure else if pc.CancelPending? then NoteCancel
      else if pc.HasToken? then NoteAttempt else if pc.Ready? then Launch(0)
      else if pc.RewindFailed? then NoteRewindFailure else if pc.Flight? then Respond(200, Gate.Unreadable)
      else if pc.Answered? then NoteResponse else if pc.Noted? then Arm(s.clock)
      else if pc.Errored? then NoteError else Judge(false);
    hide Payload;
    FreeStep(k, s, id, a);
  }

  lemma FinisherGoesOn(k: Config, s: State, id: nat)
    requires k.Valid() && id in s.calls && !HeldUp(k, s, id)
    requires var pc := s.calls[id].pc; BetweenSends(pc) || pc.Returning? || pc.Reporting?
    ensures CanGoOn(k, s, id)
  {
    var pc := s.calls[id].pc;
    var wait := Backoff.SomeWait(k.backoff, s.calls[id].attempt);
    hide Backoff.Possible, Verdict;
    var a :=
      if pc.RetryPending? then NoteRetry(wait) else if pc.Backing? then Wake
      else if pc.Returning? then ReleaseSlot else FileReport;
    FreeStep(k, s, id, a);
  }

  lemma HeldUpStays(k: Config, s: State, id: nat, a: Act)
    requires id in s.calls && HeldUp(k, s, id) && Uncancelled(a) && Equipped(k, s, s.calls[id])
    ensures !Enabled(k, s, Do(id, a))
  {
  }

  /** A call that is not done can always go on, unless it waits for a slot while all
      are taken, for a token while there is none and the breaker runs, for the gate
      while it is closed and the breaker runs, or for the end of its backoff; and
      then it cannot. */
  lemma GoesOnIff(k: Config, s: State, id: nat)
    requires k.Valid() && Reachable(k, s) && id in s.calls && !s.calls[id].pc.Done?
    ensures CanGoOn(k, s, id) <==> !HeldUp(k, s, id)
  {
    ReachableInv(k, s);
    hide Inv, Reachable, HeldUp, CanGoOn, Equipped, Enabled, Uncancelled;
    EveryCallIsEquipped(k, s, id);
    var pc := s.calls[id].pc;
    if HeldUp(k, s, id) {
      forall a | Uncancelled(a) ensures !Enabled(k, s, Do(id, a)) {
        HeldUpStays(k, s, id, a);
      }
      NoStep(k, s, id);
    } else if Starting(pc) {
      ArriverGoesOn(k, s, id);
    } else if pc.LoopHead? || pc.GateRead? || pc.Asleep? || pc.TokenFast? || pc.TokenSlow? {
      WaiterGoesOn(k, s, id);
    } else if BeforeSend(pc) || AfterSend(pc) {
      OtherGoesOn(k, s, id);
    } else {
      FinisherGoesOn(k, s, id);
    }
  }

  lemma NoStep(k: Config, s: State, id: nat)
    requires forall a | Uncancelled(a) :: !Enabled(k, s, Do(id, a))
    ensures !CanGoOn(k, s, id)
  {
    hide Uncancelled, Enabled;
  }
}
