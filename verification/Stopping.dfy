/** `ErrStopped` is documented to mean that no tokens remain. When it does not. */
module Stopping {
  import opened Arith
  import opened Errors
  import opened Bucket
  import RateBound
  import BucketOps
  import opened DoCalls
  import opened CallInvs
  import opened Circuit
  import opened Steering
  import Barrages

  /** A stopped wait can turn the call away although a token is there. */
  ghost predicate TurnsAway(k: Config, s: State, id: nat, a: Act) {
    Reachable(k, s) && Enabled(k, s, Do(id, a)) && s.bucket.tokens > 0
  }

  ghost predicate GateTurnsAway(k: Config) { exists s, id :: TurnsAway(k, s, id, GateGivesUp(Stop)) }

  ghost predicate BucketTurnsAway(k: Config) { exists s, id :: TurnsAway(k, s, id, TokenGivesUp(Stop)) }

  /** Events of one kind since the history had so many. */
  function Since(log: seq<RateBound.Ev>, kind: RateBound.Kind, mark: nat): int
    requires mark <= |log|
  {
    RateBound.Total(log, kind) - RateBound.Total(log[..mark], kind)
  }

  /** What is left when the token wait turns a call away: what was put and not taken
      since the call found the bucket empty. */
  lemma LeftWhenTurnedAway(k: Config, s: State, id: nat)
    requires k.Valid() && Reachable(k, s) && Enabled(k, s, Do(id, TokenGivesUp(Stop)))
    ensures var c, log := s.calls[id], s.bucket.log;
            && c.emptyAt.Some? && c.emptyAt.value <= |log|
            && s.bucket.tokens
               == Since(log, RateBound.Puts, c.emptyAt.value) - Since(log, RateBound.Takes, c.emptyAt.value)
  {
    hide *;
    ReachableInv(k, s);
    WaiterIsKnown(k, s, id);
    FoundEmptyOnce(k, s, s.calls[id]);
    LevelSince(k.plan.value, s.bucket, s.calls[id].emptyAt.value);
  }

  lemma WaiterIsKnown(k: Config, s: State, id: nat)
    requires Inv(k, s) && Enabled(k, s, Do(id, TokenGivesUp(Stop)))
    ensures id in s.calls && s.calls[id].pc.TokenSlow?
    ensures CallInv(k, s.calls[id], s.clock) && Recalls(k, s.bucket, s.calls[id])
    ensures BucketInv(k, s.bucket, s.calls, s.clock)
  {
    hide CallInv;
  }

  lemma FoundEmptyOnce(k: Config, s: State, c: Call)
    requires CallInv(k, c, s.clock) && Recalls(k, s.bucket, c) && BucketInv(k, s.bucket, s.calls, s.clock)
    requires c.pc.TokenSlow?
    ensures k.plan.Some? && BucketOps.Sound(k.plan.value, s.bucket)
    ensures c.emptyAt.Some? && c.emptyAt.value <= |s.bucket.log|
    ensures BucketOps.WasEmpty(k.plan.value, s.bucket.log, c.emptyAt.value)
  {
    assert Searched(k, c);
    hide CallInv, BucketOps.Sound, RateBound.Level;
  }

  lemma LevelSince(p: Plan, b: BucketOps.State, mark: nat)
    requires BucketOps.Sound(p, b) && BucketOps.WasEmpty(p, b.log, mark)
    ensures b.tokens == Since(b.log, RateBound.Puts, mark) - Since(b.log, RateBound.Takes, mark)
  {
    hide RateBound.Total;
  }

  // -------------------------------------------------------------------------
  // At the gate

  /** Two calls are admitted, and one of them gets the slot. */
  lemma TwoEnter(k: Config) returns (s: State, p: Pose, a: nat, b: nat)
    requires k.Valid() && k.maxRetries >= 0
    ensures Posed(k, s, p) && p == StartPose(k, SECOND).(busy := {a, b}) && a != b && a in s.calls && b in s.calls
    ensures s.clock == SECOND && s.gate == 0 && s.calls.Keys == {a, b}
    ensures s.calls[a].pc.LoopHead? && s.calls[a].attempt == 0 && s.calls[a].req == ONE_WAY
    ensures s.calls[b].pc.AwaitSlot?
  {
    hide Posed, SameSends;
    var start := Starts(k, SECOND);
    var one, q := start, StartPose(k, SECOND);
    one, a := Arrive(k, start, q, ONE_WAY);
    q := q.(busy := q.busy + {a});
    s, b := IsAdmitted(k, one, q, PLAIN);
    p := q.(busy := q.busy + {b});
    assert p.busy == {a, b};
  }

  /** Who reports holds no slot any more. */
  lemma SlotIsFreed(k: Config, s: State, a: nat, b: nat)
    requires k.Valid() && Reachable(k, s) && k.maxConcurrent > 0
    requires s.calls.Keys == {a, b} && s.calls[a].pc.Reporting? && s.calls[b].pc.AwaitSlot?
    ensures s.inUse < k.maxConcurrent
  {
    ReachableInv(k, s);
    assert SlotsInv(k, s.inUse, s.holders, s.calls);
    assert CallInv(k, s.calls[a], s.clock) && CallInv(k, s.calls[b], s.clock);
    assert Holding(k, s.calls[a]) && Holding(k, s.calls[b]);
    hide Inv, Reachable, CallInv;
    assert s.holders == {};
  }

  /** The other one finds the gate closed. */
  lemma FallsAsleep(k: Config) returns (s: State, p: Pose, b: nat)
    requires k.Valid() && k.maxRetries >= 0 && k.plan.Some? && k.retryAfterMax > 0
    ensures Posed(k, s, p) && p.left == 0 && s.clock == p.next == SECOND && b in s.calls && s.calls[b].pc.Asleep?
  {
    assert k.plan.value.Valid();
    hide Posed, SameSends;
    var entered, q, a;
    entered, q, a, b := TwoEnter(k);
    var freed := ArmsAndFrees(k, entered, q, a, 1);
    p := q.(tokens := q.tokens - 1);
    if k.maxConcurrent > 0 {
      PosedIsReachable(k, freed, p);
      SlotIsFreed(k, freed, a, b);
    }
    var there := TakesFreeSlot(k, freed, p, b);
    s := Dozes(k, there, p, b);
  }

  /** A token comes, and `Stop` begins. */
  lemma TokenAndStop(k: Config, s: State, p: Pose) returns (d: State)
    requires Posed(k, s, p) && k.plan.Some? && p.left == 0 && s.clock <= p.next
    ensures Reachable(k, d) && d.calls == s.calls && d.bucket.closed && d.bucket.tokens > 0
  {
    assert k.plan.value.Valid();
    PosedIsReachable(k, s, p);
    hide Posed, Reachable;
    var fed, q := s, p;
    if p.tokens == 0 {
      fed := Ticks(k, s, p);
      q := p.(tokens := Min(k.plan.value.capacity, p.tokens + k.plan.value.perTick),
              next := p.next + k.plan.value.interval);
    }
    d := Shuts(k, fed, q);
    PosedIsReachable(k, d, q);
  }

  lemma NobodyWaits(k: Config, s: State, id: nat, a: Act)
    requires k.Valid() && TurnsAway(k, s, id, a)
    ensures a == GateGivesUp(Stop) ==> k.plan.Some? && k.maxRetries >= 0 && k.retryAfterMax > 0
    ensures a == TokenGivesUp(Stop) ==> k.plan.Some? && k.maxRetries >= 0
  {
    ReachableInv(k, s);
    var c := s.calls[id];
    assert CallInv(k, c, s.clock) && Counted(k, c) && Searched(k, c);
    hide Inv, Reachable, CallInv;
  }

  /** The wait for the gate can return `ErrStopped` while tokens remain, in every
      breaker with a gate and a bucket that sends at all, and in no other. */
  lemma GateTurnsAwayIff(k: Config)
    requires k.Valid()
    ensures GateTurnsAway(k) <==> k.plan.Some? && k.maxRetries >= 0 && k.retryAfterMax > 0
  {
    hide Reachable, Posed;
    if GateTurnsAway(k) {
      var s, id :| TurnsAway(k, s, id, GateGivesUp(Stop));
      NobodyWaits(k, s, id, GateGivesUp(Stop));
    }
    if k.plan.Some? && k.maxRetries >= 0 && k.retryAfterMax > 0 {
      var s, p, b := FallsAsleep(k);
      var d := TokenAndStop(k, s, p);
      assert TurnsAway(k, d, b, GateGivesUp(Stop));
    }
  }

  // -------------------------------------------------------------------------
  // At the bucket

  /** A call finds the bucket empty. */
  lemma WaitsForToken(k: Config) returns (s: State, p: Pose, b: nat)
    requires k.Valid() && k.maxRetries >= 0 && k.plan.Some?
    ensures Posed(k, s, p) && p.left == 0 && s.clock == p.next && b in s.calls && s.calls[b].pc.TokenSlow?
  {
    assert k.plan.value.Valid();
    hide Posed, SameSends, Adds;
    var start := Starts(k, SECOND);
    var q := StartPose(k, SECOND);
    var drained := Barrages.ManySend(k, start, q, k.plan.value.capacity);
    q := q.(tokens := 0);
    var there;
    there, b := Arrive(k, drained, q, PLAIN);
    p := q.(busy := {b});
    assert p == q.(busy := q.busy + {b});
    var passed := PassesGate(k, there, p, b);
    s := FindsEmpty(k, passed, p, b);
  }

  /** So can the wait for a token, if one comes at the last moment. */
  lemma BucketTurnsAwayIff(k: Config)
    requires k.Valid()
    ensures BucketTurnsAway(k) <==> k.plan.Some? && k.maxRetries >= 0
  {
    hide Reachable, Posed;
    if BucketTurnsAway(k) {
      var s, id :| TurnsAway(k, s, id, TokenGivesUp(Stop));
      NobodyWaits(k, s, id, TokenGivesUp(Stop));
    }
    if k.plan.Some? && k.maxRetries >= 0 {
      var s, p, b := WaitsForToken(k);
      var d := TokenAndStop(k, s, p);
      assert TurnsAway(k, d, b, TokenGivesUp(Stop));
    }
  }
}
