/** The token bucket as a shared object: the refill goroutine, `Stop` and any
    number of takers, each channel operation one step. */
module BucketOps {
  import opened Bucket
  import opened RateBound

  /** `left` is what the refill loop still has to put in the current batch;
      `done` says that the refill goroutine has returned. */
  datatype State = State(tokens: int, left: int, closed: bool, done: bool, log: seq<Ev>)

  /** `Fire`: the refiller receives a tick. `Feed`: one pass of its inner loop.
      `Grab`: somebody takes a token. `Shut`: `Stop` closes the stop channel.
      `Quit`: the refiller notices. */
  datatype Op = Fire(at: int) | Feed(at: int) | Grab(at: int, who: nat) | Shut | Quit

  function Filled(p: Plan): State { State(p.capacity, 0, false, false, []) }

  predicate Can(p: Plan, b: State, op: Op) {
    match op
    case Fire(_) => !b.done && b.left == 0
    case Feed(_) => b.left > 0
    case Grab(_, _) => b.tokens > 0
    case Shut => true
    case Quit => b.closed && !b.done && b.left == 0
  }

  function Do(p: Plan, b: State, op: Op): State {
    match op
    case Fire(at) => b.(left := p.perTick, log := b.log + [Tick(at)])
    case Feed(at) =>
      if b.tokens < p.capacity then b.(tokens := b.tokens + 1, left := b.left - 1, log := b.log + [Put(at)])
      else b.(left := 0, log := b.log + [Full(at)])
    case Grab(at, who) => b.(tokens := b.tokens - 1, log := b.log + [Take(at, who)])
    case Shut => b.(closed := true)
    case Quit => b.(done := true)
  }

  /** The state is what its history says, and the history is legal. */
  ghost predicate Sound(p: Plan, b: State) {
    && p.Valid() && Legal(p, b.log)
    && b.tokens == Level(p, b.log) && b.left == Left(p, b.log)
    && (b.done ==> b.closed && b.left == 0)
  }

  lemma FilledIsSound(p: Plan)
    requires p.Valid()
    ensures Sound(p, Filled(p)) && Ordered(Filled(p).log) && Timed(p, Filled(p).log)
  {
  }

  lemma DoIsSound(p: Plan, b: State, op: Op)
    requires Sound(p, b) && Can(p, b, op)
    ensures Sound(p, Do(p, b, op))
  {
    LevelBounds(p, b.log);
    match op
    case Fire(at) => Snoc(b.log, Tick(at));
    case Feed(at) =>
      Snoc(b.log, Put(at));
      Snoc(b.log, Full(at));
    case Grab(at, who) => Snoc(b.log, Take(at, who));
    case Shut =>
    case Quit =>
  }

  /** Every token is accounted for at every step. */
  lemma Conservation(p: Plan, b: State)
    requires Sound(p, b)
    ensures p.capacity + Total(b.log, Puts) == b.tokens + Total(b.log, Takes)
    ensures 0 <= b.tokens <= p.capacity
  {
    LevelBounds(p, b.log);
  }

  /** The bucket was empty when `mark` events had happened. */
  ghost predicate WasEmpty(p: Plan, log: seq<Ev>, mark: nat) { mark <= |log| && Level(p, log[..mark]) == 0 }

  lemma HistoryStands(p: Plan, b: State, op: Op, mark: nat)
    requires WasEmpty(p, b.log, mark)
    ensures WasEmpty(p, Do(p, b, op).log, mark)
  {
    assert forall e :: (b.log + [e])[..mark] == b.log[..mark];
  }

  // -------------------------------------------------------------------------
  // Draining after Stop

  ghost predicate CanAll(p: Plan, b: State, ops: seq<Op>)
    decreases |ops|
  {
    ops == [] || (Can(p, b, ops[0]) && CanAll(p, Do(p, b, ops[0]), ops[1..]))
  }

  ghost function DoAll(p: Plan, b: State, ops: seq<Op>): State
    decreases |ops|
  {
    if ops == [] then b else DoAll(p, Do(p, b, ops[0]), ops[1..])
  }

  /** Once `Stop` has returned only the tokens left then can still be taken, and
      a bucket that is empty stays empty. */
  lemma {:induction false} DrainBound(p: Plan, b: State, ops: seq<Op>)
    requires Sound(p, b) && b.done && CanAll(p, b, ops)
    ensures var e := DoAll(p, b, ops);
            && e.done && Sound(p, e)
            && Total(e.log, Puts) == Total(b.log, Puts)
            && Total(e.log, Takes) + e.tokens == Total(b.log, Takes) + b.tokens
            && 0 <= e.tokens <= b.tokens
    decreases |ops|
  {
    Conservation(p, b);
    if ops != [] {
      DoIsSound(p, b, ops[0]);
      DrainBound(p, Do(p, b, ops[0]), ops[1..]);
      Conservation(p, Do(p, b, ops[0]));
      if ops[0].Grab? {
        Snoc(b.log, Take(ops[0].at, ops[0].who));
      }
    }
  }
}
