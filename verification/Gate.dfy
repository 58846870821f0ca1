/** The Retry-After gate: what a header asks for (section 10.2.3 of RFC 9110),
    and the lock-free maximum register that holds the latest deadline. */
module Gate {
  import opened Arith
  import opened Errors

  const TOO_MANY_REQUESTS := 429    // section 4 of RFC 6585
  const SERVICE_UNAVAILABLE := 503  // section 15.6.4 of RFC 9110

  predicate AsksToWait(status: int) { status == TOO_MANY_REQUESTS || status == SERVICE_UNAVAILABLE }

  /** A header after trimming: absent or unreadable, an integer that fits 64
      bits, or a date that lies `ahead` of the clock (negative in the past). */
  datatype Header = Unreadable | Whole(secs: int) | Date(ahead: int)

  predicate Fits64(h: Header) {
    match h
    case Unreadable => true
    case Whole(secs) => IsWord(secs)
    case Date(ahead) => IsWord(ahead)
  }

  /** `parseRetryAfter`; saturates before the multiplication could overflow. */
  function Parse(h: Header): Option<int> {
    match h
    case Unreadable => None
    case Whole(secs) =>
      if secs < 0 then None
      else if secs > MAX_INT64 / SECOND then Some(MAX_INT64)
      else Some(secs * SECOND)
    case Date(ahead) => Some(if ahead < 0 then 0 else ahead)
  }

  /** The delay that arms the gate. */
  function Armed(h: Header, most: int): Option<int> {
    match Parse(h)
    case None => None
    case Some(delay) => Some(if delay > most then most else delay)
  }

  /** No header escapes the cap: for every 64-bit number of seconds the delay is
      the unbounded product, capped; a date asks for the time until then, capped,
      and for no time at all once it has passed. */
  lemma ArmedDelay(h: Header, most: int)
    requires Fits64(h) && 0 < most <= MAX_INT64
    ensures Parse(h).Some? ==> 0 <= Parse(h).value <= MAX_INT64
    ensures Armed(h, most).Some? ==> 0 <= Armed(h, most).value <= most
    ensures h.Whole? && h.secs >= 0 ==> Armed(h, most) == Some(if h.secs * SECOND > most then most else h.secs * SECOND)
    ensures h.Date? ==> Armed(h, most) == Some(if h.ahead <= 0 then 0 else if h.ahead > most then most else h.ahead)
    ensures Armed(h, most).None? <==> h.Unreadable? || (h.Whole? && h.secs < 0)
  {
  }

  // -------------------------------------------------------------------------
  // The gate is a word

  function Max(a: int, b: int): int { if a < b then b else a }

  /** `UnixNano` keeps the low 64 bits of a deadline. The gate covers a deadline
      it was extended to exactly when the deadline fits 64 bits; one that does not
      reads as long past and leaves a non-negative gate as it was. */
  lemma CoversIff(gate: int, until: int)
    requires IsWord(gate) && until >= 0
    ensures until <= Max(gate, Wrap(until)) <==> until <= MAX_INT64
    ensures MAX_INT64 < until <= 2 * MAX_INT64 + 1 && gate >= 0 ==> Max(gate, Wrap(until)) == gate
  {
    WrapRange(until);
  }

  const MID_2025 := 1_750_000_000 * SECOND

  /** Without an effective maximum, `Retry-After: 9999999999` arms nothing. */
  lemma EndlessPauseIsLost()
    ensures Armed(Whole(9_999_999_999), MAX_INT64) == Some(MAX_INT64)
    ensures Max(0, Wrap(MID_2025 + MAX_INT64)) == 0 < MID_2025
  {
    CoversIff(0, MID_2025 + MAX_INT64);
  }

  // -------------------------------------------------------------------------
  // Extending the gate with compare-and-swap

  /** One run of `extendRetryAfterGate` for the deadline `until`. `entered` and
      `since` remember how many swaps had succeeded at the start of the run and
      at its latest load; `misses` counts its failed swaps. */
  datatype Extender =
    | Loading(until: int, entered: nat, misses: nat)
    | Swapping(until: int, entered: nat, misses: nat, seen: int, since: nat)
    | Finished(until: int, entered: nat, misses: nat)
  {
    /** The word that the run offers. */
    function Offer(): int { Wrap(until) }
  }

  datatype State = State(initial: int, gate: int, swaps: nat, runs: map<nat, Extender>)

  datatype Step = Start(id: nat, until: int) | Load(id: nat) | Swap(id: nat)

  predicate Enabled(st: State, s: Step) {
    match s
    case Start(id, until) => id !in st.runs && until >= 0
    case Load(id) => id in st.runs && st.runs[id].Loading?
    case Swap(id) => id in st.runs && st.runs[id].Swapping?
  }

  function Next(st: State, s: Step): State
    requires Enabled(st, s)
  {
    match s
    case Start(id, until) => st.(runs := st.runs[id := Loading(until, st.swaps, 0)])
    case Load(id) =>
      var r := st.runs[id];
      if st.gate >= r.Offer() then st.(runs := st.runs[id := Finished(r.until, r.entered, r.misses)])
      else st.(runs := st.runs[id := Swapping(r.until, r.entered, r.misses, st.gate, st.swaps)])
    case Swap(id) =>
      var r := st.runs[id];
      if st.gate == r.seen
      then st.(gate := r.Offer(), swaps := st.swaps + 1, runs := st.runs[id := Finished(r.until, r.entered, r.misses)])
      else st.(runs := st.runs[id := Loading(r.until, r.entered, r.misses + 1)])
  }

  ghost predicate RunInv(st: State, r: Extender) {
    && r.until >= 0 && r.entered <= st.swaps
    && (r.Loading? || r.Finished? ==> r.misses <= st.swaps - r.entered)
    && (r.Finished? ==> r.Offer() <= st.gate)
    && (r.Swapping? ==> && r.seen < r.Offer() && r.seen <= st.gate
                        && r.entered <= r.since <= st.swaps && r.misses <= r.since - r.entered
                        && (r.since == st.swaps ==> st.gate == r.seen))
  }

  ghost predicate Inv(st: State) {
    && IsWord(st.gate) && st.initial <= st.gate
    && (st.gate == st.initial || exists id | id in st.runs :: st.runs[id].Offer() == st.gate)
    && forall id | id in st.runs :: RunInv(st, st.runs[id])
  }

  /** The gate never goes down, and every run acts as one atomic maximum at the
      step that finishes it: no other step touches the gate. */
  lemma AtomicMax(st: State, s: Step)
    requires Inv(st) && Enabled(st, s)
    ensures var st' := Next(st, s);
            && st.gate <= st'.gate
            && st'.gate == (if st'.runs[s.id].Finished? then Max(st.gate, st'.runs[s.id].Offer()) else st.gate)
  {
    if !s.Start? {
      assert RunInv(st, st.runs[s.id]);
    }
  }

  lemma NextInv(st: State, s: Step)
    requires Inv(st) && Enabled(st, s)
    ensures Inv(Next(st, s))
  {
    var st' := Next(st, s);
    if !s.Start? {
      assert RunInv(st, st.runs[s.id]);
      WrapRange(st.runs[s.id].until);
    }
    AtomicMax(st, s);
    forall id | id in st'.runs ensures RunInv(st', st'.runs[id]) {
      if id != s.id {
        assert RunInv(st, st.runs[id]);
      }
    }
    if st'.gate != st.initial {
      if st'.gate != st.gate {
        assert st'.runs[s.id].Offer() == st'.gate;
      } else {
        var id :| id in st.runs && st.runs[id].Offer() == st.gate;
        assert st'.runs[id].Offer() == st'.gate;
      }
    }
  }

  ghost predicate CanRun(st: State, ss: seq<Step>)
    decreases |ss|
  {
    ss == [] || (Enabled(st, ss[0]) && CanRun(Next(st, ss[0]), ss[1..]))
  }

  ghost function After(st: State, ss: seq<Step>): State
    requires CanRun(st, ss)
    decreases |ss|
  {
    if ss == [] then st else After(Next(st, ss[0]), ss[1..])
  }

  lemma {:induction false} RunsKeepInv(st: State, ss: seq<Step>)
    requires Inv(st) && CanRun(st, ss)
    ensures Inv(After(st, ss)) && st.gate <= After(st, ss).gate && After(st, ss).initial == st.initial
    decreases |ss|
  {
    if ss != [] {
      NextInv(st, ss[0]);
      AtomicMax(st, ss[0]);
      RunsKeepInv(Next(st, ss[0]), ss[1..]);
    }
  }

  /** From any interleaving: a finished run is covered exactly when its deadline
      fits 64 bits; when all have finished the gate is the maximum of the initial
      value and all words offered; and a run has failed at most once per swap that
      succeeded since it started. */
  lemma GateIsMaximum(initial: int, ss: seq<Step>)
    requires IsWord(initial) && CanRun(State(initial, initial, 0, map[]), ss)
    ensures var st := After(State(initial, initial, 0, map[]), ss);
            && (forall id | id in st.runs && st.runs[id].Finished? ::
                  st.runs[id].until <= st.gate <==> st.runs[id].until <= MAX_INT64)
            && (forall id | id in st.runs :: st.runs[id].misses <= st.swaps - st.runs[id].entered)
            && ((forall id | id in st.runs :: st.runs[id].Finished?) ==>
                  && initial <= st.gate && (forall id | id in st.runs :: st.runs[id].Offer() <= st.gate)
                  && (st.gate == initial || exists id | id in st.runs :: st.runs[id].Offer() == st.gate))
  {
    RunsKeepInv(State(initial, initial, 0, map[]), ss);
    var st := After(State(initial, initial, 0, map[]), ss);
    forall id | id in st.runs
      ensures RunInv(st, st.runs[id])
      ensures st.runs[id].Finished? ==> (st.runs[id].until <= st.gate <==> st.runs[id].until <= MAX_INT64)
    {
      WrapRange(st.runs[id].until);
    }
  }
}
