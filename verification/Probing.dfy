/** The breaker together with the calls it has admitted: what holds in every
    interleaving of admissions and reports, by any number of calls, when the
    time an admission brings along may be older than the clock. */
module Probing {
  import opened Errors
  import opened Breaker
  import opened Sets
  import opened Arith

  /** `live` binds the calls admitted and not yet reported; the last three
      fields are histories. */
  datatype State = State(
    core: Core,
    t0: int,
    clock: int,
    live: map<nat, Ticket>,
    admitted: nat,     // probes admitted so far
    returned: nat,     // neutral reports that handed a probe slot back
    log: seq<Outcome>) // outcomes counted since the circuit last closed

  datatype Act = Advance(to: int) | Knock(id: nat, now: int) | Answer(id: nat, outcome: Outcome)

  function Init(t0: int): State { State(FRESH, t0, t0, map[], 0, 0, []) }

  predicate Enabled(st: State, a: Act) {
    match a
    case Advance(to) => st.clock <= to
    case Knock(id, now) => id !in st.live && now <= st.clock
    case Answer(id, _) => id in st.live
  }

  predicate Stale(b: Core, t: Ticket) { t.probe && t.gen != b.gen }

  function AfterKnock(p: Params, st: State, id: nat, now: int): State {
    var (b, a) := Allow(p, st.core, now);
    match a
    case Refused => st.(core := b)
    case Granted(t) => st.(core := b, live := st.live[id := t], admitted := st.admitted + if t.probe then 1 else 0)
  }

  function AfterAnswer(p: Params, st: State, id: nat, o: Outcome): State
    requires id in st.live
  {
    var t := st.live[id];
    var heard := !Stale(st.core, t);
    st.(core := Report(p, st.core, t, o, st.clock),
        live := st.live - {id},
        returned := st.returned + if heard && t.probe && st.core.cur.HalfOpen? && o == Neutral then 1 else 0,
        log := if heard && st.core.cur.Closed? && o != Neutral then st.log + [o]
               else if heard && t.probe && st.core.cur.HalfOpen? && o == Success then []
               else st.log)
  }

  function Next(p: Params, st: State, a: Act): State
    requires Enabled(st, a)
  {
    match a
    case Advance(to) => st.(clock := to)
    case Knock(id, now) => AfterKnock(p, st, id, now)
    case Answer(id, o) => AfterAnswer(p, st, id, o)
  }

  // -------------------------------------------------------------------------
  // Invariants

  ghost function IsProbe(g: nat): Ticket -> bool { (t: Ticket) => t == Ticket(true, g) }

  /** Probes of generation `g` still in flight. */
  ghost function Probes(st: State, g: nat): set<nat> { Where(st.live, IsProbe(g)) }

  /** Length of the run of failures that ends the log. */
  function FailRun(log: seq<Outcome>): nat {
    if log == [] || log[|log| - 1] != Failure then 0 else 1 + FailRun(log[..|log| - 1])
  }

  ghost predicate ProbesCounted(p: Params, st: State) {
    && (forall g :: |Probes(st, g)| <= p.maxProbes)
    && (forall id | id in st.live && st.live[id].probe :: 1 <= st.live[id].gen <= st.core.gen)
    && |Probes(st, st.core.gen)| <= st.core.probes <= p.maxProbes
    && (st.core.cur.HalfOpen? ==> |Probes(st, st.core.gen)| == st.core.probes && st.core.gen >= 1)
  }

  /** Each generation lasted at least `openFor`. */
  ghost predicate Paced(p: Params, st: State) {
    var b := st.core;
    && 0 <= st.t0 <= st.clock
    && b.openedAt <= st.clock && b.halfOpenAt <= st.clock
    && (b.cur.Open? ==> st.t0 <= b.openedAt && b.halfOpenAt <= b.openedAt)
    && (b.cur.HalfOpen? ==> b.gen >= 1)
    && (b.gen >= 1 ==> b.gen * p.openFor <= b.halfOpenAt - st.t0)
  }

  ghost predicate Budgeted(p: Params, st: State) {
    && (st.core.gen == 0 ==> st.admitted == 0 && st.core.probes == 0 && !st.core.cur.HalfOpen?)
    && (st.core.gen >= 1 ==> st.admitted <= p.maxProbes * (st.core.gen - 1) + st.core.probes + st.returned)
  }

  /** The failure counter is a property of the log; the mode is closed exactly
      while it stays under the threshold. */
  ghost predicate Tallied(p: Params, st: State) {
    && st.core.consecFails == FailRun(st.log)
    && (st.core.cur.Closed? <==> FailRun(st.log) < p.threshold)
    && Neutral !in st.log
  }

  ghost predicate Inv(p: Params, st: State) {
    && p.Valid() && ProbesCounted(p, st) && Paced(p, st) && Budgeted(p, st) && Tallied(p, st)
  }

  lemma InitInv(p: Params, t0: int)
    requires p.Valid() && t0 >= 0
    ensures Inv(p, Init(t0))
  {
    forall g ensures |Probes(Init(t0), g)| == 0 {
      assert Probes(Init(t0), g) == {};
    }
  }

  /** Nobody holds a ticket of a generation that has not started. */
  lemma FutureGenerationsEmpty(p: Params, st: State, g: nat)
    requires ProbesCounted(p, st) && g > st.core.gen
    ensures Probes(st, g) == {}
  {
  }

  lemma KnockCounts(p: Params, st: State, id: nat, now: int)
    requires p.Valid() && ProbesCounted(p, st) && id !in st.live
    ensures ProbesCounted(p, AfterKnock(p, st, id, now))
  {
    var st' := AfterKnock(p, st, id, now);
    var a := Allow(p, st.core, now).1;
    if a.Granted? {
      FutureGenerationsEmpty(p, st, st.core.gen + 1);
      forall g ensures |Probes(st', g)| == |Probes(st, g)| + if a.ticket == Ticket(true, g) then 1 else 0 {
        WhereAdded(st.live, IsProbe(g), id, a.ticket);
      }
    }
  }

  lemma AnswerCounts(p: Params, st: State, id: nat, o: Outcome)
    requires p.Valid() && ProbesCounted(p, st) && id in st.live
    ensures ProbesCounted(p, AfterAnswer(p, st, id, o))
  {
    var st' := AfterAnswer(p, st, id, o);
    forall g ensures |Probes(st', g)| == |Probes(st, g)| - if st.live[id] == Ticket(true, g) then 1 else 0 {
      WhereRemoved(st.live, IsProbe(g), id);
    }
  }

  lemma NextPaced(p: Params, st: State, a: Act)
    requires p.Valid() && Paced(p, st) && Enabled(st, a)
    ensures Paced(p, Next(p, st, a))
  {
    assert (st.core.gen + 1) * p.openFor == st.core.gen * p.openFor + p.openFor;
  }

  lemma KnockBudgeted(p: Params, st: State, id: nat, now: int)
    requires p.Valid() && Budgeted(p, st) && ProbesCounted(p, st)
    ensures Budgeted(p, AfterKnock(p, st, id, now))
  {
    var probes := st.core.probes;
    assert 0 <= |Probes(st, st.core.gen)| <= probes <= p.maxProbes;
    hide Probes, ProbesCounted;
    Monotone(p.maxProbes, st.core.gen - 1, st.core.gen);
  }

  lemma NextBudgeted(p: Params, st: State, a: Act)
    requires p.Valid() && Budgeted(p, st) && ProbesCounted(p, st) && Enabled(st, a)
    ensures Budgeted(p, Next(p, st, a))
  {
    if a.Knock? {
      KnockBudgeted(p, st, a.id, a.now);
    }
  }

  lemma AnswerTallied(p: Params, st: State, id: nat, o: Outcome)
    requires p.Valid() && Tallied(p, st) && id in st.live
    ensures Tallied(p, AfterAnswer(p, st, id, o))
  {
    assert (st.log + [o])[..|st.log|] == st.log;
  }

  lemma NextTallied(p: Params, st: State, a: Act)
    requires p.Valid() && Tallied(p, st) && Enabled(st, a)
    ensures Tallied(p, Next(p, st, a))
  {
    if a.Answer? {
      AnswerTallied(p, st, a.id, a.outcome);
      hide Tallied;
    }
  }

  lemma NextInv(p: Params, st: State, a: Act)
    requires Inv(p, st) && Enabled(st, a)
    ensures Inv(p, Next(p, st, a))
  {
    NextPaced(p, st, a);
    NextBudgeted(p, st, a);
    NextTallied(p, st, a);
    match a
    case Advance(_) => assert forall g :: Probes(Next(p, st, a), g) == Probes(st, g);
    case Knock(id, now) => KnockCounts(p, st, id, now);
    case Answer(id, o) => AnswerCounts(p, st, id, o);
  }

  /** Over the whole life of the breaker at most `maxProbes` probes are admitted
      for every full `openFor` elapsed, plus one for every slot handed back. */
  lemma ProbeBudget(p: Params, st: State)
    requires Inv(p, st)
    ensures st.core.gen * p.openFor <= st.clock - st.t0
    ensures st.admitted <= p.maxProbes * st.core.gen + st.returned
    ensures st.admitted <= p.maxProbes * ((st.clock - st.t0) / p.openFor) + st.returned
  {
    var g, elapsed := st.core.gen, st.clock - st.t0;
    assert g * p.openFor <= elapsed && 0 <= elapsed;
    assert g >= 1 ==> st.admitted <= p.maxProbes * (g - 1) + p.maxProbes + st.returned;
    assert g == 0 ==> st.admitted == 0;
    hide Inv;
    WithinBudget(g, p.openFor, elapsed, p.maxProbes, st.admitted, st.returned);
  }

  lemma WithinBudget(g: nat, d: int, elapsed: nat, most: int, admitted: nat, returned: nat)
    requires d > 0 && most >= 1 && g * d <= elapsed
    requires g >= 1 ==> admitted <= most * (g - 1) + most + returned
    requires g == 0 ==> admitted == 0
    ensures admitted <= most * g + returned
    ensures admitted <= most * (elapsed / d) + returned
  {
    FitsInQuotient(g, d, elapsed);
    Monotone(most, g - 1, g);
    Monotone(most, g, elapsed / d);
  }

  // -------------------------------------------------------------------------
  // Refinement: generations implement "only the current probes have a say"

  datatype Phase = InClosed(log: seq<Outcome>) | InOpen(since: int) | InHalfOpen(since: int)

  /** No counter and no generation number: the phase, the ordinary calls in
      flight and the probes of the latest half-open period. */
  datatype Spec = Spec(phase: Phase, plain: set<nat>, current: set<nat>)

  function SpecKnock(p: Params, a: Spec, id: nat, now: int): (Spec, bool) {
    match a.phase
    case InClosed(_) => (a.(plain := a.plain + {id}), true)
    case InOpen(since) =>
      if now < since + p.openFor then (a, false) else (a.(phase := InHalfOpen(now), current := {id}), true)
    case InHalfOpen(since) =>
      if |a.current| < p.maxProbes then (a.(current := a.current + {id}), true)
      else if now < since + p.openFor then (a, false)
      else (a.(phase := InHalfOpen(now), current := {id}), true)
  }

  function SpecAnswer(p: Params, a: Spec, id: nat, o: Outcome, now: int): Spec {
    if id !in a.plain && id !in a.current then a
    else
      var left := a.(plain := a.plain - {id}, current := a.current - {id});
      match a.phase
      case InClosed(log) =>
        if o == Neutral then left
        else if FailRun(log + [o]) >= p.threshold then left.(phase := InOpen(now))
        else left.(phase := InClosed(log + [o]))
      case InOpen(_) => left
      case InHalfOpen(_) =>
        if id in a.plain || o == Neutral then left
        else left.(phase := if o == Success then InClosed([]) else InOpen(now))
  }

  ghost function IsPlain(): Ticket -> bool { (t: Ticket) => !t.probe }

  ghost function Abs(st: State): Spec {
    Spec(
      match st.core.cur
      case Closed => InClosed(st.log)
      case Open => InOpen(st.core.openedAt)
      case HalfOpen => InHalfOpen(st.core.halfOpenAt),
      Where(st.live, IsPlain()),
      Probes(st, st.core.gen))
  }

  /** The part of the abstraction that only the calls in flight decide. */
  lemma FlightAfterAnswer(p: Params, st: State, id: nat, o: Outcome)
    requires id in st.live
    ensures var st' := AfterAnswer(p, st, id, o);
            && st'.live == st.live - {id}
            && Abs(st').plain == Abs(st).plain - {id}
            && Probes(st', st.core.gen) == Probes(st, st.core.gen) - {id}
            && st'.core.gen == st.core.gen
  {
    WhereMinus(st.live, IsPlain(), id);
    WhereMinus(st.live, IsProbe(st.core.gen), id);
  }

  /** A call in flight is an ordinary one, a probe of the latest period, or stale. */
  lemma WhoAnswers(st: State, id: nat)
    requires id in st.live
    ensures id in Abs(st).plain <==> !st.live[id].probe
    ensures id in Abs(st).current <==> st.live[id].probe && !Stale(st.core, st.live[id])
  {
  }

  lemma StaleAnswerRefines(p: Params, st: State, id: nat, o: Outcome)
    requires id in st.live && Stale(st.core, st.live[id])
    ensures Abs(AfterAnswer(p, st, id, o)) == Abs(st) == SpecAnswer(p, Abs(st), id, o, st.clock)
  {
    FlightAfterAnswer(p, st, id, o);
    WhoAnswers(st, id);
  }

  lemma ClosedAnswerRefines(p: Params, st: State, id: nat, o: Outcome)
    requires Tallied(p, st) && id in st.live && !Stale(st.core, st.live[id]) && st.core.cur.Closed?
    ensures Abs(AfterAnswer(p, st, id, o)) == SpecAnswer(p, Abs(st), id, o, st.clock)
  {
    FlightAfterAnswer(p, st, id, o);
    WhoAnswers(st, id);
    assert (st.log + [o])[..|st.log|] == st.log;
    hide Probes, IsPlain;
  }

  lemma OtherAnswerRefines(p: Params, st: State, id: nat, o: Outcome)
    requires id in st.live && !Stale(st.core, st.live[id]) && !st.core.cur.Closed?
    ensures Abs(AfterAnswer(p, st, id, o)) == SpecAnswer(p, Abs(st), id, o, st.clock)
  {
    FlightAfterAnswer(p, st, id, o);
    WhoAnswers(st, id);
  }

  lemma AnswerRefines(p: Params, st: State, id: nat, o: Outcome)
    requires Inv(p, st) && id in st.live
    ensures Abs(AfterAnswer(p, st, id, o)) == SpecAnswer(p, Abs(st), id, o, st.clock)
  {
    hide Abs, AfterAnswer, SpecAnswer, ProbesCounted, Paced, Budgeted, Tallied;
    if Stale(st.core, st.live[id]) {
      StaleAnswerRefines(p, st, id, o);
    } else if st.core.cur.Closed? {
      ClosedAnswerRefines(p, st, id, o);
    } else {
      OtherAnswerRefines(p, st, id, o);
    }
  }

  /** The same for an admission. */
  lemma FlightAfterGrant(st: State, id: nat, t: Ticket, g: nat)
    requires id !in st.live
    ensures var live := st.live[id := t];
            && (t.probe ==> Where(live, IsPlain()) == Abs(st).plain)
            && (!t.probe ==> Where(live, IsPlain()) == Abs(st).plain + {id})
            && (t == Ticket(true, g) ==> Where(live, IsProbe(g)) == Probes(st, g) + {id})
            && (t != Ticket(true, g) ==> Where(live, IsProbe(g)) == Probes(st, g))
  {
    WherePlus(st.live, IsPlain(), id, t);
    WherePlus(st.live, IsProbe(g), id, t);
  }

  lemma KnockRefusedRefines(p: Params, st: State, id: nat, now: int)
    requires p.Valid() && ProbesCounted(p, st) && Allow(p, st.core, now).1.Refused?
    ensures (Abs(AfterKnock(p, st, id, now)), false) == SpecKnock(p, Abs(st), id, now)
  {
    RefusedIff(p, st.core, now);
    assert AfterKnock(p, st, id, now) == st;
  }

  lemma KnockClosedRefines(p: Params, st: State, id: nat, now: int)
    requires id !in st.live && st.core.cur.Closed?
    ensures (Abs(AfterKnock(p, st, id, now)), true) == SpecKnock(p, Abs(st), id, now)
  {
    FlightAfterGrant(st, id, Ticket(false, 0), st.core.gen);
  }

  /** One more probe of the current period. */
  lemma KnockAgainRefines(p: Params, st: State, id: nat, now: int)
    requires ProbesCounted(p, st) && id !in st.live && st.core.cur.HalfOpen? && st.core.probes < p.maxProbes
    ensures (Abs(AfterKnock(p, st, id, now)), true) == SpecKnock(p, Abs(st), id, now)
  {
    FlightAfterGrant(st, id, Ticket(true, st.core.gen), st.core.gen);
    hide Where;
  }

  /** The first probe of a new period: nobody is in flight in it yet. */
  lemma KnockAnewRefines(p: Params, st: State, id: nat, now: int)
    requires p.Valid() && ProbesCounted(p, st) && id !in st.live && Allow(p, st.core, now).1.Granted?
    requires st.core.cur.Open? || (st.core.cur.HalfOpen? && st.core.probes >= p.maxProbes)
    ensures (Abs(AfterKnock(p, st, id, now)), true) == SpecKnock(p, Abs(st), id, now)
  {
    var g, st' := st.core.gen + 1, AfterKnock(p, st, id, now);
    assert st'.core == EnterHalfOpen(st.core, now).(probes := 1) && st'.live == st.live[id := Ticket(true, g)];
    FutureGenerationsEmpty(p, st, g);
    FlightAfterGrant(st, id, Ticket(true, g), g);
    hide Where;
    assert Abs(st') == Spec(InHalfOpen(now), Abs(st).plain, {} + {id});
  }

  lemma KnockRefines(p: Params, st: State, id: nat, now: int)
    requires Inv(p, st) && id !in st.live
    ensures (Abs(AfterKnock(p, st, id, now)), Allow(p, st.core, now).1.Granted?) == SpecKnock(p, Abs(st), id, now)
  {
    hide Abs, AfterKnock, Allow, SpecKnock, ProbesCounted, Paced, Budgeted, Tallied;
    if Allow(p, st.core, now).1.Refused? {
      KnockRefusedRefines(p, st, id, now);
    } else if st.core.cur.Closed? {
      KnockClosedRefines(p, st, id, now);
    } else if st.core.cur.HalfOpen? && st.core.probes < p.maxProbes {
      KnockAgainRefines(p, st, id, now);
    } else {
      KnockAnewRefines(p, st, id, now);
    }
  }

  // -------------------------------------------------------------------------
  // Whole runs

  ghost predicate CanRun(p: Params, st: State, acts: seq<Act>)
    decreases |acts|
  {
    acts == [] || (Enabled(st, acts[0]) && CanRun(p, Next(p, st, acts[0]), acts[1..]))
  }

  /** The answers the calls got, in order. */
  ghost function Answers(p: Params, st: State, acts: seq<Act>): seq<bool>
    requires CanRun(p, st, acts)
    decreases |acts|
  {
    if acts == [] then []
    else
      var rest := Answers(p, Next(p, st, acts[0]), acts[1..]);
      if acts[0].Knock? then [Allow(p, st.core, acts[0].now).1.Granted?] + rest else rest
  }

  ghost function SpecAnswers(p: Params, a: Spec, clock: int, acts: seq<Act>): seq<bool>
    decreases |acts|
  {
    if acts == [] then []
    else
      match acts[0]
      case Advance(to) => SpecAnswers(p, a, to, acts[1..])
      case Knock(id, now) =>
        var (a', yes) := SpecKnock(p, a, id, now);
        [yes] + SpecAnswers(p, a', clock, acts[1..])
      case Answer(id, o) => SpecAnswers(p, SpecAnswer(p, a, id, o, clock), clock, acts[1..])
  }

  /** No caller can tell the breaker from the specification. */
  lemma {:induction false} SameAnswers(p: Params, st: State, acts: seq<Act>)
    requires Inv(p, st) && CanRun(p, st, acts)
    ensures Answers(p, st, acts) == SpecAnswers(p, Abs(st), st.clock, acts)
    decreases |acts|
  {
    if acts != [] {
      NextInv(p, st, acts[0]);
      SameAnswers(p, Next(p, st, acts[0]), acts[1..]);
      match acts[0]
      case Advance(to) => assert Abs(Next(p, st, acts[0])) == Abs(st);
      case Knock(id, now) => KnockRefines(p, st, id, now);
      case Answer(id, o) => AnswerRefines(p, st, id, o);
    }
  }
}
