/** The closed/open/half-open machine as a value: one function per critical
    section of `breakerState`. */
module Breaker {
  import opened Errors

  datatype Mode = Closed | Open | HalfOpen

  const DEFAULT_OPEN_FOR := 30_000_000_000

  datatype Params = Params(threshold: int, openFor: int, maxProbes: int) {
    predicate Valid() { threshold >= 1 && openFor > 0 && maxProbes >= 1 }
  }

  /** `newBreakerState`: values that make no sense become the minimum. */
  function Sanitise(threshold: int, openFor: int, maxProbes: int): (p: Params)
    ensures p.Valid()
    ensures Params(threshold, openFor, maxProbes).Valid() <==> p == Params(threshold, openFor, maxProbes)
    ensures threshold >= 1 ==> p.threshold == threshold
    ensures threshold < 1 ==> p.threshold == 1
    ensures openFor > 0 ==> p.openFor == openFor
    ensures openFor <= 0 ==> p.openFor == DEFAULT_OPEN_FOR
    ensures maxProbes >= 1 ==> p.maxProbes == maxProbes
    ensures maxProbes < 1 ==> p.maxProbes == 1
  {
    Params(
      if threshold < 1 then 1 else threshold,
      if openFor <= 0 then DEFAULT_OPEN_FOR else openFor,
      if maxProbes < 1 then 1 else maxProbes)
  }

  /** The guarded fields, with times in nanoseconds and 0 for Go's zero time. */
  datatype Core = Core(cur: Mode, consecFails: int, openedAt: int, probes: int, gen: nat, halfOpenAt: int)

  const FRESH := Core(Closed, 0, 0, 0, 0, 0)

  /** Permission to proceed: whether the call is a probe, and of which generation. */
  datatype Ticket = Ticket(probe: bool, gen: nat)

  datatype Admission = Refused | Granted(ticket: Ticket)

  function EnterHalfOpen(b: Core, now: int): Core {
    b.(cur := HalfOpen, probes := 0, gen := b.gen + 1, halfOpenAt := now)
  }

  function Allow(p: Params, b: Core, now: int): (Core, Admission) {
    if b.cur.Closed? then (b, Granted(Ticket(false, 0)))
    else if b.cur.Open? && now - b.openedAt < p.openFor then (b, Refused)
    else
      var h := if b.cur.Open? then EnterHalfOpen(b, now) else b;
      if h.probes >= p.maxProbes && now - h.halfOpenAt < p.openFor then (h, Refused)
      else
        var g := if h.probes >= p.maxProbes then EnterHalfOpen(h, now) else h;
        (g.(probes := g.probes + 1), Granted(Ticket(true, g.gen)))
  }

  function Report(p: Params, b: Core, t: Ticket, o: Outcome, now: int): Core {
    if t.probe && t.gen != b.gen then b
    else match b.cur
      case Closed =>
        (match o
         case Success => b.(consecFails := 0)
         case Failure =>
           if b.consecFails + 1 >= p.threshold
           then b.(consecFails := b.consecFails + 1, cur := Open, openedAt := now)
           else b.(consecFails := b.consecFails + 1)
         case Neutral => b)
      case HalfOpen =>
        if !t.probe then b
        else (match o
              case Success => b.(cur := Closed, consecFails := 0)
              case Failure => b.(cur := Open, openedAt := now)
              case Neutral => b.(probes := b.probes - 1))
      case Open => b
  }

  // -------------------------------------------------------------------------
  // Open is silent and never wedges

  datatype Stimulus = Ask(now: int) | Tell(ticket: Ticket, outcome: Outcome, at: int)

  /** Plays stimuli against the machine; the second part lists the admissions. */
  function Play(p: Params, b: Core, xs: seq<Stimulus>): (Core, seq<Ticket>)
    decreases |xs|
  {
    if xs == [] then (b, [])
    else
      match xs[0]
      case Ask(now) =>
        var (b1, a) := Allow(p, b, now);
        var (b2, rest) := Play(p, b1, xs[1..]);
        (b2, if a.Granted? then [a.ticket] + rest else rest)
      case Tell(t, o, at) =>
        Play(p, Report(p, b, t, o, at), xs[1..])
  }

  /** While open, until `openFor` has passed, whatever happens admits nobody and
      changes nothing. */
  lemma {:induction false} OpenIsSilent(p: Params, b: Core, xs: seq<Stimulus>)
    requires b.cur.Open?
    requires forall x | x in xs && x.Ask? :: x.now < b.openedAt + p.openFor
    ensures Play(p, b, xs) == (b, [])
  {
    if xs != [] {
      assert xs[0] in xs;
      OpenIsSilent(p, b, xs[1..]);
    }
  }

  /** Whatever became of the probes, one `openFor` after the later of the last
      opening and the last half-open start a call is admitted. No invariant is
      needed: it holds in every state, so no history can wedge the breaker. */
  lemma NeverWedges(p: Params, b: Core, now: int)
    requires p.Valid()
    requires now >= b.openedAt + p.openFor && now >= b.halfOpenAt + p.openFor
    ensures Allow(p, b, now).1.Granted?
    ensures !b.cur.Closed? ==> Allow(p, b, now).1.ticket.probe && Allow(p, b, now).0.cur.HalfOpen?
  {
  }

  /** The report is about the present: it comes from no probe, or from one of the
      present half-open period. */
  predicate Heard(b: Core, t: Ticket) { !t.probe || t.gen == b.gen }

  /** Exactly when a report opens the circuit, closes it, counts a failure, forgets
      the failures, or hands a probe slot back; all else leaves it as it is. */
  lemma ReportMovesIff(p: Params, b: Core, t: Ticket, o: Outcome, now: int)
    ensures var d, heard := Report(p, b, t, o, now), Heard(b, t);
            var counts := b.cur.Closed? && heard && o == Failure;
            var opens := (counts && b.consecFails + 1 >= p.threshold)
                         || (b.cur.HalfOpen? && t.probe && heard && o == Failure);
            var closes := b.cur.HalfOpen? && t.probe && heard && o == Success;
            && d.cur == (if opens then Open else if closes then Closed else b.cur)
            && d.openedAt == (if opens then now else b.openedAt)
            && d.consecFails == (if counts then b.consecFails + 1
                                 else if closes || (b.cur.Closed? && heard && o == Success) then 0
                                 else b.consecFails)
            && d.probes == (if b.cur.HalfOpen? && t.probe && heard && o == Neutral then b.probes - 1 else b.probes)
            && d.gen == b.gen && d.halfOpenAt == b.halfOpenAt
  {
  }

  /** Exactly when a call is refused. */
  lemma RefusedIff(p: Params, b: Core, now: int)
    requires p.Valid()
    ensures Allow(p, b, now).1.Refused?
            <==> (b.cur.Open? && now < b.openedAt + p.openFor)
                 || (b.cur.HalfOpen? && b.probes >= p.maxProbes && now < b.halfOpenAt + p.openFor)
    ensures Allow(p, b, now).1.Refused? ==> Allow(p, b, now).0 == b
  {
  }
}
