/** The mutable state machine. Each method is one critical section; the ghost
    field `run` is the history of the object, and `Valid` ties the fields to it,
    so everything proved about runs holds of the object between calls. */
module BreakerStates {
  import opened Errors
  import opened Breaker
  import opened Probing

  class BreakerState {
    const threshold: int
    const openFor: int
    const maxProbes: int

    var cur: Mode
    var consecFails: int
    var openedAt: int
    var probes: int
    var gen: nat
    var halfOpenAt: int

    ghost var run: State

    ghost function Settings(): Params { Params(threshold, openFor, maxProbes) }

    ghost function Fields(): Core
      reads this
    {
      Core(cur, consecFails, openedAt, probes, gen, halfOpenAt)
    }

    ghost predicate Valid()
      reads this
    {
      Inv(Settings(), run) && run.core == Fields()
    }

    constructor (threshold: int, openFor: int, maxProbes: int, ghost t0: nat)
      ensures Valid() && run == Init(t0)
      ensures Settings() == Sanitise(threshold, openFor, maxProbes)
    {
      this.threshold := if threshold < 1 then 1 else threshold;
      this.openFor := if openFor <= 0 then DEFAULT_OPEN_FOR else openFor;
      this.maxProbes := if maxProbes < 1 then 1 else maxProbes;
      cur, consecFails, openedAt, probes, gen, halfOpenAt := Closed, 0, 0, 0, 0, 0;
      run := Init(t0);
      new;
      InitInv(Settings(), t0);
    }

    /** The clock is not the object's: time passes between its methods. */
    ghost method Elapse(to: int)
      requires Valid() && run.clock <= to
      modifies this`run
      ensures Valid() && run == Next(Settings(), old(run), Advance(to))
    {
      NextInv(Settings(), run, Advance(to));
      run := run.(clock := to);
    }

    method EnterHalfOpen(now: int)
      modifies this`cur, this`probes, this`gen, this`halfOpenAt
      ensures Fields() == Breaker.EnterHalfOpen(old(Fields()), now)
    {
      cur := HalfOpen;
      probes := 0;
      gen := gen + 1;
      halfOpenAt := now;
    }

    /** `now` was read before the lock was taken, so it may be old. */
    method Allow(now: int, ghost id: nat) returns (probe: bool, ticketGen: nat, admitted: bool)
      requires Valid() && Enabled(run, Knock(id, now))
      modifies this
      ensures Valid() && run == Next(Settings(), old(run), Knock(id, now))
      ensures admitted <==> id in run.live
      ensures admitted ==> run.live[id] == Ticket(probe, ticketGen)
      ensures admitted == SpecKnock(Settings(), old(Abs(run)), id, now).1
      ensures admitted && probe ==> ticketGen == gen && cur.HalfOpen?
    {
      ghost var p := Settings();
      NextInv(p, run, Knock(id, now));
      KnockRefines(p, run, id, now);
      run := Next(p, run, Knock(id, now));
      if cur == Closed {
        return false, 0, true;
      }
      if cur == Open {
        if now - openedAt < openFor {
          return false, 0, false;
        }
        EnterHalfOpen(now);
      }
      if probes >= maxProbes {
        if now - halfOpenAt < openFor {
          return false, 0, false;
        }
        EnterHalfOpen(now);
      }
      probes := probes + 1;
      return true, gen, true;
    }

    /** `now` is read under the lock: it is the clock itself. */
    method Report(probe: bool, ticketGen: nat, o: Outcome, now: int, ghost id: nat)
      requires Valid() && id in run.live && run.live[id] == Ticket(probe, ticketGen) && now == run.clock
      modifies this
      ensures Valid() && run == Next(Settings(), old(run), Answer(id, o))
      ensures id !in run.live
      ensures Abs(run) == SpecAnswer(Settings(), old(Abs(run)), id, o, now)
    {
      ghost var p := Settings();
      NextInv(p, run, Answer(id, o));
      AnswerRefines(p, run, id, o);
      run := Next(p, run, Answer(id, o));
      File(probe, ticketGen, o, now);
    }

    /** The body of `report` on the fields alone. */
    method File(probe: bool, ticketGen: nat, o: Outcome, now: int)
      modifies this`cur, this`consecFails, this`openedAt, this`probes
      ensures Fields() == Breaker.Report(Settings(), old(Fields()), Ticket(probe, ticketGen), o, now)
    {
      if probe && ticketGen != gen {
        return;
      }
      match cur
      case Closed =>
        if o == Success {
          consecFails := 0;
        } else if o == Failure {
          consecFails := consecFails + 1;
          if consecFails >= threshold {
            cur := Open;
            openedAt := now;
          }
        }
      case HalfOpen =>
        if !probe {
          return;
        }
        match o {
          case Success =>
            cur := Closed;
            consecFails := 0;
          case Failure =>
            cur := Open;
            openedAt := now;
          case Neutral =>
            probes := probes - 1;
        }
      case Open =>
    }
  }
}
