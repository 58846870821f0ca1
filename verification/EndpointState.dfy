/** The live metrics of one key: four families of events, each with two rings
    and a wheel, and the counters. Times are nanoseconds. */
module EndpointStates {
  import opened Rings
  import opened Wheels
  import opened Ledger

  class FamilyState {
    const durations: FloatRing
    const starts: TimeRing
    const wheel: BucketWheel

    var mean: real
    var ratio01: int
    var ratio05: int
    var ratio10: int

    ghost const repr: set<object>

    ghost predicate Valid()
      reads this, repr
    {
      && {this, durations, durations.vals, starts, starts.vals, wheel, wheel.buckets} <= repr
      && starts.vals != wheel.buckets
      && durations.Valid() && starts.Valid() && wheel.Valid()
      && wheel.log == Secs(starts.hist)
    }

    /** The value of the family: everything the rings were given, and the wheel. */
    ghost function View(): Family
      reads this, repr
      requires Valid()
    {
      Family(durations.hist, starts.hist, wheel.Value(), mean, ratio01, ratio05, ratio10)
    }

    constructor ()
      ensures Blank(this) && fresh(repr)
    {
      var d := new FloatRing();
      var s := new TimeRing();
      var w := new BucketWheel();
      durations, starts, wheel := d, s, w;
      mean, ratio01, ratio05, ratio10 := 0.0, 0, 0, 0;
      repr := {this, d, d.vals, s, s.vals, w, w.buckets};
    }

    /** `now` is the clock, read under the metrics lock. Asked at or after its
        last second, the wheel counts exactly. */
    method Record(start: int, end: int, now: int)
      requires Valid() && 0 < Sec(start) && 0 < Sec(now)
      modifies repr
      ensures Valid() && View() == Register(old(View()), Span(start, end, now))
      ensures Sec(start) <= Sec(now) && old(wheel.lastSec) <= Sec(now) ==>
                && ratio01 == CountIn(Log(View()), Sec(now) - 60, Sec(now))
                && ratio05 == CountIn(Log(View()), Sec(now) - 300, Sec(now))
                && ratio10 == CountIn(Log(View()), Sec(now) - 600, Sec(now))
    {
      Sample(start, end);
      wheel.Record(Sec(start));
      Recount(now);
    }

    /** The rings and the mean. */
    method Sample(start: int, end: int)
      requires Valid()
      modifies this`mean, durations, durations.vals, starts, starts.vals
      ensures durations.Valid() && starts.Valid()
      ensures starts.hist == old(starts.hist) + [start]
      ensures durations.hist == old(durations.hist) + [Seconds(end - start)]
      ensures mean == Average(durations.hist)
    {
      durations.Add(Seconds(end - start));
      starts.Add(start);
      mean := durations.Mean();
    }

    /** The window counts, as of `now`. */
    method Recount(now: int)
      requires Valid() && 0 < Sec(now)
      modifies this`ratio01, this`ratio05, this`ratio10, wheel`lastSec, wheel.buckets
      ensures Valid() && View() == Ledger.Recount(old(View()), Sec(now))
      ensures old(wheel.lastSec) <= Sec(now) ==>
                && ratio01 == CountIn(wheel.log, Sec(now) - 60, Sec(now))
                && ratio05 == CountIn(wheel.log, Sec(now) - 300, Sec(now))
                && ratio10 == CountIn(wheel.log, Sec(now) - 600, Sec(now))
    {
      hide Advanced, Reading, Found, CountIn, Shows, Secs;
      AdvancedTwice(wheel.Value(), Sec(now));
      ratio01 := wheel.CountLast(Sec(now), 60);
      ratio05 := wheel.CountLast(Sec(now), 300);
      ratio10 := wheel.CountLast(Sec(now), 600);
    }
  }

  /** Nothing recorded yet. */
  ghost predicate Blank(f: FamilyState)
    reads f, f.repr
  {
    f.Valid() && f.View() == UNUSED
  }

  method TwoFamilies() returns (a: FamilyState, b: FamilyState)
    ensures Blank(a) && Blank(b) && fresh(a.repr) && fresh(b.repr) && a.repr !! b.repr
    ensures a in a.repr && b in b.repr
  {
    a := new FamilyState();
    b := new FamilyState();
  }

  class EndpointState {
    var totalRequests: nat
    var successfulRequests: nat
    var failedRequests: nat
    var retryCount: nat
    var tokenWaitCancellations: nat

    const req: FamilyState
    const success: FamilyState
    const failure: FamilyState
    const retry: FamilyState

    ghost const repr: set<object>

    ghost predicate Valid()
      reads this, repr
    {
      && {this, req, success, failure, retry} <= repr
      && req in req.repr && success in success.repr && failure in failure.repr && retry in retry.repr
      && req.repr <= repr && success.repr <= repr && failure.repr <= repr && retry.repr <= repr
      && req.repr !! success.repr && req.repr !! failure.repr && req.repr !! retry.repr
      && success.repr !! failure.repr && success.repr !! retry.repr && failure.repr !! retry.repr
      && this !in req.repr && this !in success.repr && this !in failure.repr && this !in retry.repr
      && req.Valid() && success.Valid() && failure.Valid() && retry.Valid()
    }

    ghost function View(): Stats
      reads this, repr
      requires Valid()
    {
      Stats(totalRequests, successfulRequests, failedRequests, retryCount, tokenWaitCancellations,
            req.View(), success.View(), failure.View(), retry.View())
    }

    constructor ()
      ensures Valid() && fresh(repr) && this in repr && View() == ZERO
    {
      hide FamilyState.Valid;
      var a, b := TwoFamilies();
      var c, d := TwoFamilies();
      totalRequests, successfulRequests, failedRequests, retryCount, tokenWaitCancellations := 0, 0, 0, 0, 0;
      req, success, failure, retry := a, b, c, d;
      repr := {this} + a.repr + b.repr + c.repr + d.repr;
    }

    /** The closure that each `record*` method passes to `updateMetrics`. */
    method Apply(k: Kind, start: int, end: int, now: int)
      requires Valid() && 0 < Sec(start) && 0 < Sec(now)
      modifies repr
      ensures Valid() && View() == Bump(old(View()), k, Span(start, end, now))
    {
      hide Register, FamilyState.Valid, FamilyState.View;
      match k
      case Tried =>
        totalRequests := totalRequests + 1;
        req.Record(start, end, now);
      case Won =>
        successfulRequests := successfulRequests + 1;
        success.Record(start, end, now);
      case Lost =>
        failedRequests := failedRequests + 1;
        failure.Record(start, end, now);
      case Retried =>
        retryCount := retryCount + 1;
        retry.Record(start, end, now);
      case GaveUp =>
        tokenWaitCancellations := tokenWaitCancellations + 1;
    }
  }
}
