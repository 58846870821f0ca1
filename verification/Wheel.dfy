/** A circular array of one bucket per second that stands for an unbounded log
    of events: as a value, and as the mutable object. */
module Wheels {
  const WHEEL_SECONDS := 600

  type Buckets = b: seq<int> | |b| == WHEEL_SECONDS witness seq(WHEEL_SECONDS, _ => 0)

  /** `last` is the second of the latest advance, 0 before the first one. */
  datatype Wheel = Wheel(buckets: Buckets, last: int)

  function Zeros(): Buckets { seq(WHEEL_SECONDS, _ => 0) }

  const NEW_WHEEL := Wheel(Zeros(), 0)

  /** The latest second up to `last` whose bucket is that of `sec`. */
  function Holder(last: int, sec: int): int { last - (last - sec) % WHEEL_SECONDS }

  /** The buckets once those of the seconds (last, sec] have been cleared. */
  function Cleared(b: Buckets, last: int, sec: int): Buckets {
    seq(WHEEL_SECONDS, i requires 0 <= i < WHEEL_SECONDS => if Holder(sec, i) > last then 0 else b[i])
  }

  /** `advance`. */
  function Advanced(w: Wheel, sec: int): Wheel {
    if w.last == 0 then w.(last := sec)
    else if sec <= w.last then w
    else Wheel(Cleared(w.buckets, w.last, sec), sec)
  }

  /** `record`. */
  function Recorded(w: Wheel, sec: int): Wheel {
    var a := Advanced(w, sec);
    var i := sec % WHEEL_SECONDS;
    if sec <= a.last && a.last - sec < WHEEL_SECONDS then a.(buckets := a.buckets[i := a.buckets[i] + 1]) else a
  }

  /** Adds up the buckets of the positive seconds in (from, upto]. */
  function BucketSum(b: Buckets, from: int, upto: int): int
    decreases upto - from
  {
    if upto <= from then 0
    else BucketSum(b, from, upto - 1) + if upto > 0 then b[upto % WHEEL_SECONDS] else 0
  }

  /** What `countLast` returns. */
  function Reading(w: Wheel, now: int, seconds: int): int {
    BucketSum(Advanced(w, now).buckets, now - seconds, now)
  }

  // -------------------------------------------------------------------------
  // Logs

  /** Logged events at seconds in (from, upto]. */
  function CountIn(log: seq<int>, from: int, upto: int): nat {
    if log == [] then 0
    else CountIn(log[..|log| - 1], from, upto) + if from < log[|log| - 1] <= upto then 1 else 0
  }

  function Count(log: seq<int>, sec: int): nat { CountIn(log, sec - 1, sec) }

  lemma CountSnoc(log: seq<int>, e: int, from: int, upto: int)
    ensures CountIn(log + [e], from, upto) == CountIn(log, from, upto) + if from < e <= upto then 1 else 0
  {
    assert (log + [e])[..|log|] == log;
  }

  lemma {:induction false} CountSplit(log: seq<int>, from: int, mid: int, upto: int)
    requires from <= mid <= upto
    ensures CountIn(log, from, upto) == CountIn(log, from, mid) + CountIn(log, mid, upto)
  {
    if log != [] {
      CountSplit(log[..|log| - 1], from, mid, upto);
    }
  }

  ghost predicate Between(log: seq<int>, lo: int, hi: int) {
    forall e | e in log :: lo < e <= hi
  }

  lemma {:induction false} CountOutside(log: seq<int>, lo: int, hi: int, from: int, upto: int)
    requires Between(log, lo, hi) && (upto <= lo || hi <= from)
    ensures CountIn(log, from, upto) == 0
  {
    if log != [] {
      var front := log[..|log| - 1];
      assert log[|log| - 1] in log;
      forall e | e in front ensures lo < e <= hi {
        assert e in log;
      }
      CountOutside(front, lo, hi, from, upto);
    }
  }

  lemma {:induction false} EmptyWindow(log: seq<int>, from: int, upto: int)
    requires upto <= from
    ensures CountIn(log, from, upto) == 0
  {
    if log != [] {
      EmptyWindow(log[..|log| - 1], from, upto);
    }
  }

  // -------------------------------------------------------------------------
  // A wheel shows a log

  /** The buckets hold the counts of the last `WHEEL_SECONDS` seconds. */
  ghost predicate Holds(b: Buckets, last: int, log: seq<int>) {
    forall s | last - WHEEL_SECONDS < s <= last :: b[s % WHEEL_SECONDS] == Count(log, s)
  }

  ghost predicate Shows(w: Wheel, log: seq<int>) {
    && w.last >= 0 && (w.last == 0 ==> log == [])
    && Between(log, 0, w.last)
    && Holds(w.buckets, w.last, log)
  }

  lemma NewShows()
    ensures Shows(NEW_WHEEL, [])
  {
  }

  /** A second of the last `WHEEL_SECONDS` is the one its bucket is held for. */
  lemma HolderOf(last: int, s: int)
    requires last - WHEEL_SECONDS < s <= last
    ensures Holder(last, s % WHEEL_SECONDS) == s == Holder(last, s)
  {
  }

  lemma HolderSharesBucket(last: int, sec: int)
    ensures Holder(last, sec) % WHEEL_SECONDS == sec % WHEEL_SECONDS
    ensures last - WHEEL_SECONDS < Holder(last, sec) <= last
  {
    var x := last - sec;
    assert x - x % WHEEL_SECONDS == WHEEL_SECONDS * (x / WHEEL_SECONDS);
    assert Holder(last, sec) == sec + WHEEL_SECONDS * (x / WHEEL_SECONDS);
  }

  /** One second later, one bucket has changed hands. */
  lemma HolderStep(s: int, i: int)
    requires 0 <= i < WHEEL_SECONDS
    ensures Holder(s, i) == if i == s % WHEEL_SECONDS then s else Holder(s - 1, i)
  {
    var q, m := s / WHEEL_SECONDS, s % WHEEL_SECONDS;
    assert s == WHEEL_SECONDS * q + m;
    if i <= m {
      Residue(s - i, q, m - i);
    } else {
      Residue(s - i, q - 1, m - i + WHEEL_SECONDS);
    }
    if i < m {
      Residue(s - 1 - i, q, m - i - 1);
    } else if i > m {
      Residue(s - 1 - i, q - 1, m - i - 1 + WHEEL_SECONDS);
    }
  }

  lemma Residue(x: int, q: int, r: int)
    requires x == WHEEL_SECONDS * q + r && 0 <= r < WHEEL_SECONDS
    ensures x % WHEEL_SECONDS == r
  {
  }

  /** Clearing the seconds up to `s` is clearing those before it and its own bucket. */
  lemma ClearedStep(b: Buckets, last: int, s: int)
    requires s > last
    ensures Cleared(b, last, s) == Cleared(b, last, s - 1)[s % WHEEL_SECONDS := 0]
  {
    var next := Cleared(b, last, s - 1)[s % WHEEL_SECONDS := 0];
    forall i | 0 <= i < WHEEL_SECONDS ensures Cleared(b, last, s)[i] == next[i] {
      HolderStep(s, i);
    }
  }

  lemma ClearedNothing(b: Buckets, last: int)
    ensures Cleared(b, last, last) == b
  {
  }

  lemma ClearedAll(b: Buckets, last: int, sec: int)
    requires sec - last >= WHEEL_SECONDS
    ensures Cleared(b, last, sec) == Zeros()
  {
  }

  /** A wheel that was never advanced has nothing in its buckets. */
  lemma UnusedIsEmpty(w: Wheel, sec: int)
    requires Shows(w, []) && w.last == 0
    ensures Holds(w.buckets, sec, [])
  {
    forall s | sec - WHEEL_SECONDS < s <= sec ensures w.buckets[s % WHEEL_SECONDS] == 0 {
      HolderSharesBucket(0, s);
      assert w.buckets[Holder(0, s) % WHEEL_SECONDS] == Count([], Holder(0, s));
    }
  }

  /** Advancing changes what the wheel can show, never the log. */
  lemma AdvancedShows(w: Wheel, log: seq<int>, sec: int)
    requires Shows(w, log) && sec > 0
    ensures Shows(Advanced(w, sec), log)
    ensures Advanced(w, sec).last == if w.last < sec then sec else w.last
  {
    if w.last == 0 {
      UnusedIsEmpty(w, sec);
    } else if w.last < sec {
      forall s | sec - WHEEL_SECONDS < s <= sec
        ensures Cleared(w.buckets, w.last, sec)[s % WHEEL_SECONDS] == Count(log, s)
      {
        HolderOf(sec, s);
        if s > w.last {
          CountOutside(log, 0, w.last, s - 1, s);
        }
      }
    }
  }

  /** Every event joins the log: on time, late, or too old to be held. */
  lemma RecordedShows(w: Wheel, log: seq<int>, sec: int)
    requires Shows(w, log) && sec > 0
    ensures Shows(Recorded(w, sec), log + [sec])
    ensures Recorded(w, sec).last == if w.last < sec then sec else w.last
  {
    var a, r := Advanced(w, sec), Recorded(w, sec);
    AdvancedShows(w, log, sec);
    forall s | a.last - WHEEL_SECONDS < s <= a.last
      ensures r.buckets[s % WHEEL_SECONDS] == Count(log + [sec], s)
    {
      CountSnoc(log, sec, s - 1, s);
      HolderOf(a.last, s);
      if a.last - sec < WHEEL_SECONDS {
        HolderOf(a.last, sec);
      }
    }
  }

  /** Advancing twice to the same second is advancing once. */
  lemma AdvancedTwice(w: Wheel, sec: int)
    ensures Advanced(Advanced(w, sec), sec) == Advanced(w, sec)
    ensures forall seconds :: Reading(Advanced(w, sec), sec, seconds) == Reading(w, sec, seconds)
  {
  }

  // -------------------------------------------------------------------------
  // Readings

  /** What adding up the buckets of a wheel with that log finds. */
  function Found(log: seq<int>, last: int, from: int, upto: int): nat
    decreases upto - from
  {
    if upto <= from then 0
    else Found(log, last, from, upto - 1) + if upto > 0 then Count(log, Holder(last, upto)) else 0
  }

  lemma {:induction false} SumFinds(w: Wheel, log: seq<int>, from: int, upto: int)
    requires Shows(w, log)
    ensures BucketSum(w.buckets, from, upto) == Found(log, w.last, from, upto)
    decreases upto - from
  {
    if upto > from {
      SumFinds(w, log, from, upto - 1);
      HolderSharesBucket(w.last, upto);
    }
  }

  lemma {:induction false} FoundExact(log: seq<int>, last: int, from: int, upto: int)
    requires Between(log, 0, last) && upto <= last
    requires upto <= from || upto <= 0 || last - WHEEL_SECONDS <= from || last <= WHEEL_SECONDS
    ensures Found(log, last, from, upto) == CountIn(log, from, upto)
    decreases upto - from
  {
    if upto <= from {
      EmptyWindow(log, from, upto);
    } else {
      FoundExact(log, last, from, upto - 1);
      CountSplit(log, from, upto - 1, upto);
      if upto <= 0 {
        CountOutside(log, 0, last, upto - 1, upto);
      } else {
        HolderOf(last, upto);
      }
    }
  }

  /** A wheel asked at or after its last second, for a window that it can hold,
      returns the number of logged events in that window. */
  lemma ReadingIsExact(w: Wheel, log: seq<int>, now: int, seconds: int)
    requires Shows(w, log) && now > 0 && w.last <= now && 0 <= seconds <= WHEEL_SECONDS
    ensures Reading(w, now, seconds) == CountIn(log, now - seconds, now)
  {
    AdvancedShows(w, log, now);
    SumFinds(Advanced(w, now), log, now - seconds, now);
    FoundExact(log, now, now - seconds, now);
  }

  /** The first second that a query looks at. */
  function Oldest(now: int, seconds: int): int {
    if now - seconds + 1 < 1 then 1 else now - seconds + 1
  }

  ghost predicate ExactForAll(last: int, now: int, seconds: int) {
    forall log | Between(log, 0, last) ::
      Found(log, last, now - seconds, now) == CountIn(log, now - seconds, now)
  }

  /** A query is exact for every log exactly when the oldest second it looks at
      is still on the wheel (or it looks at none). */
  lemma ExactIff(last: int, now: int, seconds: int)
    requires now <= last && seconds >= 0
    ensures ExactForAll(last, now, seconds)
            <==> (last - WHEEL_SECONDS < Oldest(now, seconds) || now < Oldest(now, seconds))
  {
    var s := Oldest(now, seconds);
    if last - WHEEL_SECONDS < s || now < s {
      forall log | Between(log, 0, last)
        ensures Found(log, last, now - seconds, now) == CountIn(log, now - seconds, now)
      {
        FoundExact(log, last, now - seconds, now);
      }
    } else {
      TakenOverIsCountedTwice(last, now, seconds);
    }
  }

  /** The failing query: an event that has taken over the bucket of a second on
      the far side of the wheel is found at that second, too. */
  lemma TakenOverIsCountedTwice(last: int, now: int, seconds: int)
    requires seconds >= 0 && Oldest(now, seconds) <= now <= last && Oldest(now, seconds) <= last - WHEEL_SECONDS
    ensures !ExactForAll(last, now, seconds)
  {
    var s := Oldest(now, seconds);
    var h := Holder(last, s);
    CountSnoc([], h, h - 1, h);
    CountSnoc([], h, now - seconds, now);
    assert [] + [h] == [h];
    FoundTwice([h], last, now - seconds, now, s, h);
    assert Between([h], 0, last);
  }

  lemma {:induction false} FoundTwice(log: seq<int>, last: int, from: int, upto: int, s: int, h: int)
    requires 0 < s < h <= last && h == Holder(last, s) && Count(log, h) >= 1
    ensures Found(log, last, from, upto) >= (if from < s <= upto then 1 else 0) + (if from < h <= upto then 1 else 0)
    decreases upto - from
  {
    if upto > from {
      FoundTwice(log, last, from, upto - 1, s, h);
      assert Holder(last, h) == h;
    }
  }

  // -------------------------------------------------------------------------
  // The object

  class BucketWheel {
    const buckets: array<int>
    var lastSec: int
    ghost var log: seq<int>

    ghost predicate Valid()
      reads this, buckets
    {
      buckets.Length == WHEEL_SECONDS && Shows(Value(), log)
    }

    ghost function Value(): Wheel
      reads this, buckets
      requires buckets.Length == WHEEL_SECONDS
    {
      Wheel(buckets[..], lastSec)
    }

    constructor ()
      ensures Valid() && Value() == NEW_WHEEL && log == [] && fresh(buckets)
    {
      buckets := new int[WHEEL_SECONDS](_ => 0);
      lastSec, log := 0, [];
      new;
      assert buckets[..] == Zeros();
      NewShows();
    }

    method Advance(sec: int)
      requires Valid() && sec > 0
      modifies this`lastSec, buckets
      ensures Valid() && Value() == Advanced(old(Value()), sec)
      ensures lastSec == if old(lastSec) < sec then sec else old(lastSec)
    {
      AdvancedShows(Value(), log, sec);
      if lastSec == 0 {
        lastSec := sec;
        return;
      }
      if sec <= lastSec {
        return;
      }
      if sec - lastSec >= WHEEL_SECONDS {
        ClearedAll(buckets[..], lastSec, sec);
        forall i | 0 <= i < WHEEL_SECONDS {
          buckets[i] := 0;
        }
        assert buckets[..] == Zeros();
      } else {
        ClearGap(sec);
      }
      lastSec := sec;
    }

    /** The loop over the seconds that have passed. */
    method ClearGap(sec: int)
      requires buckets.Length == WHEEL_SECONDS && lastSec < sec
      modifies buckets
      ensures buckets[..] == Cleared(old(buckets[..]), lastSec, sec)
    {
      ClearedNothing(buckets[..], lastSec);
      var s := lastSec + 1;
      while s <= sec
        invariant lastSec < s <= sec + 1
        invariant buckets[..] == Cleared(old(buckets[..]), lastSec, s - 1)
      {
        ClearedStep(old(buckets[..]), lastSec, s);
        buckets[s % WHEEL_SECONDS] := 0;
        s := s + 1;
      }
    }

    /** An event is logged whenever it is recorded, late or not. */
    method Record(sec: int)
      requires Valid() && sec > 0
      modifies this, buckets
      ensures Valid() && log == old(log) + [sec] && Value() == Recorded(old(Value()), sec)
      ensures lastSec == if old(lastSec) < sec then sec else old(lastSec)
    {
      RecordedShows(Value(), log, sec);
      Advance(sec);
      if sec == lastSec {
        buckets[sec % WHEEL_SECONDS] := buckets[sec % WHEEL_SECONDS] + 1;
      } else if sec < lastSec && lastSec - sec < WHEEL_SECONDS {
        buckets[sec % WHEEL_SECONDS] := buckets[sec % WHEEL_SECONDS] + 1;
      }
      log := log + [sec];
    }

    /** What the sum of the buckets is in any case, and the number of logged
        events when every second of the window is on the wheel. */
    method CountLast(now: int, seconds: int) returns (n: int)
      requires Valid() && now > 0 && seconds >= 0
      modifies this`lastSec, buckets
      ensures Valid() && Value() == Advanced(old(Value()), now)
      ensures lastSec == if old(lastSec) < now then now else old(lastSec)
      ensures n == Reading(old(Value()), now, seconds) == Found(log, lastSec, now - seconds, now)
      ensures old(lastSec) <= now && seconds <= WHEEL_SECONDS ==> n == CountIn(log, now - seconds, now)
    {
      Advance(now);
      n := AddUp(now, seconds);
      SumFinds(Value(), log, now - seconds, now);
      if old(lastSec) <= now && seconds <= WHEEL_SECONDS {
        ReadingIsExact(old(Value()), log, now, seconds);
      }
    }

    /** The loop over the seconds of the window. */
    method AddUp(now: int, seconds: int) returns (n: int)
      requires buckets.Length == WHEEL_SECONDS && seconds >= 0
      ensures n == BucketSum(buckets[..], now - seconds, now)
    {
      n := 0;
      var s := now - seconds + 1;
      while s <= now
        invariant now - seconds + 1 <= s <= now + 1
        invariant n == BucketSum(buckets[..], now - seconds, s - 1)
      {
        if s > 0 {
          n := n + buckets[s % WHEEL_SECONDS];
        }
        s := s + 1;
      }
    }
  }
}
