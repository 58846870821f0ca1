/** Fixed rings of the latest samples, with an incrementally kept total. */
module Rings {
  import opened Arith

  const RING_SIZE := 20

  /** The samples a ring still holds: the latest ones, oldest first. */
  function Latest<T>(hist: seq<T>): (s: seq<T>)
    ensures |s| == Min(|hist|, 20)
  {
    hist[|hist| - Min(|hist|, RING_SIZE)..]
  }

  function Sum(s: seq<real>): real {
    if s == [] then 0.0 else s[0] + Sum(s[1..])
  }

  lemma {:induction false} SumSnoc(s: seq<real>, x: real)
    ensures Sum(s + [x]) == Sum(s) + x
  {
    if s == [] {
      assert [x][1..] == [];
    } else {
      assert (s + [x])[1..] == s[1..] + [x];
      SumSnoc(s[1..], x);
    }
  }

  /** Once the ring is full a new sample pushes the oldest one out. */
  lemma LatestSum(hist: seq<real>, x: real)
    ensures |hist| < RING_SIZE ==> Sum(Latest(hist + [x])) == Sum(Latest(hist)) + x
    ensures |hist| >= RING_SIZE ==> Sum(Latest(hist + [x])) == Sum(Latest(hist)) - hist[|hist| - RING_SIZE] + x
  {
    if |hist| < RING_SIZE {
      assert Latest(hist + [x]) == Latest(hist) + [x];
      SumSnoc(Latest(hist), x);
    } else {
      var l := Latest(hist);
      assert Latest(hist + [x]) == l[1..] + [x];
      SumSnoc(l[1..], x);
    }
  }

  /** The mean of the samples still held, 0 without samples. */
  function Average(hist: seq<real>): real {
    if hist == [] then 0.0 else Sum(Latest(hist)) / |Latest(hist)| as real
  }

  /** The ring positions of the latest samples hold those samples. */
  ghost predicate Holds<T>(vals: seq<T>, hist: seq<T>) {
    && |vals| == RING_SIZE
    && forall i | 0 <= i < |hist| && |hist| - RING_SIZE <= i :: vals[i % RING_SIZE] == hist[i]
  }

  lemma HoldsSnoc<T>(vals: seq<T>, hist: seq<T>, v: T)
    requires Holds(vals, hist)
    ensures Holds(vals[|hist| % RING_SIZE := v], hist + [v])
    ensures |hist| >= RING_SIZE ==> vals[|hist| % RING_SIZE] == hist[|hist| - RING_SIZE]
  {
    var n := |hist|;
    assert (n - RING_SIZE) % RING_SIZE == n % RING_SIZE;
    forall i | 0 <= i < n && n + 1 - RING_SIZE <= i
      ensures i % RING_SIZE != n % RING_SIZE
    {
    }
  }

  class FloatRing {
    const vals: array<real>
    var n: nat
    var total: real
    ghost var hist: seq<real>

    ghost predicate Valid()
      reads this, vals
    {
      && vals.Length == RING_SIZE
      && n == |hist|
      && Holds(vals[..], hist)
      && total == Sum(Latest(hist))
    }

    constructor ()
      ensures Valid() && hist == [] && fresh(vals)
    {
      var slots := new real[RING_SIZE];
      vals := slots;
      n, total, hist := 0, 0.0, [];
    }

    method Add(v: real)
      requires Valid()
      modifies this, vals
      ensures Valid() && hist == old(hist) + [v]
    {
      var idx := n % RING_SIZE;
      HoldsSnoc(vals[..], hist, v);
      LatestSum(hist, v);
      if n >= RING_SIZE {
        total := total - vals[idx];
      }
      vals[idx] := v;
      total := total + v;
      n := n + 1;
      hist := hist + [v];
    }

    method Mean() returns (m: real)
      requires Valid()
      ensures m == Average(hist)
      ensures hist == [] ==> m == 0.0
      ensures m * Min(|hist|, 20) as real == Sum(hist[|hist| - Min(|hist|, 20)..])
    {
      var c := Min(n, RING_SIZE);
      if c == 0 {
        return 0.0;
      }
      return total / c as real;
    }

    method Slice() returns (out: seq<real>)
      requires Valid()
      ensures out == Latest(hist)
    {
      var c := Min(n, RING_SIZE);
      out := [];
      for i := n - c to n
        invariant out == hist[n - c..i]
      {
        out := out + [vals[i % RING_SIZE]];
      }
    }
  }

  class TimeRing {
    const vals: array<int>
    var n: nat
    ghost var hist: seq<int>

    ghost predicate Valid()
      reads this, vals
    {
      && vals.Length == RING_SIZE
      && n == |hist|
      && Holds(vals[..], hist)
    }

    constructor ()
      ensures Valid() && hist == [] && fresh(vals)
    {
      var slots := new int[RING_SIZE];
      vals := slots;
      n, hist := 0, [];
    }

    method Add(t: int)
      requires Valid()
      modifies this, vals
      ensures Valid() && hist == old(hist) + [t]
    {
      HoldsSnoc(vals[..], hist, t);
      vals[n % RING_SIZE] := t;
      n := n + 1;
      hist := hist + [t];
    }

    method Slice() returns (out: seq<int>)
      requires Valid()
      ensures out == Latest(hist)
    {
      var c := Min(n, RING_SIZE);
      out := [];
      for i := n - c to n
        invariant out == hist[n - c..i]
      {
        out := out + [vals[i % RING_SIZE]];
      }
    }
  }
}
