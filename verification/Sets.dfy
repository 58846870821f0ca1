/** Sizes of sets: the identifiers that a map sends somewhere, and subsets. */
module Sets {
  /** Identifiers bound by `m` to a value satisfying `p`. */
  ghost function Where<T(!new)>(m: map<nat, T>, p: T -> bool): set<nat> {
    set id | id in m && p(m[id])
  }

  /** Binding a new identifier adds it when its value satisfies `p`. */
  lemma WhereAdded<T(!new)>(m: map<nat, T>, p: T -> bool, id: nat, v: T)
    requires id !in m
    ensures |Where(m[id := v], p)| == |Where(m, p)| + if p(v) then 1 else 0
  {
    assert Where(m[id := v], p) == Where(m, p) + if p(v) then {id} else {};
  }

  /** Unbinding an identifier removes it when its value satisfied `p`. */
  lemma WhereRemoved<T(!new)>(m: map<nat, T>, p: T -> bool, id: nat)
    requires id in m
    ensures |Where(m - {id}, p)| == |Where(m, p)| - if p(m[id]) then 1 else 0
  {
    assert Where(m - {id}, p) == Where(m, p) - if p(m[id]) then {id} else {};
  }

  lemma WherePlus<T(!new)>(m: map<nat, T>, p: T -> bool, id: nat, v: T)
    requires id !in m
    ensures Where(m[id := v], p) == Where(m, p) + if p(v) then {id} else {}
  {
  }

  lemma WhereMinus<T(!new)>(m: map<nat, T>, p: T -> bool, id: nat)
    ensures Where(m - {id}, p) == Where(m, p) - {id}
  {
  }

  lemma {:induction false} SubsetIsSmaller<T>(a: set<T>, b: set<T>)
    requires a <= b
    ensures |a| <= |b|
  {
    if a != {} {
      var x :| x in a;
      SubsetIsSmaller(a - {x}, b - {x});
    }
  }

  /** A set of one has no two members. */
  lemma OnlyMember<T>(s: set<T>, a: T, b: T)
    requires |s| <= 1 && a in s && b in s
    ensures a == b
  {
    if a != b {
      SubsetIsSmaller({a, b}, s);
    }
  }

  /** What two sets hold together, one of the second apart. */
  lemma AllButOne<T>(s: set<T>, a: set<T>, b: set<T>, x: T)
    requires s <= a + (b - {x}) && x in b
    ensures |s| < |a| + |b|
  {
    SubsetIsSmaller(s, a + (b - {x}));
  }
}
