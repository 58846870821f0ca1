/** What a breaker is made of: the positional parameters, then the options in
    order, then the token bucket. */
module Options {
  import opened Arith
  import opened Errors
  import Backoff
  import Breaker
  import opened Bucket
  import opened DoCalls
  import opened Settings

  const DEFAULT_RETRY_AFTER := 300 * SECOND

  /** The fields that options assign. */
  datatype Fields = Fields(
    breaker: Option<Breaker.Params>, statusFailMin: int, backoff: Backoff.Policy, burst: int, retryAfterMax: int)

  const PLAIN := Fields(None, 0, Backoff.Fixed, 0, 0)

  /** Durations are 64-bit words in the first place. */
  predicate Fits(o: Setting) {
    match o
    case WithExponentialBackoff(base, max, _) => IsWord(base) && IsWord(max)
    case WithRetryAfter(maxWait) => IsWord(maxWait)
    case _ => true
  }

  function Apply(f: Fields, o: Setting): Fields
    requires Fits(o)
  {
    match o
    case WithBreaker(n, openFor, probes) => f.(breaker := Some(Breaker.Sanitise(n, openFor, probes)))
    case WithStatusCodeFailure(min) => f.(statusFailMin := min)
    case WithExponentialBackoff(base, max, jitter) => f.(backoff := Backoff.Sanitise(base, max, jitter))
    case WithBurst(n) => f.(burst := if n < 1 then 1 else n)
    case WithRetryAfter(maxWait) => f.(retryAfterMax := if maxWait <= 0 then DEFAULT_RETRY_AFTER else maxWait)
    case WithRetryPolicy => f
    case WithDefaultTimeout(_) => f
    case Nothing => f
  }

  predicate AllFit(os: seq<Setting>) { forall o | o in os :: Fits(o) }

  function ApplyAll(f: Fields, os: seq<Setting>): Fields
    requires AllFit(os)
    decreases |os|
  {
    if os == [] then f else ApplyAll(Apply(f, os[0]), os[1..])
  }

  /** `NewCircuitBreakerWithOptions`: the bucket is sized after the options. */
  function Built(maxConcurrent: int, maxRequests: int, windowSeconds: int, maxRetries: int, os: seq<Setting>): Config
    requires AllFit(os)
  {
    var f := ApplyAll(PLAIN, os);
    Config(f.breaker, maxConcurrent, maxRetries, f.statusFailMin, f.retryAfterMax,
           MakePlan(maxRequests, windowSeconds, f.burst), f.backoff)
  }

  ghost predicate FieldsInv(f: Fields) {
    && (f.breaker.Some? ==> f.breaker.value.Valid())
    && f.backoff.Valid() && 0 <= f.retryAfterMax <= MAX_INT64 && f.burst >= 0
  }

  lemma ApplyKeepsInv(f: Fields, o: Setting)
    requires FieldsInv(f) && Fits(o)
    ensures FieldsInv(Apply(f, o))
  {
  }

  lemma {:induction false} ApplyAllKeepsInv(f: Fields, os: seq<Setting>)
    requires FieldsInv(f) && AllFit(os)
    ensures FieldsInv(ApplyAll(f, os))
    decreases |os|
  {
    if os != [] {
      ApplyKeepsInv(f, os[0]);
      ApplyAllKeepsInv(Apply(f, os[0]), os[1..]);
    }
  }

  /** Whatever is asked for, the breaker that results is one that everything
      proved about breakers holds of. */
  lemma BuiltIsValid(maxConcurrent: int, maxRequests: int, windowSeconds: int, maxRetries: int, os: seq<Setting>)
    requires AllFit(os)
    ensures Built(maxConcurrent, maxRequests, windowSeconds, maxRetries, os).Valid()
  {
    ApplyAllKeepsInv(PLAIN, os);
    PlansAreValid(maxRequests, windowSeconds, ApplyAll(PLAIN, os).burst);
  }

  /** Options that assign the same field. */
  predicate SameKind(a: Setting, b: Setting) {
    || (a.WithBreaker? && b.WithBreaker?) || (a.WithStatusCodeFailure? && b.WithStatusCodeFailure?)
    || (a.WithExponentialBackoff? && b.WithExponentialBackoff?) || (a.WithBurst? && b.WithBurst?)
    || (a.WithRetryAfter? && b.WithRetryAfter?)
  }

  /** The order of options matters only among those of one kind, where the last one wins. */
  lemma LastOfItsKindWins(f: Fields, a: Setting, b: Setting)
    requires Fits(a) && Fits(b)
    ensures SameKind(a, b) ==> Apply(Apply(f, a), b) == Apply(f, b)
    ensures !SameKind(a, b) ==> Apply(Apply(f, a), b) == Apply(Apply(f, b), a)
  {
  }

  /** In particular the bucket does not depend on where `WithBurst` stands: an
      option of another kind may change places with its neighbour. */
  lemma {:induction false} NeighboursMaySwap(f: Fields, before: seq<Setting>, a: Setting, b: Setting,
                                             after: seq<Setting>)
    requires AllFit(before + [a, b] + after) && AllFit(before + [b, a] + after) && !SameKind(a, b)
    ensures ApplyAll(f, before + [a, b] + after) == ApplyAll(f, before + [b, a] + after)
    decreases |before|
  {
    var x, y := before + [a, b] + after, before + [b, a] + after;
    if before == [] {
      assert x[1..][1..] == after == y[1..][1..] && x[1..][0] == b && y[1..][0] == a && x[0] == a && y[0] == b;
      assert a in x && b in x;
      LastOfItsKindWins(f, a, b);
    } else {
      assert x[1..] == before[1..] + [a, b] + after && y[1..] == before[1..] + [b, a] + after && x[0] == y[0];
      assert x[0] in x;
      NeighboursMaySwap(Apply(f, x[0]), before[1..], a, b, after);
    }
  }

  lemma {:induction false} ApplyAllSnoc(f: Fields, os: seq<Setting>, o: Setting)
    requires AllFit(os) && Fits(o)
    ensures AllFit(os + [o]) && ApplyAll(f, os + [o]) == Apply(ApplyAll(f, os), o)
    decreases |os|
  {
    var all := os + [o];
    forall x | x in all ensures Fits(x) {
      assert x in os || x == o;
    }
    if os == [] {
      assert all[0] == o && all[1..] == [];
    } else {
      assert all[0] == os[0] && all[1..] == os[1..] + [o] && os[0] in os;
      ApplyAllSnoc(Apply(f, os[0]), os[1..], o);
    }
  }

  /** What an option makes of the field that it assigns. */
  predicate Carries(f: Fields, o: Setting) {
    match o
    case WithBreaker(n, openFor, probes) =>
      f.breaker == Some(Breaker.Params(if n < 1 then 1 else n, if openFor <= 0 then 30_000_000_000 else openFor,
                                       if probes < 1 then 1 else probes))
    case WithStatusCodeFailure(min) => f.statusFailMin == min
    case WithExponentialBackoff(base, max, jitter) =>
      var b := if base <= 0 then 100_000_000 else base;
      f.backoff == Backoff.Exponential(b, if max < b then b else max, jitter)
    case WithBurst(n) => f.burst == if n < 1 then 1 else n
    case WithRetryAfter(maxWait) => f.retryAfterMax == if maxWait <= 0 then 300_000_000_000 else maxWait
    case _ => true
  }

  /** The field that an option assigns is the same. */
  predicate SameField(f: Fields, g: Fields, o: Setting) {
    && (o.WithBreaker? ==> f.breaker == g.breaker) && (o.WithStatusCodeFailure? ==> f.statusFailMin == g.statusFailMin)
    && (o.WithExponentialBackoff? ==> f.backoff == g.backoff) && (o.WithBurst? ==> f.burst == g.burst)
    && (o.WithRetryAfter? ==> f.retryAfterMax == g.retryAfterMax)
  }

  lemma ApplySets(f: Fields, o: Setting, x: Setting)
    requires Fits(x)
    ensures Carries(Apply(f, x), x)
    ensures !SameKind(o, x) ==> SameField(f, Apply(f, x), o)
  {
  }

  lemma SameFieldCarries(f: Fields, g: Fields, o: Setting)
    requires Carries(f, o) && SameField(f, g, o)
    ensures Carries(g, o)
  {
  }

  lemma LastOption(f: Fields, os: seq<Setting>)
    requires os != [] && AllFit(os)
    ensures var front, x := os[..|os| - 1], os[|os| - 1];
            AllFit(front) && Fits(x) && ApplyAll(f, os) == Apply(ApplyAll(f, front), x)
  {
    var front, x := os[..|os| - 1], os[|os| - 1];
    assert os == front + [x] && x in os;
    forall o | o in front ensures o in os {}
    ApplyAllSnoc(f, front, x);
  }

  lemma {:induction false} LastOneCounts(f: Fields, os: seq<Setting>, i: nat)
    requires AllFit(os) && i < |os| && forall j | i < j < |os| :: !SameKind(os[i], os[j])
    ensures Carries(ApplyAll(f, os), os[i])
    decreases |os|
  {
    hide Carries, SameField, SameKind, Apply, Fits, ApplyAll;
    var front, x := os[..|os| - 1], os[|os| - 1];
    LastOption(f, os);
    ApplySets(ApplyAll(f, front), os[i], x);
    if i < |front| {
      LastOneCounts(f, front, i);
      SameFieldCarries(ApplyAll(f, front), ApplyAll(f, os), os[i]);
    }
  }

  lemma {:induction false} NoneLeavesAsIs(f: Fields, os: seq<Setting>, o: Setting)
    requires AllFit(os) && forall x | x in os :: !SameKind(o, x)
    ensures SameField(f, ApplyAll(f, os), o)
    decreases |os|
  {
    hide SameKind, Apply, Fits;
    if os != [] {
      var front, x := os[..|os| - 1], os[|os| - 1];
      LastOption(f, os);
      assert x in os;
      forall y | y in front ensures y in os {}
      ApplySets(ApplyAll(f, front), o, x);
      NoneLeavesAsIs(f, front, o);
    }
  }

  /** Every option sets what it is for: the last one of each kind, in any list. */
  lemma OptionsTakeEffect(maxConcurrent: int, maxRequests: int, windowSeconds: int, maxRetries: int,
                          os: seq<Setting>, i: nat)
    requires AllFit(os) && i < |os| && forall j | i < j < |os| :: !SameKind(os[i], os[j])
    ensures var f, k := ApplyAll(PLAIN, os), Built(maxConcurrent, maxRequests, windowSeconds, maxRetries, os);
            && Carries(f, os[i])
            && k.breaker == f.breaker && k.statusFailMin == f.statusFailMin && k.backoff == f.backoff
            && k.retryAfterMax == f.retryAfterMax && k.plan == MakePlan(maxRequests, windowSeconds, f.burst)
            && k.maxConcurrent == maxConcurrent && k.maxRetries == maxRetries
  {
    LastOneCounts(PLAIN, os, i);
    hide MakePlan, ApplyAll;
  }

  /** And without any option of a kind the breaker is as if there were no options: no
      circuit, no failures by status, half a second between attempts, a bucket of
      `maxRequests` if there is one, and no gate. */
  lemma WithoutOptions(maxConcurrent: int, maxRequests: int, windowSeconds: int, maxRetries: int, os: seq<Setting>)
    requires AllFit(os)
    ensures var k := Built(maxConcurrent, maxRequests, windowSeconds, maxRetries, os);
            && ((forall x | x in os :: !x.WithBreaker?) ==> k.breaker.None?)
            && ((forall x | x in os :: !x.WithStatusCodeFailure?) ==> k.statusFailMin == 0)
            && ((forall x | x in os :: !x.WithExponentialBackoff?) ==>
                  forall attempt: nat, d: int :: Backoff.Possible(k.backoff, attempt, d) <==> d == 500_000_000)
            && ((forall x | x in os :: !x.WithBurst?) ==> k.plan == MakePlan(maxRequests, windowSeconds, 0))
            && ((forall x | x in os :: !x.WithRetryAfter?) ==> k.retryAfterMax == 0)
  {
    hide MakePlan, ApplyAll;
    if forall x | x in os :: !x.WithBreaker? {
      NoneLeavesAsIs(PLAIN, os, WithBreaker(1, 1, 1));
    }
    if forall x | x in os :: !x.WithStatusCodeFailure? {
      NoneLeavesAsIs(PLAIN, os, WithStatusCodeFailure(0));
    }
    if forall x | x in os :: !x.WithExponentialBackoff? {
      NoneLeavesAsIs(PLAIN, os, WithExponentialBackoff(1, 1, false));
    }
    if forall x | x in os :: !x.WithBurst? {
      NoneLeavesAsIs(PLAIN, os, WithBurst(1));
    }
    if forall x | x in os :: !x.WithRetryAfter? {
      NoneLeavesAsIs(PLAIN, os, WithRetryAfter(1));
    }
  }

  /** The loop over the options, followed by the sizing of the bucket. */
  method Build(maxConcurrent: int, maxRequests: int, windowSeconds: int, maxRetries: int, os: seq<Setting>)
    returns (k: Config)
    requires AllFit(os)
    ensures k == Built(maxConcurrent, maxRequests, windowSeconds, maxRetries, os) && k.Valid()
  {
    var f := PLAIN;
    for i := 0 to |os|
      invariant AllFit(os[..i]) && f == ApplyAll(PLAIN, os[..i])
    {
      assert os[i] in os && os[..i + 1] == os[..i] + [os[i]];
      ApplyAllSnoc(PLAIN, os[..i], os[i]);
      f := Apply(f, os[i]);
    }
    assert os[..|os|] == os;
    BuiltIsValid(maxConcurrent, maxRequests, windowSeconds, maxRetries, os);
    k := Config(f.breaker, maxConcurrent, maxRetries, f.statusFailMin, f.retryAfterMax,
                MakePlan(maxRequests, windowSeconds, f.burst), f.backoff);
  }
}
