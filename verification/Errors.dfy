/** Error values as trees, and the verdict a finished `Do` call files with the
    state machine. An error is a sentinel, a wrapper around one error
    (`Unwrap() error`) or a join of several (`Unwrap() []error`); `errors.Is`
    and `errors.As` search every node of the tree. */
module Errors {

  datatype Option<+T> = None | Some(value: T)

  datatype Leaf = Canceled | DeadlineExceeded | Stopped | CircuitOpen | Plain

  datatype Wrapper = UrlError | LocalOp | Opaque

  datatype Err =
    | Sentinel(leaf: Leaf)
    | Wrapped(kind: Wrapper, inner: Err)
    | Exhausted(last: Option<Err>)
    | Joined(parts: seq<Err>)

  datatype Outcome = Neutral | Success | Failure

  /** How `Do` ended: a response, an error, or a panic that keeps propagating. */
  datatype Result = Response(status: int) | Failed(err: Err) | Panicked

  /** `errors.Is(e, leaf)`. */
  predicate Is(e: Err, leaf: Leaf) {
    match e
    case Sentinel(l) => l == leaf
    case Wrapped(_, inner) => Is(inner, leaf)
    case Exhausted(last) => last.Some? && Is(last.value, leaf)
    case Joined(parts) => exists i | 0 <= i < |parts| :: Is(parts[i], leaf)
  }

  /** `errors.As` for the wrapper types the classification asks about. */
  predicate As(e: Err, kind: Wrapper) {
    match e
    case Sentinel(_) => false
    case Wrapped(k, inner) => k == kind || As(inner, kind)
    case Exhausted(last) => last.Some? && As(last.value, kind)
    case Joined(parts) => exists i | 0 <= i < |parts| :: As(parts[i], kind)
  }

  /** The nodes of an error tree. */
  ghost predicate NodeOf(n: Err, e: Err) {
    || n == e
    || match e
       case Sentinel(_) => false
       case Wrapped(_, inner) => NodeOf(n, inner)
       case Exhausted(last) => last.Some? && NodeOf(n, last.value)
       case Joined(parts) => exists i | 0 <= i < |parts| :: NodeOf(n, parts[i])
  }

  /** `errors.Is` finds a sentinel exactly when it is a node of the tree. */
  lemma {:induction false} IsIff(e: Err, leaf: Leaf)
    ensures Is(e, leaf) <==> NodeOf(Sentinel(leaf), e)
  {
    match e
    case Sentinel(_) =>
    case Wrapped(_, inner) => IsIff(inner, leaf);
    case Exhausted(last) =>
      if last.Some? {
        IsIff(last.value, leaf);
      }
    case Joined(parts) =>
      forall i | 0 <= i < |parts| ensures Is(parts[i], leaf) <==> NodeOf(Sentinel(leaf), parts[i]) {
        IsIff(parts[i], leaf);
      }
  }

  /** `errors.As` finds a wrapper exactly when some node of the tree is one. */
  lemma {:induction false} AsIff(e: Err, kind: Wrapper)
    ensures As(e, kind) <==> exists inner :: NodeOf(Wrapped(kind, inner), e)
  {
    match e
    case Sentinel(_) =>
    case Wrapped(k, inner) =>
      AsIff(inner, kind);
      assert NodeOf(Wrapped(k, inner), e);
    case Exhausted(last) =>
      if last.Some? {
        AsIff(last.value, kind);
      }
    case Joined(parts) =>
      forall i | 0 <= i < |parts|
        ensures As(parts[i], kind) <==> exists inner :: NodeOf(Wrapped(kind, inner), parts[i])
      {
        AsIff(parts[i], kind);
      }
  }

  /** An error without joins: a chain. */
  predicate Linear(e: Err) {
    match e
    case Sentinel(_) => true
    case Wrapped(_, inner) => Linear(inner)
    case Exhausted(last) => last.Some? ==> Linear(last.value)
    case Joined(_) => false
  }

  /** `classifyOutcome`. */
  function Classify(r: Result, statusFailMin: int): Outcome {
    match r
    case Response(status) => if statusFailMin > 0 && status >= statusFailMin then Failure else Success
    case Panicked => Failure
    case Failed(e) =>
      if Is(e, Canceled) then Neutral
      else if As(e, LocalOp) then Neutral
      else if As(e, UrlError) then Failure
      else if Is(e, DeadlineExceeded) || Is(e, Stopped) then Neutral
      else Failure
  }

  /** What the deferred function of `Do` reports: the classification, with a
      neutral deadline escalated once the call has seen a transport error. */
  function Verdict(r: Result, sawTransportError: bool, statusFailMin: int): Outcome {
    var o := Classify(r, statusFailMin);
    if o == Neutral && sawTransportError && r.Failed? && Is(r.err, DeadlineExceeded) then Failure else o
  }

  /** A chain has one leaf, so it cannot match two sentinels. */
  lemma {:induction false} LinearHasOneLeaf(e: Err, a: Leaf, b: Leaf)
    requires Linear(e) && Is(e, a) && Is(e, b)
    ensures a == b
  {
    match e
    case Sentinel(_) =>
    case Wrapped(_, inner) => LinearHasOneLeaf(inner, a, b);
    case Exhausted(last) => LinearHasOneLeaf(last.value, a, b);
    case Joined(_) =>
  }

  /** An explicit cancellation is never evidence about the downstream, whatever
      wraps it and whatever happened before, as long as the error is a chain. */
  lemma LinearCancelIsNeutral(e: Err, sawTransportError: bool, statusFailMin: int)
    requires Linear(e) && Is(e, Canceled)
    ensures Verdict(Failed(e), sawTransportError, statusFailMin) == Neutral
  {
    if Is(e, DeadlineExceeded) {
      LinearHasOneLeaf(e, Canceled, DeadlineExceeded);
    }
  }

  /** For errors with joins the promise fails in exactly one situation: the
      tree also holds a deadline and the call saw a transport error before. */
  lemma CancelIsNeutralIff(e: Err, sawTransportError: bool, statusFailMin: int)
    requires Is(e, Canceled)
    ensures Verdict(Failed(e), sawTransportError, statusFailMin) == Neutral
            <==> !(sawTransportError && Is(e, DeadlineExceeded))
    ensures Verdict(Failed(e), sawTransportError, statusFailMin) != Success
  {
    assert Classify(Failed(e), statusFailMin) == Neutral;
  }

  /** What `http.Client` may hand back when a call was cancelled and out of time. */
  function CancelledLate(): Err { Wrapped(UrlError, Joined([Sentinel(Canceled), Sentinel(DeadlineExceeded)])) }

  /** It is counted against the downstream. */
  lemma JoinedCancelCanFail(statusFailMin: int)
    ensures Is(CancelledLate(), Canceled)
    ensures Verdict(Failed(CancelledLate()), true, statusFailMin) == Failure
  {
    var e := CancelledLate().inner;
    assert Is(e.parts[0], Canceled) && Is(e.parts[1], DeadlineExceeded);
    CancelIsNeutralIff(CancelledLate(), true, statusFailMin);
  }

  /** A failure of the caller's own `GetBody` is neutral in exactly these cases. */
  lemma LocalErrorIsNeutralIff(e: Err, sawTransportError: bool, statusFailMin: int)
    ensures Verdict(Failed(Wrapped(LocalOp, e)), sawTransportError, statusFailMin) == Neutral
            <==> !(sawTransportError && Is(e, DeadlineExceeded))
    ensures Verdict(Failed(Wrapped(LocalOp, e)), sawTransportError, statusFailMin) != Success
  {
    assert Is(Wrapped(LocalOp, e), DeadlineExceeded) == Is(e, DeadlineExceeded);
    assert As(Wrapped(LocalOp, e), LocalOp);
  }

  /** A body that could not be read again in time, after a transport error. */
  function RewoundLate(): Err { Wrapped(LocalOp, Sentinel(DeadlineExceeded)) }

  lemma LocalErrorCanFail(statusFailMin: int)
    ensures Verdict(Failed(RewoundLate()), true, statusFailMin) == Failure
  {
    LocalErrorIsNeutralIff(Sentinel(DeadlineExceeded), true, statusFailMin);
  }

  /** An error that `http.Client` hands back is a `*url.Error`. Whatever it wraps,
      it is a failure exactly when nobody cancelled and no error is local, or when
      the call is out of time after a transport error. */
  lemma TransportVerdict(e: Err, sawTransportError: bool, statusFailMin: int)
    ensures Verdict(Failed(Wrapped(UrlError, e)), sawTransportError, statusFailMin) == Failure
            <==> || (!Is(e, Canceled) && !As(e, LocalOp))
                 || (sawTransportError && Is(e, DeadlineExceeded))
    ensures Verdict(Failed(Wrapped(UrlError, e)), sawTransportError, statusFailMin) != Success
  {
    var u := Wrapped(UrlError, e);
    assert Is(u, Canceled) == Is(e, Canceled) && Is(u, DeadlineExceeded) == Is(e, DeadlineExceeded);
    assert As(u, UrlError) && As(u, LocalOp) == As(e, LocalOp);
  }

  /** Exhausting the retries counts as the last transport error alone would. */
  lemma ExhaustionCountsAsItsCause(e: Err, sawTransportError: bool, statusFailMin: int)
    ensures Verdict(Failed(Exhausted(Some(e))), sawTransportError, statusFailMin)
            == Verdict(Failed(e), sawTransportError, statusFailMin)
  {
    forall l ensures Is(Exhausted(Some(e)), l) == Is(e, l) {}
    forall k ensures As(Exhausted(Some(e)), k) == As(e, k) {}
  }
}
