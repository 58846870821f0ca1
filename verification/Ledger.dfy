/** The metrics store as a value: counters, samples and wheels per host and key,
    the per-host aggregate, and the cap on keys. Times are nanoseconds. */
module Ledger {
  import opened Arith
  import opened Rings
  import opened Sets
  import opened Wheels

  const ROOT := "::root"
  const OTHER := "::other"
  const MAX_ENDPOINTS_PER_HOST := 1026

  /** `time.Time.Unix`, for times in nanoseconds. */
  function Sec(t: int): (s: int)
    ensures s * 1_000_000_000 <= t < (s + 1) * 1_000_000_000
  {
    t / SECOND
  }

  /** recordAttempt, recordSuccess, recordFailure, recordRetry, recordTokenCancel. */
  datatype Kind = Tried | Won | Lost | Retried | GaveUp

  /** The times of one record: when the attempt started, when the recording was
      called for, and the clock under the metrics lock. */
  datatype Span = Span(start: int, end: int, now: int)

  function Seconds(d: int): real { d as real / SECOND as real }

  /** One family of events. The two rings appear as all the samples they were
      given: what a ring keeps is their latest part. */
  datatype Family = Family(
    durations: seq<real>, starts: seq<int>, wheel: Wheel,
    mean: real, ratio01: int, ratio05: int, ratio10: int)

  const UNUSED := Family([], [], NEW_WHEEL, 0.0, 0, 0, 0)

  /** `familyState.record`. */
  function Register(f: Family, w: Span): Family {
    Recount(
      f.(durations := f.durations + [Seconds(w.end - w.start)], starts := f.starts + [w.start],
         wheel := Recorded(f.wheel, Sec(w.start)), mean := Average(f.durations + [Seconds(w.end - w.start)])),
      Sec(w.now))
  }

  /** The window counts, as of a second. */
  function Recount(f: Family, now: int): Family {
    f.(wheel := Advanced(f.wheel, now),
       ratio01 := Reading(f.wheel, now, 60),
       ratio05 := Reading(f.wheel, now, 300),
       ratio10 := Reading(f.wheel, now, 600))
  }

  /** Five counters, and a family for four of the kinds. */
  datatype Stats = Stats(
    total: nat, successful: nat, failed: nat, retries: nat, cancellations: nat,
    req: Family, success: Family, failure: Family, retry: Family)

  const ZERO := Stats(0, 0, 0, 0, 0, UNUSED, UNUSED, UNUSED, UNUSED)

  type HostMetrics = map<string, Stats>
  type Metrics = map<string, HostMetrics>

  function Bump(s: Stats, k: Kind, w: Span): Stats {
    match k
    case Tried => s.(total := s.total + 1, req := Register(s.req, w))
    case Won => s.(successful := s.successful + 1, success := Register(s.success, w))
    case Lost => s.(failed := s.failed + 1, failure := Register(s.failure, w))
    case Retried => s.(retries := s.retries + 1, retry := Register(s.retry, w))
    case GaveUp => s.(cancellations := s.cancellations + 1)
  }

  /** A real path never passes for a synthetic key. */
  function Normal(path: string): (n: string)
    ensures n != ROOT && n != OTHER
    ensures path != "::root" && path != "::other" ==> n == path
    ensures path == "::root" || path == "::other" ==> n == "/" + path
  {
    if path == ROOT || path == OTHER then
      assert ("/" + path)[0] == '/' && ROOT[0] == ':' && OTHER[0] == ':';
      "/" + path
    else path
  }

  function HostOf(m: Metrics, host: string): HostMetrics {
    if host in m then m[host] else map[ROOT := ZERO]
  }

  lemma HostIsKnown(m: Metrics, host: string)
    requires host in m
    ensures HostOf(m, host) == m[host]
  {
  }

  /** The key an event of this path is booked under. */
  function Route(hm: HostMetrics, path: string): (k: string)
    ensures k != ROOT
  {
    if Normal(path) in hm then Normal(path)
    else if |hm| >= MAX_ENDPOINTS_PER_HOST then OTHER
    else Normal(path)
  }

  function At(hm: HostMetrics, key: string): Stats { if key in hm then hm[key] else ZERO }

  function UpdateHost(hm: HostMetrics, path: string, k: Kind, w: Span): HostMetrics {
    var key := Route(hm, path);
    hm[key := Bump(At(hm, key), k, w)][ROOT := Bump(At(hm, ROOT), k, w)]
  }

  /** `updateMetrics`. */
  function Update(m: Metrics, host: string, path: string, k: Kind, w: Span): Metrics {
    m[host := UpdateHost(HostOf(m, host), path, k, w)]
  }

  datatype Event = Event(host: string, path: string, kind: Kind, span: Span)

  /** The store after a history of events. */
  function Replay(es: seq<Event>): Metrics {
    if es == [] then map[]
    else
      var e := es[|es| - 1];
      Update(Replay(es[..|es| - 1]), e.host, e.path, e.kind, e.span)
  }

  lemma ReplaySnoc(es: seq<Event>, e: Event)
    ensures Replay(es + [e]) == Update(Replay(es), e.host, e.path, e.kind, e.span)
  {
    assert (es + [e])[..|es|] == es;
  }

  // -------------------------------------------------------------------------
  // Routing

  /** The path has a key of its own or is merged with others for good. */
  predicate Settled(hm: HostMetrics, path: string) {
    Normal(path) in hm || (|hm| >= MAX_ENDPOINTS_PER_HOST && OTHER in hm)
  }

  /** An event settles its path; a settled path keeps its key whatever follows. */
  lemma RouteIsStable(hm: HostMetrics, path: string, other: string, k: Kind, w: Span)
    ensures var after := UpdateHost(hm, other, k, w);
            && Settled(after, other) && Route(after, other) == Route(hm, other)
            && (Settled(hm, path) ==> Settled(after, path) && Route(after, path) == Route(hm, path))
  {
    hide Bump;
    var after := UpdateHost(hm, other, k, w);
    assert after.Keys == hm.Keys + {Route(hm, other), ROOT};
    assert hm.Keys <= after.Keys;
    SubsetIsSmaller(hm.Keys, after.Keys);
    assert |hm| == |hm.Keys| && |after| == |after.Keys|;
  }

  /** The different paths of a host that a history mentions. */
  function Seen(es: seq<Event>, host: string): set<string> {
    set e | e in es && e.host == host :: Normal(e.path)
  }

  lemma SeenSnoc(es: seq<Event>, host: string)
    requires es != []
    ensures var e := es[|es| - 1];
            Seen(es, host) == Seen(es[..|es| - 1], host) + if e.host == host then {Normal(e.path)} else {}
  {
    var front, e := es[..|es| - 1], es[|es| - 1];
    assert es == front + [e];
    forall x ensures x in es <==> x in front || x == e {}
  }

  const OWN := MAX_ENDPOINTS_PER_HOST - 1

  /** The keys of a host: its own paths while they fit, then the first `OWN` of
      them and the catch-all. */
  ghost predicate KeysFit(hm: HostMetrics, seen: set<string>) {
    && ROOT !in seen && OTHER !in seen
    && (|seen| <= OWN ==> hm.Keys == {ROOT} + seen)
    && (|seen| > OWN ==> ROOT in hm && OTHER in hm && hm.Keys <= {ROOT, OTHER} + seen && |hm.Keys| == OWN + 2)
  }

  lemma OneMorePath(hm: HostMetrics, seen: set<string>, path: string, k: Kind, w: Span)
    requires KeysFit(hm, seen)
    ensures KeysFit(UpdateHost(hm, path, k, w), seen + {Normal(path)})
  {
    hide Bump, Normal;
    var n, after := Normal(path), UpdateHost(hm, path, k, w);
    assert after.Keys == hm.Keys + {Route(hm, path), ROOT};
    assert |hm| == |hm.Keys|;
    if |seen| <= OWN {
      assert |{ROOT} + seen| == 1 + |seen|;
    }
    if n in seen {
      assert seen + {n} == seen;
    } else {
      assert |seen + {n}| == |seen| + 1;
    }
    if |seen| > OWN {
      assert after.Keys == hm.Keys;
    } else if n in seen {
      assert after.Keys == hm.Keys;
    } else if |seen| == OWN {
      assert after.Keys == hm.Keys + {OTHER};
    }
  }

  lemma {:induction false} KeysOfReplay(es: seq<Event>, host: string)
    ensures KeysFit(HostOf(Replay(es), host), Seen(es, host))
    ensures host in Replay(es) <==> Seen(es, host) != {}
    ensures ROOT in HostOf(Replay(es), host)
  {
    hide UpdateHost, Normal;
    if es != [] {
      var front, e := es[..|es| - 1], es[|es| - 1];
      KeysOfReplay(front, host);
      SeenSnoc(es, host);
      if e.host == host {
        OneMorePath(HostOf(Replay(front), host), Seen(front, host), e.path, e.kind, e.span);
      } else {
        assert Seen(es, host) == Seen(front, host);
      }
    }
  }

  /** How many keys a host has. The cap is one key above the documented one, as
      soon as one path more than fits has been seen. */
  lemma KeyCount(es: seq<Event>, host: string)
    requires host in Replay(es)
    ensures var d := |Seen(es, host)|;
            |Replay(es)[host]| == if d <= OWN then 1 + d else MAX_ENDPOINTS_PER_HOST + 1
    ensures |Replay(es)[host]| <= MAX_ENDPOINTS_PER_HOST <==> |Seen(es, host)| <= OWN
  {
    KeysOfReplay(es, host);
    var hm := Replay(es)[host];
    assert |hm| == |hm.Keys|;
    if |Seen(es, host)| <= OWN {
      assert |{ROOT} + Seen(es, host)| == 1 + |Seen(es, host)|;
    }
  }

  function Letters(n: nat): string { if n == 0 then "" else Letters(n - 1) + "a" }

  /** Path number `n` of a host. */
  function PathNo(n: nat): string { "/" + Letters(n) }

  lemma {:induction false} LettersLength(n: nat)
    ensures |Letters(n)| == n
  {
    if n > 0 {
      LettersLength(n - 1);
    }
  }

  /** The paths are different, and none is one of the keys with a meaning. */
  lemma PathsDiffer(m: nat, n: nat)
    ensures m != n ==> PathNo(m) != PathNo(n)
    ensures Normal(PathNo(n)) == PathNo(n)
  {
    LettersLength(m);
    LettersLength(n);
    assert PathNo(n)[0] == '/' && |PathNo(n)| == n + 1 && |PathNo(m)| == m + 1;
  }

  /** One event for each of the first `n` paths. */
  function Visits(host: string, n: nat, w: Span): seq<Event> {
    if n == 0 then [] else Visits(host, n - 1, w) + [Event(host, PathNo(n - 1), Tried, w)]
  }

  lemma NoneSeen(host: string)
    ensures Seen([], host) == {} && AmongFirst({}, 0)
  {
  }

  ghost predicate AmongFirst(paths: set<string>, n: nat) {
    forall p | p in paths :: exists i: nat | i < n :: p == PathNo(i)
  }

  lemma NextPathIsNew(paths: set<string>, n: nat)
    requires AmongFirst(paths, n)
    ensures Normal(PathNo(n)) == PathNo(n) && PathNo(n) !in paths
    ensures AmongFirst(paths + {PathNo(n)}, n + 1)
  {
    hide Normal, PathNo;
    forall i: nat | i < n ensures PathNo(i) != PathNo(n) {
      PathsDiffer(i, n);
    }
    PathsDiffer(n, n);
  }

  lemma SeenPlus(es: seq<Event>, e: Event)
    ensures Seen(es + [e], e.host) == Seen(es, e.host) + {Normal(e.path)}
  {
    assert (es + [e])[..|es|] == es;
    SeenSnoc(es + [e], e.host);
    hide Seen, Normal;
  }

  lemma {:induction false} VisitsAreSeen(host: string, n: nat, w: Span)
    ensures |Visits(host, n, w)| == n == |Seen(Visits(host, n, w), host)|
    ensures AmongFirst(Seen(Visits(host, n, w), host), n)
  {
    hide Seen, Normal, PathNo, AmongFirst;
    if n == 0 {
      NoneSeen(host);
    } else {
      VisitsAreSeen(host, n - 1, w);
      SeenPlus(Visits(host, n - 1, w), Event(host, PathNo(n - 1), Tried, w));
      NextPathIsNew(Seen(Visits(host, n - 1, w), host), n - 1);
    }
  }

  /** So many different paths are all it takes to pass the documented limit. */
  lemma TooManyKeys(host: string, w: Span)
    ensures var es := Visits(host, MAX_ENDPOINTS_PER_HOST, w);
            && |es| == MAX_ENDPOINTS_PER_HOST && host in Replay(es)
            && |Replay(es)[host]| == MAX_ENDPOINTS_PER_HOST + 1 == 1027
  {
    var es := Visits(host, MAX_ENDPOINTS_PER_HOST, w);
    VisitsAreSeen(host, MAX_ENDPOINTS_PER_HOST, w);
    KeysOfReplay(es, host);
    hide Visits, Replay;
    KeyCount(es, host);
  }

  // -------------------------------------------------------------------------
  // The aggregate is the sum of the endpoints

  ghost function Sum(hm: HostMetrics, keys: set<string>, f: Stats -> int): int
    requires keys <= hm.Keys
  {
    if keys == {} then 0
    else
      var k :| k in keys;
      f(hm[k]) + Sum(hm, keys - {k}, f)
  }

  lemma {:induction false} SumPick(hm: HostMetrics, keys: set<string>, f: Stats -> int, k: string)
    requires k in keys && keys <= hm.Keys
    ensures Sum(hm, keys, f) == f(hm[k]) + Sum(hm, keys - {k}, f)
  {
    var x :| x in keys && Sum(hm, keys, f) == f(hm[x]) + Sum(hm, keys - {x}, f);
    if x != k {
      SumPick(hm, keys - {x}, f, k);
      SumPick(hm, keys - {k}, f, x);
      assert keys - {x} - {k} == keys - {k} - {x};
    }
  }

  lemma {:induction false} SumAgrees(a: HostMetrics, b: HostMetrics, keys: set<string>, f: Stats -> int)
    requires keys <= a.Keys && keys <= b.Keys
    requires forall k | k in keys :: a[k] == b[k]
    ensures Sum(a, keys, f) == Sum(b, keys, f)
  {
    if keys != {} {
      var k :| k in keys;
      SumPick(a, keys, f, k);
      SumPick(b, keys, f, k);
      SumAgrees(a, b, keys - {k}, f);
    }
  }

  lemma {:induction false} SumSame(hm: HostMetrics, keys: set<string>, f: Stats -> int, g: Stats -> int)
    requires keys <= hm.Keys && forall k | k in keys :: f(hm[k]) == g(hm[k])
    ensures Sum(hm, keys, f) == Sum(hm, keys, g)
  {
    if keys != {} {
      var k :| k in keys;
      SumPick(hm, keys, f, k);
      SumPick(hm, keys, g, k);
      SumSame(hm, keys - {k}, f, g);
    }
  }

  /** A measure to which every event adds its own amount. */
  ghost predicate Additive(f: Stats -> int) {
    f(ZERO) == 0 && forall s, k, when :: f(Bump(s, k, when)) == f(s) + f(Bump(ZERO, k, when))
  }

  ghost predicate RootIsSum(hm: HostMetrics, f: Stats -> int) {
    ROOT in hm && f(hm[ROOT]) == Sum(hm, hm.Keys - {ROOT}, f)
  }

  lemma UpdateKeepsRootSum(hm: HostMetrics, path: string, k: Kind, when: Span, f: Stats -> int)
    requires Additive(f) && RootIsSum(hm, f)
    ensures RootIsSum(UpdateHost(hm, path, k, when), f)
  {
    hide Bump;
    var key, after := Route(hm, path), UpdateHost(hm, path, k, when);
    var before, now := hm.Keys - {ROOT}, after.Keys - {ROOT};
    var rest := before - {key};
    assert now - {key} == rest && key in now;
    SumPick(after, now, f, key);
    SumAgrees(hm, after, rest, f);
    if key in hm {
      SumPick(hm, before, f, key);
    } else {
      assert rest == before;
    }
  }

  /** In every reachable store, for every additive measure. */
  lemma {:induction false} RootIsAlwaysSum(es: seq<Event>, host: string, f: Stats -> int)
    requires Additive(f) && host in Replay(es)
    ensures RootIsSum(Replay(es)[host], f)
  {
    var front, e := es[..|es| - 1], es[|es| - 1];
    if e.host == host {
      if host in Replay(front) {
        RootIsAlwaysSum(front, host, f);
      } else {
        assert map[ROOT := ZERO].Keys - {ROOT} == {};
      }
      UpdateKeepsRootSum(HostOf(Replay(front), host), e.path, e.kind, e.span, f);
    } else {
      RootIsAlwaysSum(front, host, f);
    }
  }

  datatype Column = Total | Successful | Failed | Retries | Cancellations

  function Counter(c: Column): Stats -> int {
    match c
    case Total => (s: Stats) => s.total
    case Successful => (s: Stats) => s.successful
    case Failed => (s: Stats) => s.failed
    case Retries => (s: Stats) => s.retries
    case Cancellations => (s: Stats) => s.cancellations
  }

  lemma CounterIsAdditive(c: Column)
    ensures Additive(Counter(c))
  {
    hide Register;
  }

  /** Each aggregate counter is the sum of that counter over the endpoints. */
  lemma CountersAreSums(es: seq<Event>, host: string, c: Column)
    requires host in Replay(es)
    ensures RootIsSum(Replay(es)[host], Counter(c))
  {
    CounterIsAdditive(c);
    RootIsAlwaysSum(es, host, Counter(c));
  }

  // -------------------------------------------------------------------------
  // The wheels

  datatype Which = Requests | Successes | Failures | RetriesOf

  function FamilyOf(s: Stats, fam: Which): Family {
    match fam
    case Requests => s.req
    case Successes => s.success
    case Failures => s.failure
    case RetriesOf => s.retry
  }

  function Secs(ts: seq<int>): seq<int> { seq(|ts|, i requires 0 <= i < |ts| => Sec(ts[i])) }

  /** The seconds of all events of a family: the log its wheel stands for. */
  function Log(f: Family): seq<int> { Secs(f.starts) }

  lemma LogSnoc(f: Family, w: Span)
    ensures Log(Register(f, w)) == Log(f) + [Sec(w.start)]
  {
  }

  ghost predicate Shown(f: Family) { Shows(f.wheel, Log(f)) }

  function Max3(a: int, b: int, c: int): int {
    if a < b then (if b < c then c else b) else if a < c then c else a
  }

  lemma RegisterShows(f: Family, w: Span)
    requires Shown(f) && 0 < Sec(w.start) && 0 < Sec(w.now)
    ensures Shown(Register(f, w))
    ensures Register(f, w).wheel.last == Max3(f.wheel.last, Sec(w.start), Sec(w.now))
  {
    RecordedShows(f.wheel, Log(f), Sec(w.start));
    LogSnoc(f, w);
    AdvancedShows(Recorded(f.wheel, Sec(w.start)), Log(f) + [Sec(w.start)], Sec(w.now));
  }

  ghost predicate AllShown(s: Stats) {
    forall fam :: Shown(FamilyOf(s, fam))
  }

  /** No wheel has been advanced past that second. */
  ghost predicate UpTo(s: Stats, sec: int) {
    forall fam :: FamilyOf(s, fam).wheel.last <= sec
  }

  /** An event at positive seconds, none after `upto`. */
  predicate Timely(w: Span, upto: int) {
    0 < Sec(w.start) <= upto && 0 < Sec(w.now) <= upto
  }

  /** The family that an event of a kind belongs to. */
  function Home(k: Kind): set<Which> {
    match k
    case Tried => {Requests}
    case Won => {Successes}
    case Lost => {Failures}
    case Retried => {RetriesOf}
    case GaveUp => {}
  }

  /** An event moves its own family and no other. */
  lemma BumpMovesOneFamily(s: Stats, k: Kind, w: Span, fam: Which)
    ensures FamilyOf(Bump(s, k, w), fam) == if fam in Home(k) then Register(FamilyOf(s, fam), w) else FamilyOf(s, fam)
  {
  }

  lemma BumpShows(s: Stats, k: Kind, w: Span, upto: int)
    requires AllShown(s) && UpTo(s, upto) && Timely(w, upto)
    ensures AllShown(Bump(s, k, w)) && UpTo(Bump(s, k, w), upto)
  {
    forall fam ensures Shown(FamilyOf(Bump(s, k, w), fam)) && FamilyOf(Bump(s, k, w), fam).wheel.last <= upto {
      BumpMovesOneFamily(s, k, w, fam);
      assert Shown(FamilyOf(s, fam));
      RegisterShows(FamilyOf(s, fam), w);
    }
  }

  lemma ZeroShows()
    ensures AllShown(ZERO) && UpTo(ZERO, 0)
  {
    NewShows();
    forall fam ensures FamilyOf(ZERO, fam) == UNUSED {}
    assert Secs([]) == [];
  }

  ghost predicate HostShown(hm: HostMetrics, upto: int) {
    forall key | key in hm :: AllShown(hm[key]) && UpTo(hm[key], upto)
  }

  lemma UpdateShows(hm: HostMetrics, path: string, k: Kind, w: Span, upto: int)
    requires HostShown(hm, upto) && Timely(w, upto)
    ensures HostShown(UpdateHost(hm, path, k, w), upto)
  {
    hide Bump, AllShown, UpTo;
    ZeroShows();
    BumpShows(At(hm, Route(hm, path)), k, w, upto);
    BumpShows(At(hm, ROOT), k, w, upto);
  }

  ghost predicate AllTimely(es: seq<Event>, upto: int) {
    forall i | 0 <= i < |es| :: Timely(es[i].span, upto)
  }

  /** In every reachable store every wheel shows the log of its key, and none is
      ahead of the clock. */
  lemma {:induction false} WheelsAlwaysShow(es: seq<Event>, host: string, upto: int)
    requires AllTimely(es, upto) && upto >= 0
    ensures HostShown(HostOf(Replay(es), host), upto)
  {
    if es == [] {
      ZeroShows();
    } else {
      var front, e := es[..|es| - 1], es[|es| - 1];
      WheelsAlwaysShow(front, host, upto);
      if e.host == host {
        UpdateShows(HostOf(Replay(front), host), e.path, e.kind, e.span, upto);
      }
    }
  }

  /** What `countLast` returns for one family, asked at a second. */
  function ReadingOf(fam: Which, now: int, seconds: int): Stats -> int {
    (s: Stats) => Reading(FamilyOf(s, fam).wheel, now, seconds)
  }

  /** Logged events of a family in the seconds (from, upto]. */
  function Window(fam: Which, from: int, upto: int): Stats -> int {
    (s: Stats) => CountIn(Log(FamilyOf(s, fam)), from, upto)
  }

  lemma WindowGrows(f: Family, w: Span, from: int, upto: int)
    ensures CountIn(Log(Register(f, w)), from, upto)
            == CountIn(Log(f), from, upto) + if from < Sec(w.start) <= upto then 1 else 0
  {
    LogSnoc(f, w);
    CountSnoc(Log(f), Sec(w.start), from, upto);
  }

  lemma WindowIsAdditive(fam: Which, from: int, upto: int)
    ensures Additive(Window(fam, from, upto))
  {
    var f := Window(fam, from, upto);
    assert Log(UNUSED) == [];
    forall s, k, w ensures f(Bump(s, k, w)) == f(s) + f(Bump(ZERO, k, w)) {
      BumpMovesOneFamily(s, k, w, fam);
      BumpMovesOneFamily(ZERO, k, w, fam);
      WindowGrows(FamilyOf(s, fam), w, from, upto);
      WindowGrows(FamilyOf(ZERO, fam), w, from, upto);
    }
  }

  /** Whatever `countLast` finds is what was logged. */
  lemma ReadingIsWindow(s: Stats, fam: Which, now: int, seconds: int)
    requires AllShown(s) && UpTo(s, now) && now > 0 && 0 <= seconds <= WHEEL_SECONDS
    ensures ReadingOf(fam, now, seconds)(s) == Window(fam, now - seconds, now)(s)
  {
    assert Shown(FamilyOf(s, fam));
    ReadingIsExact(FamilyOf(s, fam).wheel, Log(FamilyOf(s, fam)), now, seconds);
  }

  ghost predicate NoneAhead(hm: HostMetrics, now: int) {
    forall key | key in hm :: UpTo(hm[key], now)
  }

  lemma ReadingsAreWindows(hm: HostMetrics, upto: int, fam: Which, now: int, seconds: int)
    requires HostShown(hm, upto) && NoneAhead(hm, now) && now > 0 && 0 <= seconds <= WHEEL_SECONDS
    ensures forall key | key in hm ::
              ReadingOf(fam, now, seconds)(hm[key]) == Window(fam, now - seconds, now)(hm[key])
  {
    hide Reading, CountIn;
    forall key | key in hm
      ensures ReadingOf(fam, now, seconds)(hm[key]) == Window(fam, now - seconds, now)(hm[key])
    {
      ReadingIsWindow(hm[key], fam, now, seconds);
    }
  }

  lemma SameMeasure(hm: HostMetrics, f: Stats -> int, g: Stats -> int)
    requires RootIsSum(hm, g) && forall key | key in hm :: f(hm[key]) == g(hm[key])
    ensures RootIsSum(hm, f)
  {
    SumSame(hm, hm.Keys - {ROOT}, f, g);
  }

  /** Asked at any second that no wheel of the host has passed, the wheel of the
      aggregate returns the sum of what the wheels of the endpoints return,
      although each was last advanced at a time of its own. */
  lemma ReadingsAreSums(es: seq<Event>, host: string, fam: Which, now: int, seconds: int, upto: nat)
    requires AllTimely(es, upto) && host in Replay(es)
    requires NoneAhead(Replay(es)[host], now) && now > 0 && 0 <= seconds <= WHEEL_SECONDS
    ensures RootIsSum(Replay(es)[host], ReadingOf(fam, now, seconds))
  {
    hide *;
    WheelsAlwaysShow(es, host, upto);
    HostIsKnown(Replay(es), host);
    ReadingsAreWindows(Replay(es)[host], upto, fam, now, seconds);
    WindowIsAdditive(fam, now - seconds, now);
    RootIsAlwaysSum(es, host, Window(fam, now - seconds, now));
    SameMeasure(Replay(es)[host], ReadingOf(fam, now, seconds), Window(fam, now - seconds, now));
  }

  /** Every counter is the number of its events. */
  predicate Matched(s: Stats) {
    && s.total == |s.req.starts| && s.successful == |s.success.starts|
    && s.failed == |s.failure.starts| && s.retries == |s.retry.starts|
  }

  ghost predicate AllMatched(hm: HostMetrics) {
    forall key | key in hm :: Matched(hm[key])
  }

  lemma UpdateMatches(hm: HostMetrics, path: string, k: Kind, w: Span)
    requires AllMatched(hm)
    ensures AllMatched(UpdateHost(hm, path, k, w))
  {
    var key := Route(hm, path);
    BumpMatches(At(hm, key), k, w);
    BumpMatches(At(hm, ROOT), k, w);
  }

  lemma BumpMatches(s: Stats, k: Kind, w: Span)
    requires Matched(s)
    ensures Matched(Bump(s, k, w))
  {
  }

  lemma {:induction false} CountersMatchLogs(es: seq<Event>, host: string)
    ensures AllMatched(HostOf(Replay(es), host))
  {
    if es != [] {
      var front, e := es[..|es| - 1], es[|es| - 1];
      CountersMatchLogs(front, host);
      if e.host == host {
        UpdateMatches(HostOf(Replay(front), host), e.path, e.kind, e.span);
      }
    }
  }
}
