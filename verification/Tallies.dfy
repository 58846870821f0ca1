/** Which events are counted under which key, and what a key holds of them. */
module Tallies {
  import opened Arith
  import opened Rings
  import opened Wheels
  import opened Ledger

  /** The names of the paths of a host, in the order in which they first appeared. */
  function Names(es: seq<Event>, host: string): seq<string> {
    if es == [] then []
    else
      var front, e := es[..|es| - 1], es[|es| - 1];
      var names := Names(front, host);
      if e.host == host && Normal(e.path) !in names then names + [Normal(e.path)] else names
  }

  /** The first 1025 names have a key of their own, all others share one. */
  function Own(names: seq<string>): seq<string> { names[..Min(|names|, 1025)] }

  function KeyOf(names: seq<string>, path: string): string {
    if Normal(path) in Own(names) then Normal(path) else "::other"
  }

  /** The spans of the events of one kind that are counted under a key, in order;
      under the key of the aggregate all of the host are. */
  function Mine(es: seq<Event>, host: string, key: string, kind: Kind): seq<Span> {
    if es == [] then []
    else
      var front, e := es[..|es| - 1], es[|es| - 1];
      var mine := e.host == host && e.kind == kind && (key == "::root" || KeyOf(Names(es, host), e.path) == key);
      Mine(front, host, key, kind) + if mine then [e.span] else []
  }

  // -------------------------------------------------------------------------
  // The keys

  ghost predicate Distinct(s: seq<string>) { forall i, j | 0 <= i < j < |s| :: s[i] != s[j] }

  function Members(s: seq<string>): set<string> { set x | x in s }

  lemma {:induction false} DistinctSize(s: seq<string>)
    requires Distinct(s)
    ensures |Members(s)| == |s|
  {
    if s != [] {
      var front, x := s[..|s| - 1], s[|s| - 1];
      DistinctSize(front);
      assert s == front + [x];
      assert Members(s) == Members(front) + {x};
    }
  }

  function KeysOf(names: seq<string>): set<string> {
    {ROOT} + Members(Own(names)) + if |names| > 1025 then {OTHER} else {}
  }

  /** The keys of a host are its first names, with the aggregate and, once there are
      more names than that, the key that the rest shares. */
  ghost predicate KeysAre(hm: HostMetrics, names: seq<string>) {
    Distinct(names) && ROOT !in names && OTHER !in names && hm.Keys == KeysOf(names)
  }

  lemma HowMany(hm: HostMetrics, names: seq<string>)
    requires KeysAre(hm, names)
    ensures |hm| == 1 + Min(|names|, 1025) + if |names| > 1025 then 1 else 0
  {
    var own := Own(names);
    DistinctSize(own);
    assert |hm| == |hm.Keys|;
    assert ROOT !in Members(own) && OTHER !in Members(own);
    assert |{ROOT} + Members(own)| == 1 + |own|;
  }

  function NamesAfter(names: seq<string>, path: string): seq<string> {
    if Normal(path) in names then names else names + [Normal(path)]
  }

  lemma RouteIsKey(hm: HostMetrics, names: seq<string>, path: string)
    requires KeysAre(hm, names)
    ensures Route(hm, path) == KeyOf(NamesAfter(names, path), path)
  {
    HowMany(hm, names);
    var n := Normal(path);
    hide Normal;
    if n in hm {
      assert n in Own(names);
      if n !in names {
        assert false;
      }
    } else if n in names {
      assert n !in Own(names);
      assert |names| > 1025;
    } else {
      assert |names| < 1025 ==> Own(names + [n]) == names + [n];
      assert |names| >= 1025 ==> Own(names + [n]) == Own(names);
    }
  }

  lemma KeysGrow(names: seq<string>, path: string)
    ensures var later := NamesAfter(names, path); KeysOf(later) == KeysOf(names) + {KeyOf(later, path)}
  {
    var n, later := Normal(path), NamesAfter(names, path);
    hide Normal;
    if n in names {
      if n !in Own(names) {
        assert |names| > 1025;
      }
    } else if |names| < 1025 {
      assert Own(later) == Own(names) + [n];
      assert Members(Own(later)) == Members(Own(names)) + {n};
    } else {
      assert Own(later) == Own(names);
      assert n !in Own(later);
    }
  }

  lemma StayDistinct(names: seq<string>, path: string)
    requires Distinct(names) && ROOT !in names && OTHER !in names
    ensures var later := NamesAfter(names, path); Distinct(later) && ROOT !in later && OTHER !in later
  {
    assert Normal(path) != ROOT && Normal(path) != OTHER;
    hide Normal;
  }

  lemma UpdateKeys(hm: HostMetrics, path: string, k: Kind, w: Span)
    ensures UpdateHost(hm, path, k, w).Keys == hm.Keys + {Route(hm, path), ROOT}
  {
    hide Bump, Route;
  }

  lemma RootIsKey(names: seq<string>)
    ensures ROOT in KeysOf(names)
  {
  }

  lemma KeysFollow(hm: HostMetrics, names: seq<string>, path: string, k: Kind, w: Span)
    requires KeysAre(hm, names)
    ensures KeysAre(UpdateHost(hm, path, k, w), NamesAfter(names, path))
  {
    RouteIsKey(hm, names, path);
    hide UpdateHost, Route, Normal, KeyOf, KeysOf, NamesAfter, Distinct;
    KeysGrow(names, path);
    StayDistinct(names, path);
    RootIsKey(names);
    UpdateKeys(hm, path, k, w);
  }

  lemma {:induction false} KeysOfHistory(es: seq<Event>, host: string)
    ensures KeysAre(HostOf(Replay(es), host), Names(es, host))
  {
    hide UpdateHost, KeysAre, Normal;
    if es == [] {
      NoKeys();
    } else {
      var front, e := es[..|es| - 1], es[|es| - 1];
      KeysOfHistory(front, host);
      if e.host == host {
        KeysFollow(HostOf(Replay(front), host), Names(front, host), e.path, e.kind, e.span);
      }
    }
  }

  lemma NoKeys()
    ensures KeysAre(map[ROOT := ZERO], [])
  {
    assert Members(Own([])) == {};
  }

  /** Under which key every event of every history is counted: under its own path,
      spelled apart from the synthetic keys, if that was among the first 1025
      different ones of its host, and else under the shared key. */
  lemma WhereEventsCount(es: seq<Event>, e: Event)
    ensures Route(HostOf(Replay(es), e.host), e.path) == KeyOf(Names(es + [e], e.host), e.path)
  {
    KeysOfHistory(es, e.host);
    RouteIsKey(HostOf(Replay(es), e.host), Names(es, e.host), e.path);
    assert (es + [e])[..|es|] == es;
  }

  // -------------------------------------------------------------------------
  // What a key holds

  /** The samples that spans stand for. */
  function Starts(ws: seq<Span>): seq<int> { seq(|ws|, i requires 0 <= i < |ws| => ws[i].start) }

  function Durations(ws: seq<Span>): seq<real> {
    seq(|ws|, i requires 0 <= i < |ws| => (ws[i].end - ws[i].start) as real / 1_000_000_000.0)
  }

  /** The family holds the samples of these spans, and their mean. */
  ghost predicate Samples(f: Family, ws: seq<Span>) {
    f.starts == Starts(ws) && f.durations == Durations(ws) && f.mean == Average(f.durations)
  }

  lemma SamplesSnoc(f: Family, ws: seq<Span>, w: Span)
    requires Samples(f, ws)
    ensures Samples(Register(f, w), ws + [w])
  {
    assert Starts(ws + [w]) == Starts(ws) + [w.start];
    assert Durations(ws + [w]) == Durations(ws) + [Seconds(w.end - w.start)];
    hide Recorded, Advanced, Reading;
  }

  /** The spans of every kind under one key. */
  datatype Holdings = Holdings(tried: seq<Span>, won: seq<Span>, lost: seq<Span>, retried: seq<Span>, gaveUp: seq<Span>)

  function Held(es: seq<Event>, host: string, key: string): Holdings {
    Holdings(Mine(es, host, key, Tried), Mine(es, host, key, Won), Mine(es, host, key, Lost),
             Mine(es, host, key, Retried), Mine(es, host, key, GaveUp))
  }

  /** Counters and samples are those of the spans, kind by kind. */
  ghost predicate Adds(s: Stats, h: Holdings) {
    && s.total == |h.tried| && Samples(s.req, h.tried)
    && s.successful == |h.won| && Samples(s.success, h.won)
    && s.failed == |h.lost| && Samples(s.failure, h.lost)
    && s.retries == |h.retried| && Samples(s.retry, h.retried)
    && s.cancellations == |h.gaveUp|
  }

  function Plus(h: Holdings, k: Kind, w: Span): Holdings {
    match k
    case Tried => h.(tried := h.tried + [w])
    case Won => h.(won := h.won + [w])
    case Lost => h.(lost := h.lost + [w])
    case Retried => h.(retried := h.retried + [w])
    case GaveUp => h.(gaveUp := h.gaveUp + [w])
  }

  lemma BumpAdds(s: Stats, h: Holdings, k: Kind, w: Span)
    requires Adds(s, h)
    ensures Adds(Bump(s, k, w), Plus(h, k, w))
  {
    match k
    case Tried => SamplesSnoc(s.req, h.tried, w);
    case Won => SamplesSnoc(s.success, h.won, w);
    case Lost => SamplesSnoc(s.failure, h.lost, w);
    case Retried => SamplesSnoc(s.retry, h.retried, w);
    case GaveUp =>
  }

  lemma HeldSnoc(es: seq<Event>, host: string, key: string)
    requires es != []
    ensures var front, e := es[..|es| - 1], es[|es| - 1];
            Held(es, host, key)
            == if e.host == host && (key == ROOT || KeyOf(Names(es, host), e.path) == key)
               then Plus(Held(front, host, key), e.kind, e.span) else Held(front, host, key)
  {
    hide Names, KeyOf;
  }

  ghost predicate AllAdd(hm: HostMetrics, es: seq<Event>, host: string) {
    forall key: string :: Adds(At(hm, key), Held(es, host, key))
  }

  lemma UpdateAdds(hm: HostMetrics, es: seq<Event>, e: Event, key: string)
    requires Adds(At(hm, key), Held(es, e.host, key))
    requires Route(hm, e.path) == KeyOf(Names(es + [e], e.host), e.path)
    ensures Adds(At(UpdateHost(hm, e.path, e.kind, e.span), key), Held(es + [e], e.host, key))
  {
    var all := es + [e];
    assert all[..|es|] == es;
    HeldSnoc(all, e.host, key);
    BumpAdds(At(hm, key), Held(es, e.host, key), e.kind, e.span);
    hide Adds, Bump, Held, Names, KeyOf, Normal;
  }

  /** In every history: each counter of each key is the number of the events of its
      kind counted under that key, and each family holds their starts and durations,
      in order, and the mean of the latest. */
  lemma {:induction false} CountersAndSamples(es: seq<Event>, host: string)
    ensures AllAdd(HostOf(Replay(es), host), es, host)
  {
    hide Adds, UpdateHost, KeyOf, Names, Normal, Held;
    if es == [] {
      forall key: string ensures Adds(At(map[ROOT := ZERO], key), Held([], host, key)) {
        NothingHeld(host, key);
      }
    } else {
      var front, e := es[..|es| - 1], es[|es| - 1];
      assert es == front + [e];
      CountersAndSamples(front, host);
      forall key: string ensures Adds(At(HostOf(Replay(es), host), key), Held(es, host, key)) {
        if e.host == host {
          WhereEventsCount(front, e);
          UpdateAdds(HostOf(Replay(front), host), front, e, key);
        } else {
          HeldSnoc(es, host, key);
        }
      }
    }
  }

  lemma NothingHeld(host: string, key: string)
    ensures At(map[ROOT := ZERO], key) == ZERO && Adds(ZERO, Held([], host, key))
  {
    assert Starts([]) == [] && Durations([]) == [];
  }
}
