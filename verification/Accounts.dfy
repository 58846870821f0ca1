/** The metrics store together with the calls that have an account open with it:
    what makes the counters of a key balance in every interleaving. */
module Accounts {
  import opened Sets
  import opened Ledger

  datatype Site = Site(host: string, path: string)

  /** `trying` binds the calls whose latest attempt is recorded and has no
      outcome recorded yet; `lost` those with a failure recorded that belongs to
      no attempt and has not been explained by a cancellation. */
  datatype State = State(events: seq<Event>, metrics: Metrics, trying: map<nat, Site>, lost: map<nat, Site>)

  const EMPTY := State([], map[], map[], map[])

  /** Who may record what. */
  predicate Can(trying: map<nat, Site>, lost: map<nat, Site>, id: nat, w: Site, k: Kind) {
    match k
    case Tried => id !in trying && id !in lost
    case Won => id in trying && trying[id] == w
    case Lost => if id in trying then trying[id] == w else id !in lost
    case Retried => id !in trying && id !in lost
    case GaveUp => id in lost && lost[id] == w
  }

  function TryingAfter(trying: map<nat, Site>, id: nat, w: Site, k: Kind): map<nat, Site> {
    match k
    case Tried => trying[id := w]
    case Won => trying - {id}
    case Lost => trying - {id}
    case _ => trying
  }

  function LostAfter(trying: map<nat, Site>, lost: map<nat, Site>, id: nat, w: Site, k: Kind): map<nat, Site> {
    match k
    case Lost => if id in trying then lost else lost[id := w]
    case GaveUp => lost - {id}
    case _ => lost
  }

  function Record(st: State, id: nat, w: Site, k: Kind, when: Span): State {
    State(
      st.events + [Event(w.host, w.path, k, when)],
      Update(st.metrics, w.host, w.path, k, when),
      TryingAfter(st.trying, id, w, k),
      LostAfter(st.trying, st.lost, id, w, k))
  }

  /** The site is counted under this key; every site of the host is under the root. */
  predicate Under(m: Metrics, host: string, key: string, w: Site) {
    w.host == host && (key == ROOT || Route(HostOf(m, host), w.path) == key)
  }

  ghost function IsUnder(m: Metrics, host: string, key: string): Site -> bool {
    (w: Site) => Under(m, host, key, w)
  }

  /** Calls of a table that are counted under a key. */
  ghost function Held(t: map<nat, Site>, m: Metrics, host: string, key: string): set<nat> {
    Where(t, IsUnder(m, host, key))
  }

  /** Attempts and cancellations not yet matched by an outcome. */
  function Worth(s: Stats): int { s.total + s.cancellations - s.successful - s.failed }

  function Balance(m: Metrics, host: string, key: string): int { Worth(At(HostOf(m, host), key)) }

  function Weight(k: Kind): int {
    match k
    case Tried => 1
    case GaveUp => 1
    case Won => -1
    case Lost => -1
    case Retried => 0
  }

  ghost predicate AllSettled(t: map<nat, Site>, m: Metrics) {
    forall id | id in t :: t[id].host in m && Settled(m[t[id].host], t[id].path)
  }

  ghost predicate Balanced(st: State, host: string, key: string) {
    Balance(st.metrics, host, key) == |Held(st.trying, st.metrics, host, key)| - |Held(st.lost, st.metrics, host, key)|
  }

  /** The tables are disjoint and hold settled sites only. */
  ghost predicate Tidy(st: State) {
    AllSettled(st.trying, st.metrics) && AllSettled(st.lost, st.metrics) && st.trying.Keys !! st.lost.Keys
  }

  ghost predicate Inv(st: State) {
    Tidy(st) && forall host, key :: Balanced(st, host, key)
  }

  /** The store is what its history of events makes of an empty one, and no event
      is ahead of the second `upto`. */
  ghost predicate Faithful(st: State, upto: int) { st.metrics == Replay(st.events) && AllTimely(st.events, upto) }

  lemma EmptyInv()
    ensures Inv(EMPTY) && forall upto :: Faithful(EMPTY, upto)
  {
    forall host, key ensures Held(map[], map[], host, key) == {} {}
  }

  lemma BumpMovesWorth(s: Stats, k: Kind, when: Span)
    ensures Worth(Bump(s, k, when)) == Worth(s) + Weight(k)
  {
    hide Register;
  }

  /** What an update leaves under a key of its host. */
  lemma AtAfterUpdate(hm: HostMetrics, path: string, k: Kind, when: Span, key: string)
    ensures At(UpdateHost(hm, path, k, when), key)
            == if key == ROOT || key == Route(hm, path) then Bump(At(hm, key), k, when) else At(hm, key)
  {
    hide Bump, Route;
  }

  /** One event moves the balance of its key and of the root, and no other. */
  lemma BalanceMoves(m: Metrics, w: Site, k: Kind, when: Span, host: string, key: string)
    ensures Balance(Update(m, w.host, w.path, k, when), host, key)
            == Balance(m, host, key) + if Under(m, host, key, w) then Weight(k) else 0
  {
    hide UpdateHost, At, Bump, Worth, Route, Weight;
    if host == w.host {
      assert HostOf(Update(m, w.host, w.path, k, when), host) == UpdateHost(HostOf(m, host), w.path, k, when);
      AtAfterUpdate(HostOf(m, host), w.path, k, when, key);
      BumpMovesWorth(At(HostOf(m, host), key), k, when);
    }
  }

  /** Tables of settled calls are counted under the same keys afterwards. */
  lemma HeldIsStable(t: map<nat, Site>, m: Metrics, w: Site, k: Kind, when: Span, host: string, key: string)
    requires AllSettled(t, m)
    ensures var m' := Update(m, w.host, w.path, k, when);
            AllSettled(t, m') && Held(t, m', host, key) == Held(t, m, host, key)
  {
    var m' := Update(m, w.host, w.path, k, when);
    forall id | id in t
      ensures t[id].host in m' && Settled(m'[t[id].host], t[id].path)
      ensures Under(m', host, key, t[id]) == Under(m, host, key, t[id])
    {
      RouteIsStable(HostOf(m, w.host), t[id].path, w.path, k, when);
    }
  }

  /** The site of the event itself is settled and routed as before. */
  lemma SiteIsSettled(m: Metrics, w: Site, k: Kind, when: Span, host: string, key: string)
    ensures var m' := Update(m, w.host, w.path, k, when);
            && w.host in m' && Settled(m'[w.host], w.path)
            && Under(m', host, key, w) == Under(m, host, key, w)
  {
    RouteIsStable(HostOf(m, w.host), w.path, w.path, k, when);
  }

  lemma RecordBalances(st: State, id: nat, w: Site, k: Kind, when: Span, host: string, key: string)
    requires Tidy(st) && Balanced(st, host, key) && Can(st.trying, st.lost, id, w, k)
    ensures Balanced(Record(st, id, w, k, when), host, key)
  {
    hide Update, Worth, Under, Settled;
    var m' := Update(st.metrics, w.host, w.path, k, when);
    var p := IsUnder(m', host, key);
    BalanceMoves(st.metrics, w, k, when, host, key);
    HeldIsStable(st.trying, st.metrics, w, k, when, host, key);
    HeldIsStable(st.lost, st.metrics, w, k, when, host, key);
    SiteIsSettled(st.metrics, w, k, when, host, key);
    match k {
      case Tried => WhereAdded(st.trying, p, id, w);
      case Won => WhereRemoved(st.trying, p, id);
      case Lost =>
        if id in st.trying {
          WhereRemoved(st.trying, p, id);
        } else {
          assert st.trying - {id} == st.trying;
          WhereAdded(st.lost, p, id, w);
        }
      case Retried =>
      case GaveUp => WhereRemoved(st.lost, p, id);
    }
  }

  lemma TableStaysSettled(t: map<nat, Site>, m: Metrics, id: nat, w: Site, k: Kind, when: Span)
    requires AllSettled(t, m)
    ensures var m' := Update(m, w.host, w.path, k, when);
            AllSettled(t, m') && AllSettled(t[id := w], m') && AllSettled(t - {id}, m')
  {
    HeldIsStable(t, m, w, k, when, "", "");
    SiteIsSettled(m, w, k, when, "", "");
  }

  lemma RecordKeepsTidy(st: State, id: nat, w: Site, k: Kind, when: Span)
    requires Tidy(st) && Can(st.trying, st.lost, id, w, k)
    ensures Tidy(Record(st, id, w, k, when))
  {
    TableStaysSettled(st.trying, st.metrics, id, w, k, when);
    TableStaysSettled(st.lost, st.metrics, id, w, k, when);
    assert TryingAfter(st.trying, id, w, k).Keys !! LostAfter(st.trying, st.lost, id, w, k).Keys by {
      TablesStayApart(st.trying, st.lost, id, w, k);
    }
  }

  lemma TablesStayApart(trying: map<nat, Site>, lost: map<nat, Site>, id: nat, w: Site, k: Kind)
    requires trying.Keys !! lost.Keys && Can(trying, lost, id, w, k)
    ensures TryingAfter(trying, id, w, k).Keys !! LostAfter(trying, lost, id, w, k).Keys
  {
  }

  lemma RecordKeepsInv(st: State, id: nat, w: Site, k: Kind, when: Span)
    requires Inv(st) && Can(st.trying, st.lost, id, w, k)
    ensures Inv(Record(st, id, w, k, when))
  {
    RecordKeepsTidy(st, id, w, k, when);
    forall host, key ensures Balanced(Record(st, id, w, k, when), host, key) {
      RecordBalances(st, id, w, k, when, host, key);
    }
  }

  lemma RecordKeepsFaithful(st: State, id: nat, w: Site, k: Kind, when: Span, upto: int)
    requires Faithful(st, upto) && Timely(when, upto)
    ensures Faithful(Record(st, id, w, k, when), upto)
  {
    hide Update, Bump;
    ReplaySnoc(st.events, Event(w.host, w.path, k, when));
  }

  lemma FaithfulLater(st: State, upto: int, later: int)
    requires Faithful(st, upto) && upto <= later
    ensures Faithful(st, later)
  {
  }
}
