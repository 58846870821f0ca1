/** `updateMetrics` over the two-level map of live endpoint states. A Go map is a
    reference, so the table of a host is an object of its own. */
module MetricsStores {
  import opened EndpointStates
  import opened Ledger
  import opened Wheels

  class HostTable {
    var states: map<string, EndpointState>
    ghost var repr: set<object>

    /** Every key has a live state of its own. */
    ghost predicate Valid()
      reads this, repr
    {
      && this in repr
      && (forall key | key in states ::
            states[key] in repr && states[key].repr <= repr && this !in states[key].repr
            && states[key] in states[key].repr && states[key].Valid())
      && (forall a, b | a in states && b in states && a != b :: states[a].repr !! states[b].repr)
    }

    /** The values of the states. */
    ghost function View(): HostMetrics
      reads this, repr
      requires Valid()
    {
      map key | key in states :: states[key].View()
    }

    constructor ()
      ensures Valid() && fresh(repr) && this in repr && View() == map[ROOT := ZERO]
    {
      hide EndpointState.Valid, EndpointState.View, FamilyState.Valid, FamilyState.View;
      var root := new EndpointState();
      states := map[ROOT := root];
      repr := {this} + root.repr;
    }

    /** A new state under a free key. */
    method Insert(key: string)
      requires Valid() && key !in states
      modifies this
      ensures Valid() && View() == old(View())[key := ZERO] && fresh(repr - old(repr))
    {
      hide EndpointState.Valid, EndpointState.View, HostTable.Valid, HostTable.View;
      var s := new EndpointState();
      Put(key, s);
    }

    method Put(key: string, s: EndpointState)
      requires Valid() && key !in states && s.Valid() && s in s.repr && s.repr !! repr
      modifies this
      ensures Valid() && View() == old(View())[key := old(s.View())] && repr == old(repr) + s.repr
    {
      hide EndpointState.Valid, EndpointState.View;
      ghost var was := View();
      states := states[key := s];
      repr := repr + s.repr;
      forall other | other in was
        ensures states[other].Valid() && states[other].View() == was[other] && states[other].repr !! s.repr
      {
        assert other != key;
      }
    }

    /** One event for the state under a key, and for no other. */
    method Touch(key: string, k: Kind, start: int, end: int, now: int)
      requires Valid() && key in states && 0 < Sec(start) && 0 < Sec(now)
      modifies repr
      ensures Valid() && repr == old(repr) && states == old(states)
      ensures View() == old(View())[key := Bump(old(View())[key], k, Span(start, end, now))]
    {
      hide EndpointState.Valid, EndpointState.View, Bump;
      states[key].Apply(k, start, end, now);
    }

    /** The part of `updateMetrics` that deals with one host. */
    method Update(path: string, k: Kind, start: int, end: int, now: int)
      requires Valid() && ROOT in states && 0 < Sec(start) && 0 < Sec(now)
      modifies repr
      ensures Valid() && fresh(repr - old(repr)) && this in repr
      ensures View() == UpdateHost(old(View()), path, k, Span(start, end, now))
    {
      hide EndpointState.Valid, EndpointState.View, Bump, HostTable.Valid, HostTable.View;
      ghost var was := View();
      ViewKeys();
      var endpoint := path;
      if endpoint == ROOT || endpoint == OTHER {
        endpoint := "/" + endpoint;
      }
      assert endpoint == Normal(path);
      if endpoint !in states {
        if |states| >= MAX_ENDPOINTS_PER_HOST {
          endpoint := OTHER;
          if endpoint !in states {
            Insert(endpoint);
          }
        } else {
          Insert(endpoint);
        }
      }
      assert endpoint == Route(was, path);
      ViewKeys();
      Touch(endpoint, k, start, end, now);
      ViewKeys();
      Touch(ROOT, k, start, end, now);
      ViewKeys();
      TwoBumps(was, path, k, Span(start, end, now));
    }

    lemma ViewKeys()
      requires Valid()
      ensures View().Keys == states.Keys && |View()| == |states| && this in repr
    {
      assert View().Keys == states.Keys;
      assert |View()| == |View().Keys| && |states| == |states.Keys|;
    }
  }

  lemma TwoBumps(hm: HostMetrics, path: string, k: Kind, w: Span)
    requires ROOT in hm
    ensures var key := Route(hm, path);
            var more := if key in hm then hm else hm[key := ZERO];
            var once := more[key := Bump(more[key], k, w)];
            UpdateHost(hm, path, k, w) == once[ROOT := Bump(once[ROOT], k, w)]
  {
    hide Bump, Route, Normal;
  }

  class MetricsStore {
    var metrics: map<string, HostTable>
    ghost var events: seq<Event>
    ghost var repr: set<object>

    /** Every host has a table of its own. */
    ghost predicate Owned()
      reads this, repr
    {
      && this in repr
      && (forall host | host in metrics ::
            metrics[host] in repr && metrics[host].repr <= repr && this !in metrics[host].repr
            && metrics[host] in metrics[host].repr && metrics[host].Valid())
      && (forall a, b | a in metrics && b in metrics && a != b :: metrics[a].repr !! metrics[b].repr)
    }

    /** The live states have the values that the history of events makes of an
        empty store. */
    ghost predicate Valid()
      reads this, repr
    {
      Owned() && View() == Replay(events)
    }

    ghost function View(): Metrics
      reads this, repr
      requires Owned()
    {
      map host | host in metrics :: metrics[host].View()
    }

    constructor ()
      ensures Valid() && fresh(repr) && events == []
    {
      metrics, events, repr := map[], [], {this};
    }

    method AddHost(host: string)
      requires Owned() && host !in metrics
      modifies this`metrics, this`repr
      ensures Owned() && fresh(repr - old(repr)) && host in metrics
      ensures View() == old(View())[host := map[ROOT := ZERO]]
    {
      hide HostTable.Valid, HostTable.View, Owned, MetricsStore.View;
      var table := new HostTable();
      PutTable(host, table);
    }

    method PutTable(host: string, table: HostTable)
      requires Owned() && host !in metrics && table.Valid() && table in table.repr && table.repr !! repr
      modifies this`metrics, this`repr
      ensures Owned() && host in metrics && repr == old(repr) + table.repr
      ensures View() == old(View())[host := old(table.View())]
    {
      hide HostTable.Valid, HostTable.View;
      metrics := metrics[host := table];
      repr := repr + table.repr;
    }

    /** One event for the table of a host: the other tables stand. */
    method Forward(host: string, path: string, k: Kind, start: int, end: int, now: int)
      requires Owned() && host in metrics && ROOT in metrics[host].states && 0 < Sec(start) && 0 < Sec(now)
      modifies metrics[host].repr
      ensures metrics[host].Valid() && metrics[host] in metrics[host].repr
      ensures fresh(metrics[host].repr - old(metrics[host].repr))
      ensures metrics[host].View() == UpdateHost(old(View())[host], path, k, Span(start, end, now))
      ensures forall h | h in metrics && h != host ::
                metrics[h].Valid() && metrics[h].repr == old(metrics[h].repr) && metrics[h].View() == old(View())[h]
                && metrics[h].repr !! metrics[host].repr
      ensures this !in metrics[host].repr
    {
      hide HostTable.Valid, HostTable.View, UpdateHost;
      metrics[host].Update(path, k, start, end, now);
    }

    method Record(host: string, path: string, k: Kind, start: int, end: int, now: int)
      requires Owned() && host in metrics && ROOT in metrics[host].states && 0 < Sec(start) && 0 < Sec(now)
      modifies repr
      ensures Owned() && fresh(repr - old(repr)) && events == old(events)
      ensures View() == old(View())[host := UpdateHost(old(View())[host], path, k, Span(start, end, now))]
    {
      hide HostTable.Valid, HostTable.View, UpdateHost;
      ghost var was := View();
      Forward(host, path, k, start, end, now);
      Absorb(host);
      hide Owned;
      assert View() == was[host := UpdateHost(was[host], path, k, Span(start, end, now))];
    }

    /** The table of a host has grown by new objects. */
    ghost method Absorb(host: string)
      requires this in repr && host in metrics
      requires forall h | h in metrics ::
                 metrics[h] in repr && this !in metrics[h].repr && metrics[h] in metrics[h].repr && metrics[h].Valid()
      requires forall h | h in metrics && h != host :: metrics[h].repr <= repr && metrics[h].repr !! metrics[host].repr
      requires forall a, b | a in metrics && b in metrics && a != b && a != host && b != host ::
                 metrics[a].repr !! metrics[b].repr
      modifies this`repr
      ensures repr == old(repr) + metrics[host].repr && Owned()
      ensures forall h | h in metrics :: metrics[h].View() == old(metrics[h].View())
    {
      hide HostTable.Valid, HostTable.View;
      repr := repr + metrics[host].repr;
    }

    /** `updateMetrics`. */
    method UpdateMetrics(host: string, path: string, k: Kind, start: int, end: int, now: int)
      requires Valid() && 0 < Sec(start) && 0 < Sec(now)
      modifies repr
      ensures Valid() && fresh(repr - old(repr))
      ensures events == old(events) + [Event(host, path, k, Span(start, end, now))]
    {
      hide Owned, UpdateHost, Replay, KeysFit, Seen, View;
      ghost var e, was := Event(host, path, k, Span(start, end, now)), View();
      ReplaySnoc(events, e);
      KeysOfReplay(events, host);
      ViewKeys();
      if host !in metrics {
        AddHost(host);
      }
      ViewKeys();
      RootIsThere(host);
      Record(host, path, k, start, end, now);
      assert View() == Update(was, host, path, k, Span(start, end, now));
      Remember(e);
    }

    ghost method Remember(e: Event)
      requires Owned()
      modifies this`events
      ensures Owned() && View() == old(View()) && events == old(events) + [e]
    {
      hide HostTable.Valid, HostTable.View;
      events := events + [e];
    }

    lemma ViewKeys()
      requires Owned()
      ensures View().Keys == metrics.Keys && this in repr
    {
    }

    lemma RootIsThere(host: string)
      requires Owned() && host in metrics && host in View() && ROOT in View()[host]
      ensures ROOT in metrics[host].states
    {
      metrics[host].ViewKeys();
    }

    /** Whatever was recorded: the aggregate of a host adds up its endpoints, in
        every counter and in every reading of the wheels that no wheel is ahead
        of, and the keys of a host stay few. */
    lemma Guarantees(host: string, c: Column, fam: Which, now: int, seconds: int, upto: nat)
      requires Valid() && host in metrics && AllTimely(events, upto)
      requires NoneAhead(View()[host], now) && now > 0 && 0 <= seconds <= WHEEL_SECONDS
      ensures RootIsSum(View()[host], Counter(c)) && RootIsSum(View()[host], ReadingOf(fam, now, seconds))
      ensures |metrics[host].states| <= MAX_ENDPOINTS_PER_HOST + 1
    {
      metrics[host].ViewKeys();
      assert View()[host] == metrics[host].View();
      hide Owned, Replay, RootIsSum, NoneAhead, AllTimely;
      CountersAreSums(events, host, c);
      ReadingsAreSums(events, host, fam, now, seconds, upto);
      KeyCount(events, host);
    }
  }
}
