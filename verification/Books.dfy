/** What `Do` records, read off a run: the books are exactly the entries that the
    stories of the calls call for. */
module Books {
  import opened Errors
  import Ledger
  import Tallies
  import BucketOps
  import Accounts
  import opened DoCalls
  import opened CallInvs
  import opened Circuit
  import opened Runs
  import opened Sending
  import opened Chronicle

  /** The entry that a step makes, given the last word: an attempt; the outcome of a
      wait for permission that failed, of a body that could not be read again, of a
      transport error, or of a response; a cancellation; a retry. */
  function Entry(k: Config, w: Option<Word>, a: Act): Option<Ledger.Kind> {
    match a
    case NoteAttempt => Some(Ledger.Tried)
    case NoteWaitFailure => Some(Ledger.Lost)
    case NoteRewindFailure => Some(Ledger.Lost)
    case NoteError => Some(Ledger.Lost)
    case NoteResponse =>
      if w.Some? && w.value.Said? && !(0 < k.statusFailMin <= w.value.status) then Some(Ledger.Won)
      else Some(Ledger.Lost)
    case NoteCancel => Some(Ledger.GaveUp)
    case NoteRetry(_) => Some(Ledger.Retried)
    case _ => None
  }

  function ClockOf(t0: int, es: seq<Event>): int {
    if es == [] then t0
    else if es[|es| - 1].Pass? then es[|es| - 1].now
    else ClockOf(t0, es[..|es| - 1])
  }

  function RequestOf(es: seq<Event>, id: nat): Option<Request> {
    if es == [] then None
    else
      var e := es[|es| - 1];
      if e.Begin? && e.id == id then Some(e.req) else RequestOf(es[..|es| - 1], id)
  }

  /** When the attempt under way began. */
  function StartOf(t0: int, es: seq<Event>, id: nat): int {
    if es == [] then t0
    else
      var front, e := es[..|es| - 1], es[|es| - 1];
      if (e.Begin? && e.id == id) || (e.Do? && e.id == id && (e.act.TakeSlot? || e.act.Wake?)) then ClockOf(t0, front)
      else StartOf(t0, front, id)
  }

  /** When the call came. */
  function CameAt(t0: int, es: seq<Event>, id: nat): int {
    if es == [] then t0
    else
      var front, e := es[..|es| - 1], es[|es| - 1];
      if e.Begin? && e.id == id then ClockOf(t0, front) else CameAt(t0, front, id)
  }

  /** The entry of one event after a run: under the path of its call, "/" if that is
      empty, from the start of the attempt to now. */
  function EntryOf(k: Config, t0: int, es: seq<Event>, e: Event): seq<Ledger.Event> {
    if !e.Do? || RequestOf(es, e.id).None? then []
    else
      var req, kind := RequestOf(es, e.id).value, Entry(k, LastWord(Story(es, e.id)), e.act);
      var now := ClockOf(t0, es);
      if kind.None? then []
      else [Ledger.Event(req.host, if req.path == "" then "/" else req.path, kind.value,
                         Ledger.Span(StartOf(t0, es, e.id), now, now))]
  }

  function Entries(k: Config, t0: int, es: seq<Event>): seq<Ledger.Event> {
    if es == [] then []
    else Entries(k, t0, es[..|es| - 1]) + EntryOf(k, t0, es[..|es| - 1], es[|es| - 1])
  }

  // -------------------------------------------------------------------------
  // One step

  lemma EntryIsEffect(k: Config, c: Call, a: Act, t: int, w: Option<Word>)
    requires Can(k, c, a, t) && Obeys(k, c, w)
    ensures var fx := EffectOf(k, c, a, t);
            match Entry(k, w, a)
            case Some(kind) => fx == Booked(kind)
            case None => !fx.Booked?
  {
    hide Pause, Verdict;
  }

  lemma BooksAfter(k: Config, s: State, id: nat, a: Act)
    requires Enabled(k, s, Do(id, a))
    ensures id in s.calls && Can(k, s.calls[id], a, s.clock)
    ensures var c, fx := s.calls[id], EffectOf(k, s.calls[id], a, s.clock);
            Next(k, s, Do(id, a)).accounts.events
            == s.accounts.events
               + if fx.Booked?
                 then [Ledger.Event(c.req.host, if c.req.path == "" then "/" else c.req.path, fx.kind,
                                    Ledger.Span(c.start, s.clock, s.clock))]
                 else []
  {
    hide Can, EffectOf, Step, BreakerAfter, BucketAfter, GateAfter, Permits, Ledger.Update;
  }

  /** What the entries of a run depend on. */
  ghost predicate KnownOf(t0: int, es: seq<Event>, calls: Calls, id: nat) {
    if id in calls
    then && RequestOf(es, id) == Some(calls[id].req) && calls[id].start == StartOf(t0, es, id)
         && calls[id].entryNow == CameAt(t0, es, id)
    else RequestOf(es, id).None?
  }

  ghost predicate Booking(k: Config, t0: int, es: seq<Event>, s: State) {
    && s.clock == ClockOf(t0, es) && s.accounts.events == Entries(k, t0, es)
    && forall id: nat :: KnownOf(t0, es, s.calls, id)
  }

  lemma ReadOn(k: Config, t0: int, es: seq<Event>, e: Event, id: nat)
    ensures ClockOf(t0, es + [e]) == if e.Pass? then e.now else ClockOf(t0, es)
    ensures RequestOf(es + [e], id) == if e.Begin? && e.id == id then Some(e.req) else RequestOf(es, id)
    ensures StartOf(t0, es + [e], id)
            == if (e.Begin? && e.id == id) || (e.Do? && e.id == id && (e.act.TakeSlot? || e.act.Wake?))
               then ClockOf(t0, es) else StartOf(t0, es, id)
    ensures CameAt(t0, es + [e], id) == if e.Begin? && e.id == id then ClockOf(t0, es) else CameAt(t0, es, id)
    ensures Entries(k, t0, es + [e]) == Entries(k, t0, es) + EntryOf(k, t0, es, e)
  {
    assert (es + [e])[..|es|] == es;
    hide EntryOf;
  }

  lemma NextKnown(k: Config, t0: int, es: seq<Event>, s: State, e: Event, id: nat)
    requires Enabled(k, s, e) && s.clock == ClockOf(t0, es) && KnownOf(t0, es, s.calls, id)
    ensures KnownOf(t0, es + [e], Next(k, s, e).calls, id)
  {
    CallsAfter(k, s, e);
    ReadOn(k, t0, es, e, id);
    if e.Do? {
      EveryStepKeeps(k, s.calls[e.id], e.act, s.clock);
    }
    NewCallIs(if e.Begin? then e.req else Request(true, "", "", None, false), s.clock);
    hide Enabled, Next, Can, Step, NewCall, ClockOf, RequestOf, StartOf, CameAt, Entries, EntryOf;
  }

  lemma NewCallIs(req: Request, now: int)
    ensures NewCall(req, now).req == req && NewCall(req, now).start == now == NewCall(req, now).entryNow
  {
  }

  lemma OtherBooksNothing(k: Config, s: State, e: Event)
    requires Enabled(k, s, e) && !e.Do?
    ensures Next(k, s, e).accounts == s.accounts && Next(k, s, e).clock == if e.Pass? then e.now else s.clock
  {
    hide BucketOps.Do;
  }

  lemma DoKeepsClock(k: Config, s: State, id: nat, a: Act)
    requires Enabled(k, s, Do(id, a))
    ensures Next(k, s, Do(id, a)).clock == s.clock
  {
  }

  lemma NextBooks(k: Config, t0: int, es: seq<Event>, s: State, e: Event)
    requires Enabled(k, s, e) && Booking(k, t0, es, s)
    requires e.Do? ==> e.id in s.calls && Obeys(k, s.calls[e.id], LastWord(Story(es, e.id)))
    ensures Booking(k, t0, es + [e], Next(k, s, e))
  {
    forall id: nat ensures KnownOf(t0, es + [e], Next(k, s, e).calls, id) {
      NextKnown(k, t0, es, s, e, id);
    }
    ReadOn(k, t0, es, e, 0);
    if e.Do? {
      var c := s.calls[e.id];
      assert KnownOf(t0, es, s.calls, e.id);
      BooksAfter(k, s, e.id, e.act);
      DoKeepsClock(k, s, e.id, e.act);
      EntryIsEffect(k, c, e.act, s.clock, LastWord(Story(es, e.id)));
      hide Enabled, Next, Can, EffectOf, Entry, Obeys, ClockOf, RequestOf, StartOf, Entries, LastWord, Story, KnownOf;
    } else {
      OtherBooksNothing(k, s, e);
      hide Enabled, Next, ClockOf, RequestOf, StartOf, Entries, KnownOf;
    }
  }

  // -------------------------------------------------------------------------
  // Runs

  lemma NothingBooked(k: Config, t0: int)
    ensures Booking(k, t0, [], Init(k, t0))
  {
  }

  lemma ObeysInRun(k: Config, t0: int, es: seq<Event>, e: Event)
    requires k.Valid() && Run(k, t0, es) && Enabled(k, Now(k, t0, es), e) && e.Do?
    ensures e.id in Now(k, t0, es).calls && Obeys(k, Now(k, t0, es).calls[e.id], LastWord(Story(es, e.id)))
  {
    CallsAfter(k, Now(k, t0, es), e);
    hide Run, Now, Enabled, CallInv, Obeys, Recorded, Story, LastWord;
    CallIsTold(k, t0, es, e.id);
  }

  /** In every run the events of the metrics store are exactly the entries that the
      stories of the calls call for, in their order. */
  lemma {:induction false} RunIsBooked(k: Config, t0: int, es: seq<Event>)
    requires k.Valid() && Run(k, t0, es)
    ensures Booking(k, t0, es, Now(k, t0, es))
    decreases |es|
  {
    hide Booking, Enabled, Next, Init, Obeys;
    if es == [] {
      NothingBooked(k, t0);
    } else {
      var front, e := es[..|es| - 1], es[|es| - 1];
      RunFront(k, Init(k, t0), es);
      assert Run(k, t0, front) && Now(k, t0, es) == Next(k, Now(k, t0, front), e);
      RunIsBooked(k, t0, front);
      if e.Do? {
        ObeysInRun(k, t0, front, e);
      }
      NextBooks(k, t0, front, Now(k, t0, front), e);
      assert front + [e] == es;
    }
  }

  lemma BookingIs(k: Config, t0: int, es: seq<Event>, s: State)
    requires Booking(k, t0, es, s)
    ensures s.accounts.events == Entries(k, t0, es)
  {
  }

  lemma StoreReplays(k: Config, s: State)
    requires Inv(k, s)
    ensures s.accounts.metrics == Ledger.Replay(s.accounts.events)
  {
    assert Accounts.Faithful(s.accounts, Ledger.Sec(s.clock));
    hide Inv;
  }

  lemma KeyAdds(es: seq<Ledger.Event>, host: string, key: string)
    ensures Tallies.Adds(Ledger.At(Ledger.HostOf(Ledger.Replay(es), host), key), Tallies.Held(es, host, key))
  {
    hide Tallies.Adds, Tallies.Held, Ledger.Replay;
    Tallies.CountersAndSamples(es, host);
  }

  /** The counters of the running system, one by one and under every key, the
      aggregate included: attempts recorded; responses recorded under the failure
      limit; responses recorded at or above it, transport errors, bodies that could
      not be read again and waits for permission that failed; retries; and
      cancellations. Each family holds the samples of exactly these. */
  lemma CountersOfRun(k: Config, t0: int, es: seq<Event>, host: string, key: string)
    requires k.Valid() && Run(k, t0, es)
    ensures Tallies.Adds(Ledger.At(Ledger.HostOf(Now(k, t0, es).accounts.metrics, host), key),
                         Tallies.Held(Entries(k, t0, es), host, key))
  {
    hide *;
    RunTells(k, t0, es);
    RunIsBooked(k, t0, es);
    BookingIs(k, t0, es, Now(k, t0, es));
    StoreReplays(k, Now(k, t0, es));
    KeyAdds(Entries(k, t0, es), host, key);
  }
}
