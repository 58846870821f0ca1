/** What a call reports to the circuit, in terms of what was said to it, and what the
    circuit makes of a response. */
module Reporting {
  import opened Errors
  import Breaker
  import Probing
  import opened DoCalls
  import opened CallInvs
  import opened Circuit
  import Guarantees
  import opened Chronicle
  import Retrying
  import Books

  /** Done, and admitted by the circuit. */
  predicate HasReported(c: Call) { c.pc.Done? && c.ticket.Some? }

  /** A call that ends with a response reports a failure exactly when failures by
      status are on and the status is at least the limit, and a success otherwise. */
  lemma ResponseReport(k: Config, s: State, id: nat)
    requires k.Valid() && Reachable(k, s) && id in s.calls
    requires HasReported(s.calls[id]) && s.calls[id].pc.result.Response?
    ensures var c := s.calls[id];
            c.reported == Some(if 0 < k.statusFailMin <= c.pc.result.status then Failure else Success)
  {
    Guarantees.EveryCall(k, s, id);
    assert Admitted(k, s.calls[id]);
    hide CallInv, Reachable;
  }

  /** The outcome of every way to end; `broken` says whether some attempt of the call
      met a transport error. */
  predicate Fair(k: Config, w: Option<Word>, broken: bool, o: Outcome) {
    match w
    case None => o == Failure
    case Some(Said(status, _)) => o == if 0 < k.statusFailMin <= status then Failure else Success
    case Some(Denied(Stop)) => o == Neutral
    case Some(Denied(Context(cause))) => o == if cause.Expiry? && broken then Failure else Neutral
    case Some(Quit(cause)) => o == if cause.Expiry? && broken then Failure else Neutral
    case Some(Stuck(err)) => o == if broken && Is(err, DeadlineExceeded) then Failure else Neutral
    case Some(Judged(err, _)) =>
      o != Success
      && (o == Neutral
          <==> !Is(err, DeadlineExceeded)
               && (Is(err, Canceled) || As(err, LocalOp) || (!As(err, UrlError) && Is(err, Stopped))))
    case Some(Blew) => o == Failure
    case Some(Broke(_)) => false
  }

  lemma FairVerdict(k: Config, c: Call, w: Option<Word>)
    requires Obeys(k, c, w) && Over(c.pc) && !c.refused && c.req.wellFormed
    requires w.Some? && w.value.Judged? ==> c.lastErr.Some?
    ensures Fair(k, w, c.lastErr.Some?, Verdict(ResultOf(c.pc), c.lastErr.Some?, k.statusFailMin))
  {
    match w
    case None =>
    case Some(Said(_, _)) => hide Pause;
    case Some(Judged(err, _)) => ExhaustionCountsAsItsCause(err, true, k.statusFailMin);
    case Some(Stuck(err)) => LocalErrorIsNeutralIff(err, c.lastErr.Some?, k.statusFailMin);
    case Some(_) =>
  }

  lemma ToldIsFair(k: Config, story: seq<Act>, c: Call, t: int)
    requires Told(k, story, c) && CallInv(k, c, t) && HasReported(c)
    ensures c.reported.Some? && Fair(k, LastWord(story), HasBroken(story), c.reported.value)
  {
    assert Admitted(k, c);
    var w := LastWord(story);
    if w.Some? && w.value.Judged? {
      BrokeIsRemembered(story);
    }
    hide CallInv, Obeys, Recorded, LastWord, HasBroken, Endings, Launches, Fair, Verdict, InOrder, WaitsExactly;
    FairVerdict(k, c, w);
  }

  /** In every run the report of a call is the fair one for what was said to it last. */
  lemma EveryReportIsFair(k: Config, t0: int, es: seq<Event>, id: nat)
    requires k.Valid() && Run(k, t0, es) && id in Now(k, t0, es).calls && HasReported(Now(k, t0, es).calls[id])
    ensures var c, story := Now(k, t0, es).calls[id], Story(es, id);
            c.reported.Some? && Fair(k, LastWord(story), HasBroken(story), c.reported.value)
  {
    hide *;
    CallIsTold(k, t0, es, id);
    ToldIsFair(k, Story(es, id), Now(k, t0, es).calls[id], Now(k, t0, es).clock);
  }

  // -------------------------------------------------------------------------
  // What the circuit makes of a response

  lemma TicketIsLive(k: Config, s: State, id: nat)
    requires Inv(k, s) && k.breaker.Some? && id in s.calls && s.calls[id].pc.Reporting? && s.calls[id].ticket.Some?
    ensures id in s.breaker.live && s.breaker.live[id] == s.calls[id].ticket.value && s.breaker.clock == s.clock
  {
    assert TicketsTied(s.breaker.live, s.calls);
    hide Inv;
  }

  lemma ReportLands(k: Config, s: State, id: nat)
    requires k.breaker.Some? && Enabled(k, s, Do(id, FileReport)) && id in s.breaker.live
    ensures s.calls[id].pc.Reporting?
    ensures s.calls[id].ticket.Some? ==>
              Next(k, s, Do(id, FileReport)).breaker
              == Probing.AfterAnswer(k.breaker.value, s.breaker, id,
                                     Verdict(s.calls[id].pc.result, s.calls[id].lastErr.Some?, k.statusFailMin))
  {
    hide Verdict, AccountsAfter, Probing.AfterAnswer, Step;
  }

  lemma OnlyReportsFile(k: Config, s: State, id: nat)
    requires Enabled(k, s, Do(id, FileReport))
    ensures id in s.calls && s.calls[id].pc.Reporting?
  {
  }

  /** The report of a call moves the circuit by the verdict on its result: see
      `Breaker.ReportMovesIff` for what that does. */
  lemma ReportsMoveTheCircuit(k: Config, s: State, id: nat)
    requires k.Valid() && Reachable(k, s) && k.breaker.Some? && Enabled(k, s, Do(id, FileReport))
    requires s.calls[id].ticket.Some?
    ensures var c := s.calls[id];
            Next(k, s, Do(id, FileReport)).breaker.core
            == Breaker.Report(k.breaker.value, s.breaker.core, c.ticket.value,
                              Verdict(c.pc.result, c.lastErr.Some?, k.statusFailMin), s.clock)
  {
    OnlyReportsFile(k, s, id);
    hide Inv, Reachable, Enabled, Next, Verdict, Breaker.Report;
    ReachableInv(k, s);
    TicketIsLive(k, s, id);
    ReportLands(k, s, id);
  }

  /** While the circuit is closed, the report of a good response leaves no failure
      counted, and that of a bad one is the next failure, which opens the circuit
      exactly when it reaches the threshold. */
  lemma ResponsesMoveTheCircuit(k: Config, s: State, id: nat)
    requires k.Valid() && Reachable(k, s) && k.breaker.Some? && Enabled(k, s, Do(id, FileReport))
    requires s.calls[id].ticket.Some? && s.calls[id].pc.result.Response?
    requires s.breaker.core.cur.Closed? && Breaker.Heard(s.breaker.core, s.calls[id].ticket.value)
    ensures var b, d := s.breaker.core, Next(k, s, Do(id, FileReport)).breaker.core;
            if 0 < k.statusFailMin <= s.calls[id].pc.result.status
            then && d.consecFails == b.consecFails + 1
                 && d.cur == (if d.consecFails >= k.breaker.value.threshold then Breaker.Open else Breaker.Closed)
                 && (d.cur.Open? ==> d.openedAt == s.clock)
            else d.cur.Closed? && d.consecFails == 0
  {
    OnlyReportsFile(k, s, id);
    var c := s.calls[id];
    var o := Verdict(c.pc.result, c.lastErr.Some?, k.statusFailMin);
    assert o == if 0 < k.statusFailMin <= c.pc.result.status then Failure else Success;
    hide Reachable, Enabled, Next, Verdict, Breaker.Report, Breaker.Heard;
    ReportsMoveTheCircuit(k, s, id);
    Breaker.ReportMovesIff(k.breaker.value, s.breaker.core, c.ticket.value, o, s.clock);
  }

  /** In every run a call is refused exactly when, at the time it came, the circuit
      as it stands now is open and `openFor` has not passed, or is half-open with all
      its probes out for less than that. */
  lemma RefusedIffAtEntry(k: Config, t0: int, es: seq<Event>, i: nat, id: nat, adm: Breaker.Admission)
    requires k.Valid() && Run(k, t0, es) && i < |es| && es[i] == Do(id, Enter(adm))
    ensures Run(k, t0, es[..i])
    ensures var b, came := Now(k, t0, es[..i]).breaker.core, Books.CameAt(t0, es[..i], id);
            adm.Refused?
            <==> k.breaker.Some?
                 && var p := k.breaker.value;
                    || (b.cur.Open? && came < b.openedAt + p.openFor)
                    || (b.cur.HalfOpen? && b.probes >= p.maxProbes && came < b.halfOpenAt + p.openFor)
  {
    Retrying.EventOfRun(k, t0, es, i);
    Books.RunIsBooked(k, t0, es[..i]);
    var s := Now(k, t0, es[..i]);
    assert Books.KnownOf(t0, es[..i], s.calls, id);
    AdmittedAsAllowed(k, s, id, adm);
    hide Run, Now, Enabled, Books.CameAt, Books.StartOf, Books.RequestOf, Breaker.Allow;
    if k.breaker.Some? {
      Breaker.RefusedIff(k.breaker.value, s.breaker.core, s.calls[id].entryNow);
    }
  }

  lemma AdmittedAsAllowed(k: Config, s: State, id: nat, adm: Breaker.Admission)
    requires Enabled(k, s, Do(id, Enter(adm)))
    ensures id in s.calls
    ensures k.breaker.Some? ==> adm == Breaker.Allow(k.breaker.value, s.breaker.core, s.calls[id].entryNow).1
    ensures k.breaker.None? ==> adm.Granted?
  {
    hide Breaker.Allow;
  }
}
