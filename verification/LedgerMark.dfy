/**
 The write-path staleness mark over whole runs. It is meant to date the oldest settle no publish has covered,
 so that a replica which cannot publish stops admitting at a boundary. It does so exactly until a publish is
 overtaken: completes after a settle landed that its snapshot did not hold, while an older settle was marked.
 */
module LedgerMark {
  import opened Decimal
  import opened Periods
  import opened Ladder
  import opened Ledger
  import opened LedgerRuns

  // ---- The settles that wait ----

  ghost predicate Lands(w: World, e: Event) {
    e.Finish? && e.call < |w.calls| && !w.calls[e.call].settled && w.calls[e.call].cost != 0
  }

  function Later(times: seq<int>, snapshot: int): seq<int> {
    if times == [] then []
    else
      var n := |times| - 1;
      if times[n] > snapshot then Later(times[..n], snapshot) + [times[n]] else Later(times[..n], snapshot)
  }

  /** When the settles landed that no publish has covered, in the order they landed. */
  ghost function Waiting(scheme: Scheme, w: World, es: seq<Event>): seq<int> {
    if es == [] then [] else
      var init, e := es[..|es| - 1], es[|es| - 1];
      var before := Waiting(scheme, w, init);
      if e.Publish? then Later(before, e.snapshot)
      else if Lands(Run(scheme, w, init), e) then before + [e.time]
      else before
  }

  function Oldest(times: seq<int>): Option<int> {
    if times == [] then None else Some(times[0])
  }

  predicate Rising(times: seq<int>, bound: int) {
    && (forall i, j :: 0 <= i < j < |times| ==> times[i] <= times[j])
    && (forall i :: 0 <= i < |times| ==> times[i] <= bound)
  }

  /** The publish completes when a settle its snapshot did not hold has joined one that it did. */
  predicate Overtaken(times: seq<int>, snapshot: int) {
    times != [] && times[0] <= snapshot < times[|times| - 1]
  }

  lemma {:induction false} LaterIs(times: seq<int>, snapshot: int)
    ensures forall t :: t in Later(times, snapshot) <==> t in times && t > snapshot
  {
    if times != [] {
      LaterIs(times[..|times| - 1], snapshot);
      assert times == times[..|times| - 1] + [times[|times| - 1]];
    }
  }

  lemma {:induction false} LaterRises(times: seq<int>, bound: int, snapshot: int)
    requires Rising(times, bound)
    ensures Rising(Later(times, snapshot), bound)
  {
    if times != [] {
      LaterRises(times[..|times| - 1], bound, snapshot);
      LaterIs(times[..|times| - 1], snapshot);
      var rest := Later(times[..|times| - 1], snapshot);
      forall i | 0 <= i < |rest| ensures rest[i] <= times[|times| - 1] {
        assert rest[i] in rest;
      }
    }
  }

  lemma {:induction false} AllLater(times: seq<int>, snapshot: int)
    requires forall i :: 0 <= i < |times| ==> times[i] > snapshot
    ensures Later(times, snapshot) == times
  {
    if times != [] {
      AllLater(times[..|times| - 1], snapshot);
    }
  }

  // ---- One step ----

  /** A publish keeps the mark on the oldest waiting settle if and only if it is not overtaken. */
  lemma PublishMarks(l: ProviderLedger, times: seq<int>, bound: int, snapshot: int)
    requires Rising(times, bound) && l.dirtySince == Oldest(times)
    ensures Cleaned(l, snapshot).dirtySince == Oldest(Later(times, snapshot)) <==> !Overtaken(times, snapshot)
    ensures Overtaken(times, snapshot) ==> Cleaned(l, snapshot).dirtySince == None && Later(times, snapshot) != []
  {
    LaterIs(times, snapshot);
    if times != [] {
      if times[0] > snapshot {
        AllLater(times, snapshot);
      } else if times[|times| - 1] > snapshot {
        assert times[|times| - 1] in Later(times, snapshot);
      } else {
        assert forall t :: t in Later(times, snapshot) ==> t in times && t <= times[|times| - 1];
        assert Later(times, snapshot) == [];
      }
    }
  }

  /** What every other event does to the mark: only a settle touches it, and only where there is none. */
  lemma EventMarks(scheme: Scheme, w: World, e: Event)
    requires !e.Publish?
    ensures Next(scheme, w, e).l.dirtySince ==
            if Lands(w, e) && w.l.dirtySince == None then Some(e.time) else w.l.dirtySince
  {
    hide PeriodKey, Judge, MarginWidened, Acquired, Landed, Freed;
    if Lands(w, e) {
      var c, l := w.calls[e.call], Touch(scheme, w, e.time).l;
      var freed := if c.keys != {} && l.period == c.period then l.(adm := Freed(l.adm, c.keys, c.token)) else l;
      LandedMarks(freed, c.ns, c.workload, c.cost, e.time);
    }
  }

  lemma ClockAdvances(scheme: Scheme, w: World, e: Event)
    requires InOrder(w, e)
    ensures Next(scheme, w, e).now >= w.now && (Lands(w, e) ==> Next(scheme, w, e).now == e.time)
  {
    hide PeriodKey, Judge, MarginWidened, Acquired, Landed, Freed;
  }

  // ---- Whole runs ----

  ghost predicate NeverOvertaken(scheme: Scheme, w: World, es: seq<Event>) {
    es == [] ||
    var init, e := es[..|es| - 1], es[|es| - 1];
    NeverOvertaken(scheme, w, init) && (e.Publish? ==> !Overtaken(Waiting(scheme, w, init), e.snapshot))
  }

  /** After every event of the run the mark dates the oldest waiting settle. */
  ghost predicate AlwaysMarked(scheme: Scheme, w: World, es: seq<Event>) {
    && Run(scheme, w, es).l.dirtySince == Oldest(Waiting(scheme, w, es))
    && (es != [] ==> AlwaysMarked(scheme, w, es[..|es| - 1]))
  }

  lemma {:induction false} WaitingRises(scheme: Scheme, w: World, es: seq<Event>)
    requires Ordered(scheme, w, es)
    ensures Rising(Waiting(scheme, w, es), Run(scheme, w, es).now)
  {
    hide Next, Lands, InOrder;
    if es != [] {
      var init, e := es[..|es| - 1], es[|es| - 1];
      var v := Run(scheme, w, init);
      WaitingRises(scheme, w, init);
      ClockAdvances(scheme, v, e);
      if e.Publish? {
        LaterRises(Waiting(scheme, w, init), v.now, e.snapshot);
      }
    }
  }

  /** The mark never dates anything but a settle that waits, whatever the clock does. */
  lemma {:induction false} MarkWaits(scheme: Scheme, time: int, es: seq<Event>)
    ensures
      var mark := Run(scheme, Start(scheme, time), es).l.dirtySince;
      mark.Some? ==> mark.value in Waiting(scheme, Start(scheme, time), es)
  {
    hide PeriodKey;
    if es != [] {
      hide Next, Lands;
      var init, e := es[..|es| - 1], es[|es| - 1];
      var w := Run(scheme, Start(scheme, time), init);
      MarkWaits(scheme, time, init);
      if e.Publish? {
        LaterIs(Waiting(scheme, Start(scheme, time), init), e.snapshot);
        PublishCleans(scheme, w, e);
      } else {
        EventMarks(scheme, w, e);
      }
    }
  }

  lemma PublishCleans(scheme: Scheme, w: World, e: Event)
    requires e.Publish?
    ensures Next(scheme, w, e).l == Cleaned(w.l, e.snapshot)
  {
  }

  /**
   The mark dates the oldest waiting settle throughout a run with a forward clock if and only if no publish of
   the run is overtaken.
   */
  lemma {:induction false} MarkIff(scheme: Scheme, time: int, es: seq<Event>)
    requires Ordered(scheme, Start(scheme, time), es)
    ensures AlwaysMarked(scheme, Start(scheme, time), es) <==> NeverOvertaken(scheme, Start(scheme, time), es)
  {
    hide PeriodKey;
    var start := Start(scheme, time);
    if es != [] {
      hide Next, Lands, InOrder;
      var init, e := es[..|es| - 1], es[|es| - 1];
      var w, times := Run(scheme, start, init), Waiting(scheme, start, init);
      MarkIff(scheme, time, init);
      WaitingRises(scheme, start, init);
      if w.l.dirtySince == Oldest(times) {
        if e.Publish? {
          PublishCleans(scheme, w, e);
          PublishMarks(w.l, times, w.now, e.snapshot);
        } else {
          EventMarks(scheme, w, e);
        }
      }
    }
  }

  /** Where no publish is overtaken, a settle that has waited half a minute keeps every request from a slot. */
  lemma WaitingFailsClosed(scheme: Scheme, time: int, es: seq<Event>, landed: int,
                           budget: Budget, ns: string, now: int, replicas: int)
    requires Ordered(scheme, Start(scheme, time), es) && NeverOvertaken(scheme, Start(scheme, time), es)
    requires landed in Waiting(scheme, Start(scheme, time), es) && now > landed + 30_000_000_000
    ensures !Judge(budget, Run(scheme, Start(scheme, time), es).l, ns, now, replicas).Slotted?
  {
    hide Run, Waiting, Ordered, NeverOvertaken, BoundaryKeys, BlocksAt, Worst, Start, Held, HasBlock;
    var times := Waiting(scheme, Start(scheme, time), es);
    MarkIff(scheme, time, es);
    WaitingRises(scheme, Start(scheme, time), es);
    var i :| 0 <= i < |times| && times[i] == landed;
    assert times[0] <= landed;
  }

  // ---- An overtaken publish ----

  const STRICT := Budget(Daily, 100, 0, [Policy(100, Block)], true, None)
  const OPEN := STRICT.(policies := [])

  /** Two requests settle, the second after the snapshot of the publish that covers the first. */
  const OVERTAKING: seq<Event> := [
    Try(OPEN, "team", "w", 48, 0, 1), Try(OPEN, "team", "w", 48, 0, 1), Finish(0, 1), Finish(1, 3), Publish(2),
    Fold(map[], 60_000_000_000)]

  lemma SameDay(t: int)
    requires 0 <= t < NS_PER_DAY
    ensures PeriodKey(Daily, t) == PeriodKey(Daily, 0)
  {
    hide YearOf, MonthOf, DayOfMonth;
    assert DayOf(t) == 0 == DayOf(0);
  }

  lemma NextOf(es: seq<Event>, n: nat)
    requires n < |es|
    ensures Run(Daily, Start(Daily, 0), es[..n + 1]) == Next(Daily, Run(Daily, Start(Daily, 0), es[..n]), es[n])
    ensures
      var w, times := Run(Daily, Start(Daily, 0), es[..n]), Waiting(Daily, Start(Daily, 0), es[..n]);
      Waiting(Daily, Start(Daily, 0), es[..n + 1]) ==
      if es[n].Publish? then Later(times, es[n].snapshot) else if Lands(w, es[n]) then times + [es[n].time] else times
  {
    hide Next, Lands, Later, Start;
    assert es[..n + 1][..n] == es[..n];
  }

  lemma NothingYet(es: seq<Event>)
    ensures Run(Daily, Start(Daily, 0), es[..0]) == Start(Daily, 0) && Waiting(Daily, Start(Daily, 0), es[..0]) == []
  {
    hide Start;
    assert es[..0] == [];
  }

  lemma BothTried()
    ensures
      var w := Run(Daily, Start(Daily, 0), OVERTAKING[..2]);
      && w.l == FreshLedger(PeriodKey(Daily, 0)) && Waiting(Daily, Start(Daily, 0), OVERTAKING[..2]) == []
      && |w.calls| == 2
      && w.calls[0] == w.calls[1] == Call("team", "w", 48, {}, 0, PeriodKey(Daily, 0), 0, false)
  {
    hide PeriodKey, Run, Waiting;
    NothingYet(OVERTAKING);
    NextOf(OVERTAKING, 0);
    NextOf(OVERTAKING, 1);
  }

  /** An unslotted settle of the current period. */
  lemma SettleLands(w: World, i: nat, time: int)
    requires i < |w.calls| && !w.calls[i].settled && w.calls[i].keys == {} && w.calls[i].cost != 0
    requires w.l.period == PeriodKey(Daily, time)
    ensures
      var c, w' := w.calls[i], Next(Daily, w, Finish(i, time));
      && w'.l == Landed(w.l, c.ns, c.workload, c.cost, time) && w'.calls == w.calls[i := c.(settled := true)]
  {
    hide PeriodKey, Landed;
  }

  lemma BothSettle()
    ensures
      var w := Run(Daily, Start(Daily, 0), OVERTAKING[..4]);
      && w.l.own == map["team" := 96] && w.l.peers == map[] && w.l.adm == map[] && w.l.dirtySince == Some(1)
      && w.l.period == PeriodKey(Daily, 0) && Waiting(Daily, Start(Daily, 0), OVERTAKING[..4]) == [1, 3]
  {
    hide PeriodKey, Observe, WorkloadKey, Run, Waiting, Next;
    SameDay(1);
    SameDay(3);
    BothTried();
    NextOf(OVERTAKING, 2);
    NextOf(OVERTAKING, 3);
    SettleLands(Run(Daily, Start(Daily, 0), OVERTAKING[..2]), 0, 1);
    SettleLands(Run(Daily, Start(Daily, 0), OVERTAKING[..3]), 1, 3);
  }

  /** With 96 of 100 spent, the peer view fresh and no mark, the next request takes a slot. */
  lemma AdmittedAtBoundary(l: ProviderLedger)
    requires l.own == map["team" := 96] && l.peers == map[] && l.adm == map[]
    requires l.dirtySince == None && l.lastFold == Some(60_000_000_000)
    ensures Judge(STRICT, l, "team", 60_000_000_000, 1).Slotted?
  {
    hide MarginAmount;
    assert Percent(96, 100) == 96.0;
  }

  /**
   The publish that the second settle overtakes leaves it waiting without a mark. A minute later, with a fresh
   peer view, the next request is given a slot although that settle was never published.
   */
  lemma OvertakenGoesUnseen()
    ensures
      var w := Run(Daily, Start(Daily, 0), OVERTAKING);
      && Waiting(Daily, Start(Daily, 0), OVERTAKING) == [3] && w.l.dirtySince == None
      && Judge(STRICT, w.l, "team", 60_000_000_000, 1).Slotted?
  {
    hide PeriodKey, Run, Waiting, Judge;
    SameDay(60_000_000_000);
    BothSettle();
    NextOf(OVERTAKING, 4);
    NextOf(OVERTAKING, 5);
    assert Later([1, 3], 2) == [3] by {
      assert [1, 3][..1] == [1] && [1][..0] == [];
    }
    assert OVERTAKING[..6] == OVERTAKING;
    AdmittedAtBoundary(Run(Daily, Start(Daily, 0), OVERTAKING).l);
  }
}
