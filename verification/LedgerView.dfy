/**
 What a replica enforces against over whole runs: the peer view the period's last fold delivered, nothing at
 the start of a period, and when the view is too old to admit on.
 */
module LedgerView {
  import opened Totals
  import opened Decimal
  import opened Periods
  import opened Ladder
  import opened Ledger
  import opened LedgerRuns

  // ---- Rollover ----

  /** A new period starts with no spend on any ceiling, no slot held, no row and no observed traffic. */
  lemma RolloverClears(l: ProviderLedger, period: string, key: string, ceiling: nat, configured: int, replicas: int)
    requires l.period != period
    ensures
      var m := Rolled(l, period);
      && m.period == period && Spent(m, key) == 0 && m.adm == map[] && !m.marginRaised
      && Get(m.ownW, key) + Get(m.peersW, key) == 0
      && (ceiling > 0 && configured >= 0 ==> EffectiveMargin(m, ceiling, configured, replicas) == configured as real)
      && m.nextToken == l.nextToken && m.dirtySince == l.dirtySince && m.lastFold == l.lastFold
  {
    TotalEmpty<string>(map[]);
  }

  /** Its first request is blocked only by a ladder that blocks at zero, and never throttled. */
  lemma RolloverReopens(budget: Budget, l: ProviderLedger, period: string, ns: string, now: int, replicas: int)
    requires l.period != period
    ensures
      var v := Judge(budget, Rolled(l, period), ns, now, replicas);
      (v == Blocked <==> BlocksAt(budget.policies, 0.0)) && v != Throttled
  {
    hide BlocksAt, BoundaryKeys, Percent;
    RolloverClears(l, period, CLUSTER_SLOT, 0, 0, 0);
    ZeroPercent(budget.nsCeiling);
    ZeroPercent(budget.clusterCeiling);
    TotalEmpty<string>(map[]);
    assert Worst(budget, Rolled(l, period), ns) == 0.0;
  }

  /** A provider's ledger is the one it had, with its spend until the period turns and its marks beyond. */
  lemma LedgerKept(providers: map<string, ProviderLedger>, name: string, period: string, key: string)
    ensures
      var l := LedgerFor(providers, name, period);
      && l.period == period
      && (name in providers ==>
            && l.nextToken == providers[name].nextToken && l.dirtySince == providers[name].dirtySince
            && l.lastFold == providers[name].lastFold
            && (providers[name].period == period ==> l == providers[name]))
      && (name !in providers || providers[name].period != period ==> Spent(l, key) == 0 && l.adm == map[])
      && (name !in providers ==> l.dirtySince == None && l.lastFold == None)
  {
    TotalEmpty<string>(map[]);
  }

  // ---- The boundary ----

  /**
   Before any traffic is observed, a request needs a slot from the lowest block threshold less the configured
   margin on, which is five points where none is configured.
   */
  lemma QuietBoundary(l: ProviderLedger, budget: Budget, spent: int, ceiling: nat, replicas: int)
    requires l.tracker == NO_TRAFFIC && ceiling > 0 && (budget.margin.Some? ==> budget.margin.value >= 0)
    ensures
      var margin := if budget.margin.Some? then budget.margin.value else 5;
      InBoundary(l, budget, spent, ceiling, replicas) <==>
      100 * spent >= (MinBlockAt(budget.policies) - margin) * ceiling
  {
    hide Percent, MinBlockAt;
    var margin := if budget.margin.Some? then budget.margin.value else 5;
    assert EffectiveMargin(l, ceiling, margin, replicas) == margin as real;
    PercentReached(spent, ceiling, MinBlockAt(budget.policies) - margin);
  }

  // ---- Unverified state ----

  /**
   A request is turned away as unverified exactly when it would need a slot that is free, and either no fold
   ever arrived, the last one is more than half a minute old, or a settle has waited that long to be published.
   */
  lemma UnavailableIff(budget: Budget, l: ProviderLedger, ns: string, now: int, replicas: int)
    ensures Judge(budget, l, ns, now, replicas) == Unavailable <==>
            && budget.hard && HasBlock(budget.policies) && !BlocksAt(budget.policies, Worst(budget, l, ns))
            && BoundaryKeys(l, budget, ns, replicas) != {} && ns !in l.adm
            && (CLUSTER_SLOT in l.adm ==> budget.clusterCeiling == 0)
            && (|| l.lastFold == None || now > l.lastFold.value + 30_000_000_000
                || (l.dirtySince.Some? && now > l.dirtySince.value + 30_000_000_000))
  {
    hide BlocksAt, Worst, BoundaryKeys;
  }

  // ---- The peer view over runs ----

  function LatestFold(es: seq<Event>): Option<Event> {
    if es == [] then None
    else if es[|es| - 1].Fold? then Some(es[|es| - 1])
    else LatestFold(es[..|es| - 1])
  }

  /** What a fold leaves of itself in a ledger: its stamp, and its spend while its period lasts. */
  ghost predicate Shows(scheme: Scheme, w: World, f: Option<Event>) {
    match f
    case None => w.l.lastFold == None && w.l.peers == map[]
    case Some(e) =>
      && e.Fold? && w.l.lastFold == Some(e.time) && e.time <= w.now
      && w.l.peers == if PeriodKey(scheme, e.time) == w.l.period then e.peers else map[]
  }

  lemma TouchShows(scheme: Scheme, w: World, time: int, f: Option<Event>)
    requires Shows(scheme, w, f) && ClockInv(scheme, w) && time >= w.now
    ensures Shows(scheme, Touch(scheme, w, time), f)
  {
    hide PeriodKey;
    if f.Some? && PeriodKey(scheme, time) != w.l.period && PeriodKey(scheme, f.value.time) == PeriodKey(scheme, time) {
      PeriodsAreIntervals(scheme, f.value.time, w.now, time);
    }
  }

  lemma SameShows(scheme: Scheme, w: World, w': World, f: Option<Event>)
    requires Shows(scheme, w, f) && w'.now == w.now
    requires w'.l.peers == w.l.peers && w'.l.lastFold == w.l.lastFold && w'.l.period == w.l.period
    ensures Shows(scheme, w', f)
  {
  }

  lemma FinishKeepsView(scheme: Scheme, w: World, n: nat, time: int)
    requires n < |w.calls|
    ensures
      var w' := Finished(scheme, w, n, time);
      w'.l.peers == w.l.peers && w'.l.lastFold == w.l.lastFold && w'.l.period == w.l.period && w'.now == w.now
  {
    hide Landed, Freed;
    var c := w.calls[n];
    var freed := if c.keys != {} && w.l.period == c.period then w.l.(adm := Freed(w.l.adm, c.keys, c.token)) else w.l;
    LandedKeepsView(freed, c.ns, c.workload, c.cost, time);
  }

  lemma LandedKeepsView(l: ProviderLedger, ns: string, workload: string, cost: int, now: int)
    ensures
      var m := Landed(l, ns, workload, cost, now);
      m.peers == l.peers && m.lastFold == l.lastFold && m.period == l.period
  {
    hide Observe, WorkloadKey;
  }

  lemma NextShows(scheme: Scheme, w: World, e: Event, f: Option<Event>)
    requires Shows(scheme, w, f) && ClockInv(scheme, w) && InOrder(w, e)
    ensures Shows(scheme, Next(scheme, w, e), if e.Fold? then Some(e) else f)
  {
    hide PeriodKey, Judge, MarginWidened, Finished, Acquired, Touch, Shows;
    var w' := Next(scheme, w, e);
    match e {
      case Try(budget, _, _, _, time, _) =>
        if budget.policies == [] {
          SameShows(scheme, w, w', f);
        } else {
          TouchShows(scheme, w, time, f);
          SameShows(scheme, Touch(scheme, w, time), w', f);
        }
      case Finish(i, time) =>
        if i < |w.calls| && !w.calls[i].settled {
          TouchShows(scheme, w, time, f);
          TouchedCalls(scheme, w, time);
          FinishKeepsView(scheme, Touch(scheme, w, time), i, time);
          SameShows(scheme, Touch(scheme, w, time), w', f);
        }
      case Fold(_, time) => FoldShows(scheme, w, e);
      case Publish(_) => SameShows(scheme, w, w', f);
    }
  }

  lemma TouchedCalls(scheme: Scheme, w: World, time: int)
    ensures Touch(scheme, w, time).calls == w.calls
  {
    hide PeriodKey;
  }

  lemma FoldShows(scheme: Scheme, w: World, e: Event)
    requires e.Fold?
    ensures Shows(scheme, Next(scheme, w, e), Some(e))
  {
    hide PeriodKey;
  }

  /**
   In every state a run with a forward clock reaches, the peer view is what the last fold delivered if that was
   in the current period, and empty otherwise; the age of the view is counted from that fold.
   */
  lemma {:induction false} PeersAreLastFold(scheme: Scheme, time: int, es: seq<Event>)
    requires Ordered(scheme, Start(scheme, time), es)
    ensures Shows(scheme, Run(scheme, Start(scheme, time), es), LatestFold(es))
  {
    hide PeriodKey, Next, Shows, InOrder;
    var w := Run(scheme, Start(scheme, time), es);
    if es == [] {
      NothingShown(scheme, time);
    } else {
      var init, e := es[..|es| - 1], es[|es| - 1];
      PeersAreLastFold(scheme, time, init);
      SerializedAdmission(scheme, time, init);
      NextShows(scheme, Run(scheme, Start(scheme, time), init), e, LatestFold(init));
    }
  }

  lemma NothingShown(scheme: Scheme, time: int)
    ensures Shows(scheme, Start(scheme, time), None)
  {
    hide PeriodKey;
  }
}
