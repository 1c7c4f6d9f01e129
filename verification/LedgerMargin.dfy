/**
 The boundary margin over whole runs: what the traffic tracker knows in every reachable ledger, and why the
 margin computed from it covers one request per replica as large as any the period has seen.
 */
module LedgerMargin {
  import opened Decimal
  import opened Periods
  import opened Ladder
  import opened Ledger
  import opened LedgerRuns

  /** The tracked maximum is the largest cost landed in the period, zero before the first positive one. */
  ghost predicate Tracked(w: World) {
    && w.l.tracker.maxCost >= 0 && w.l.tracker.peakRate >= 0.0
    && (forall c :: c in w.landed ==> c.cost <= w.l.tracker.maxCost)
    && (w.l.tracker.maxCost == 0 || exists c :: c in w.landed && c.cost == w.l.tracker.maxCost)
  }

  /** A cost opens a bucket when there is none or the last one is ten seconds old. */
  predicate Reopens(t: Tracker, cost: int, now: int) {
    cost > 0 && (t.bucketStart == None || now >= t.bucketStart.value + 10_000_000_000)
  }

  /** The maximum and the peak rate only grow, the peak exactly to the rate of a bucket that closes. */
  lemma ObserveGrows(t: Tracker, cost: int, now: int)
    ensures var u := Observe(t, cost, now);
            && u.maxCost == (if cost > 0 && cost > t.maxCost then cost else t.maxCost)
            && u.peakRate >= t.peakRate
            && (Reopens(t, cost, now) ==>
                  && u.bucketStart == Some(now) && u.bucketSum == cost
                  && (t.bucketStart.Some? ==> u.peakRate >= t.bucketSum as real / 10.0)
                  && (u.peakRate == t.peakRate || (t.bucketStart.Some? && u.peakRate == t.bucketSum as real / 10.0)))
            && (!Reopens(t, cost, now) ==>
                  && u.bucketStart == t.bucketStart && u.peakRate == t.peakRate
                  && u.bucketSum == t.bucketSum + if cost > 0 then cost else 0)
  {
  }

  /** What one settlement does to the tracker. */
  lemma FinishTracks(scheme: Scheme, w: World, n: nat, time: int)
    requires n < |w.calls|
    ensures var w' := Finished(scheme, w, n, time);
            && w'.l.tracker == (if w.calls[n].cost == 0 then w.l.tracker
                                else Observe(w.l.tracker, w.calls[n].cost, time))
            && w'.l.period == w.l.period
  {
    hide Observe;
  }

  lemma FinishKeepsTracked(scheme: Scheme, w: World, n: nat, time: int)
    requires Tracked(w) && n < |w.calls|
    ensures Tracked(Finished(scheme, w, n, time))
  {
    hide Observe, Landed, AfterSettle;
    var w' := Finished(scheme, w, n, time);
    var cost := w.calls[n].cost;
    FinishTracks(scheme, w, n, time);
    ObserveGrows(w.l.tracker, cost, time);
    if cost != 0 {
      var c := Charge(w.calls[n].ns, w.calls[n].workload, cost);
      assert w'.landed == w.landed + [c] && c in w'.landed;
      assert forall d :: d in w.landed ==> d in w'.landed;
    }
  }

  lemma TouchKeepsTracked(scheme: Scheme, w: World, time: int)
    requires Tracked(w)
    ensures Tracked(Touch(scheme, w, time))
  {
    hide PeriodKey;
  }

  lemma NextKeepsTracked(scheme: Scheme, w: World, e: Event)
    requires Tracked(w)
    ensures Tracked(Next(scheme, w, e))
  {
    hide PeriodKey, Judge, Tracked, Touch, Finished, MarginWidened;
    match e {
      case Try(budget, _, _, _, time, _) =>
        TouchKeepsTracked(scheme, w, time);
        SameTracker(w, Next(scheme, w, e));
        SameTracker(Touch(scheme, w, time), Next(scheme, w, e));
      case Finish(i, time) =>
        TouchKeepsTracked(scheme, w, time);
        if i < |w.calls| && !w.calls[i].settled {
          TouchKeepsCalls(scheme, w, time);
          FinishKeepsTracked(scheme, Touch(scheme, w, time), i, time);
        }
      case Fold(_, time) =>
        TouchKeepsTracked(scheme, w, time);
        SameTracker(Touch(scheme, w, time), Next(scheme, w, e));
      case Publish(_) =>
        SameTracker(w, Next(scheme, w, e));
    }
  }

  lemma TouchKeepsCalls(scheme: Scheme, w: World, time: int)
    ensures Touch(scheme, w, time).calls == w.calls
  {
    hide PeriodKey;
  }

  lemma SameTracker(w: World, w': World)
    ensures Tracked(w) && w'.l.tracker == w.l.tracker && w'.landed == w.landed ==> Tracked(w')
  {
  }

  /** In every reachable ledger the tracked maximum is exactly the largest cost of the period. */
  lemma {:induction false} MaximumIsExact(scheme: Scheme, time: int, es: seq<Event>)
    ensures Tracked(Run(scheme, Start(scheme, time), es))
  {
    hide Next, PeriodKey;
    if es != [] {
      MaximumIsExact(scheme, time, es[..|es| - 1]);
      NextKeepsTracked(scheme, Run(scheme, Start(scheme, time), es[..|es| - 1]), es[|es| - 1]);
    }
  }

  lemma ScaleUp(k: real, a: real, b: real)
    requires k >= 0.0 && a <= b
    ensures Times(k, a) <= Times(k, b)
  {
  }

  lemma Quotient(x: real, c: real)
    requires c > 0.0
    ensures Times(x / c, c) == x
  {
  }

  lemma ScaleLeft(a: real, b: real, k: real)
    requires k >= 0.0 && a <= b
    ensures Times(a, k) <= Times(b, k)
  {
  }

  lemma AmountCovers(t: Tracker, reps: real)
    requires t.peakRate >= 0.0 && reps >= 1.0
    ensures MarginAmount(t, reps) >= Times(reps, t.maxCost as real)
  {
    hide Times;
    ScaleUp(reps - 1.0, 0.0, t.peakRate);
    assert Times(reps - 1.0, 0.0) == 0.0 by {
      TimesZero(reps - 1.0);
    }
  }

  function SumReals(rs: seq<real>): real {
    if rs == [] then 0.0 else SumReals(rs[..|rs| - 1]) + rs[|rs| - 1]
  }

  lemma {:induction false} SumRealsAtMost(rs: seq<real>, peak: real)
    requires forall i :: 0 <= i < |rs| ==> rs[i] <= peak
    ensures SumReals(rs) <= Times(|rs| as real, peak)
    ensures (forall i :: 0 <= i < |rs| ==> rs[i] == peak) ==> SumReals(rs) == Times(|rs| as real, peak)
  {
    if rs != [] {
      SumRealsAtMost(rs[..|rs| - 1], peak);
      assert Times(|rs| as real, peak) == Times((|rs| - 1) as real, peak) + peak;
    }
  }

  /**
   The margin's amount covers one request of the largest cost per replica and all that the peers can spend in
   the thirty seconds of staleness at the peak rate or below, and no more than that.
   */
  lemma AmountCoversPeers(t: Tracker, replicas: int, rates: seq<real>)
    requires replicas >= 1 && |rates| == replicas - 1 && forall i :: 0 <= i < |rates| ==> rates[i] <= t.peakRate
    ensures MarginAmount(t, Replicas(replicas)) >= replicas as real * t.maxCost as real + SumReals(rates) * 30.0
    ensures (forall i :: 0 <= i < |rates| ==> rates[i] == t.peakRate) ==>
              MarginAmount(t, Replicas(replicas)) == replicas as real * t.maxCost as real + SumReals(rates) * 30.0
  {
    hide SumReals;
    SumRealsAtMost(rates, t.peakRate);
    assert |rates| as real == Replicas(replicas) - 1.0;
  }

  lemma TimesZero(k: real)
    ensures Times(k, 0.0) == 0.0
  {
  }

  lemma AmountMonotone(t: Tracker, u: Tracker, reps: real)
    requires t.maxCost <= u.maxCost && t.peakRate <= u.peakRate && reps >= 1.0
    ensures MarginAmount(t, reps) <= MarginAmount(u, reps)
  {
    hide Times;
    ScaleUp(reps, t.maxCost as real, u.maxCost as real);
    ScaleUp(reps - 1.0, t.peakRate, u.peakRate);
  }

  /** The margin is at least the configured floor and at least one request of the tracked maximum per replica. */
  lemma MarginFloor(l: ProviderLedger, ceiling: nat, configured: int, replicas: int)
    requires ceiling > 0 && l.tracker.peakRate >= 0.0
    ensures EffectiveMargin(l, ceiling, configured, replicas) >= configured as real
    ensures Times(EffectiveMargin(l, ceiling, configured, replicas), ceiling as real) >=
            100.0 * Times(Replicas(replicas), l.tracker.maxCost as real)
  {
    hide MarginAmount, Times;
    var c, margin := ceiling as real, MarginAmount(l.tracker, Replicas(replicas));
    AmountCovers(l.tracker, Replicas(replicas));
    Quotient(100.0 * margin, c);
    ScaleLeft(100.0 * margin / c, EffectiveMargin(l, ceiling, configured, replicas), c);
  }

  /**
   In every reachable ledger the margin, taken of the ceiling, covers one request per replica as large as any
   that landed in the period.
   */
  lemma MarginCoversEveryCost(scheme: Scheme, time: int, es: seq<Event>, c: Charge,
                              ceiling: nat, configured: int, replicas: int)
    requires c in Run(scheme, Start(scheme, time), es).landed && ceiling > 0
    ensures var l := Run(scheme, Start(scheme, time), es).l;
            Times(EffectiveMargin(l, ceiling, configured, replicas), ceiling as real) >=
            100.0 * Times(Replicas(replicas), c.cost as real)
  {
    hide Run, Start, EffectiveMargin, Times;
    MaximumIsExact(scheme, time, es);
    var l := Run(scheme, Start(scheme, time), es).l;
    MarginFloor(l, ceiling, configured, replicas);
    ScaleUp(Replicas(replicas), c.cost as real, l.tracker.maxCost as real);
  }

  lemma MarginMonotone(l: ProviderLedger, m: ProviderLedger, ceiling: nat, configured: int, replicas: int)
    requires l.tracker.maxCost <= m.tracker.maxCost && l.tracker.peakRate <= m.tracker.peakRate
    ensures EffectiveMargin(l, ceiling, configured, replicas) <= EffectiveMargin(m, ceiling, configured, replicas)
  {
    hide MarginAmount;
    var a, b := MarginAmount(l.tracker, Replicas(replicas)), MarginAmount(m.tracker, Replicas(replicas));
    AmountMonotone(l.tracker, m.tracker, Replicas(replicas));
    if ceiling > 0 {
      Divided(100.0 * a, 100.0 * b, ceiling as real);
    }
  }

  lemma Divided(a: real, b: real, c: real)
    requires a <= b && c > 0.0
    ensures a / c <= b / c
  {
  }

  /** Within a period no event narrows the margin. */
  lemma MarginNeverShrinks(scheme: Scheme, w: World, e: Event, ceiling: nat, configured: int, replicas: int)
    requires Next(scheme, w, e).l.period == w.l.period
    ensures EffectiveMargin(w.l, ceiling, configured, replicas) <=
            EffectiveMargin(Next(scheme, w, e).l, ceiling, configured, replicas)
  {
    hide PeriodKey, Judge, EffectiveMargin, Observe, Landed, AfterSettle, MarginWidened;
    var w' := Next(scheme, w, e);
    if e.Finish? && e.call < |w.calls| && !w.calls[e.call].settled {
      FinishTracks(scheme, Touch(scheme, w, e.time), e.call, e.time);
      ObserveGrows(w.l.tracker, w.calls[e.call].cost, e.time);
    }
    MarginMonotone(w.l, w'.l, ceiling, configured, replicas);
  }

  // ---- The raised flag ----

  /** Observed traffic asks for more than the configured share of the ceiling. */
  predicate Outgrows(l: ProviderLedger, ceiling: nat, configured: int, replicas: int) {
    ceiling > 0 && 100.0 * MarginAmount(l.tracker, Replicas(replicas)) > Times(configured as real, ceiling as real)
  }

  lemma MarginOutgrown(l: ProviderLedger, ceiling: nat, configured: int, replicas: int)
    ensures ceiling > 0 && EffectiveMargin(l, ceiling, configured, replicas) > configured as real <==>
            Outgrows(l, ceiling, configured, replicas)
  {
    hide MarginAmount;
    if ceiling > 0 {
      var m, c := 100.0 * MarginAmount(l.tracker, Replicas(replicas)), ceiling as real;
      Quotient(m, c);
      if m / c > configured as real {
        assert m / c * c > configured as real * c;
      } else {
        assert m / c * c <= configured as real * c;
      }
    }
  }

  /** An admission widens the margin exactly when traffic outgrows it on a ceiling it takes a slot of. */
  lemma WidenedIff(l: ProviderLedger, budget: Budget, keys: set<string>, ns: string, replicas: int)
    ensures MarginWidened(l, budget, keys, ns, replicas) <==>
            || (ns in keys && Outgrows(l, budget.nsCeiling, ConfiguredMargin(budget), replicas))
            || (CLUSTER_SLOT in keys && Outgrows(l, budget.clusterCeiling, ConfiguredMargin(budget), replicas))
  {
    hide EffectiveMargin, Outgrows, ConfiguredMargin;
    MarginOutgrown(l, budget.nsCeiling, ConfiguredMargin(budget), replicas);
    MarginOutgrown(l, budget.clusterCeiling, ConfiguredMargin(budget), replicas);
  }

  /** The request takes a slot on a ceiling whose margin its period's traffic has outgrown. */
  ghost predicate Raises(scheme: Scheme, w: World, e: Event) {
    && e.Try? && e.budget.policies != []
    && var l := Touch(scheme, w, e.time).l;
       var v := Judge(e.budget, l, e.ns, e.time, e.replicas);
       var configured := ConfiguredMargin(e.budget);
       && v.Slotted?
       && (|| (e.ns in v.keys && Outgrows(l, e.budget.nsCeiling, configured, e.replicas))
           || (CLUSTER_SLOT in v.keys && Outgrows(l, e.budget.clusterCeiling, configured, e.replicas)))
  }

  /** Some request of the current period raised the margin. */
  ghost predicate WasRaised(scheme: Scheme, w: World, es: seq<Event>) {
    es != [] &&
    var init, e := es[..|es| - 1], es[|es| - 1];
    || Raises(scheme, Run(scheme, w, init), e)
    || (WasRaised(scheme, w, init) && Run(scheme, w, es).l.period == Run(scheme, w, init).l.period)
  }

  lemma NextRaises(scheme: Scheme, w: World, e: Event)
    ensures
      var w' := Next(scheme, w, e);
      w'.l.marginRaised <==> Raises(scheme, w, e) || (w.l.marginRaised && w'.l.period == w.l.period)
  {
    hide PeriodKey, Judge, MarginWidened, Outgrows, Acquired, Landed, Freed;
    match e {
      case Try(budget, ns, _, _, time, replicas) =>
        var l := Touch(scheme, w, time).l;
        var v := Judge(budget, l, ns, time, replicas);
        if v.Slotted? {
          WidenedIff(l, budget, v.keys, ns, replicas);
        }
      case Finish(i, time) =>
        if i < |w.calls| && !w.calls[i].settled {
          FinishKeepsFlag(scheme, Touch(scheme, w, time), i, time);
        }
      case _ =>
    }
  }

  lemma FinishKeepsFlag(scheme: Scheme, w: World, n: nat, time: int)
    requires n < |w.calls|
    ensures
      var w' := Finished(scheme, w, n, time);
      w'.l.marginRaised == w.l.marginRaised && w'.l.period == w.l.period
  {
    hide Landed, Freed;
    var c := w.calls[n];
    var freed := if c.keys != {} && w.l.period == c.period then w.l.(adm := Freed(w.l.adm, c.keys, c.token)) else w.l;
    LandedKeepsFlag(freed, c.ns, c.workload, c.cost, time);
  }

  lemma LandedKeepsFlag(l: ProviderLedger, ns: string, workload: string, cost: int, now: int)
    ensures
      var m := Landed(l, ns, workload, cost, now);
      m.marginRaised == l.marginRaised && m.period == l.period
  {
    hide Observe, WorkloadKey;
  }

  /** In every run the flag a replica publishes says whether a request of the period raised the margin. */
  lemma {:induction false} RaisedIff(scheme: Scheme, time: int, es: seq<Event>)
    ensures Run(scheme, Start(scheme, time), es).l.marginRaised <==> WasRaised(scheme, Start(scheme, time), es)
  {
    hide PeriodKey, Raises;
    if es != [] {
      hide Next;
      RaisedIff(scheme, time, es[..|es| - 1]);
      NextRaises(scheme, Run(scheme, Start(scheme, time), es[..|es| - 1]), es[|es| - 1]);
    }
  }
}
