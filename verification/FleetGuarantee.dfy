/**
 The guarantee as documented: a block ceiling is overshot by at most one request per replica plus the
 settled spend missing from the admitting replica's view, with no term for requests that took no slot.
 Here it is stated, and proved where the boundary region reaches down to zero utilization and the ladder
 either blocks every spend above its lowest block threshold or blocks from the first cent.
 */
module FleetGuarantee {
  import opened Totals
  import opened Periods
  import opened Ladder
  import opened Ledger
  import opened LedgerRuns
  import opened LedgerMargin
  import opened Fleet
  import opened FleetCap

  function NonNegative(x: int): int { if x > 0 then x else 0 }

  predicate Amounts(m: Spend) { forall k :: k in m ==> m[k] >= 0 }

  /** A step of any fleet, whatever peers are said to have spent: an admission misses at most `missing`. */
  ghost predicate Admissible(t: Terms, f: seq<World>, s: Step, key: string) {
    && s.replica < |f|
    && Within(t.budget.scheme, t.period, s.event) && Allowed(s.event, t.budget, t.cmax)
    && (s.event.Fold? ==> Amounts(s.event.peers))
    && (AdmitsFor(t, f, s, key) ==> Settled(f, key) <= Spent(f[s.replica].l, key) + t.missing)
  }

  ghost predicate AdmissibleRun(t: Terms, f: seq<World>, run: seq<Step>, key: string)
    decreases |run|
  {
    || run == []
    || (Admissible(t, f, run[0], key) && AdmissibleRun(t, FleetNext(t.budget.scheme, f, run[0]), run[1..], key))
  }

  ghost function NamespaceOwns(f: seq<World>, ns: string): seq<int> {
    seq(|f|, i requires 0 <= i < |f| => Get(f[i].l.own, ns))
  }

  /** A peer view that shows no more of a namespace than the other replicas have landed in it. */
  ghost predicate Reported(f: seq<World>, i: nat, peers: Spend)
    requires i < |f|
  {
    forall ns :: 0 <= Get(peers, ns) <= SumSeq(NamespaceOwns(f, ns)) - Get(f[i].l.own, ns)
  }

  /** A step the fleet can take: what it folds was landed by others. */
  ghost predicate Permitted(t: Terms, f: seq<World>, s: Step, key: string) {
    && Admissible(t, f, s, key)
    && (s.event.Fold? ==> Reported(f, s.replica, s.event.peers))
  }

  ghost predicate PermittedRun(t: Terms, f: seq<World>, run: seq<Step>, key: string)
    decreases |run|
  {
    run == [] || (Permitted(t, f, run[0], key) && PermittedRun(t, FleetNext(t.budget.scheme, f, run[0]), run[1..], key))
  }

  lemma {:induction false} PermittedIsAdmissible(t: Terms, f: seq<World>, run: seq<Step>, key: string)
    requires PermittedRun(t, f, run, key)
    ensures AdmissibleRun(t, f, run, key)
    decreases |run|
  {
    hide Admissible, FleetNext, Reported;
    if run != [] {
      PermittedIsAdmissible(t, FleetNext(t.budget.scheme, f, run[0]), run[1..], key);
    }
  }

  /** The terms of a run that starts at a time, with no allowance for requests without a slot. */
  function Stated(budget: Budget, cmax: int, missing: nat, time: int): Terms {
    Terms(budget, PeriodKey(budget.scheme, time), cmax, missing, 0)
  }

  /** The documented guarantee of a budget, over every fleet and every run within a period. */
  ghost predicate Guaranteed(budget: Budget, cmax: int, key: string) {
    forall missing: nat, replicas: nat, time: int, run: seq<Step> ::
      PermittedRun(Stated(budget, cmax, missing, time), StartFleet(budget.scheme, replicas, time), run, key) ==>
        Bounded(Stated(budget, cmax, missing, time),
                FleetRun(budget.scheme, StartFleet(budget.scheme, replicas, time), run), key)
  }

  /** The boundary region covers every utilization from zero up. */
  predicate SerializesFromZero(budget: Budget) {
    MinBlockAt(budget.policies) <= NonNegative(ConfiguredMargin(budget))
  }

  // ---- Nonnegative ledgers ----

  /** Nothing recorded is negative. */
  predicate Plain(l: ProviderLedger) {
    && Amounts(l.own) && Amounts(l.peers)
    && l.tracker.maxCost >= 0 && l.tracker.bucketSum >= 0 && l.tracker.peakRate >= 0.0
  }

  lemma {:induction false} TotalAtLeast(m: Spend, k: string)
    requires Amounts(m)
    ensures 0 <= Get(m, k) <= Total(m)
    decreases |m|
  {
    if m != map[] {
      var j := if k in m then k else var j :| j in m; j;
      TotalSplit(m, j);
      TotalAtLeast(m - {j}, k);
    }
  }

  lemma PercentNonNegative(spent: int, ceiling: nat)
    requires spent >= 0
    ensures Percent(spent, ceiling) >= 0.0
  {
  }

  lemma MarginNonNegative(l: ProviderLedger, ceiling: nat, configured: int, replicas: int)
    requires Plain(l) && ceiling > 0
    ensures EffectiveMargin(l, ceiling, configured, replicas) >= NonNegative(configured) as real
  {
    hide MarginAmount, Times;
    var reps := Replicas(replicas);
    AmountCovers(l.tracker, reps);
    ScaleUp(reps, 0.0, l.tracker.maxCost as real);
    TimesZero(reps);
    Divided(0.0, 100.0 * MarginAmount(l.tracker, reps), ceiling as real);
  }

  // ---- With the boundary region down to zero, every admission takes the ceiling's slot ----

  lemma NeverFree(budget: Budget, l: ProviderLedger, ns: string, now: int, replicas: int, key: string)
    requires Governs(budget, key) && SerializesFromZero(budget)
    requires Plain(l) && (key == CLUSTER_SLOT || ns == key)
    ensures
      var v := Judge(budget, l, ns, now, replicas);
      v != Free && (v.Slotted? ==> key in v.keys)
  {
    hide BlocksAt, EffectiveMargin, MinBlockAt, Total, Percent, Worst;
    TotalAtLeast(l.own, ns);
    TotalAtLeast(l.peers, ns);
    PercentNonNegative(Get(l.own, ns) + Get(l.peers, ns), budget.nsCeiling);
    PercentNonNegative(ClusterSpent(l), budget.clusterCeiling);
    MarginNonNegative(l, Ceiling(budget, key), ConfiguredMargin(budget), replicas);
  }

  /** A request that is not blocked found the ceiling's spend at or under the threshold. */
  lemma UnblockedIsCapped(budget: Budget, l: ProviderLedger, ns: string, key: string)
    requires CapsSpend(budget, key) && Plain(l) && (key == CLUSTER_SLOT || ns == key)
    requires !BlocksAt(budget.policies, Worst(budget, l, ns))
    ensures 100 * Spent(l, key) <= MinBlockAt(budget.policies) * Ceiling(budget, key)
  {
    hide BlocksAt, MinBlockAt, Total, Percent;
    TotalAtLeast(l.own, ns);
    TotalAtLeast(l.peers, ns);
    var a: nat, c: nat := Get(l.own, ns) + Get(l.peers, ns), ClusterSpent(l);
    assert Worst(budget, l, ns) == WorstAt(budget, a, c);
  }

  /** Every request in flight against the ceiling holds its slot, and nothing recorded is negative. */
  ghost predicate Serialized(w: World, key: string) {
    && Plain(w.l)
    && forall i :: 0 <= i < |w.calls| && Counts(w.calls[i], key) ==> key in w.calls[i].keys
  }

  lemma StepSerialized(scheme: Scheme, w: World, e: Event, budget: Budget, cmax: int, key: string)
    requires Governs(budget, key) && SerializesFromZero(budget)
    requires Within(scheme, w.l.period, e) && Allowed(e, budget, cmax) && (e.Fold? ==> Amounts(e.peers))
    requires forall i :: 0 <= i < |w.calls| ==> Priced(w.calls[i], w.l.period, cmax)
    requires Serialized(w, key)
    ensures Serialized(Next(scheme, w, e), key)
  {
    hide PeriodKey, Judge, MarginWidened, Landed, Governs, SerializesFromZero;
    match e {
      case Try(_, ns, _, _, time, replicas) =>
        TouchWithin(scheme, w, time);
        GovernsHasPolicies(budget, key);
        if key == CLUSTER_SLOT || ns == key {
          NeverFree(budget, w.l, ns, time, replicas, key);
        }
      case Finish(i, time) =>
        TouchWithin(scheme, w, time);
        if i < |w.calls| && !w.calls[i].settled {
          FinishPlain(scheme, w.(now := time), i, time);
        }
      case Fold(_, time) =>
        TouchWithin(scheme, w, time);
      case Publish(_) =>
    }
  }

  lemma GovernsHasPolicies(budget: Budget, key: string)
    requires Governs(budget, key)
    ensures budget.policies != []
  {
  }

  lemma FinishPlain(scheme: Scheme, w: World, n: nat, time: int)
    requires n < |w.calls| && w.calls[n].cost >= 0 && Plain(w.l)
    ensures Plain(Finished(scheme, w, n, time).l)
  {
    hide Observe, Landed;
    var c := w.calls[n];
    var l := if c.keys != {} && w.l.period == c.period then w.l.(adm := Freed(w.l.adm, c.keys, c.token)) else w.l;
    LandedIsSpendOnly(l, c.ns, c.workload, c.cost, time);
    FinishTracks(scheme, w, n, time);
    ObservePlain(w.l.tracker, c.cost, time);
  }

  lemma ObservePlain(t: Tracker, cost: int, now: int)
    requires t.maxCost >= 0 && t.bucketSum >= 0 && t.peakRate >= 0.0 && cost >= 0
    ensures var u := Observe(t, cost, now); u.maxCost >= 0 && u.bucketSum >= 0 && u.peakRate >= 0.0
  {
  }

  lemma {:induction false} NothingFree(calls: seq<Call>, key: string)
    requires forall i :: 0 <= i < |calls| && Counts(calls[i], key) ==> key in calls[i].keys
    ensures FreeFlight(calls, key) == 0
  {
    if calls != [] {
      NothingFree(calls[..|calls| - 1], key);
    }
  }

  ghost predicate AllSerialized(f: seq<World>, key: string) {
    forall i :: 0 <= i < |f| ==> Serialized(f[i], key)
  }

  lemma NoneUnslotted(f: seq<World>, key: string)
    requires AllSerialized(f, key)
    ensures Unslotted(f, key) <= 0
  {
    hide FreeFlight, SumSeq;
    forall i | 0 <= i < |f|
      ensures Frees(f, key)[i] <= 0
    {
      NothingFree(f[i].calls, key);
    }
    SumSeqBound(Frees(f, key), 0);
  }

  lemma StepAllSerialized(t: Terms, f: seq<World>, s: Step, key: string)
    requires Governs(t.budget, key) && SerializesFromZero(t.budget)
    requires FleetInv(t, f) && AllSerialized(f, key) && Admissible(t, f, s, key)
    ensures AllSerialized(FleetNext(t.budget.scheme, f, s), key)
  {
    hide Next, Serialized, Governs, SerializesFromZero, SlotInv, AllHeld, Within, Allowed, Settled, Spent;
    StepSerialized(t.budget.scheme, f[s.replica], s.event, t.budget, t.cmax, key);
  }

  ghost predicate Kept(t: Terms, f: seq<World>, key: string) {
    FleetInv(t, f) && AllSerialized(f, key) && Bounded(t, f, key)
  }

  /** One admissible step keeps the stated bound. */
  lemma StepKept(t: Terms, f: seq<World>, s: Step, key: string)
    requires Governs(t.budget, key) && SerializesFromZero(t.budget) && CapsSpend(t.budget, key)
    requires Governed(t, key) && t.unslotted == 0 && Kept(t, f, key) && Admissible(t, f, s, key)
    ensures Kept(t, FleetNext(t.budget.scheme, f, s), key)
  {
    hide FleetInv, AllSerialized, Governs, Governed, SerializesFromZero, CapsSpend, Next, FleetLoad, MinBlockAt,
         Within, Allowed, Settled, Unslotted, Spent, BlocksAt, Worst, Plain;
    StepAllSerialized(t, f, s, key);
    NoneUnslotted(FleetNext(t.budget.scheme, f, s), key);
    FleetNextKeeps(t, f, s, key);
    if AdmitsFor(t, f, s, key) {
      NotBlocked(t, f, s, key);
      SerializedIsPlain(f, s.replica, key);
      UnblockedIsCapped(t.budget, f[s.replica].l, s.event.ns, key);
      AdmitBound(t, f, s, key);
    } else {
      QuietLoad(t, f, s, key);
    }
  }

  lemma SerializedIsPlain(f: seq<World>, i: nat, key: string)
    requires AllSerialized(f, key) && i < |f|
    ensures Plain(f[i].l)
  {
    assert Serialized(f[i], key);
  }

  lemma {:induction false} RunKept(t: Terms, f: seq<World>, run: seq<Step>, key: string)
    requires Governs(t.budget, key) && SerializesFromZero(t.budget) && CapsSpend(t.budget, key)
    requires Governed(t, key) && t.unslotted == 0 && Kept(t, f, key) && AdmissibleRun(t, f, run, key)
    ensures Kept(t, FleetRun(t.budget.scheme, f, run), key)
    decreases |run|
  {
    hide Kept, Within, Allowed, AdmitsFor, Settled, Spent, Governs, Governed, SerializesFromZero, CapsSpend, Next;
    if run != [] {
      StepKept(t, f, run[0], key);
      RunKept(t, FleetNext(t.budget.scheme, f, run[0]), run[1..], key);
    }
  }

  /** The guarantee where it holds, even over peer views that overstate what was landed. */
  lemma GuaranteeHolds(budget: Budget, cmax: int, missing: nat, replicas: nat, time: int, run: seq<Step>, key: string)
    requires Governs(budget, key) && SerializesFromZero(budget) && CapsSpend(budget, key) && cmax >= 0
    requires AdmissibleRun(Stated(budget, cmax, missing, time), StartFleet(budget.scheme, replicas, time), run, key)
    ensures Bounded(Stated(budget, cmax, missing, time),
                    FleetRun(budget.scheme, StartFleet(budget.scheme, replicas, time), run), key)
  {
    hide AdmissibleRun, PeriodKey, MinBlockAt, SerializesFromZero, CapsSpend, HasBlock, Bounded, FleetInv;
    var t, f := Stated(budget, cmax, missing, time), StartFleet(budget.scheme, replicas, time);
    FreshFleet(t, replicas, time, key);
    RunKept(t, f, run, key);
  }

  // ---- A ladder that blocks from the first cent admits nothing ----

  /** Nothing admitted, nothing landed, nothing seen of others. */
  predicate Untouched(w: World) {
    w.calls == [] && w.l.own == map[] && forall ns :: ns in w.l.peers ==> w.l.peers[ns] == 0
  }

  lemma {:induction false} NothingTotals(m: Spend)
    requires forall k :: k in m ==> m[k] == 0
    ensures Total(m) == 0
    decreases |m|
  {
    if m != map[] {
      var k :| k in m;
      TotalSplit(m, k);
      NothingTotals(m - {k});
    }
  }

  lemma NothingPasses(budget: Budget, l: ProviderLedger, ns: string, now: int, replicas: int)
    requires BlocksAt(budget.policies, 0.0)
    requires l.own == map[] && forall k :: k in l.peers ==> l.peers[k] == 0
    ensures Judge(budget, l, ns, now, replicas) == Blocked
  {
    hide BlocksAt, Percent, BoundaryKeys;
    NothingTotals(l.own);
    NothingTotals(l.peers);
    ZeroPercent(budget.nsCeiling);
    ZeroPercent(budget.clusterCeiling);
    assert Worst(budget, l, ns) == 0.0;
  }

  lemma StepUntouched(scheme: Scheme, w: World, e: Event, budget: Budget, cmax: int)
    requires BlocksAt(budget.policies, 0.0) && Untouched(w)
    requires Within(scheme, w.l.period, e) && Allowed(e, budget, cmax)
    requires e.Fold? ==> forall ns :: ns in e.peers ==> e.peers[ns] == 0
    ensures Untouched(Next(scheme, w, e))
  {
    hide PeriodKey, Judge, MarginWidened, Finished;
    if !e.Publish? {
      TouchWithin(scheme, w, e.time);
    }
    if e.Try? {
      NothingPasses(budget, w.l, e.ns, e.time, e.replicas);
    }
  }

  predicate AllUntouched(f: seq<World>, period: string) {
    forall i :: 0 <= i < |f| ==> Untouched(f[i]) && f[i].l.period == period
  }

  lemma NothingReported(f: seq<World>, period: string, i: nat, peers: Spend)
    requires AllUntouched(f, period) && i < |f| && Reported(f, i, peers)
    ensures forall ns :: ns in peers ==> peers[ns] == 0
  {
    hide SumSeq;
    forall ns | ns in peers
      ensures peers[ns] == 0
    {
      SumSeqBound(NamespaceOwns(f, ns), 0);
      assert 0 <= Get(peers, ns) <= 0;
    }
  }

  lemma StepAllUntouched(t: Terms, f: seq<World>, s: Step, key: string)
    requires BlocksAt(t.budget.policies, 0.0) && AllUntouched(f, t.period) && Permitted(t, f, s, key)
    ensures AllUntouched(FleetNext(t.budget.scheme, f, s), t.period)
  {
    hide Next, BlocksAt, Settled, Spent, Allowed, Untouched, Reported, AdmitsFor, Within;
    var w, e := f[s.replica], s.event;
    if e.Fold? {
      NothingReported(f, t.period, s.replica, e.peers);
    }
    StepUntouched(t.budget.scheme, w, e, t.budget, t.cmax);
    StepPeriod(t.budget.scheme, w, e);
  }

  lemma StepPeriod(scheme: Scheme, w: World, e: Event)
    requires Within(scheme, w.l.period, e)
    ensures Next(scheme, w, e).l.period == w.l.period
  {
    hide PeriodKey, Judge, MarginWidened, Landed;
    if !e.Publish? {
      TouchWithin(scheme, w, e.time);
    }
    if e.Finish? && e.call < |w.calls| {
      FinishPeriod(scheme, w.(now := e.time), e.call, e.time);
    }
  }

  lemma {:induction false} RunUntouched(t: Terms, f: seq<World>, run: seq<Step>, key: string)
    requires BlocksAt(t.budget.policies, 0.0) && AllUntouched(f, t.period) && PermittedRun(t, f, run, key)
    ensures AllUntouched(FleetRun(t.budget.scheme, f, run), t.period)
    decreases |run|
  {
    hide Permitted, AllUntouched, BlocksAt, FleetNext;
    if run != [] {
      StepAllUntouched(t, f, run[0], key);
      RunUntouched(t, FleetNext(t.budget.scheme, f, run[0]), run[1..], key);
    }
  }

  lemma UntouchedBounded(t: Terms, f: seq<World>, key: string)
    requires Governed(t, key) && AllUntouched(f, t.period)
    ensures Bounded(t, f, key)
  {
    hide SumSeq, MinBlockAt;
    forall i | 0 <= i < |f|
      ensures Loads(f, key)[i] <= 0
    {
    }
    SumSeqBound(Loads(f, key), 0);
    ThresholdNonnegative(t.budget.policies);
    assert MinBlockAt(t.budget.policies) * Ceiling(t.budget, key) >= 0;
    assert |f| * t.cmax >= 0;
  }

  /** A ladder that blocks at zero utilization admits no request in any run, so the bound holds of it too. */
  lemma BlockedFromZero(budget: Budget, cmax: int, missing: nat, replicas: nat, time: int, run: seq<Step>, key: string)
    requires Governs(budget, key) && BlocksAt(budget.policies, 0.0) && cmax >= 0
    requires PermittedRun(Stated(budget, cmax, missing, time), StartFleet(budget.scheme, replicas, time), run, key)
    ensures
      var f := FleetRun(budget.scheme, StartFleet(budget.scheme, replicas, time), run);
      Bounded(Stated(budget, cmax, missing, time), f, key) && forall i :: 0 <= i < |f| ==> f[i].calls == []
  {
    hide PermittedRun, PeriodKey, BlocksAt, FleetRun, Bounded;
    var t, f := Stated(budget, cmax, missing, time), StartFleet(budget.scheme, replicas, time);
    RunUntouched(t, f, run, key);
    UntouchedBounded(t, FleetRun(budget.scheme, f, run), key);
  }
}
