/**
 Runs that break the documented guarantee: a burst below the boundary region, and replicas that together
 spend past a threshold the ladder does not hold.
 */
module FleetBreach {
  import opened Totals
  import opened Decimal
  import opened Periods
  import opened Ladder
  import opened Ledger
  import opened LedgerRuns
  import opened LedgerMargin
  import opened Fleet
  import opened FleetCap
  import opened FleetGuarantee

  // ---- What permitted runs reach ----

  ghost predicate Reaches(t: Terms, f: seq<World>, f': seq<World>, key: string) {
    exists run :: PermittedRun(t, f, run, key) && FleetRun(t.budget.scheme, f, run) == f'
  }

  lemma ReachesSelf(t: Terms, f: seq<World>, key: string)
    ensures Reaches(t, f, f, key)
  {
    assert PermittedRun(t, f, [], key);
  }

  lemma ReachesNext(t: Terms, f: seq<World>, s: Step, key: string)
    requires Permitted(t, f, s, key)
    ensures Reaches(t, f, FleetNext(t.budget.scheme, f, s), key)
  {
    hide Permitted, FleetNext;
    var f' := FleetNext(t.budget.scheme, f, s);
    assert [s][1..] == [] && PermittedRun(t, f', [], key) && FleetRun(t.budget.scheme, f', []) == f';
    assert PermittedRun(t, f, [s], key);
  }

  lemma {:induction false} RunsJoin(t: Terms, f: seq<World>, a: seq<Step>, b: seq<Step>, key: string)
    requires PermittedRun(t, f, a, key) && PermittedRun(t, FleetRun(t.budget.scheme, f, a), b, key)
    ensures PermittedRun(t, f, a + b, key)
    ensures FleetRun(t.budget.scheme, f, a + b) == FleetRun(t.budget.scheme, FleetRun(t.budget.scheme, f, a), b)
    decreases |a|
  {
    hide Permitted, FleetNext;
    if a == [] {
      assert a + b == b;
    } else {
      assert (a + b)[1..] == a[1..] + b;
      RunsJoin(t, FleetNext(t.budget.scheme, f, a[0]), a[1..], b, key);
    }
  }

  lemma ReachesJoin(t: Terms, f: seq<World>, g: seq<World>, h: seq<World>, key: string)
    requires Reaches(t, f, g, key) && Reaches(t, g, h, key)
    ensures Reaches(t, f, h, key)
  {
    hide PermittedRun, FleetRun;
    var a :| PermittedRun(t, f, a, key) && FleetRun(t.budget.scheme, f, a) == g;
    var b :| PermittedRun(t, g, b, key) && FleetRun(t.budget.scheme, g, b) == h;
    RunsJoin(t, f, a, b, key);
  }

  lemma ReachesStep(t: Terms, f: seq<World>, g: seq<World>, s: Step, key: string)
    requires Reaches(t, f, g, key) && Permitted(t, g, s, key)
    ensures Reaches(t, f, FleetNext(t.budget.scheme, g, s), key)
  {
    hide Reaches, Permitted, FleetNext;
    ReachesNext(t, g, s, key);
    ReachesJoin(t, f, g, FleetNext(t.budget.scheme, g, s), key);
  }

  /** The fleet after each of its first k replicas took a step of its own. */
  ghost function Swept(scheme: Scheme, f: seq<World>, es: seq<Event>, k: nat): seq<World>
    requires |es| == |f|
  {
    seq(|f|, j requires 0 <= j < |f| => if j < k then Next(scheme, f[j], es[j]) else f[j])
  }

  lemma {:induction false} SweepReaches(t: Terms, f: seq<World>, es: seq<Event>, k: nat, key: string)
    requires |es| == |f| && k <= |f|
    requires forall j :: 0 <= j < |f| ==> Permitted(t, Swept(t.budget.scheme, f, es, j), Step(j, es[j]), key)
    ensures Reaches(t, f, Swept(t.budget.scheme, f, es, k), key)
    decreases k
  {
    hide Reaches, Permitted, Next;
    if k == 0 {
      assert Swept(t.budget.scheme, f, es, 0) == f;
      ReachesSelf(t, f, key);
    } else {
      var before, s := Swept(t.budget.scheme, f, es, k - 1), Step(k - 1, es[k - 1]);
      SweepReaches(t, f, es, k - 1, key);
      assert FleetNext(t.budget.scheme, before, s) == Swept(t.budget.scheme, f, es, k);
      ReachesStep(t, f, before, s, key);
    }
  }

  // ---- Otherwise a burst at zero utilization passes unserialized ----

  /** A request at zero utilization is admitted without a slot when the boundary region does not reach down to it. */
  lemma FreshIsFree(budget: Budget, l: ProviderLedger, ns: string, now: int, replicas: int, key: string)
    requires Governs(budget, key) && !SerializesFromZero(budget)
    requires l.own == map[] && l.peers == map[] && l.adm == map[] && l.tracker == NO_TRAFFIC
    ensures Judge(budget, l, ns, now, replicas) == Free
  {
    hide BlocksAt, EffectiveMargin, MinBlockAt, Percent;
    NothingBlocksAtZero(budget.policies);
    FreshMargin(l, budget.nsCeiling, ConfiguredMargin(budget), replicas);
    FreshMargin(l, budget.clusterCeiling, ConfiguredMargin(budget), replicas);
    ZeroPercent(budget.nsCeiling);
    ZeroPercent(budget.clusterCeiling);
    assert BoundaryKeys(l, budget, ns, replicas) == {};
  }

  lemma NothingBlocksAtZero(policies: seq<Policy>)
    requires MinBlockAt(policies) > 0
    ensures !BlocksAt(policies, 0.0)
  {
    hide Winner, MinBlockAt;
    MinBlockAtIsLeast(policies);
    var i := WinnerIs(policies, 0.0);
  }

  lemma FreshMargin(l: ProviderLedger, ceiling: nat, configured: int, replicas: int)
    requires l.tracker == NO_TRAFFIC
    ensures ceiling > 0 ==> EffectiveMargin(l, ceiling, configured, replicas) == NonNegative(configured) as real
  {
    hide Times;
    TimesZero(Replicas(replicas));
    TimesZero(Replicas(replicas) - 1.0);
    assert MarginAmount(l.tracker, Replicas(replicas)) == 0.0;
  }

  function BurstCall(ns: string, period: string): Call {
    Call(ns, "w", 1, {}, 0, period, 0, false)
  }

  function BurstWorld(budget: Budget, ns: string, n: nat): World {
    var period := PeriodKey(budget.scheme, 0);
    World(FreshLedger(period), seq(n, _ => BurstCall(ns, period)), [], 0)
  }

  function BurstStep(budget: Budget, ns: string): Step { Step(0, Try(budget, ns, "w", 1, 0, 1)) }

  lemma BurstGrows(budget: Budget, ns: string, k: nat, key: string)
    requires Governs(budget, key) && !SerializesFromZero(budget)
    ensures FleetNext(budget.scheme, [BurstWorld(budget, ns, k)], BurstStep(budget, ns)) ==
            [BurstWorld(budget, ns, k + 1)]
  {
    hide PeriodKey, Judge, SerializesFromZero, MarginWidened;
    var w := BurstWorld(budget, ns, k);
    TouchWithin(budget.scheme, w, 0);
    FreshIsFree(budget, w.l, ns, 0, 1, key);
    GovernsHasPolicies(budget, key);
    assert BurstWorld(budget, ns, k + 1).calls == w.calls + [BurstCall(ns, PeriodKey(budget.scheme, 0))];
  }

  lemma BurstPermitted(budget: Budget, cmax: int, ns: string, k: nat, key: string)
    requires cmax >= 1 && ns != CLUSTER_SLOT
    ensures Permitted(Stated(budget, cmax, 0, 0), [BurstWorld(budget, ns, k)], BurstStep(budget, ns), key)
  {
    hide PeriodKey, Next;
    var f := [BurstWorld(budget, ns, k)];
    assert Owns(f, key) == [0];
    assert SumSeq([0]) == 0 by {
      assert [0][..0] == [];
    }
  }

  lemma {:induction false} BurstRuns(budget: Budget, cmax: int, ns: string, n: nat, key: string)
    requires Governs(budget, key) && !SerializesFromZero(budget) && cmax >= 1 && ns != CLUSTER_SLOT
    ensures Reaches(Stated(budget, cmax, 0, 0), StartFleet(budget.scheme, 1, 0), [BurstWorld(budget, ns, n)], key)
    decreases n
  {
    hide Permitted, FleetNext, Governs, SerializesFromZero, BurstWorld, PeriodKey, Reaches, StartFleet;
    var t, f := Stated(budget, cmax, 0, 0), StartFleet(budget.scheme, 1, 0);
    if n == 0 {
      StartIsNoBurst(budget, ns);
      ReachesSelf(t, f, key);
    } else {
      BurstRuns(budget, cmax, ns, n - 1, key);
      BurstPermitted(budget, cmax, ns, n - 1, key);
      BurstGrows(budget, ns, n - 1, key);
      ReachesStep(t, f, [BurstWorld(budget, ns, n - 1)], BurstStep(budget, ns), key);
    }
  }

  lemma {:induction false} BurstFlight(calls: seq<Call>, ns: string, period: string, key: string)
    requires forall i :: 0 <= i < |calls| ==> calls[i] == BurstCall(ns, period)
    requires key == CLUSTER_SLOT || key == ns
    ensures SlotFlight(calls, key) == 0 && FreeFlight(calls, key) == |calls|
  {
    if calls != [] {
      BurstFlight(calls[..|calls| - 1], ns, period, key);
    }
  }

  lemma BurstLoad(budget: Budget, ns: string, n: nat, key: string)
    requires key == CLUSTER_SLOT || key == ns
    ensures FleetLoad([BurstWorld(budget, ns, n)], key) == n
  {
    hide PeriodKey, SlotFlight, FreeFlight;
    var w := BurstWorld(budget, ns, n);
    BurstFlight(w.calls, ns, PeriodKey(budget.scheme, 0), key);
    assert Load(w, key) == n;
    var loads := Loads([w], key);
    assert loads[..0] == [] && SumSeq(loads) == SumSeq(loads[..0]) + loads[0];
  }

  lemma ReachedBreaks(budget: Budget, cmax: int, replicas: nat, f: seq<World>, key: string)
    requires Reaches(Stated(budget, cmax, 0, 0), StartFleet(budget.scheme, replicas, 0), f, key)
    requires 100 * FleetLoad(f, key) >
             MinBlockAt(budget.policies) * Ceiling(budget, key) + 100 * (replicas * cmax)
    ensures !Guaranteed(budget, cmax, key)
  {
    hide PermittedRun, FleetRun, PeriodKey, FleetLoad, MinBlockAt;
    var t := Stated(budget, cmax, 0, 0);
    var run :| PermittedRun(t, StartFleet(budget.scheme, replicas, 0), run, key)
               && FleetRun(budget.scheme, StartFleet(budget.scheme, replicas, 0), run) == f;
    FleetKeepsSize(budget.scheme, StartFleet(budget.scheme, replicas, 0), run);
    assert !Bounded(t, f, key);
  }

  lemma FleetKeepsSize(scheme: Scheme, f: seq<World>, run: seq<Step>)
    ensures |FleetRun(scheme, f, run)| == |f|
  {
  }

  /** So without the reach to zero the guarantee fails, for every such budget and whatever the ladder. */
  lemma BurstBreaksGuarantee(budget: Budget, cmax: int, key: string)
    requires Governs(budget, key) && !SerializesFromZero(budget) && cmax >= 1
    ensures !Guaranteed(budget, cmax, key)
  {
    hide FleetLoad, SerializesFromZero, PeriodKey, MinBlockAt, HasBlock, Guaranteed, BurstWorld, Reaches;
    var ns := if key == CLUSTER_SLOT then "a" else key;
    ThresholdNonnegative(budget.policies);
    var threshold := MinBlockAt(budget.policies) * Ceiling(budget, key);
    assert threshold >= 0;
    var n: nat := threshold + cmax + 1;
    BurstRuns(budget, cmax, ns, n, key);
    BurstLoad(budget, ns, n, key);
    ReachedBreaks(budget, cmax, 1, [BurstWorld(budget, ns, n)], key);
  }

  lemma StartIsNoBurst(budget: Budget, ns: string)
    ensures StartFleet(budget.scheme, 1, 0) == [BurstWorld(budget, ns, 0)]
  {
    hide PeriodKey;
    assert BurstWorld(budget, ns, 0).calls == [];
  }

  // ---- And where a spend above the threshold is not blocked, replicas spend their way past it together ----

  /** Nothing in flight and no slot held, at time zero. */
  predicate Rested(w: World, period: string) {
    && w.l.period == period && w.l.adm == map[] && (w.l.dirtySince == None || w.l.dirtySince == Some(0))
    && forall i :: 0 <= i < |w.calls| ==> w.calls[i].settled
  }

  lemma {:induction false} RestedFlight(calls: seq<Call>, key: string)
    requires forall i :: 0 <= i < |calls| ==> calls[i].settled
    ensures SlotFlight(calls, key) == 0 && FreeFlight(calls, key) == 0
  {
    if calls != [] {
      RestedFlight(calls[..|calls| - 1], key);
    }
  }

  function Trial(budget: Budget, ns: string, cost: int): Event { Try(budget, ns, "w", cost, 0, 1) }

  function Folded(w: World, peers: Spend): World {
    w.(l := w.l.(peers := peers, lastFold := Some(0)), now := 0)
  }

  /** The admitted request: after it the ledger differs by its slots only. */
  ghost predicate Took(w: World, w': World, ns: string, cost: int) {
    && |w'.calls| == |w.calls| + 1 && w'.calls[..|w.calls|] == w.calls
    && var c := w'.calls[|w.calls|];
       && c.ns == ns && c.workload == "w" && c.cost == cost && !c.settled && c.period == w.l.period
       && w'.l.own == w.l.own && w'.l.peers == w.l.peers && w'.l.period == w.l.period
       && w'.l.dirtySince == w.l.dirtySince && w'.l.adm == Acquired(map[], c.keys, c.token)
  }

  /** Right after a fold, an idle replica admits whatever the ladder does not block. */
  lemma TryAdmits(budget: Budget, w: World, ns: string, cost: int, key: string)
    requires Governs(budget, key) && Rested(w, PeriodKey(budget.scheme, 0)) && w.l.lastFold == Some(0)
    requires !BlocksAt(budget.policies, Worst(budget, w.l, ns))
    ensures Took(w, Next(budget.scheme, w, Trial(budget, ns, cost)), ns, cost)
  {
    hide PeriodKey, BlocksAt, Worst, BoundaryKeys, MarginWidened;
    TouchWithin(budget.scheme, w, 0);
    GovernsHasPolicies(budget, key);
    assert Judge(budget, w.l, ns, 0, 1) == Free || Judge(budget, w.l, ns, 0, 1).Slotted?;
  }

  /** And once it settles, the replica is at rest again with its cost on the counter. */
  lemma FinishRests(scheme: Scheme, w: World, w': World, ns: string, cost: int)
    requires Rested(w, PeriodKey(scheme, 0)) && Took(w, w', ns, cost) && cost > 0
    ensures
      var w'' := Next(scheme, w', Finish(|w.calls|, 0));
      && Rested(w'', PeriodKey(scheme, 0)) && w''.l.own == w.l.own[ns := Get(w.l.own, ns) + cost]
  {
    hide PeriodKey, Landed, Freed, Acquired;
    TouchWithin(scheme, w', 0);
    var c := w'.calls[|w.calls|];
    AllFreed(c.keys, c.token);
    var l := if c.keys == {} then w'.l else w'.l.(adm := Freed(w'.l.adm, c.keys, c.token));
    LandedIsSpendOnly(l, ns, "w", cost, 0);
    LandedMarks(l, ns, "w", cost, 0);
  }

  lemma AllFreed(keys: set<string>, token: nat)
    ensures Freed(Acquired(map[], keys, token), keys, token) == map[]
    ensures keys == {} ==> Acquired(map[], keys, token) == map[]
  {
  }

  /** Every replica folds a view of its own. */
  lemma FoldAll(budget: Budget, cmax: int, f: seq<World>, views: seq<Spend>, key: string)
    requires |views| == |f| && forall i :: 0 <= i < |f| ==> f[i].l.period == PeriodKey(budget.scheme, 0)
    requires forall i :: 0 <= i < |f| ==> Reported(f, i, views[i])
    ensures Reaches(Stated(budget, cmax, 0, 0), f,
                    seq(|f|, i requires 0 <= i < |f| => Folded(f[i], views[i])), key)
  {
    hide PeriodKey, Reaches, Settled, Spent, Reported, Judge;
    var t := Stated(budget, cmax, 0, 0);
    var es := seq(|f|, i requires 0 <= i < |f| => Fold(views[i], 0));
    forall i | 0 <= i < |f|
      ensures Next(budget.scheme, f[i], es[i]) == Folded(f[i], views[i])
    {
      TouchWithin(budget.scheme, f[i], 0);
    }
    forall j | 0 <= j < |f|
      ensures Permitted(t, Swept(budget.scheme, f, es, j), Step(j, es[j]), key)
    {
      SameReport(f, Swept(budget.scheme, f, es, j), j, views[j]);
    }
    SweepReaches(t, f, es, |f|, key);
    assert Swept(budget.scheme, f, es, |f|) == seq(|f|, i requires 0 <= i < |f| => Folded(f[i], views[i]));
  }

  lemma SameReport(f: seq<World>, g: seq<World>, i: nat, peers: Spend)
    requires |g| == |f| && i < |f| && Reported(f, i, peers)
    requires forall j :: 0 <= j < |f| ==> g[j].l.own == f[j].l.own
    ensures Reported(g, i, peers) && Amounts(peers)
  {
    hide SumSeq;
    forall ns
      ensures 0 <= Get(peers, ns) <= SumSeq(NamespaceOwns(g, ns)) - Get(g[i].l.own, ns)
    {
      assert NamespaceOwns(g, ns) == NamespaceOwns(f, ns);
    }
    forall k | k in peers
      ensures peers[k] >= 0
    {
      assert Get(peers, k) >= 0;
    }
  }

  lemma SameSettled(f: seq<World>, g: seq<World>, key: string)
    requires |g| == |f| && forall j :: 0 <= j < |f| ==> g[j].l.own == f[j].l.own
    ensures Settled(g, key) == Settled(f, key)
  {
    hide SumSeq, OwnSpend;
    forall j | 0 <= j < |f|
      ensures OwnSpend(g[j].l, key) == OwnSpend(f[j].l, key)
    {
      SameOwn(f[j].l, g[j].l, key);
    }
    assert Owns(g, key) == Owns(f, key);
  }

  /** An idle replica that just folded, whose view of the namespace does not block. */
  ghost predicate Willing(budget: Budget, w: World, ns: string) {
    && Rested(w, PeriodKey(budget.scheme, 0)) && w.l.lastFold == Some(0) && ns != CLUSTER_SLOT
    && !BlocksAt(budget.policies, Worst(budget, w.l, ns))
  }

  /** Every replica admits a request, where all see everything settled. */
  lemma TryAll(budget: Budget, cmax: int, f: seq<World>, nss: seq<string>, cost: int, key: string)
    returns (f': seq<World>)
    requires Governs(budget, key) && |nss| == |f| && 0 <= cost <= cmax
    requires forall i :: 0 <= i < |f| ==> Willing(budget, f[i], nss[i])
    requires forall i :: 0 <= i < |f| && (key == CLUSTER_SLOT || nss[i] == key) ==>
                           Settled(f, key) <= Spent(f[i].l, key)
    ensures |f'| == |f| && Reaches(Stated(budget, cmax, 0, 0), f, f', key)
    ensures forall i :: 0 <= i < |f| ==> Took(f[i], f'[i], nss[i], cost)
  {
    hide PeriodKey, Reaches, Settled, Spent, Next, Governs, BlocksAt, Worst, Rested, Reported, Acquired;
    var t := Stated(budget, cmax, 0, 0);
    var es := seq(|f|, i requires 0 <= i < |f| => Trial(budget, nss[i], cost));
    forall i | 0 <= i < |f|
      ensures Took(f[i], Next(budget.scheme, f[i], es[i]), nss[i], cost)
    {
      TryAdmits(budget, f[i], nss[i], cost, key);
    }
    forall j | 0 <= j < |f|
      ensures Permitted(t, Swept(budget.scheme, f, es, j), Step(j, es[j]), key)
    {
      SameSettled(f, Swept(budget.scheme, f, es, j), key);
    }
    SweepReaches(t, f, es, |f|, key);
    f' := Swept(budget.scheme, f, es, |f|);
  }

  /** Every replica settles the request it took. */
  lemma FinishAll(budget: Budget, cmax: int, f: seq<World>, g: seq<World>, nss: seq<string>, cost: int, key: string)
    returns (f': seq<World>)
    requires |nss| == |g| == |f| && cost > 0
    requires forall i :: 0 <= i < |f| ==> Rested(f[i], PeriodKey(budget.scheme, 0)) && Took(f[i], g[i], nss[i], cost)
    ensures |f'| == |f| && Reaches(Stated(budget, cmax, 0, 0), g, f', key)
    ensures forall i :: 0 <= i < |f| ==>
              && Rested(f'[i], PeriodKey(budget.scheme, 0))
              && f'[i].l.own == f[i].l.own[nss[i] := Get(f[i].l.own, nss[i]) + cost]
  {
    hide PeriodKey, Reaches, Settled, Spent, Next, Rested, Took, Reported, Get;
    var t := Stated(budget, cmax, 0, 0);
    var es := seq(|f|, i requires 0 <= i < |f| => Finish(|f[i].calls|, 0));
    forall i | 0 <= i < |f|
      ensures Rested(Next(budget.scheme, g[i], es[i]), PeriodKey(budget.scheme, 0))
      ensures Next(budget.scheme, g[i], es[i]).l.own == f[i].l.own[nss[i] := Get(f[i].l.own, nss[i]) + cost]
    {
      FinishRests(budget.scheme, f[i], g[i], nss[i], cost);
    }
    SweepReaches(t, g, es, |g|, key);
    f' := Swept(budget.scheme, g, es, |g|);
  }

  // ---- A cent of each replica: `a` of them spent in one namespace, the rest in another ----

  function Payer(ns: string, other: string, a: nat, i: nat): string { if i < a then ns else other }

  function Payers(ns: string, other: string, a: nat, c: nat): seq<string> {
    seq(c, i requires 0 <= i < c => Payer(ns, other, a, i))
  }

  function Ones(c: nat, a: nat): seq<int> { seq(c, i requires 0 <= i < c => if i < a then 1 else 0) }

  lemma {:induction false} SumOnes(c: nat, a: nat)
    ensures SumSeq(Ones(c, a)) == if a < c then a else c
  {
    if c > 0 {
      assert Ones(c, a)[..c - 1] == Ones(c - 1, a);
      SumOnes(c - 1, a);
    }
  }

  lemma {:induction false} SumConstant(c: nat, x: int)
    ensures SumSeq(seq(c, _ => x)) == c * x
  {
    if c > 0 {
      assert seq(c, _ => x)[..c - 1] == seq(c - 1, _ => x);
      SumConstant(c - 1, x);
      assert (c - 1) * x + x == c * x;
    }
  }

  /** Each replica landed one cent. */
  predicate EachPaid(f: seq<World>, ns: string, other: string, a: nat, c: nat) {
    |f| == c && a <= c && ns != other && forall i :: 0 <= i < c ==> f[i].l.own == map[Payer(ns, other, a, i) := 1]
  }

  lemma OneTotals(ns: string, x: int)
    ensures Total(map[ns := x]) == x
  {
    TotalUpdate(map[], ns, x);
    TotalEmpty<string>(map[]);
    assert map[ns := x] == map[][ns := x];
  }

  lemma PaidIn(f: seq<World>, ns: string, other: string, a: nat, c: nat, n: string)
    requires EachPaid(f, ns, other, a, c)
    ensures SumSeq(NamespaceOwns(f, n)) == if n == ns then a else if n == other then c - a else 0
  {
    hide SumSeq;
    if n == ns {
      SumOnes(c, a);
      assert NamespaceOwns(f, n) == Ones(c, a);
    } else if n == other {
      SumOnes(c, a);
      SumOnes(c, c);
      SumSeqAdd(Ones(c, a), NamespaceOwns(f, n), Ones(c, c));
    } else {
      SumOnes(c, 0);
      assert NamespaceOwns(f, n) == Ones(c, 0);
    }
  }

  lemma PaidSettled(f: seq<World>, ns: string, other: string, a: nat, c: nat, key: string)
    requires EachPaid(f, ns, other, a, c) && (key == CLUSTER_SLOT || key == ns)
    ensures Settled(f, key) == if key == CLUSTER_SLOT then c else a
  {
    hide SumSeq, Total;
    forall i | 0 <= i < c
      ensures Total(f[i].l.own) == 1
    {
      OneTotals(Payer(ns, other, a, i), 1);
    }
    if key == CLUSTER_SLOT {
      SumOnes(c, c);
      assert Owns(f, key) == Ones(c, c);
    } else {
      SumOnes(c, a);
      assert Owns(f, key) == Ones(c, a);
    }
  }

  /** What the others landed, as one replica folds it. */
  function Others(ns: string, other: string, a: nat, c: nat, i: nat): Spend {
    map[ns := if i < a then a - 1 else a, other := if i < a then c - a else c - a - 1]
  }

  lemma OthersFacts(ns: string, other: string, a: nat, c: nat, i: nat)
    requires ns != other && a <= c && i < c
    ensures Total(Others(ns, other, a, c, i)) == c - 1
  {
    var x, y := if i < a then a - 1 else a, if i < a then c - a else c - a - 1;
    var one: Spend := map[ns := x];
    OneTotals(ns, x);
    assert Others(ns, other, a, c, i) == one[other := y];
    TotalUpdate(one, other, y);
  }

  lemma OthersReported(f: seq<World>, ns: string, other: string, a: nat, c: nat, i: nat)
    requires EachPaid(f, ns, other, a, c) && i < c
    ensures Reported(f, i, Others(ns, other, a, c, i))
  {
    hide SumSeq;
    forall n
      ensures 0 <= Get(Others(ns, other, a, c, i), n) <= SumSeq(NamespaceOwns(f, n)) - Get(f[i].l.own, n)
    {
      PaidIn(f, ns, other, a, c, n);
    }
  }

  /** With the others' cents folded in, a replica sees exactly `a` of `c`. */
  lemma SeesAll(budget: Budget, w: World, ns: string, other: string, a: nat, c: nat, i: nat)
    requires ns != other && a <= c && i < c && ns != CLUSTER_SLOT && w.l.own == map[Payer(ns, other, a, i) := 1]
    ensures
      var l := Folded(w, Others(ns, other, a, c, i)).l;
      && Spent(l, CLUSTER_SLOT) == c && Spent(l, ns) == a
      && Worst(budget, l, ns) == WorstAt(budget, a, c)
  {
    hide Percent, Total;
    OneTotals(Payer(ns, other, a, i), 1);
    OthersFacts(ns, other, a, c, i);
  }

  /** A fleet of c replicas of which each landed one cent, `a` of them in the namespace. */
  lemma PayTogether(budget: Budget, cmax: int, ns: string, other: string, a: nat, c: nat, key: string)
    returns (f: seq<World>)
    requires Governs(budget, key) && !BlocksAt(budget.policies, 0.0) && cmax >= 1
    requires ns != CLUSTER_SLOT && other != CLUSTER_SLOT && ns != other && a <= c
    ensures Reaches(Stated(budget, cmax, 0, 0), StartFleet(budget.scheme, c, 0), f, key)
    ensures EachPaid(f, ns, other, a, c)
    ensures forall i :: 0 <= i < c ==> Rested(f[i], PeriodKey(budget.scheme, 0))
  {
    hide PeriodKey, Reaches, Settled, Spent, Governs, BlocksAt, Took, Reported, Percent, Total;
    var t, start := Stated(budget, cmax, 0, 0), StartFleet(budget.scheme, c, 0);
    var views: seq<Spend> := seq(c, _ => map[]);
    var payers := Payers(ns, other, a, c);
    forall i | 0 <= i < c
      ensures Reported(start, i, views[i])
    {
      NothingLanded(budget.scheme, c, i);
    }
    FoldAll(budget, cmax, start, views, key);
    var folded := seq(c, i requires 0 <= i < c => Folded(start[i], views[i]));
    forall i | 0 <= i < c
      ensures Willing(budget, folded[i], payers[i]) && Spent(folded[i].l, key) == 0
    {
      FreshSees(budget, folded[i].l, payers[i], key);
    }
    NothingSettled(folded, key);
    var taken := TryAll(budget, cmax, folded, payers, 1, key);
    f := FinishAll(budget, cmax, folded, taken, payers, 1, key);
    assert seq(|start|, i requires 0 <= i < |start| => Folded(start[i], views[i])) == folded;
    ReachesJoin(t, start, folded, taken, key);
    ReachesJoin(t, start, taken, f, key);
  }

  lemma FreshSees(budget: Budget, l: ProviderLedger, ns: string, key: string)
    requires l.own == map[] && l.peers == map[]
    ensures Worst(budget, l, ns) == 0.0 && Spent(l, key) == 0
  {
    hide Percent;
    TotalEmpty<string>(map[]);
    ZeroPercent(budget.nsCeiling);
    ZeroPercent(budget.clusterCeiling);
  }

  lemma NothingLanded(scheme: Scheme, c: nat, i: nat)
    requires i < c
    ensures Reported(StartFleet(scheme, c, 0), i, map[])
  {
    hide PeriodKey, SumSeq;
    forall ns
      ensures SumSeq(NamespaceOwns(StartFleet(scheme, c, 0), ns)) == 0
    {
      SumOnes(c, 0);
      assert NamespaceOwns(StartFleet(scheme, c, 0), ns) == Ones(c, 0);
    }
  }

  lemma NothingSettled(f: seq<World>, key: string)
    requires forall i :: 0 <= i < |f| ==> f[i].l.own == map[]
    ensures Settled(f, key) <= 0
  {
    hide SumSeq;
    TotalEmpty<string>(map[]);
    SumSeqBound(Owns(f, key), 0);
  }

  /** Then each admits one request more, as large as allowed. */
  lemma AdmitTogether(budget: Budget, cmax: int, f: seq<World>, ns: string, other: string, a: nat, c: nat, key: string)
    returns (f': seq<World>)
    requires Governs(budget, key) && cmax >= 1 && ns != CLUSTER_SLOT && (key == CLUSTER_SLOT || key == ns)
    requires !BlocksAt(budget.policies, WorstAt(budget, a, c))
    requires EachPaid(f, ns, other, a, c) && forall i :: 0 <= i < c ==> Rested(f[i], PeriodKey(budget.scheme, 0))
    ensures |f'| == c && Reaches(Stated(budget, cmax, 0, 0), f, f', key)
    ensures FleetLoad(f', key) == (if key == CLUSTER_SLOT then c else a) + c * cmax
  {
    hide PeriodKey, Reaches, Settled, Spent, Governs, BlocksAt, Took, Reported, WorstAt, Others, FleetLoad;
    var t := Stated(budget, cmax, 0, 0);
    var views := seq(c, i requires 0 <= i < c => Others(ns, other, a, c, i));
    var nss := seq(c, _ => ns);
    forall i | 0 <= i < c
      ensures Reported(f, i, views[i])
    {
      OthersReported(f, ns, other, a, c, i);
    }
    FoldAll(budget, cmax, f, views, key);
    var folded := seq(c, i requires 0 <= i < c => Folded(f[i], views[i]));
    SameSettled(f, folded, key);
    PaidSettled(f, ns, other, a, c, key);
    forall i | 0 <= i < c
      ensures Willing(budget, folded[i], nss[i]) && Settled(folded, key) <= Spent(folded[i].l, key)
    {
      SeesAll(budget, f[i], ns, other, a, c, i);
    }
    f' := TryAll(budget, cmax, folded, nss, cmax, key);
    assert seq(|f|, i requires 0 <= i < |f| => Folded(f[i], views[i])) == folded;
    ReachesJoin(t, f, folded, f', key);
    TookLoads(folded, f', ns, cmax, key);
  }

  lemma TookLoads(f: seq<World>, f': seq<World>, ns: string, cost: int, key: string)
    requires |f'| == |f| && (key == CLUSTER_SLOT || ns == key)
    requires forall i :: 0 <= i < |f| ==> Took(f[i], f'[i], ns, cost)
    requires forall i :: 0 <= i < |f| ==> forall j :: 0 <= j < |f[i].calls| ==> f[i].calls[j].settled
    ensures FleetLoad(f', key) == Settled(f, key) + |f| * cost
  {
    hide SumSeq, Load, OwnSpend, Took;
    forall i | 0 <= i < |f|
      ensures Load(f'[i], key) == OwnSpend(f[i].l, key) + cost
    {
      TookLoad(f[i], f'[i], ns, cost, key);
    }
    SumConstant(|f|, cost);
    SumSeqAdd(Owns(f, key), seq(|f|, _ => cost), Loads(f', key));
  }

  lemma TookLoad(w: World, w': World, ns: string, cost: int, key: string)
    requires Took(w, w', ns, cost) && (key == CLUSTER_SLOT || ns == key)
    requires forall i :: 0 <= i < |w.calls| ==> w.calls[i].settled
    ensures Load(w', key) == OwnSpend(w.l, key) + cost
  {
    hide OwnSpend, SlotFlight, FreeFlight;
    RestedFlight(w.calls, key);
    FlightAppend(w.calls, w'.calls[|w.calls|], key);
    assert w'.calls == w.calls + [w'.calls[|w.calls|]];
    SameOwn(w.l, w'.l, key);
  }

  /**
   Where the ladder lets some spend above the threshold through and does not block from the start, replicas
   that each landed one cent add up to that spend, all see it, and each admits one request more.
   */
  lemma UncappedBreaksGuarantee(budget: Budget, cmax: int, key: string)
    requires Governs(budget, key) && !CapsSpend(budget, key) && !BlocksAt(budget.policies, 0.0) && cmax >= 1
    ensures !Guaranteed(budget, cmax, key)
  {
    hide PeriodKey, BlocksAt, WorstAt, Governs, Guaranteed, Rested, MinBlockAt, FleetLoad, Reaches, EachPaid;
    var a: nat, c: nat :| a <= c && Above(budget, key, a, c) && !BlocksAt(budget.policies, WorstAt(budget, a, c));
    var ns := if key == CLUSTER_SLOT then "a" else key;
    assert |ns + "b"| == |ns| + 1;
    var paid := PayTogether(budget, cmax, ns, ns + "b", a, c, key);
    var f := AdmitTogether(budget, cmax, paid, ns, ns + "b", a, c, key);
    ReachesJoin(Stated(budget, cmax, 0, 0), StartFleet(budget.scheme, c, 0), paid, f, key);
    ReachedBreaks(budget, cmax, c, f, key);
  }

  // ---- The burst settles, too ----

  /** The burst after its first k requests settled. */
  ghost predicate PartSettled(w: World, ns: string, period: string, n: nat, k: nat, key: string) {
    && w.l.period == period && |w.calls| == n && OwnSpend(w.l, key) == k
    && forall i :: 0 <= i < n ==> w.calls[i] == BurstCall(ns, period).(settled := i < k)
  }

  lemma OneMoreSettled(scheme: Scheme, w: World, ns: string, n: nat, k: nat, key: string)
    requires PartSettled(w, ns, PeriodKey(scheme, 0), n, k, key) && k < n
    requires ns != CLUSTER_SLOT && (key == CLUSTER_SLOT || key == ns)
    ensures PartSettled(Next(scheme, w, Finish(k, 0)), ns, PeriodKey(scheme, 0), n, k + 1, key)
  {
    hide PeriodKey, Landed, OwnSpend;
    TouchWithin(scheme, w, 0);
    LandedIsSpendOnly(w.l, ns, "w", 1, 0);
    LandMovesSpend(w.l, Next(scheme, w, Finish(k, 0)).l, w.calls[k], key);
  }

  lemma {:induction false} SettleBurst(budget: Budget, cmax: int, ns: string, n: nat, k: nat, key: string)
    returns (w': World)
    requires k <= n && ns != CLUSTER_SLOT && (key == CLUSTER_SLOT || key == ns)
    ensures Reaches(Stated(budget, cmax, 0, 0), [BurstWorld(budget, ns, n)], [w'], key)
    ensures PartSettled(w', ns, PeriodKey(budget.scheme, 0), n, k, key)
    decreases k
  {
    hide PeriodKey, Reaches, Next, PartSettled, Permitted;
    var t, f := Stated(budget, cmax, 0, 0), [BurstWorld(budget, ns, n)];
    if k == 0 {
      w' := BurstWorld(budget, ns, n);
      ReachesSelf(t, f, key);
      NoneSettled(budget, ns, n, key);
    } else {
      var mid := SettleBurst(budget, cmax, ns, n, k - 1, key);
      OneMoreSettled(budget.scheme, mid, ns, n, k - 1, key);
      var finish := Step(0, Finish(k - 1, 0));
      w' := Next(budget.scheme, mid, finish.event);
      FinishPermitted(budget, cmax, mid, k - 1, key);
      ReachesStep(t, f, [mid], finish, key);
      assert FleetNext(budget.scheme, [mid], finish) == [w'];
    }
  }

  lemma FinishPermitted(budget: Budget, cmax: int, w: World, n: nat, key: string)
    ensures Permitted(Stated(budget, cmax, 0, 0), [w], Step(0, Finish(n, 0)), key)
  {
    hide PeriodKey, Next, Settled, Spent;
  }

  lemma NoneSettled(budget: Budget, ns: string, n: nat, key: string)
    ensures PartSettled(BurstWorld(budget, ns, n), ns, PeriodKey(budget.scheme, 0), n, 0, key)
  {
    hide PeriodKey;
    TotalEmpty<string>(map[]);
  }

  /**
   Where the boundary region does not reach down to zero, no slack repairs the guarantee: on one replica with
   no peers, requests of cost 1 settle past any amount.
   */
  lemma StatedGuaranteeFails(budget: Budget, cmax: int, key: string, slack: nat) returns (w: World)
    requires Governs(budget, key) && !SerializesFromZero(budget) && cmax >= 1
    ensures Reaches(Stated(budget, cmax, 0, 0), StartFleet(budget.scheme, 1, 0), [w], key)
    ensures OwnSpend(w.l, key) > slack
  {
    hide PeriodKey, Governs, SerializesFromZero, Reaches, BurstWorld, StartFleet;
    var t, ns := Stated(budget, cmax, 0, 0), if key == CLUSTER_SLOT then "a" else key;
    BurstRuns(budget, cmax, ns, slack + 1, key);
    w := SettleBurst(budget, cmax, ns, slack + 1, slack + 1, key);
    ReachesJoin(t, StartFleet(budget.scheme, 1, 0), [BurstWorld(budget, ns, slack + 1)], [w], key);
  }
}
