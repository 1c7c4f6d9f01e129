/**
 Hard enforcement across a fleet of replicas: how far settled plus in-flight spend can pass a block
 ceiling within one period.
 */
module Fleet {
  import opened Totals
  import opened Periods
  import opened Ladder
  import opened Ledger
  import opened LedgerRuns

  // ---- Spend of one replica against one governed ceiling: a namespace, or the cluster ----

  predicate Counts(c: Call, key: string) { key == CLUSTER_SLOT || c.ns == key }

  ghost function Against(m: Spend, key: string): int {
    if key == CLUSTER_SLOT then Total(m) else Get(m, key)
  }

  ghost function OwnSpend(l: ProviderLedger, key: string): int { Against(l.own, key) }

  /** What an unsettled request will add, split by whether it holds the ceiling's slot. */
  function SlotPart(c: Call, key: string): int {
    if !c.settled && Counts(c, key) && key in c.keys then c.cost else 0
  }

  function FreePart(c: Call, key: string): int {
    if !c.settled && Counts(c, key) && key !in c.keys then c.cost else 0
  }

  function SlotFlight(calls: seq<Call>, key: string): int {
    if calls == [] then 0 else SlotFlight(calls[..|calls| - 1], key) + SlotPart(calls[|calls| - 1], key)
  }

  function FreeFlight(calls: seq<Call>, key: string): int {
    if calls == [] then 0 else FreeFlight(calls[..|calls| - 1], key) + FreePart(calls[|calls| - 1], key)
  }

  /** Settled plus in-flight spend of one replica. */
  ghost function Load(w: World, key: string): int {
    OwnSpend(w.l, key) + SlotFlight(w.calls, key) + FreeFlight(w.calls, key)
  }

  lemma FlightAppend(calls: seq<Call>, c: Call, key: string)
    ensures SlotFlight(calls + [c], key) == SlotFlight(calls, key) + SlotPart(c, key)
    ensures FreeFlight(calls + [c], key) == FreeFlight(calls, key) + FreePart(c, key)
  {
    assert (calls + [c])[..|calls|] == calls;
  }

  lemma {:induction false} FlightUpdate(calls: seq<Call>, i: nat, c: Call, key: string)
    requires i < |calls|
    ensures SlotFlight(calls[i := c], key) == SlotFlight(calls, key) - SlotPart(calls[i], key) + SlotPart(c, key)
    ensures FreeFlight(calls[i := c], key) == FreeFlight(calls, key) - FreePart(calls[i], key) + FreePart(c, key)
  {
    var n := |calls| - 1;
    if i < n {
      FlightUpdate(calls[..n], i, c, key);
      assert calls[i := c][..n] == calls[..n][i := c];
    } else {
      assert calls[i := c][..n] == calls[..n];
    }
  }

  /** Landing a cost moves a ceiling's own spend exactly when the request counts against it. */
  lemma LandMovesSpend(l: ProviderLedger, m: ProviderLedger, c: Call, key: string)
    requires c.ns != CLUSTER_SLOT
    requires m.own == l.own[c.ns := Get(l.own, c.ns) + c.cost]
    ensures OwnSpend(m, key) == OwnSpend(l, key) + if Counts(c, key) then c.cost else 0
  {
    TotalUpdate(l.own, c.ns, Get(l.own, c.ns) + c.cost);
  }

  // ---- Steps within one period ----

  predicate Within(scheme: Scheme, period: string, e: Event) {
    e.Publish? || PeriodKey(scheme, e.time) == period
  }

  lemma TouchWithin(scheme: Scheme, w: World, time: int)
    requires PeriodKey(scheme, time) == w.l.period
    ensures Touch(scheme, w, time) == w.(now := time)
  {
  }

  /** Finishing a request turns in-flight spend into settled spend, one for one. */
  lemma FinishBalances(scheme: Scheme, w: World, n: nat, time: int, key: string)
    requires n < |w.calls| && !w.calls[n].settled && w.calls[n].ns != CLUSTER_SLOT
    ensures Load(Finished(scheme, w, n, time), key) == Load(w, key)
  {
    hide Landed, OwnSpend, SlotFlight, FreeFlight;
    var c := w.calls[n];
    var w' := Finished(scheme, w, n, time);
    FlightUpdate(w.calls, n, c.(settled := true), key);
    var l := if c.keys != {} && w.l.period == c.period then w.l.(adm := Freed(w.l.adm, c.keys, c.token)) else w.l;
    LandedIsSpendOnly(l, c.ns, c.workload, c.cost, time);
    if c.cost != 0 {
      LandMovesSpend(w.l, w'.l, c, key);
    } else {
      SameOwn(w.l, w'.l, key);
    }
  }

  lemma SameOwn(l: ProviderLedger, m: ProviderLedger, key: string)
    requires m.own == l.own
    ensures OwnSpend(m, key) == OwnSpend(l, key)
  {
  }

  /** Every step but an admission leaves a replica's load as it was; an admission adds its cost. */
  lemma StepLoad(scheme: Scheme, w: World, e: Event, key: string)
    requires Within(scheme, w.l.period, e)
    requires forall i :: 0 <= i < |w.calls| ==> w.calls[i].ns != CLUSTER_SLOT
    ensures
      var w' := Next(scheme, w, e);
      && w'.l.period == w.l.period
      && (e.Try? ==> w'.calls == w.calls || (|w'.calls| == |w.calls| + 1 && w'.calls[..|w.calls|] == w.calls))
      && (w'.calls == w.calls || !e.Try? || !Counts(w'.calls[|w.calls|], key) ==> Load(w', key) == Load(w, key))
      && (e.Try? ==> OwnSpend(w'.l, key) == OwnSpend(w.l, key))
  {
    hide PeriodKey, Judge, MarginWidened, Landed, OwnSpend, SlotFlight, FreeFlight, Finished;
    match e {
      case Try(_, _, _, _, time, _) =>
        TouchWithin(scheme, w, time);
        var w' := Next(scheme, w, e);
        SameOwn(w.l, w'.l, key);
        if |w'.calls| == |w.calls| + 1 {
          FlightAppend(w.calls, w'.calls[|w.calls|], key);
        }
      case Finish(i, time) =>
        TouchWithin(scheme, w, time);
        if i < |w.calls| && !w.calls[i].settled {
          FinishBalances(scheme, w.(now := time), i, time, key);
          FinishPeriod(scheme, w.(now := time), i, time);
        }
      case Fold(peers, time) =>
        TouchWithin(scheme, w, time);
        SameOwn(w.l, Next(scheme, w, e).l, key);
      case Publish(_) =>
        SameOwn(w.l, Next(scheme, w, e).l, key);
    }
  }

  lemma FinishPeriod(scheme: Scheme, w: World, n: nat, time: int)
    requires n < |w.calls|
    ensures Finished(scheme, w, n, time).l.period == w.l.period
  {
    hide Landed;
    LandedKeepsSlots(w, n, time);
  }

  // ---- What every replica keeps ----

  predicate Priced(c: Call, period: string, cmax: int) {
    c.period == period && 0 <= c.cost <= cmax && c.ns != CLUSTER_SLOT
  }

  ghost predicate ReplicaInv(w: World, period: string, cmax: int) {
    && w.l.period == period && SlotInv(w) && AllHeld(w)
    && forall i :: 0 <= i < |w.calls| ==> Priced(w.calls[i], period, cmax)
  }

  predicate Allowed(e: Event, budget: Budget, cmax: int) {
    e.Try? ==> e.budget == budget && 0 <= e.cost <= cmax && e.ns != CLUSTER_SLOT
  }

  lemma StepKeepsReplica(scheme: Scheme, w: World, e: Event, budget: Budget, cmax: int)
    requires ReplicaInv(w, w.l.period, cmax) && Within(scheme, w.l.period, e) && Allowed(e, budget, cmax)
    ensures ReplicaInv(Next(scheme, w, e), w.l.period, cmax)
  {
    hide PeriodKey, Judge, MarginWidened, SlotInv, AllHeld, Finished, Rolled;
    NextKeepsSlots(scheme, w, e);
    StepKeepsHeld(scheme, w, e);
    StepKeepsPriced(scheme, w, e, budget, cmax);
  }

  lemma StepKeepsHeld(scheme: Scheme, w: World, e: Event)
    requires SlotInv(w) && AllHeld(w) && Within(scheme, w.l.period, e)
    ensures AllHeld(Next(scheme, w, e))
  {
    hide PeriodKey, Judge, Admitted, Finished;
    match e {
      case Try(_, _, _, _, time, _) =>
        TouchWithin(scheme, w, time);
        AdmitAllHeld(w.(now := time), e);
      case Finish(i, time) =>
        TouchWithin(scheme, w, time);
        if i < |w.calls| && !w.calls[i].settled {
          FinishAllHeld(scheme, w.(now := time), i, time);
        }
      case Fold(peers, time) =>
        TouchWithin(scheme, w, time);
      case Publish(_) =>
    }
  }

  lemma StepKeepsPriced(scheme: Scheme, w: World, e: Event, budget: Budget, cmax: int)
    requires Within(scheme, w.l.period, e) && Allowed(e, budget, cmax)
    requires forall i :: 0 <= i < |w.calls| ==> Priced(w.calls[i], w.l.period, cmax)
    ensures
      var w' := Next(scheme, w, e);
      && w'.l.period == w.l.period
      && forall i :: 0 <= i < |w'.calls| ==> Priced(w'.calls[i], w.l.period, cmax)
  {
    hide PeriodKey, Judge, MarginWidened, Landed;
    if !e.Publish? {
      TouchWithin(scheme, w, e.time);
    }
    if e.Finish? && e.call < |w.calls| {
      FinishPeriod(scheme, w.(now := e.time), e.call, e.time);
    }
  }

  /** At most one request per replica holds a ceiling's slot, so slotted flight is at most one cost. */
  lemma {:induction false} SlotFlightBound(w: World, n: nat, period: string, cmax: int, key: string)
    requires ReplicaInv(w, period, cmax) && n <= |w.calls| && 0 <= cmax
    ensures 0 <= SlotFlight(w.calls[..n], key) <= cmax
    ensures (forall i :: 0 <= i < n ==> SlotPart(w.calls[i], key) == 0) ==> SlotFlight(w.calls[..n], key) == 0
  {
    if n > 0 {
      assert w.calls[..n][..n - 1] == w.calls[..n - 1];
      SlotFlightBound(w, n - 1, period, cmax, key);
      HeldIsExclusive(w);
      var last := w.calls[n - 1];
      if SlotPart(last, key) != 0 {
        forall i | 0 <= i < n - 1
          ensures SlotPart(w.calls[i], key) == 0
        {
        }
      }
    }
  }

  // ---- The fleet ----

  function SumSeq(xs: seq<int>): int {
    if xs == [] then 0 else SumSeq(xs[..|xs| - 1]) + xs[|xs| - 1]
  }

  lemma {:induction false} SumSeqBound(xs: seq<int>, c: int)
    requires forall i :: 0 <= i < |xs| ==> xs[i] <= c
    ensures SumSeq(xs) <= |xs| * c
  {
    if xs != [] {
      SumSeqBound(xs[..|xs| - 1], c);
      assert (|xs| - 1) * c + c == |xs| * c;
    }
  }

  lemma {:induction false} SumSeqAdd(xs: seq<int>, ys: seq<int>, zs: seq<int>)
    requires |xs| == |ys| == |zs| && forall i :: 0 <= i < |xs| ==> zs[i] == xs[i] + ys[i]
    ensures SumSeq(zs) == SumSeq(xs) + SumSeq(ys)
  {
    if xs != [] {
      SumSeqAdd(xs[..|xs| - 1], ys[..|ys| - 1], zs[..|zs| - 1]);
    }
  }

  ghost function Owns(f: seq<World>, key: string): seq<int> {
    seq(|f|, i requires 0 <= i < |f| => OwnSpend(f[i].l, key))
  }

  ghost function Slots(f: seq<World>, key: string): seq<int> {
    seq(|f|, i requires 0 <= i < |f| => SlotFlight(f[i].calls, key))
  }

  ghost function Frees(f: seq<World>, key: string): seq<int> {
    seq(|f|, i requires 0 <= i < |f| => FreeFlight(f[i].calls, key))
  }

  ghost function Loads(f: seq<World>, key: string): seq<int> {
    seq(|f|, i requires 0 <= i < |f| => Load(f[i], key))
  }

  /** The fleet's settled spend, and its settled plus in-flight spend. */
  ghost function Settled(f: seq<World>, key: string): int { SumSeq(Owns(f, key)) }
  ghost function FleetLoad(f: seq<World>, key: string): int { SumSeq(Loads(f, key)) }

  /** In-flight spend of requests that hold no slot of this ceiling. */
  ghost function Unslotted(f: seq<World>, key: string): int { SumSeq(Frees(f, key)) }

  lemma LoadSplits(f: seq<World>, key: string)
    ensures FleetLoad(f, key) == Settled(f, key) + SumSeq(Slots(f, key)) + Unslotted(f, key)
  {
    hide Load, OwnSpend, SlotFlight, FreeFlight, SumSeq;
    var both := seq(|f|, i requires 0 <= i < |f| => OwnSpend(f[i].l, key) + SlotFlight(f[i].calls, key));
    SumSeqAdd(Owns(f, key), Slots(f, key), both);
    forall i | 0 <= i < |f|
      ensures Loads(f, key)[i] == both[i] + Frees(f, key)[i]
    {
      LoadIs(f[i], key);
    }
    SumSeqAdd(both, Frees(f, key), Loads(f, key));
  }

  lemma LoadIs(w: World, key: string)
    ensures Load(w, key) == OwnSpend(w.l, key) + SlotFlight(w.calls, key) + FreeFlight(w.calls, key)
  {
  }

  datatype Step = Step(replica: nat, event: Event)

  ghost function FleetNext(scheme: Scheme, f: seq<World>, s: Step): (f': seq<World>)
    ensures |f'| == |f|
  {
    if s.replica < |f| then f[s.replica := Next(scheme, f[s.replica], s.event)] else f
  }

  /** The run's parameters: its budget and period, and the bounds the guarantee is stated in. */
  datatype Terms = Terms(budget: Budget, period: string, cmax: int, missing: int, unslotted: int)

  function Ceiling(budget: Budget, key: string): nat {
    if key == CLUSTER_SLOT then budget.clusterCeiling else budget.nsCeiling
  }

  /** A hard budget with a block policy, thresholds as the API validates them, and this ceiling set. */
  predicate Governs(budget: Budget, key: string) {
    && budget.hard && HasBlock(budget.policies)
    && (forall i :: 0 <= i < |budget.policies| ==> 0 <= budget.policies[i].atPercent <= 100)
    && Ceiling(budget, key) > 0
  }

  predicate Governed(t: Terms, key: string) {
    Governs(t.budget, key) && t.cmax >= 0 && t.missing >= 0 && t.unslotted >= 0
  }

  predicate Sound(t: Terms, key: string) { Governed(t, key) && BlockDominates(t.budget.policies) }

  /** An admission that counts against the ceiling. */
  ghost predicate AdmitsFor(t: Terms, f: seq<World>, s: Step, key: string)
    requires s.replica < |f|
  {
    var w, w' := f[s.replica], FleetNext(t.budget.scheme, f, s)[s.replica];
    s.event.Try? && |w'.calls| > |w.calls| && (key == CLUSTER_SLOT || s.event.ns == key)
  }

  /**
   A step of the run. When it admits a request against the ceiling, the fleet's settled spend exceeds the
   admitting replica's view by at most `missing`, and the requests in flight without the ceiling's slot
   come to at most `unslotted`.
   */
  ghost predicate Legal(t: Terms, f: seq<World>, s: Step, key: string) {
    && s.replica < |f|
    && Within(t.budget.scheme, t.period, s.event) && Allowed(s.event, t.budget, t.cmax)
    && (AdmitsFor(t, f, s, key) ==>
          && Settled(f, key) <= Spent(f[s.replica].l, key) + t.missing
          && Unslotted(FleetNext(t.budget.scheme, f, s), key) <= t.unslotted)
  }

  ghost predicate FleetInv(t: Terms, f: seq<World>) {
    forall i :: 0 <= i < |f| ==> ReplicaInv(f[i], t.period, t.cmax)
  }

  /** Settled plus in-flight spend within the block threshold, plus what the bound allows. */
  ghost predicate Bounded(t: Terms, f: seq<World>, key: string) {
    100 * FleetLoad(f, key) <=
    MinBlockAt(t.budget.policies) * Ceiling(t.budget, key) + 100 * (t.missing + |f| * t.cmax + t.unslotted)
  }

  /** A request that is not blocked found the ceiling's spend, as its replica sees it, under the threshold. */
  lemma UnblockedIsUnder(t: Terms, l: ProviderLedger, ns: string, key: string)
    requires Sound(t, key) && (key == CLUSTER_SLOT || ns == key)
    requires !BlocksAt(t.budget.policies, Worst(t.budget, l, ns))
    ensures 100 * Spent(l, key) < MinBlockAt(t.budget.policies) * Ceiling(t.budget, key)
  {
    hide BlocksAt, MinBlockAt, Total, Percent;
    var at := MinBlockAt(t.budget.policies);
    var worst := Worst(t.budget, l, ns);
    if worst >= at as real {
      DominatedLadderBlocks(t.budget.policies, worst);
    }
    PercentReached(Spent(l, key), Ceiling(t.budget, key), at);
  }

  lemma AdmitBound(t: Terms, f: seq<World>, s: Step, key: string)
    requires Governed(t, key) && FleetInv(t, f) && Legal(t, f, s, key) && AdmitsFor(t, f, s, key)
    requires FleetInv(t, FleetNext(t.budget.scheme, f, s))
    requires 100 * Spent(f[s.replica].l, key) <= MinBlockAt(t.budget.policies) * Ceiling(t.budget, key)
    ensures Bounded(t, FleetNext(t.budget.scheme, f, s), key)
  {
    hide ReplicaInv, OwnSpend, SlotFlight, FreeFlight, SumSeq, Spent, MinBlockAt, Within, Allowed, Owns, Frees, Next;
    var f' := FleetNext(t.budget.scheme, f, s);
    AdmitLeavesSettled(t, f, s, key);
    LoadSplits(f', key);
    SlotsBound(t, f', key);
  }

  lemma SlotsBound(t: Terms, f: seq<World>, key: string)
    requires FleetInv(t, f) && t.cmax >= 0
    ensures SumSeq(Slots(f, key)) <= |f| * t.cmax
  {
    hide SumSeq, ReplicaInv, SlotFlight;
    forall i | 0 <= i < |f|
      ensures Slots(f, key)[i] <= t.cmax
    {
      SlotFlightBound(f[i], |f[i].calls|, t.period, t.cmax, key);
      assert f[i].calls[..|f[i].calls|] == f[i].calls;
    }
    SumSeqBound(Slots(f, key), t.cmax);
  }

  lemma NotBlocked(t: Terms, f: seq<World>, s: Step, key: string)
    requires Governed(t, key) && FleetInv(t, f) && Legal(t, f, s, key) && AdmitsFor(t, f, s, key)
    ensures !BlocksAt(t.budget.policies, Worst(t.budget, f[s.replica].l, s.event.ns))
  {
    hide PeriodKey, BlocksAt, Worst, BoundaryKeys, MarginWidened, SlotInv, AllHeld, Settled, Unslotted, Spent;
    TouchWithin(t.budget.scheme, f[s.replica], s.event.time);
  }

  lemma AdmitLeavesSettled(t: Terms, f: seq<World>, s: Step, key: string)
    requires FleetInv(t, f) && Legal(t, f, s, key) && s.event.Try?
    ensures Settled(FleetNext(t.budget.scheme, f, s), key) == Settled(f, key)
  {
    hide PeriodKey, OwnSpend, SumSeq, Next, SlotInv, AllHeld;
    StepLoad(t.budget.scheme, f[s.replica], s.event, key);
    assert Owns(FleetNext(t.budget.scheme, f, s), key) == Owns(f, key);
  }

  lemma FleetNextKeeps(t: Terms, f: seq<World>, s: Step, key: string)
    requires FleetInv(t, f) && Legal(t, f, s, key)
    ensures FleetInv(t, FleetNext(t.budget.scheme, f, s))
  {
    hide Next, SlotInv, AllHeld, Settled, Unslotted, Spent, Within, Allowed;
    StepKeepsReplica(t.budget.scheme, f[s.replica], s.event, t.budget, t.cmax);
  }

  /** Every other step leaves the fleet's load where it was. */
  lemma QuietLoad(t: Terms, f: seq<World>, s: Step, key: string)
    requires FleetInv(t, f) && Legal(t, f, s, key) && !AdmitsFor(t, f, s, key)
    ensures FleetLoad(FleetNext(t.budget.scheme, f, s), key) == FleetLoad(f, key)
  {
    hide PeriodKey, Load, SumSeq, SlotInv, AllHeld, Judge, MarginWidened, Finished;
    var i := s.replica;
    StepLoad(t.budget.scheme, f[i], s.event, key);
    if s.event.Try? {
      TouchWithin(t.budget.scheme, f[i], s.event.time);
    }
    assert Load(Next(t.budget.scheme, f[i], s.event), key) == Load(f[i], key);
    assert Loads(FleetNext(t.budget.scheme, f, s), key) == Loads(f, key);
  }

  ghost predicate LegalRun(t: Terms, f: seq<World>, run: seq<Step>, key: string)
    decreases |run|
  {
    run == [] || (Legal(t, f, run[0], key) && LegalRun(t, FleetNext(t.budget.scheme, f, run[0]), run[1..], key))
  }

  ghost function FleetRun(scheme: Scheme, f: seq<World>, run: seq<Step>): (f': seq<World>)
    ensures |f'| == |f|
    decreases |run|
  {
    if run == [] then f else FleetRun(scheme, FleetNext(scheme, f, run[0]), run[1..])
  }

  function StartFleet(scheme: Scheme, replicas: nat, time: int): seq<World> {
    seq(replicas, _ => Start(scheme, time))
  }

  lemma {:induction false} RunBounded(t: Terms, f: seq<World>, run: seq<Step>, key: string)
    requires Sound(t, key) && FleetInv(t, f) && Bounded(t, f, key) && LegalRun(t, f, run, key)
    ensures Bounded(t, FleetRun(t.budget.scheme, f, run), key)
    decreases |run|
  {
    hide FleetInv, AdmitsFor, Bounded, Sound, Next, Settled, Unslotted, Spent, Within, Allowed;
    if run != [] {
      var f' := FleetNext(t.budget.scheme, f, run[0]);
      FleetNextKeeps(t, f, run[0], key);
      StepBounded(t, f, run[0], key);
      RunBounded(t, f', run[1..], key);
    }
  }

  lemma StepBounded(t: Terms, f: seq<World>, s: Step, key: string)
    requires Sound(t, key) && FleetInv(t, f) && Bounded(t, f, key) && Legal(t, f, s, key)
    ensures Bounded(t, FleetNext(t.budget.scheme, f, s), key)
  {
    hide FleetInv, Governed, BlockDominates, BlocksAt, Worst, Next, FleetLoad, MinBlockAt, Within, Allowed,
         Settled, Unslotted, Spent;
    if AdmitsFor(t, f, s, key) {
      FleetNextKeeps(t, f, s, key);
      NotBlocked(t, f, s, key);
      UnblockedIsUnder(t, f[s.replica].l, s.event.ns, key);
      AdmitBound(t, f, s, key);
    } else {
      QuietLoad(t, f, s, key);
    }
  }

  /**
   Fleet overshoot bound. For any number of replicas and any interleaving of admissions, settlements,
   publishes and folds within one period, a governed ceiling's settled plus in-flight spend stays within
   its lowest block threshold, plus the settled spend missing from the admitting replica's view, plus one
   request per replica, plus the requests in flight without its slot.
   */
  lemma FleetOvershootBound(t: Terms, replicas: nat, time: int, run: seq<Step>, key: string)
    requires Sound(t, key) && PeriodKey(t.budget.scheme, time) == t.period
    requires LegalRun(t, StartFleet(t.budget.scheme, replicas, time), run, key)
    ensures
      var f := FleetRun(t.budget.scheme, StartFleet(t.budget.scheme, replicas, time), run);
      100 * FleetLoad(f, key) <=
      MinBlockAt(t.budget.policies) * Ceiling(t.budget, key) + 100 * (t.missing + replicas * t.cmax + t.unslotted)
  {
    hide LegalRun, PeriodKey, MinBlockAt;
    var f := StartFleet(t.budget.scheme, replicas, time);
    FreshFleet(t, replicas, time, key);
    RunBounded(t, f, run, key);
  }

  lemma FreshFleet(t: Terms, replicas: nat, time: int, key: string)
    requires Governed(t, key) && PeriodKey(t.budget.scheme, time) == t.period
    ensures
      var f := StartFleet(t.budget.scheme, replicas, time);
      FleetInv(t, f) && Bounded(t, f, key)
  {
    hide PeriodKey;
    var f := StartFleet(t.budget.scheme, replicas, time);
    forall i | 0 <= i < |f|
      ensures Loads(f, key)[i] <= 0
    {
    }
    SumSeqBound(Loads(f, key), 0);
    ThresholdNonnegative(t.budget.policies);
    assert MinBlockAt(t.budget.policies) * Ceiling(t.budget, key) >= 0;
    assert replicas * t.cmax >= 0;
  }

  lemma ThresholdNonnegative(policies: seq<Policy>)
    requires forall i :: 0 <= i < |policies| ==> policies[i].atPercent >= 0
    ensures MinBlockAt(policies) >= 0
  {
    MinBlockAtIsLeast(policies);
  }
}
