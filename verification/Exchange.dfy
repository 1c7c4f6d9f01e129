/**
 The counter exchange over whole runs within one period: replicas spend and publish, the reducer prunes
 whoever is not live, and a terminating replica may publish again after it was pruned. No published
 spend is ever lost from the ConfigMap or from a replica's enforcement view.
 */
module Exchange {
  import opened Totals
  import opened Wire
  import opened Reducer

  /** A gateway process: the Pod it runs in, and how many processes ran under that name before it. */
  type Process = (string, nat)

  /**
   The ConfigMap, the live counters of each Pod's current process, and what every process that ever
   published published last.
   */
  datatype System = System(
    data: Data, own: map<string, Spend>, restarts: map<string, nat>, published: map<Process, Spend>)

  datatype Step =
    | Spending(pod: string, ns: string, cost: int)
    | Publish(pod: string, margin: bool)
    | Reduce(live: set<string>)
    | Restart(pod: string)

  const EMPTY := System(map[], map[], map[], map[])

  function Own(s: System, pod: string): Spend { if pod in s.own then s.own[pod] else map[] }

  function Current(s: System, pod: string): Process { (pod, if pod in s.restarts then s.restarts[pod] else 0) }

  ghost function Next(s: System, period: string, step: Step): System {
    match step
    case Spending(pod, ns, cost) =>
      s.(own := s.own[pod := Own(s, pod)[ns := Get(Own(s, pod), ns) + cost]])
    case Publish(pod, margin) =>
      if Own(s, pod) == map[] then s
      else s.(data := s.data[pod := Encoded(Partial(period, Own(s, pod), margin))],
              published := s.published[Current(s, pod) := Own(s, pod)])
    case Reduce(live) => s.(data := Reduced(s.data, live, period))
    case Restart(pod) => s.(own := s.own[pod := map[]], restarts := s.restarts[pod := Current(s, pod).1 + 1])
  }

  predicate IsPod(pod: string) { pod != CANONICAL_KEY && pod != RETIRED_KEY }

  /** Costs are not negative, namespaces fit the wire layout, and a name is reused only after its key was pruned. */
  predicate Legal(s: System, step: Step) {
    match step
    case Spending(pod, ns, cost) => IsPod(pod) && Carried(ns) && cost >= 0
    case Publish(pod, _) => IsPod(pod)
    case Reduce(_) => true
    case Restart(pod) => IsPod(pod) && pod !in s.data
  }

  // ---- The invariant ----

  predicate Amounts(m: Spend) { forall ns :: ns in m ==> Carried(ns) && m[ns] >= 0 }

  /** A published key holds exactly what its Pod's current process published last. */
  ghost predicate KeysCurrent(s: System, period: string) {
    forall k :: k in PartsIn(s.data, period) && k != RETIRED_KEY ==>
                  Current(s, k) in s.published && PartsIn(s.data, period)[k] == s.published[Current(s, k)]
  }

  /** Live counters never fall behind what was published from them. */
  ghost predicate CountersGrow(s: System) {
    && (forall pod :: Amounts(Own(s, pod)))
    && (forall p: Process :: p in s.published ==> Amounts(s.published[p]) && p.1 <= Current(s, p.0).1)
    && (forall pod, ns :: Current(s, pod) in s.published ==>
          Get(s.published[Current(s, pod)], ns) <= Get(Own(s, pod), ns))
  }

  /** The ConfigMap's current-period total is at least the sum of every process's last publish. */
  ghost predicate Covered(s: System, period: string) {
    forall ns :: Get(Merge(s.published), ns) <= Get(Merge(PartsIn(s.data, period)), ns)
  }

  ghost predicate Inv(s: System, period: string) {
    KeysCurrent(s, period) && CountersGrow(s) && Covered(s, period)
  }

  // ---- Preservation, step by step ----

  lemma SpendKeeps(s: System, period: string, pod: string, ns: string, cost: int)
    requires Inv(s, period) && Legal(s, Spending(pod, ns, cost))
    ensures Inv(Next(s, period, Spending(pod, ns, cost)), period)
  {
    hide PartsIn, Merge, Carried;
    var s' := Next(s, period, Spending(pod, ns, cost));
    forall p
      ensures Current(s', p) == Current(s, p)
      ensures Amounts(Own(s', p)) && forall n :: Get(Own(s, p), n) <= Get(Own(s', p), n)
    {
      assert Amounts(Own(s, p));
    }
    assert KeysCurrent(s', period);
  }

  lemma EncodedOwn(period: string, spend: Spend, margin: bool)
    requires Amounts(spend)
    ensures InPeriod(Encoded(Partial(period, spend, margin)), period)
    ensures SpendOf(Encoded(Partial(period, spend, margin))) == spend
  {
    hide Encoded, Carried;
    PartialRoundTrip(Partial(period, spend, margin));
  }

  lemma PublishParts(s: System, period: string, pod: string, margin: bool)
    requires IsPod(pod) && Amounts(Own(s, pod)) && Own(s, pod) != map[]
    ensures PartsIn(Next(s, period, Publish(pod, margin)).data, period) == PartsIn(s.data, period)[pod := Own(s, pod)]
  {
    hide PartsIn, Encoded, InPeriod, SpendOf, Carried;
    EncodedOwn(period, Own(s, pod), margin);
    PartsInUpdate(s.data, period, pod, Encoded(Partial(period, Own(s, pod), margin)));
  }

  lemma PublishKeeps(s: System, period: string, pod: string, margin: bool)
    requires Inv(s, period) && IsPod(pod)
    ensures Inv(Next(s, period, Publish(pod, margin)), period)
  {
    hide PartsIn, Merge, Encoded, Carried, Get, CANONICAL_KEY, RETIRED_KEY;
    if Own(s, pod) != map[] {
      var s', p, own := Next(s, period, Publish(pod, margin)), Current(s, pod), Own(s, pod);
      PublishParts(s, period, pod, margin);
      forall q
        ensures Own(s', q) == Own(s, q) && Current(s', q) == Current(s, q)
      {
      }
      assert KeysCurrent(s', period);
      assert CountersGrow(s');
      forall ns
        ensures Get(Merge(s'.published), ns) <= Get(Merge(PartsIn(s'.data, period)), ns)
      {
        MergeUpdate(PartsIn(s.data, period), pod, own, ns);
        MergeUpdate(s.published, p, own, ns);
        if p in s.published {
          AmountAt(s.published[p], ns);
        }
      }
    }
  }

  lemma AmountAt(m: Spend, ns: string)
    requires Amounts(m)
    ensures Get(m, ns) >= 0
  {
  }

  lemma ReduceKeeps(s: System, period: string, live: set<string>)
    requires Inv(s, period)
    ensures Inv(Next(s, period, Reduce(live)), period)
  {
    hide Merge, Reduced, Carried, CountersGrow, PartsIn, RETIRED_KEY;
    ReducePreservesTotal(s.data, live, period);
    ReducedKeysUnchanged(s.data, live, period);
    CountersSame(s, Next(s, period, Reduce(live)));
  }

  /** A pass by the controller drops every Pod that is not live and touches no counter. */
  lemma ReducePrunes(s: System, period: string, live: set<string>)
    ensures
      var t := Next(s, period, Reduce(live));
      && t.data.Keys <= live + {CANONICAL_KEY, RETIRED_KEY} && |t.data| <= |live| + 2
      && t.own == s.own && t.restarts == s.restarts && t.published == s.published
  {
    hide Reduced;
    PassPrunes(s.data, live, period);
  }

  lemma CountersSame(s: System, t: System)
    requires CountersGrow(s) && t.own == s.own && t.restarts == s.restarts && t.published == s.published
    ensures CountersGrow(t)
  {
    hide Carried;
    forall pod
      ensures Own(t, pod) == Own(s, pod) && Current(t, pod) == Current(s, pod)
    {
    }
  }

  /** A pass rewrites no Pod's key: it keeps the key as it is or deletes it. */
  lemma ReducedKeysUnchanged(data: Data, live: set<string>, period: string)
    ensures forall k :: k in PartsIn(Reduced(data, live, period), period) && k != RETIRED_KEY ==>
              && k in PartsIn(data, period)
              && PartsIn(Reduced(data, live, period), period)[k] == PartsIn(data, period)[k]
  {
    hide Parsed, RetiredSpend, CurrentSpend, Encoded, Canonical, CANONICAL_KEY, RETIRED_KEY;
  }

  lemma NoKeyNoPart(data: Data, period: string, k: string)
    requires k !in data
    ensures k !in PartsIn(data, period)
  {
  }

  lemma RestartFacts(s: System, period: string, pod: string, p: string)
    ensures
      var s' := Next(s, period, Restart(pod));
      && Own(s', p) == (if p == pod then map[] else Own(s, p))
      && Current(s', p) == if p == pod then (p, Current(s, p).1 + 1) else Current(s, p)
  {
  }

  lemma RestartCounters(s: System, period: string, pod: string)
    requires CountersGrow(s)
    ensures CountersGrow(Next(s, period, Restart(pod)))
  {
    hide Carried;
    var s' := Next(s, period, Restart(pod));
    forall p
      ensures Amounts(Own(s', p))
      ensures forall ns :: Current(s', p) in s'.published ==>
        Get(s'.published[Current(s', p)], ns) <= Get(Own(s', p), ns)
      ensures Current(s, p).1 <= Current(s', p).1
    {
      RestartFacts(s, period, pod, p);
      assert Amounts(Own(s, p));
    }
  }

  lemma RestartKeeps(s: System, period: string, pod: string)
    requires Inv(s, period) && Legal(s, Restart(pod))
    ensures Inv(Next(s, period, Restart(pod)), period)
  {
    hide Merge, Carried, PartsIn, CountersGrow, Own, RETIRED_KEY, CANONICAL_KEY;
    NoKeyNoPart(s.data, period, pod);
    RestartCounters(s, period, pod);
  }

  lemma NextKeeps(s: System, period: string, step: Step)
    requires Inv(s, period) && Legal(s, step)
    ensures Inv(Next(s, period, step), period)
  {
    hide Inv, Next;
    match step {
      case Spending(pod, ns, cost) => SpendKeeps(s, period, pod, ns, cost);
      case Publish(pod, margin) => PublishKeeps(s, period, pod, margin);
      case Reduce(live) => ReduceKeeps(s, period, live);
      case Restart(pod) => RestartKeeps(s, period, pod);
    }
  }

  ghost predicate LegalRun(s: System, period: string, run: seq<Step>)
    decreases |run|
  {
    run == [] || (Legal(s, run[0]) && LegalRun(Next(s, period, run[0]), period, run[1..]))
  }

  ghost function Run(s: System, period: string, run: seq<Step>): System
    decreases |run|
  {
    if run == [] then s else Run(Next(s, period, run[0]), period, run[1..])
  }

  lemma {:induction false} RunKeeps(s: System, period: string, run: seq<Step>)
    requires Inv(s, period) && LegalRun(s, period, run)
    ensures Inv(Run(s, period, run), period)
    decreases |run|
  {
    hide Inv, Next, Legal;
    if run != [] {
      NextKeeps(s, period, run[0]);
      RunKeeps(Next(s, period, run[0]), period, run[1..]);
    }
  }

  /** What a replica enforces against right after a fold: its own counters plus the peer view. */
  ghost function EnforcementView(s: System, period: string, pod: string, ns: string): int {
    Get(Own(s, pod), ns) + Get(PeerView(s.data, pod, period), ns)
  }

  /**
   No under-count over whole runs: for every namespace, the live partials plus `_retired` are at least
   everything every process published last, and so is the view of every replica that folds now.
   */
  lemma NoUnderCount(period: string, run: seq<Step>, pod: string, ns: string)
    requires LegalRun(EMPTY, period, run) && IsPod(pod)
    ensures
      var s := Run(EMPTY, period, run);
      && Get(Merge(s.published), ns) <= Get(Merge(PartsIn(s.data, period)), ns)
      && Get(Merge(s.published), ns) <= EnforcementView(s, period, pod, ns)
  {
    hide LegalRun, Run, PartsIn;
    EmptyInv(period);
    RunKeeps(EMPTY, period, run);
    ViewCovers(Run(EMPTY, period, run), period, pod, ns);
  }

  lemma EmptyInv(period: string)
    ensures Inv(EMPTY, period)
  {
    assert PartsIn(map[], period) == map[];
  }

  lemma ViewCovers(s: System, period: string, pod: string, ns: string)
    requires Inv(s, period) && IsPod(pod)
    ensures Get(Merge(s.published), ns) <= EnforcementView(s, period, pod, ns)
  {
    hide Merge, AddMaps, PartsIn, Carried, Get, RETIRED_KEY, CANONICAL_KEY;
    var parts := PartsIn(s.data, period);
    AmountAt(Own(s, pod), ns);
    if pod in parts {
      MergeSplit(parts, pod);
      AddMapsGet(parts[pod], Merge(parts - {pod}), ns);
    } else {
      assert parts - {pod} == parts;
    }
  }

  // ---- The exact count ----

  /** How far the ConfigMap's total is above the sum of every process's last publish. */
  ghost function Excess(s: System, period: string, ns: string): int {
    Get(Merge(PartsIn(s.data, period)), ns) - Get(Merge(s.published), ns)
  }

  /** What the ConfigMap holds of a Pod's current process as retired: all it published, once its key was pruned. */
  ghost function OwnRetired(s: System, period: string, pod: string, ns: string): int {
    if Current(s, pod) in s.published && pod !in PartsIn(s.data, period)
    then Get(s.published[Current(s, pod)], ns) else 0
  }

  /** What a step counts twice: a publish by a process whose key was pruned repeats what was already retired. */
  ghost function Repeated(s: System, period: string, step: Step, ns: string): int {
    match step
    case Publish(pod, _) => if Own(s, pod) == map[] then 0 else OwnRetired(s, period, pod, ns)
    case Spending(_, _, _) => 0
    case Reduce(_) => 0
    case Restart(_) => 0
  }

  ghost function RepeatedBy(s: System, period: string, run: seq<Step>, ns: string): int
    decreases |run|
  {
    if run == [] then 0 else Repeated(s, period, run[0], ns) + RepeatedBy(Next(s, period, run[0]), period, run[1..], ns)
  }

  lemma PublishExcess(s: System, period: string, pod: string, margin: bool, ns: string)
    requires Inv(s, period) && IsPod(pod) && Own(s, pod) != map[]
    ensures
      var s' := Next(s, period, Publish(pod, margin));
      Excess(s', period, ns) == Excess(s, period, ns) + Repeated(s, period, Publish(pod, margin), ns)
  {
    hide PartsIn, Merge, Encoded, Carried, Get, CANONICAL_KEY, RETIRED_KEY;
    assert Amounts(Own(s, pod));
    PublishParts(s, period, pod, margin);
    PodIsNotRetired(pod);
    MergeUpdate(PartsIn(s.data, period), pod, Own(s, pod), ns);
    MergeUpdate(s.published, Current(s, pod), Own(s, pod), ns);
  }

  lemma PodIsNotRetired(pod: string)
    requires IsPod(pod)
    ensures pod != RETIRED_KEY
  {
  }

  lemma StepExcess(s: System, period: string, step: Step, ns: string)
    requires Inv(s, period) && Legal(s, step)
    ensures Excess(Next(s, period, step), period, ns) == Excess(s, period, ns) + Repeated(s, period, step, ns)
  {
    hide PartsIn, Merge, Encoded, Carried, Reduced, Inv;
    match step {
      case Spending(_, _, _) =>
      case Publish(pod, margin) =>
        if Own(s, pod) != map[] {
          PublishExcess(s, period, pod, margin, ns);
        }
      case Reduce(live) => ReducePreservesTotal(s.data, live, period);
      case Restart(_) =>
    }
  }

  lemma {:induction false} RunExcess(s: System, period: string, run: seq<Step>, ns: string)
    requires Inv(s, period) && LegalRun(s, period, run)
    ensures Excess(Run(s, period, run), period, ns) == Excess(s, period, ns) + RepeatedBy(s, period, run, ns)
    decreases |run|
  {
    hide Inv, Next, Legal, Excess, Repeated;
    if run != [] {
      NextKeeps(s, period, run[0]);
      StepExcess(s, period, run[0], ns);
      RunExcess(Next(s, period, run[0]), period, run[1..], ns);
    }
  }

  /**
   The count is exact but for one thing: over any run, live partials plus `_retired` are the sum of every
   process's last publish plus what processes had published before when they published again after being pruned.
   */
  lemma ExactCount(period: string, run: seq<Step>, ns: string)
    requires LegalRun(EMPTY, period, run)
    ensures
      var s := Run(EMPTY, period, run);
      Get(Merge(PartsIn(s.data, period)), ns) == Get(Merge(s.published), ns) + RepeatedBy(EMPTY, period, run, ns)
  {
    hide LegalRun, Run, RepeatedBy, PartsIn;
    EmptyInv(period);
    RunExcess(EMPTY, period, run, ns);
    NoParts(period);
  }

  lemma NoParts(period: string)
    ensures PartsIn(EMPTY.data, period) == map[]
  {
  }

  // ---- What a fold shows of the others ----

  /** What the processes other than a Pod's current one published last. */
  function PublishedByOthers(s: System, pod: string): map<Process, Spend> { s.published - {Current(s, pod)} }

  /**
   A fold shows what the other processes published last, plus what the ConfigMap counts twice, plus what it
   holds of the folding Pod itself once that was pruned.
   */
  lemma ViewIs(s: System, period: string, pod: string, ns: string)
    requires Inv(s, period) && IsPod(pod)
    ensures Get(PeerView(s.data, pod, period), ns) ==
            Get(Merge(PublishedByOthers(s, pod)), ns) + Excess(s, period, ns) + OwnRetired(s, period, pod, ns)
    ensures Excess(s, period, ns) >= 0 && OwnRetired(s, period, pod, ns) >= 0
  {
    hide Merge, AddMaps, PartsIn, Carried, Get, RETIRED_KEY, CANONICAL_KEY;
    var parts, p := PartsIn(s.data, period), Current(s, pod);
    PodIsNotRetired(pod);
    Without(parts, pod, ns);
    Without(s.published, p, ns);
    if p in s.published {
      AmountAt(s.published[p], ns);
    }
  }

  lemma Without<K>(parts: map<K, Spend>, k: K, ns: string)
    ensures Get(Merge(parts - {k}), ns) == Get(Merge(parts), ns) - if k in parts then Get(parts[k], ns) else 0
  {
    hide Merge, AddMaps, Get;
    if k in parts {
      MergeSplit(parts, k);
      AddMapsGet(parts[k], Merge(parts - {k}), ns);
    } else {
      assert parts - {k} == parts;
    }
  }

  // ---- Reusing a Pod name ----

  /**
   What happens when a process restarts under a name whose key is still there and then publishes: the total
   still covers every process's last publish of a namespace exactly when it did so with room for what the
   overwritten key held.
   */
  lemma NameReuse(s: System, period: string, pod: string, ns: string, cost: int, margin: bool)
    requires Inv(s, period) && IsPod(pod) && Carried(ns) && cost >= 0
    requires pod in PartsIn(s.data, period)
    ensures
      var parts := PartsIn(s.data, period);
      var spent := Next(Next(s, period, Restart(pod)), period, Spending(pod, ns, cost));
      var s' := Next(spent, period, Publish(pod, margin));
      Get(Merge(s'.published), ns) <= Get(Merge(PartsIn(s'.data, period)), ns) <==>
      Get(Merge(s.published), ns) + Get(parts[pod], ns) <= Get(Merge(parts), ns)
  {
    hide Merge, PartsIn, Encoded, Carried, RETIRED_KEY, CANONICAL_KEY;
    var restarted := Next(s, period, Restart(pod));
    var spent := Next(restarted, period, Spending(pod, ns, cost));
    assert Own(spent, pod) == map[ns := cost];
    PublishParts(spent, period, pod, margin);
    MergeUpdate(PartsIn(s.data, period), pod, Own(spent, pod), ns);
    assert Current(spent, pod) !in s.published;
    MergeUpdate(s.published, Current(spent, pod), Own(spent, pod), ns);
  }
}
