/**
 The fleet over its ConfigMap: replicas admit and settle, publish their counters and fold those of the
 others, and the controller prunes in between. What a replica misses at an admission is no longer given
 but follows from what was published and folded, and the overshoot bound is stated in those terms.
 */
module Propagation {
  import opened Totals
  import opened Periods
  import opened Ladder
  import opened Ledger
  import opened LedgerRuns
  import opened Wire
  import opened Fleet
  import X = Exchange

  /** The replicas, the exchange between them, and the exchange as it was when each replica folded last. */
  datatype Joint = Joint(f: seq<World>, x: X.System, folded: seq<X.System>)

  datatype Move =
    | Serve(i: nat, event: Event)
    | Share(i: nat, margin: bool, snapshot: int)
    | Gather(i: nat, time: int)
    | Prune(live: set<string>)

  /** One Pod per replica; no name is used twice within the period. */
  predicate Pods(pods: seq<string>, n: nat) {
    && |pods| == n && (forall i :: 0 <= i < n ==> X.IsPod(pods[i]))
    && forall i, j :: 0 <= i < j < n ==> pods[i] != pods[j]
  }

  /** The settlement of a request that cost something. */
  predicate Lands(w: World, e: Event) {
    e.Finish? && e.call < |w.calls| && !w.calls[e.call].settled && w.calls[e.call].cost != 0
  }

  ghost function Charged(x: X.System, period: string, pod: string, w: World, e: Event): X.System {
    if Lands(w, e) then X.Next(x, period, X.Spending(pod, w.calls[e.call].ns, w.calls[e.call].cost)) else x
  }

  /** The fleet's part of a move; a prune has none. */
  ghost function StepOf(t: Terms, pods: seq<string>, s: Joint, m: Move): Step
    requires !m.Prune? && m.i < |pods|
  {
    match m
    case Serve(i, e) => Step(i, e)
    case Share(i, _, snapshot) => Step(i, Publish(snapshot))
    case Gather(i, time) => Step(i, Fold(PeerView(s.x.data, pods[i], t.period), time))
  }

  ghost function Moved(t: Terms, pods: seq<string>, s: Joint, m: Move): Joint
    requires !m.Prune? ==> m.i < |pods| && |pods| == |s.f| == |s.folded|
  {
    match m
    case Serve(i, e) =>
      s.(f := FleetNext(t.budget.scheme, s.f, StepOf(t, pods, s, m)), x := Charged(s.x, t.period, pods[i], s.f[i], e))
    case Share(i, margin, _) =>
      s.(f := FleetNext(t.budget.scheme, s.f, StepOf(t, pods, s, m)),
         x := X.Next(s.x, t.period, X.Publish(pods[i], margin)))
    case Gather(i, _) =>
      s.(f := FleetNext(t.budget.scheme, s.f, StepOf(t, pods, s, m)), folded := s.folded[i := s.x])
    case Prune(live) => s.(x := X.Next(s.x, t.period, X.Reduce(live)))
  }

  // ---- What a replica misses ----

  function PublishedBy(x: X.System, pod: string): Spend {
    if X.Current(x, pod) in x.published then x.published[X.Current(x, pod)] else map[]
  }

  /** What one replica landed that another's last fold did not see: the part not yet published, and the rest. */
  ghost function Unpublished(pods: seq<string>, s: Joint, j: nat, key: string): int
    requires j < |s.f| == |pods|
  {
    OwnSpend(s.f[j].l, key) - Against(PublishedBy(s.x, pods[j]), key)
  }

  ghost function Unfolded(pods: seq<string>, s: Joint, i: nat, j: nat, key: string): int
    requires i < |s.folded| && j < |pods|
  {
    Against(PublishedBy(s.x, pods[j]), key) - Against(PublishedBy(s.folded[i], pods[j]), key)
  }

  ghost function Lags(pods: seq<string>, s: Joint, i: nat, key: string): seq<int>
    requires i < |s.f| == |pods| == |s.folded|
  {
    seq(|s.f|, j requires 0 <= j < |s.f| =>
      if j == i then 0 else Unpublished(pods, s, j, key) + Unfolded(pods, s, i, j, key))
  }

  /** What the others landed since the publish that a replica's last fold saw of them. */
  ghost function Lag(pods: seq<string>, s: Joint, i: nat, key: string): int
    requires i < |s.f| == |pods| == |s.folded|
  {
    SumSeq(Lags(pods, s, i, key))
  }

  /** What its peer view shows beyond the others' publishes. */
  ghost function Overcount(pods: seq<string>, s: Joint, i: nat, key: string): int
    requires i < |s.f| == |pods| == |s.folded|
  {
    Against(s.f[i].l.peers, key) - Against(Merge(X.PublishedByOthers(s.folded[i], pods[i])), key)
  }

  // ---- The invariant ----

  /** Only the fleet's Pods have published, each under its first process. */
  predicate Known(pods: seq<string>, x: X.System) {
    x.restarts == map[] && Confined(x.published, pods)
  }

  ghost predicate Behind(x: X.System, y: X.System) {
    forall pod, ns :: Get(PublishedBy(x, pod), ns) <= Get(PublishedBy(y, pod), ns)
  }

  ghost predicate Linked(t: Terms, pods: seq<string>, s: Joint, i: nat)
    requires i < |s.f| == |pods| == |s.folded|
  {
    && X.Own(s.x, pods[i]) == s.f[i].l.own
    && s.f[i].l.peers == PeerView(s.folded[i].data, pods[i], t.period)
    && X.Inv(s.folded[i], t.period) && Known(pods, s.folded[i]) && Behind(s.folded[i], s.x)
    && forall n :: 0 <= n < |s.f[i].calls| ==> Carried(s.f[i].calls[n].ns)
  }

  ghost predicate JointInv(t: Terms, pods: seq<string>, s: Joint) {
    && Pods(pods, |s.f|) && |s.folded| == |s.f| && FleetInv(t, s.f)
    && X.Inv(s.x, t.period) && Known(pods, s.x)
    && forall i :: 0 <= i < |s.f| ==> Linked(t, pods, s, i)
  }

  // ---- Sums over the fleet's publishes ----

  lemma AgainstSum(a: Spend, b: Spend, key: string)
    ensures Against(AddMaps(a, b), key) == Against(a, key) + Against(b, key)
  {
    hide AddMaps, Total;
    TotalAddMaps(a, b);
    AddMapsGet(a, b, key);
  }

  function Entry(parts: map<X.Process, Spend>, pod: string): Spend {
    if (pod, 0) in parts then parts[(pod, 0)] else map[]
  }

  ghost function Entries(parts: map<X.Process, Spend>, pods: seq<string>, key: string): seq<int> {
    seq(|pods|, j requires 0 <= j < |pods| => Against(Entry(parts, pods[j]), key))
  }

  /** Only first processes of these Pods. */
  predicate Confined(parts: map<X.Process, Spend>, pods: seq<string>) {
    forall p: X.Process :: p in parts ==> p.1 == 0 && p.0 in pods
  }

  lemma ConfinedRest(parts: map<X.Process, Spend>, pods: seq<string>)
    requires pods != [] && Confined(parts, pods)
    ensures Confined(parts - {(pods[|pods| - 1], 0)}, pods[..|pods| - 1])
  {
  }

  lemma EntriesRest(parts: map<X.Process, Spend>, pods: seq<string>, key: string)
    requires pods != [] && forall i, j :: 0 <= i < j < |pods| ==> pods[i] != pods[j]
    ensures
      var n := |pods| - 1;
      Entries(parts, pods, key)[..n] == Entries(parts - {(pods[n], 0)}, pods[..n], key)
  {
    hide Against;
  }

  /** A merge over the fleet's processes is the sum over its Pods. */
  lemma {:induction false} MergeSum(parts: map<X.Process, Spend>, pods: seq<string>, key: string)
    requires forall i, j :: 0 <= i < j < |pods| ==> pods[i] != pods[j]
    requires Confined(parts, pods)
    ensures Against(Merge(parts), key) == SumSeq(Entries(parts, pods, key))
    decreases |pods|
  {
    hide Merge, AddMaps, Against, Confined;
    NothingAgainst(key);
    if pods == [] {
      NoneConfined(parts);
    } else {
      var n := |pods| - 1;
      var p := (pods[n], 0);
      ConfinedRest(parts, pods);
      MergeSum(parts - {p}, pods[..n], key);
      EntriesRest(parts, pods, key);
      if p in parts {
        MergeSplit(parts, p);
        AgainstSum(parts[p], Merge(parts - {p}), key);
      } else {
        assert parts - {p} == parts;
      }
    }
  }

  lemma NoneConfined(parts: map<X.Process, Spend>)
    requires Confined(parts, [])
    ensures parts == map[]
  {
    assert forall p: X.Process :: p in parts ==> p.0 in [];
  }

  lemma NothingAgainst(key: string)
    ensures Against(map[], key) == 0 && Against(Merge<X.Process>(map[]), key) == 0
  {
    TotalEmpty<string>(map[]);
  }

  function Only(n: nat, i: nat, v: int): seq<int> { seq(n, j => if j == i then v else 0) }

  lemma {:induction false} SumOnly(n: nat, i: nat, v: int)
    ensures SumSeq(Only(n, i, v)) == if i < n then v else 0
  {
    if n > 0 {
      assert Only(n, i, v)[..n - 1] == Only(n - 1, i, v);
      SumOnly(n - 1, i, v);
    }
  }

  lemma OthersEntries(pods: seq<string>, x: X.System, i: nat, j: nat, key: string)
    requires i < |pods| && j < |pods| && Known(pods, x) && Pods(pods, |pods|)
    ensures Against(Entry(X.PublishedByOthers(x, pods[i]), pods[j]), key) ==
            if j == i then 0 else Against(PublishedBy(x, pods[j]), key)
  {
    hide Against;
    NothingAgainst(key);
  }

  /** The balance: settled spend is what the replica sees, plus what it misses, less what it sees too much. */
  lemma MissingIsLag(t: Terms, pods: seq<string>, s: Joint, i: nat, key: string)
    requires JointInv(t, pods, s) && i < |s.f|
    ensures Settled(s.f, key) == Spent(s.f[i].l, key) + Lag(pods, s, i, key) - Overcount(pods, s, i, key)
  {
    hide SumSeq, Against, FleetInv, Merge, PeerView, Behind, Entry, X.Inv, X.PublishedByOthers, PublishedBy;
    var n, x := |s.f|, s.folded[i];
    assert Linked(t, pods, s, i);
    var others := X.PublishedByOthers(x, pods[i]);
    OthersAreKnown(pods, x, i);
    MergeSum(others, pods, key);
    var lags, entries := Lags(pods, s, i, key), Entries(others, pods, key);
    var own := Only(n, i, OwnSpend(s.f[i].l, key));
    SumOnly(n, i, OwnSpend(s.f[i].l, key));
    var part := seq(n, j requires 0 <= j < n => lags[j] + entries[j]);
    SumSeqAdd(lags, entries, part);
    forall j | 0 <= j < n
      ensures Owns(s.f, key)[j] == part[j] + own[j]
    {
      OthersEntries(pods, x, i, j, key);
    }
    SumSeqAdd(part, own, Owns(s.f, key));
    SpentSplits(s.f[i].l, key);
  }

  lemma OthersAreKnown(pods: seq<string>, x: X.System, i: nat)
    requires i < |pods| && Known(pods, x)
    ensures Confined(X.PublishedByOthers(x, pods[i]), pods)
  {
  }

  lemma SpentSplits(l: ProviderLedger, key: string)
    ensures Spent(l, key) == Against(l.own, key) + Against(l.peers, key)
  {
  }

  /** A replica never sees too little of what was published when it folded. */
  lemma OvercountNonNegative(t: Terms, pods: seq<string>, s: Joint, i: nat, key: string)
    requires JointInv(t, pods, s) && i < |s.f|
    ensures Overcount(pods, s, i, key) >= 0
  {
    hide FleetInv, Merge, PeerView, Behind, X.Inv, X.PublishedByOthers, Total, X.Excess, X.OwnRetired;
    assert Linked(t, pods, s, i);
    var others := Merge(X.PublishedByOthers(s.folded[i], pods[i]));
    forall ns: string
      ensures Get(others, ns) <= Get(s.f[i].l.peers, ns)
    {
      X.ViewIs(s.folded[i], t.period, pods[i], ns);
    }
    TotalAtMost(others, s.f[i].l.peers);
  }

  /** Neither part of what a replica misses is ever negative. */
  lemma LagParts(t: Terms, pods: seq<string>, s: Joint, i: nat, j: nat, key: string)
    requires JointInv(t, pods, s) && i < |s.f| && j < |s.f|
    ensures Unpublished(pods, s, j, key) >= 0 && Unfolded(pods, s, i, j, key) >= 0
  {
    hide FleetInv, Merge, PeerView, Total, X.Covered, X.KeysCurrent, Carried;
    assert Linked(t, pods, s, i) && Linked(t, pods, s, j);
    var pod := pods[j];
    assert X.Own(s.x, pod) == s.f[j].l.own;
    forall ns: string
      ensures Get(PublishedBy(s.x, pod), ns) <= Get(s.f[j].l.own, ns)
    {
      assert X.Amounts(X.Own(s.x, pod));
    }
    TotalAtMost(PublishedBy(s.x, pod), s.f[j].l.own);
    assert forall ns: string :: Get(PublishedBy(s.folded[i], pod), ns) <= Get(PublishedBy(s.x, pod), ns);
    TotalAtMost(PublishedBy(s.folded[i], pod), PublishedBy(s.x, pod));
  }

  // ---- Moves keep the invariant ----

  /**
   A move of the run. Namespaces fit the wire layout. When it admits a request against the ceiling, the
   others have landed at most `missing` that the admitting replica has not folded, and the requests in
   flight without the ceiling's slot come to at most `unslotted`.
   */
  ghost predicate LegalMove(t: Terms, pods: seq<string>, s: Joint, m: Move, key: string) {
    m.Prune? ||
    (&& m.i < |s.f| == |pods| == |s.folded|
     && Within(t.budget.scheme, t.period, StepOf(t, pods, s, m).event)
     && (m.Serve? ==>
           && (m.event.Try? || m.event.Finish?) && Allowed(m.event, t.budget, t.cmax)
           && (m.event.Try? ==> Carried(m.event.ns))
           && (AdmitsFor(t, s.f, Step(m.i, m.event), key) ==>
                 && Lag(pods, s, m.i, key) <= t.missing
                 && Unslotted(FleetNext(t.budget.scheme, s.f, Step(m.i, m.event)), key) <= t.unslotted)))
  }

  /** In the fleet's terms, what the admitting replica misses is within the bound. */
  lemma MoveIsLegal(t: Terms, pods: seq<string>, s: Joint, m: Move, key: string)
    requires JointInv(t, pods, s) && LegalMove(t, pods, s, m, key) && !m.Prune?
    ensures Legal(t, s.f, StepOf(t, pods, s, m), key)
  {
    hide JointInv, Settled, Spent, Lag, Overcount, PeerView, Next, FleetNext;
    if m.Serve? && AdmitsFor(t, s.f, Step(m.i, m.event), key) {
      MissingIsLag(t, pods, s, m.i, key);
      OvercountNonNegative(t, pods, s, m.i, key);
    }
  }

  lemma TryOwn(scheme: Scheme, w: World, e: Event)
    requires Within(scheme, w.l.period, e) && e.Try?
    ensures Next(scheme, w, e).l.own == w.l.own && Next(scheme, w, e).l.peers == w.l.peers
  {
    hide PeriodKey, Judge, MarginWidened, Acquired;
    TouchWithin(scheme, w, e.time);
  }

  function Paid(own: Spend, c: Call): Spend { if c.cost == 0 then own else own[c.ns := Get(own, c.ns) + c.cost] }

  lemma FinishOwn(scheme: Scheme, w: World, n: nat, time: int)
    requires n < |w.calls|
    ensures
      var w' := Finished(scheme, w, n, time);
      w'.l.peers == w.l.peers && w'.l.own == Paid(w.l.own, w.calls[n])
  {
    hide Landed, Freed;
    var c := w.calls[n];
    var l := if c.keys != {} && w.l.period == c.period then w.l.(adm := Freed(w.l.adm, c.keys, c.token)) else w.l;
    LandedIsSpendOnly(l, c.ns, c.workload, c.cost, time);
  }

  /** Serving changes a replica's own counters by what lands, and its peer view not at all. */
  lemma ServeOwn(scheme: Scheme, w: World, e: Event)
    requires Within(scheme, w.l.period, e) && (e.Try? || e.Finish?)
    ensures
      var w' := Next(scheme, w, e);
      w'.l.peers == w.l.peers && w'.l.own == if Lands(w, e) then Paid(w.l.own, w.calls[e.call]) else w.l.own
  {
    hide PeriodKey, Finished, Judge, MarginWidened;
    if e.Try? {
      TryOwn(scheme, w, e);
    } else if e.call < |w.calls| && !w.calls[e.call].settled {
      TouchWithin(scheme, w, e.time);
      FinishOwn(scheme, w.(now := e.time), e.call, e.time);
    }
  }

  /** The calls of a replica keep their namespaces, and a new one's is the request's. */
  lemma StepNames(scheme: Scheme, w: World, e: Event)
    requires forall n :: 0 <= n < |w.calls| ==> Carried(w.calls[n].ns)
    requires e.Try? ==> Carried(e.ns)
    ensures forall n :: 0 <= n < |Next(scheme, w, e).calls| ==> Carried(Next(scheme, w, e).calls[n].ns)
  {
    hide PeriodKey, Judge, MarginWidened, Landed, Carried, AfterSettle;
  }

  lemma SameExchange(t: Terms, pods: seq<string>, s: Joint, s': Joint, i: nat)
    requires i < |s.f| == |s'.f| == |pods| == |s.folded| && s'.folded == s.folded
    requires Linked(t, pods, s, i) && s'.f[i].l.peers == s.f[i].l.peers
    requires X.Own(s'.x, pods[i]) == s'.f[i].l.own && Behind(s.x, s'.x)
    requires forall n :: 0 <= n < |s'.f[i].calls| ==> Carried(s'.f[i].calls[n].ns)
    ensures Linked(t, pods, s', i)
  {
    hide PeerView, X.Inv, Carried, PublishedBy, Known;
  }

  lemma SpendingOwn(x: X.System, period: string, pod: string, ns: string, cost: int, p: string)
    ensures
      var y := X.Next(x, period, X.Spending(pod, ns, cost));
      && X.Own(y, p) == (if p == pod then X.Own(x, p)[ns := Get(X.Own(x, p), ns) + cost] else X.Own(x, p))
      && y.published == x.published && y.restarts == x.restarts
  {
  }

  lemma SamePublishes(x: X.System, y: X.System)
    requires y.published == x.published && y.restarts == x.restarts
    ensures Behind(x, y)
  {
  }

  lemma ServeKeeps(t: Terms, pods: seq<string>, s: Joint, m: Move, key: string)
    requires JointInv(t, pods, s) && LegalMove(t, pods, s, m, key) && m.Serve?
    ensures JointInv(t, pods, Moved(t, pods, s, m))
  {
    hide Next, Settled, Spent, Lag, Unslotted, PeerView, AdmitsFor, FleetInv, X.Inv, Carried, X.Next, Behind, X.Own,
         Linked, Charged, Known, Allowed, Within, Paid;
    var s', w, pod := Moved(t, pods, s, m), s.f[m.i], pods[m.i];
    MoveIsLegal(t, pods, s, m, key);
    FleetNextKeeps(t, s.f, Step(m.i, m.event), key);
    ReplicaPeriod(t, s.f, m.i);
    ServeOwn(t.budget.scheme, w, m.event);
    ChargeKeeps(t, pods, s, m, key);
    LinkedFacts(t, pods, s, m.i);
    StepNames(t.budget.scheme, w, m.event);
    forall i | 0 <= i < |s.f|
      ensures Linked(t, pods, s', i)
    {
      LinkedFacts(t, pods, s, i);
      SameExchange(t, pods, s, s', i);
    }
  }

  lemma ReplicaPeriod(t: Terms, f: seq<World>, i: nat)
    requires FleetInv(t, f) && i < |f|
    ensures f[i].l.period == t.period && forall n :: 0 <= n < |f[i].calls| ==> f[i].calls[n].cost >= 0
  {
    assert ReplicaInv(f[i], t.period, t.cmax);
  }

  lemma LinkedFacts(t: Terms, pods: seq<string>, s: Joint, i: nat)
    requires i < |s.f| == |pods| == |s.folded| && Linked(t, pods, s, i)
    ensures X.Own(s.x, pods[i]) == s.f[i].l.own
    ensures forall n :: 0 <= n < |s.f[i].calls| ==> Carried(s.f[i].calls[n].ns)
  {
  }

  /** The exchange follows: a landed cost is charged to the replica's Pod. */
  lemma ChargeKeeps(t: Terms, pods: seq<string>, s: Joint, m: Move, key: string)
    requires JointInv(t, pods, s) && m.Serve? && m.i < |s.f|
    ensures
      var x := Charged(s.x, t.period, pods[m.i], s.f[m.i], m.event);
      && X.Inv(x, t.period) && Known(pods, x) && Behind(s.x, x)
      && (forall i :: 0 <= i < |s.f| && i != m.i ==> X.Own(x, pods[i]) == s.f[i].l.own)
      && X.Own(x, pods[m.i]) ==
         if Lands(s.f[m.i], m.event) then Paid(s.f[m.i].l.own, s.f[m.i].calls[m.event.call]) else s.f[m.i].l.own
  {
    hide FleetInv, X.Inv, Carried, X.Next, Behind, X.Own, Linked, Get;
    var w, pod := s.f[m.i], pods[m.i];
    forall i | 0 <= i < |s.f|
      ensures X.Own(s.x, pods[i]) == s.f[i].l.own
    {
      LinkedFacts(t, pods, s, i);
    }
    LinkedFacts(t, pods, s, m.i);
    ReplicaPeriod(t, s.f, m.i);
    if Lands(w, m.event) {
      var c := w.calls[m.event.call];
      X.NextKeeps(s.x, t.period, X.Spending(pod, c.ns, c.cost));
      forall p
        ensures X.Own(Charged(s.x, t.period, pod, w, m.event), p) ==
                if p == pod then X.Own(s.x, p)[c.ns := Get(X.Own(s.x, p), c.ns) + c.cost] else X.Own(s.x, p)
      {
        SpendingOwn(s.x, t.period, pod, c.ns, c.cost, p);
      }
      SpendingOwn(s.x, t.period, pod, c.ns, c.cost, pod);
    }
    SamePublishes(s.x, Charged(s.x, t.period, pod, w, m.event));
  }

  /** A publish brings its Pod's entry up to its counters and leaves the rest. */
  lemma PublishFacts(x: X.System, period: string, pods: seq<string>, pod: string, margin: bool)
    requires X.Inv(x, period) && X.IsPod(pod) && pod in pods && Known(pods, x)
    ensures
      var y := X.Next(x, period, X.Publish(pod, margin));
      X.Inv(y, period) && Known(pods, y) && Behind(x, y) && forall p :: X.Own(y, p) == X.Own(x, p)
  {
    hide PartsIn, Merge, Encoded, Carried, X.Covered, X.KeysCurrent;
    X.NextKeeps(x, period, X.Publish(pod, margin));
    var y := X.Next(x, period, X.Publish(pod, margin));
    forall p, ns
      ensures Get(PublishedBy(x, p), ns) <= Get(PublishedBy(y, p), ns)
    {
      assert X.Amounts(X.Own(x, p));
    }
  }

  lemma ShareKeeps(t: Terms, pods: seq<string>, s: Joint, m: Move, key: string)
    requires JointInv(t, pods, s) && LegalMove(t, pods, s, m, key) && m.Share?
    ensures JointInv(t, pods, Moved(t, pods, s, m))
  {
    hide Settled, Spent, Lag, Unslotted, PeerView, FleetInv, X.Inv, Carried, X.Next, Behind, X.Own, Linked, Known;
    var s' := Moved(t, pods, s, m);
    MoveIsLegal(t, pods, s, m, key);
    FleetNextKeeps(t, s.f, StepOf(t, pods, s, m), key);
    PublishFacts(s.x, t.period, pods, pods[m.i], m.margin);
    forall i | 0 <= i < |s.f|
      ensures Linked(t, pods, s', i)
    {
      LinkedFacts(t, pods, s, i);
      SameExchange(t, pods, s, s', i);
    }
  }

  lemma FoldOwn(scheme: Scheme, w: World, peers: Spend, time: int)
    requires PeriodKey(scheme, time) == w.l.period
    ensures
      var w' := Next(scheme, w, Fold(peers, time));
      w'.l.own == w.l.own && w'.l.peers == peers && w'.calls == w.calls
  {
    hide PeriodKey;
    TouchWithin(scheme, w, time);
  }

  lemma GatherKeeps(t: Terms, pods: seq<string>, s: Joint, m: Move, key: string)
    requires JointInv(t, pods, s) && LegalMove(t, pods, s, m, key) && m.Gather?
    ensures JointInv(t, pods, Moved(t, pods, s, m))
  {
    hide Settled, Spent, Lag, Unslotted, PeerView, FleetInv, X.Inv, Carried, Behind, X.Own, Known, Next;
    var s' := Moved(t, pods, s, m);
    MoveIsLegal(t, pods, s, m, key);
    FleetNextKeeps(t, s.f, StepOf(t, pods, s, m), key);
    ReplicaPeriod(t, s.f, m.i);
    FoldOwn(t.budget.scheme, s.f[m.i], PeerView(s.x.data, pods[m.i], t.period), m.time);
    SamePublishes(s.x, s.x);
    forall i | 0 <= i < |s.f|
      ensures Linked(t, pods, s', i)
    {
      assert Linked(t, pods, s, i);
    }
  }

  lemma PruneKeeps(t: Terms, pods: seq<string>, s: Joint, m: Move)
    requires JointInv(t, pods, s) && m.Prune?
    ensures JointInv(t, pods, Moved(t, pods, s, m))
  {
    hide PeerView, FleetInv, X.Inv, Carried, Behind, Linked;
    var s' := Moved(t, pods, s, m);
    X.NextKeeps(s.x, t.period, X.Reduce(m.live));
    SamePublishes(s.x, s'.x);
    forall i | 0 <= i < |s.f|
      ensures Linked(t, pods, s', i)
    {
      LinkedFacts(t, pods, s, i);
      SameExchange(t, pods, s, s', i);
    }
  }

  lemma MoveKeeps(t: Terms, pods: seq<string>, s: Joint, m: Move, key: string)
    requires JointInv(t, pods, s) && LegalMove(t, pods, s, m, key)
    ensures JointInv(t, pods, Moved(t, pods, s, m))
  {
    hide JointInv, LegalMove, Moved;
    match m {
      case Serve(_, _) => ServeKeeps(t, pods, s, m, key);
      case Share(_, _, _) => ShareKeeps(t, pods, s, m, key);
      case Gather(_, _) => GatherKeeps(t, pods, s, m, key);
      case Prune(_) => PruneKeeps(t, pods, s, m);
    }
  }

  // ---- Runs ----

  ghost predicate LegalMoves(t: Terms, pods: seq<string>, s: Joint, ms: seq<Move>, key: string)
    decreases |ms|
  {
    ms == [] || (LegalMove(t, pods, s, ms[0], key) && LegalMoves(t, pods, Moved(t, pods, s, ms[0]), ms[1..], key))
  }

  ghost function After(t: Terms, pods: seq<string>, s: Joint, ms: seq<Move>, key: string): Joint
    requires LegalMoves(t, pods, s, ms, key)
    decreases |ms|
  {
    if ms == [] then s else After(t, pods, Moved(t, pods, s, ms[0]), ms[1..], key)
  }

  function Begin(scheme: Scheme, replicas: nat, time: int): Joint {
    Joint(StartFleet(scheme, replicas, time), X.EMPTY, seq(replicas, _ => X.EMPTY))
  }

  lemma BeginInv(t: Terms, pods: seq<string>, replicas: nat, time: int, key: string)
    requires Governed(t, key) && PeriodKey(t.budget.scheme, time) == t.period && Pods(pods, replicas)
    ensures
      var s := Begin(t.budget.scheme, replicas, time);
      JointInv(t, pods, s) && Bounded(t, s.f, key)
  {
    hide PeriodKey, FleetInv, Bounded, X.Inv, Governed;
    FreshFleet(t, replicas, time, key);
    X.EmptyInv(t.period);
    SamePublishes(X.EMPTY, X.EMPTY);
    X.NoParts(t.period);
  }

  /** Every move keeps the overshoot bound. */
  lemma MoveBounded(t: Terms, pods: seq<string>, s: Joint, m: Move, key: string)
    requires Sound(t, key) && JointInv(t, pods, s) && Bounded(t, s.f, key) && LegalMove(t, pods, s, m, key)
    ensures Bounded(t, Moved(t, pods, s, m).f, key)
  {
    hide Sound, FleetInv, Bounded, Legal, LegalMove, FleetNext, X.Inv, Linked, Known, Charged, PeerView;
    if !m.Prune? {
      MoveIsLegal(t, pods, s, m, key);
      InRange(t, pods, s, m, key);
      StepBounded(t, s.f, StepOf(t, pods, s, m), key);
    }
  }

  lemma InRange(t: Terms, pods: seq<string>, s: Joint, m: Move, key: string)
    requires LegalMove(t, pods, s, m, key)
    ensures !m.Prune? ==> m.i < |pods| && |pods| == |s.f| == |s.folded|
    ensures |Moved(t, pods, s, m).f| == |s.f|
  {
    hide PeerView, X.Next, Next;
  }

  lemma {:induction false} MovesKeep(t: Terms, pods: seq<string>, s: Joint, ms: seq<Move>, key: string)
    requires JointInv(t, pods, s) && LegalMoves(t, pods, s, ms, key)
    ensures JointInv(t, pods, After(t, pods, s, ms, key)) && |After(t, pods, s, ms, key).f| == |s.f|
    decreases |ms|
  {
    hide JointInv, LegalMove, Moved;
    if ms != [] {
      InRange(t, pods, s, ms[0], key);
      MoveKeeps(t, pods, s, ms[0], key);
      MovesKeep(t, pods, Moved(t, pods, s, ms[0]), ms[1..], key);
    }
  }

  lemma {:induction false} MovesBounded(t: Terms, pods: seq<string>, s: Joint, ms: seq<Move>, key: string)
    requires Sound(t, key) && JointInv(t, pods, s) && Bounded(t, s.f, key) && LegalMoves(t, pods, s, ms, key)
    ensures Bounded(t, After(t, pods, s, ms, key).f, key)
    decreases |ms|
  {
    hide Sound, JointInv, Bounded, LegalMove, Moved;
    if ms != [] {
      InRange(t, pods, s, ms[0], key);
      MoveBounded(t, pods, s, ms[0], key);
      MoveKeeps(t, pods, s, ms[0], key);
      MovesBounded(t, pods, Moved(t, pods, s, ms[0]), ms[1..], key);
    }
  }

  /**
   The overshoot bound in terms of propagation: over any run of admissions, settlements, publishes, folds and
   prunes, settled plus in-flight spend stays within the block threshold, plus the most that others had
   landed and the admitting replica had not folded, plus one request per replica, plus the requests in
   flight without a slot.
   */
  lemma PropagatedOvershootBound(t: Terms, pods: seq<string>, replicas: nat, time: int, ms: seq<Move>, key: string)
    requires Sound(t, key) && PeriodKey(t.budget.scheme, time) == t.period && Pods(pods, replicas)
    requires LegalMoves(t, pods, Begin(t.budget.scheme, replicas, time), ms, key)
    ensures
      var f := After(t, pods, Begin(t.budget.scheme, replicas, time), ms, key).f;
      100 * FleetLoad(f, key) <=
      MinBlockAt(t.budget.policies) * Ceiling(t.budget, key) + 100 * (t.missing + replicas * t.cmax + t.unslotted)
  {
    hide LegalMoves, PeriodKey, MinBlockAt, After, JointInv, Governed;
    BeginInv(t, pods, replicas, time, key);
    MovesKeep(t, pods, Begin(t.budget.scheme, replicas, time), ms, key);
    MovesBounded(t, pods, Begin(t.budget.scheme, replicas, time), ms, key);
  }

  /**
   And what a replica misses is what the others landed since, less what its view counts too much. Of a
   namespace that is what the ConfigMap counted twice when it folded, and its own spend if it was pruned then.
   */
  lemma MissingInRuns(t: Terms, pods: seq<string>, replicas: nat, time: int, ms: seq<Move>, i: nat, key: string)
    requires Governed(t, key) && PeriodKey(t.budget.scheme, time) == t.period && Pods(pods, replicas) && i < replicas
    requires LegalMoves(t, pods, Begin(t.budget.scheme, replicas, time), ms, key)
    ensures
      var s := After(t, pods, Begin(t.budget.scheme, replicas, time), ms, key);
      && |s.f| == |s.folded| == replicas
      && Settled(s.f, key) == Spent(s.f[i].l, key) + Lag(pods, s, i, key) - Overcount(pods, s, i, key)
      && Overcount(pods, s, i, key) >= 0
      && (key != CLUSTER_SLOT ==>
            Overcount(pods, s, i, key) ==
            X.Excess(s.folded[i], t.period, key) + X.OwnRetired(s.folded[i], t.period, pods[i], key))
      && forall j :: 0 <= j < replicas ==> Unpublished(pods, s, j, key) >= 0 && Unfolded(pods, s, i, j, key) >= 0
  {
    hide LegalMoves, PeriodKey, After, Governed, Settled, Spent, Lag, Linked, FleetInv, X.Inv, Unpublished, Unfolded,
         PeerView, Merge, X.PublishedByOthers;
    BeginInv(t, pods, replicas, time, key);
    MovesKeep(t, pods, Begin(t.budget.scheme, replicas, time), ms, key);
    var s := After(t, pods, Begin(t.budget.scheme, replicas, time), ms, key);
    MissingIsLag(t, pods, s, i, key);
    OvercountNonNegative(t, pods, s, i, key);
    OvercountIs(t, pods, s, i, key);
    forall j | 0 <= j < replicas
      ensures Unpublished(pods, s, j, key) >= 0 && Unfolded(pods, s, i, j, key) >= 0
    {
      LagParts(t, pods, s, i, j, key);
    }
  }

  lemma OvercountIs(t: Terms, pods: seq<string>, s: Joint, i: nat, ns: string)
    requires JointInv(t, pods, s) && i < |s.f|
    ensures ns != CLUSTER_SLOT ==>
              Overcount(pods, s, i, ns) ==
              X.Excess(s.folded[i], t.period, ns) + X.OwnRetired(s.folded[i], t.period, pods[i], ns)
  {
    hide FleetInv, Merge, PeerView, Behind, X.Inv, X.PublishedByOthers, Total, X.Excess, X.OwnRetired;
    assert Linked(t, pods, s, i);
    X.ViewIs(s.folded[i], t.period, pods[i], ns);
  }

  // ---- Exactly, while nobody uses the ConfigMap after it was pruned from it ----

  /** A replica that publishes or folds still has its key, if it ever published. */
  ghost predicate Present(t: Terms, pods: seq<string>, s: Joint, m: Move) {
    (m.Share? || m.Gather?) && m.i < |pods| && X.Current(s.x, pods[m.i]) in s.x.published ==>
      pods[m.i] in PartsIn(s.x.data, t.period)
  }

  ghost predicate PresentMoves(t: Terms, pods: seq<string>, s: Joint, ms: seq<Move>, key: string)
    requires LegalMoves(t, pods, s, ms, key)
    decreases |ms|
  {
    ms == [] || (Present(t, pods, s, ms[0]) && PresentMoves(t, pods, Moved(t, pods, s, ms[0]), ms[1..], key))
  }

  ghost predicate Exact(t: Terms, pods: seq<string>, s: Joint) {
    && |pods| == |s.folded|
    && (forall ns :: X.Excess(s.x, t.period, ns) == 0)
    && forall i, ns :: 0 <= i < |pods| ==>
                         && X.Excess(s.folded[i], t.period, ns) == 0
                         && X.OwnRetired(s.folded[i], t.period, pods[i], ns) == 0
  }

  lemma ExchangeExact(x: X.System, period: string, step: X.Step)
    requires X.Inv(x, period) && X.Legal(x, step) && forall ns :: X.Excess(x, period, ns) == 0
    requires step.Publish? && X.Current(x, step.pod) in x.published ==> step.pod in PartsIn(x.data, period)
    ensures forall ns :: X.Excess(X.Next(x, period, step), period, ns) == 0
  {
    hide X.Inv, X.Legal, X.Excess, X.Next, PartsIn;
    forall ns
      ensures X.Excess(X.Next(x, period, step), period, ns) == 0
    {
      X.StepExcess(x, period, step, ns);
    }
  }

  lemma MoveExact(t: Terms, pods: seq<string>, s: Joint, m: Move, key: string)
    requires JointInv(t, pods, s) && LegalMove(t, pods, s, m, key) && Exact(t, pods, s) && Present(t, pods, s, m)
    ensures Exact(t, pods, Moved(t, pods, s, m))
  {
    hide FleetInv, X.Inv, X.Excess, X.Next, PartsIn, FleetNext, Lag, Unslotted, AdmitsFor, PeerView, Carried, Linked,
         Known, Within, Allowed;
    match m {
      case Serve(i, e) =>
        LinkedFacts(t, pods, s, i);
        ReplicaPeriod(t, s.f, i);
        if Lands(s.f[i], e) {
          ExchangeExact(s.x, t.period, X.Spending(pods[i], s.f[i].calls[e.call].ns, s.f[i].calls[e.call].cost));
        }
      case Share(i, margin, _) => ExchangeExact(s.x, t.period, X.Publish(pods[i], margin));
      case Gather(_, _) =>
      case Prune(live) => ExchangeExact(s.x, t.period, X.Reduce(live));
    }
  }

  lemma {:induction false} MovesExact(t: Terms, pods: seq<string>, s: Joint, ms: seq<Move>, key: string)
    requires JointInv(t, pods, s) && Exact(t, pods, s)
    requires LegalMoves(t, pods, s, ms, key) && PresentMoves(t, pods, s, ms, key)
    ensures
      var s' := After(t, pods, s, ms, key);
      JointInv(t, pods, s') && Exact(t, pods, s') && |s'.f| == |s.f|
    decreases |ms|
  {
    hide JointInv, LegalMove, Moved, Exact, Present;
    if ms != [] {
      InRange(t, pods, s, ms[0], key);
      MoveExact(t, pods, s, ms[0], key);
      MoveKeeps(t, pods, s, ms[0], key);
      MovesExact(t, pods, Moved(t, pods, s, ms[0]), ms[1..], key);
    }
  }

  lemma BeginExact(t: Terms, pods: seq<string>, replicas: nat, time: int)
    requires |pods| == replicas
    ensures Exact(t, pods, Begin(t.budget.scheme, replicas, time))
  {
    X.NoParts(t.period);
  }

  lemma NoOvercount(t: Terms, pods: seq<string>, s: Joint, i: nat, key: string)
    requires JointInv(t, pods, s) && Exact(t, pods, s) && i < |s.f|
    ensures Overcount(pods, s, i, key) == 0
  {
    hide FleetInv, Merge, PeerView, Behind, X.Inv, X.PublishedByOthers, Total, X.Excess, X.OwnRetired;
    assert Linked(t, pods, s, i);
    var peers, others := s.f[i].l.peers, Merge(X.PublishedByOthers(s.folded[i], pods[i]));
    forall ns: string
      ensures Get(peers, ns) == Get(others, ns)
    {
      X.ViewIs(s.folded[i], t.period, pods[i], ns);
    }
    TotalAtMost(peers, others);
    TotalAtMost(others, peers);
  }

  /** Then a replica misses exactly what the others landed since the publish its last fold saw. */
  lemma MissingExactly(t: Terms, pods: seq<string>, replicas: nat, time: int, ms: seq<Move>, i: nat, key: string)
    requires Governed(t, key) && PeriodKey(t.budget.scheme, time) == t.period && Pods(pods, replicas) && i < replicas
    requires LegalMoves(t, pods, Begin(t.budget.scheme, replicas, time), ms, key)
    requires PresentMoves(t, pods, Begin(t.budget.scheme, replicas, time), ms, key)
    ensures
      var s := After(t, pods, Begin(t.budget.scheme, replicas, time), ms, key);
      && |s.f| == |s.folded| == replicas
      && Settled(s.f, key) == Spent(s.f[i].l, key) + Lag(pods, s, i, key)
  {
    hide LegalMoves, PresentMoves, PeriodKey, After, Governed, Settled, Spent, Lag, Linked, FleetInv, X.Inv, Overcount,
         Exact;
    BeginInv(t, pods, replicas, time, key);
    BeginExact(t, pods, replicas, time);
    MovesExact(t, pods, Begin(t.budget.scheme, replicas, time), ms, key);
    var s := After(t, pods, Begin(t.budget.scheme, replicas, time), ms, key);
    MissingIsLag(t, pods, s, i, key);
    NoOvercount(t, pods, s, i, key);
  }
}
