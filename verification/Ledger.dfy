/**
 One gateway replica's budget ledger: spend counters with period rollover, the peer view, and hard
 enforcement's token-held admission slots. The clock and the live replica count are parameters.
 */
module Ledger {
  import opened Totals
  import opened Decimal
  import opened Periods
  import opened Ladder
  import opened Wire

  /** The slot key of the provider-wide ceiling; namespaces cannot be empty. */
  const CLUSTER_SLOT := ""

  const PUBLISH_INTERVAL := 10 * NS_PER_SECOND
  const STALENESS_WINDOW := 3 * PUBLISH_INTERVAL
  const RATE_BUCKET := 10 * NS_PER_SECOND

  /** Observed traffic within the period: the largest single cost, and the peak rate over fixed buckets. */
  datatype Tracker = Tracker(maxCost: int, bucketStart: Option<int>, bucketSum: int, peakRate: real)

  const NO_TRAFFIC := Tracker(0, None, 0, 0.0)

  datatype ProviderLedger = ProviderLedger(
    period: string,
    own: Spend, peers: Spend, ownW: Spend, peersW: Spend,
    adm: map<string, nat>, nextToken: nat, tracker: Tracker,
    dirtySince: Option<int>, lastFold: Option<int>, marginRaised: bool)

  function FreshLedger(period: string): ProviderLedger {
    ProviderLedger(period, map[], map[], map[], map[], map[], 0, NO_TRAFFIC, None, None, false)
  }

  /** Rollover resets the counters, the slots and the traffic tracker; tokens keep counting. */
  function Rolled(l: ProviderLedger, period: string): ProviderLedger {
    if l.period == period then l
    else l.(period := period, own := map[], peers := map[], ownW := map[], peersW := map[], adm := map[],
            tracker := NO_TRAFFIC, marginRaised := false)
  }

  /** The ledger `ledgerFor` returns: created on first use, rolled to the clock's period. */
  function LedgerFor(providers: map<string, ProviderLedger>, name: string, period: string): ProviderLedger {
    if name in providers then Rolled(providers[name], period) else FreshLedger(period)
  }

  // ---- Landing a cost ----

  function WorkloadKey(ns: string, workload: string): string { ns + "/" + workload }

  function Observe(t: Tracker, cost: int, now: int): Tracker {
    if cost <= 0 then t else
      var t := if cost > t.maxCost then t.(maxCost := cost) else t;
      var t := if t.bucketStart == None || now - t.bucketStart.value >= RATE_BUCKET then
                 var rate := t.bucketSum as real / 10.0;
                 var peak := if t.bucketStart.Some? && rate > t.peakRate then rate else t.peakRate;
                 t.(peakRate := peak, bucketStart := Some(now), bucketSum := 0)
               else t;
      t.(bucketSum := t.bucketSum + cost)
  }

  function Landed(l: ProviderLedger, ns: string, workload: string, cost: int, now: int): ProviderLedger {
    var w := WorkloadKey(ns, workload);
    l.(own := l.own[ns := Get(l.own, ns) + cost], ownW := l.ownW[w := Get(l.ownW, w) + cost],
       tracker := Observe(l.tracker, cost, now),
       dirtySince := if l.dirtySince == None then Some(now) else l.dirtySince)
  }

  lemma LandedMarks(l: ProviderLedger, ns: string, workload: string, cost: int, now: int)
    ensures Landed(l, ns, workload, cost, now).dirtySince == if l.dirtySince == None then Some(now) else l.dirtySince
  {
    hide Observe;
  }

  // ---- Reading the ledger ----

  ghost function ClusterSpent(l: ProviderLedger): int { Total(l.own) + Total(l.peers) }

  /** The enforcement view of one ceiling: own live counters plus the folded peers. */
  ghost function Spent(l: ProviderLedger, key: string): int {
    if key == CLUSTER_SLOT then ClusterSpent(l) else Get(l.own, key) + Get(l.peers, key)
  }

  function Percent(spent: int, ceiling: nat): real {
    if ceiling == 0 then 0.0 else spent as real / ceiling as real * 100.0
  }

  lemma PercentReached(spent: int, ceiling: nat, at: int)
    requires ceiling > 0
    ensures Percent(spent, ceiling) >= at as real <==> 100 * spent >= at * ceiling
  {
    var s, c, a := spent as real, ceiling as real, at as real;
    if s / c * 100.0 >= a {
      assert s / c * c == s;
      assert s / c * 100.0 * c >= a * c;
      assert s * 100.0 >= a * c;
    } else {
      assert s / c * 100.0 * c < a * c;
      assert s * 100.0 < a * c;
    }
    assert (100 * spent) as real == s * 100.0;
    assert (at * ceiling) as real == a * c;
  }

  lemma ZeroPercent(ceiling: nat)
    ensures Percent(0, ceiling) == 0.0
  {
  }

  /** The worse of the two ceilings' utilizations, the namespace's when they tie. */
  ghost function Worst(budget: Budget, l: ProviderLedger, ns: string): real {
    var n := Percent(Get(l.own, ns) + Get(l.peers, ns), budget.nsCeiling);
    var c := Percent(ClusterSpent(l), budget.clusterCeiling);
    if budget.clusterCeiling > 0 && c > n then c else n
  }

  /** One request of the largest cost per replica, plus what peers may have settled within the staleness window. */
  function MarginAmount(t: Tracker, reps: real): real {
    Times(reps, t.maxCost as real) + Times(reps - 1.0, t.peakRate) * 30.0
  }

  /** A named product, so that proofs can treat it as one quantity. */
  function Times(a: real, b: real): real { a * b }

  function Replicas(replicas: int): real {
    if replicas > 1 then replicas as real else 1.0
  }

  /** The boundary margin in percentage points: the configured floor, widened from observed traffic. */
  function EffectiveMargin(l: ProviderLedger, ceiling: nat, configured: int, replicas: int): real {
    var margin := MarginAmount(l.tracker, Replicas(replicas));
    if ceiling == 0 then configured as real
    else if 100.0 * margin / ceiling as real > configured as real then 100.0 * margin / ceiling as real
    else configured as real
  }

  predicate InBoundary(l: ProviderLedger, budget: Budget, spent: int, ceiling: nat, replicas: int) {
    && ceiling > 0
    && Percent(spent, ceiling) >=
       MinBlockAt(budget.policies) as real - EffectiveMargin(l, ceiling, ConfiguredMargin(budget), replicas)
  }

  /** The governed ceilings whose boundary region the next request falls into. */
  ghost function BoundaryKeys(l: ProviderLedger, budget: Budget, ns: string, replicas: int): set<string> {
    (if InBoundary(l, budget, Get(l.own, ns) + Get(l.peers, ns), budget.nsCeiling, replicas) then {ns} else {}) +
    (if InBoundary(l, budget, ClusterSpent(l), budget.clusterCeiling, replicas) then {CLUSTER_SLOT} else {})
  }

  /** Unpublished settles or a peer view older than the staleness window: budget state is unverified. */
  predicate Unverified(l: ProviderLedger, now: int) {
    || (l.dirtySince.Some? && now - l.dirtySince.value > STALENESS_WINDOW)
    || l.lastFold == None || now - l.lastFold.value > STALENESS_WINDOW
  }

  datatype Verdict = Blocked | Throttled | Unavailable | Free | Slotted(keys: set<string>)

  predicate Held(l: ProviderLedger, budget: Budget, ns: string) {
    ns in l.adm || (CLUSTER_SLOT in l.adm && budget.clusterCeiling > 0)
  }

  /** What admission makes of a request: refused, free, or admitted against these slots. */
  ghost function Judge(budget: Budget, l: ProviderLedger, ns: string, now: int, replicas: int): Verdict {
    if BlocksAt(budget.policies, Worst(budget, l, ns)) then Blocked
    else if !(budget.hard && HasBlock(budget.policies)) then Free
    else if Held(l, budget, ns) then Throttled
    else
      var keys := BoundaryKeys(l, budget, ns, replicas);
      if keys == {} then Free else if Unverified(l, now) then Unavailable else Slotted(keys)
  }

  predicate MarginWidened(l: ProviderLedger, budget: Budget, keys: set<string>, ns: string, replicas: int) {
    var configured := ConfiguredMargin(budget);
    || (ns in keys && budget.nsCeiling > 0
        && EffectiveMargin(l, budget.nsCeiling, configured, replicas) > configured as real)
    || (CLUSTER_SLOT in keys && budget.clusterCeiling > 0
        && EffectiveMargin(l, budget.clusterCeiling, configured, replicas) > configured as real)
  }

  // ---- Taking and freeing slots ----

  /** The slots of one admission: every key of it held by one new token. */
  function Acquired(adm: map<string, nat>, keys: set<string>, token: nat): map<string, nat> {
    adm + map k | k in keys :: token
  }

  /** Freeing removes exactly the admission's own keys, and only where its token still holds them. */
  function Freed(adm: map<string, nat>, keys: set<string>, token: nat): map<string, nat> {
    map k | k in adm && !(k in keys && adm[k] == token) :: adm[k]
  }

  /** The ledger after admission: a slotted request takes the next token. */
  function AfterAdmit(l: ProviderLedger, v: Verdict, widened: bool): ProviderLedger {
    match v
    case Slotted(keys) =>
      l.(nextToken := l.nextToken + 1, adm := Acquired(l.adm, keys, l.nextToken + 1),
        marginRaised := l.marginRaised || widened)
    case _ => l
  }

  /** A settle frees its slots while its period lasts, then lands its cost in the current period. */
  function AfterSettle(l: ProviderLedger, a: Admission, cost: int, now: int): ProviderLedger {
    var l := if l.period == a.period then l.(adm := Freed(l.adm, a.keys, a.token)) else l;
    if cost == 0 then l else Landed(l, a.ns, a.workload, cost, now)
  }

  datatype Admission = Admission(
    provider: string, scheme: Scheme, period: string, ns: string, workload: string, keys: set<string>, token: nat)

  datatype Decision = Decision(
    action: Option<Action>, retryAfter: int, throttled: bool, unavailable: bool, boundaryEngaged: bool,
    marginRaisedNow: bool)

  const NO_DECISION := Decision(None, 0, false, false, false, false)

  method SumValues(m: Spend) returns (total: int)
    ensures total == Total(m)
  {
    total := 0;
    var todo := m.Keys;
    assert m - todo == map[];
    while todo != {}
      invariant todo <= m.Keys
      invariant total == Total(m - todo)
      decreases |todo|
    {
      var k :| k in todo;
      Visit(m, todo, k);
      TotalUpdate(m - todo, k, m[k]);
      todo := todo - {k};
      total := total + m[k];
    }
    assert m - todo == m;
  }

  /** The reading half of admission: the policy that fires, and the verdict on the request. */
  method Evaluate(budget: Budget, l: ProviderLedger, ns: string, now: int, replicas: int)
    returns (winner: Option<Policy>, v: Verdict)
    ensures winner == Winner(budget.policies, Worst(budget, l, ns))
    ensures v == Judge(budget, l, ns, now, replicas)
  {
    hide Winner, Total, MinBlockAt, EffectiveMargin, Percent;
    var ownTotal := SumValues(l.own);
    var peerTotal := SumValues(l.peers);
    var nsSpent, clusterSpent := Get(l.own, ns) + Get(l.peers, ns), ownTotal + peerTotal;
    var worst := Percent(nsSpent, budget.nsCeiling);
    if budget.clusterCeiling > 0 && Percent(clusterSpent, budget.clusterCeiling) > worst {
      worst := Percent(clusterSpent, budget.clusterCeiling);
    }
    winner := Decide(budget.policies, worst);
    if winner.Some? && winner.value.action == Block {
      return winner, Blocked;
    }
    var hard := HardActive(budget);
    if !hard {
      return winner, Free;
    }
    if ns in l.adm {
      return winner, Throttled;
    }
    if CLUSTER_SLOT in l.adm && budget.clusterCeiling > 0 {
      return winner, Throttled;
    }
    var at := FindMinBlockAt(budget.policies);
    var configured := ConfiguredMargin(budget);
    var inNs := budget.nsCeiling > 0 &&
      Percent(nsSpent, budget.nsCeiling) >= at as real - EffectiveMargin(l, budget.nsCeiling, configured, replicas);
    var inCluster := budget.clusterCeiling > 0 &&
      Percent(clusterSpent, budget.clusterCeiling) >=
      at as real - EffectiveMargin(l, budget.clusterCeiling, configured, replicas);
    if !inNs && !inCluster {
      return winner, Free;
    }
    if Unverified(l, now) {
      return winner, Unavailable;
    }
    var keys: set<string> := {};
    if inNs {
      keys := keys + {ns};
    }
    if inCluster {
      keys := keys + {CLUSTER_SLOT};
    }
    assert keys == BoundaryKeys(l, budget, ns, replicas);
    assert keys != {} by {
      if inNs { assert ns in keys; } else { assert CLUSTER_SLOT in keys; }
    }
    v := Slotted(keys);
  }

  method FreeSlots(adm: map<string, nat>, keys: set<string>, token: nat) returns (r: map<string, nat>)
    ensures r == Freed(adm, keys, token)
  {
    r := adm;
    var todo := keys;
    assert Freed(adm, keys - todo, token) == adm;
    while todo != {}
      invariant todo <= keys
      invariant r == Freed(adm, keys - todo, token)
      decreases |todo|
    {
      var k :| k in todo;
      FreeOne(adm, keys - todo, k, token);
      assert keys - (todo - {k}) == (keys - todo) + {k};
      todo := todo - {k};
      if k in r && r[k] == token {
        r := r - {k};
      }
    }
    assert keys - todo == keys;
  }

  /** Feeds the traffic tracker: the running maximum, and the peak rate over fixed buckets. */
  method Track(t: Tracker, cost: int, now: int) returns (u: Tracker)
    ensures u == Observe(t, cost, now)
  {
    u := t;
    if cost <= 0 {
      return;
    }
    if cost > u.maxCost {
      u := u.(maxCost := cost);
    }
    if u.bucketStart.None? || now - u.bucketStart.value >= RATE_BUCKET {
      if u.bucketStart.Some? {
        var r := u.bucketSum as real / 10.0;
        if r > u.peakRate {
          u := u.(peakRate := r);
        }
      }
      u := u.(bucketStart := Some(now), bucketSum := 0);
    }
    u := u.(bucketSum := u.bucketSum + cost);
  }

  /** Lands a cost on the namespace and its workload row, and marks the ledger unpublished. */
  method Land(l: ProviderLedger, ns: string, workload: string, cost: int, now: int) returns (m: ProviderLedger)
    ensures m == Landed(l, ns, workload, cost, now)
  {
    hide Observe;
    var key := ns + "/" + workload;
    m := l.(own := l.own[ns := Get(l.own, ns) + cost]);
    m := m.(ownW := m.ownW[key := Get(m.ownW, key) + cost]);
    var t := Track(m.tracker, cost, now);
    m := m.(tracker := t);
    if m.dirtySince.None? {
      m := m.(dirtySince := Some(now));
    }
  }

  /** A replica's counters as it publishes them: amounts printed with two decimals. */
  datatype Snapshot = Snapshot(period: string, spend: map<string, string>, marginRaised: bool)

  function EntryOf(s: Snapshot): Raw { Flattened(s.period, s.spend, s.marginRaised) }

  class BudgetLedger {
    var providers: map<string, ProviderLedger>

    constructor ()
      ensures providers == map[]
    {
      providers := map[];
    }

    /** `ledgerFor`: the provider's ledger, stored back rolled to the clock's period. */
    method Current(name: string, period: string) returns (l: ProviderLedger)
      modifies this
      ensures l == LedgerFor(old(providers), name, period)
      ensures providers == old(providers)[name := l]
    {
      if name !in providers {
        l := FreshLedger(period);
      } else {
        l := providers[name];
        if l.period != period {
          l := l.(period := period, own := map[], peers := map[], ownW := map[], peersW := map[], adm := map[]);
          l := l.(tracker := NO_TRAFFIC, marginRaised := false);
        }
      }
      providers := providers[name := l];
    }

    method Add(name: string, scheme: Scheme, ns: string, workload: string, cost: int, now: int)
      modifies this
      ensures scheme == NoPeriod || cost == 0 ==> providers == old(providers)
      ensures scheme != NoPeriod && cost != 0 ==>
                var l := LedgerFor(old(providers), name, PeriodKey(scheme, now));
                providers == old(providers)[name := Landed(l, ns, workload, cost, now)]
    {
      hide PeriodKey;
      KeyNonempty(scheme, now);
      if PeriodKey(scheme, now) == "" || cost == 0 {
        return;
      }
      var l := Current(name, PeriodKey(scheme, now));
      l := Land(l, ns, workload, cost, now);
      providers := providers[name := l];
    }

    method FoldPeers(name: string, scheme: Scheme, peers: Spend, now: int)
      modifies this
      ensures
        var l := LedgerFor(old(providers), name, PeriodKey(scheme, now));
        providers == old(providers)[name := l.(peers := peers, lastFold := Some(now))]
    {
      hide PeriodKey;
      var l := Current(name, PeriodKey(scheme, now));
      providers := providers[name := l.(peers := peers, lastFold := Some(now))];
    }

    method MarkPublished(name: string, snapshot: int)
      modifies this
      ensures name !in old(providers) ==> providers == old(providers)
      ensures name in old(providers) ==> providers == old(providers)[name := Cleaned(old(providers)[name], snapshot)]
    {
      if name !in providers {
        return;
      }
      var l := providers[name];
      if l.dirtySince.Some? && !(l.dirtySince.value > snapshot) {
        l := l.(dirtySince := None);
      }
      providers := providers[name := l];
    }

    method Admit(name: string, budget: Budget, ns: string, workload: string, now: int, replicas: int)
      returns (d: Decision, settlement: Option<Admission>)
      modifies this
      ensures budget.scheme == NoPeriod || budget.policies == [] ==>
                d == NO_DECISION && settlement == None && providers == old(providers)
      ensures !(budget.scheme == NoPeriod || budget.policies == []) ==>
                var period := PeriodKey(budget.scheme, now);
                var l := LedgerFor(old(providers), name, period);
                var v := Judge(budget, l, ns, now, replicas);
                var winner := Winner(budget.policies, Worst(budget, l, ns));
                var widened := v.Slotted? && MarginWidened(l, budget, v.keys, ns, replicas);
                && providers == old(providers)[name := AfterAdmit(l, v, widened)]
                && settlement == (if !v.Slotted? then None else
                     Some(Admission(name, budget.scheme, period, ns, workload, v.keys, l.nextToken + 1)))
                && d.action == (if winner.Some? then Some(winner.value.action) else None)
                && d.retryAfter == (if v == Blocked then RetryAfter(budget.scheme, now) else 0)
                && d.throttled == (v == Throttled) && d.unavailable == (v == Unavailable)
                && d.boundaryEngaged == v.Slotted? && d.marginRaisedNow == (widened && !l.marginRaised)
    {
      hide PeriodKey, RetryAfter, Winner, Total, Judge, Worst, MarginWidened, Acquired;
      KeyNonempty(budget.scheme, now);
      d, settlement := NO_DECISION, None;
      var period := PeriodKey(budget.scheme, now);
      if period == "" || budget.policies == [] {
        return;
      }
      var l := Current(name, period);
      var winner, v := Evaluate(budget, l, ns, now, replicas);
      if winner.Some? {
        d := d.(action := Some(winner.value.action));
      }
      match v {
        case Blocked => d := d.(retryAfter := RetryAfter(budget.scheme, now));
        case Throttled => d := d.(throttled := true);
        case Unavailable => d := d.(unavailable := true);
        case Free =>
        case Slotted(keys) =>
          if MarginWidened(l, budget, keys, ns, replicas) && !l.marginRaised {
            l := l.(marginRaised := true);
            d := d.(marginRaisedNow := true);
          }
          l := l.(nextToken := l.nextToken + 1);
          var token := l.nextToken;
          l := l.(adm := Acquired(l.adm, keys, token));
          providers := providers[name := l];
          d := d.(boundaryEngaged := true);
          settlement := Some(Admission(name, budget.scheme, period, ns, workload, keys, token));
      }
    }

    /** The body of a settlement; the caller's once-guard is part of the run model. */
    method Settle(a: Admission, cost: int, now: int)
      modifies this
      ensures providers == old(providers)[a.provider :=
                AfterSettle(LedgerFor(old(providers), a.provider, PeriodKey(a.scheme, now)), a, cost, now)]
    {
      hide PeriodKey;
      var l := Current(a.provider, PeriodKey(a.scheme, now));
      if l.period == a.period {
        var adm := FreeSlots(l.adm, a.keys, a.token);
        l := l.(adm := adm);
      }
      if cost != 0 {
        l := Land(l, a.ns, a.workload, cost, now);
      }
      providers := providers[a.provider := l];
    }

    /**
     What a replica publishes: nothing while it has spent nothing, else an entry that any reader parses back
     to this ledger's period and counters, to the cent, exactly when the layout carries its namespaces.
     */
    method OwnPartial(name: string) returns (r: Option<Snapshot>)
      ensures r.None? <==> name !in providers || providers[name].own == map[]
      ensures r.Some? ==>
                var l := providers[name];
                && r.value.period == l.period && r.value.marginRaised == l.marginRaised
                && r.value.spend.Keys == l.own.Keys
                && (forall ns :: ns in l.own ==> ParseCents(r.value.spend[ns]) == Some(l.own[ns]))
                && (Parsed(EntryOf(r.value)) == Some(Partial(l.period, l.own, l.marginRaised)) <==>
                    forall ns :: ns in l.own ==> Carried(ns))
    {
      hide FormatCents, ParseCents, Parsed, Carried, Flattened;
      if name !in providers || |providers[name].own| == 0 {
        return None;
      }
      var l := providers[name];
      var out: map<string, string> := map[];
      var todo := l.own.Keys;
      while todo != {}
        invariant todo <= l.own.Keys && out == Formatted(l.own - todo)
        decreases |todo|
      {
        var ns :| ns in todo;
        Visit(l.own, todo, ns);
        out := out[ns := FormatCents(l.own[ns])];
        todo := todo - {ns};
      }
      assert l.own - {} == l.own;
      FormattedReads(l.own);
      PartialRoundTrip(Partial(l.period, l.own, l.marginRaised));
      return Some(Snapshot(l.period, out, l.marginRaised));
    }
  }

  lemma FormattedReads(m: Spend)
    ensures forall ns :: ns in m ==> ParseCents(Formatted(m)[ns]) == Some(m[ns])
  {
    hide FormatCents, ParseCents;
    forall ns | ns in m
      ensures ParseCents(Formatted(m)[ns]) == Some(m[ns])
    {
      CentsRoundTrip(m[ns]);
    }
  }

  lemma FreeOne(adm: map<string, nat>, done: set<string>, k: string, token: nat)
    ensures Freed(adm, done + {k}, token) ==
            if k in Freed(adm, done, token) && Freed(adm, done, token)[k] == token then Freed(adm, done, token) - {k}
            else Freed(adm, done, token)
  {
  }

  /** A publish clears the write-path staleness mark unless it was set after the snapshot. */
  function Cleaned(l: ProviderLedger, snapshot: int): ProviderLedger {
    if l.dirtySince.Some? && l.dirtySince.value <= snapshot then l.(dirtySince := None) else l
  }
}
