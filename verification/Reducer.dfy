/**
 The controller's reducer over the per-replica partials of one budget ConfigMap: live partials are
 summed, a dead replica's key is deleted after its current-period spend went into `_retired`, and
 prior-period entries are archived.
 */
module Reducer {
  import opened Totals
  import opened Decimal
  import opened Wire

  type Data = map<string, Raw>

  class ConfigMap {
    var data: Data

    constructor (data: Data)
      ensures this.data == data
    {
      this.data := data;
    }
  }

  datatype BudgetFold = BudgetFold(
    current: Spend, retired: Spend, previous: Spend, previousPeriod: string,
    changed: bool, retiredChanged: bool, marginRaised: bool)

  // ---- What one pass makes of each key ----

  /** Where a key's spend goes: nowhere, into the live sum, into `_retired`, or into the archive. */
  datatype Fate = Ignored | Summed | Retired | Archived

  function FateOf(k: string, raw: Raw, live: set<string>, period: string): Fate {
    match Parsed(raw)
    case None => Ignored
    case Some(p) =>
      if k == CANONICAL_KEY then Ignored
      else if p.period != period then Archived
      else if k == RETIRED_KEY || k !in live then Retired
      else Summed
  }

  predicate IsDead(k: string, live: set<string>) {
    k !in live && k != RETIRED_KEY && k != CANONICAL_KEY
  }

  predicate Kept(k: string, raw: Raw, live: set<string>, period: string) {
    !IsDead(k, live) && FateOf(k, raw, live, period) != Archived
  }

  /** The keys left after the pass: every dead key is gone, and every readable prior-period one. */
  function Pruned(data: Data, live: set<string>, period: string): Data {
    map k | k in data && Kept(k, data[k], live, period) :: data[k]
  }

  /** The contributions that meet one fate. */
  function Parts(data: Data, live: set<string>, period: string, fate: Fate): map<string, Spend> {
    map k | k in data && FateOf(k, data[k], live, period) == fate :: SpendOf(data[k])
  }

  function DeletedKeys(data: Data, live: set<string>, period: string): set<string> {
    set k | k in data && !Kept(k, data[k], live, period)
  }

  /** Dead replicas whose current-period spend this pass moves into `_retired`. */
  function DyingKeys(data: Data, live: set<string>, period: string): set<string> {
    set k | k in data && FateOf(k, data[k], live, period) == Retired && k != RETIRED_KEY
  }

  function RaisedKeys(data: Data, live: set<string>, period: string): set<string> {
    set k | k in data && FateOf(k, data[k], live, period) == Summed && Parsed(data[k]).value.marginExceeded
  }

  lemma KeyFlags(data: Data, live: set<string>, period: string, k: string)
    requires k in data
    ensures k in DeletedKeys(data, live, period) <==> !Kept(k, data[k], live, period)
    ensures k in DyingKeys(data, live, period) <==> FateOf(k, data[k], live, period) == Retired && k != RETIRED_KEY
    ensures k in RaisedKeys(data, live, period) <==>
            FateOf(k, data[k], live, period) == Summed && Parsed(data[k]).value.marginExceeded
    ensures k in Parts(data, live, period, Archived) <==> FateOf(k, data[k], live, period) == Archived
  {
  }

  lemma ReservedKeysDiffer()
    ensures CANONICAL_KEY != RETIRED_KEY
  {
    assert CANONICAL_KEY[1] != RETIRED_KEY[1];
  }

  /** Deleting while ranging: what is left when the keys in todo are still untouched. */
  function PartlyPruned(data: Data, live: set<string>, period: string, todo: set<string>): Data {
    map k | k in data && (k in todo || Kept(k, data[k], live, period)) :: data[k]
  }

  lemma PruneStep(data: Data, live: set<string>, period: string, todo: set<string>, k: string)
    requires k in todo && k in data
    ensures PartlyPruned(data, live, period, todo - {k}) ==
            if Kept(k, data[k], live, period) then PartlyPruned(data, live, period, todo)
            else PartlyPruned(data, live, period, todo) - {k}
  {
  }

  lemma PruneEnds(data: Data, live: set<string>, period: string)
    ensures PartlyPruned(data, live, period, data.Keys) == data
    ensures PartlyPruned(data, live, period, {}) == Pruned(data, live, period)
  {
  }

  /** The running sum of one fate's contributions, one key further. */
  lemma PartStep(data: Data, live: set<string>, period: string, fate: Fate, todo: set<string>, k: string)
    requires k in todo && k in data
    ensures
      var all := Parts(data, live, period, fate);
      MergeVisited(all, todo - {k}) ==
      if FateOf(k, data[k], live, period) == fate then AddMaps(MergeVisited(all, todo), SpendOf(data[k]))
      else MergeVisited(all, todo)
  {
    MergeVisit(Parts(data, live, period, fate), todo, k);
  }

  lemma PartEnds(data: Data, live: set<string>, period: string, fate: Fate)
    ensures MergeVisited(Parts(data, live, period, fate), data.Keys) == map[]
    ensures MergeVisited(Parts(data, live, period, fate), {}) == Merge(Parts(data, live, period, fate))
  {
    assert Parts(data, live, period, fate).Keys <= data.Keys;
    MergeVisitedEnds(Parts(data, live, period, fate), data.Keys);
    MergeVisitedEnds(Parts(data, live, period, fate), {});
  }

  /** The switch inside the pass: where one key's spend goes, and whether its entry is deleted. */
  method SortKey(k: string, raw: Raw, live: set<string>, currentPeriod: string)
    returns (p: Option<Partial>, fate: Fate, drop: bool)
    ensures p == Parsed(raw) && fate == FateOf(k, raw, live, currentPeriod)
    ensures drop <==> !Kept(k, raw, live, currentPeriod)
  {
    hide Parsed, CANONICAL_KEY, RETIRED_KEY;
    ReservedKeysDiffer();
    p := ParseBudgetPartial(raw);
    fate, drop := Ignored, false;
    if k == CANONICAL_KEY {
      return;
    }
    if k == RETIRED_KEY {
      if p == None {
        return;
      }
      if p.value.period == currentPeriod {
        fate := Retired;
      } else {
        fate, drop := Archived, true;
      }
    } else if k !in live {
      if p.Some? && p.value.period == currentPeriod {
        fate := Retired;
      } else if p.Some? {
        fate := Archived;
      }
      drop := true;
    } else if p == None {
    } else if p.value.period == currentPeriod {
      fate := Summed;
    } else {
      fate, drop := Archived, true;
    }
  }

  method AddPart(f0: BudgetFold, k: string, raw: Raw, live: set<string>, currentPeriod: string)
    returns (f: BudgetFold, drop: bool)
    ensures f == AfterKey(f0, k, raw, live, currentPeriod)
    ensures drop <==> !Kept(k, raw, live, currentPeriod)
  {
    hide Parsed, AddMaps, Kept, CANONICAL_KEY, RETIRED_KEY;
    var p, fate;
    p, fate, drop := SortKey(k, raw, live, currentPeriod);
    f := f0.(changed := f0.changed || drop);
    match fate {
      case Ignored =>
      case Summed =>
        var s := AddInto(f.current, p.value.spend);
        f := f.(current := s, marginRaised := f.marginRaised || p.value.marginExceeded);
      case Retired =>
        var s := AddInto(f.retired, p.value.spend);
        f := f.(retired := s, retiredChanged := f.retiredChanged || k != RETIRED_KEY);
      case Archived =>
        var s := AddInto(f.previous, p.value.spend);
        f := f.(previousPeriod := p.value.period, previous := s);
    }
  }

  /**
   One pass over the ConfigMap, in whatever order the keys come. Everything but the name of the
   archived period is a function of the content; that name is one of the stale entries' periods.
   */
  method FoldBudgetKeys(cm: ConfigMap, live: set<string>, currentPeriod: string) returns (f: BudgetFold)
    modifies cm
    ensures cm.data == Pruned(old(cm.data), live, currentPeriod)
    ensures f.current == Merge(Parts(old(cm.data), live, currentPeriod, Summed))
    ensures f.retired == Merge(Parts(old(cm.data), live, currentPeriod, Retired))
    ensures f.previous == Merge(Parts(old(cm.data), live, currentPeriod, Archived))
    ensures f.changed <==> DeletedKeys(old(cm.data), live, currentPeriod) != {}
    ensures f.retiredChanged <==> DyingKeys(old(cm.data), live, currentPeriod) != {}
    ensures f.marginRaised <==> RaisedKeys(old(cm.data), live, currentPeriod) != {}
    ensures PeriodOfSome(old(cm.data), Parts(old(cm.data), live, currentPeriod, Archived).Keys, f.previousPeriod)
  {
    var source := cm.data;
    var todo := source.Keys;
    f := BudgetFold(map[], map[], map[], "", false, false, false);
    FoldStarts(source, live, currentPeriod);
    hide FoldInv, AfterKey, Kept, Pruned, Parts, DeletedKeys, DyingKeys, RaisedKeys, PeriodOfSome;
    while todo != {}
      invariant todo <= source.Keys
      invariant FoldInv(source, live, currentPeriod, todo, cm.data, f)
      decreases |todo|
    {
      var k :| k in todo;
      FoldStep(source, live, currentPeriod, todo, k, cm.data, f);
      var drop;
      f, drop := AddPart(f, k, source[k], live, currentPeriod);
      if drop {
        cm.data := cm.data - {k};
      }
      todo := todo - {k};
    }
    FoldEnds(source, live, currentPeriod, cm.data, f);
  }

  /** Where the pass stands when the keys in todo are still ahead. */
  ghost predicate FoldInv(source: Data, live: set<string>, period: string, todo: set<string>, data: Data,
                          f: BudgetFold) {
    SumsInv(source, live, period, todo, data, f) && FlagsInv(source, live, period, todo, f)
  }

  ghost predicate SumsInv(source: Data, live: set<string>, period: string, todo: set<string>, data: Data,
                          f: BudgetFold) {
    && data == PartlyPruned(source, live, period, todo)
    && f.current == MergeVisited(Parts(source, live, period, Summed), todo)
    && f.retired == MergeVisited(Parts(source, live, period, Retired), todo)
    && f.previous == MergeVisited(Parts(source, live, period, Archived), todo)
  }

  ghost predicate FlagsInv(source: Data, live: set<string>, period: string, todo: set<string>, f: BudgetFold) {
    && (f.changed <==> !(DeletedKeys(source, live, period) <= todo))
    && (f.retiredChanged <==> !(DyingKeys(source, live, period) <= todo))
    && (f.marginRaised <==> !(RaisedKeys(source, live, period) <= todo))
    && PeriodOfSome(source, Parts(source, live, period, Archived).Keys - todo, f.previousPeriod)
  }

  /** The archived period's name: one of the visited stale entries', or empty when there was none. */
  ghost predicate PeriodOfSome(source: Data, stale: set<string>, period: string) {
    if stale == {} then period == ""
    else exists k :: k in stale && k in source && Parsed(source[k]).Some? && Parsed(source[k]).value.period == period
  }

  /** One key's effect on the standing of the pass. */
  ghost function AfterKey(f: BudgetFold, k: string, raw: Raw, live: set<string>, period: string): BudgetFold {
    var fate := FateOf(k, raw, live, period);
    var spend := SpendOf(raw);
    BudgetFold(
      if fate == Summed then AddMaps(f.current, spend) else f.current,
      if fate == Retired then AddMaps(f.retired, spend) else f.retired,
      if fate == Archived then AddMaps(f.previous, spend) else f.previous,
      if fate == Archived then Parsed(raw).value.period else f.previousPeriod,
      f.changed || !Kept(k, raw, live, period),
      f.retiredChanged || (fate == Retired && k != RETIRED_KEY),
      f.marginRaised || (fate == Summed && Parsed(raw).value.marginExceeded))
  }

  lemma FoldStarts(source: Data, live: set<string>, period: string)
    ensures FoldInv(source, live, period, source.Keys, source, BudgetFold(map[], map[], map[], "", false, false, false))
  {
    PartEnds(source, live, period, Summed);
    PartEnds(source, live, period, Retired);
    PartEnds(source, live, period, Archived);
    PruneEnds(source, live, period);
  }

  lemma FoldStep(source: Data, live: set<string>, period: string, todo: set<string>, k: string, data: Data,
                 f: BudgetFold)
    requires k in todo && k in source
    requires FoldInv(source, live, period, todo, data, f)
    ensures FoldInv(source, live, period, todo - {k}, if Kept(k, source[k], live, period) then data else data - {k},
                    AfterKey(f, k, source[k], live, period))
  {
    hide SumsInv, FlagsInv, AfterKey;
    SumsStep(source, live, period, todo, k, data, f);
    FlagsStep(source, live, period, todo, k, f);
  }

  lemma SumsStep(source: Data, live: set<string>, period: string, todo: set<string>, k: string, data: Data,
                 f: BudgetFold)
    requires k in todo && k in source
    requires SumsInv(source, live, period, todo, data, f)
    ensures SumsInv(source, live, period, todo - {k}, if Kept(k, source[k], live, period) then data else data - {k},
                    AfterKey(f, k, source[k], live, period))
  {
    hide Parsed, AddMaps, SpendOf, MergeVisited, PartlyPruned, Kept, Parts, RETIRED_KEY;
    PartStep(source, live, period, Summed, todo, k);
    PartStep(source, live, period, Retired, todo, k);
    PartStep(source, live, period, Archived, todo, k);
    PruneStep(source, live, period, todo, k);
  }

  lemma FlagsStep(source: Data, live: set<string>, period: string, todo: set<string>, k: string, f: BudgetFold)
    requires k in todo && k in source
    requires FlagsInv(source, live, period, todo, f)
    ensures FlagsInv(source, live, period, todo - {k}, AfterKey(f, k, source[k], live, period))
  {
    hide AddMaps, SpendOf, Kept, Parts, DeletedKeys, DyingKeys, RaisedKeys, RETIRED_KEY;
    KeyFlags(source, live, period, k);
    var stale := Parts(source, live, period, Archived).Keys;
    assert stale - (todo - {k}) == if k in stale then (stale - todo) + {k} else stale - todo;
    PeriodOfMore(source, stale - todo, k, f.previousPeriod);
  }

  lemma PeriodOfMore(source: Data, stale: set<string>, k: string, period: string)
    requires k in source && PeriodOfSome(source, stale, period)
    ensures Parsed(source[k]).Some? ==> PeriodOfSome(source, stale + {k}, Parsed(source[k]).value.period)
  {
    assert k in stale + {k};
  }

  lemma FoldEnds(source: Data, live: set<string>, period: string, data: Data, f: BudgetFold)
    requires FoldInv(source, live, period, {}, data, f)
    ensures data == Pruned(source, live, period)
    ensures f.current == Merge(Parts(source, live, period, Summed))
    ensures f.retired == Merge(Parts(source, live, period, Retired))
    ensures f.previous == Merge(Parts(source, live, period, Archived))
    ensures f.changed <==> DeletedKeys(source, live, period) != {}
    ensures f.retiredChanged <==> DyingKeys(source, live, period) != {}
    ensures f.marginRaised <==> RaisedKeys(source, live, period) != {}
    ensures PeriodOfSome(source, Parts(source, live, period, Archived).Keys, f.previousPeriod)
  {
    PartEnds(source, live, period, Summed);
    PartEnds(source, live, period, Retired);
    PartEnds(source, live, period, Archived);
    PruneEnds(source, live, period);
    assert Parts(source, live, period, Archived).Keys - {} == Parts(source, live, period, Archived).Keys;
  }

  // ---- The rewritten ConfigMap ----

  function Canonical(current: Spend): Raw {
    Object(map ns | ns in current :: FormatCents(current[ns]))
  }

  ghost function RetiredSpend(data: Data, live: set<string>, period: string): Spend {
    Merge(Parts(data, live, period, Retired))
  }

  ghost function CurrentSpend(data: Data, live: set<string>, period: string): Spend {
    AddMaps(Merge(Parts(data, live, period, Summed)), RetiredSpend(data, live, period))
  }

  /** The pruned data with the accumulator rewritten when a replica died. */
  ghost function WithRetired(data: Data, live: set<string>, period: string): Data {
    var pruned := Pruned(data, live, period);
    if DyingKeys(data, live, period) == {} then pruned
    else pruned[RETIRED_KEY := Encoded(Partial(period, RetiredSpend(data, live, period), false))]
  }

  ghost function Reduced(data: Data, live: set<string>, period: string): Data {
    WithRetired(data, live, period)[CANONICAL_KEY := Canonical(CurrentSpend(data, live, period))]
  }

  /** The data-rewriting part of `reconcileBudget`. */
  method ReconcileBudget(cm: ConfigMap, live: set<string>, currentPeriod: string)
    returns (current: Spend, previous: Spend, previousPeriod: string, changed: bool)
    modifies cm
    ensures cm.data == Reduced(old(cm.data), live, currentPeriod)
    ensures current == CurrentSpend(old(cm.data), live, currentPeriod)
    ensures previous == Merge(Parts(old(cm.data), live, currentPeriod, Archived))
    ensures PeriodOfSome(old(cm.data), Parts(old(cm.data), live, currentPeriod, Archived).Keys, previousPeriod)
    ensures changed <==> cm.data != old(cm.data)
  {
    hide Merge, AddMaps, Parts, DyingKeys, DeletedKeys, Pruned, Encoded, Canonical, PeriodOfSome, CANONICAL_KEY,
         RETIRED_KEY;
    ghost var data := cm.data;
    ChangeShows(data, live, currentPeriod);
    var f := FoldBudgetKeys(cm, live, currentPeriod);
    previous, previousPeriod, changed := f.previous, f.previousPeriod, f.changed;
    current := AddInto(f.current, f.retired);
    if f.retiredChanged {
      cm.data := cm.data[RETIRED_KEY := Encoded(Partial(currentPeriod, f.retired, false))];
      changed := true;
    }
    var canonical := Canonical(current);
    if CANONICAL_KEY !in cm.data || cm.data[CANONICAL_KEY] != canonical {
      cm.data := cm.data[CANONICAL_KEY := canonical];
      changed := true;
    } else {
      assert cm.data == cm.data[CANONICAL_KEY := canonical];
    }
  }

  lemma ChangeShows(data: Data, live: set<string>, period: string)
    ensures DeletedKeys(data, live, period) == {} ==> Pruned(data, live, period) == data
    ensures DeletedKeys(data, live, period) != {} ==> Reduced(data, live, period) != data
    ensures DyingKeys(data, live, period) <= DeletedKeys(data, live, period)
  {
    hide Parsed, Pruned, Reduced, CANONICAL_KEY, RETIRED_KEY;
    if DeletedKeys(data, live, period) == {} {
      NothingDeleted(data, live, period);
    } else {
      DeletionShows(data, live, period);
    }
  }

  /** A pass that deletes a key leaves other data than it found. */
  lemma DeletionShows(data: Data, live: set<string>, period: string)
    requires DeletedKeys(data, live, period) != {}
    ensures Reduced(data, live, period) != data
  {
    hide Parsed, RetiredSpend, CurrentSpend, Encoded, Canonical, CANONICAL_KEY, RETIRED_KEY;
    ReservedKeysDiffer();
    RetiredIsCarried(data, live, period);
    var k :| k in DeletedKeys(data, live, period);
    var out := Reduced(data, live, period);
    if k == RETIRED_KEY {
      assert !InPeriod(data[k], period);
    } else {
      assert k !in out;
    }
  }

  lemma NothingDeleted(data: Data, live: set<string>, period: string)
    requires DeletedKeys(data, live, period) == {}
    ensures Pruned(data, live, period) == data
  {
    forall k | k in data
      ensures Kept(k, data[k], live, period)
    {
      assert k !in DeletedKeys(data, live, period);
    }
  }

  // ---- What a pass preserves ----

  /** Before the pass, the current-period parts are exactly the live ones and the retired ones. */
  lemma PartsSplit(data: Data, live: set<string>, period: string)
    ensures PartsIn(data, period) == Parts(data, live, period, Summed) + Parts(data, live, period, Retired)
    ensures forall k :: k in Parts(data, live, period, Summed) ==> k !in Parts(data, live, period, Retired)
  {
    hide Parsed;
    forall k | k in data
      ensures k in PartsIn(data, period) <==>
              k in Parts(data, live, period, Summed) || k in Parts(data, live, period, Retired)
    {
      assert InPeriod(data[k], period) && k != CANONICAL_KEY <==>
             FateOf(k, data[k], live, period) == Summed || FateOf(k, data[k], live, period) == Retired;
    }
  }

  lemma SummedAreLive(data: Data, live: set<string>, period: string)
    ensures forall k :: k in Parts(data, live, period, Summed) ==> k in live && k != RETIRED_KEY
    ensures forall k :: k in Parts(data, live, period, Retired) ==> k !in live || k == RETIRED_KEY
  {
    hide Parsed, CANONICAL_KEY, RETIRED_KEY;
  }

  /** Retired spend was read off the wire, so it goes back on it without loss. */
  lemma RetiredIsCarried(data: Data, live: set<string>, period: string)
    ensures
      var raw := Encoded(Partial(period, RetiredSpend(data, live, period), false));
      InPeriod(raw, period) && SpendOf(raw) == RetiredSpend(data, live, period)
  {
    var parts := Parts(data, live, period, Retired);
    var p := Partial(period, Merge(parts), false);
    forall ns | ns in p.spend
      ensures Carried(ns)
    {
      MergeKeys(parts, ns);
      var k :| k in parts && ns in parts[k];
      ParsedIsCarried(data[k]);
    }
    PartialRoundTrip(p);
  }

  /** The parts a pass leaves behind: the live ones, and one accumulator holding all retired spend. */
  predicate Rewritten(data: Data, rewritten: Data, live: set<string>, period: string, retired: Spend) {
    PartsIn(rewritten, period) ==
    Parts(data, live, period, Summed) +
    if DyingKeys(data, live, period) == {} then Parts(data, live, period, Retired) else map[RETIRED_KEY := retired]
  }

  /** A rewrite of that shape is invisible to every live replica, whatever the content was. */
  lemma RewriteKeepsView(data: Data, rewritten: Data, live: set<string>, period: string, pod: string)
    requires Rewritten(data, rewritten, live, period, RetiredSpend(data, live, period))
    requires pod in live && pod != RETIRED_KEY
    ensures PeerView(rewritten, pod, period) == PeerView(data, pod, period)
  {
    hide Parts, PartsIn, Merge;
    var summed, retired := Parts(data, live, period, Summed), Parts(data, live, period, Retired);
    PartsSplit(data, live, period);
    SummedAreLive(data, live, period);
    if DyingKeys(data, live, period) != {} {
      MergeCollapse(summed, retired, RETIRED_KEY, pod);
    }
  }

  /** The current-period entries that survive a pass are the live ones and the accumulator. */
  lemma PrunedPart(data: Data, live: set<string>, period: string, k: string)
    ensures k in PartsIn(Pruned(data, live, period), period) <==>
            k in Parts(data, live, period, Summed) || (k == RETIRED_KEY && k in Parts(data, live, period, Retired))
    ensures k in PartsIn(Pruned(data, live, period), period) ==>
            PartsIn(Pruned(data, live, period), period)[k] == SpendOf(data[k])
  {
    hide Parsed, SpendOf, CANONICAL_KEY, RETIRED_KEY;
    ReservedKeysDiffer();
  }

  lemma PrunedParts(data: Data, live: set<string>, period: string)
    ensures PartsIn(Pruned(data, live, period), period) - {RETIRED_KEY} == Parts(data, live, period, Summed)
    ensures DyingKeys(data, live, period) == {} ==>
              PartsIn(Pruned(data, live, period), period) ==
              Parts(data, live, period, Summed) + Parts(data, live, period, Retired)
  {
    hide PartsIn, Pruned, FateOf, SpendOf, CANONICAL_KEY, RETIRED_KEY;
    SummedAreLive(data, live, period);
    forall k
      ensures k in PartsIn(Pruned(data, live, period), period) <==>
              k in Parts(data, live, period, Summed) || (k == RETIRED_KEY && k in Parts(data, live, period, Retired))
      ensures k in PartsIn(Pruned(data, live, period), period) ==>
              PartsIn(Pruned(data, live, period), period)[k] == SpendOf(data[k])
    {
      PrunedPart(data, live, period, k);
    }
    if DyingKeys(data, live, period) == {} {
      NoneDying(data, live, period);
    }
  }

  lemma NoneDying(data: Data, live: set<string>, period: string)
    requires DyingKeys(data, live, period) == {}
    ensures forall k :: k in Parts(data, live, period, Retired) ==> k == RETIRED_KEY
  {
    hide Parsed, SpendOf, CANONICAL_KEY, RETIRED_KEY;
    forall k | k in Parts(data, live, period, Retired) ensures k == RETIRED_KEY {
      assert k !in DyingKeys(data, live, period);
    }
  }

  lemma ReducedIsRewritten(data: Data, live: set<string>, period: string)
    ensures Rewritten(data, Reduced(data, live, period), live, period, RetiredSpend(data, live, period))
  {
    hide InPeriod, PartsIn, RetiredSpend, CurrentSpend, Encoded, Canonical, Pruned, Parts, SpendOf, CANONICAL_KEY,
         RETIRED_KEY;
    ReservedKeysDiffer();
    RetiredIsCarried(data, live, period);
    PrunedParts(data, live, period);
    var pruned, withRetired := Pruned(data, live, period), WithRetired(data, live, period);
    var accumulator := Encoded(Partial(period, RetiredSpend(data, live, period), false));
    PartsInUpdate(pruned, period, RETIRED_KEY, accumulator);
    PartsInUpdate(withRetired, period, CANONICAL_KEY, Canonical(CurrentSpend(data, live, period)));
    UpdateIsUnion(PartsIn(pruned, period), RETIRED_KEY, SpendOf(accumulator));
  }

  /** One reduce pass leaves the enforcement view of every live replica exactly as it was. */
  lemma ReducePreservesView(data: Data, live: set<string>, period: string, pod: string)
    requires pod in live && pod != RETIRED_KEY
    ensures PeerView(Reduced(data, live, period), pod, period) == PeerView(data, pod, period)
  {
    ReducedIsRewritten(data, live, period);
    RewriteKeepsView(data, Reduced(data, live, period), live, period, pod);
  }

  lemma CurrentIsTotal(data: Data, live: set<string>, period: string)
    ensures CurrentSpend(data, live, period) == Merge(PartsIn(data, period))
  {
    hide Parts, PartsIn, Merge;
    PartsSplit(data, live, period);
    MergeUnion(Parts(data, live, period, Summed), Parts(data, live, period, Retired));
  }

  /** The fleet's current-period total, `_canonical`'s content, is the same before and after. */
  lemma ReducePreservesTotal(data: Data, live: set<string>, period: string)
    ensures Merge(PartsIn(Reduced(data, live, period), period)) == Merge(PartsIn(data, period))
    ensures CurrentSpend(data, live, period) == Merge(PartsIn(data, period))
  {
    hide Parts, PartsIn, Merge;
    CurrentIsTotal(data, live, period);
    ReducedIsRewritten(data, live, period);
    var summed, retired := Parts(data, live, period, Summed), Parts(data, live, period, Retired);
    PartsSplit(data, live, period);
    SummedAreLive(data, live, period);
    if DyingKeys(data, live, period) != {} {
      MergeUnion(summed, retired);
      MergeUnion(summed, map[RETIRED_KEY := Merge(retired)]);
      MergeSingle(RETIRED_KEY, Merge(retired));
    }
  }

  /** Every readable entry but `_canonical`, of whatever period. */
  function ReadableParts(data: Data): map<string, Spend> {
    map k | k in data && k != CANONICAL_KEY && Parsed(data[k]).Some? :: SpendOf(data[k])
  }

  lemma ReadableSplit(data: Data, live: set<string>, period: string)
    ensures ReadableParts(data) == PartsIn(data, period) + Parts(data, live, period, Archived)
    ensures forall k :: k in PartsIn(data, period) ==> k !in Parts(data, live, period, Archived)
  {
    hide Parsed, SpendOf, CANONICAL_KEY, RETIRED_KEY;
  }

  /** Nothing readable is dropped: current, retired and archived spend add up to the input. */
  lemma ReduceConserves(data: Data, live: set<string>, period: string)
    ensures AddMaps(CurrentSpend(data, live, period), Merge(Parts(data, live, period, Archived))) ==
            Merge(ReadableParts(data))
  {
    hide Parts, PartsIn, ReadableParts, Merge, AddMaps, CurrentSpend;
    CurrentIsTotal(data, live, period);
    ReadableSplit(data, live, period);
    MergeUnion(PartsIn(data, period), Parts(data, live, period, Archived));
  }

  /** A second pass over its own output finds nothing to do. */
  lemma ReduceIdempotent(data: Data, live: set<string>, period: string)
    ensures Reduced(Reduced(data, live, period), live, period) == Reduced(data, live, period)
  {
    var out := Reduced(data, live, period);
    ReducedKeysKept(data, live, period);
    NothingDeleted(out, live, period);
    ReducePreservesTotal(data, live, period);
    CurrentIsTotal(out, live, period);
    assert DyingKeys(out, live, period) <= DeletedKeys(out, live, period);
    assert WithRetired(out, live, period) == out;
    hide WithRetired, CurrentSpend, Canonical, CANONICAL_KEY;
    UpdateTwice(WithRetired(data, live, period), CANONICAL_KEY, Canonical(CurrentSpend(data, live, period)));
  }

  lemma ReducedKeysKept(data: Data, live: set<string>, period: string)
    ensures DeletedKeys(Reduced(data, live, period), live, period) == {}
  {
    hide Parsed, RetiredSpend, CurrentSpend, Encoded, Canonical, CANONICAL_KEY, RETIRED_KEY;
    ReservedKeysDiffer();
    RetiredIsCarried(data, live, period);
    var out := Reduced(data, live, period);
    forall k | k in out
      ensures Kept(k, out[k], live, period)
    {
    }
  }

  // ---- What `_canonical` says ----

  /** What a starting replica reads in an entry: every readable amount, under whatever name. */
  function Seeded(raw: Raw): Option<Spend> {
    match raw
    case Unreadable => None
    case Object(f) => Some(map k | k in f && ParseCents(f[k]).Some? :: ParseCents(f[k]).value)
  }

  /** `SeedFromCanonical` for one provider; None where it seeds nothing. */
  method SeedFromCanonical(data: Data) returns (seed: Option<Spend>)
    ensures seed == if CANONICAL_KEY in data then Seeded(data[CANONICAL_KEY]) else None
  {
    hide ParseCents, CANONICAL_KEY;
    if CANONICAL_KEY !in data || data[CANONICAL_KEY] == Unreadable {
      return None;
    }
    var flat, canonical: Spend := data[CANONICAL_KEY].fields, map[];
    ghost var all := Seeded(data[CANONICAL_KEY]).value;
    var todo := flat.Keys;
    assert all - todo == map[];
    while todo != {}
      invariant todo <= flat.Keys && canonical == all - todo
      decreases |todo|
    {
      var k :| k in todo;
      Visit(all, todo, k);
      todo := todo - {k};
      var v := ParseCents(flat[k]);
      if v.Some? {
        canonical := canonical[k := v.value];
      }
    }
    assert all - todo == all;
    return Some(canonical);
  }

  lemma CanonicalReads(current: Spend)
    ensures Seeded(Canonical(current)) == Some(current)
    ensures SpendOf(Canonical(current)) == map ns | ns in current && Carried(ns) :: current[ns]
  {
    hide FormatCents, ParseCents, Carried;
    forall ns | ns in current
      ensures ParseCents(FormatCents(current[ns])) == Some(current[ns])
    {
      CentsRoundTrip(current[ns]);
    }
    assert Seeded(Canonical(current)).value == current;
    assert SpendFields(Canonical(current).fields) == map ns | ns in current && Carried(ns) :: current[ns];
  }

  /** After a pass `_canonical` is the fleet's spend of that period, to the cent, and a seed is just that. */
  lemma CanonicalIsTotal(data: Data, live: set<string>, period: string)
    ensures
      var out := Reduced(data, live, period);
      && CANONICAL_KEY in out && Seeded(out[CANONICAL_KEY]) == Some(Merge(PartsIn(data, period)))
      && PartsIn(out, period).Keys !! {CANONICAL_KEY}
  {
    hide WithRetired, CurrentSpend, Canonical, Seeded, Merge, InPeriod, SpendOf, CANONICAL_KEY;
    CurrentIsTotal(data, live, period);
    CanonicalReads(CurrentSpend(data, live, period));
  }

  /**
   A pass leaves a key for a live Pod, `_canonical` and `_retired` only, so the ConfigMap does not grow with the
   Pods that were; and a live Pod's entry stays as it is unless it is readably of another period.
   */
  lemma PassPrunes(data: Data, live: set<string>, period: string)
    ensures
      var out := Reduced(data, live, period);
      && out.Keys <= live + {CANONICAL_KEY, RETIRED_KEY} && |out| <= |live| + 2
      && (forall k :: k in data && k in live && k !in {CANONICAL_KEY, RETIRED_KEY} ==>
            && (k in out <==> Parsed(data[k]) == None || Parsed(data[k]).value.period == period)
            && (k in out ==> out[k] == data[k]))
  {
    hide Parsed, RetiredSpend, CurrentSpend, Encoded, Canonical, CANONICAL_KEY, RETIRED_KEY;
    var out, bound := Reduced(data, live, period), live + {CANONICAL_KEY, RETIRED_KEY};
    SubsetSize(out.Keys, bound);
    assert |{CANONICAL_KEY, RETIRED_KEY}| <= 2;
  }

  lemma {:induction false} SubsetSize(a: set<string>, b: set<string>)
    requires a <= b
    ensures |a| <= |b|
  {
    if a != {} {
      var k :| k in a;
      SubsetSize(a - {k}, b - {k});
    }
  }

  /** A pass leaves no readable entry of another period. */
  lemma OnlyThatPeriod(data: Data, live: set<string>, period: string, other: string)
    requires other != period
    ensures PartsIn(Reduced(data, live, period), other) == map[]
  {
    hide Parsed, RetiredSpend, CurrentSpend, Encoded, Canonical, CANONICAL_KEY, RETIRED_KEY;
    RetiredIsCarried(data, live, period);
    ReducedKeysKept(data, live, period);
    var out := Reduced(data, live, period);
    forall k | k in out && k != CANONICAL_KEY
      ensures !InPeriod(out[k], other)
    {
      assert k !in DeletedKeys(out, live, period);
    }
  }

  /**
   `_canonical` does not name its period. A replica that starts in period `now` after a pass of `period` is
   seeded with what the ConfigMap holds for it exactly when the periods agree or there was no spend at all.
   */
  lemma SeedIsCurrent(data: Data, live: set<string>, period: string, now: string)
    ensures
      var out := Reduced(data, live, period);
      && CANONICAL_KEY in out
      && (Seeded(out[CANONICAL_KEY]) == Some(Merge(PartsIn(out, now))) <==>
          now == period || Merge(PartsIn(data, period)) == map[])
  {
    hide Reduced, PartsIn, Seeded, CANONICAL_KEY;
    CanonicalIsTotal(data, live, period);
    ReducePreservesTotal(data, live, period);
    if now != period {
      OnlyThatPeriod(data, live, period, now);
    }
  }
}
