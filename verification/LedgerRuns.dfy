/**
 Whole runs of one replica's ledger for one provider: requests come and go, peers are folded in, the
 clock rolls periods over. Slot discipline and conservation of spend hold in every reachable state.
 */
module LedgerRuns {
  import opened Totals
  import opened Decimal
  import opened Periods
  import opened Ladder
  import opened Ledger
  import opened Wire

  /** An admitted request. `keys` is empty outside the boundary region; `cost` is what it will turn out to cost. */
  datatype Call = Call(
    ns: string, workload: string, cost: int, keys: set<string>, token: nat, period: string, time: int, settled: bool)

  datatype Charge = Charge(ns: string, workload: string, cost: int)

  /** The ledger, every request it admitted, and the costs that landed since its current period began. */
  datatype World = World(l: ProviderLedger, calls: seq<Call>, landed: seq<Charge>, now: int)

  datatype Event =
    | Try(budget: Budget, ns: string, workload: string, cost: int, time: int, replicas: int)
    | Finish(call: nat, time: int)
    | Fold(peers: Spend, time: int)
    | Publish(snapshot: int)

  function Start(scheme: Scheme, time: int): World {
    World(FreshLedger(PeriodKey(scheme, time)), [], [], time)
  }

  /** Touching the ledger rolls it to the clock's period first. */
  function Touch(scheme: Scheme, w: World, time: int): World {
    var period := PeriodKey(scheme, time);
    w.(l := Rolled(w.l, period), landed := if w.l.period == period then w.landed else [], now := time)
  }

  function AdmissionOf(scheme: Scheme, c: Call): Admission {
    Admission("", scheme, c.period, c.ns, c.workload, c.keys, c.token)
  }

  ghost function Admitted(w: World, e: Event): World
    requires e.Try?
  {
    var v := Judge(e.budget, w.l, e.ns, e.time, e.replicas);
    var widened := v.Slotted? && MarginWidened(w.l, e.budget, v.keys, e.ns, e.replicas);
    if v == Free then w.(calls := w.calls + [Call(e.ns, e.workload, e.cost, {}, 0, w.l.period, e.time, false)])
    else if v.Slotted? then
      w.(l := AfterAdmit(w.l, v, widened),
         calls := w.calls + [Call(e.ns, e.workload, e.cost, v.keys, w.l.nextToken + 1, w.l.period, e.time, false)])
    else w
  }

  /** An unslotted request's cost arrives through `Add`, a slotted one's through its settlement. */
  function Finished(scheme: Scheme, w: World, i: nat, time: int): World
    requires i < |w.calls|
  {
    var c := w.calls[i];
    var l := if c.keys == {} then (if c.cost == 0 then w.l else Landed(w.l, c.ns, c.workload, c.cost, time))
             else AfterSettle(w.l, AdmissionOf(scheme, c), c.cost, time);
    w.(l := l, calls := w.calls[i := c.(settled := true)],
       landed := if c.cost == 0 then w.landed else w.landed + [Charge(c.ns, c.workload, c.cost)])
  }

  ghost function Next(scheme: Scheme, w: World, e: Event): World {
    match e
    case Try(budget, ns, workload, cost, time, replicas) =>
      if budget.policies == [] then w.(calls := w.calls + [Call(ns, workload, cost, {}, 0, w.l.period, time, false)])
      else Admitted(Touch(scheme, w, time), e)
    case Finish(i, time) =>
      if i < |w.calls| && !w.calls[i].settled then Finished(scheme, Touch(scheme, w, time), i, time) else w
    case Fold(peers, time) =>
      var w := Touch(scheme, w, time);
      w.(l := w.l.(peers := peers, lastFold := Some(time)))
    case Publish(snapshot) => w.(l := Cleaned(w.l, snapshot))
  }

  ghost function Run(scheme: Scheme, w: World, es: seq<Event>): World {
    if es == [] then w else Next(scheme, Run(scheme, w, es[..|es| - 1]), es[|es| - 1])
  }

  // ---- Slot discipline, whatever the clock does ----

  /** Call i is the unsettled admission of the current period that holds key k. */
  predicate Holds(w: World, k: string, i: nat) {
    && i < |w.calls| && k in w.l.adm
    && !w.calls[i].settled && k in w.calls[i].keys && w.calls[i].token == w.l.adm[k] && w.calls[i].period == w.l.period
  }

  predicate TokensFresh(w: World) {
    && (forall i :: 0 <= i < |w.calls| ==> w.calls[i].token <= w.l.nextToken)
    && (forall i :: 0 <= i < |w.calls| && w.calls[i].keys != {} ==> w.calls[i].token > 0)
    && (forall i, j :: 0 <= i < j < |w.calls| && w.calls[i].token > 0 ==> w.calls[i].token != w.calls[j].token)
  }

  /** Every held key carries the token of an unsettled admission, and no two admissions share a token. */
  ghost predicate SlotInv(w: World) {
    && TokensFresh(w)
    && forall k :: k in w.l.adm ==> exists i :: Holds(w, k, i)
  }

  /** An acquire never overwrites a holder. */
  lemma AcquireIsDisjoint(budget: Budget, l: ProviderLedger, ns: string, now: int, replicas: int)
    ensures
      var v := Judge(budget, l, ns, now, replicas);
      v.Slotted? ==> v.keys != {} && forall k :: k in v.keys ==> k !in l.adm
  {
    hide BlocksAt, EffectiveMargin, Worst;
  }

  lemma TouchKeepsSlots(scheme: Scheme, w: World, time: int)
    requires SlotInv(w)
    ensures SlotInv(Touch(scheme, w, time))
  {
    hide PeriodKey;
    var w' := Touch(scheme, w, time);
    forall k | k in w'.l.adm
      ensures exists i :: Holds(w', k, i)
    {
      var i :| Holds(w, k, i);
      assert Holds(w', k, i);
    }
  }

  lemma AdmitKeepsSlots(w: World, e: Event)
    requires SlotInv(w) && e.Try?
    ensures SlotInv(Admitted(w, e))
  {
    hide Judge, MarginWidened;
    AcquireIsDisjoint(e.budget, w.l, e.ns, e.time, e.replicas);
    var w' := Admitted(w, e);
    var v := Judge(e.budget, w.l, e.ns, e.time, e.replicas);
    forall k | k in w'.l.adm
      ensures exists i :: Holds(w', k, i)
    {
      if k in w.l.adm {
        var i :| Holds(w, k, i);
        assert Holds(w', k, i);
      } else {
        assert Holds(w', k, |w.calls|);
      }
    }
  }

  lemma FinishKeepsSlots(scheme: Scheme, w: World, n: nat, time: int)
    requires SlotInv(w) && n < |w.calls| && !w.calls[n].settled
    ensures SlotInv(Finished(scheme, w, n, time))
  {
    hide Landed;
    LandedKeepsSlots(w, n, time);
    var w' := Finished(scheme, w, n, time);
    forall k | k in w'.l.adm
      ensures exists i :: Holds(w', k, i)
    {
      var i :| Holds(w, k, i);
      if i != n {
        assert Holds(w', k, i);
      }
    }
  }

  /** Landing a cost touches counters and tracker only. */
  lemma LandedIsSpendOnly(l: ProviderLedger, ns: string, workload: string, cost: int, now: int)
    ensures
      var m := Landed(l, ns, workload, cost, now);
      && m.period == l.period && m.adm == l.adm && m.nextToken == l.nextToken && m.peers == l.peers
      && m.own == l.own[ns := Get(l.own, ns) + cost]
      && m.ownW == l.ownW[WorkloadKey(ns, workload) := Get(l.ownW, WorkloadKey(ns, workload)) + cost]
  {
    hide Observe, WorkloadKey;
  }

  lemma LandedKeepsSlots(w: World, n: nat, time: int)
    requires n < |w.calls|
    ensures
      var c := w.calls[n];
      forall l: ProviderLedger :: Landed(l, c.ns, c.workload, c.cost, time).adm == l.adm
                                  && Landed(l, c.ns, c.workload, c.cost, time).nextToken == l.nextToken
                                  && Landed(l, c.ns, c.workload, c.cost, time).period == l.period
  {
    hide Landed;
    var c := w.calls[n];
    forall l: ProviderLedger
      ensures Landed(l, c.ns, c.workload, c.cost, time).adm == l.adm
              && Landed(l, c.ns, c.workload, c.cost, time).nextToken == l.nextToken
              && Landed(l, c.ns, c.workload, c.cost, time).period == l.period
    {
      LandedIsSpendOnly(l, c.ns, c.workload, c.cost, time);
    }
  }

  lemma NextKeepsSlots(scheme: Scheme, w: World, e: Event)
    requires SlotInv(w)
    ensures SlotInv(Next(scheme, w, e))
  {
    hide PeriodKey, Judge, Landed;
    var w' := Next(scheme, w, e);
    match e {
      case Try(_, _, _, _, time, _) =>
        if e.budget.policies == [] {
          forall k | k in w'.l.adm
            ensures exists i :: Holds(w', k, i)
          {
            var i :| Holds(w, k, i);
            assert Holds(w', k, i);
          }
        } else {
          TouchKeepsSlots(scheme, w, time);
          AdmitKeepsSlots(Touch(scheme, w, time), e);
        }
      case Finish(i, time) =>
        if i < |w.calls| && !w.calls[i].settled {
          TouchKeepsSlots(scheme, w, time);
          FinishKeepsSlots(scheme, Touch(scheme, w, time), i, time);
        }
      case Fold(peers, time) =>
        TouchKeepsSlots(scheme, w, time);
        SameSlots(Touch(scheme, w, time), w');
      case Publish(_) =>
        SameSlots(w, w');
    }
  }

  lemma SameSlots(w: World, w': World)
    requires SlotInv(w) && w'.calls == w.calls
    requires w'.l.adm == w.l.adm && w'.l.nextToken == w.l.nextToken && w'.l.period == w.l.period
    ensures SlotInv(w')
  {
    forall k | k in w'.l.adm
      ensures exists i :: Holds(w', k, i)
    {
      var i :| Holds(w, k, i);
      assert Holds(w', k, i);
    }
  }

  /** Slot discipline over whole runs, for any clock, any budgets and any interleaving. */
  lemma {:induction false} SlotDiscipline(scheme: Scheme, time: int, es: seq<Event>)
    ensures
      var w := Run(scheme, Start(scheme, time), es);
      && SlotInv(w)
      && (forall k :: k in w.l.adm ==> exists i :: Holds(w, k, i) && forall j :: Holds(w, k, j) ==> j == i)
      && ((forall i :: 0 <= i < |w.calls| && w.calls[i].period == w.l.period ==> w.calls[i].settled) ==>
        w.l.adm == map[])
  {
    hide PeriodKey, Next;
    if es != [] {
      SlotDiscipline(scheme, time, es[..|es| - 1]);
      NextKeepsSlots(scheme, Run(scheme, Start(scheme, time), es[..|es| - 1]), es[|es| - 1]);
    }
    var w := Run(scheme, Start(scheme, time), es);
    forall k | k in w.l.adm
      ensures exists i :: Holds(w, k, i) && forall j :: Holds(w, k, j) ==> j == i
    {
      var i :| Holds(w, k, i);
      OneHolder(w, k, i);
    }
  }

  lemma OneHolder(w: World, k: string, i: nat)
    requires TokensFresh(w) && Holds(w, k, i)
    ensures forall j :: Holds(w, k, j) ==> j == i
  {
  }

  /**
   A settle frees only keys its own token holds, even when it crosses a rollover (then the new period's
   slots are untouched), and settling again changes nothing.
   */
  lemma SettleFreesOnlyItsOwn(scheme: Scheme, w: World, n: nat, time: int, again: int)
    requires n < |w.calls| && !w.calls[n].settled
    ensures
      var w' := Next(scheme, w, Finish(n, time));
      && (forall k :: k in w'.l.adm ==> k in w.l.adm && w'.l.adm[k] == w.l.adm[k])
      && (w.l.period == PeriodKey(scheme, time) ==>
            forall k :: k in w.l.adm && !(k in w.calls[n].keys && w.l.adm[k] == w.calls[n].token) ==> k in w'.l.adm)
      && Next(scheme, w', Finish(n, again)) == w'
  {
    hide PeriodKey, Finished;
    var touched := Touch(scheme, w, time);
    FinishFreesOnlyItsOwn(scheme, touched, n, time);
  }

  lemma FinishFreesOnlyItsOwn(scheme: Scheme, w: World, n: nat, time: int)
    requires n < |w.calls|
    ensures
      var w' := Finished(scheme, w, n, time);
      && |w'.calls| == |w.calls| && w'.calls[n].settled
      && (forall k :: k in w'.l.adm ==> k in w.l.adm && w'.l.adm[k] == w.l.adm[k])
      && (forall k :: k in w.l.adm && !(k in w.calls[n].keys && w.l.adm[k] == w.calls[n].token) ==> k in w'.l.adm)
  {
    hide Landed;
    LandedKeepsSlots(w, n, time);
  }

  // ---- With a clock that does not run backwards ----

  predicate InOrder(w: World, e: Event) { e.Publish? || e.time >= w.now }

  ghost predicate Ordered(scheme: Scheme, w: World, es: seq<Event>) {
    es == [] || (var init := es[..|es| - 1]; Ordered(scheme, w, init) && InOrder(Run(scheme, w, init), es[|es| - 1]))
  }

  ghost predicate ClockInv(scheme: Scheme, w: World) {
    && w.l.period == PeriodKey(scheme, w.now)
    && forall i :: 0 <= i < |w.calls| && w.calls[i].keys != {} ==>
                     w.calls[i].time <= w.now && w.calls[i].period == PeriodKey(scheme, w.calls[i].time)
  }

  /** An unsettled admission of the current period holds every one of its keys. */
  predicate AllHeld(w: World) {
    forall i, k :: (&& 0 <= i < |w.calls| && !w.calls[i].settled && w.calls[i].period == w.l.period
                    && k in w.calls[i].keys) ==>
                     k in w.l.adm && w.l.adm[k] == w.calls[i].token
  }

  ghost predicate StrongInv(scheme: Scheme, w: World) {
    SlotInv(w) && ClockInv(scheme, w) && AllHeld(w)
  }

  /** A rollover leaves no admission of the new period behind, because periods are intervals. */
  lemma TouchKeepsHeld(scheme: Scheme, w: World, time: int)
    requires StrongInv(scheme, w) && time >= w.now
    ensures StrongInv(scheme, Touch(scheme, w, time))
  {
    hide SlotInv;
    hide PeriodKey;
    TouchKeepsSlots(scheme, w, time);
    if PeriodKey(scheme, time) != w.l.period {
      forall i | 0 <= i < |w.calls| && w.calls[i].keys != {}
        ensures w.calls[i].period != PeriodKey(scheme, time)
      {
        if w.calls[i].period == PeriodKey(scheme, time) {
          PeriodsAreIntervals(scheme, w.calls[i].time, w.now, time);
        }
      }
    }
  }

  lemma AdmitAllHeld(w: World, e: Event)
    requires AllHeld(w) && e.Try?
    ensures AllHeld(Admitted(w, e))
  {
    hide Judge, MarginWidened;
    AcquireIsDisjoint(e.budget, w.l, e.ns, e.time, e.replicas);
  }

  lemma AdmitKeepsHeld(scheme: Scheme, w: World, e: Event)
    requires StrongInv(scheme, w) && e.Try? && e.time == w.now
    ensures StrongInv(scheme, Admitted(w, e))
  {
    hide PeriodKey, Judge, MarginWidened, SlotInv, AllHeld;
    AdmitKeepsSlots(w, e);
    AdmitAllHeld(w, e);
  }

  lemma FinishAllHeld(scheme: Scheme, w: World, n: nat, time: int)
    requires TokensFresh(w) && AllHeld(w) && n < |w.calls| && !w.calls[n].settled
    ensures AllHeld(Finished(scheme, w, n, time))
  {
    hide PeriodKey, Landed;
    LandedKeepsSlots(w, n, time);
    var w' := Finished(scheme, w, n, time);
    forall i, k | && 0 <= i < |w'.calls| && !w'.calls[i].settled && w'.calls[i].period == w'.l.period
                  && k in w'.calls[i].keys
      ensures k in w'.l.adm && w'.l.adm[k] == w'.calls[i].token
    {
      assert i != n && w.calls[i].token != w.calls[n].token;
    }
  }

  lemma FinishKeepsHeld(scheme: Scheme, w: World, n: nat, time: int)
    requires StrongInv(scheme, w) && n < |w.calls| && !w.calls[n].settled
    ensures StrongInv(scheme, Finished(scheme, w, n, time))
  {
    hide PeriodKey, Landed, AllHeld;
    FinishKeepsSlots(scheme, w, n, time);
    FinishAllHeld(scheme, w, n, time);
    LandedKeepsSlots(w, n, time);
  }

  /** Steps that take and free no slot. */
  lemma UnslottedKeepsHeld(scheme: Scheme, w: World, w': World, extra: seq<Call>)
    requires StrongInv(scheme, w) && SlotInv(w')
    requires w'.l.adm == w.l.adm && w'.l.period == w.l.period && w'.now == w.now
    requires w'.calls == w.calls + extra && forall i :: 0 <= i < |extra| ==> extra[i].keys == {}
    ensures StrongInv(scheme, w')
  {
    hide PeriodKey, SlotInv;
  }

  lemma TryKeepsHeld(scheme: Scheme, w: World, e: Event)
    requires StrongInv(scheme, w) && e.Try? && InOrder(w, e)
    ensures StrongInv(scheme, Next(scheme, w, e))
  {
    hide PeriodKey, SlotInv, ClockInv, AllHeld, Admitted;
    NextKeepsSlots(scheme, w, e);
    if e.budget.policies == [] {
      var w' := Next(scheme, w, e);
      UnslottedKeepsHeld(scheme, w, w', [w'.calls[|w.calls|]]);
    } else {
      TouchKeepsHeld(scheme, w, e.time);
      AdmitKeepsHeld(scheme, Touch(scheme, w, e.time), e);
    }
  }

  lemma FinishStepKeepsHeld(scheme: Scheme, w: World, e: Event)
    requires StrongInv(scheme, w) && e.Finish? && InOrder(w, e)
    ensures StrongInv(scheme, Next(scheme, w, e))
  {
    hide PeriodKey, StrongInv, Finished, Admitted, Rolled;
    if e.call < |w.calls| && !w.calls[e.call].settled {
      TouchKeepsHeld(scheme, w, e.time);
      FinishKeepsHeld(scheme, Touch(scheme, w, e.time), e.call, e.time);
    }
  }

  lemma FoldKeepsHeld(scheme: Scheme, w: World, e: Event)
    requires StrongInv(scheme, w) && e.Fold? && InOrder(w, e)
    ensures StrongInv(scheme, Next(scheme, w, e))
  {
    hide PeriodKey, SlotInv, Admitted, Finished, Touch;
    NextKeepsSlots(scheme, w, e);
    TouchKeepsHeld(scheme, w, e.time);
  }

  lemma PublishKeepsHeld(scheme: Scheme, w: World, e: Event)
    requires StrongInv(scheme, w) && e.Publish?
    ensures StrongInv(scheme, Next(scheme, w, e))
  {
    hide PeriodKey, SlotInv, Admitted, Finished, Touch;
    NextKeepsSlots(scheme, w, e);
  }

  lemma NextKeepsHeld(scheme: Scheme, w: World, e: Event)
    requires StrongInv(scheme, w) && InOrder(w, e)
    ensures StrongInv(scheme, Next(scheme, w, e))
  {
    hide Next, StrongInv;
    match e {
      case Try(_, _, _, _, _, _) => TryKeepsHeld(scheme, w, e);
      case Finish(_, _) => FinishStepKeepsHeld(scheme, w, e);
      case Fold(_, _) => FoldKeepsHeld(scheme, w, e);
      case Publish(_) => PublishKeepsHeld(scheme, w, e);
    }
  }

  predicate Exclusive(w: World) {
    forall i, j, k :: && 0 <= i < j < |w.calls| && k in w.calls[i].keys && k in w.calls[j].keys
                      && w.calls[i].period == w.l.period == w.calls[j].period ==>
                        w.calls[i].settled || w.calls[j].settled
  }

  lemma HeldIsExclusive(w: World)
    requires TokensFresh(w) && AllHeld(w)
    ensures Exclusive(w)
  {
    forall i, j, k | && 0 <= i < j < |w.calls| && k in w.calls[i].keys && k in w.calls[j].keys
                     && w.calls[i].period == w.l.period == w.calls[j].period
      ensures w.calls[i].settled || w.calls[j].settled
    {
      assert !w.calls[i].settled ==> k in w.l.adm && w.l.adm[k] == w.calls[i].token;
      assert !w.calls[j].settled ==> k in w.l.adm && w.l.adm[k] == w.calls[j].token;
      assert w.calls[i].token != w.calls[j].token;
    }
  }

  /**
   Serialized admission: in every state a run with a forward clock reaches, two unsettled admissions of
   the current period never hold slots for the same ceiling.
   */
  lemma {:induction false} SerializedAdmission(scheme: Scheme, time: int, es: seq<Event>)
    requires Ordered(scheme, Start(scheme, time), es)
    ensures
      var w := Run(scheme, Start(scheme, time), es);
      StrongInv(scheme, w) && Exclusive(w)
  {
    hide PeriodKey, Next, Exclusive;
    if es != [] {
      SerializedAdmission(scheme, time, es[..|es| - 1]);
      NextKeepsHeld(scheme, Run(scheme, Start(scheme, time), es[..|es| - 1]), es[|es| - 1]);
    }
    HeldIsExclusive(Run(scheme, Start(scheme, time), es));
  }

  // ---- Conservation of spend ----

  /** The costs of one namespace, and of one workload key, among the charges. */
  function ChargedTo(cs: seq<Charge>, ns: string): int {
    if cs == [] then 0 else
      ChargedTo(cs[..|cs| - 1], ns) + if cs[|cs| - 1].ns == ns then cs[|cs| - 1].cost else 0
  }

  function ChargedUnder(cs: seq<Charge>, key: string): int {
    if cs == [] then 0 else
      var c := cs[|cs| - 1];
      ChargedUnder(cs[..|cs| - 1], key) + if WorkloadKey(c.ns, c.workload) == key then c.cost else 0
  }

  predicate SlashFree(s: string) { '/' !in s }

  predicate IsUnder(key: string, ns: string) { ns + "/" <= key }

  /** The workload rows `WorkloadSpend` selects for a namespace: the keys with its prefix. */
  function RowsOf(m: Spend, ns: string): Spend {
    map k | k in m && IsUnder(k, ns) :: m[k]
  }

  /** Names without a slash split a workload key in one way only. */
  lemma KeyBelongsToOne(ns: string, workload: string, other: string)
    requires SlashFree(ns) && SlashFree(other)
    ensures IsUnder(WorkloadKey(ns, workload), other) <==> other == ns
  {
    var key := WorkloadKey(ns, workload);
    assert key[..|ns|] == ns && key[|ns|] == '/';
    if IsUnder(key, other) {
      assert key[..|other|] == other && key[|other|] == '/';
    }
  }

  ghost predicate Conserved(w: World) {
    && (forall ns :: Get(w.l.own, ns) == ChargedTo(w.landed, ns))
    && (forall key :: Get(w.l.ownW, key) == ChargedUnder(w.landed, key))
    && (forall ns :: SlashFree(ns) ==> Get(w.l.own, ns) == Total(RowsOf(w.l.ownW, ns)))
    && (forall i :: 0 <= i < |w.calls| ==> SlashFree(w.calls[i].ns))
  }

  lemma LandConserves(l: ProviderLedger, m: ProviderLedger, landed: seq<Charge>, c: Charge)
    requires SlashFree(c.ns)
    requires m.own == l.own[c.ns := Get(l.own, c.ns) + c.cost]
    requires m.ownW == l.ownW[WorkloadKey(c.ns, c.workload) := Get(l.ownW, WorkloadKey(c.ns, c.workload)) + c.cost]
    requires forall ns :: Get(l.own, ns) == ChargedTo(landed, ns)
    requires forall key :: Get(l.ownW, key) == ChargedUnder(landed, key)
    requires forall ns :: SlashFree(ns) ==> Get(l.own, ns) == Total(RowsOf(l.ownW, ns))
    ensures forall ns :: Get(m.own, ns) == ChargedTo(landed + [c], ns)
    ensures forall key :: Get(m.ownW, key) == ChargedUnder(landed + [c], key)
    ensures forall ns :: SlashFree(ns) ==> Get(m.own, ns) == Total(RowsOf(m.ownW, ns))
  {
    hide Total, RowsOf, SlashFree, WorkloadKey;
    assert (landed + [c])[..|landed|] == landed;
    forall ns | SlashFree(ns)
      ensures Get(m.own, ns) == Total(RowsOf(m.ownW, ns))
    {
      RowsConserve(l, m, c, ns);
    }
  }

  lemma RowsConserve(l: ProviderLedger, m: ProviderLedger, c: Charge, ns: string)
    requires SlashFree(c.ns) && SlashFree(ns)
    requires m.own == l.own[c.ns := Get(l.own, c.ns) + c.cost]
    requires m.ownW == l.ownW[WorkloadKey(c.ns, c.workload) := Get(l.ownW, WorkloadKey(c.ns, c.workload)) + c.cost]
    requires Get(l.own, ns) == Total(RowsOf(l.ownW, ns))
    ensures Get(m.own, ns) == Total(RowsOf(m.ownW, ns))
  {
    hide Total, RowsOf, SlashFree, IsUnder;
    var key := WorkloadKey(c.ns, c.workload);
    KeyBelongsToOne(c.ns, c.workload, ns);
    RowsAfter(l.ownW, key, Get(l.ownW, key) + c.cost, ns);
  }

  lemma RowsAfter(m: Spend, key: string, v: int, ns: string)
    ensures Total(RowsOf(m[key := v], ns)) == Total(RowsOf(m, ns)) + if IsUnder(key, ns) then v - Get(m, key) else 0
  {
    var rows := RowsOf(m, ns);
    if IsUnder(key, ns) {
      assert RowsOf(m[key := v], ns) == rows[key := v];
      TotalUpdate(rows, key, v);
    } else {
      assert RowsOf(m[key := v], ns) == rows;
    }
  }

  lemma TouchConserves(scheme: Scheme, w: World, time: int)
    requires Conserved(w)
    ensures Conserved(Touch(scheme, w, time))
  {
    hide PeriodKey;
    if w.l.period != PeriodKey(scheme, time) {
      forall ns
        ensures Total(RowsOf(map[], ns)) == 0
      {
        assert RowsOf(map[], ns) == map[];
      }
    }
  }

  lemma FinishConserves(scheme: Scheme, w: World, n: nat, time: int)
    requires Conserved(w) && n < |w.calls|
    ensures Conserved(Finished(scheme, w, n, time))
  {
    hide Landed;
    hide SlashFree, WorkloadKey;
    var c := w.calls[n];
    if c.cost != 0 {
      var l := if c.keys != {} && w.l.period == c.period then w.l.(adm := Freed(w.l.adm, c.keys, c.token)) else w.l;
      LandedIsSpendOnly(l, c.ns, c.workload, c.cost, time);
      LandConserves(w.l, Finished(scheme, w, n, time).l, w.landed, Charge(c.ns, c.workload, c.cost));
    }
  }

  predicate Named(e: Event) { e.Try? ==> SlashFree(e.ns) }

  lemma NextConserves(scheme: Scheme, w: World, e: Event)
    requires Conserved(w) && Named(e)
    ensures Conserved(Next(scheme, w, e))
  {
    hide PeriodKey, Judge, Landed, Finished, SlashFree, ChargedTo, ChargedUnder, RowsOf, Total;
    match e {
      case Try(_, _, _, _, time, _) =>
        TouchConserves(scheme, w, time);
      case Finish(i, time) =>
        TouchConserves(scheme, w, time);
        if i < |w.calls| && !w.calls[i].settled {
          FinishConserves(scheme, Touch(scheme, w, time), i, time);
        }
      case Fold(peers, time) =>
        TouchConserves(scheme, w, time);
      case Publish(_) =>
    }
  }

  /**
   Ledger conservation over whole runs: a namespace's own counter is exactly the costs that landed in the
   current period, late settles included, and exactly the sum of its workload rows.
   */
  lemma {:induction false} LedgerConservation(scheme: Scheme, time: int, es: seq<Event>)
    requires forall i :: 0 <= i < |es| ==> Named(es[i])
    ensures Conserved(Run(scheme, Start(scheme, time), es))
  {
    hide PeriodKey, Next;
    if es == [] {
      forall ns
        ensures Total(RowsOf(map[], ns)) == 0
      {
        assert RowsOf(map[], ns) == map[];
      }
    } else {
      LedgerConservation(scheme, time, es[..|es| - 1]);
      NextConserves(scheme, Run(scheme, Start(scheme, time), es[..|es| - 1]), es[|es| - 1]);
    }
  }

  // ---- The per-workload read ----

  function RowNames(m: Spend, ns: string): set<string> {
    set k | k in m && IsUnder(k, ns) :: k[|ns| + 1..]
  }

  lemma CutPrefix(key: string, ns: string)
    requires IsUnder(key, ns)
    ensures WorkloadKey(ns, key[|ns| + 1..]) == key
  {
    assert key == key[..|ns| + 1] + key[|ns| + 1..];
    assert key[..|ns| + 1] == ns + "/";
  }

  /** One namespace's rows of a workload map, named by workload. */
  function Stripped(m: Spend, ns: string): Spend {
    map w | w in RowNames(m, ns) :: Get(m, WorkloadKey(ns, w))
  }

  lemma StrippedKeys(m: Spend, ns: string, w: string)
    ensures w in Stripped(m, ns) <==> WorkloadKey(ns, w) in m
  {
    var key := WorkloadKey(ns, w);
    assert key[..|ns| + 1] == ns + "/" && key[|ns| + 1..] == w;
    assert IsUnder(key, ns);
    if w in RowNames(m, ns) {
      var k :| k in m && IsUnder(k, ns) && k[|ns| + 1..] == w;
      CutPrefix(k, ns);
    }
  }

  lemma StrippedInsert(m: Spend, key: string, v: int, ns: string)
    requires key !in m
    ensures Stripped(m[key := v], ns) ==
            if IsUnder(key, ns) then Stripped(m, ns)[key[|ns| + 1..] := v] else Stripped(m, ns)
    ensures IsUnder(key, ns) ==> key[|ns| + 1..] !in Stripped(m, ns)
  {
    hide WorkloadKey, IsUnder;
    var n := m[key := v];
    var expected := if IsUnder(key, ns) then Stripped(m, ns)[CutName(key, ns) := v] else Stripped(m, ns);
    if IsUnder(key, ns) {
      CutPrefix(key, ns);
      StrippedKeys(m, ns, CutName(key, ns));
    }
    forall w
      ensures w in Stripped(n, ns) <==> w in expected
      ensures w in expected ==> Stripped(n, ns)[w] == expected[w]
    {
      StrippedKeys(m, ns, w);
      StrippedKeys(n, ns, w);
      UnderItsOwn(ns, w);
      if WorkloadKey(ns, w) == key {
        CutOwn(ns, w);
      }
    }
  }

  function CutName(key: string, ns: string): string
    requires IsUnder(key, ns)
  {
    key[|ns| + 1..]
  }

  lemma UnderItsOwn(ns: string, w: string)
    ensures IsUnder(WorkloadKey(ns, w), ns)
  {
    assert WorkloadKey(ns, w)[..|ns| + 1] == ns + "/";
  }

  lemma CutOwn(ns: string, w: string)
    ensures IsUnder(WorkloadKey(ns, w), ns) && WorkloadKey(ns, w)[|ns| + 1..] == w
  {
    UnderItsOwn(ns, w);
  }

  /** Renaming the rows changes no amount. */
  lemma {:induction false} StrippedTotal(m: Spend, ns: string)
    ensures Total(Stripped(m, ns)) == Total(RowsOf(m, ns))
    decreases |m|
  {
    hide Stripped, RowsOf, Total, IsUnder;
    if m == map[] {
      NoRows(m, ns);
    } else {
      var key :| key in m;
      var rest := m - {key};
      assert m == rest[key := m[key]];
      StrippedTotal(rest, ns);
      StrippedInsert(rest, key, m[key], ns);
      RowsAfter(rest, key, m[key], ns);
      if IsUnder(key, ns) {
        TotalUpdate(Stripped(rest, ns), CutName(key, ns), m[key]);
      }
    }
  }

  lemma NoRows(m: Spend, ns: string)
    requires m == map[]
    ensures Total(Stripped(m, ns)) == 0 && Total(RowsOf(m, ns)) == 0
  {
    assert Stripped(m, ns) == map[] && RowsOf(m, ns) == map[];
  }

  method StripRows(m: Spend, ns: string) returns (rows: Spend)
    ensures rows == Stripped(m, ns)
  {
    rows := map[];
    var todo := m.Keys;
    assert Stripped(m - todo, ns) == map[] by { assert m - todo == map[]; }
    while todo != {}
      invariant todo <= m.Keys
      invariant rows == Stripped(m - todo, ns)
      decreases |todo|
    {
      var key :| key in todo;
      Visit(m, todo, key);
      StrippedInsert(m - todo, key, m[key], ns);
      todo := todo - {key};
      if ns + "/" <= key {
        rows := rows[key[|ns| + 1..] := m[key]];
      }
    }
    assert m - todo == m;
  }

  /** `WorkloadSpend` for one provider: own rows plus the peers' rows. */
  method WorkloadRows(l: ProviderLedger, ns: string) returns (rows: Spend)
    ensures rows == AddMaps(Stripped(l.ownW, ns), Stripped(l.peersW, ns))
  {
    var own := StripRows(l.ownW, ns);
    var peers := StripRows(l.peersW, ns);
    rows := AddInto(own, peers);
  }

  /** What the read returns sums to the namespace's own counter plus the peers' rows. */
  lemma RowsSumToNamespace(w: World, ns: string)
    requires Conserved(w) && SlashFree(ns)
    ensures Total(AddMaps(Stripped(w.l.ownW, ns), Stripped(w.l.peersW, ns))) ==
            Get(w.l.own, ns) + Total(RowsOf(w.l.peersW, ns))
  {
    hide AddMaps, Stripped, RowsOf, Total;
    TotalAddMaps(Stripped(w.l.ownW, ns), Stripped(w.l.peersW, ns));
    StrippedTotal(w.l.ownW, ns);
    StrippedTotal(w.l.peersW, ns);
  }
}
