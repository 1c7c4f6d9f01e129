/** The exact condition under which the documented guarantee holds of every fleet and every run. */
module FleetExact {
  import opened Ladder
  import opened Fleet
  import opened FleetCap
  import opened FleetGuarantee
  import opened FleetBreach

  /**
   The documented guarantee holds of every fleet and every run if and only if the boundary region reaches
   down to zero utilization, and the ladder either blocks every spend above its lowest block threshold or
   blocks at zero and so admits nothing.
   */
  lemma GuaranteeIff(budget: Budget, cmax: int, key: string)
    requires Governs(budget, key) && cmax >= 1
    ensures Guaranteed(budget, cmax, key) <==>
            SerializesFromZero(budget) && (CapsSpend(budget, key) || BlocksAt(budget.policies, 0.0))
  {
    hide PermittedRun, FleetRun, Bounded, Stated, StartFleet, Governs, SerializesFromZero, CapsSpend, BlocksAt;
    if !SerializesFromZero(budget) {
      BurstBreaksGuarantee(budget, cmax, key);
    } else if !CapsSpend(budget, key) && !BlocksAt(budget.policies, 0.0) {
      UncappedBreaksGuarantee(budget, cmax, key);
    } else {
      forall missing: nat, replicas: nat, time: int, run: seq<Step> |
        PermittedRun(Stated(budget, cmax, missing, time), StartFleet(budget.scheme, replicas, time), run, key)
        ensures Bounded(Stated(budget, cmax, missing, time),
                        FleetRun(budget.scheme, StartFleet(budget.scheme, replicas, time), run), key)
      {
        if CapsSpend(budget, key) {
          var t, start := Stated(budget, cmax, missing, time), StartFleet(budget.scheme, replicas, time);
          PermittedIsAdmissible(t, start, run, key);
          GuaranteeHolds(budget, cmax, missing, replicas, time, run, key);
        } else {
          BlockedFromZero(budget, cmax, missing, replicas, time, run, key);
        }
      }
    }
  }

  /** For a ladder whose blocks dominate, the margin alone decides. */
  lemma DominatedGuaranteeIff(budget: Budget, cmax: int, key: string)
    requires Governs(budget, key) && BlockDominates(budget.policies) && cmax >= 1
    ensures Guaranteed(budget, cmax, key) <==> MinBlockAt(budget.policies) <= NonNegative(ConfiguredMargin(budget))
  {
    hide Guaranteed, CapsSpend, Governs, BlockDominates, MinBlockAt, BlocksAt;
    DominatedCapsSpend(budget, key);
    GuaranteeIff(budget, cmax, key);
  }

  /** For a ceiling of more than a hundred cents, the ladder and the margin do. */
  lemma LadderGuaranteeIff(budget: Budget, cmax: int, key: string)
    requires Governs(budget, key) && Fine(budget, key) && cmax >= 1
    ensures Guaranteed(budget, cmax, key) <==>
            && MinBlockAt(budget.policies) <= NonNegative(ConfiguredMargin(budget))
            && (BlockDominates(budget.policies) || BlocksAt(budget.policies, 0.0))
  {
    hide Guaranteed, CapsSpend, Governs, BlockDominates, MinBlockAt, BlocksAt, Fine;
    CapsIffDominated(budget, key);
    GuaranteeIff(budget, cmax, key);
  }

  /** And for any ceilings, a test over finitely many spends. */
  lemma TestedGuaranteeIff(budget: Budget, cmax: int, key: string)
    requires Governs(budget, key) && cmax >= 1
    ensures Guaranteed(budget, cmax, key) <==>
            && MinBlockAt(budget.policies) <= NonNegative(ConfiguredMargin(budget))
            && (CapsWithin(budget, key) || BlocksAt(budget.policies, 0.0))
  {
    hide Guaranteed, CapsSpend, CapsWithin, Governs, MinBlockAt, BlocksAt;
    CapsSpendIsFinite(budget, key);
    GuaranteeIff(budget, cmax, key);
  }

  /** The margin rule of the API: where the hard block is present, its margin lies below every block threshold. */
  predicate MarginRule(budget: Budget) {
    budget.margin.Some? ==>
      && 0 <= budget.margin.value <= 100
      && forall i :: 0 <= i < |budget.policies| && budget.policies[i].action == Block ==>
                       budget.margin.value < budget.policies[i].atPercent
  }

  /**
   Of the budgets that rule admits, the guarantee holds of none that sets the hard block, and without it only
   where the default margin of 5 percent reaches the lowest block threshold and the ladder caps or blocks at zero.
   */
  lemma GuaranteeUnderMarginRule(budget: Budget, cmax: int, key: string)
    requires Governs(budget, key) && MarginRule(budget) && cmax >= 1
    ensures Guaranteed(budget, cmax, key) <==>
            && budget.margin.None? && MinBlockAt(budget.policies) <= 5
            && (CapsSpend(budget, key) || BlocksAt(budget.policies, 0.0))
  {
    hide Guaranteed, CapsSpend, MinBlockAt, BlocksAt;
    GuaranteeIff(budget, cmax, key);
    MinBlockAtIsLeast(budget.policies);
  }
}
