/**
 The policy ladder: which budget action fires at a utilization, and when a ladder is a cap, that is,
 when reaching its lowest block threshold always blocks.
 */
module Ladder {
  import opened Decimal
  import opened Periods

  datatype Action = Warn | DegradeTo(model: string) | Block

  datatype Policy = Policy(atPercent: int, action: Action)

  /**
   The budget part of a provider. Ceilings are in cents; a ceiling that is absent, unreadable or not
   positive is 0. `margin` is hard.boundaryMarginPercent, None when the hard block is absent.
   */
  datatype Budget = Budget(
    scheme: Scheme, nsCeiling: nat, clusterCeiling: nat,
    policies: seq<Policy>, hard: bool, margin: Option<int>)

  predicate Crossed(p: Policy, worst: real) { worst >= p.atPercent as real }

  predicate HasBlock(policies: seq<Policy>) {
    exists i :: 0 <= i < |policies| && policies[i].action == Block
  }

  // ---- hardActive, minBlockAt, configuredMarginPercent ----

  method HardActive(budget: Budget) returns (r: bool)
    ensures r <==> budget.hard && HasBlock(budget.policies)
  {
    if !budget.hard {
      return false;
    }
    for i := 0 to |budget.policies|
      invariant forall j :: 0 <= j < i ==> budget.policies[j].action != Block
    {
      if budget.policies[i].action == Block {
        return true;
      }
    }
    return false;
  }

  /** The lowest block threshold; 101 when there is no block policy. */
  function MinBlockAt(policies: seq<Policy>): int {
    if policies == [] then 101 else
      var rest := MinBlockAt(policies[..|policies| - 1]);
      var last := policies[|policies| - 1];
      if last.action == Block && last.atPercent < rest then last.atPercent else rest
  }

  method FindMinBlockAt(policies: seq<Policy>) returns (at: int)
    ensures at == MinBlockAt(policies)
  {
    at := 101;
    for i := 0 to |policies|
      invariant at == MinBlockAt(policies[..i])
    {
      assert policies[..i + 1][..i] == policies[..i];
      if policies[i].action == Block && policies[i].atPercent < at {
        at := policies[i].atPercent;
      }
    }
    assert policies[..|policies|] == policies;
  }

  /** MinBlockAt is the minimum: at most every block threshold, and one of them or the sentinel. */
  lemma {:induction false} MinBlockAtIsLeast(policies: seq<Policy>)
    ensures forall i :: 0 <= i < |policies| && policies[i].action == Block ==>
      MinBlockAt(policies) <= policies[i].atPercent
    ensures MinBlockAt(policies) == 101 ||
            exists i :: 0 <= i < |policies| && policies[i].action == Block
              && policies[i].atPercent == MinBlockAt(policies)
    ensures MinBlockAt(policies) <= 101
  {
    if policies != [] {
      var init := policies[..|policies| - 1];
      MinBlockAtIsLeast(init);
      assert forall i :: 0 <= i < |init| ==> init[i] == policies[i];
      if MinBlockAt(policies) == MinBlockAt(init) && MinBlockAt(init) != 101 {
        var i :| 0 <= i < |init| && init[i].action == Block && init[i].atPercent == MinBlockAt(init);
        assert policies[i].action == Block;
      }
    }
  }

  function ConfiguredMargin(budget: Budget): int {
    match budget.margin
    case Some(m) => m
    case None => 5
  }

  // ---- decide ----

  /** The policy that fires: among the crossed ones the highest threshold, the first of equals. */
  function Winner(policies: seq<Policy>, worst: real): Option<Policy> {
    if policies == [] then None else
      var rest := Winner(policies[..|policies| - 1], worst);
      var last := policies[|policies| - 1];
      if Crossed(last, worst) && (rest == None || last.atPercent > rest.value.atPercent) then Some(last) else rest
  }

  method Decide(policies: seq<Policy>, worst: real) returns (winner: Option<Policy>)
    ensures winner == Winner(policies, worst)
  {
    winner := None;
    for i := 0 to |policies|
      invariant winner == Winner(policies[..i], worst)
    {
      assert policies[..i + 1][..i] == policies[..i];
      if Crossed(policies[i], worst) && (winner == None || policies[i].atPercent > winner.value.atPercent) {
        winner := Some(policies[i]);
      }
    }
    assert policies[..|policies|] == policies;
  }

  predicate IsWinner(policies: seq<Policy>, worst: real, i: nat) {
    && i < |policies| && Crossed(policies[i], worst)
    && forall j :: 0 <= j < |policies| && Crossed(policies[j], worst) ==>
                     policies[j].atPercent < policies[i].atPercent
                       || (policies[j].atPercent == policies[i].atPercent && i <= j)
  }

  /** The loop's choice, stated without the loop. */
  lemma {:induction false} WinnerIs(policies: seq<Policy>, worst: real) returns (i: nat)
    ensures Winner(policies, worst) == None ==> forall j :: 0 <= j < |policies| ==> !Crossed(policies[j], worst)
    ensures Winner(policies, worst).Some? ==>
      IsWinner(policies, worst, i) && policies[i] == Winner(policies, worst).value
  {
    i := 0;
    if policies != [] {
      var n := |policies| - 1;
      var init := policies[..n];
      i := WinnerIs(init, worst);
      assert forall j :: 0 <= j < n ==> init[j] == policies[j];
      if Winner(policies, worst) != Winner(init, worst) {
        i := n;
      }
    }
  }

  // ---- When a ladder is a cap ----

  predicate BlocksAt(policies: seq<Policy>, worst: real) {
    Winner(policies, worst).Some? && Winner(policies, worst).value.action == Block
  }

  /** Reaching the lowest block threshold blocks, at every utilization from there up. */
  ghost predicate IsCap(policies: seq<Policy>) {
    forall worst: real :: worst >= MinBlockAt(policies) as real ==> BlocksAt(policies, worst)
  }

  /** Above the lowest block threshold, a warn or degrade threshold is shadowed by an equal, earlier block. */
  predicate BlockDominates(policies: seq<Policy>) {
    forall i :: 0 <= i < |policies| && policies[i].action != Block && policies[i].atPercent >= MinBlockAt(policies) ==>
                  exists j :: 0 <= j < i && policies[j].action == Block
                    && policies[j].atPercent == policies[i].atPercent
  }

  lemma DominatedLadderBlocks(policies: seq<Policy>, worst: real)
    requires HasBlock(policies) && BlockDominates(policies)
    requires worst >= MinBlockAt(policies) as real
    requires forall i :: 0 <= i < |policies| ==> policies[i].atPercent <= 100
    ensures BlocksAt(policies, worst)
  {
    MinBlockAtIsLeast(policies);
    var b :| 0 <= b < |policies| && policies[b].action == Block && policies[b].atPercent == MinBlockAt(policies);
    assert Crossed(policies[b], worst);
    var w := WinnerIs(policies, worst);
    forall j | 0 <= j < w
      ensures policies[j].atPercent != policies[w].atPercent
    {
      assert policies[j].atPercent == policies[w].atPercent ==> Crossed(policies[j], worst);
    }
  }

  /** An undominated threshold opens a band of one percentage point in which nothing blocks. */
  lemma UndominatedLadderFails(policies: seq<Policy>) returns (p: int)
    requires !BlockDominates(policies)
    ensures p >= MinBlockAt(policies) && exists i :: 0 <= i < |policies| && policies[i].atPercent == p
    ensures forall worst: real :: p as real <= worst < (p + 1) as real ==> !BlocksAt(policies, worst)
  {
    var i :| && 0 <= i < |policies| && policies[i].action != Block && policies[i].atPercent >= MinBlockAt(policies)
             && forall j :: 0 <= j < i ==>
               !(policies[j].action == Block && policies[j].atPercent == policies[i].atPercent);
    p := policies[i].atPercent;
    forall worst: real | p as real <= worst < (p + 1) as real
      ensures !BlocksAt(policies, worst)
    {
      var w := WinnerIs(policies, worst);
      assert Crossed(policies[i], worst);
    }
  }

  /** A ladder with a block policy caps spend exactly when its blocks dominate. */
  lemma CapIffDominated(policies: seq<Policy>)
    requires HasBlock(policies)
    requires forall i :: 0 <= i < |policies| ==> policies[i].atPercent <= 100
    ensures IsCap(policies) <==> BlockDominates(policies)
  {
    if BlockDominates(policies) {
      forall worst: real | worst >= MinBlockAt(policies) as real
        ensures BlocksAt(policies, worst)
      {
        DominatedLadderBlocks(policies, worst);
      }
    } else {
      var p := UndominatedLadderFails(policies);
      assert !BlocksAt(policies, p as real);
    }
  }

  /** A warn at 90 listed beside a block at 80 lets spend past the block again at 90 percent. */
  lemma WarnAboveBlockLiftsTheCap()
    ensures
      var policies := [Policy(80, Block), Policy(90, Warn)];
      BlocksAt(policies, 85.0) && !BlocksAt(policies, 90.0) && !IsCap(policies)
  {
    var policies := [Policy(80, Block), Policy(90, Warn)];
    assert policies[..1] == [Policy(80, Block)] && policies[..1][..0] == [];
    assert Winner(policies[..1], 85.0) == Some(Policy(80, Block));
    assert Winner(policies[..1], 90.0) == Some(Policy(80, Block));
    assert MinBlockAt(policies[..1]) == 80;
  }
}
