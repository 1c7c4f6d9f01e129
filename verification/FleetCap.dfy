/**
 When a ladder caps a ceiling: whether every spend above the ceiling's lowest block threshold blocks, with
 the namespace's and the cluster's utilization both in play.
 */
module FleetCap {
  import opened Ladder
  import opened Ledger
  import opened Fleet

  /** The utilization of a namespace that spent `a` in a cluster that spent `c`. */
  function WorstAt(budget: Budget, a: int, c: int): real {
    var n, cl := Percent(a, budget.nsCeiling), Percent(c, budget.clusterCeiling);
    if budget.clusterCeiling > 0 && cl > n then cl else n
  }

  predicate Above(budget: Budget, key: string, a: int, c: int) {
    100 * (if key == CLUSTER_SLOT then c else a) > MinBlockAt(budget.policies) * Ceiling(budget, key)
  }

  /** Every spend above the ceiling's lowest block threshold blocks. */
  ghost predicate CapsSpend(budget: Budget, key: string) {
    forall a: nat, c: nat :: a <= c && Above(budget, key, a, c) ==> BlocksAt(budget.policies, WorstAt(budget, a, c))
  }

  /** In particular a ladder whose blocks dominate does. */
  lemma DominatedCapsSpend(budget: Budget, key: string)
    requires Governs(budget, key) && BlockDominates(budget.policies)
    ensures CapsSpend(budget, key)
  {
    hide BlocksAt, MinBlockAt, BlockDominates, Percent;
    forall a: nat, c: nat | a <= c && Above(budget, key, a, c)
      ensures BlocksAt(budget.policies, WorstAt(budget, a, c))
    {
      PercentReached(if key == CLUSTER_SLOT then c else a, Ceiling(budget, key), MinBlockAt(budget.policies));
      DominatedLadderBlocks(budget.policies, WorstAt(budget, a, c));
    }
  }

  // ---- A test on the ladder alone, for ceilings of more than a hundred cents ----

  /** A ceiling fine enough that a cent is less than a percentage point, and first to be reached. */
  predicate Fine(budget: Budget, key: string) {
    && Ceiling(budget, key) > 100
    && (key == CLUSTER_SLOT || budget.clusterCeiling == 0 || budget.clusterCeiling >= budget.nsCeiling)
  }

  /** The least spend above a percentage lies within a point of it. */
  lemma JustAbove(ceiling: nat, p: nat) returns (x: nat)
    requires ceiling > 100
    ensures 100 * x > p * ceiling && p as real <= Percent(x, ceiling) < (p + 1) as real
  {
    hide Percent;
    x := p * ceiling / 100 + 1;
    assert p * ceiling < 100 * x <= p * ceiling + 100;
    assert (p + 1) * ceiling == p * ceiling + ceiling;
    PercentReached(x, ceiling, p);
    PercentReached(x, ceiling, p + 1);
  }

  lemma UndominatedLetsThrough(budget: Budget, key: string)
    requires Governs(budget, key) && Fine(budget, key) && !BlockDominates(budget.policies)
    ensures !CapsSpend(budget, key)
  {
    hide BlocksAt, MinBlockAt, BlockDominates, Percent;
    var p := UndominatedLadderFails(budget.policies);
    var x := JustAbove(Ceiling(budget, key), p);
    var a: nat := if key == CLUSTER_SLOT then 0 else x;
    assert WorstAt(budget, a, x) == Percent(x, Ceiling(budget, key)) by {
      if key == CLUSTER_SLOT {
        ZeroPercent(budget.nsCeiling);
      } else if budget.clusterCeiling > 0 {
        LargerCeiling(x, budget.nsCeiling, budget.clusterCeiling);
      }
    }
    MoreIsAbove(MinBlockAt(budget.policies), p, Ceiling(budget, key));
    assert Above(budget, key, a, x);
  }

  lemma MoreIsAbove(at: int, p: int, ceiling: nat)
    requires at <= p
    ensures at * ceiling <= p * ceiling
  {
  }

  lemma LargerCeiling(x: nat, small: nat, large: nat)
    requires 0 < small <= large
    ensures Percent(x, large) <= Percent(x, small)
  {
    var s, l, p := small as real, large as real, x as real / large as real;
    assert x as real == p * l >= p * s;
    assert p * s / s <= x as real / s;
  }

  lemma CapsIffDominated(budget: Budget, key: string)
    requires Governs(budget, key) && Fine(budget, key)
    ensures CapsSpend(budget, key) <==> BlockDominates(budget.policies)
  {
    hide CapsSpend, Governs, BlockDominates, Fine;
    if BlockDominates(budget.policies) {
      DominatedCapsSpend(budget, key);
    } else {
      UndominatedLetsThrough(budget, key);
    }
  }

  // ---- And a finite one for any ceilings ----

  /** The same over spends up to the two ceilings. */
  predicate CapsWithin(budget: Budget, key: string) {
    forall a, c :: 0 <= c <= budget.nsCeiling + budget.clusterCeiling + 1 && 0 <= a <= c && Above(budget, key, a, c) ==>
                     BlocksAt(budget.policies, WorstAt(budget, a, c))
  }

  lemma {:induction false} FullIsFull(policies: seq<Policy>, x: real, y: real)
    requires forall i :: 0 <= i < |policies| ==> policies[i].atPercent <= 100
    requires x >= 100.0 && y >= 100.0
    ensures Winner(policies, x) == Winner(policies, y)
  {
    if policies != [] {
      FullIsFull(policies[..|policies| - 1], x, y);
    }
  }

  /** Beyond its ceiling a spend is as good as one just past it. */
  lemma Trimmed(budget: Budget, key: string, a: nat, c: nat) returns (b: nat, d: nat)
    requires Governs(budget, key) && a <= c && Above(budget, key, a, c)
    ensures b <= d <= budget.nsCeiling + budget.clusterCeiling + 1 && Above(budget, key, b, d)
    ensures BlocksAt(budget.policies, WorstAt(budget, b, d)) == BlocksAt(budget.policies, WorstAt(budget, a, c))
  {
    hide MinBlockAt, Percent, Winner;
    var ns, cl := budget.nsCeiling, budget.clusterCeiling;
    b, d := a, c;
    BlockAtMost(budget.policies);
    if key == CLUSTER_SLOT && c > cl {
      d := cl + 1;
      b := if a < d then a else d;
      JustPast(MinBlockAt(budget.policies), cl);
      PercentReached(c, cl, 100);
      PercentReached(d, cl, 100);
      FullIsFull(budget.policies, WorstAt(budget, a, c), WorstAt(budget, b, d));
    } else if key != CLUSTER_SLOT && a > ns {
      b, d := ns + 1, ns + 1;
      JustPast(MinBlockAt(budget.policies), ns);
      PercentReached(a, ns, 100);
      PercentReached(b, ns, 100);
      FullIsFull(budget.policies, WorstAt(budget, a, c), WorstAt(budget, b, d));
    } else if cl == 0 {
      d := a;
    } else if c > cl {
      d := if a > cl then a else cl + 1;
      PercentReached(c, cl, 100);
      PercentReached(d, cl, 100);
      FullIsFull(budget.policies, WorstAt(budget, a, c), WorstAt(budget, b, d));
    }
  }

  lemma BlockAtMost(policies: seq<Policy>)
    requires HasBlock(policies) && forall i :: 0 <= i < |policies| ==> policies[i].atPercent <= 100
    ensures MinBlockAt(policies) <= 100
  {
    MinBlockAtIsLeast(policies);
  }

  lemma JustPast(at: int, ceiling: nat)
    requires at <= 100
    ensures 100 * (ceiling + 1) > at * ceiling
  {
    MoreIsAbove(at, 100, ceiling);
  }

  /** So whether a ladder caps a ceiling is decided by finitely many spends. */
  lemma CapsSpendIsFinite(budget: Budget, key: string)
    requires Governs(budget, key)
    ensures CapsSpend(budget, key) <==> CapsWithin(budget, key)
  {
    hide Above, WorstAt, BlocksAt, Governs;
    if CapsWithin(budget, key) {
      forall a: nat, c: nat | a <= c && Above(budget, key, a, c)
        ensures BlocksAt(budget.policies, WorstAt(budget, a, c))
      {
        var b, d := Trimmed(budget, key, a, c);
      }
    }
  }
}
