/**
 * The single greedy pass of `run_optimization`, over the columns of the ranked
 * list: walk the list once, in rank order, and take each position whose cost
 * still fits on top of the costs already taken. Nothing is reconsidered and a
 * rejection does not end the pass.
 */
module Greedy {

  /** The budget used once the pass has looked at the first `n` positions. */
  function Used(costs: seq<real>, budget: real, n: nat): (used: real)
    requires n <= |costs|
    ensures 0.0 <= budget ==> used <= budget
  {
    if n == 0 then 0.0
    else
      var u := Used(costs, budget, n - 1);
      if u + costs[n - 1] <= budget then u + costs[n - 1] else u
  }

  /** Position `j` is taken: its cost fits on top of what was taken before it. */
  predicate Fits(costs: seq<real>, budget: real, j: nat)
    requires j < |costs|
  {
    Used(costs, budget, j) + costs[j] <= budget
  }

  /** The positions taken among the first `n`, in the order they were taken. */
  function Picks(costs: seq<real>, budget: real, n: nat): (picks: seq<nat>)
    requires n <= |costs|
    ensures |picks| <= n
    ensures forall k :: 0 <= k < |picks| ==> picks[k] < n
  {
    if n == 0 then []
    else
      var prev := Picks(costs, budget, n - 1);
      if Fits(costs, budget, n - 1) then prev + [n - 1] else prev
  }

  /** The positions are taken in rank order, each at most once. */
  lemma {:induction false} PicksInOrder(costs: seq<real>, budget: real, n: nat)
    requires n <= |costs|
    ensures forall k, l :: 0 <= k < l < |Picks(costs, budget, n)| ==>
      Picks(costs, budget, n)[k] < Picks(costs, budget, n)[l]
  {
    if n > 0 {
      PicksInOrder(costs, budget, n - 1);
    }
  }

  /**
   * A position is taken exactly when its cost fits on top of everything taken
   * before it; so a rejected position never stops a later one from being taken.
   */
  lemma {:induction false} PicksIffFits(costs: seq<real>, budget: real, n: nat, j: nat)
    requires j < n <= |costs|
    ensures j in Picks(costs, budget, n) <==> Fits(costs, budget, j)
  {
    var prev := Picks(costs, budget, n - 1);
    if j < n - 1 {
      PicksIffFits(costs, budget, n - 1, j);
      if Fits(costs, budget, n - 1) {
        assert Picks(costs, budget, n) == prev + [n - 1];
      }
    } else if !Fits(costs, budget, j) {
      assert n - 1 !in prev;
    }
  }

  predicate NonNegative(xs: seq<real>) {
    forall k :: 0 <= k < |xs| ==> 0.0 <= xs[k]
  }

  /** The sum of `values` over the taken positions among the first `n`. */
  function Total(costs: seq<real>, values: seq<real>, budget: real, n: nat): (total: real)
    requires |values| == |costs| && n <= |costs|
    ensures NonNegative(values) ==> 0.0 <= total
  {
    if n == 0 then 0.0
    else if Fits(costs, budget, n - 1) then Total(costs, values, budget, n - 1) + values[n - 1]
    else Total(costs, values, budget, n - 1)
  }

  /** The sum of `xs` over the listed positions, added up in list order. */
  function SumAt(xs: seq<real>, picks: seq<nat>): real
    requires forall k :: 0 <= k < |picks| ==> picks[k] < |xs|
  {
    if picks == [] then 0.0
    else SumAt(xs, picks[..|picks| - 1]) + xs[picks[|picks| - 1]]
  }

  lemma SumAtSnoc(xs: seq<real>, picks: seq<nat>, i: nat)
    requires forall k :: 0 <= k < |picks| ==> picks[k] < |xs|
    requires i < |xs|
    ensures SumAt(xs, picks + [i]) == SumAt(xs, picks) + xs[i]
  {
    assert (picks + [i])[..|picks|] == picks;
  }

  /** The running total is the sum of the values at the positions taken. */
  lemma {:induction false} TotalIsSumOfPicks(costs: seq<real>, values: seq<real>, budget: real, n: nat)
    requires |values| == |costs| && n <= |costs|
    ensures Total(costs, values, budget, n) == SumAt(values, Picks(costs, budget, n))
  {
    if n > 0 {
      TotalIsSumOfPicks(costs, values, budget, n - 1);
      if Fits(costs, budget, n - 1) {
        SumAtSnoc(values, Picks(costs, budget, n - 1), n - 1);
      }
    }
  }

  /** The budget used is the sum of the costs taken. */
  lemma {:induction false} UsedIsTotalCost(costs: seq<real>, budget: real, n: nat)
    requires n <= |costs|
    ensures Used(costs, budget, n) == Total(costs, costs, budget, n)
  {
    if n > 0 {
      UsedIsTotalCost(costs, budget, n - 1);
    }
  }

  /**
   * The pass never overspends: once anything is taken the used budget is
   * within the budget, and while nothing is taken it is zero.
   */
  lemma {:induction false} UsedWithinBudget(costs: seq<real>, budget: real, n: nat)
    requires n <= |costs|
    ensures Picks(costs, budget, n) != [] ==> Used(costs, budget, n) <= budget
    ensures Picks(costs, budget, n) == [] ==> Used(costs, budget, n) == 0.0
  {
    if n > 0 {
      UsedWithinBudget(costs, budget, n - 1);
    }
  }
}
