/**
 * The priority optimizer: the body of `run_optimization` in app.py.
 *
 * Scores every shaped asset from its max-normalised SAIDI and SAIFI and its
 * health risk, ranks the assets by score per unit of cost (stable, best
 * first), and makes one greedy pass that takes an asset whenever it still
 * fits in the budget. Budget and weights are parameters; the values the
 * application runs with are TargetBudget and DefaultWeights.
 */
module Optimizer {
  import opened Numeric
  import opened AssetShaper
  import Ranking
  import Greedy

  /** The weight table W; `w3` is declared but takes no part in the score. */
  datatype Weights = Weights(w1: real, w2: real, w3: real, w4: real)

  const TargetBudget: real := 1500.0
  const DefaultWeights: Weights := Weights(0.3, 0.2, 0.1, 0.4)
  const StatusOptimal: string := "Optimal"

  /** An asset with the priority_score the optimizer gives it. */
  datatype ScoredAsset = ScoredAsset(asset: Asset, score: real)

  /** One entry of the response's `selected` list (talep_no, tur, grup, maliyet, skor). */
  datatype SelectedItem = SelectedItem(
    requestNo: string,
    operationType: string,
    group: string,
    cost: real,
    score: real)

  /** The response of a successful run. */
  datatype OptimizationResult = OptimizationResult(
    status: string,
    selectedCount: nat,
    usedBudget: real,
    budget: real,
    objectiveValue: real,
    selected: seq<SelectedItem>)

  // ---------------------------------------------------------------------------
  // Normalisation and scoring
  // ---------------------------------------------------------------------------

  /** `max(xs, default=d)`. */
  function MaxOr(xs: seq<real>, d: real): (m: real)
    ensures xs == [] ==> m == d
    ensures forall k :: 0 <= k < |xs| ==> xs[k] <= m
    ensures xs != [] ==> exists k :: 0 <= k < |xs| && xs[k] == m
  {
    if xs == [] then d
    else if |xs| == 1 then xs[0]
    else
      var rest := MaxOr(xs[1..], d);
      assert forall k :: 1 <= k < |xs| ==> xs[k] == xs[1..][k - 1];
      if xs[0] >= rest then xs[0] else rest
  }

  function Saidis(assets: seq<Asset>): (xs: seq<real>)
    ensures |xs| == |assets|
  {
    seq(|assets|, k requires 0 <= k < |assets| => assets[k].saidi)
  }

  function Saifis(assets: seq<Asset>): (xs: seq<real>)
    ensures |xs| == |assets|
  {
    seq(|assets|, k requires 0 <= k < |assets| => assets[k].saifi)
  }

  /** `v / m if m > 0 else 0`. */
  function Normalise(v: real, m: real): (r: real)
    ensures m <= 0.0 ==> r == 0.0
    ensures 0.0 <= v <= m ==> 0.0 <= r <= 1.0
  {
    if m > 0.0 then v / m else 0.0
  }

  /** w1 * normalised SAIDI + w2 * normalised SAIFI + w4 * health risk. */
  function PriorityScore(a: Asset, maxSaidi: real, maxSaifi: real, w: Weights): real {
    Combine(w.w1, w.w2, w.w4, Normalise(a.saidi, maxSaidi), Normalise(a.saifi, maxSaifi),
            HealthRisk(a.healthUi))
  }

  /** The health risk: how far health_ui falls short of 100, as a fraction. */
  function HealthRisk(healthUi: real): (r: real)
    ensures 0.0 <= healthUi <= 100.0 ==> 0.0 <= r <= 1.0
  {
    (100.0 - healthUi) / 100.0
  }

  /** The weighted sum of the three criteria. */
  function Combine(w1: real, w2: real, w4: real, s1: real, s2: real, s4: real): real {
    w1 * s1 + w2 * s2 + w4 * s4
  }

  /** Every asset paired with its score; the maxima default to 1 on an empty list. */
  function ScoreAll(assets: seq<Asset>, w: Weights): (scored: seq<ScoredAsset>)
    ensures |scored| == |assets|
    ensures forall k :: 0 <= k < |assets| ==> scored[k].asset == assets[k]
  {
    var maxSaidi := MaxOr(Saidis(assets), 1.0);
    var maxSaifi := MaxOr(Saifis(assets), 1.0);
    seq(|assets|, k requires 0 <= k < |assets| =>
      ScoredAsset(assets[k], PriorityScore(assets[k], maxSaidi, maxSaifi, w)))
  }

  /** The scoring loop: one scored record per asset, in the same order. */
  method ScoreAssets(assets: seq<Asset>, w: Weights) returns (scored: seq<ScoredAsset>)
    ensures scored == ScoreAll(assets, w)
  {
    var maxSaidi := MaxOr(Saidis(assets), 1.0);
    var maxSaifi := MaxOr(Saifis(assets), 1.0);
    ghost var all := ScoreAll(assets, w);
    scored := [];
    for n := 0 to |assets|
      invariant scored == all[..n]
    {
      var a := assets[n];
      var priorityScore := PriorityScore(a, maxSaidi, maxSaifi, w);
      assert all[n] == ScoredAsset(a, priorityScore);
      scored := scored + [ScoredAsset(a, priorityScore)];
    }
    assert all[..|assets|] == all;
  }

  /** The weight w3 never changes any score. */
  lemma ScoreIgnoresW3(assets: seq<Asset>, w: Weights, w3: real)
    ensures ScoreAll(assets, w.(w3 := w3)) == ScoreAll(assets, w)
  {
    var w' := w.(w3 := w3);
    assert w'.w1 == w.w1 && w'.w2 == w.w2 && w'.w4 == w.w4;
    var m1, m2 := MaxOr(Saidis(assets), 1.0), MaxOr(Saifis(assets), 1.0);
    forall a: Asset ensures PriorityScore(a, m1, m2, w') == PriorityScore(a, m1, m2, w) {
    }
  }

  /**
   * With non-negative metrics, health in [0, 100] and non-negative weights,
   * every score lies between 0 and w1 + w2 + w4.
   */
  lemma ScoreBounds(assets: seq<Asset>, w: Weights, k: nat)
    requires k < |assets|
    requires forall j :: 0 <= j < |assets| ==> 0.0 <= assets[j].saidi && 0.0 <= assets[j].saifi
    requires 0.0 <= assets[k].healthUi <= 100.0
    requires 0.0 <= w.w1 && 0.0 <= w.w2 && 0.0 <= w.w4
    ensures 0.0 <= ScoreAll(assets, w)[k].score <= w.w1 + w.w2 + w.w4
  {
    var xs, ys := Saidis(assets), Saifis(assets);
    var m1, m2 := MaxOr(xs, 1.0), MaxOr(ys, 1.0);
    var a := assets[k];
    assert xs[k] == a.saidi && ys[k] == a.saifi;
    assert ScoreAll(assets, w)[k].score == PriorityScore(a, m1, m2, w);
    WeightedSumBounds(w.w1, w.w2, w.w4, Normalise(a.saidi, m1), Normalise(a.saifi, m2), HealthRisk(a.healthUi));
  }

  lemma WeightedSumBounds(w1: real, w2: real, w4: real, s1: real, s2: real, s4: real)
    requires 0.0 <= w1 && 0.0 <= w2 && 0.0 <= w4
    requires 0.0 <= s1 <= 1.0 && 0.0 <= s2 <= 1.0 && 0.0 <= s4 <= 1.0
    ensures 0.0 <= Combine(w1, w2, w4, s1, s2, s4) <= w1 + w2 + w4
  {
    WeightedTermBounds(w1, s1);
    WeightedTermBounds(w2, s2);
    WeightedTermBounds(w4, s4);
    SumOfBounded(w1 * s1, w2 * s2, w4 * s4, w1, w2, w4);
  }

  /** Plain linear step, kept apart so that the solver sees no products here. */
  lemma SumOfBounded(x: real, y: real, z: real, a: real, b: real, c: real)
    requires 0.0 <= x <= a && 0.0 <= y <= b && 0.0 <= z <= c
    ensures 0.0 <= x + y + z <= a + b + c
  {
  }

  lemma WeightedTermBounds(w: real, s: real)
    requires 0.0 <= w && 0.0 <= s <= 1.0
    ensures 0.0 <= w * s <= w
  {
    assert w - w * s == w * (1.0 - s);
  }

  /** Raising one entry of a list raises its maximum to at most that entry. */
  lemma MaxAfterRaise(xs: seq<real>, k: nat, v: real, d: real)
    requires k < |xs| && xs[k] <= v
    ensures MaxOr(xs[k := v], d) == (if MaxOr(xs, d) >= v then MaxOr(xs, d) else v)
  {
    var ys := xs[k := v];
    var m, m' := MaxOr(xs, d), MaxOr(ys, d);
    var i :| 0 <= i < |xs| && xs[i] == m;
    if i != k {
      assert ys[i] == m;
    }
    var i' :| 0 <= i' < |ys| && ys[i'] == m';
    if i' != k {
      assert xs[i'] == m';
    }
    assert ys[k] == v;
  }

  /** A larger value, normalised against the maximum it leads to, is no smaller. */
  lemma NormaliseRaise(s: real, m: real, v: real)
    requires s <= m && s <= v
    ensures Normalise(v, if m >= v then m else v) >= Normalise(s, m)
  {
    if m > 0.0 {
      if m >= v {
        QuotientMonotone(s, v, m);
      } else {
        assert v / v == 1.0;
        QuotientAtMostOne(s, m);
      }
    }
  }

  lemma QuotientMonotone(s: real, v: real, m: real)
    requires 0.0 < m && s <= v
    ensures s / m <= v / m
  {
    assert v / m - s / m == (v - s) / m;
  }

  lemma QuotientAtMostOne(s: real, m: real)
    requires 0.0 < m && s <= m
    ensures s / m <= 1.0
  {
    var q := s / m;
    assert q * m == s;
  }

  /**
   * Raising an asset's SAIDI and SAIFI (everything else fixed) never lowers
   * its score, when w1 and w2 are non-negative; the maxima may move with it.
   */
  lemma ScoreMonotone(assets: seq<Asset>, w: Weights, k: nat, saidi: real, saifi: real)
    requires k < |assets|
    requires assets[k].saidi <= saidi && assets[k].saifi <= saifi
    requires 0.0 <= w.w1 && 0.0 <= w.w2
    ensures ScoreAll(assets[k := assets[k].(saidi := saidi, saifi := saifi)], w)[k].score
         >= ScoreAll(assets, w)[k].score
  {
    var a := assets[k];
    var raised := assets[k := a.(saidi := saidi, saifi := saifi)];
    var xs, ys := Saidis(assets), Saifis(assets);
    assert Saidis(raised) == xs[k := saidi];
    assert Saifis(raised) == ys[k := saifi];
    assert xs[k] == a.saidi && ys[k] == a.saifi;
    var m1, m2 := MaxOr(xs, 1.0), MaxOr(ys, 1.0);
    MaxAfterRaise(xs, k, saidi, 1.0);
    MaxAfterRaise(ys, k, saifi, 1.0);
    NormaliseRaise(a.saidi, m1, saidi);
    NormaliseRaise(a.saifi, m2, saifi);
    var n1, n1' := Normalise(a.saidi, m1), Normalise(saidi, if m1 >= saidi then m1 else saidi);
    var n2, n2' := Normalise(a.saifi, m2), Normalise(saifi, if m2 >= saifi then m2 else saifi);
    var h := HealthRisk(a.healthUi);
    assert ScoreAll(assets, w)[k].score == PriorityScore(a, m1, m2, w);
    assert ScoreAll(raised, w)[k].score
        == PriorityScore(raised[k], MaxOr(Saidis(raised), 1.0), MaxOr(Saifis(raised), 1.0), w);
    WeightedSumGrows(w.w1, w.w2, w.w4, n1, n1', n2, n2', h);
  }

  lemma WeightedSumGrows(w1: real, w2: real, w4: real, n1: real, n1': real, n2: real, n2': real, h: real)
    requires 0.0 <= w1 && 0.0 <= w2 && n1 <= n1' && n2 <= n2'
    ensures Combine(w1, w2, w4, n1, n2, h) <= Combine(w1, w2, w4, n1', n2', h)
  {
    WeightedTermGrows(w1, n1, n1');
    WeightedTermGrows(w2, n2, n2');
    SumOfSmaller(w1 * n1, w1 * n1', w2 * n2, w2 * n2', w4 * h);
  }

  lemma SumOfSmaller(x: real, x': real, y: real, y': real, z: real)
    requires x <= x' && y <= y'
    ensures x + y + z <= x' + y' + z
  {
  }

  lemma WeightedTermGrows(w: real, s: real, s': real)
    requires 0.0 <= w && s <= s'
    ensures w * s <= w * s'
  {
    assert w * s' - w * s == w * (s' - s);
  }

  // ---------------------------------------------------------------------------
  // Ranking by score per unit of cost
  // ---------------------------------------------------------------------------

  /** The sort key: score / max(cost, 1). */
  function Efficiency(s: ScoredAsset): (e: real)
    ensures 0.0 <= s.score ==> 0.0 <= e <= s.score
  {
    s.score / (if s.asset.cost < 1.0 then 1.0 else s.asset.cost)
  }

  function Efficiencies(scored: seq<ScoredAsset>): (keys: seq<real>)
    ensures |keys| == |scored|
    ensures forall k :: 0 <= k < |scored| ==> keys[k] == Efficiency(scored[k])
  {
    seq(|scored|, k requires 0 <= k < |scored| => Efficiency(scored[k]))
  }

  /** Which original position ends up at each place of the sorted list. */
  function RankOrder(scored: seq<ScoredAsset>): (perm: seq<nat>)
    ensures |perm| == |scored|
    ensures forall x: nat :: x in perm <==> x < |scored|
    ensures Ranking.Ranked(Efficiencies(scored), perm)
  {
    Ranking.Rank(Efficiencies(scored))
  }

  /**
   * `scored_assets.sort(key=score / max(cost, 1), reverse=True)`: a
   * rearrangement of the list in which the key never increases and assets
   * with equal keys keep their original relative order.
   */
  function SortByEfficiency(scored: seq<ScoredAsset>): (ranked: seq<ScoredAsset>)
    ensures |ranked| == |scored|
    ensures forall p :: 0 <= p < |ranked| ==> ranked[p] == scored[RankOrder(scored)[p]]
    ensures forall p, q :: 0 <= p < q < |ranked| ==> Efficiency(ranked[p]) >= Efficiency(ranked[q])
    ensures forall p, q :: 0 <= p < q < |ranked| && Efficiency(ranked[p]) == Efficiency(ranked[q])
              ==> RankOrder(scored)[p] < RankOrder(scored)[q]
  {
    var perm := RankOrder(scored);
    GatherRanked(scored, perm);
    Ranking.Gather(scored, perm)
  }

  /** Reading the scored list in a ranked order gives keys that never increase, ties in order. */
  lemma GatherRanked(scored: seq<ScoredAsset>, perm: seq<nat>)
    requires Ranking.Ranked(Efficiencies(scored), perm)
    ensures forall p, q :: 0 <= p < q < |perm| ==>
      Efficiency(Ranking.Gather(scored, perm)[p]) >= Efficiency(Ranking.Gather(scored, perm)[q])
    ensures forall p, q :: 0 <= p < q < |perm| ==>
      (Efficiency(Ranking.Gather(scored, perm)[p]) == Efficiency(Ranking.Gather(scored, perm)[q])
       ==> perm[p] < perm[q])
  {
    var keys := Efficiencies(scored);
    var ranked := Ranking.Gather(scored, perm);
    forall p, q | 0 <= p < q < |perm|
      ensures Efficiency(ranked[p]) >= Efficiency(ranked[q])
      ensures Efficiency(ranked[p]) == Efficiency(ranked[q]) ==> perm[p] < perm[q]
    {
      assert Ranking.Precedes(keys, perm[p], perm[q]);
      assert Efficiency(ranked[p]) == keys[perm[p]] && Efficiency(ranked[q]) == keys[perm[q]];
    }
  }

  /** The sort reorders the scored assets and changes none of them. */
  lemma SortKeepsMultiset(scored: seq<ScoredAsset>)
    ensures multiset(SortByEfficiency(scored)) == multiset(scored)
  {
    Ranking.GatherRank(Efficiencies(scored), scored);
  }

  // ---------------------------------------------------------------------------
  // Greedy budget-bounded selection
  // ---------------------------------------------------------------------------

  /** The cost column of the ranked list. */
  function Costs(ranked: seq<ScoredAsset>): (xs: seq<real>)
    ensures |xs| == |ranked|
    ensures forall k :: 0 <= k < |ranked| ==> xs[k] == ranked[k].asset.cost
  {
    seq(|ranked|, k requires 0 <= k < |ranked| => ranked[k].asset.cost)
  }

  /** The score column of the ranked list. */
  function Scores(ranked: seq<ScoredAsset>): (xs: seq<real>)
    ensures |xs| == |ranked|
    ensures forall k :: 0 <= k < |ranked| ==> xs[k] == ranked[k].score
  {
    seq(|ranked|, k requires 0 <= k < |ranked| => ranked[k].score)
  }

  /** The response entry for a taken asset; its score is rounded to 4 decimals. */
  function ItemOf(s: ScoredAsset): (item: SelectedItem)
    ensures item.requestNo == s.asset.requestNo && item.operationType == s.asset.operationType
    ensures item.group == s.asset.group && item.cost == s.asset.cost
    ensures s.score - 0.00005 <= item.score <= s.score + 0.00005
  {
    assert Pow10(4) == 10000;
    SelectedItem(s.asset.requestNo, s.asset.operationType, s.asset.group, s.asset.cost, RoundTo(s.score, 4))
  }

  /** The response entries for the taken positions, in the order taken. */
  function Items(ranked: seq<ScoredAsset>, picks: seq<nat>): (items: seq<SelectedItem>)
    requires forall k :: 0 <= k < |picks| ==> picks[k] < |ranked|
    ensures |items| == |picks|
    ensures forall k :: 0 <= k < |picks| ==> items[k] == ItemOf(ranked[picks[k]])
  {
    seq(|picks|, k requires 0 <= k < |picks| => ItemOf(ranked[picks[k]]))
  }

  lemma ItemsSnoc(ranked: seq<ScoredAsset>, picks: seq<nat>, i: nat)
    requires forall k :: 0 <= k < |picks| ==> picks[k] < |ranked|
    requires i < |ranked|
    ensures Items(ranked, picks + [i]) == Items(ranked, picks) + [ItemOf(ranked[i])]
  {
  }

  /** The taken positions of the ranked list. */
  function Taken(ranked: seq<ScoredAsset>, budget: real): (picks: seq<nat>)
    ensures forall k :: 0 <= k < |picks| ==> picks[k] < |ranked|
  {
    Greedy.Picks(Costs(ranked), budget, |ranked|)
  }

  /** The greedy loop over the ranked list, with its three accumulators. */
  method GreedySelect(ranked: seq<ScoredAsset>, budget: real)
    returns (selected: seq<SelectedItem>, usedBudget: real, totalObjective: real)
    ensures selected == Items(ranked, Taken(ranked, budget))
    ensures usedBudget == Greedy.Used(Costs(ranked), budget, |ranked|)
    ensures totalObjective == Greedy.Total(Costs(ranked), Scores(ranked), budget, |ranked|)
  {
    var costs, scores := Costs(ranked), Scores(ranked);
    selected, usedBudget, totalObjective := [], 0.0, 0.0;
    for i := 0 to |ranked|
      invariant selected == Items(ranked, Greedy.Picks(costs, budget, i))
      invariant usedBudget == Greedy.Used(costs, budget, i)
      invariant totalObjective == Greedy.Total(costs, scores, budget, i)
    {
      var item := ranked[i];
      if usedBudget + item.asset.cost <= budget {
        ItemsSnoc(ranked, Greedy.Picks(costs, budget, i), i);
        selected := selected + [ItemOf(item)];
        usedBudget := usedBudget + item.asset.cost;
        totalObjective := totalObjective + item.score;
      }
    }
  }

  /** The sum of `maliyet` over response entries. */
  function CostSum(items: seq<SelectedItem>): real {
    if items == [] then 0.0 else CostSum(items[..|items| - 1]) + items[|items| - 1].cost
  }

  lemma {:induction false} ItemsCostSum(ranked: seq<ScoredAsset>, picks: seq<nat>)
    requires forall k :: 0 <= k < |picks| ==> picks[k] < |ranked|
    ensures Greedy.SumAt(Costs(ranked), picks) == CostSum(Items(ranked, picks))
  {
    if picks != [] {
      var init := picks[..|picks| - 1];
      ItemsCostSum(ranked, init);
      assert Items(ranked, picks)[..|picks| - 1] == Items(ranked, init);
    }
  }

  /**
   * The used budget is the total cost of the selected entries, and it is
   * within the budget whenever anything is selected.
   */
  lemma SelectionWithinBudget(ranked: seq<ScoredAsset>, budget: real)
    ensures Greedy.Used(Costs(ranked), budget, |ranked|) == CostSum(Items(ranked, Taken(ranked, budget)))
    ensures Taken(ranked, budget) != [] ==> Greedy.Used(Costs(ranked), budget, |ranked|) <= budget
    ensures Taken(ranked, budget) == [] ==> Greedy.Used(Costs(ranked), budget, |ranked|) == 0.0
  {
    var costs := Costs(ranked);
    Greedy.UsedIsTotalCost(costs, budget, |ranked|);
    Greedy.TotalIsSumOfPicks(costs, costs, budget, |ranked|);
    ItemsCostSum(ranked, Taken(ranked, budget));
    Greedy.UsedWithinBudget(costs, budget, |ranked|);
  }

  // ---------------------------------------------------------------------------
  // The whole run
  // ---------------------------------------------------------------------------

  /** The response: used budget rounded to 2 decimals, objective to 4. */
  function Report(selected: seq<SelectedItem>, usedBudget: real, budget: real, totalObjective: real)
    : (res: OptimizationResult)
    ensures res.status == StatusOptimal && res.selected == selected && res.selectedCount == |selected|
    ensures res.budget == budget
    ensures usedBudget - 0.005 <= res.usedBudget <= usedBudget + 0.005
    ensures totalObjective - 0.00005 <= res.objectiveValue <= totalObjective + 0.00005
  {
    assert Pow10(2) == 100 && Pow10(4) == 10000;
    OptimizationResult(StatusOptimal, |selected|, RoundTo(usedBudget, 2), budget,
                       RoundTo(totalObjective, 4), selected)
  }

  /** The scored assets of a data source, best score per unit of cost first. */
  function RankedAssets(src: DataSource, w: Weights): (ranked: seq<ScoredAsset>)
    ensures |ranked| == |src.ids|
    ensures multiset(ranked) == multiset(ScoreAll(Shape(src), w))
    ensures forall p, q :: 0 <= p < q < |ranked| ==> Efficiency(ranked[p]) >= Efficiency(ranked[q])
  {
    var scored := ScoreAll(Shape(src), w);
    SortKeepsMultiset(scored);
    SortByEfficiency(scored)
  }

  /** What a run returns for a data source, a budget and a weight table. */
  function Optimization(src: DataSource, budget: real, w: Weights): OptimizationResult {
    var ranked := RankedAssets(src, w);
    Report(Items(ranked, Taken(ranked, budget)), Greedy.Used(Costs(ranked), budget, |ranked|), budget,
           Greedy.Total(Costs(ranked), Scores(ranked), budget, |ranked|))
  }

  /** `run_optimization`: shape, score, sort, select, report. */
  method RunOptimization(src: DataSource, budget: real, w: Weights) returns (res: OptimizationResult)
    ensures res == Optimization(src, budget, w)
  {
    var assets := GetAllAssets(src);
    var scored := ScoreAssets(assets, w);
    var ranked := SortByEfficiency(scored);
    var selected, usedBudget, totalObjective := GreedySelect(ranked, budget);
    res := Report(selected, usedBudget, budget, totalObjective);
  }

  /**
   * The response of every run: status "Optimal", the budget echoed, a count
   * that matches the list, at most one entry per asset, a used budget that is
   * the total cost of the entries (to the cent) and within the budget, and
   * zero totals when nothing is selected.
   */
  lemma OptimizationResponse(src: DataSource, budget: real, w: Weights)
    ensures var res := Optimization(src, budget, w);
      && res.status == StatusOptimal && res.budget == budget
      && res.selectedCount == |res.selected| <= |src.ids|
      && CostSum(res.selected) - 0.005 <= res.usedBudget <= CostSum(res.selected) + 0.005
      && (res.selected != [] ==> res.usedBudget <= budget + 0.005)
      && (res.selected == [] ==> res.usedBudget == 0.0 && res.objectiveValue == 0.0)
      && (src.ids == [] ==> res.selected == [])
  {
    var ranked := RankedAssets(src, w);
    var costs, picks := Costs(ranked), Taken(ranked, budget);
    SelectionWithinBudget(ranked, budget);
    if picks == [] {
      Greedy.TotalIsSumOfPicks(costs, Scores(ranked), budget, |ranked|);
      RoundZero(2);
      RoundZero(4);
    }
  }
}
