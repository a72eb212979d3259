/**
 * Whole runs of the optimizer on a small data source: two assets, A (id 1)
 * with SAIDI 10, SAIFI 5, cost 100 and health index 2000, and B (id 2) with
 * SAIDI 2, SAIFI 1, cost 50 and health index 9000, under the default weights.
 */
module Scenarios {
  import opened Numeric
  import opened AssetShaper
  import opened Optimizer
  import Greedy
  import Ranking

  function TwoAssets(): DataSource {
    DataSource(
      ids := [1, 2],
      healthIndex := map[1 := 2000.0, 2 := 9000.0],
      assetType := map[],
      saidi := map[1 := 10.0, 2 := 2.0],
      saifi := map[1 := 5.0, 2 := 1.0],
      cost := map[1 := 100.0, 2 := 50.0],
      category := map[])
  }

  function AssetA(): Asset {
    Asset(1, RequestNumber(1), 10.0, 5.0, 100.0, DefaultGroup, false, 2000.0, 20.0, High, InvestmentOperation)
  }

  function AssetB(): Asset {
    Asset(2, RequestNumber(2), 2.0, 1.0, 50.0, DefaultGroup, false, 9000.0, 90.0, Low, InvestmentOperation)
  }

  /** health_ui is 20.0 for A and 90.0 for B. */
  lemma HealthOfExample()
    ensures HealthUi(2000.0) == 20.0 && HealthUi(9000.0) == 90.0
  {
    assert Pow10(1) == 10;
    assert RoundHalfEven(200.0) == 200;
    assert RoundHalfEven(900.0) == 900;
  }

  lemma ShapedExample()
    ensures Shape(TwoAssets()) == [AssetA(), AssetB()]
  {
    HealthOfExample();
    var src := TwoAssets();
    assert ShapeAsset(src, 1) == AssetA();
    assert ShapeAsset(src, 2) == AssetB();
  }

  lemma DigitsOfExample()
    ensures NatToDecimal(1001) == "1001" && NatToDecimal(1002) == "1002"
  {
    assert NatToDecimal(1) == "1" && NatToDecimal(10) == "1" + "0";
    assert NatToDecimal(100) == NatToDecimal(10) + "0" == "100";
    assert NatToDecimal(1001) == NatToDecimal(100) + "1";
    assert NatToDecimal(1002) == NatToDecimal(100) + "2";
  }

  /** talep_no of ids 1 and 2. */
  lemma RequestNumbersOfExample()
    ensures RequestNumber(1) == "T-1001" && RequestNumber(2) == "T-1002"
  {
    DigitsOfExample();
    assert IntToDecimal(1001) == "1001" && IntToDecimal(1002) == "1002";
  }

  /** The figures of A and B that the optimizer reads. */
  predicate LikeExample(a: Asset, b: Asset) {
    && a.saidi == 10.0 && a.saifi == 5.0 && a.cost == 100.0 && a.healthUi == 20.0
    && b.saidi == 2.0 && b.saifi == 1.0 && b.cost == 50.0 && b.healthUi == 90.0
  }

  lemma MaximaOfExample(a: Asset, b: Asset)
    requires LikeExample(a, b)
    ensures MaxOr(Saidis([a, b]), 1.0) == 10.0
    ensures MaxOr(Saifis([a, b]), 1.0) == 5.0
  {
    assert Saidis([a, b]) == [10.0, 2.0];
    assert Saifis([a, b]) == [5.0, 1.0];
  }

  /** A: 0.3 * 1 + 0.2 * 1 + 0.4 * 0.8; B: 0.3 * 0.2 + 0.2 * 0.2 + 0.4 * 0.1. */
  lemma ScoresOfExample(a: Asset, b: Asset)
    requires LikeExample(a, b)
    ensures PriorityScore(a, 10.0, 5.0, DefaultWeights) == 0.82
    ensures PriorityScore(b, 10.0, 5.0, DefaultWeights) == 0.14
  {
  }

  lemma ScoredExample(a: Asset, b: Asset)
    requires LikeExample(a, b)
    ensures ScoreAll([a, b], DefaultWeights) == [ScoredAsset(a, 0.82), ScoredAsset(b, 0.14)]
  {
    MaximaOfExample(a, b);
    ScoresOfExample(a, b);
    var r := ScoreAll([a, b], DefaultWeights);
    assert r[0] == ScoredAsset(a, 0.82);
    assert r[1] == ScoredAsset(b, 0.14);
  }

  /** Score per unit of cost: 0.82 / 100 for A and 0.14 / 50 for B. */
  lemma EfficienciesOfExample(a: Asset, b: Asset)
    requires LikeExample(a, b)
    ensures Efficiencies([ScoredAsset(a, 0.82), ScoredAsset(b, 0.14)]) == [0.0082, 0.0028]
  {
    assert Efficiency(ScoredAsset(a, 0.82)) == 0.0082;
    assert Efficiency(ScoredAsset(b, 0.14)) == 0.0028;
  }

  lemma RankOfExample()
    ensures Ranking.Rank([0.0082, 0.0028]) == [0, 1]
  {
    var keys := [0.0082, 0.0028];
    assert Ranking.RankPrefix(keys, 1) == [0];
    assert Ranking.Insert(keys, [], 1) == [1];
    assert Ranking.Insert(keys, [0], 1) == [0, 1];
  }

  lemma SortedExample(a: Asset, b: Asset)
    requires LikeExample(a, b)
    ensures SortByEfficiency([ScoredAsset(a, 0.82), ScoredAsset(b, 0.14)])
      == [ScoredAsset(a, 0.82), ScoredAsset(b, 0.14)]
  {
    EfficienciesOfExample(a, b);
    RankOfExample();
  }

  /** A scores 0.82 and B 0.14; per unit of cost A comes first. */
  lemma TwoAssetsRanked()
    ensures RankedAssets(TwoAssets(), DefaultWeights)
      == [ScoredAsset(AssetA(), 0.82), ScoredAsset(AssetB(), 0.14)]
  {
    ShapedExample();
    ScoredExample(AssetA(), AssetB());
    SortedExample(AssetA(), AssetB());
  }

  /** A budget of 100 takes A (100 <= 100) and then has no room for B. */
  lemma GreedyExactFit(ranked: seq<ScoredAsset>)
    requires |ranked| == 2 && ranked[0].asset.cost == 100.0 && ranked[1].asset.cost == 50.0
    requires ranked[0].score == 0.82
    ensures Taken(ranked, 100.0) == [0]
    ensures Greedy.Used(Costs(ranked), 100.0, 2) == 100.0
    ensures Greedy.Total(Costs(ranked), Scores(ranked), 100.0, 2) == 0.82
  {
    var costs := Costs(ranked);
    assert costs == [100.0, 50.0];
    assert Greedy.Used(costs, 100.0, 1) == 100.0;
    assert Greedy.Picks(costs, 100.0, 1) == [0];
    assert Scores(ranked)[0] == 0.82;
    assert Greedy.Total(costs, Scores(ranked), 100.0, 1) == 0.82;
  }

  /** A budget of 60 rejects A (cost 100) and still goes on to take B (cost 50). */
  lemma GreedySkipsToFit(ranked: seq<ScoredAsset>)
    requires |ranked| == 2 && ranked[0].asset.cost == 100.0 && ranked[1].asset.cost == 50.0
    requires ranked[1].score == 0.14
    ensures Taken(ranked, 60.0) == [1]
    ensures Greedy.Used(Costs(ranked), 60.0, 2) == 50.0
    ensures Greedy.Total(Costs(ranked), Scores(ranked), 60.0, 2) == 0.14
  {
    var costs := Costs(ranked);
    assert costs == [100.0, 50.0];
    assert Greedy.Used(costs, 60.0, 1) == 0.0;
    assert Greedy.Picks(costs, 60.0, 1) == [];
    assert Scores(ranked)[1] == 0.14;
    assert Greedy.Total(costs, Scores(ranked), 60.0, 1) == 0.0;
  }

  lemma RoundedExample()
    ensures RoundTo(100.0, 2) == 100.0 && RoundTo(0.82, 4) == 0.82
    ensures RoundTo(50.0, 2) == 50.0 && RoundTo(0.14, 4) == 0.14
  {
    assert Pow10(2) == 100 && Pow10(4) == 10000;
    assert RoundHalfEven(10000.0) == 10000 && RoundHalfEven(8200.0) == 8200;
    assert RoundHalfEven(5000.0) == 5000 && RoundHalfEven(1400.0) == 1400;
  }

  lemma ExactFitResponse(ranked: seq<ScoredAsset>)
    requires |ranked| == 2 && ranked[0].asset.cost == 100.0 && ranked[1].asset.cost == 50.0
    requires ranked[0].score == 0.82
    ensures var res := Report(Items(ranked, Taken(ranked, 100.0)), Greedy.Used(Costs(ranked), 100.0, 2),
                              100.0, Greedy.Total(Costs(ranked), Scores(ranked), 100.0, 2));
      && res.selected == [ItemOf(ranked[0])] && res.selectedCount == 1
      && res.usedBudget == 100.0 && res.objectiveValue == 0.82
  {
    GreedyExactFit(ranked);
    RoundedExample();
    assert Items(ranked, [0]) == [ItemOf(ranked[0])];
  }

  lemma SkipToFitResponse(ranked: seq<ScoredAsset>)
    requires |ranked| == 2 && ranked[0].asset.cost == 100.0 && ranked[1].asset.cost == 50.0
    requires ranked[1].score == 0.14
    ensures var res := Report(Items(ranked, Taken(ranked, 60.0)), Greedy.Used(Costs(ranked), 60.0, 2),
                              60.0, Greedy.Total(Costs(ranked), Scores(ranked), 60.0, 2));
      && res.selected == [ItemOf(ranked[1])] && res.selectedCount == 1
      && res.usedBudget == 50.0 && res.objectiveValue == 0.14
  {
    GreedySkipsToFit(ranked);
    RoundedExample();
    assert Items(ranked, [1]) == [ItemOf(ranked[1])];
  }

  /**
   * With a budget of 100 the run selects A alone: one entry "T-1001", used
   * budget 100 and objective 0.82.
   */
  lemma TwoAssetsRun()
    ensures var res := Optimization(TwoAssets(), 100.0, DefaultWeights);
      && res.status == StatusOptimal && res.selectedCount == 1
      && res.selected[0].requestNo == "T-1001" && res.selected[0].cost == 100.0
      && res.usedBudget == 100.0 && res.objectiveValue == 0.82
  {
    RequestNumbersOfExample();
    TwoAssetsRanked();
    ExactFitResponse(RankedAssets(TwoAssets(), DefaultWeights));
  }

  /**
   * With a budget of 60 the first-ranked asset A does not fit; the pass goes on
   * and selects B: one entry "T-1002", used budget 50 and objective 0.14.
   */
  lemma TwoAssetsTightBudget()
    ensures var res := Optimization(TwoAssets(), 60.0, DefaultWeights);
      && res.status == StatusOptimal && res.selectedCount == 1
      && res.selected[0].requestNo == "T-1002" && res.selected[0].cost == 50.0
      && res.usedBudget == 50.0 && res.objectiveValue == 0.14
  {
    RequestNumbersOfExample();
    TwoAssetsRanked();
    SkipToFitResponse(RankedAssets(TwoAssets(), DefaultWeights));
  }
}
