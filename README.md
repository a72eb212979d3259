# Asset prioritisation core of the shenergy dashboard, in Dafny

The dashboard (`app.py`) ranks grid assets for investment. It works in two stages:

- **Asset shaping** (`get_all_assets`) reads the data provider's id universe and per-id tables:
  health index `HI`, asset type `TYPE`, `SAIDI`, `SAIFI`, cost `C` and category `K`. It builds one
  record per id. Each record gets:
  - defaults for missing entries;
  - a 0–100 health value `health_ui`;
  - a risk label from the cutoffs 40 and 70 ("Yüksek", "Orta", "Düşük");
  - a request number `T-<1000+id>`;
  - the operation type "Yatırım".

  The index page counts the high-risk records (`high_risk_count`).
- **The optimizer** (`run_optimization`) runs five steps:
  1. It scores every record from its max-normalised SAIDI and SAIFI and its health risk. The weight
     `w3` plays no part.
  2. It sorts the records stably, best score per unit of cost first. Costs below 1 count as 1.
  3. It walks the sorted list once and takes each record whose cost still fits into the budget.
  4. It sums the used budget and the objective.
  5. It reports the selection with the status "Optimal".

The model has six modules, one per file:

- `numeric.dfy` (`Numeric`) models Python's `round(x, n)` and `str(n)`.
- `shaper.dfy` (`AssetShaper`) covers shaping and the KPI.
- `ranking.dfy` (`Ranking`) is a stable descending ranking of positions by a real key. It is the
  order that `list.sort(key=…, reverse=True)` produces.
- `greedy.dfy` (`Greedy`) is the single greedy pass over the cost column.
- `optimizer.dfy` (`Optimizer`) covers scoring, sorting, selection and the response.
- `scenarios.dfy` (`Scenarios`) holds whole runs on a two-asset data source.

How the source maps onto the model:

- The data provider is an input value. The id universe is a sequence and each table is a map, so a
  missing entry is a key outside the map.
- Metrics, costs, scores and the budget are exact `real`s.
- The budget and the weights are parameters. The application's own values are the constants
  `Optimizer.TargetBudget` (1500) and `Optimizer.DefaultWeights` (0.3, 0.2, 0.1, 0.4).
- The loops of the source are methods, each proved equal to a specification function.
  `GetAllAssets` is the shaping loop, `ScoreAssets` the scoring loop, `GreedySelect` the selection
  loop and `RunOptimization` the whole run. The properties are lemmas about those functions.
- The sort is a library call with no loop in the source, so it is a function. Its meaning is proved
  as lemmas.

Following `app.py`:

- The cutoffs 40 and 70 and the health ceiling 10000 are fixed constants, not configuration.
- A maximum of 0 or less gives a normalised value of 0 (`if max > 0`).
- A cost below 1 is divided as 1.

## Model

| member | source | states |
|---|---|---|
| Numeric.RoundHalfEven | app.py:34 | the result is an integer within one half of the argument; on an exact tie it is the even neighbour |
| Numeric.RoundTo | app.py:34 | `round(x, n)` lies within half a unit of the last kept decimal of `x` |
| Numeric.NatToDecimal | app.py:48 | `str(n)` is a non-empty string of decimal digits with no leading zero |
| Numeric.IntToDecimal | app.py:48 | `str(i)` is non-empty and starts with '-' exactly when `i` is negative |
| Numeric.IntToDecimalDigits | app.py:48 | `str(i)` is the decimal notation of `i`: for `i >= 0` all digits reading back as `i`, "0" for zero and no leading zero otherwise; for `i < 0` a '-' followed by digits with no leading zero that read back as `-i` |
| Numeric.DecimalRoundTrip | app.py:48 | reading back the decimal digits of `n` gives `n` |
| Numeric.IntToDecimalInjective | app.py:48 | distinct integers are written differently |
| AssetShaper.Lookup | app.py:31 | `m.get(i, d)` is `m[i]` when `i` is a key and `d` otherwise |
| AssetShaper.HealthUi | app.py:34 | health_ui lies within 0.05 of raw/100, and in [0, 100] whenever the raw index is in [0, 10000] |
| AssetShaper.RiskLabelOf | app.py:37-42 | "Yüksek" iff health_ui < 40, "Orta" iff 40 <= health_ui < 70, "Düşük" iff health_ui >= 70 |
| AssetShaper.RiskLabelMonotone | app.py:37-42 | lower health never gets a milder label |
| AssetShaper.RiskLabelTextInjective | app.py:37-42 | the texts "Yüksek", "Orta" and "Düşük" are distinct, so comparing a record's label text with "Yüksek" is comparing its label with High |
| AssetShaper.RequestNumber | app.py:48 | talep_no starts with "T-" and has at least one character after it |
| AssetShaper.RequestNumberDigits | app.py:48 | after "T-" comes `str(1000 + id)`: when 1000 + id >= 0 all digits, with no leading zero, reading back as 1000 + id ("T-0" for id -1000); for a smaller id a '-' and then digits with no leading zero reading back as -(1000 + id) |
| AssetShaper.RequestNumberInjective | app.py:48 | distinct ids get distinct talep_no |
| AssetShaper.ShapeAsset | app.py:31-65 | the record carries its id and talep_no and type "Yatırım". Its health_ui is the rounded scaling of its raw health and its label follows its health_ui. A present health, type, SAIDI, SAIFI or cost entry is copied unchanged; missing health gives raw 0, health 0 and "Yüksek"; missing type gives "Genel"; missing SAIDI, SAIFI or cost gives 0. category_public holds iff K has the id with value 1 |
| AssetShaper.Shape | app.py:29-66 | exactly one record per id, in the order of the id universe, each the shaped record of its id |
| AssetShaper.GetAllAssets | app.py:22-68 | the append loop returns the shaped list: one record per id, in order |
| AssetShaper.HighRiskCount | app.py:80 | the count is at most the length; it is 0 iff no record is "Yüksek" and the full length iff all are |
| AssetShaper.HighRiskCountAppend | app.py:80 | the count over a concatenation is the sum of the counts |
| AssetShaper.MissingHealthIsHighRisk | app.py:31-42 | when no id has a health entry, every record counts as high risk |
| Ranking.Rank | app.py:123 | the ranking holds every position once; keys never increase along it, and equal keys keep their original order |
| Ranking.RankedUnique | app.py:123 | any two stable descending orders of the same positions are equal, so the sort's result is determined |
| Ranking.GatherRank | app.py:123 | reading a list in ranking order keeps its multiset of elements |
| Greedy.Used | app.py:126-139 | `used_budget` after the first `n` ranked items; with a non-negative budget it never exceeds the budget |
| Greedy.Picks | app.py:125-140 | the taken positions are at most `n` in number and all below `n` |
| Greedy.PicksInOrder | app.py:130-132 | positions are taken in rank order, each at most once, so the selection is a subsequence of the ranked list |
| Greedy.PicksIffFits | app.py:131 | a position is taken iff its cost fits on top of what was taken before it, so a rejection never stops later items |
| Greedy.Total | app.py:127-140 | a running accumulator over the taken positions (`total_objective_val` for the score column); it is non-negative when the column is, and TotalIsSumOfPicks shows it is the column's sum over the taken positions |
| Greedy.TotalIsSumOfPicks | app.py:139-140 | each running accumulator equals the sum of its column over the taken positions |
| Greedy.UsedIsTotalCost | app.py:139 | the used budget equals the running total of the taken costs |
| Greedy.UsedWithinBudget | app.py:131-139 | at every step, once something is taken the used budget is within the budget; while nothing is taken it is 0 |
| Optimizer.MaxOr | app.py:100-101 | `max(xs, default=d)` is `d` on an empty list, bounds every element from above and is one of them |
| Optimizer.Normalise | app.py:106-109 | the normalised value is 0 when the maximum is <= 0, and in [0, 1] for a value between 0 and the maximum |
| Optimizer.PriorityScore | app.py:106-116 | the score formula w1 * norm_saidi + w2 * norm_saifi + w4 * health risk; its properties are proved by ScoreIgnoresW3, ScoreBounds and ScoreMonotone |
| Optimizer.HealthRisk | app.py:113 | the health risk is in [0, 1] for health_ui in [0, 100] |
| Optimizer.ScoreAll | app.py:103-119 | one scored record per asset, the asset itself unchanged, in the same order |
| Optimizer.ScoreAssets | app.py:100-119 | the scoring loop produces the scored list |
| Optimizer.ScoreIgnoresW3 | app.py:116 | changing w3 changes no score |
| Optimizer.ScoreBounds | app.py:106-116 | with non-negative metrics and weights and health in [0, 100], a score lies in [0, w1 + w2 + w4] |
| Optimizer.ScoreMonotone | app.py:100-116 | raising an asset's SAIDI and SAIFI never lowers its score when w1 and w2 are non-negative, even though the maxima move |
| Optimizer.Efficiency | app.py:123 | the sort key score / max(cost, 1); for a non-negative score it lies between 0 and the score |
| Optimizer.RankOrder | app.py:123 | the sort's source positions form a permutation that is ranked by score / max(cost, 1) |
| Optimizer.SortByEfficiency | app.py:123 | the sorted list is the scored list read in ranking order. score / max(cost, 1) never increases along it, and equal keys keep their original relative order |
| Optimizer.SortKeepsMultiset | app.py:123 | the sorted list is a permutation of the scored list |
| Optimizer.ItemOf | app.py:132-138 | one `selected` entry: talep_no, tur, grup and maliyet copied from the record, and skor within 0.00005 of the score |
| Optimizer.Items | app.py:132-138 | one response entry per taken position, in the order taken |
| Optimizer.GreedySelect | app.py:125-140 | the loop's `selected`, `used_budget` and `total_objective_val` are the entries, used budget and objective of the greedy pass |
| Optimizer.ItemsCostSum | app.py:136-139 | summing the cost column over the taken positions gives the sum of `maliyet` over the entries |
| Optimizer.SelectionWithinBudget | app.py:125-140 | the used budget is the total `maliyet` of the selected entries. It is within the budget when anything is selected, and 0 otherwise |
| Optimizer.Report | app.py:142-149 | status "Optimal"; the count is the list length; the budget is echoed; used budget and objective are within 0.005 and 0.00005 of the exact sums |
| Optimizer.RankedAssets | app.py:96-123 | one ranked record per id; the ranked list is a permutation of the scored records, and score / max(cost, 1) never increases along it |
| Optimizer.Optimization | app.py:96-149 | the response of a run as one function: rank the shaped and scored records, take the greedy selection and report it; its properties are proved by OptimizationResponse |
| Optimizer.RunOptimization | app.py:96-149 | the run returns `Optimization`, the response of the composed pipeline |
| Optimizer.OptimizationResponse | app.py:125-149 | every response satisfies all of: status "Optimal"; the budget echoed; `selected_count` equal to the list length and at most the number of ids; used budget within 0.005 of the entries' total cost and, when anything is selected, at most 0.005 over the budget; zero used budget and objective when nothing is selected; nothing selected for an empty id universe |
| Scenarios.RequestNumbersOfExample | app.py:48 | ids 1 and 2 get "T-1001" and "T-1002" |
| Scenarios.HealthOfExample | app.py:34 | raw health 2000 and 9000 give health_ui 20.0 and 90.0 |
| Scenarios.TwoAssetsRanked | app.py:100-123 | A scores 0.82 and B 0.14; A ranks first |
| Scenarios.TwoAssetsRun | app.py:96-149 | with budget 100 the run selects "T-1001" alone, with used budget 100 and objective 0.82 |
| Scenarios.TwoAssetsTightBudget | app.py:125-149 | with budget 60 the first-ranked A (cost 100) is rejected and B is still taken: "T-1002", used budget 50, objective 0.14 |

## Left out

- The Flask application, routes, page rendering, `jsonify`, the HTTP 500 status and `app.run` are
  transport. A run's response is the `OptimizationResult` value.
- The `model_data` module is not part of this model. Its id universe and tables are an input value
  (`AssetShaper.DataSource`). The data-provider tables therefore hold reals, so an integer default
  such as `C.get(i, 0)` is the real 0.
- `avg_health` on the index page is a display-only float average and is not modelled.
- The `try`/`except` around the optimizer and its `print` are not modelled. On typed inputs no
  step of the modelled pipeline can fail: every division is guarded and every lookup has a default.
  Failures such as a malformed weight table cannot arise once weights are a record.
- Floating point is not modelled. Numbers are exact reals, and `round` is the exact
  round-half-to-even of the real value. Python rounds the nearest binary float instead, so a value
  whose decimal tie is not exactly representable can round differently, and a label at a cutoff
  boundary could then differ.
- Numeric.RoundTo: states only the half-unit error bound, not that the result is a multiple of
  10^-n. The exact multiple is used only where a proof opens the body: in `RoundZero`, in
  `HealthUiInRange` (the [0, 100] range of health_ui) and in the scenario lemmas.
- The scoring loop writes `priority_score` into each record's dictionary in place. The model pairs
  each record with its score in a new `ScoredAsset` value, so aliasing between `assets` and
  `scored_assets` is not captured.
- The in-place `list.sort` is modelled as a function of the list, not as a mutation.
- The greedy pass runs over the sorted list's cost column as values, not over the dictionaries.
