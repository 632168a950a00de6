# FinAssetTracker valuation core in Dafny

This project models the arithmetic core of FinAssetTracker, a personal asset tracker that
values multi-currency holdings in USD, scores their risk and advises on rebalancing. The
model covers six parts:

- **Valuation** (`calculator.dfy`, module `Calculator`). `calculate_asset_metrics` turns
  a 17-field snapshot into eight USD buckets. From those it computes the total, the savings
  total, the liquidity, gold and BTC ratios, a value-weighted risk score with a dynamic BTC
  weight, and the speculative ratio.
- **Conversion helpers and the asset registry** (`utils.dfy`, `app.dfy`, `config.dfy`).
  There are two helper families:
  - the two-argument `get_usd_value` and `get_gold_value` of `app.py`, which the
    calculator's calls match;
  - the three-argument, registry-driven `get_usd_value` of `utils.py`.

  `app.dfy` also covers the default form data and the USD aggregation of the Flask view.
- **Rebalancing advisor** (`allocation_engine.dfy`, module `AllocationEngine`).
  - `evaluate_fx_status` classifies a rate against a reference into CHEAP, FAIR or
    EXPENSIVE, or N/A.
  - `calculate_strategic_rebalancing` folds untargeted currencies into OTHER. It then turns
    each target's drift and FX status into an action and drops WAIT rows. Its first loop,
    `SumUntargeted`, is a method proved against the set sum `SetSum`. Its second loop,
    `SuggestTargets`, is proved against `Suggest`. The enclosing method,
    `CalculateStrategicRebalancing`, is proved equal to the function `Rebalancing`.
- **What-if simulation** (`simulation.dfy`, module `Simulation`). This is the action loop
  of `simulate_investment` in `main.py`.
  - The `Simulator` class holds the simulated snapshot's fields and the log. Its
    `ApplyAction` and `ApplyActions` update them in place.
  - They are proved equal to the pure `Step` and `Run`.
  - The module also assembles the strategy lines of the snapshot route.
- **BTC risk factor** (`risk_engine.dfy`, module `RiskEngine`). This models
  `calculate_btc_risk_factor`:
  - the short-history fail-safe;
  - the running-maximum drawdown;
  - the volatility bucket;
  - the cap at 10.
- **On-chain sentiment** (`onchain_analyzer.dfy`, module `OnchainAnalyzer`). This models
  `interpret_onchain_data`, which places four readings into threshold bands. The method
  that appends the analysis lines one by one is proved equal to the function
  `Interpretation`.

`Decimal` is modelled as exact `real`. A rate of 0 means "unknown" throughout. Rate tables
are maps. Where the source indexes one with `rates['XAU']` and would raise `KeyError`, the
model requires the key (`HasRates`, `HasAppRates`).

Some of the code's behaviour differs from what its names and comments suggest. The model
follows the code in each case:

- **Speculative ratio.** The code sums gold at 5/10, stock at 8/10 and BTC at the static
  10/10 of its value (`calculator.py:87-90`). It is not the share of assets whose risk
  weight exceeds 5.
- **Dynamic BTC weight.** The risk score always uses the dynamic BTC score
  (`calculator.py:79`). It never falls back to the static BTC weight, not even when that
  score is 0.
- **Savings total.** Savings are the five `savings_*` fields (`calculator.py:25-31`). The
  registry's `liquid` flag plays no part, so `deposit_gbp` counts as cash risk but not as
  savings.
- **Speculative ratio of an empty book.** For a non-positive total the code leaves
  `speculative_ratio` unassigned, while the other ratios are set to 0; see Findings.
- **Gold conversion constant.** `get_gold_value` uses 0.03527396, the avoirdupois ounces
  per gram (`app.py:66`). `config.py` declares the troy factor 0.0321507
  (`Config.GramsToOuncesTroy`), but nothing in the core uses it.

## Model

| member | source | states |
|---|---|---|
| Utils.UsdValue | utils.py:4-8 | a zero rate gives 0; otherwise the USD value times the rate equals money times unit scale |
| Utils.UsdValueAdditive | utils.py:6 | conversion is linear in the amount, and converting 0 gives 0 |
| Utils.UsdValueNonNegative | utils.py:6 | non-negative money, scale and rate give a non-negative USD value |
| Utils.UsdValueRoundTrip | utils.py:6 | converting to USD and back with the same nonzero rate and scale recovers the amount |
| Utils.AssetInfoOf | utils.py:10-13 | the lookup is total: a known field gets its entry unchanged, an unknown one the default entry (USD, risk 5, illiquid, scale 1, named after the field) |
| Utils.CurrencyCode | utils.py:15-16 | definition, no contract: `get_currency_code`, the entry's currency |
| Utils.UnitScale | utils.py:18-19 | definition, no contract: `get_unit_scale`, the entry's unit scale |
| Utils.IsLiquid | utils.py:21-22 | definition, no contract: `is_liquid`, the entry's liquid flag |
| Utils.ProjectionsOfAssetInfo | utils.py:15-22 | currency, unit scale and liquidity are projections of the entry; an unknown field is illiquid USD at scale 1 |
| App.UsdValue | app.py:62-63 | a zero rate gives 0; otherwise the result times the rate is the money |
| App.GoldValue | app.py:65-68 | a zero rate gives 0; otherwise the result times the rate is grams times 0.03527396 plus ounces |
| App.UsdValueAdditive | app.py:63 | the two-argument conversion is linear, and converting 0 gives 0 |
| App.GoldValueLinear | app.py:65-68 | the gold value is linear in (grams, ounces) and equals the conversion of the ounce count |
| App.ValuesNonNegative | app.py:62-68 | both helpers are non-negative for non-negative amounts and rate |
| App.DefaultData | app.py:36-52 | every default field holds 0, each is a form field, every form field but `gold_oz` is present, and `gold_oz` is absent |
| App.ValuesInUsd | app.py:108-123 | definition, no contract: the view's eight USD buckets, the four CNY fields summed before one conversion |
| App.TotalAssetsUsd | app.py:126 | definition, no contract: the sum of the buckets plus unconverted `savings_usd` and `stock_usd` |
| App.TotalIsFieldwiseSum | app.py:108-126 | the view's total equals the four CNY fields and the GBP, EUR, SGD, BTC, USDT and USDC fields converted one by one, with `gold_g` and `gold_oz` in one gold conversion, plus unconverted `savings_usd` and `stock_usd`, so summing the CNY fields before one conversion loses nothing |
| App.TotalNonNegative | app.py:108-126 | with non-negative amounts and rates the total is at least `savings_usd + stock_usd`, which is at least 0 |
| Calculator.Metrics | calculator.py:33-44 | a zero total gives zero liquidity, gold, BTC and risk score, and a zero speculative ratio (the corrected definition) |
| Calculator.CalculateAssetMetrics | calculator.py:92-105 | as written: building the result fails exactly when the total is not positive, and otherwise yields the corrected metrics |
| Calculator.ValuesInUsd | calculator.py:7-23 | definition, no contract: the eight USD buckets, each currency's fields summed before one conversion |
| Calculator.TotalAssets | calculator.py:33 | definition, no contract: the sum of the eight buckets |
| Calculator.TotalSavings | calculator.py:25-34 | definition, no contract: the five `savings_*` fields, the four non-USD ones converted one by one, summed |
| Calculator.Classes | calculator.py:46-78 | definition, no contract: the six risk classes: cash, policy, funds, gold, stock, BTC |
| Calculator.RiskWeightedSum | calculator.py:46-79 | definition, no contract: each class times its weight, BTC times the dynamic score |
| Calculator.WeightedRiskScore | calculator.py:82-84 | definition, no contract: the weighted sum over the total, 0 for a non-positive total |
| Calculator.SpeculativeAssets | calculator.py:86-90 | definition, no contract: gold at 5/10, stock at 8/10 and BTC at the static 10/10 |
| Calculator.SpeculativeRatio | calculator.py:92-93 | definition, no contract: speculative assets over a positive total, times 100 |
| Calculator.Percent | calculator.py:36-44 | definition, no contract: a part over the total times 100, 0 for a zero total |
| Calculator.EmptySnapshotRaises | calculator.py:92-103 | the all-zero snapshot makes the source fail, while the corrected metrics are all 0 |
| Calculator.TotalIsFieldwiseSum | calculator.py:7-33 | the total of the eight buckets equals the fourteen non-USD fields converted one by one, with `gold_g` and `gold_oz` in one gold conversion, plus unconverted `btc_stock_usd`, `savings_usd` and `stock_usd` |
| Calculator.ClassesPartitionTotal | calculator.py:46-78 | the six risk classes (cash, policy, funds, gold, stock, BTC) add up to exactly the total |
| Calculator.ClassesNonNegative | calculator.py:25-78 | with non-negative holdings and rates every risk class and the savings total are non-negative |
| Calculator.SavingsBoundedByTotal | calculator.py:25-34 | with non-negative holdings and rates, 0 <= savings total <= total |
| Calculator.WeightedSumBounds | calculator.py:46-80 | the risk-weighted sum lies between the smallest and the largest class weight times the class total |
| Calculator.ClassAverageBounds | calculator.py:82-84 | the weighted score of a positive class total lies between min and max of {0.5, 8, BTC score} |
| Calculator.WeightedRiskScoreBounded | calculator.py:46-84 | for a positive total the risk score lies between the minimum and maximum of the weights {0.5, 1, 4, 5, 8, BTC score} |
| Calculator.WeightedRiskScoreInScale | calculator.py:79-84 | a BTC score in 0..10 keeps the risk score in 0..10 |
| Calculator.SpeculativeRatioBounded | calculator.py:87-93 | with non-negative inputs the speculative ratio lies in 0..100 |
| Calculator.RatiosBounded | calculator.py:36-44 | with non-negative inputs the liquidity, gold and BTC ratios lie in 0..100 |
| Calculator.BtcScoreOnlyAffectsRiskScore | calculator.py:78-90 | two BTC scores give identical metrics except for the weighted risk score |
| Calculator.UsdSavingsOnlyParts | calculator.py:12-34 | a book of only USD savings has only the USD bucket, savings equal to it, and only the cash class |
| Calculator.UsdSavingsOnly | calculator.py:6-105 | a book of only `amount` USD savings has total and savings `amount`, 100% liquidity, no gold or BTC, score 0.5 and no speculation |
| AllocationEngine.LabelsDistinct | allocation_engine.py:63-96 | distinct actions have distinct action strings |
| AllocationEngine.Get | allocation_engine.py:53-61 | `d.get(k, default)`: the stored value for a present key, the default for an absent one |
| AllocationEngine.Exempt | allocation_engine.py:16-17 | definition, no contract: the currencies USD, BTC and GOLD that have no FX status |
| AllocationEngine.EvaluateFxStatus | allocation_engine.py:7-28 | N/A exactly for USD, BTC, GOLD or a missing or zero reference; CHEAP exactly at or above the upper band edge; EXPENSIVE exactly below it and at or below the lower edge |
| AllocationEngine.FxBands | allocation_engine.py:23-28 | for a positive reference and band the lower edge is below the upper edge, and CHEAP, EXPENSIVE and FAIR are exactly the three disjoint intervals |
| AllocationEngine.AbsentRateIsExpensive | allocation_engine.py:61 | an absent current rate counts as 0 and is EXPENSIVE for any band below 1 |
| AllocationEngine.FairYuanExample | allocation_engine.py:23-28 | 7.40 against a reference of 7.05 with the default 5% band is FAIR |
| AllocationEngine.Decide | allocation_engine.py:63-96 | one iff per cell of the table. Overweight: STRONG SELL exactly when EXPENSIVE, HOLD exactly when CHEAP, SELL otherwise. Underweight: STRONG BUY exactly when CHEAP, HOLD exactly when EXPENSIVE, BUY otherwise. Within the threshold: TRIM exactly for EXPENSIVE with positive drift, ADD exactly for CHEAP with negative drift, WAIT otherwise. Consequences: it never sells a cheap currency or buys an expensive one, and sells need positive and buys negative drift |
| AllocationEngine.FoldConservesTotal | allocation_engine.py:44-53 | with OTHER targeted, OTHER gets its old share (absent as 0) plus the untargeted share, no other key changes, and the mapped shares of the targeted keys add up to the whole distribution |
| AllocationEngine.ActualOther | allocation_engine.py:45-48 | definition, no contract: the summed share of the currencies without a target |
| AllocationEngine.MappedCurrent | allocation_engine.py:44-53 | definition, no contract: the distribution with the untargeted share added to OTHER when OTHER is targeted |
| AllocationEngine.NoOtherTargetNoFold | allocation_engine.py:52-53 | without an OTHER target the distribution is used unchanged |
| AllocationEngine.AllTargetedNoOther | allocation_engine.py:45-48 | when every currency has a target, the untargeted share is 0 |
| AllocationEngine.AdjustmentUsd | allocation_engine.py:59 | the adjustment amount is never negative |
| AllocationEngine.AdjustmentIsDriftShare | allocation_engine.py:58-59 | for a non-negative total the amount is total times the absolute drift over 100, the same for over- and underweight |
| AllocationEngine.Assess | allocation_engine.py:55-108 | a row carries the target, the current share (absent as 0), drift = current - target, the adjustment, the FX status at the current rate (absent as 0) and the table's action; there is no row exactly when the action is WAIT |
| AllocationEngine.AssessAt | allocation_engine.py:55-108 | definition, no contract: the assessment of the target at one position |
| AllocationEngine.Suggest | allocation_engine.py:55-109 | definition, no contract: the non-WAIT assessments of the targets, in order |
| AllocationEngine.Rebalancing | allocation_engine.py:38-109 | definition, no contract: `calculate_strategic_rebalancing`: empty for a zero total, otherwise Suggest over the OTHER-folded distribution |
| AllocationEngine.SuggestStep | allocation_engine.py:98-108 | one more target appends its row unless that row is WAIT |
| AllocationEngine.KeptIndicesIncreasing | allocation_engine.py:55-109 | the kept target positions are valid and strictly increasing, so the output keeps the targets' order |
| AllocationEngine.KeptIndicesSound | allocation_engine.py:98-109 | output position j is the row of kept target j, and the output is no longer than the targets |
| AllocationEngine.KeptIndicesComplete | allocation_engine.py:98-109 | every target missing from the output has a WAIT row |
| AllocationEngine.SuggestionsWellFormed | allocation_engine.py:55-109 | every suggestion is for a target, is not WAIT, has drift = current - target, a non-negative amount and the table's action |
| AllocationEngine.OverweightSellExample | allocation_engine.py:66-76 | 40% held against a 30% target, threshold 5, no FX view: SELL 100 of a 1000 total |
| AllocationEngine.SumUntargeted | allocation_engine.py:45-48 | the first loop computes the sum of the shares of the untargeted currencies |
| AllocationEngine.RebalancingWellFormed | allocation_engine.py:38-109 | a zero total gives no suggestions; otherwise at most one per target, none WAIT, each with a non-negative amount |
| AllocationEngine.SuggestTargets | allocation_engine.py:55-108 | the second loop computes the rows of the targets in order, WAIT rows dropped |
| AllocationEngine.CalculateStrategicRebalancing | allocation_engine.py:30-109 | the method computes the rebalancing: nothing for a zero total, else the fold into OTHER followed by the second loop |
| Simulation.Debit | main.py:304-309 | the debit keeps the key set, sets the source to its balance (None as 0) minus the absolute amount, and changes no other field |
| Simulation.Balance | main.py:284 | definition, no contract: `getattr(snapshot, field) or Decimal('0')`, None reading as 0; also read this way at main.py:304 and 321 |
| Simulation.HasDestination | main.py:295-296 | definition, no contract: a TRANSFER is skipped unless `to_field` is present and non-empty |
| Simulation.DestinationRate | main.py:312-317 | definition, no contract: the destination currency's rate, 0 when absent, whose positivity decides the credit |
| Simulation.AmountDst | main.py:311-320 | definition, no contract: the debited amount in USD at the source's rate and scale, then in destination units |
| Simulation.TransferError | main.py:304-322 | definition, no contract: the exception a TRANSFER raises: missing source, zero destination scale, missing destination |
| Simulation.Step | main.py:281-327 | one action fails exactly for a TRANSFER with a destination whose source is missing, or, at a positive destination rate, whose destination scale is 0 or destination is missing; on success the key set is kept, only the action's fields change and the log grows by at most one entry at its end |
| Simulation.AdjustClamps | main.py:283-291 | ADJUST of an existing field sets it to exactly max(0, old + amount), an old None counting as 0, and appends one log entry with the field's name and the signed amount |
| Simulation.AdjustMissingIsNoop | main.py:283-293 | ADJUST of a field the snapshot lacks changes nothing, not even the log |
| Simulation.TransferWithoutDestinationSkipped | main.py:295-296 | TRANSFER without a destination is skipped entirely |
| Simulation.TransferMovesBalances | main.py:304-322 | for distinct source and destination fields and a TRANSFER that raises nothing: TRANSFER always debits the source by the absolute amount without a clamp; at a positive destination rate it credits the converted amount and appends exactly one entry with both names, the absolute amount and the credited amount; otherwise the destination and the log are unchanged |
| Simulation.TransferRoundTrip | main.py:318-320 | with the same positive rate and the same nonzero scale on both sides, the destination gains exactly what the source loses |
| Simulation.TransferConservesUsd | main.py:317-322 | the USD value of the credited amount at the destination equals the USD value of the debited amount at the source |
| Simulation.SelfTransferRestores | main.py:304-322 | a transfer of a field onto itself at a positive rate and nonzero scale ends at the starting balance |
| Simulation.RunFrame | main.py:281-327 | a successful run keeps the key set, leaves every field no action names unchanged, and only appends to the log, at most one entry per action |
| Simulation.RunStopsAtError | main.py:281-327 | the first failing action decides the result of the whole run |
| Simulation.Run | main.py:281-327 | definition, no contract: the actions in order, stopping at the first exception |
| Simulation.Simulator.constructor | main.py:277-279 | the simulator starts from the given copy of the snapshot with an empty log |
| Simulation.Simulator.ApplyAction | main.py:282-327 | the new state is one step's; after a failure past the source check the debit has already happened, and the log is unchanged |
| Simulation.Simulator.ApplyActions | main.py:281-327 | the loop's state is the run's, or the run's error |
| Simulation.Contains | main.py:163 | `t in s`: true exactly when `t` occurs at some position of `s`, and then `t` is no longer than `s` |
| Simulation.StrongLabels | main.py:163 | an action string contains "STRONG" exactly for STRONG SELL and STRONG BUY |
| Simulation.IconFor | main.py:163 | the alarm icon exactly for the two STRONG actions |
| Simulation.StrategyMessages | main.py:157-166 | no suggestions give the single healthy line; otherwise one line per suggestion in order, carrying its class, action string, drift and FX status, with the alarm icon exactly for STRONG actions |
| RiskEngine.CumulativeMax | risk_engine.py:58 | the running maximum is as long as the prices |
| RiskEngine.CumulativeMaxBounds | risk_engine.py:58 | each running maximum is at least every earlier price, equals one of them, and never decreases |
| RiskEngine.CumulativeMaxPositive | risk_engine.py:57-58 | positive prices have a positive running maximum |
| RiskEngine.Drawdowns | risk_engine.py:59 | there is one drawdown per price |
| RiskEngine.DrawdownsBounded | risk_engine.py:57-59 | every drawdown of positive prices lies in (-1, 0] |
| RiskEngine.MinOf | risk_engine.py:60 | the minimum is at most every element and is one of them |
| RiskEngine.MaxDrawdown | risk_engine.py:57-60 | definition, no contract: `abs(np.min(drawdown))` |
| RiskEngine.MaxDrawdownBounded | risk_engine.py:57-60 | the maximum drawdown of positive prices lies in [0, 1) and bounds every drawdown |
| RiskEngine.NonDecreasingHasNoDrawdown | risk_engine.py:57-60 | a series that never falls is its own running maximum and has maximum drawdown 0 |
| RiskEngine.CumulativeMaxOfNonDecreasing | risk_engine.py:58 | the running maximum of a non-decreasing series is the series |
| RiskEngine.VolBase | risk_engine.py:62-77 | the bucket lies in 3..10, is 3 exactly below 0.20 and 10 exactly from 0.80, and each bucket b covers [0.1(b-2), 0.1(b-1)), which pins every bucket |
| RiskEngine.VolBaseMonotone | risk_engine.py:62-77 | a higher volatility never lowers the bucket |
| RiskEngine.RiskProperties | risk_engine.py:79-80 | the capped score lies in [3, 10], grows with the drawdown, and is the bucket for no drawdown |
| RiskEngine.Risk | risk_engine.py:79-80 | definition, no contract: `min(10, base + 5 * max_dd)` |
| RiskEngine.CalculateBtcRiskFactor | risk_engine.py:43-82 | fewer than ten prices give exactly 10; every score lies in [3, 10] and, for a long enough history, is at least the volatility bucket |
| RiskEngine.RiskMonotoneInDrawdown | risk_engine.py:79-80 | for a fixed volatility a deeper drawdown never lowers the score |
| RiskEngine.NonDecreasingScoresBase | risk_engine.py:57-80 | a long enough series that never falls scores exactly its volatility bucket |
| OnchainAnalyzer.MoodOf | onchain_analyzer.py:57-69 | extreme fear exactly below 20, fear exactly in [20, 40), greed exactly above 75, neutral otherwise |
| OnchainAnalyzer.ZoneOf | onchain_analyzer.py:73-87 | deep bear exactly below 0, accumulation exactly in [0, 1), overvalued exactly from 1 |
| OnchainAnalyzer.PhaseOf | onchain_analyzer.py:89-100 | capitulation exactly below 0, fear/hope exactly in [0, 0.25), profit exactly from 0.25 |
| OnchainAnalyzer.TrendOf | onchain_analyzer.py:103-114 | outflow exactly below -1000, inflow exactly above 1000, stable otherwise |
| OnchainAnalyzer.VerdictOf | onchain_analyzer.py:57-69 | definition, no contract: the verdict of each fear-and-greed band |
| OnchainAnalyzer.VerdictFor | onchain_analyzer.py:51-69 | definition, no contract: the band's verdict when the fear-and-greed value is present, "insufficient data" otherwise |
| OnchainAnalyzer.FngLines | onchain_analyzer.py:54-70 | definition, no contract: one fear-and-greed line when the value is present, none otherwise |
| OnchainAnalyzer.MvrvLineOf | onchain_analyzer.py:73-87 | definition, no contract: the missing-data line or the MVRV zone line |
| OnchainAnalyzer.NuplLineOf | onchain_analyzer.py:89-100 | definition, no contract: the missing-data line or the NUPL phase line |
| OnchainAnalyzer.FlowLineOf | onchain_analyzer.py:103-114 | definition, no contract: the missing-data line or the exchange-flow line |
| OnchainAnalyzer.Interpretation | onchain_analyzer.py:43-126 | definition, no contract: the no-data report for falsy data, otherwise the lines in order and the verdict |
| OnchainAnalyzer.BandsMonotone | onchain_analyzer.py:57-114 | a higher reading never lands in a lower band, for all four classifiers |
| OnchainAnalyzer.InterpretationShape | onchain_analyzer.py:43-126 | three lines plus a leading fear-and-greed line exactly when that value is present; the verdict is "insufficient data" exactly without it; each of the last three lines is "missing" exactly when its reading is absent |
| OnchainAnalyzer.VerdictBands | onchain_analyzer.py:51-69 | the verdict is "insufficient data" without a fear-and-greed value, otherwise the band's verdict, and it ignores MVRV, NUPL and flow |
| OnchainAnalyzer.ExtremeFearExample | onchain_analyzer.py:57-87 | extreme fear with a deep-bear MVRV gives "buy in batches" and the four expected lines |
| OnchainAnalyzer.InterpretOnchainData | onchain_analyzer.py:43-126 | the appending method computes the interpretation; exactly for falsy data it returns the no-data report, whose text is the fixed no-data message |

## Left out

- Redis, HTTP routing, the database, file reports, the LLM agent and the vector store are I/O around the core.
- `datetime.now()` in the on-chain report is left out. The report text is modelled by its structure (header values, line kinds, verdict), not by its formatted strings. The free-text `reason` of a suggestion and the formatting of log entries are left out for the same reason.
- `fetch_real_onchain_data` and `fetch_btc_history_kraken` are network and pandas code.
- The annualised volatility (`np.log`, `std`, `sqrt`) is floating-point numerics. `RiskEngine.CalculateBtcRiskFactor` takes it as an input.
- `RiskEngine.CalculateBtcRiskFactor`: the final `round(risk, 2)` and the float conversion are not modelled, so the result is the exact capped score.
- `RiskEngine.CalculateBtcRiskFactor`: prices are required to be positive for a history of ten or more. The source divides by the running maximum and would produce a NaN or infinity otherwise.
- Decimal's 28-digit precision context rounds on division, and the model's exact reals do not.
- `RiskEngine.MaxDrawdownBounded`: the drawdown arithmetic is exact here, while the source computes it in float64 numpy arrays (`risk_engine.py:50-60`). There, `(p - M) / M` rounds to exactly -1.0 for a price far enough below its running maximum (p < M·2⁻⁵³), so the strict bound `max_dd < 1` holds for the model but not always for the source.
- `ASSET_CONFIG` is imported from `config.py` but not defined there. The registry is a map parameter (`Utils.AssetConfig`).
- `currency_distribution` is read by the rebalancing advisor, but no modelled code computes it. It is an input map.
- `target_map` is a Python dict in insertion order, so it is modelled as a sequence of pairs. The model also admits duplicate keys, which a dict cannot have.
- The calculator imports `get_value`, `get_gold_value` and a two-argument `get_usd_value` from `utils.py`. That file defines none of the first two and gives `get_usd_value` three parameters. The model uses the matching two-argument helpers of `app.py` and treats `get_value` as the identity on a holding that is already a number.
- `ActionType` is not defined in `models.py`. Its two members and the action fields are taken from their use in `main.py`.
- A snapshot attribute's existence (`hasattr`, `getattr`) is modelled as membership in the field map. An attribute holding None is `None` in the map and reads as 0.
- The exceptions a TRANSFER can raise are modelled as the errors of `Simulation.SimError`, which end the whole run: a missing attribute, or a zero destination scale in Decimal division.
- `logging` calls have no effect on state and are left out.
- `models/asset.py` and `demo.py` hold no logic.

## Findings

| source | as written | input that shows it | evidently intended | confidence | as-written member | corrected member |
|---|---|---|---|---|---|---|
| calculator.py:92-103 | `speculative_ratio` is assigned only when the total is positive, so building `AssetResults` fails for an empty or non-positive book | the all-zero snapshot `Calculator.EmptySnapshot` (`Calculator.EmptySnapshotRaises`) | a speculative ratio of 0 when there are no assets, like the other ratios | not executed | Calculator.CalculateAssetMetrics | Calculator.Metrics |
