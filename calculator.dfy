/**
 * calculator.py: calculate_asset_metrics, a fixed-schema fold of the 17 snapshot fields
 * into eight USD buckets, the totals, the ratios, the value-weighted risk score and the
 * speculative ratio.
 */
module Calculator {
  import opened Wrappers
  import App
  import Config

  /** AssetSnapshot (models.py): one amount per holding field. */
  datatype Snapshot = Snapshot(
    goldG: real, goldOz: real, btc: real, btcStockUsd: real, depositGbp: real,
    retirementFundsCny: real, savingsCny: real, fundsCny: real, housingFundCny: real,
    fundsSgd: real, savingsSgd: real, fundsEur: real, savingsEur: real,
    fundsHkd: real, savingsHkd: real, savingsUsd: real, stockUsd: real)

  /** AssetResults as calculate_asset_metrics fills it. */
  datatype AssetResults = AssetResults(
    totalAssetsUsd: real, totalSavingsUsd: real, availableLiquidityRatio: real,
    goldRatio: real, btcRatio: real, weightedRiskScore: real, speculativeRatio: real)

  /** Why building the result raised. */
  datatype MetricsError = SpeculativeRatioUnbound

  /** Every field of the snapshot is non-negative. */
  predicate NonNegative(d: Snapshot)
  {
    && d.goldG >= 0.0 && d.goldOz >= 0.0 && d.btc >= 0.0 && d.btcStockUsd >= 0.0
    && d.depositGbp >= 0.0 && d.retirementFundsCny >= 0.0 && d.savingsCny >= 0.0
    && d.fundsCny >= 0.0 && d.housingFundCny >= 0.0 && d.fundsSgd >= 0.0
    && d.savingsSgd >= 0.0 && d.fundsEur >= 0.0 && d.savingsEur >= 0.0
    && d.fundsHkd >= 0.0 && d.savingsHkd >= 0.0 && d.savingsUsd >= 0.0 && d.stockUsd >= 0.0
  }

  /** The rate codes the calculator indexes; a missing one is a KeyError in the source. */
  predicate HasRates(rates: map<string, real>)
  {
    && "XAU" in rates && "CNY" in rates && "GBP" in rates && "EUR" in rates
    && "SGD" in rates && "HKD" in rates && "BTC" in rates
  }

  /** Every rate the calculator reads is non-negative (0 meaning unknown). */
  predicate RatesNonNegative(rates: map<string, real>)
    requires HasRates(rates)
  {
    && rates["XAU"] >= 0.0 && rates["CNY"] >= 0.0 && rates["GBP"] >= 0.0 && rates["EUR"] >= 0.0
    && rates["SGD"] >= 0.0 && rates["HKD"] >= 0.0 && rates["BTC"] >= 0.0
  }

  /** The eight buckets of `values_in_usd`. */
  datatype Buckets = Buckets(gold: real, cny: real, gbp: real, eur: real, sgd: real,
                             hkd: real, btc: real, usd: real)
  {
    function Sum(): real { gold + cny + gbp + eur + sgd + hkd + btc + usd }
  }

  /**
   * values_in_usd: each currency's fields are added first and converted once; the BTC bucket
   * is the converted coin amount plus the USD value of BTC-linked stock.
   */
  function ValuesInUsd(d: Snapshot, rates: map<string, real>): Buckets
    requires HasRates(rates)
  {
    Buckets(
      App.GoldValue(d.goldG, d.goldOz, rates["XAU"]),
      App.UsdValue(d.retirementFundsCny + d.fundsCny + d.savingsCny + d.housingFundCny, rates["CNY"]),
      App.UsdValue(d.depositGbp, rates["GBP"]),
      App.UsdValue(d.savingsEur + d.fundsEur, rates["EUR"]),
      App.UsdValue(d.savingsSgd + d.fundsSgd, rates["SGD"]),
      App.UsdValue(d.savingsHkd + d.fundsHkd, rates["HKD"]),
      App.UsdValue(d.btc, rates["BTC"]) + d.btcStockUsd,
      d.savingsUsd + d.stockUsd)
  }

  /** total_assets_usd */
  function TotalAssets(d: Snapshot, rates: map<string, real>): real
    requires HasRates(rates)
  {
    ValuesInUsd(d, rates).Sum()
  }

  /** total_savings_usd: only the five `savings_*` fields; `deposit_gbp` is not savings. */
  function TotalSavings(d: Snapshot, rates: map<string, real>): real
    requires HasRates(rates)
  {
    App.UsdValue(d.savingsCny, rates["CNY"]) + App.UsdValue(d.savingsEur, rates["EUR"])
    + App.UsdValue(d.savingsSgd, rates["SGD"]) + App.UsdValue(d.savingsHkd, rates["HKD"])
    + d.savingsUsd
  }

  /** The six risk classes of the risk pass, each in USD. */
  datatype RiskClasses = RiskClasses(cash: real, policy: real, funds: real, gold: real,
                                     stock: real, btc: real)
  {
    function Sum(): real { cash + policy + funds + gold + stock + btc }
  }

  function Classes(d: Snapshot, rates: map<string, real>): RiskClasses
    requires HasRates(rates)
  {
    var b := ValuesInUsd(d, rates);
    RiskClasses(
      App.UsdValue(d.savingsCny, rates["CNY"]) + App.UsdValue(d.savingsEur, rates["EUR"])
      + App.UsdValue(d.savingsSgd, rates["SGD"]) + App.UsdValue(d.savingsHkd, rates["HKD"])
      + App.UsdValue(d.depositGbp, rates["GBP"]) + d.savingsUsd,
      App.UsdValue(d.housingFundCny + d.retirementFundsCny, rates["CNY"]),
      App.UsdValue(d.fundsCny, rates["CNY"]) + App.UsdValue(d.fundsEur, rates["EUR"])
      + App.UsdValue(d.fundsHkd, rates["HKD"]) + App.UsdValue(d.fundsSgd, rates["SGD"]),
      b.gold,
      d.stockUsd,
      b.btc)
  }

  /** risk_weighted_sum: each class times its weight, BTC at the dynamic score. */
  function RiskWeightedSum(c: RiskClasses, btcRiskScore: real): real
  {
    c.cash * Config.SavingsWeight + c.policy * Config.HousingWeight
    + c.funds * Config.FundsMixedWeight + c.gold * Config.GoldWeight
    + c.stock * Config.StockWeight + c.btc * btcRiskScore
  }

  /** weighted_risk_score: the risk-weighted sum over the total, 0 unless the total is positive. */
  function WeightedRiskScore(c: RiskClasses, btcRiskScore: real, total: real): real
  {
    if total > 0.0 then RiskWeightedSum(c, btcRiskScore) / total else 0.0
  }

  /** speculative_ratio for a positive total. */
  function SpeculativeRatio(c: RiskClasses, total: real): real
    requires total > 0.0
  {
    SpeculativeAssets(c) / total * 100.0
  }

  /** speculative_assets: gold, stock and BTC scaled by their static weights over 10. */
  function SpeculativeAssets(c: RiskClasses): real
  {
    c.gold * Config.GoldWeight / 10.0 + c.stock * Config.StockWeight / 10.0
    + c.btc * Config.BtcWeight / 10.0
  }

  /** `part / total * 100`, defined as 0 for a zero total. */
  function Percent(part: real, total: real): real
  {
    if total == 0.0 then 0.0 else part / total * 100.0
  }

  /**
   * The metrics with `speculative_ratio` defined as 0 for a non-positive total: the behaviour
   * evidently intended by the source, which leaves the variable unbound in that case.
   */
  function Metrics(d: Snapshot, rates: map<string, real>, btcRiskScore: real): (r: AssetResults)
    requires HasRates(rates)
    ensures r.totalAssetsUsd == 0.0 ==>
      r.availableLiquidityRatio == 0.0 && r.goldRatio == 0.0 && r.btcRatio == 0.0
      && r.weightedRiskScore == 0.0 && r.speculativeRatio == 0.0
  {
    var b := ValuesInUsd(d, rates);
    var total := b.Sum();
    var savings := TotalSavings(d, rates);
    var c := Classes(d, rates);
    AssetResults(
      total, savings,
      Percent(savings, total), Percent(b.gold, total), Percent(b.btc, total),
      WeightedRiskScore(c, btcRiskScore, total),
      if total > 0.0 then SpeculativeRatio(c, total) else 0.0)
  }

  /**
   * calculate_asset_metrics as written: with a non-positive total `speculative_ratio` is never
   * assigned, so building AssetResults raises.
   */
  function CalculateAssetMetrics(d: Snapshot, rates: map<string, real>, btcRiskScore: real)
    : (r: Result<AssetResults, MetricsError>)
    requires HasRates(rates)
    ensures r.Err? <==> TotalAssets(d, rates) <= 0.0
    ensures r.Ok? ==> r.value == Metrics(d, rates, btcRiskScore)
  {
    if TotalAssets(d, rates) > 0.0 then Ok(Metrics(d, rates, btcRiskScore))
    else Err(SpeculativeRatioUnbound)
  }

  /** The snapshot of all zeros, what a user with no holdings posts. */
  const EmptySnapshot: Snapshot := Snapshot(0.0, 0.0, 0.0, 0.0, 0.0, 0.0, 0.0, 0.0, 0.0,
                                            0.0, 0.0, 0.0, 0.0, 0.0, 0.0, 0.0, 0.0)

  /** The empty snapshot makes the source raise, while the corrected metrics are all 0. */
  lemma EmptySnapshotRaises(rates: map<string, real>, btcRiskScore: real)
    requires HasRates(rates)
    ensures CalculateAssetMetrics(EmptySnapshot, rates, btcRiskScore) == Err(SpeculativeRatioUnbound)
    ensures Metrics(EmptySnapshot, rates, btcRiskScore) == AssetResults(0.0, 0.0, 0.0, 0.0, 0.0, 0.0, 0.0)
  {
    App.ValuesNonNegative(0.0, 0.0, 0.0, 0.0);
  }

  /**
   * The bucket total equals the fourteen non-USD fields converted one by one (grams and
   * ounces of gold in one gold conversion) plus the three USD fields unconverted: adding a
   * currency's fields before its single conversion loses nothing.
   */
  lemma TotalIsFieldwiseSum(d: Snapshot, rates: map<string, real>)
    requires HasRates(rates)
    ensures TotalAssets(d, rates) ==
      App.GoldValue(d.goldG, d.goldOz, rates["XAU"])
      + App.UsdValue(d.retirementFundsCny, rates["CNY"]) + App.UsdValue(d.fundsCny, rates["CNY"])
      + App.UsdValue(d.savingsCny, rates["CNY"]) + App.UsdValue(d.housingFundCny, rates["CNY"])
      + App.UsdValue(d.depositGbp, rates["GBP"])
      + App.UsdValue(d.savingsEur, rates["EUR"]) + App.UsdValue(d.fundsEur, rates["EUR"])
      + App.UsdValue(d.savingsSgd, rates["SGD"]) + App.UsdValue(d.fundsSgd, rates["SGD"])
      + App.UsdValue(d.savingsHkd, rates["HKD"]) + App.UsdValue(d.fundsHkd, rates["HKD"])
      + App.UsdValue(d.btc, rates["BTC"]) + d.btcStockUsd + d.savingsUsd + d.stockUsd
  {
    var r := rates["CNY"];
    App.UsdValueAdditive(d.retirementFundsCny, d.fundsCny, r);
    App.UsdValueAdditive(d.retirementFundsCny + d.fundsCny, d.savingsCny, r);
    App.UsdValueAdditive(d.retirementFundsCny + d.fundsCny + d.savingsCny, d.housingFundCny, r);
    App.UsdValueAdditive(d.savingsEur, d.fundsEur, rates["EUR"]);
    App.UsdValueAdditive(d.savingsSgd, d.fundsSgd, rates["SGD"]);
    App.UsdValueAdditive(d.savingsHkd, d.fundsHkd, rates["HKD"]);
  }

  /** The six risk classes partition the total exactly. */
  lemma ClassesPartitionTotal(d: Snapshot, rates: map<string, real>)
    requires HasRates(rates)
    ensures Classes(d, rates).Sum() == TotalAssets(d, rates)
  {
    TotalIsFieldwiseSum(d, rates);
    App.UsdValueAdditive(d.housingFundCny, d.retirementFundsCny, rates["CNY"]);
  }

  /** With non-negative inputs every risk class is non-negative. */
  lemma ClassesNonNegative(d: Snapshot, rates: map<string, real>)
    requires HasRates(rates) && NonNegative(d) && RatesNonNegative(rates)
    ensures var c := Classes(d, rates);
      c.cash >= 0.0 && c.policy >= 0.0 && c.funds >= 0.0 && c.gold >= 0.0
      && c.stock >= 0.0 && c.btc >= 0.0
    ensures TotalSavings(d, rates) >= 0.0
  {
    App.ValuesNonNegative(d.savingsCny, d.goldG, d.goldOz, rates["XAU"]);
    App.ValuesNonNegative(d.savingsCny, 0.0, 0.0, rates["CNY"]);
    App.ValuesNonNegative(d.fundsCny, 0.0, 0.0, rates["CNY"]);
    App.ValuesNonNegative(d.housingFundCny + d.retirementFundsCny, 0.0, 0.0, rates["CNY"]);
    App.ValuesNonNegative(d.savingsEur, 0.0, 0.0, rates["EUR"]);
    App.ValuesNonNegative(d.fundsEur, 0.0, 0.0, rates["EUR"]);
    App.ValuesNonNegative(d.savingsSgd, 0.0, 0.0, rates["SGD"]);
    App.ValuesNonNegative(d.fundsSgd, 0.0, 0.0, rates["SGD"]);
    App.ValuesNonNegative(d.savingsHkd, 0.0, 0.0, rates["HKD"]);
    App.ValuesNonNegative(d.fundsHkd, 0.0, 0.0, rates["HKD"]);
    App.ValuesNonNegative(d.depositGbp, 0.0, 0.0, rates["GBP"]);
    App.ValuesNonNegative(d.btc, 0.0, 0.0, rates["BTC"]);
  }

  /** Savings are a subset of the assets: with non-negative inputs, 0 <= savings <= total. */
  lemma SavingsBoundedByTotal(d: Snapshot, rates: map<string, real>)
    requires HasRates(rates) && NonNegative(d) && RatesNonNegative(rates)
    ensures 0.0 <= TotalSavings(d, rates) <= TotalAssets(d, rates)
  {
    ClassesPartitionTotal(d, rates);
    ClassesNonNegative(d, rates);
    App.ValuesNonNegative(d.depositGbp, 0.0, 0.0, rates["GBP"]);
  }

  /** `a * c <= b * c` for `a <= b` and a non-negative `c`. */
  lemma MulMono(a: real, b: real, c: real)
    requires a <= b && c >= 0.0
    ensures a * c <= b * c && c * a <= c * b
  {
    assert b * c - a * c == (b - a) * c;
    assert (b - a) * c >= 0.0;
  }

  /**
   * The weighted-average step on plain variables: `l` is the weighted sum of the classes with
   * fixed weights 0.5..8 and mass `tp`, `mb` the BTC mass weighted by `score`; `total` and
   * `sum` are the whole mass and the whole weighted sum.
   */
  lemma AverageCore(l: real, tp: real, mb: real, score: real, lo: real, hi: real,
                    total: real, sum: real)
    requires 0.5 * tp <= l <= 8.0 * tp && tp >= 0.0 && mb >= 0.0
    requires lo == (if score < 0.5 then score else 0.5)
    requires hi == (if score > 8.0 then score else 8.0)
    requires total == tp + mb && sum == l + mb * score
    ensures lo * total <= sum <= hi * total
  {
    MulMono(lo, score, mb);
    MulMono(score, hi, mb);
    MulMono(lo, 0.5, tp);
    MulMono(8.0, hi, tp);
    assert lo * total == lo * tp + lo * mb;
    assert hi * total == hi * tp + hi * mb;
  }

  /** The risk-weighted sum lies between the smallest and largest class weight times the total. */
  lemma WeightedSumBounds(c: RiskClasses, btcRiskScore: real, lo: real, hi: real)
    requires c.cash >= 0.0 && c.policy >= 0.0 && c.funds >= 0.0 && c.gold >= 0.0
    requires c.stock >= 0.0 && c.btc >= 0.0
    requires lo == (if btcRiskScore < 0.5 then btcRiskScore else 0.5)
    requires hi == (if btcRiskScore > 8.0 then btcRiskScore else 8.0)
    ensures lo * c.Sum() <= RiskWeightedSum(c, btcRiskScore) <= hi * c.Sum()
  {
    var tp := c.cash + c.policy + c.funds + c.gold + c.stock;
    var l := c.cash * Config.SavingsWeight + c.policy * Config.HousingWeight
      + c.funds * Config.FundsMixedWeight + c.gold * Config.GoldWeight
      + c.stock * Config.StockWeight;
    FixedWeightsBounds(c, tp, l);
    assert c.Sum() == tp + c.btc;
    assert RiskWeightedSum(c, btcRiskScore) == l + c.btc * btcRiskScore;
    AverageCore(l, tp, c.btc, btcRiskScore, lo, hi, c.Sum(), RiskWeightedSum(c, btcRiskScore));
  }

  /** The five classes of static weight carry between 0.5 and 8 times their mass. */
  lemma FixedWeightsBounds(c: RiskClasses, tp: real, l: real)
    requires c.cash >= 0.0 && c.policy >= 0.0 && c.funds >= 0.0 && c.gold >= 0.0
    requires c.stock >= 0.0
    requires tp == c.cash + c.policy + c.funds + c.gold + c.stock
    requires l == c.cash * Config.SavingsWeight + c.policy * Config.HousingWeight
      + c.funds * Config.FundsMixedWeight + c.gold * Config.GoldWeight
      + c.stock * Config.StockWeight
    ensures 0.5 * tp <= l <= 8.0 * tp
  {
  }

  /** For a positive divisor, `lo*T <= s <= hi*T` gives `lo <= s/T <= hi`. */
  lemma DivBounds(s: real, t: real, lo: real, hi: real)
    requires t > 0.0 && lo * t <= s <= hi * t
    ensures lo <= s / t <= hi
  {
    assert s / t * t == s;
    if s / t < lo { MulMono(s / t, lo, t); assert false; }
    if s / t > hi { MulMono(hi, s / t, t); assert false; }
  }

  /** Dividing the weighted sum by the class total gives a score within the weight range. */
  lemma ClassAverageBounds(c: RiskClasses, btcRiskScore: real)
    requires c.cash >= 0.0 && c.policy >= 0.0 && c.funds >= 0.0 && c.gold >= 0.0
    requires c.stock >= 0.0 && c.btc >= 0.0 && c.Sum() > 0.0
    ensures var score := WeightedRiskScore(c, btcRiskScore, c.Sum());
      (if btcRiskScore < 0.5 then btcRiskScore else 0.5) <= score
      && score <= (if btcRiskScore > 8.0 then btcRiskScore else 8.0)
  {
    var lo := if btcRiskScore < 0.5 then btcRiskScore else 0.5;
    var hi := if btcRiskScore > 8.0 then btcRiskScore else 8.0;
    WeightedSumBounds(c, btcRiskScore, lo, hi);
    DivBounds(RiskWeightedSum(c, btcRiskScore), c.Sum(), lo, hi);
  }

  /**
   * The weighted risk score is a value-weighted average of the class weights
   * {0.5, 1, 4, 5, 8, btcRiskScore}: it lies between their minimum and their maximum.
   */
  lemma WeightedRiskScoreBounded(d: Snapshot, rates: map<string, real>, btcRiskScore: real)
    requires HasRates(rates) && NonNegative(d) && RatesNonNegative(rates)
    requires TotalAssets(d, rates) > 0.0
    ensures var score := Metrics(d, rates, btcRiskScore).weightedRiskScore;
      (if btcRiskScore < 0.5 then btcRiskScore else 0.5) <= score
      && score <= (if btcRiskScore > 8.0 then btcRiskScore else 8.0)
  {
    ClassesPartitionTotal(d, rates);
    ClassesNonNegative(d, rates);
    ClassAverageBounds(Classes(d, rates), btcRiskScore);
  }

  /** A dynamic BTC score within 0..10 keeps the weighted risk score within 0..10. */
  lemma WeightedRiskScoreInScale(d: Snapshot, rates: map<string, real>, btcRiskScore: real)
    requires HasRates(rates) && NonNegative(d) && RatesNonNegative(rates)
    requires 0.0 <= btcRiskScore <= 10.0
    ensures 0.0 <= Metrics(d, rates, btcRiskScore).weightedRiskScore <= 10.0
  {
    if TotalAssets(d, rates) > 0.0 {
      WeightedRiskScoreBounded(d, rates, btcRiskScore);
    }
  }

  /** Speculative assets never exceed the total: the speculative ratio lies in 0..100. */
  lemma SpeculativeRatioBounded(d: Snapshot, rates: map<string, real>, btcRiskScore: real)
    requires HasRates(rates) && NonNegative(d) && RatesNonNegative(rates)
    ensures 0.0 <= Metrics(d, rates, btcRiskScore).speculativeRatio <= 100.0
  {
    var c := Classes(d, rates);
    var t := TotalAssets(d, rates);
    ClassesPartitionTotal(d, rates);
    ClassesNonNegative(d, rates);
    if t > 0.0 {
      assert 0.0 <= SpeculativeAssets(c) <= t;
      DivBounds(SpeculativeAssets(c), t, 0.0, 1.0);
    }
  }

  /** The liquidity, gold and BTC ratios all lie in 0..100 for non-negative inputs. */
  lemma RatiosBounded(d: Snapshot, rates: map<string, real>, btcRiskScore: real)
    requires HasRates(rates) && NonNegative(d) && RatesNonNegative(rates)
    ensures var r := Metrics(d, rates, btcRiskScore);
      && 0.0 <= r.availableLiquidityRatio <= 100.0
      && 0.0 <= r.goldRatio <= 100.0
      && 0.0 <= r.btcRatio <= 100.0
  {
    var c := Classes(d, rates);
    var t := TotalAssets(d, rates);
    ClassesPartitionTotal(d, rates);
    ClassesNonNegative(d, rates);
    SavingsBoundedByTotal(d, rates);
    if t != 0.0 {
      DivBounds(TotalSavings(d, rates), t, 0.0, 1.0);
      DivBounds(c.gold, t, 0.0, 1.0);
      DivBounds(c.btc, t, 0.0, 1.0);
    }
  }

  /** The dynamic BTC score changes the weighted risk score and nothing else. */
  lemma BtcScoreOnlyAffectsRiskScore(d: Snapshot, rates: map<string, real>, s1: real, s2: real)
    requires HasRates(rates)
    ensures Metrics(d, rates, s1).(weightedRiskScore := 0.0) == Metrics(d, rates, s2).(weightedRiskScore := 0.0)
  {
  }

  /** The buckets and classes of a snapshot holding only `amount` USD of savings. */
  lemma UsdSavingsOnlyParts(rates: map<string, real>, amount: real)
    requires HasRates(rates)
    ensures var d := EmptySnapshot.(savingsUsd := amount);
      && ValuesInUsd(d, rates) == Buckets(0.0, 0.0, 0.0, 0.0, 0.0, 0.0, 0.0, amount)
      && TotalSavings(d, rates) == amount
      && Classes(d, rates) == RiskClasses(amount, 0.0, 0.0, 0.0, 0.0, 0.0)
  {
    App.UsdValueAdditive(0.0, 0.0, rates["CNY"]);
    App.UsdValueAdditive(0.0, 0.0, rates["GBP"]);
    App.UsdValueAdditive(0.0, 0.0, rates["EUR"]);
    App.UsdValueAdditive(0.0, 0.0, rates["SGD"]);
    App.UsdValueAdditive(0.0, 0.0, rates["HKD"]);
    App.UsdValueAdditive(0.0, 0.0, rates["BTC"]);
    App.GoldValueLinear(0.0, 0.0, 0.0, 0.0, rates["XAU"]);
    App.UsdValueAdditive(0.0, 0.0, rates["XAU"]);
  }

  /** Metrics in terms of its buckets, total, savings and classes, each given by name. */
  lemma MetricsOfParts(d: Snapshot, rates: map<string, real>, btcRiskScore: real,
                       b: Buckets, total: real, savings: real, c: RiskClasses)
    requires HasRates(rates)
    requires b == ValuesInUsd(d, rates) && total == b.Sum()
    requires savings == TotalSavings(d, rates) && c == Classes(d, rates)
    ensures Metrics(d, rates, btcRiskScore)
      == AssetResults(total, savings, Percent(savings, total), Percent(b.gold, total),
                      Percent(b.btc, total), WeightedRiskScore(c, btcRiskScore, total),
                      if total > 0.0 then SpeculativeRatio(c, total) else 0.0)
  {
  }

  /** A snapshot holding only `amount` USD of savings: all of it liquid, score 0.5, nothing speculative. */
  lemma UsdSavingsOnly(rates: map<string, real>, btcRiskScore: real, amount: real)
    requires HasRates(rates) && amount > 0.0
    ensures Metrics(EmptySnapshot.(savingsUsd := amount), rates, btcRiskScore)
      == AssetResults(amount, amount, 100.0, 0.0, 0.0, 0.5, 0.0)
  {
    var d := EmptySnapshot.(savingsUsd := amount);
    var b := Buckets(0.0, 0.0, 0.0, 0.0, 0.0, 0.0, 0.0, amount);
    var c := RiskClasses(amount, 0.0, 0.0, 0.0, 0.0, 0.0);
    UsdSavingsOnlyParts(rates, amount);
    MetricsOfParts(d, rates, btcRiskScore, b, amount, amount, c);
    SavingsOnlyArithmetic(c, btcRiskScore, amount);
  }

  /** The ratios of a book holding `amount` of savings and nothing else. */
  lemma SavingsOnlyArithmetic(c: RiskClasses, btcRiskScore: real, amount: real)
    requires amount > 0.0 && c == RiskClasses(amount, 0.0, 0.0, 0.0, 0.0, 0.0)
    ensures Percent(amount, amount) == 100.0 && Percent(0.0, amount) == 0.0
    ensures WeightedRiskScore(c, btcRiskScore, amount) == 0.5
    ensures SpeculativeRatio(c, amount) == 0.0
  {
    assert amount / amount == 1.0;
    assert RiskWeightedSum(c, btcRiskScore) == amount * 0.5;
    assert amount * 0.5 / amount == 0.5;
    assert SpeculativeAssets(c) == 0.0;
  }
}
