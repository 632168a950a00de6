/**
 * app.py: the two-argument conversion helpers, the default form data and the
 * USD aggregation of the Flask index view.
 */
module App {

  /** Avoirdupois ounces per gram, as written in get_gold_value. */
  const GramsToOunces: real := 0.03527396

  /** get_usd_value(money, rate): 0 when the rate is unknown (0), `money / rate` otherwise. */
  function UsdValue(money: real, rate: real): (usd: real)
    ensures rate == 0.0 ==> usd == 0.0
    ensures rate != 0.0 ==> usd * rate == money
  {
    if rate != 0.0 then (1.0 / rate) * money else 0.0
  }

  /** get_gold_value(grams, oz, rate): grams are turned into ounces, added to `oz`, and converted. */
  function GoldValue(grams: real, oz: real, rate: real): (usd: real)
    ensures rate == 0.0 ==> usd == 0.0
    ensures rate != 0.0 ==> usd * rate == grams * GramsToOunces + oz
  {
    var ounces := grams * GramsToOunces + oz;
    if rate != 0.0 then ounces * (1.0 / rate) else 0.0
  }

  /** get_usd_value is linear in the amount. */
  lemma UsdValueAdditive(a: real, b: real, rate: real)
    ensures UsdValue(a + b, rate) == UsdValue(a, rate) + UsdValue(b, rate)
    ensures UsdValue(0.0, rate) == 0.0
  {
  }

  /** get_gold_value is linear in (grams, oz) and equals the conversion of the ounce count. */
  lemma GoldValueLinear(g1: real, o1: real, g2: real, o2: real, rate: real)
    ensures GoldValue(g1 + g2, o1 + o2, rate) == GoldValue(g1, o1, rate) + GoldValue(g2, o2, rate)
    ensures GoldValue(g1, o1, rate) == UsdValue(g1 * GramsToOunces + o1, rate)
  {
    if rate != 0.0 {
      calc {
        GoldValue(g1 + g2, o1 + o2, rate);
        ((g1 + g2) * GramsToOunces + (o1 + o2)) * (1.0 / rate);
        (g1 * GramsToOunces + o1) * (1.0 / rate) + (g2 * GramsToOunces + o2) * (1.0 / rate);
      }
    }
  }

  /** Both helpers are non-negative for non-negative amounts and a non-negative rate. */
  lemma ValuesNonNegative(money: real, grams: real, oz: real, rate: real)
    requires money >= 0.0 && grams >= 0.0 && oz >= 0.0 && rate >= 0.0
    ensures UsdValue(money, rate) >= 0.0
    ensures GoldValue(grams, oz, rate) >= 0.0
  {
    if rate != 0.0 {
      assert 1.0 / rate > 0.0;
      assert grams * GramsToOunces >= 0.0;
    }
  }

  /** The fields the index form posts, in its order. */
  const FormFields: seq<string> := [
    "gold_g", "gold_oz", "retirement_funds_cny", "funds_cny", "housing_fund_cny", "stock_usd",
    "btc", "usdt", "usdc", "savings_cny", "savings_usd", "savings_gbp", "savings_eur", "savings_sgd"]

  /** get_default_data: every form field except `gold_oz`, each mapped to 0. */
  function DefaultData(): (d: map<string, real>)
    ensures "gold_oz" !in d
    ensures forall k :: k in d ==> k in FormFields && d[k] == 0.0
    ensures forall i :: 0 <= i < |FormFields| && FormFields[i] != "gold_oz" ==> FormFields[i] in d
  {
    map[
      "gold_g" := 0.0, "retirement_funds_cny" := 0.0, "funds_cny" := 0.0,
      "housing_fund_cny" := 0.0, "stock_usd" := 0.0, "btc" := 0.0, "usdt" := 0.0,
      "usdc" := 0.0, "savings_cny" := 0.0, "savings_usd" := 0.0, "savings_gbp" := 0.0,
      "savings_eur" := 0.0, "savings_sgd" := 0.0]
  }

  /** The posted form, one amount per field. */
  datatype FormData = FormData(
    goldG: real, goldOz: real, retirementFundsCny: real, fundsCny: real, housingFundCny: real,
    stockUsd: real, btc: real, usdt: real, usdc: real, savingsCny: real, savingsUsd: real,
    savingsGbp: real, savingsEur: real, savingsSgd: real)

  /** All amounts of the form are non-negative. */
  predicate FormNonNegative(f: FormData)
  {
    && f.goldG >= 0.0 && f.goldOz >= 0.0 && f.retirementFundsCny >= 0.0 && f.fundsCny >= 0.0
    && f.housingFundCny >= 0.0 && f.stockUsd >= 0.0 && f.btc >= 0.0 && f.usdt >= 0.0
    && f.usdc >= 0.0 && f.savingsCny >= 0.0 && f.savingsUsd >= 0.0 && f.savingsGbp >= 0.0
    && f.savingsEur >= 0.0 && f.savingsSgd >= 0.0
  }

  /** The rate table the view builds: one entry per code it reads from the cache. */
  predicate HasAppRates(rates: map<string, real>)
  {
    && "XAU" in rates && "CNY" in rates && "GBP" in rates && "EUR" in rates
    && "BTC" in rates && "SGD" in rates && "USDT" in rates && "USDC" in rates
  }

  /** The eight converted buckets of `values_in_usd`. */
  datatype AppBuckets = AppBuckets(gold: real, cny: real, gbp: real, eur: real, sgd: real,
                                   btc: real, usdt: real, usdc: real)
  {
    function Sum(): real { gold + cny + gbp + eur + sgd + btc + usdt + usdc }
  }

  /** values_in_usd in the index view: the four CNY fields are added before one conversion. */
  function ValuesInUsd(f: FormData, rates: map<string, real>): AppBuckets
    requires HasAppRates(rates)
  {
    AppBuckets(
      GoldValue(f.goldG, f.goldOz, rates["XAU"]),
      UsdValue(f.retirementFundsCny + f.fundsCny + f.savingsCny + f.housingFundCny, rates["CNY"]),
      UsdValue(f.savingsGbp, rates["GBP"]),
      UsdValue(f.savingsEur, rates["EUR"]),
      UsdValue(f.savingsSgd, rates["SGD"]),
      UsdValue(f.btc, rates["BTC"]),
      UsdValue(f.usdt, rates["USDT"]),
      UsdValue(f.usdc, rates["USDC"]))
  }

  /** total_assets_usd in the index view: the bucket sum plus the unconverted USD fields. */
  function TotalAssetsUsd(f: FormData, rates: map<string, real>): real
    requires HasAppRates(rates)
  {
    ValuesInUsd(f, rates).Sum() + f.savingsUsd + f.stockUsd
  }

  /**
   * The total equals the four CNY fields and the GBP, EUR, SGD, BTC, USDT and USDC fields
   * converted one by one, grams and ounces of gold in one gold conversion, plus the two USD
   * fields unconverted: adding the CNY fields before converting them loses nothing. Non-negative inputs give a total no smaller than `savings_usd`
   * plus `stock_usd`.
   */
  lemma TotalIsFieldwiseSum(f: FormData, rates: map<string, real>)
    requires HasAppRates(rates)
    ensures TotalAssetsUsd(f, rates) ==
      GoldValue(f.goldG, f.goldOz, rates["XAU"])
      + UsdValue(f.retirementFundsCny, rates["CNY"]) + UsdValue(f.fundsCny, rates["CNY"])
      + UsdValue(f.savingsCny, rates["CNY"]) + UsdValue(f.housingFundCny, rates["CNY"])
      + UsdValue(f.savingsGbp, rates["GBP"]) + UsdValue(f.savingsEur, rates["EUR"])
      + UsdValue(f.savingsSgd, rates["SGD"]) + UsdValue(f.btc, rates["BTC"])
      + UsdValue(f.usdt, rates["USDT"]) + UsdValue(f.usdc, rates["USDC"])
      + f.savingsUsd + f.stockUsd
  {
    var r := rates["CNY"];
    UsdValueAdditive(f.retirementFundsCny, f.fundsCny, r);
    UsdValueAdditive(f.retirementFundsCny + f.fundsCny, f.savingsCny, r);
    UsdValueAdditive(f.retirementFundsCny + f.fundsCny + f.savingsCny, f.housingFundCny, r);
  }

  /** With non-negative amounts and rates each bucket, and so the total, is non-negative. */
  lemma TotalNonNegative(f: FormData, rates: map<string, real>)
    requires HasAppRates(rates) && FormNonNegative(f)
    requires forall k :: k in rates ==> rates[k] >= 0.0
    ensures TotalAssetsUsd(f, rates) >= f.savingsUsd + f.stockUsd >= 0.0
  {
    ValuesNonNegative(f.retirementFundsCny + f.fundsCny + f.savingsCny + f.housingFundCny,
                      f.goldG, f.goldOz, rates["CNY"]);
    ValuesNonNegative(f.savingsGbp, f.goldG, f.goldOz, rates["XAU"]);
    ValuesNonNegative(f.savingsGbp, 0.0, 0.0, rates["GBP"]);
    ValuesNonNegative(f.savingsEur, 0.0, 0.0, rates["EUR"]);
    ValuesNonNegative(f.savingsSgd, 0.0, 0.0, rates["SGD"]);
    ValuesNonNegative(f.btc, 0.0, 0.0, rates["BTC"]);
    ValuesNonNegative(f.usdt, 0.0, 0.0, rates["USDT"]);
    ValuesNonNegative(f.usdc, 0.0, 0.0, rates["USDC"]);
  }
}
