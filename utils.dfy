/** utils.py: the asset registry lookup and the registry-driven USD conversion. */
module Utils {

  /** One ASSET_CONFIG entry: settlement currency, risk weight, liquidity flag, unit scale, display name. */
  datatype AssetInfo = AssetInfo(currency: string, risk: real, liquid: bool, unitScale: real, name: string)

  /** ASSET_CONFIG is not defined in config.py, so the registry is a parameter of every lookup. */
  type AssetConfig = map<string, AssetInfo>

  /** The entry an unknown field falls back to. */
  function DefaultInfo(field: string): AssetInfo
  {
    AssetInfo("USD", 5.0, false, 1.0, field)
  }

  /**
   * get_usd_value(money, unit_scale, rate): `rate` is foreign units per 1 USD, and a rate of 0
   * means "unknown" and yields 0 instead of a division by zero.
   */
  function UsdValue(money: real, unitScale: real, rate: real): (usd: real)
    ensures rate == 0.0 ==> usd == 0.0
    ensures rate != 0.0 ==> usd * rate == money * unitScale
  {
    if rate != 0.0 then (1.0 / rate) * money * unitScale else 0.0
  }

  /** Conversion is linear in the amount: sums convert to the sum of the conversions. */
  lemma UsdValueAdditive(a: real, b: real, unitScale: real, rate: real)
    ensures UsdValue(a + b, unitScale, rate) == UsdValue(a, unitScale, rate) + UsdValue(b, unitScale, rate)
    ensures UsdValue(0.0, unitScale, rate) == 0.0
  {
    if rate != 0.0 {
      calc {
        UsdValue(a + b, unitScale, rate);
        (1.0 / rate) * (a + b) * unitScale;
        (1.0 / rate) * a * unitScale + (1.0 / rate) * b * unitScale;
      }
    }
  }

  /** With a non-negative amount and scale and a positive rate, the USD value is non-negative. */
  lemma UsdValueNonNegative(money: real, unitScale: real, rate: real)
    requires money >= 0.0 && unitScale >= 0.0 && rate >= 0.0
    ensures UsdValue(money, unitScale, rate) >= 0.0
  {
    if rate != 0.0 {
      assert 1.0 / rate > 0.0;
      assert (1.0 / rate) * money >= 0.0;
    }
  }

  /** Converting back at the same rate and scale recovers the amount. */
  lemma UsdValueRoundTrip(money: real, unitScale: real, rate: real)
    requires rate != 0.0 && unitScale != 0.0
    ensures UsdValue(money, unitScale, rate) * rate / unitScale == money
  {
    var u := UsdValue(money, unitScale, rate);
    assert u * rate == money * unitScale;
  }

  /** get_asset_info: total; a known field gets its entry, an unknown one the default entry. */
  function AssetInfoOf(config: AssetConfig, field: string): (info: AssetInfo)
    ensures field in config ==> info == config[field]
    ensures field !in config ==> info.currency == "USD" && info.risk == 5.0 && !info.liquid
                                 && info.unitScale == 1.0 && info.name == field
  {
    if field in config then config[field] else DefaultInfo(field)
  }

  /** get_currency_code */
  function CurrencyCode(config: AssetConfig, field: string): string
  {
    AssetInfoOf(config, field).currency
  }

  /** get_unit_scale */
  function UnitScale(config: AssetConfig, field: string): real
  {
    AssetInfoOf(config, field).unitScale
  }

  /** is_liquid */
  predicate IsLiquid(config: AssetConfig, field: string)
  {
    AssetInfoOf(config, field).liquid
  }

  /** The three projections agree with the entry, and describe an unknown field as illiquid USD at scale 1. */
  lemma ProjectionsOfAssetInfo(config: AssetConfig, field: string)
    ensures field in config ==>
      && CurrencyCode(config, field) == config[field].currency
      && UnitScale(config, field) == config[field].unitScale
      && (IsLiquid(config, field) <==> config[field].liquid)
    ensures field !in config ==>
      && CurrencyCode(config, field) == "USD"
      && UnitScale(config, field) == 1.0
      && !IsLiquid(config, field)
  {
  }
}
