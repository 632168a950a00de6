/**
 * Constants of config.py. The calculator reads the savings, housing, mixed-funds, gold,
 * stock and BTC weights; the others are declared there and read by no modelled code.
 */
module Config {

  /** RISK_WEIGHTS: risk weight of each asset class on the 0..10 scale. */
  const SavingsWeight: real := 0.5
  /** Declared but not read: deposits are weighted with the savings weight. */
  const DepositWeight: real := 0.5
  const HousingWeight: real := 1.0
  /** Declared but not read: pensions are weighted with the housing weight. */
  const RetirementWeight: real := 1.0
  /** Declared but not read: every fund is weighted as mixed. */
  const FundsFixedWeight: real := 2.0
  const FundsMixedWeight: real := 4.0
  const GoldWeight: real := 5.0
  const StockWeight: real := 8.0
  const BtcWeight: real := 10.0

  /** Troy ounces per gram; declared in config.py but not used by any modelled helper. */
  const GramsToOuncesTroy: real := 0.0321507
}
