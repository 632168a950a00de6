/**
 * risk_engine.py: calculate_btc_risk_factor, which scores BTC from 3 to 10 by a volatility
 * bucket plus five times the maximum drawdown of the close prices, and answers 10 for a
 * history shorter than ten closes. The annualised volatility is an input.
 */
module RiskEngine {

  /** The fewest closes the score is computed from. */
  const MinHistory: nat := 10

  /** The fail-safe answer for a short history, and the cap of every score. */
  const MaxRisk: real := 10.0

  function Max(a: real, b: real): real { if a >= b then a else b }
  function Min(a: real, b: real): real { if a <= b then a else b }

  predicate AllPositive(prices: seq<real>)
  {
    forall i :: 0 <= i < |prices| ==> prices[i] > 0.0
  }

  predicate NonDecreasing(prices: seq<real>)
  {
    forall i, j :: 0 <= i <= j < |prices| ==> prices[i] <= prices[j]
  }

  /** np.maximum.accumulate: position i holds the largest of the first i + 1 prices. */
  function CumulativeMax(prices: seq<real>): (m: seq<real>)
    ensures |m| == |prices|
  {
    if |prices| == 0 then []
    else
      var front := CumulativeMax(prices[..|prices| - 1]);
      var last := prices[|prices| - 1];
      front + [if |front| == 0 then last else Max(front[|front| - 1], last)]
  }

  /**
   * The running maximum at position i is at least every earlier price, equal to one of them,
   * and it never decreases.
   */
  lemma {:induction false} CumulativeMaxBounds(prices: seq<real>)
    ensures forall i, j :: 0 <= j <= i < |prices| ==> prices[j] <= CumulativeMax(prices)[i]
    ensures forall i :: 0 <= i < |prices| ==>
      exists j :: 0 <= j <= i && CumulativeMax(prices)[i] == prices[j]
    ensures NonDecreasing(CumulativeMax(prices))
  {
    var n := |prices|;
    if n > 0 {
      var init := prices[..n - 1];
      CumulativeMaxBounds(init);
      var front := CumulativeMax(init);
      var last := prices[n - 1];
      var top := if |front| == 0 then last else Max(front[|front| - 1], last);
      var m := CumulativeMax(prices);
      assert m == front + [top];
      forall i, j | 0 <= j <= i < n
        ensures prices[j] <= m[i]
      {
        if j < n - 1 {
          assert init[j] == prices[j];
          assert prices[j] <= front[n - 2];
        }
      }
      forall i | 0 <= i < n
        ensures exists j :: 0 <= j <= i && m[i] == prices[j]
      {
        if i < n - 1 {
          var j :| 0 <= j <= i && front[i] == init[j];
          assert m[i] == prices[j];
        } else if |front| == 0 || front[n - 2] < last {
          assert m[i] == prices[n - 1];
        } else {
          var j :| 0 <= j <= n - 2 && front[n - 2] == init[j];
          assert m[i] == prices[j];
        }
      }
      forall i, j | 0 <= i <= j < n
        ensures m[i] <= m[j]
      {
        if j == n - 1 && i < n - 1 {
          assert front[i] <= front[n - 2];
        }
      }
    }
  }

  /** For positive prices the running maximum is positive too. */
  lemma CumulativeMaxPositive(prices: seq<real>)
    requires AllPositive(prices)
    ensures AllPositive(CumulativeMax(prices))
  {
    CumulativeMaxBounds(prices);
    var m := CumulativeMax(prices);
    forall i | 0 <= i < |m|
      ensures m[i] > 0.0
    {
      assert prices[i] <= m[i];
    }
  }

  /** `(prices - cumulative_max) / cumulative_max`, element by element. */
  function Drawdowns(prices: seq<real>): (d: seq<real>)
    requires AllPositive(prices)
    ensures |d| == |prices|
  {
    CumulativeMaxPositive(prices);
    var m := CumulativeMax(prices);
    seq(|prices|, i requires 0 <= i < |prices| => (prices[i] - m[i]) / m[i])
  }

  /** Every drawdown of positive prices lies in (-1, 0]. */
  lemma DrawdownsBounded(prices: seq<real>)
    requires AllPositive(prices)
    ensures forall i :: 0 <= i < |prices| ==> -1.0 < Drawdowns(prices)[i] <= 0.0
  {
    CumulativeMaxPositive(prices);
    CumulativeMaxBounds(prices);
    var m := CumulativeMax(prices);
    forall i | 0 <= i < |prices|
      ensures -1.0 < Drawdowns(prices)[i] <= 0.0
    {
      assert prices[i] <= m[i];
      DrawdownStep(prices[i], m[i]);
    }
  }

  /** `(p - m) / m` for `0 < p <= m` lies in (-1, 0]. */
  lemma DrawdownStep(p: real, m: real)
    requires 0.0 < p <= m
    ensures -1.0 < (p - m) / m <= 0.0
  {
    var q := (p - m) / m;
    assert q * m == p - m;
  }

  /** np.min over a non-empty sequence. */
  function MinOf(s: seq<real>): (r: real)
    requires |s| > 0
    ensures forall i :: 0 <= i < |s| ==> r <= s[i]
    ensures exists i :: 0 <= i < |s| && r == s[i]
  {
    if |s| == 1 then s[0]
    else
      var front := MinOf(s[..|s| - 1]);
      Min(front, s[|s| - 1])
  }

  /** `abs(np.min(drawdown))`. */
  function MaxDrawdown(prices: seq<real>): real
    requires |prices| > 0 && AllPositive(prices)
  {
    var lowest := MinOf(Drawdowns(prices));
    if lowest < 0.0 then -lowest else lowest
  }

  /** The maximum drawdown of positive prices lies in [0, 1) and bounds every single drawdown. */
  lemma MaxDrawdownBounded(prices: seq<real>)
    requires |prices| > 0 && AllPositive(prices)
    ensures 0.0 <= MaxDrawdown(prices) < 1.0
    ensures forall i :: 0 <= i < |prices| ==> -MaxDrawdown(prices) <= Drawdowns(prices)[i]
  {
    DrawdownsBounded(prices);
  }

  /** A series that never falls has all drawdowns 0, hence a maximum drawdown of 0. */
  lemma {:induction false} NonDecreasingHasNoDrawdown(prices: seq<real>)
    requires |prices| > 0 && AllPositive(prices) && NonDecreasing(prices)
    ensures CumulativeMax(prices) == prices
    ensures MaxDrawdown(prices) == 0.0
  {
    CumulativeMaxOfNonDecreasing(prices);
    var d := Drawdowns(prices);
    forall i | 0 <= i < |d|
      ensures d[i] == 0.0
    {
      assert d[i] == (prices[i] - prices[i]) / prices[i];
    }
    var lowest := MinOf(d);
    var k :| 0 <= k < |d| && lowest == d[k];
  }

  /** The running maximum of a non-decreasing series is the series itself. */
  lemma {:induction false} CumulativeMaxOfNonDecreasing(prices: seq<real>)
    requires NonDecreasing(prices)
    ensures CumulativeMax(prices) == prices
  {
    if |prices| > 0 {
      var front := prices[..|prices| - 1];
      assert NonDecreasing(front);
      CumulativeMaxOfNonDecreasing(front);
      assert prices == front + [prices[|prices| - 1]];
    }
  }

  /** The volatility bucket: 3 below 0.20, one more per 0.10, 10 from 0.80 up. */
  function VolBase(vol: real): (base: int)
    ensures 3 <= base <= 10
    ensures vol < 0.20 <==> base == 3
    ensures vol >= 0.80 <==> base == 10
    // Each bucket above 3 starts 0.10 after the previous one: base b covers [0.1 (b - 2), 0.1 (b - 1)).
    ensures base > 3 ==> vol >= 0.1 * (base - 2) as real
    ensures base < 10 ==> vol < 0.1 * (base - 1) as real
  {
    if vol < 0.20 then 3
    else if vol < 0.30 then 4
    else if vol < 0.40 then 5
    else if vol < 0.50 then 6
    else if vol < 0.60 then 7
    else if vol < 0.70 then 8
    else if vol < 0.80 then 9
    else 10
  }

  /** A higher volatility never lowers the bucket. */
  lemma VolBaseMonotone(v1: real, v2: real)
    requires v1 <= v2
    ensures VolBase(v1) <= VolBase(v2)
  {
  }

  /** `min(10, base + max_dd * 5)`. */
  function Risk(base: int, maxDd: real): real
  {
    Min(MaxRisk, base as real + maxDd * 5.0)
  }

  /** The score is capped at 10, is at least the bucket while that is at most 10, and grows with the drawdown. */
  lemma RiskProperties(base: int, maxDd: real, maxDd2: real)
    requires 3 <= base <= 10 && 0.0 <= maxDd <= maxDd2
    ensures 3.0 <= Risk(base, maxDd) <= MaxRisk
    ensures Risk(base, maxDd) <= Risk(base, maxDd2)
    ensures maxDd == 0.0 ==> Risk(base, maxDd) == base as real
  {
  }

  /**
   * calculate_btc_risk_factor with the volatility given: 10 for fewer than ten closes,
   * otherwise the capped bucket-plus-drawdown score, in [3, 10].
   */
  function CalculateBtcRiskFactor(prices: seq<real>, vol: real): (risk: real)
    requires |prices| < MinHistory || AllPositive(prices)
    ensures |prices| < MinHistory ==> risk == MaxRisk
    ensures 3.0 <= risk <= MaxRisk
    ensures |prices| >= MinHistory ==> risk >= VolBase(vol) as real
  {
    if |prices| < MinHistory then MaxRisk
    else
      MaxDrawdownBounded(prices);
      Risk(VolBase(vol), MaxDrawdown(prices))
  }

  /** For a fixed volatility, a deeper drawdown never lowers the score. */
  lemma RiskMonotoneInDrawdown(p1: seq<real>, p2: seq<real>, vol: real)
    requires |p1| >= MinHistory && |p2| >= MinHistory && AllPositive(p1) && AllPositive(p2)
    requires MaxDrawdown(p1) <= MaxDrawdown(p2)
    ensures CalculateBtcRiskFactor(p1, vol) <= CalculateBtcRiskFactor(p2, vol)
  {
    MaxDrawdownBounded(p1);
    RiskProperties(VolBase(vol), MaxDrawdown(p1), MaxDrawdown(p2));
  }

  /** A long enough series that never falls scores exactly its volatility bucket. */
  lemma NonDecreasingScoresBase(prices: seq<real>, vol: real)
    requires |prices| >= MinHistory && AllPositive(prices) && NonDecreasing(prices)
    ensures CalculateBtcRiskFactor(prices, vol) == VolBase(vol) as real
  {
    NonDecreasingHasNoDrawdown(prices);
  }
}
