/**
 * allocation_engine.py: the FX valuation band and the strategic rebalancing advisor, which
 * folds currencies without a target into OTHER, measures each target's drift and turns drift
 * and FX status into an action, dropping the ones that say WAIT.
 */
module AllocationEngine {
  import opened Wrappers

  /** The four strings evaluate_fx_status returns. */
  datatype FxStatus = Cheap | Fair | Expensive | NotApplicable

  /** The eight actions of the decision table. */
  datatype Action = StrongSell | Sell | Hold | StrongBuy | Buy | Trim | Add | Wait
  {
    /** The action string the source stores in SmartSuggestion.action. */
    function Label(): string
    {
      match this
      case StrongSell => "STRONG SELL"
      case Sell => "SELL"
      case Hold => "HOLD"
      case StrongBuy => "STRONG BUY"
      case Buy => "BUY"
      case Trim => "TRIM"
      case Add => "ADD"
      case Wait => "WAIT"
    }

    predicate IsSell() { this == StrongSell || this == Sell || this == Trim }
    predicate IsBuy() { this == StrongBuy || this == Buy || this == Add }
  }

  /** Distinct actions carry distinct strings, so the string stored names its action. */
  lemma LabelsDistinct(a: Action, b: Action)
    ensures a.Label() == b.Label() <==> a == b
  {
  }

  /** SmartSuggestion without its free-text `reason`. */
  datatype Suggestion = Suggestion(
    assetClass: string, currentPct: real, targetPct: real, drift: real,
    fxStatus: FxStatus, action: Action, amountUsd: real)

  /** The band evaluate_fx_status uses when the caller gives none. */
  const DefaultBand: real := 0.05

  /** `d.get(k, default)`. */
  function Get(m: map<string, real>, k: string, default: real): (v: real)
    ensures k in m ==> v == m[k]
    ensures k !in m ==> v == default
  {
    if k in m then m[k] else default
  }

  function Abs(x: real): (y: real)
    ensures y >= 0.0 && (y == x || y == -x)
  {
    if x < 0.0 then -x else x
  }

  /** The three codes the FX band never applies to. */
  predicate Exempt(currency: string)
  {
    currency == "USD" || currency == "BTC" || currency == "GOLD"
  }

  /**
   * evaluate_fx_status: N/A for USD, BTC and GOLD and for a missing or zero reference rate;
   * otherwise CHEAP at or above the upper band edge, EXPENSIVE at or below the lower one,
   * FAIR strictly between.
   */
  function EvaluateFxStatus(currency: string, currentRate: real, refRates: map<string, real>,
                            band: real): (s: FxStatus)
    ensures Exempt(currency) ==> s == NotApplicable
    ensures Get(refRates, currency, 0.0) == 0.0 ==> s == NotApplicable
    ensures s == NotApplicable <==> Exempt(currency) || Get(refRates, currency, 0.0) == 0.0
    ensures s == Cheap <==> s != NotApplicable && currentRate >= refRates[currency] * (1.0 + band)
    ensures s == Expensive <==>
      && s != NotApplicable
      && currentRate < refRates[currency] * (1.0 + band)
      && currentRate <= refRates[currency] * (1.0 - band)
  {
    if Exempt(currency) then NotApplicable
    else if Get(refRates, currency, 0.0) == 0.0 then NotApplicable
    else
      var refRate := refRates[currency];
      if currentRate >= refRate * (1.0 + band) then Cheap
      else if currentRate <= refRate * (1.0 - band) then Expensive
      else Fair
  }

  /** With a positive reference and a positive band the three bands are disjoint intervals. */
  lemma FxBands(currency: string, currentRate: real, refRates: map<string, real>, band: real)
    requires !Exempt(currency) && currency in refRates
    requires refRates[currency] > 0.0 && band > 0.0
    ensures var s := EvaluateFxStatus(currency, currentRate, refRates, band);
      var lo := refRates[currency] * (1.0 - band);
      var hi := refRates[currency] * (1.0 + band);
      && lo < hi
      && (s == Cheap <==> currentRate >= hi)
      && (s == Expensive <==> currentRate <= lo)
      && (s == Fair <==> lo < currentRate < hi)
  {
    var r := refRates[currency];
    assert r * (1.0 + band) - r * (1.0 - band) == 2.0 * (r * band);
    assert r * band > 0.0;
  }

  /** An absent current rate counts as 0, so it is EXPENSIVE for every band below 1. */
  lemma AbsentRateIsExpensive(currency: string, refRates: map<string, real>, band: real)
    requires !Exempt(currency) && currency in refRates
    requires refRates[currency] > 0.0 && 0.0 <= band < 1.0
    ensures EvaluateFxStatus(currency, Get(map[], currency, 0.0), refRates, band) == Expensive
  {
    var r := refRates[currency];
    var q := 1.0 - band;
    assert q > 0.0;
    assert r * q > 0.0;
    assert r * (1.0 + band) >= r;
  }

  /** A CNY rate of 7.40 against a reference of 7.05 is within the default 5% band. */
  lemma FairYuanExample()
    ensures EvaluateFxStatus("CNY", 7.40, map["CNY" := 7.05], DefaultBand) == Fair
  {
  }

  /**
   * The decision table: overweight and underweight beyond the threshold, then the in-band
   * nudges TRIM and ADD, and WAIT otherwise.
   */
  function Decide(drift: real, threshold: real, fx: FxStatus): (a: Action)
    // The table never sells a cheap currency nor buys an expensive one.
    ensures a.IsSell() ==> fx != Cheap
    ensures a.IsBuy() ==> fx != Expensive
    // HOLD is only ever a deliberately postponed trade beyond the threshold.
    ensures a == Hold <==>
      || (drift > threshold && fx == Cheap)
      || (drift <= threshold && drift < -threshold && fx == Expensive)
    // WAIT exactly when the drift is within the band and the FX status gives no nudge.
    ensures a == Wait <==>
      && -threshold <= drift <= threshold
      && !(fx == Expensive && drift > 0.0) && !(fx == Cheap && drift < 0.0)
    // With a non-negative threshold, sells need positive drift and buys negative drift.
    ensures threshold >= 0.0 ==> (a.IsSell() ==> drift > 0.0) && (a.IsBuy() ==> drift < 0.0)
    ensures threshold >= 0.0 && a == Hold ==> Abs(drift) > threshold
    ensures a.IsSell() && a != Trim ==> drift > threshold
    ensures a.IsBuy() && a != Add ==> drift < -threshold
    // One cell of the table per action.
    ensures a == StrongSell <==> drift > threshold && fx == Expensive
    ensures a == Sell <==> drift > threshold && fx != Expensive && fx != Cheap
    ensures a == StrongBuy <==> drift <= threshold && drift < -threshold && fx == Cheap
    ensures a == Buy <==> drift <= threshold && drift < -threshold && fx != Cheap && fx != Expensive
    ensures a == Trim <==> -threshold <= drift <= threshold && fx == Expensive && drift > 0.0
    ensures a == Add <==> -threshold <= drift <= threshold && fx == Cheap && drift < 0.0
  {
    if drift > threshold then
      if fx == Expensive then StrongSell
      else if fx == Cheap then Hold
      else Sell
    else if drift < -threshold then
      if fx == Cheap then StrongBuy
      else if fx == Expensive then Hold
      else Buy
    else if fx == Expensive && drift > 0.0 then Trim
    else if fx == Cheap && drift < 0.0 then Add
    else Wait
  }

  /** The keys of the target map. */
  function TargetKeys(targets: seq<(string, real)>): (ks: set<string>)
    ensures forall i :: 0 <= i < |targets| ==> targets[i].0 in ks
    ensures forall k :: k in ks ==> exists i :: 0 <= i < |targets| && targets[i].0 == k
  {
    set i | 0 <= i < |targets| :: targets[i].0
  }

  /** Some element of a non-empty set, the one every sum below takes first. */
  ghost function Pick(ks: set<string>): (k: string)
    requires ks != {}
    ensures k in ks
  {
    var k :| k in ks; k
  }

  /** The sum of `m` over the keys `ks`, in no particular order. */
  ghost function SetSum(m: map<string, real>, ks: set<string>): real
    requires ks <= m.Keys
    decreases ks
  {
    if ks == {} then 0.0
    else
      var k := Pick(ks);
      m[k] + SetSum(m, ks - {k})
  }

  /** Any key may be taken out of the sum first. */
  lemma {:induction false} SumRemove(m: map<string, real>, ks: set<string>, k: string)
    requires ks <= m.Keys && k in ks
    ensures SetSum(m, ks) == m[k] + SetSum(m, ks - {k})
    decreases ks
  {
    var j := Pick(ks);
    if j != k {
      SumRemove(m, ks - {j}, k);
      SumRemove(m, ks - {k}, j);
      assert ks - {j} - {k} == ks - {k} - {j};
    }
  }

  /** The sum over a disjoint union is the sum of the sums. */
  lemma {:induction false} SumUnion(m: map<string, real>, a: set<string>, b: set<string>)
    requires a <= m.Keys && b <= m.Keys && a !! b
    ensures SetSum(m, a + b) == SetSum(m, a) + SetSum(m, b)
    decreases a
  {
    if a != {} {
      var k := Pick(a);
      SumRemove(m, a, k);
      SumRemove(m, a + b, k);
      assert (a + b) - {k} == (a - {k}) + b;
      SumUnion(m, a - {k}, b);
    } else {
      assert a + b == b;
    }
  }

  /** Two maps that agree on `ks` have the same sum over it. */
  lemma {:induction false} SumAgree(m1: map<string, real>, m2: map<string, real>, ks: set<string>)
    requires ks <= m1.Keys && ks <= m2.Keys
    requires forall k :: k in ks ==> m1[k] == m2[k]
    ensures SetSum(m1, ks) == SetSum(m2, ks)
    decreases ks
  {
    if ks != {} {
      var k := Pick(ks);
      SumRemove(m2, ks, k);
      SumAgree(m1, m2, ks - {k});
    }
  }

  /** actual_other: the total share of the currencies no target names. */
  ghost function ActualOther(dist: map<string, real>, targets: seq<(string, real)>): real
  {
    SetSum(dist, dist.Keys - TargetKeys(targets))
  }

  /** mapped_current: the distribution with the untargeted share added to OTHER, if targeted. */
  ghost function MappedCurrent(dist: map<string, real>, targets: seq<(string, real)>)
    : map<string, real>
  {
    if "OTHER" in TargetKeys(targets)
    then dist["OTHER" := Get(dist, "OTHER", 0.0) + ActualOther(dist, targets)]
    else dist
  }

  /**
   * Folding into OTHER loses nothing: when OTHER is a target, the mapped shares of the
   * targets add up to the whole distribution; OTHER gains exactly the untargeted share, and
   * no other key changes.
   */
  lemma {:induction false} FoldConservesTotal(dist: map<string, real>, targets: seq<(string, real)>)
    requires "OTHER" in TargetKeys(targets)
    ensures var mapped := MappedCurrent(dist, targets);
      var t := TargetKeys(targets);
      && mapped.Keys == dist.Keys + {"OTHER"}
      && mapped["OTHER"] == Get(dist, "OTHER", 0.0) + ActualOther(dist, targets)
      && (forall k :: k in dist && k != "OTHER" ==> mapped[k] == dist[k])
      && SetSum(mapped, mapped.Keys * t) == SetSum(dist, dist.Keys)
  {
    var t := TargetKeys(targets);
    var mapped := MappedCurrent(dist, targets);
    var inner := (dist.Keys * t) - {"OTHER"};
    var outer := dist.Keys - t;
    assert mapped.Keys * t == inner + {"OTHER"};
    SumRemove(mapped, inner + {"OTHER"}, "OTHER");
    assert (inner + {"OTHER"}) - {"OTHER"} == inner;
    SumAgree(mapped, dist, inner);
    if "OTHER" in dist {
      SumRemove(dist, dist.Keys * t, "OTHER");
      assert (dist.Keys * t) - {"OTHER"} == inner;
    } else {
      assert dist.Keys * t == inner;
    }
    SumUnion(dist, dist.Keys * t, outer);
    assert (dist.Keys * t) + outer == dist.Keys;
  }

  /** Without an OTHER target the distribution is used as it is. */
  lemma NoOtherTargetNoFold(dist: map<string, real>, targets: seq<(string, real)>)
    requires "OTHER" !in TargetKeys(targets)
    ensures MappedCurrent(dist, targets) == dist
  {
  }

  /** When every currency has a target, OTHER gains nothing. */
  lemma AllTargetedNoOther(dist: map<string, real>, targets: seq<(string, real)>)
    requires dist.Keys <= TargetKeys(targets)
    ensures ActualOther(dist, targets) == 0.0
  {
    assert dist.Keys - TargetKeys(targets) == {};
  }

  /** adjustment_usd: the trade that would close the drift, as an unsigned USD amount. */
  function AdjustmentUsd(total: real, drift: real): (a: real)
    ensures a >= 0.0
  {
    Abs(total * (drift / 100.0))
  }

  /** For a non-negative total the amount is the drift's share of it, in either direction. */
  lemma AdjustmentIsDriftShare(total: real, drift: real)
    requires total >= 0.0
    ensures AdjustmentUsd(total, drift) == total * Abs(drift) / 100.0
    ensures AdjustmentUsd(total, drift) == AdjustmentUsd(total, -drift)
  {
    if drift < 0.0 {
      assert total * (drift / 100.0) == -(total * (-drift) / 100.0);
      assert total * ((-drift) / 100.0) == total * (-drift) / 100.0;
    } else {
      assert total * (drift / 100.0) == total * drift / 100.0;
      assert total * ((-drift) / 100.0) == -(total * drift / 100.0);
    }
  }

  /** What every row of the second loop reads besides its own target. */
  datatype Context = Context(total: real, mapped: map<string, real>, threshold: real,
                             currentRates: map<string, real>, fxRefs: map<string, real>)

  /** One target's row: its drift, its amount, its FX status and action; None for WAIT. */
  function Assess(c: Context, asset: string, targetPct: real): (r: Option<Suggestion>)
    ensures r.Some? ==>
      && r.value.assetClass == asset && r.value.targetPct == targetPct
      && r.value.currentPct == Get(c.mapped, asset, 0.0)
      && r.value.drift == r.value.currentPct - targetPct
      && r.value.amountUsd == AdjustmentUsd(c.total, r.value.drift)
      && r.value.fxStatus == EvaluateFxStatus(asset, Get(c.currentRates, asset, 0.0), c.fxRefs,
                                              DefaultBand)
      && r.value.action == Decide(r.value.drift, c.threshold, r.value.fxStatus)
      && r.value.action != Wait
    ensures r.None? <==>
      Decide(Get(c.mapped, asset, 0.0) - targetPct, c.threshold,
             EvaluateFxStatus(asset, Get(c.currentRates, asset, 0.0), c.fxRefs, DefaultBand))
      == Wait
  {
    var currentPct := Get(c.mapped, asset, 0.0);
    var drift := currentPct - targetPct;
    var fx := EvaluateFxStatus(asset, Get(c.currentRates, asset, 0.0), c.fxRefs, DefaultBand);
    var action := Decide(drift, c.threshold, fx);
    if action == Wait then None
    else Some(Suggestion(asset, currentPct, targetPct, drift, fx, action,
                         AdjustmentUsd(c.total, drift)))
  }

  /** The row of target `i`. */
  function AssessAt(c: Context, targets: seq<(string, real)>, i: nat): Option<Suggestion>
    requires i < |targets|
  {
    Assess(c, targets[i].0, targets[i].1)
  }

  /** The suggestions for the targets in order, WAIT rows dropped. */
  function Suggest(c: Context, targets: seq<(string, real)>): seq<Suggestion>
  {
    if |targets| == 0 then []
    else
      var init := Suggest(c, targets[..|targets| - 1]);
      match AssessAt(c, targets, |targets| - 1)
      case None => init
      case Some(s) => init + [s]
  }

  /** calculate_strategic_rebalancing as a function of its inputs. */
  ghost function Rebalancing(total: real, dist: map<string, real>, targets: seq<(string, real)>,
                             threshold: real, currentRates: map<string, real>,
                             fxRefs: map<string, real>): seq<Suggestion>
  {
    if total == 0.0 then []
    else Suggest(Context(total, MappedCurrent(dist, targets), threshold, currentRates, fxRefs),
                 targets)
  }

  /** One more target appends its row, unless that row is WAIT. */
  lemma SuggestStep(c: Context, targets: seq<(string, real)>, i: nat)
    requires i < |targets|
    ensures Suggest(c, targets[..i + 1]) == Suggest(c, targets[..i])
      + (match AssessAt(c, targets, i) case Some(s) => [s] case None => [])
  {
    assert targets[..i + 1][..i] == targets[..i];
  }

  /** The indices of the targets whose row is not WAIT, in increasing order. */
  function KeptIndices(c: Context, targets: seq<(string, real)>): seq<nat>
  {
    if |targets| == 0 then []
    else
      var init := KeptIndices(c, targets[..|targets| - 1]);
      if AssessAt(c, targets, |targets| - 1).None? then init else init + [|targets| - 1]
  }

  /** The kept indices are valid positions, strictly increasing. */
  lemma {:induction false} KeptIndicesIncreasing(c: Context, targets: seq<(string, real)>)
    ensures forall j :: 0 <= j < |KeptIndices(c, targets)| ==> KeptIndices(c, targets)[j] < |targets|
    ensures forall j, k :: 0 <= j < k < |KeptIndices(c, targets)| ==>
      KeptIndices(c, targets)[j] < KeptIndices(c, targets)[k]
  {
    if |targets| > 0 {
      var front := targets[..|targets| - 1];
      KeptIndicesIncreasing(c, front);
      var idx0 := KeptIndices(c, front);
      var idx := KeptIndices(c, targets);
      assert idx == idx0 || idx == idx0 + [|targets| - 1];
      assert forall j :: 0 <= j < |idx0| ==> idx0[j] < |front|;
    }
  }

  /** Dropping the last target leaves the rows of the others as they were. */
  lemma AssessAtFront(c: Context, targets: seq<(string, real)>, i: nat)
    requires i < |targets| - 1
    ensures AssessAt(c, targets[..|targets| - 1], i) == AssessAt(c, targets, i)
  {
  }

  /**
   * Position j of the output holds the row of target idx[j], so the output is as long as idx
   * and no longer than the targets.
   */
  lemma {:induction false} KeptIndicesSound(c: Context, targets: seq<(string, real)>)
    ensures |KeptIndices(c, targets)| == |Suggest(c, targets)| <= |targets|
    ensures forall j :: 0 <= j < |KeptIndices(c, targets)| ==>
      && KeptIndices(c, targets)[j] < |targets|
      && AssessAt(c, targets, KeptIndices(c, targets)[j]) == Some(Suggest(c, targets)[j])
  {
    KeptIndicesIncreasing(c, targets);
    if |targets| > 0 {
      var front := targets[..|targets| - 1];
      KeptIndicesSound(c, front);
      KeptIndicesIncreasing(c, front);
      var idx0 := KeptIndices(c, front);
      forall j | 0 <= j < |idx0|
        ensures AssessAt(c, front, idx0[j]) == AssessAt(c, targets, idx0[j])
      {
        AssessAtFront(c, targets, idx0[j]);
      }
    }
  }

  /** Every target left out of idx has a WAIT row. */
  lemma {:induction false} KeptIndicesComplete(c: Context, targets: seq<(string, real)>)
    ensures forall i :: 0 <= i < |targets| && i !in KeptIndices(c, targets) ==>
      AssessAt(c, targets, i).None?
  {
    if |targets| > 0 {
      var front := targets[..|targets| - 1];
      KeptIndicesComplete(c, front);
      forall i | 0 <= i < |front|
        ensures AssessAt(c, front, i) == AssessAt(c, targets, i)
      {
        AssessAtFront(c, targets, i);
      }
    }
  }

  /** Every suggestion is well formed: not WAIT, a non-negative amount, drift = current - target. */
  lemma {:induction false} SuggestionsWellFormed(c: Context, targets: seq<(string, real)>)
    ensures forall s :: s in Suggest(c, targets) ==>
      && s.action != Wait && s.amountUsd >= 0.0 && s.drift == s.currentPct - s.targetPct
      && s.action == Decide(s.drift, c.threshold, s.fxStatus)
      && s.assetClass in TargetKeys(targets)
  {
    if |targets| > 0 {
      var front := targets[..|targets| - 1];
      SuggestionsWellFormed(c, front);
      assert TargetKeys(front) <= TargetKeys(targets) by {
        assert forall i :: 0 <= i < |front| ==> front[i] == targets[i];
      }
    }
  }

  /** An asset holding 40% against a 30% target, threshold 5, no FX view: SELL 100 of 1000. */
  lemma OverweightSellExample()
    ensures Assess(Context(1000.0, map["USD" := 40.0], 5.0, map[], map[]), "USD", 30.0)
      == Some(Suggestion("USD", 40.0, 30.0, 10.0, NotApplicable, Sell, 100.0))
  {
  }

  /** calculate_strategic_rebalancing's first loop: the sum of the untargeted shares. */
  method SumUntargeted(currentDist: map<string, real>, targetKeys: set<string>)
    returns (actualOther: real)
    ensures actualOther == SetSum(currentDist, currentDist.Keys - targetKeys)
  {
    actualOther := 0.0;
    var remaining := currentDist.Keys;
    while remaining != {}
      invariant remaining <= currentDist.Keys
      invariant actualOther + SetSum(currentDist, remaining - targetKeys)
             == SetSum(currentDist, currentDist.Keys - targetKeys)
      decreases remaining
    {
      var k :| k in remaining;
      if k !in targetKeys {
        SumRemove(currentDist, remaining - targetKeys, k);
        assert (remaining - targetKeys) - {k} == (remaining - {k}) - targetKeys;
        actualOther := actualOther + currentDist[k];
      } else {
        assert remaining - targetKeys == (remaining - {k}) - targetKeys;
      }
      remaining := remaining - {k};
    }
    assert remaining - targetKeys == {};
  }

  /** Every suggestion of a rebalancing is a non-WAIT row with a non-negative amount, one per target at most. */
  lemma RebalancingWellFormed(total: real, dist: map<string, real>, targets: seq<(string, real)>,
                              threshold: real, currentRates: map<string, real>,
                              fxRefs: map<string, real>)
    ensures var r := Rebalancing(total, dist, targets, threshold, currentRates, fxRefs);
      && |r| <= |targets|
      && (total == 0.0 ==> r == [])
      && (forall s :: s in r ==> s.action != Wait && s.amountUsd >= 0.0)
  {
    var c := Context(total, MappedCurrent(dist, targets), threshold, currentRates, fxRefs);
    KeptIndicesSound(c, targets);
    SuggestionsWellFormed(c, targets);
  }

  /** calculate_strategic_rebalancing's second loop: one row per target, WAIT rows dropped. */
  method SuggestTargets(c: Context, targets: seq<(string, real)>)
    returns (suggestions: seq<Suggestion>)
    ensures suggestions == Suggest(c, targets)
  {
    suggestions := [];
    var i := 0;
    while i < |targets|
      invariant 0 <= i <= |targets|
      invariant suggestions == Suggest(c, targets[..i])
    {
      var (asset, targetPct) := targets[i];
      var currentPct := Get(c.mapped, asset, 0.0);
      var drift := currentPct - targetPct;
      var adjustmentUsd := AdjustmentUsd(c.total, drift);
      var fxStatus := EvaluateFxStatus(asset, Get(c.currentRates, asset, 0.0), c.fxRefs,
                                       DefaultBand);
      var action := Decide(drift, c.threshold, fxStatus);
      SuggestStep(c, targets, i);
      if action != Wait {
        var row := Suggestion(asset, currentPct, targetPct, drift, fxStatus, action, adjustmentUsd);
        suggestions := suggestions + [row];
      }
      i := i + 1;
    }
    assert targets[..i] == targets;
  }

  /**
   * calculate_strategic_rebalancing: nothing for a zero total; otherwise fold the untargeted
   * currencies into OTHER, then walk the targets in order and keep every row whose action is
   * not WAIT.
   */
  method CalculateStrategicRebalancing(totalAssets: real, currentDist: map<string, real>,
                                       targets: seq<(string, real)>, threshold: real,
                                       currentRates: map<string, real>,
                                       fxRefs: map<string, real>)
    returns (suggestions: seq<Suggestion>)
    ensures suggestions == Rebalancing(totalAssets, currentDist, targets, threshold,
                                       currentRates, fxRefs)
  {
    if totalAssets == 0.0 {
      return [];
    }
    var targetKeys := TargetKeys(targets);
    var mappedCurrent := currentDist;
    var actualOther := SumUntargeted(currentDist, targetKeys);
    if "OTHER" in targetKeys {
      mappedCurrent := mappedCurrent["OTHER" := Get(mappedCurrent, "OTHER", 0.0) + actualOther];
    }
    assert mappedCurrent == MappedCurrent(currentDist, targets);
    suggestions := SuggestTargets(Context(totalAssets, mappedCurrent, threshold, currentRates,
                                          fxRefs), targets);
  }
}
