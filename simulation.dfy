/**
 * main.py: the action loop of simulate_investment, which applies ADJUST and TRANSFER actions
 * to a copy of the latest snapshot, and the strategy-message assembly of the snapshot route.
 */
module Simulation {
  import opened Wrappers
  import Utils
  import AllocationEngine

  /** ActionType: the two kinds of simulated action. */
  datatype ActionType = Adjust | Transfer

  /** One simulated action; `toField` is only read by TRANSFER. */
  datatype SimAction = SimAction(kind: ActionType, fromField: string, toField: Option<string>,
                                 amount: real)

  /** The entries of simulation_logs, without their text formatting. */
  datatype LogEntry =
    | Adjusted(name: string, amount: real)
    | Transferred(srcName: string, amount: real, dstName: string, amountDst: real)

  /** The exceptions an action can raise, aborting the whole simulation. */
  datatype SimError =
    | UnknownSource        // getattr on a missing source attribute
    | ZeroDestinationScale // Decimal division by a zero destination unit scale
    | UnknownDestination   // getattr on a missing destination attribute

  /**
   * The snapshot's numeric attributes, by name; `None` is an attribute holding None, which
   * every read treats as 0.
   */
  type Fields = map<string, Option<real>>

  /** The simulated snapshot and the log so far. */
  datatype SimState = SimState(fields: Fields, logs: seq<LogEntry>)

  /** `getattr(snapshot, field) or Decimal('0')`. */
  function Balance(fields: Fields, field: string): real
    requires field in fields
  {
    fields[field].GetOr(0.0)
  }

  /** TRANSFER is skipped when `to_field` is None or the empty string. */
  predicate HasDestination(a: SimAction)
  {
    a.toField.Some? && a.toField.value != ""
  }

  /** The fields after TRANSFER's unconditional debit of `|amount|` from the source. */
  function Debit(fields: Fields, a: SimAction): (f: Fields)
    requires a.fromField in fields
    ensures f.Keys == fields.Keys
    ensures f[a.fromField] == Some(Balance(fields, a.fromField) - AllocationEngine.Abs(a.amount))
    ensures forall k :: k in fields && k != a.fromField ==> f[k] == fields[k]
  {
    fields[a.fromField := Some(Balance(fields, a.fromField) - AllocationEngine.Abs(a.amount))]
  }

  /** The destination's rate, the condition under which TRANSFER credits anything. */
  function DestinationRate(config: Utils.AssetConfig, rates: map<string, real>, a: SimAction): real
    requires HasDestination(a)
  {
    AllocationEngine.Get(rates, Utils.CurrencyCode(config, a.toField.value), 0.0)
  }

  /**
   * The credited amount: the debited amount in USD at the source's rate and scale, then in
   * destination units at the destination's rate and scale.
   */
  function AmountDst(config: Utils.AssetConfig, rates: map<string, real>, a: SimAction): real
    requires HasDestination(a) && Utils.UnitScale(config, a.toField.value) != 0.0
  {
    var infoSrc := Utils.AssetInfoOf(config, a.fromField);
    var infoDst := Utils.AssetInfoOf(config, a.toField.value);
    var rateSrc := AllocationEngine.Get(rates, infoSrc.currency, 0.0);
    var valueInUsd := Utils.UsdValue(AllocationEngine.Abs(a.amount), infoSrc.unitScale, rateSrc);
    valueInUsd * DestinationRate(config, rates, a) / infoDst.unitScale
  }

  /** The error a TRANSFER with a destination raises, if any. */
  function TransferError(config: Utils.AssetConfig, rates: map<string, real>, fields: Fields,
                         a: SimAction): Option<SimError>
    requires HasDestination(a)
  {
    if a.fromField !in fields then Some(UnknownSource)
    else if DestinationRate(config, rates, a) > 0.0 then
      if Utils.UnitScale(config, a.toField.value) == 0.0 then Some(ZeroDestinationScale)
      else if a.toField.value !in fields then Some(UnknownDestination)
      else None
    else None
  }

  /**
   * One iteration of the action loop. ADJUST on an existing field sets it to
   * `max(0, old + amount)` and logs; on a missing field it changes nothing. TRANSFER without
   * a destination is skipped; otherwise the source is debited by `|amount|` and, only when
   * the destination's rate is positive, the destination is credited and the move logged.
   */
  function Step(config: Utils.AssetConfig, rates: map<string, real>, st: SimState, a: SimAction)
    : (r: Result<SimState, SimError>)
    ensures r.Err? <==> a.kind == Transfer && HasDestination(a)
                        && TransferError(config, rates, st.fields, a).Some?
    ensures r.Ok? ==> r.value.fields.Keys == st.fields.Keys
    ensures r.Ok? ==> forall k :: k in st.fields && k != a.fromField
                        && (a.kind == Adjust || !HasDestination(a) || k != a.toField.value)
                        ==> r.value.fields[k] == st.fields[k]
    ensures r.Ok? ==> |st.logs| <= |r.value.logs| <= |st.logs| + 1
                      && r.value.logs[..|st.logs|] == st.logs
  {
    match a.kind
    case Adjust =>
      if a.fromField in st.fields then
        var newVal := Balance(st.fields, a.fromField) + a.amount;
        var clamped := if newVal < 0.0 then 0.0 else newVal;
        var name := Utils.AssetInfoOf(config, a.fromField).name;
        Ok(SimState(st.fields[a.fromField := Some(clamped)], st.logs + [Adjusted(name, a.amount)]))
      else Ok(st)
    case Transfer =>
      if !HasDestination(a) then Ok(st)
      else if TransferError(config, rates, st.fields, a).Some? then
        Err(TransferError(config, rates, st.fields, a).value)
      else
        var debited := Debit(st.fields, a);
        if DestinationRate(config, rates, a) > 0.0 then
          var dst := a.toField.value;
          var amountDst := AmountDst(config, rates, a);
          var entry := Transferred(Utils.AssetInfoOf(config, a.fromField).name,
                                   AllocationEngine.Abs(a.amount),
                                   Utils.AssetInfoOf(config, dst).name, amountDst);
          Ok(SimState(debited[dst := Some(Balance(debited, dst) + amountDst)], st.logs + [entry]))
        else Ok(SimState(debited, st.logs))
  }

  /** The whole loop: the actions in order, stopping at the first exception. */
  function Run(config: Utils.AssetConfig, rates: map<string, real>, st: SimState,
               actions: seq<SimAction>): Result<SimState, SimError>
  {
    if |actions| == 0 then Ok(st)
    else
      match Run(config, rates, st, actions[..|actions| - 1])
      case Err(e) => Err(e)
      case Ok(s) => Step(config, rates, s, actions[|actions| - 1])
  }

  /**
   * ADJUST on an existing field sets it to max(0, old + amount), a missing old value being 0,
   * and logs the field's name with the signed amount.
   */
  lemma AdjustClamps(config: Utils.AssetConfig, rates: map<string, real>, st: SimState,
                     a: SimAction)
    requires a.kind == Adjust && a.fromField in st.fields
    ensures var r := Step(config, rates, st, a);
      && r.Ok?
      && r.value.fields[a.fromField].Some?
      && r.value.fields[a.fromField].value >= 0.0
      && r.value.fields[a.fromField].value >= Balance(st.fields, a.fromField) + a.amount
      && (Balance(st.fields, a.fromField) + a.amount >= 0.0 ==>
            r.value.fields[a.fromField].value == Balance(st.fields, a.fromField) + a.amount)
      && (st.fields[a.fromField].None? ==>
            r.value.fields[a.fromField].value == if a.amount < 0.0 then 0.0 else a.amount)
    ensures var r := Step(config, rates, st, a);
      var x := Balance(st.fields, a.fromField) + a.amount;
      && r.Ok?
      && r.value.fields[a.fromField] == Some(if x < 0.0 then 0.0 else x)
      && r.value.logs == st.logs + [Adjusted(Utils.AssetInfoOf(config, a.fromField).name, a.amount)]
  {
  }

  /** ADJUST on a field the snapshot lacks changes nothing, not even the log. */
  lemma AdjustMissingIsNoop(config: Utils.AssetConfig, rates: map<string, real>, st: SimState,
                            a: SimAction)
    requires a.kind == Adjust && a.fromField !in st.fields
    ensures Step(config, rates, st, a) == Ok(st)
  {
  }

  /** TRANSFER without a destination is skipped entirely, even for a missing source. */
  lemma TransferWithoutDestinationSkipped(config: Utils.AssetConfig, rates: map<string, real>,
                                          st: SimState, a: SimAction)
    requires a.kind == Transfer && !HasDestination(a)
    ensures Step(config, rates, st, a) == Ok(st)
  {
  }

  /**
   * TRANSFER between two distinct fields always debits the source by `|amount|`, with no
   * clamp, so the source may go negative; the destination is credited exactly when its rate
   * is positive, with one log entry naming both fields and both amounts, and left alone
   * (with nothing logged) otherwise.
   */
  lemma TransferMovesBalances(config: Utils.AssetConfig, rates: map<string, real>,
                              st: SimState, a: SimAction)
    requires a.kind == Transfer && HasDestination(a) && a.fromField != a.toField.value
    requires TransferError(config, rates, st.fields, a).None?
    ensures var r := Step(config, rates, st, a);
      var src := a.fromField;
      var dst := a.toField.value;
      && r.Ok?
      && r.value.fields[src] == Some(Balance(st.fields, src) - AllocationEngine.Abs(a.amount))
      && (DestinationRate(config, rates, a) > 0.0 ==>
            && r.value.fields[dst]
               == Some(Balance(st.fields, dst) + AmountDst(config, rates, a))
            && r.value.logs == st.logs + [Transferred(Utils.AssetInfoOf(config, src).name,
                                                      AllocationEngine.Abs(a.amount),
                                                      Utils.AssetInfoOf(config, dst).name,
                                                      AmountDst(config, rates, a))])
      && (DestinationRate(config, rates, a) <= 0.0 ==>
            (dst in st.fields ==> r.value.fields[dst] == st.fields[dst])
            && r.value.logs == st.logs)
  {
  }

  /**
   * Round trip: between two distinct fields of the same positive rate and the same nonzero
   * unit scale, the destination gains exactly what the source loses.
   */
  lemma {:induction false} TransferRoundTrip(config: Utils.AssetConfig, rates: map<string, real>,
                                             st: SimState, a: SimAction)
    requires a.kind == Transfer && HasDestination(a) && a.fromField != a.toField.value
    requires a.fromField in st.fields && a.toField.value in st.fields
    requires var rs := AllocationEngine.Get(rates, Utils.CurrencyCode(config, a.fromField), 0.0);
      && rs == DestinationRate(config, rates, a) && rs > 0.0
    requires Utils.UnitScale(config, a.fromField) == Utils.UnitScale(config, a.toField.value) != 0.0
    ensures var r := Step(config, rates, st, a);
      && r.Ok?
      && r.value.fields[a.toField.value]
         == Some(Balance(st.fields, a.toField.value) + AllocationEngine.Abs(a.amount))
      && r.value.fields[a.fromField]
         == Some(Balance(st.fields, a.fromField) - AllocationEngine.Abs(a.amount))
  {
    var rate := DestinationRate(config, rates, a);
    var scale := Utils.UnitScale(config, a.toField.value);
    Utils.UsdValueRoundTrip(AllocationEngine.Abs(a.amount), scale, rate);
    assert AmountDst(config, rates, a) == AllocationEngine.Abs(a.amount);
  }

  /**
   * Between distinct fields with positive rates and nonzero scales, the USD value credited
   * equals the USD value debited: a transfer moves value, it neither creates nor destroys it.
   */
  lemma {:induction false} TransferConservesUsd(config: Utils.AssetConfig,
                                                rates: map<string, real>, a: SimAction)
    requires a.kind == Transfer && HasDestination(a)
    requires DestinationRate(config, rates, a) > 0.0
    requires Utils.UnitScale(config, a.toField.value) != 0.0
    ensures var infoSrc := Utils.AssetInfoOf(config, a.fromField);
      Utils.UsdValue(AmountDst(config, rates, a), Utils.UnitScale(config, a.toField.value),
                     DestinationRate(config, rates, a))
      == Utils.UsdValue(AllocationEngine.Abs(a.amount), infoSrc.unitScale,
                        AllocationEngine.Get(rates, infoSrc.currency, 0.0))
  {
    var infoSrc := Utils.AssetInfoOf(config, a.fromField);
    var u := Utils.UsdValue(AllocationEngine.Abs(a.amount), infoSrc.unitScale,
                            AllocationEngine.Get(rates, infoSrc.currency, 0.0));
    var rd := DestinationRate(config, rates, a);
    var sd := Utils.UnitScale(config, a.toField.value);
    var v := Utils.UsdValue(u * rd / sd, sd, rd);
    assert v * rd == (u * rd / sd) * sd;
    assert (u * rd / sd) * sd == u * rd;
    assert v * rd == u * rd;
  }

  /**
   * A transfer of a field onto itself at a positive rate debits first and then credits the
   * debited balance, so with the same currency and scale the balance ends where it began.
   */
  lemma {:induction false} SelfTransferRestores(config: Utils.AssetConfig,
                                                rates: map<string, real>, st: SimState,
                                                a: SimAction)
    requires a.kind == Transfer && HasDestination(a) && a.fromField == a.toField.value
    requires a.fromField in st.fields
    requires DestinationRate(config, rates, a) > 0.0
    requires Utils.UnitScale(config, a.fromField) != 0.0
    ensures var r := Step(config, rates, st, a);
      r.Ok? && r.value.fields[a.fromField] == Some(Balance(st.fields, a.fromField))
  {
    var rate := DestinationRate(config, rates, a);
    var scale := Utils.UnitScale(config, a.fromField);
    Utils.UsdValueRoundTrip(AllocationEngine.Abs(a.amount), scale, rate);
    assert AmountDst(config, rates, a) == AllocationEngine.Abs(a.amount);
  }

  /** The fields some action names, as source or as destination. */
  function Touched(actions: seq<SimAction>): set<string>
  {
    if |actions| == 0 then {}
    else
      var a := actions[|actions| - 1];
      Touched(actions[..|actions| - 1]) + {a.fromField}
      + (if a.toField.Some? then {a.toField.value} else {})
  }

  /**
   * A run that succeeds keeps the snapshot's set of fields, leaves every field no action
   * names as it was, and only appends to the log.
   */
  lemma {:induction false} RunFrame(config: Utils.AssetConfig, rates: map<string, real>,
                                    st: SimState, actions: seq<SimAction>)
    ensures var r := Run(config, rates, st, actions);
      r.Ok? ==>
        && r.value.fields.Keys == st.fields.Keys
        && (forall k :: k in st.fields && k !in Touched(actions) ==> r.value.fields[k] == st.fields[k])
        && |st.logs| <= |r.value.logs| <= |st.logs| + |actions|
        && r.value.logs[..|st.logs|] == st.logs
  {
    if |actions| > 0 {
      var front := actions[..|actions| - 1];
      RunFrame(config, rates, st, front);
      var r0 := Run(config, rates, st, front);
      if r0.Ok? {
        var r := Step(config, rates, r0.value, actions[|actions| - 1]);
        if r.Ok? {
          assert r.value.logs[..|st.logs|] == r.value.logs[..|r0.value.logs|][..|st.logs|];
        }
      }
    }
  }

  /** An error in some prefix of the actions is the error of the whole run. */
  lemma {:induction false} RunStopsAtError(config: Utils.AssetConfig, rates: map<string, real>,
                                           st: SimState, actions: seq<SimAction>, n: nat)
    requires n <= |actions|
    requires Run(config, rates, st, actions[..n]).Err?
    ensures Run(config, rates, st, actions) == Run(config, rates, st, actions[..n])
    decreases |actions| - n
  {
    if n < |actions| {
      var front := actions[..|actions| - 1];
      assert front[..n] == actions[..n];
      RunStopsAtError(config, rates, st, front, n);
    } else {
      assert actions[..n] == actions;
    }
  }

  /**
   * The simulated snapshot of simulate_investment: its fields and the log are updated in
   * place by each action.
   */
  class Simulator {
    var fields: Fields
    var logs: seq<LogEntry>
    const config: Utils.AssetConfig
    const rates: map<string, real>

    function State(): SimState
      reads this
    {
      SimState(fields, logs)
    }

    /** The deep copy of the baseline snapshot, and an empty log. */
    constructor(snapshot: Fields, config: Utils.AssetConfig, rates: map<string, real>)
      ensures fields == snapshot && logs == []
      ensures this.config == config && this.rates == rates
    {
      fields := snapshot;
      logs := [];
      this.config := config;
      this.rates := rates;
    }

    /**
     * One action, as the loop body does it: the new state is Step's, and on an exception
     * the TRANSFER debit, made before the destination checks, has already happened.
     */
    method ApplyAction(a: SimAction) returns (err: Option<SimError>)
      modifies this
      ensures var r := Step(config, rates, old(State()), a);
        && (err.None? <==> r.Ok?)
        && (r.Ok? ==> State() == r.value)
        && (r.Err? ==> err == Some(r.error) && logs == old(logs))
        && (err == Some(UnknownSource) ==> fields == old(fields))
        && (err.Some? && err != Some(UnknownSource) ==>
              a.fromField in old(fields) && fields == Debit(old(fields), a))
    {
      match a.kind
      case Adjust =>
        if a.fromField in fields {
          var oldVal := Balance(fields, a.fromField);
          var newVal := oldVal + a.amount;
          if newVal < 0.0 {
            newVal := 0.0;
          }
          fields := fields[a.fromField := Some(newVal)];
          var name := Utils.AssetInfoOf(config, a.fromField).name;
          logs := logs + [Adjusted(name, a.amount)];
        }
        return None;
      case Transfer =>
        if !HasDestination(a) {
          return None;
        }
        var fieldSrc := a.fromField;
        var fieldDst := a.toField.value;
        var infoSrc := Utils.AssetInfoOf(config, fieldSrc);
        var infoDst := Utils.AssetInfoOf(config, fieldDst);
        if fieldSrc !in fields {
          return Some(UnknownSource);
        }
        var srcBalance := Balance(fields, fieldSrc);
        var transferAmount := AllocationEngine.Abs(a.amount);
        fields := fields[fieldSrc := Some(srcBalance - transferAmount)];
        assert fields == Debit(old(fields), a);

        var rateSrc := AllocationEngine.Get(rates, infoSrc.currency, 0.0);
        var rateDst := AllocationEngine.Get(rates, infoDst.currency, 0.0);
        var scaleSrc := infoSrc.unitScale;
        var scaleDst := infoDst.unitScale;
        if rateDst > 0.0 {
          var valueInUsd := Utils.UsdValue(transferAmount, scaleSrc, rateSrc);
          if scaleDst == 0.0 {
            return Some(ZeroDestinationScale);
          }
          var amountDst := valueInUsd * rateDst / scaleDst;
          assert rateDst == DestinationRate(config, rates, a);
          assert amountDst == AmountDst(config, rates, a);
          if fieldDst !in fields {
            return Some(UnknownDestination);
          }
          var dstBalance := Balance(fields, fieldDst);
          fields := fields[fieldDst := Some(dstBalance + amountDst)];
          logs := logs + [Transferred(infoSrc.name, transferAmount, infoDst.name, amountDst)];
        }
        return None;
    }

    /** The loop over request.actions: Run's result, or the first exception. */
    method ApplyActions(actions: seq<SimAction>) returns (err: Option<SimError>)
      modifies this
      ensures var r := Run(config, rates, old(State()), actions);
        && (err.None? <==> r.Ok?)
        && (r.Ok? ==> State() == r.value)
        && (r.Err? ==> err == Some(r.error))
    {
      ghost var start := State();
      var i := 0;
      while i < |actions|
        invariant 0 <= i <= |actions|
        invariant Run(config, rates, start, actions[..i]) == Ok(State())
      {
        assert actions[..i + 1][..i] == actions[..i];
        err := ApplyAction(actions[i]);
        if err.Some? {
          RunStopsAtError(config, rates, start, actions, i + 1);
          return;
        }
        i := i + 1;
      }
      assert actions[..i] == actions;
      return None;
    }
  }

  /** The two icons of a strategy line. */
  datatype Icon = Alarm | Idea

  /** One line of strategy_msg, without its text formatting and the suggestion's reason. */
  datatype StrategyLine =
    | Healthy
    | Advice(icon: Icon, assetClass: string, action: string, drift: real,
             fxStatus: AllocationEngine.FxStatus)

  /** `t` occurs in `s` at position `i`. */
  predicate OccursAt(s: string, t: string, i: int)
  {
    0 <= i && i + |t| <= |s| && s[i..i + |t|] == t
  }

  /** Python's `t in s` on strings: `t` occurs somewhere in `s`. */
  function Contains(s: string, t: string): (b: bool)
    ensures b ==> |t| <= |s|
    ensures b <==> exists i :: OccursAt(s, t, i)
    decreases |s|
  {
    if |t| > |s| then false
    else if s[..|t|] == t then
      assert OccursAt(s, t, 0);
      true
    else
      ShiftOccurrence(s, t);
      Contains(s[1..], t)
  }

  /** An occurrence not at the front of `s` is an occurrence in `s[1..]`, one position earlier. */
  lemma ShiftOccurrence(s: string, t: string)
    requires |t| <= |s| && s[..|t|] != t
    ensures (exists i :: OccursAt(s, t, i)) <==> (exists j :: OccursAt(s[1..], t, j))
  {
    forall i | OccursAt(s, t, i)
      ensures OccursAt(s[1..], t, i - 1)
    {
      assert i != 0;
      assert s[1..][i - 1..i - 1 + |t|] == s[i..i + |t|];
    }
    forall j | OccursAt(s[1..], t, j)
      ensures OccursAt(s, t, j + 1)
    {
      assert s[1..][j..j + |t|] == s[j + 1..j + 1 + |t|];
    }
  }

  /** STRONG SELL and STRONG BUY. */
  predicate IsStrong(a: AllocationEngine.Action)
  {
    a == AllocationEngine.StrongSell || a == AllocationEngine.StrongBuy
  }

  /** An action string contains "STRONG" exactly for STRONG SELL and STRONG BUY. */
  lemma StrongLabels(a: AllocationEngine.Action)
    ensures Contains(a.Label(), "STRONG") <==> IsStrong(a)
  {
    assert "STRONG SELL"[..6] == "STRONG";
    assert "STRONG BUY"[..6] == "STRONG";
  }

  /** The icon of a suggestion: the alarm exactly for the two STRONG actions. */
  function IconFor(a: AllocationEngine.Action): (i: Icon)
    ensures i == Alarm <==> IsStrong(a)
  {
    StrongLabels(a);
    if Contains(a.Label(), "STRONG") then Alarm else Idea
  }

  /**
   * strategy_msg: the single healthy line when there are no suggestions, otherwise one line
   * per suggestion in order, with the alarm icon exactly for the STRONG actions.
   */
  method StrategyMessages(suggestions: seq<AllocationEngine.Suggestion>)
    returns (msgs: seq<StrategyLine>)
    ensures |suggestions| == 0 ==> msgs == [Healthy]
    ensures |suggestions| > 0 ==> |msgs| == |suggestions|
    ensures |suggestions| > 0 ==> forall i :: 0 <= i < |msgs| ==>
      && msgs[i].Advice?
      && msgs[i].assetClass == suggestions[i].assetClass
      && msgs[i].action == suggestions[i].action.Label()
      && msgs[i].drift == suggestions[i].drift
      && msgs[i].fxStatus == suggestions[i].fxStatus
      && (msgs[i].icon == Alarm <==> IsStrong(suggestions[i].action))
  {
    msgs := [];
    if |suggestions| == 0 {
      msgs := msgs + [Healthy];
      return;
    }
    var j := 0;
    while j < |suggestions|
      invariant 0 <= j <= |suggestions|
      invariant |msgs| == j
      invariant forall i :: 0 <= i < j ==>
        msgs[i] == Advice(IconFor(suggestions[i].action), suggestions[i].assetClass,
                          suggestions[i].action.Label(), suggestions[i].drift,
                          suggestions[i].fxStatus)
    {
      var item := suggestions[j];
      var icon := if Contains(item.action.Label(), "STRONG") then Alarm else Idea;
      msgs := msgs + [Advice(icon, item.assetClass, item.action.Label(), item.drift, item.fxStatus)];
      j := j + 1;
    }
  }
}
