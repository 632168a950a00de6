/**
 * onchain_analyzer.py: interpret_onchain_data, which places the fear-and-greed index, the
 * MVRV Z-score, NUPL and the exchange net flow into threshold bands, collects one analysis
 * line per reading and derives the verdict from the fear-and-greed band alone.
 */
module OnchainAnalyzer {
  import opened Wrappers

  /** The readings interpret_onchain_data looks up; an absent key reads as None. */
  datatype Reading = Reading(fngValue: Option<int>, fngClass: Option<string>,
                             mvrv: Option<real>, nupl: Option<real>, flow: Option<real>)

  /** The answer for empty (falsy) data. */
  const NoDataMessage: string := "无法获取链上数据, 请检查数据源"

  /** The fear-and-greed bands. */
  datatype FngMood = ExtremeFear | Fear | Neutral | ExtremeGreed
  {
    function Rank(): int
    {
      match this
      case ExtremeFear => 0
      case Fear => 1
      case Neutral => 2
      case ExtremeGreed => 3
    }
  }

  /** The verdicts; the first is the one left standing without a fear-and-greed value. */
  datatype Verdict = Insufficient | BuyInBatches | Accumulate | StopBuying | HoldAndSpaceOut
  {
    function Text(): string
    {
      match this
      case Insufficient => "观望/持有 (数据不足)"
      case BuyInBatches => "分批买入"
      case Accumulate => "定投积累"
      case StopBuying => "停止买入"
      case HoldAndSpaceOut => "持有 长时间间隔买入"
    }
  }

  /** The MVRV Z-score zones. */
  datatype MvrvZone = DeepBear | AccumulationZone | Overvalued
  {
    function Rank(): int
    {
      match this
      case DeepBear => 0
      case AccumulationZone => 1
      case Overvalued => 2
    }
  }

  /** The NUPL phases. */
  datatype NuplPhase = Capitulation | FearHope | InProfit
  {
    function Rank(): int
    {
      match this
      case Capitulation => 0
      case FearHope => 1
      case InProfit => 2
    }
  }

  /** The exchange net-flow readings. */
  datatype FlowTrend = Outflow | Stable | Inflow
  {
    function Rank(): int
    {
      match this
      case Outflow => 0
      case Stable => 1
      case Inflow => 2
    }
  }

  /** The lines of analysis_text, without their text formatting. */
  datatype Line =
    | FngLine(value: int, fngClass: Option<string>, mood: FngMood)
    | MvrvMissing
    | MvrvLine(mvrv: real, zone: MvrvZone)
    | NuplMissing
    | NuplLine(nupl: real, phase: NuplPhase)
    | FlowMissing
    | FlowLine(flow: real, trend: FlowTrend)

  /** The report: the fixed no-data answer, or the header values, the lines and the verdict. */
  datatype Report =
    | NoData
    | Analysis(fngValue: Option<int>, fngClass: Option<string>, lines: seq<Line>,
               verdict: Verdict)
  {
    /** The returned string where it is fixed: the no-data answer; an analysis is formatted. */
    function FixedText(): Option<string>
    {
      if NoData? then Some(NoDataMessage) else None
    }
  }

  /** Fear and greed: below 20, below 40, above 75, otherwise neutral. */
  function MoodOf(v: int): (m: FngMood)
    ensures m == ExtremeFear <==> v < 20
    ensures m == Fear <==> 20 <= v < 40
    ensures m == Neutral <==> 40 <= v <= 75
    ensures m == ExtremeGreed <==> v > 75
  {
    if v < 20 then ExtremeFear
    else if v < 40 then Fear
    else if v > 75 then ExtremeGreed
    else Neutral
  }

  /** The verdict each fear-and-greed band sets. */
  function VerdictOf(m: FngMood): Verdict
  {
    match m
    case ExtremeFear => BuyInBatches
    case Fear => Accumulate
    case ExtremeGreed => StopBuying
    case Neutral => HoldAndSpaceOut
  }

  /** MVRV Z-score: below 0, below 1, otherwise overvalued. */
  function ZoneOf(mvrv: real): (z: MvrvZone)
    ensures z == DeepBear <==> mvrv < 0.0
    ensures z == AccumulationZone <==> 0.0 <= mvrv < 1.0
    ensures z == Overvalued <==> mvrv >= 1.0
  {
    if mvrv < 0.0 then DeepBear else if mvrv < 1.0 then AccumulationZone else Overvalued
  }

  /** NUPL: below 0, below 0.25, otherwise in profit. */
  function PhaseOf(nupl: real): (p: NuplPhase)
    ensures p == Capitulation <==> nupl < 0.0
    ensures p == FearHope <==> 0.0 <= nupl < 0.25
    ensures p == InProfit <==> nupl >= 0.25
  {
    if nupl < 0.0 then Capitulation else if nupl < 0.25 then FearHope else InProfit
  }

  /** Exchange net flow: below -1000 out, above 1000 in, otherwise stable. */
  function TrendOf(flow: real): (t: FlowTrend)
    ensures t == Outflow <==> flow < -1000.0
    ensures t == Inflow <==> flow > 1000.0
    ensures t == Stable <==> -1000.0 <= flow <= 1000.0
  {
    if flow < -1000.0 then Outflow else if flow > 1000.0 then Inflow else Stable
  }

  /** A higher reading never lands in a lower band, for each of the four classifiers. */
  lemma BandsMonotone(a: real, b: real, i: int, j: int)
    requires a <= b && i <= j
    ensures MoodOf(i).Rank() <= MoodOf(j).Rank()
    ensures ZoneOf(a).Rank() <= ZoneOf(b).Rank()
    ensures PhaseOf(a).Rank() <= PhaseOf(b).Rank()
    ensures TrendOf(a).Rank() <= TrendOf(b).Rank()
  {
  }

  function MvrvLineOf(mvrv: Option<real>): Line
  {
    match mvrv
    case None => MvrvMissing
    case Some(v) => MvrvLine(v, ZoneOf(v))
  }

  function NuplLineOf(nupl: Option<real>): Line
  {
    match nupl
    case None => NuplMissing
    case Some(v) => NuplLine(v, PhaseOf(v))
  }

  function FlowLineOf(flow: Option<real>): Line
  {
    match flow
    case None => FlowMissing
    case Some(v) => FlowLine(v, TrendOf(v))
  }

  /** The fear-and-greed line, present only with a value. */
  function FngLines(r: Reading): seq<Line>
  {
    if r.fngValue.Some? then [FngLine(r.fngValue.value, r.fngClass, MoodOf(r.fngValue.value))]
    else []
  }

  /** The verdict: the fear-and-greed band's, or "insufficient data" without a value. */
  function VerdictFor(r: Reading): Verdict
  {
    if r.fngValue.Some? then VerdictOf(MoodOf(r.fngValue.value)) else Insufficient
  }

  /** interpret_onchain_data as a function of its input. */
  function Interpretation(data: Option<Reading>): Report
  {
    match data
    case None => NoData
    case Some(r) =>
      Analysis(r.fngValue, r.fngClass,
               FngLines(r) + [MvrvLineOf(r.mvrv), NuplLineOf(r.nupl), FlowLineOf(r.flow)],
               VerdictFor(r))
  }

  /**
   * The shape of every analysis: three lines, plus a leading fear-and-greed line exactly when
   * that value is present; the verdict stays "insufficient data" exactly when it is absent;
   * and the last three lines are MVRV, NUPL and flow, each "missing" exactly when absent.
   */
  lemma InterpretationShape(r: Reading)
    ensures var rep := Interpretation(Some(r));
      && rep.Analysis?
      && |rep.lines| == (if r.fngValue.Some? then 4 else 3)
      && (rep.verdict == Insufficient <==> r.fngValue.None?)
      && (r.fngValue.Some? <==> rep.lines[0].FngLine?)
      && (rep.lines[|rep.lines| - 3] == MvrvMissing <==> r.mvrv.None?)
      && (rep.lines[|rep.lines| - 2] == NuplMissing <==> r.nupl.None?)
      && (rep.lines[|rep.lines| - 1] == FlowMissing <==> r.flow.None?)
  {
  }

  /**
   * The verdict follows the fear-and-greed band alone: "insufficient data" without a value,
   * otherwise the band's verdict, whatever MVRV, NUPL and flow say.
   */
  lemma VerdictBands(r: Reading)
    ensures var v := Interpretation(Some(r)).verdict;
      && (r.fngValue.None? ==> v == Insufficient)
      && (r.fngValue.Some? ==>
            && v != Insufficient
            && (v == BuyInBatches <==> r.fngValue.value < 20)
            && (v == Accumulate <==> 20 <= r.fngValue.value < 40)
            && (v == HoldAndSpaceOut <==> 40 <= r.fngValue.value <= 75)
            && (v == StopBuying <==> r.fngValue.value > 75))
    ensures Interpretation(Some(r)).verdict
      == Interpretation(Some(r.(mvrv := None, nupl := None, flow := None))).verdict
  {
  }

  /** Extreme fear with deep-bear MVRV: buy in batches; the MVRV line does not sway the verdict. */
  lemma ExtremeFearExample()
    ensures Interpretation(Some(Reading(Some(10), Some("Extreme Fear"), Some(-0.5), None, None)))
      == Analysis(Some(10), Some("Extreme Fear"),
                  [FngLine(10, Some("Extreme Fear"), ExtremeFear), MvrvLine(-0.5, DeepBear),
                   NuplMissing, FlowMissing], BuyInBatches)
  {
  }

  /**
   * interpret_onchain_data: the no-data answer for falsy data; otherwise the verdict is
   * reassigned by the fear-and-greed branch and one line is appended per reading.
   */
  method InterpretOnchainData(data: Option<Reading>) returns (report: Report)
    ensures report == Interpretation(data)
    ensures data.None? <==> report == NoData
    ensures data.None? <==> report.FixedText() == Some(NoDataMessage)
  {
    if data.None? {
      return NoData;
    }
    var r := data.value;
    var analysisText: seq<Line> := [];
    var verdictAction := Insufficient;

    if r.fngValue.Some? {
      var fngVal := r.fngValue.value;
      var mood;
      if fngVal < 20 {
        mood := ExtremeFear;
        verdictAction := BuyInBatches;
      } else if fngVal < 40 {
        mood := Fear;
        verdictAction := Accumulate;
      } else if fngVal > 75 {
        mood := ExtremeGreed;
        verdictAction := StopBuying;
      } else {
        mood := Neutral;
        verdictAction := HoldAndSpaceOut;
      }
      analysisText := analysisText + [FngLine(fngVal, r.fngClass, mood)];
    }
    assert analysisText == FngLines(r) && verdictAction == VerdictFor(r);

    var mvrvLine;
    if r.mvrv.None? {
      mvrvLine := MvrvMissing;
    } else if r.mvrv.value < 0.0 {
      mvrvLine := MvrvLine(r.mvrv.value, DeepBear);
    } else if r.mvrv.value < 1.0 {
      mvrvLine := MvrvLine(r.mvrv.value, AccumulationZone);
    } else {
      mvrvLine := MvrvLine(r.mvrv.value, Overvalued);
    }
    assert mvrvLine == MvrvLineOf(r.mvrv);
    analysisText := analysisText + [mvrvLine];
    assert analysisText == FngLines(r) + [mvrvLine];

    var nuplLine;
    if r.nupl.None? {
      nuplLine := NuplMissing;
    } else if r.nupl.value < 0.0 {
      nuplLine := NuplLine(r.nupl.value, Capitulation);
    } else if r.nupl.value < 0.25 {
      nuplLine := NuplLine(r.nupl.value, FearHope);
    } else {
      nuplLine := NuplLine(r.nupl.value, InProfit);
    }
    assert nuplLine == NuplLineOf(r.nupl);
    assert analysisText + [nuplLine] == FngLines(r) + [mvrvLine, nuplLine];
    analysisText := analysisText + [nuplLine];

    var flowLine;
    if r.flow.None? {
      flowLine := FlowMissing;
    } else if r.flow.value < -1000.0 {
      flowLine := FlowLine(r.flow.value, Outflow);
    } else if r.flow.value > 1000.0 {
      flowLine := FlowLine(r.flow.value, Inflow);
    } else {
      flowLine := FlowLine(r.flow.value, Stable);
    }
    assert flowLine == FlowLineOf(r.flow);
    assert analysisText + [flowLine] == FngLines(r) + [mvrvLine, nuplLine, flowLine];
    analysisText := analysisText + [flowLine];

    report := Analysis(r.fngValue, r.fngClass, analysisText, verdictAction);
  }
}
