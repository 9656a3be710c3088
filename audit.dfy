/** The audit orchestrator (`audit_asset` in backend/main.py): validate the
    candles, compute the metrics, classify the latest row, score the
    requested strategy, size the risk, and assemble the UI report. The
    narrative collaborator is a function parameter. */
module Audit {
  import opened Wrappers
  import opened Series
  import opened Rounding
  import MarketData
  import Indicators
  import RegimeClassifier
  import Alignment
  import RiskEngine

  datatype AuditRequest = AuditRequest(
    symbol: string,
    timeframe: string,
    strategyType: string,
    accountBalance: real,
    riskPercentage: real)

  const DEFAULT_REQUEST: AuditRequest := AuditRequest("BTC/USDT", "4h", "TREND_FOLLOWING", 10000.0, 0.01)

  /** What the narrative collaborator is given. */
  datatype NarrativeInput = NarrativeInput(
    regime: RegimeClassifier.Regime,
    alignment: Alignment.AlignmentResult,
    metrics: Indicators.SnapshotMetrics,
    risk: RiskEngine.RiskAssessment,
    strategyName: string,
    assetPair: string)

  /** The collaborator's three texts. */
  datatype Narrative = Narrative(marketContext: string, alignmentVerdict: string, riskNote: string)

  datatype TrafficLight = TrafficLight(color: string, labelText: string)
  datatype RegimeCard = RegimeCard(title: string, value: string, subtext: string)
  /** The two risk metrics, carried as numbers; their text formatting is not modelled. */
  datatype RiskCard = RiskCard(title: string, stopWidth: real, maxUnits: real)
  datatype AiAnalysis = AiAnalysis(text: string, blockers: seq<string>)
  datatype UiComponents = UiComponents(
    trafficLight: TrafficLight, regimeCard: RegimeCard, riskCard: RiskCard, aiAnalysis: AiAnalysis)
  datatype DecisionReport = DecisionReport(asset: string, status: string, uiComponents: UiComponents)

  datatype AuditError =
    | MarketDataFailed(marketDataError: MarketData.MarketDataError)
    | IndicatorsFailed(indicatorError: Indicators.IndicatorError)

  /** The intermediate results the report is built from. */
  datatype Analysis = Analysis(
    latest: Indicators.LatestMetrics,
    atrMean50: real,
    regime: RegimeClassifier.Regime,
    alignment: Alignment.AlignmentResult,
    risk: RiskEngine.RiskAssessment)

  const ATR_MEAN_WINDOW: nat := 50
  const STATUS_COMPLETE: string := "COMPLETE"

  function AtrColumn(rows: seq<Indicators.MetricRow>): (atr: seq<real>)
    ensures |atr| == |rows| && forall k :: 0 <= k < |rows| ==> atr[k] == rows[k].atr
  {
    seq(|rows|, k requires 0 <= k < |rows| => rows[k].atr)
  }

  /** `ATR.rolling(50).mean().iloc[-1]`, or the latest ATR while that mean is undefined. */
  function AtrMean50(rows: seq<Indicators.MetricRow>, latestAtr: real): (m: real)
    ensures |rows| < ATR_MEAN_WINDOW ==> m == latestAtr
    ensures |rows| >= ATR_MEAN_WINDOW ==>
      m * ATR_MEAN_WINDOW as real == Sum(AtrColumn(rows)[|rows| - ATR_MEAN_WINDOW..])
  {
    if |rows| >= ATR_MEAN_WINDOW then Sum(AtrColumn(rows)[|rows| - ATR_MEAN_WINDOW..]) / ATR_MEAN_WINDOW as real
    else latestAtr
  }

  /** `color_map.get(score, "GREY")`. */
  function ColorFor(score: string): (color: string)
    ensures score == "HIGH" ==> color == "GREEN"
    ensures score == "MEDIUM" ==> color == "YELLOW"
    ensures score == "LOW" ==> color == "RED"
    ensures score !in {"HIGH", "MEDIUM", "LOW"} ==> color == "GREY"
  {
    var colorMap := map["HIGH" := "GREEN", "MEDIUM" := "YELLOW", "LOW" := "RED"];
    if score in colorMap then colorMap[score] else "GREY"
  }

  /** The classifier reads the snapshot's three keys, all present. */
  function MetricsDictOf(m: Indicators.SnapshotMetrics): RegimeClassifier.MetricsDict {
    RegimeClassifier.MetricsDict(Some(m.bbwPercentile), Some(m.adx), Some(m.emaDelta))
  }

  /** The regime dictionary as `classify` returns it: the enum values as strings. */
  function RegimeDictOf(r: RegimeClassifier.Regime): Alignment.RegimeDict {
    Alignment.RegimeDict(Some(r.volatilityState.Value()), Some(r.trendState.Value()))
  }

  /** Metrics, latest snapshot, ATR mean, regime, alignment and risk. */
  function Analyze(req: AuditRequest, candles: seq<MarketData.Candle>, lib: Indicators.LibrarySeries)
    : (r: Result<Analysis, AuditError>)
    requires Indicators.Fits(lib, |candles|)
    ensures r.Failure? <==> |candles| < Indicators.MIN_ROWS
    ensures r.Success? ==>
      var a := r.value;
      var rows := Indicators.Metrics(candles, lib).value;
      && Indicators.GetLatestMetrics(rows) == Success(a.latest)
      && a.atrMean50 == AtrMean50(rows, a.latest.metrics.atr)
      && a.regime == RegimeClassifier.Classify(MetricsDictOf(a.latest.metrics))
      && a.alignment == Alignment.AlignmentSpec(req.strategyType, RegimeDictOf(a.regime))
      && a.risk == RiskEngine.Calculate(a.latest.close, a.latest.metrics.atr, a.atrMean50,
                                        req.accountBalance, req.riskPercentage)
  {
    match Indicators.Metrics(candles, lib)
    case Failure(e) => Failure(IndicatorsFailed(e))
    case Success(rows) =>
      // `calculate_metrics` returned at least 14 rows, so `iloc[-1]` finds one.
      var latest := Indicators.GetLatestMetrics(rows).value;
      var atrMean50 := AtrMean50(rows, latest.metrics.atr);
      var regime := RegimeClassifier.Classify(MetricsDictOf(latest.metrics));
      var alignment := Alignment.AlignmentSpec(req.strategyType, RegimeDictOf(regime));
      var risk := RiskEngine.Calculate(latest.close, latest.metrics.atr, atrMean50,
                                       req.accountBalance, req.riskPercentage);
      Success(Analysis(latest, atrMean50, regime, alignment, risk))
  }

  /** The UI decision report built from the analysis and the narrative. */
  function BuildReport(req: AuditRequest, a: Analysis, narrative: Narrative): (report: DecisionReport)
    ensures report.asset == req.symbol && report.status == STATUS_COMPLETE
    ensures report.uiComponents.trafficLight ==
      TrafficLight(ColorFor(a.alignment.alignmentScore.Value()), a.alignment.alignmentScore.Value() + " Alignment")
    ensures report.uiComponents.regimeCard.value ==
      a.regime.trendState.Value() + " / " + a.regime.volatilityState.Value()
    ensures report.uiComponents.riskCard.stopWidth == a.risk.stopLossGuardrails.minStopWidthPrice
    ensures report.uiComponents.riskCard.maxUnits == a.risk.positionSizing.recommendedUnits
    ensures report.uiComponents.regimeCard.title == "Market Context"
    ensures report.uiComponents.regimeCard.subtext == narrative.marketContext
    ensures report.uiComponents.riskCard.title == "Safety Guardrails"
    ensures report.uiComponents.aiAnalysis.text == narrative.alignmentVerdict + " " + narrative.riskNote
    ensures report.uiComponents.aiAnalysis.blockers == a.alignment.blockers
  {
    var score := a.alignment.alignmentScore.Value();
    DecisionReport(
      req.symbol,
      STATUS_COMPLETE,
      UiComponents(
        TrafficLight(ColorFor(score), score + " Alignment"),
        RegimeCard("Market Context", a.regime.trendState.Value() + " / " + a.regime.volatilityState.Value(),
                   narrative.marketContext),
        RiskCard("Safety Guardrails", a.risk.stopLossGuardrails.minStopWidthPrice,
                 a.risk.positionSizing.recommendedUnits),
        AiAnalysis(narrative.alignmentVerdict + " " + narrative.riskNote, a.alignment.blockers)))
  }

  function NarrativeInputOf(req: AuditRequest, a: Analysis): NarrativeInput {
    NarrativeInput(a.regime, a.alignment, a.latest.metrics, a.risk, req.strategyType, req.symbol)
  }

  /** The reference definition of `audit_asset`, given what the exchange and
      the indicator library returned. */
  function Audit(req: AuditRequest, ohlcv: seq<MarketData.Candle>, lib: Indicators.LibrarySeries,
                 explain: NarrativeInput -> Narrative): (r: Result<DecisionReport, AuditError>)
    requires Indicators.Fits(lib, |ohlcv|)
    ensures var v := MarketData.ValidateCandles(req.symbol, req.timeframe, ohlcv);
      (r.Failure? <==> v.Failure?) && (v.Failure? ==> r.error == MarketDataFailed(v.error))
    ensures r.Success? ==> r.value.asset == req.symbol && r.value.status == STATUS_COMPLETE
  {
    match MarketData.ValidateCandles(req.symbol, req.timeframe, ohlcv)
    case Failure(e) => Failure(MarketDataFailed(e))
    case Success(fetched) =>
      match Analyze(req, fetched.candles, lib)
      case Failure(e) => Failure(e)
      case Success(a) => Success(BuildReport(req, a, explain(NarrativeInputOf(req, a))))
  }

  /** `audit_asset` as the source runs it, through the imperative metric
      normaliser and alignment scorer. */
  method AuditAsset(req: AuditRequest, ohlcv: seq<MarketData.Candle>, lib: Indicators.LibrarySeries,
                    explain: NarrativeInput -> Narrative) returns (r: Result<DecisionReport, AuditError>)
    requires Indicators.Fits(lib, |ohlcv|)
    ensures r == Audit(req, ohlcv, lib, explain)
  {
    var validated := MarketData.ValidateCandles(req.symbol, req.timeframe, ohlcv);
    if validated.Failure? {
      return Failure(MarketDataFailed(validated.error));
    }
    var df := validated.value.candles;
    var analyzed, _ := Indicators.CalculateMetrics(df, lib);
    var dfAnalyzed: seq<Indicators.MetricRow>;
    match analyzed {
      case Failure(e) => return Failure(IndicatorsFailed(e));
      case Success(rows) => dfAnalyzed := rows;
    }
    var latest := Indicators.GetLatestMetrics(dfAnalyzed).value;
    var atrMean50 := AtrMean50(dfAnalyzed, latest.metrics.atr);
    var regimeState := RegimeClassifier.Classify(MetricsDictOf(latest.metrics));
    var alignment := Alignment.Evaluate(req.strategyType, RegimeDictOf(regimeState));
    var riskCalc := RiskEngine.Calculate(latest.close, latest.metrics.atr, atrMean50,
                                         req.accountBalance, req.riskPercentage);
    var a := Analysis(latest, atrMean50, regimeState, alignment, riskCalc);
    var explanation := explain(NarrativeInputOf(req, a));
    r := Success(BuildReport(req, a, explanation));
  }

  // ---------------------------------------------------------------------
  // Properties of the pipeline.
  // ---------------------------------------------------------------------

  /** The request's default risk matches the engine's default, lies under the
      cap, and puts 1% of the default balance at risk. */
  lemma DefaultRequestRisk(close: real, atr: real, atrMean50: real)
    ensures DEFAULT_REQUEST.riskPercentage == RiskEngine.DEFAULT_RISK_PCT
    ensures var risk := RiskEngine.Calculate(close, atr, atrMean50,
                                             DEFAULT_REQUEST.accountBalance, DEFAULT_REQUEST.riskPercentage);
      && !risk.warnings.riskCapActive
      && risk.riskParameters.riskPercentageUsed == RiskEngine.DEFAULT_RISK_PCT
      && risk.riskParameters.riskAmountUsd == 100.0
  {
  }

  /** What the scorer guarantees about its score: HIGH exactly when nothing blocks, LOW otherwise. */
  predicate ScoreMatchesBlockers(r: Alignment.AlignmentResult) {
    && (r.blockers == [] <==> r.alignmentScore == Alignment.HIGH)
    && (r.blockers != [] <==> r.alignmentScore == Alignment.LOW)
  }

  /** A report built from an analysis whose score matches its blockers has a
      light that is GREEN exactly when nothing blocks and RED otherwise. */
  lemma BuiltLightFollowsBlockers(req: AuditRequest, a: Analysis, narrative: Narrative)
    requires ScoreMatchesBlockers(a.alignment)
    ensures var ui := BuildReport(req, a, narrative).uiComponents;
      && (ui.trafficLight.color == "GREEN" <==> ui.aiAnalysis.blockers == [])
      && (ui.trafficLight.color == "RED" <==> ui.aiAnalysis.blockers != [])
      && (ui.trafficLight.labelText == "HIGH Alignment" || ui.trafficLight.labelText == "LOW Alignment")
  {
  }

  /** A successful report: status COMPLETE, the requested (not remapped)
      symbol, the alignment's blockers, and a light that is GREEN exactly when
      nothing blocks and RED otherwise, so never YELLOW or GREY. */
  lemma ReportLightFollowsBlockers(req: AuditRequest, ohlcv: seq<MarketData.Candle>,
                                   lib: Indicators.LibrarySeries, explain: NarrativeInput -> Narrative)
    requires Indicators.Fits(lib, |ohlcv|)
    ensures var r := Audit(req, ohlcv, lib, explain);
      r.Success? ==>
        var ui := r.value.uiComponents;
        && r.value.status == "COMPLETE"
        && r.value.asset == req.symbol
        && (ui.trafficLight.color == "GREEN" <==> ui.aiAnalysis.blockers == [])
        && (ui.trafficLight.color == "RED" <==> ui.aiAnalysis.blockers != [])
        && (ui.trafficLight.labelText == "HIGH Alignment" || ui.trafficLight.labelText == "LOW Alignment")
  {
    var v := MarketData.ValidateCandles(req.symbol, req.timeframe, ohlcv);
    if v.Success? {
      var a := Analyze(req, v.value.candles, lib).value;
      Alignment.ScoreFollowsBlockers(req.strategyType, RegimeDictOf(a.regime));
      BuiltLightFollowsBlockers(req, a, explain(NarrativeInputOf(req, a)));
    }
  }

  /** The row the pipeline classifies: the final row of the accepted candles. */
  function LatestRow(ohlcv: seq<MarketData.Candle>, lib: Indicators.LibrarySeries): Indicators.MetricRow
    requires Indicators.Fits(lib, |ohlcv|) && |ohlcv| > 0
  {
    Indicators.Row(ohlcv, lib, |ohlcv| - 1)
  }

  function ScoreFor(strategyType: string, metrics: RegimeClassifier.MetricsDict): Alignment.Score {
    Alignment.AlignmentSpec(strategyType, RegimeDictOf(RegimeClassifier.Classify(metrics))).alignmentScore
  }

  /** Trend following scores HIGH exactly on a trend outside a squeeze. */
  lemma TrendFollowingScore(regime: RegimeClassifier.Regime)
    requires regime.volatilityState.IsVolatilityState() && regime.trendState.IsTrendState()
    ensures Alignment.AlignmentSpec("TREND_FOLLOWING", RegimeDictOf(regime)).alignmentScore == Alignment.HIGH
      <==> regime.volatilityState != RegimeClassifier.SQUEEZE
           && regime.trendState in {RegimeClassifier.BULL_TREND, RegimeClassifier.BEAR_TREND}
  {
    Alignment.UnfoldShort(Alignment.RuleOutcomes("TREND_FOLLOWING", RegimeDictOf(regime)));
  }

  /** Mean reversion scores HIGH exactly in a range. */
  lemma MeanReversionScore(regime: RegimeClassifier.Regime)
    requires regime.trendState.IsTrendState()
    ensures Alignment.AlignmentSpec("MEAN_REVERSION", RegimeDictOf(regime)).alignmentScore == Alignment.HIGH
      <==> regime.trendState == RegimeClassifier.RANGE
  {
    var d := RegimeDictOf(regime);
    var outcomes := Alignment.RuleOutcomes("MEAN_REVERSION", d);
    assert outcomes == [Alignment.MarketRanging(d.trend)];
    Alignment.UnfoldShort(outcomes);
    assert Alignment.AlignmentSpec("MEAN_REVERSION", d).blockers == Alignment.BlockerList(outcomes[0]);
    RegimeClassifier.ValueInjective(regime.trendState, RegimeClassifier.RANGE);
    assert d.trend == Some("RANGE") <==> regime.trendState == RegimeClassifier.RANGE;
  }

  /** A breakout scores HIGH exactly when volatility has not expanded. */
  lemma BreakoutScore(regime: RegimeClassifier.Regime)
    requires regime.volatilityState.IsVolatilityState()
    ensures Alignment.AlignmentSpec("BREAKOUT", RegimeDictOf(regime)).alignmentScore == Alignment.HIGH
      <==> regime.volatilityState != RegimeClassifier.EXPANSION
  {
    Alignment.UnfoldShort(Alignment.RuleOutcomes("BREAKOUT", RegimeDictOf(regime)));
  }

  /** How each known strategy scores on the classified metrics, in terms of the raw values. */
  lemma ScoresFromMetrics(adx: real, emaDelta: real, percentile: real)
    ensures var m := RegimeClassifier.MetricsDict(Some(percentile), Some(adx), Some(emaDelta));
      && (ScoreFor("TREND_FOLLOWING", m) == Alignment.HIGH <==> adx > 25.0 && emaDelta != 0.0 && percentile >= 0.20)
      && (ScoreFor("MEAN_REVERSION", m) == Alignment.HIGH <==> adx < 20.0)
      && (ScoreFor("BREAKOUT", m) == Alignment.HIGH <==> percentile <= 0.80)
  {
    var regime := RegimeClassifier.Classify(RegimeClassifier.MetricsDict(Some(percentile), Some(adx), Some(emaDelta)));
    TrendFollowingScore(regime);
    MeanReversionScore(regime);
    BreakoutScore(regime);
  }

  /** The light of a report, as the classified snapshot decides it. */
  lemma LightFromSnapshot(req: AuditRequest, a: Analysis, narrative: Narrative)
    requires a.regime == RegimeClassifier.Classify(MetricsDictOf(a.latest.metrics))
    requires a.alignment == Alignment.AlignmentSpec(req.strategyType, RegimeDictOf(a.regime))
    ensures var green := BuildReport(req, a, narrative).uiComponents.trafficLight.color == "GREEN";
      var m := a.latest.metrics;
      && (req.strategyType == "TREND_FOLLOWING" ==>
            (green <==> m.adx > 25.0 && m.emaDelta != 0.0 && m.bbwPercentile >= 0.20))
      && (req.strategyType == "MEAN_REVERSION" ==> (green <==> m.adx < 20.0))
      && (req.strategyType == "BREAKOUT" ==> (green <==> m.bbwPercentile <= 0.80))
      && (req.strategyType !in {"TREND_FOLLOWING", "MEAN_REVERSION", "BREAKOUT"} ==> green)
  {
    var m := a.latest.metrics;
    ScoresFromMetrics(m.adx, m.emaDelta, m.bbwPercentile);
    Alignment.ScoreFollowsBlockers(req.strategyType, RegimeDictOf(a.regime));
    BuiltLightFollowsBlockers(req, a, narrative);
    if req.strategyType !in {"TREND_FOLLOWING", "MEAN_REVERSION", "BREAKOUT"} {
      Alignment.UnknownStrategyScoresHigh(req.strategyType, RegimeDictOf(a.regime));
    }
  }

  /** The light as the latest row's unrounded metrics decide it, for each
      known strategy. The snapshot is rounded before it is classified, so
      the ADX must clear 25.005 (not 25) to trend and fall below 19.995 (not
      20) to range, and an EMA delta within 0.00005 of zero counts as zero. */
  lemma LightFromLatestRow(req: AuditRequest, ohlcv: seq<MarketData.Candle>,
                           lib: Indicators.LibrarySeries, explain: NarrativeInput -> Narrative)
    requires Indicators.Fits(lib, |ohlcv|)
    ensures var r := Audit(req, ohlcv, lib, explain);
      r.Success? ==>
        var green := r.value.uiComponents.trafficLight.color == "GREEN";
        var row := LatestRow(ohlcv, lib);
        && (req.strategyType == "TREND_FOLLOWING" ==>
              (green <==> row.adx > 25.005 && (row.emaDelta < -0.00005 || row.emaDelta > 0.00005)
                          && row.bbwPercentile >= 0.20))
        && (req.strategyType == "MEAN_REVERSION" ==> (green <==> row.adx < 19.995))
        && (req.strategyType == "BREAKOUT" ==> (green <==> row.bbwPercentile <= 0.80))
        && (req.strategyType !in {"TREND_FOLLOWING", "MEAN_REVERSION", "BREAKOUT"} ==> green)
  {
    if MarketData.ValidateCandles(req.symbol, req.timeframe, ohlcv).Success? {
      var a := AuditUnfold(req, ohlcv, lib, explain);
      LightFromRow(req, a, explain(NarrativeInputOf(req, a)), LatestRow(ohlcv, lib));
    }
  }

  /** The light of a report whose snapshot is `row` rounded, in terms of `row`. */
  lemma LightFromRow(req: AuditRequest, a: Analysis, narrative: Narrative, row: Indicators.MetricRow)
    requires a.regime == RegimeClassifier.Classify(MetricsDictOf(a.latest.metrics))
    requires a.alignment == Alignment.AlignmentSpec(req.strategyType, RegimeDictOf(a.regime))
    requires a.latest.metrics.adx == Round(row.adx, 2) && a.latest.metrics.emaDelta == Round(row.emaDelta, 4)
    requires a.latest.metrics.bbwPercentile == Round(row.bbwPercentile, 2) == row.bbwPercentile
    ensures var green := BuildReport(req, a, narrative).uiComponents.trafficLight.color == "GREEN";
      && (req.strategyType == "TREND_FOLLOWING" ==>
            (green <==> row.adx > 25.005 && (row.emaDelta < -0.00005 || row.emaDelta > 0.00005)
                        && row.bbwPercentile >= 0.20))
      && (req.strategyType == "MEAN_REVERSION" ==> (green <==> row.adx < 19.995))
      && (req.strategyType == "BREAKOUT" ==> (green <==> row.bbwPercentile <= 0.80))
      && (req.strategyType !in {"TREND_FOLLOWING", "MEAN_REVERSION", "BREAKOUT"} ==> green)
  {
    LightFromSnapshot(req, a, narrative);
    SnapshotConditions(a.latest.metrics, row);
  }

  /** The classifier's conditions on a rounded snapshot, restated on the row it was rounded from. */
  lemma SnapshotConditions(m: Indicators.SnapshotMetrics, row: Indicators.MetricRow)
    requires m.adx == Round(row.adx, 2) && m.emaDelta == Round(row.emaDelta, 4)
    requires m.bbwPercentile == Round(row.bbwPercentile, 2) == row.bbwPercentile
    ensures (m.adx > 25.0 && m.emaDelta != 0.0 && m.bbwPercentile >= 0.20) <==>
      (row.adx > 25.005 && (row.emaDelta < -0.00005 || row.emaDelta > 0.00005) && row.bbwPercentile >= 0.20)
    ensures m.adx < 20.0 <==> row.adx < 19.995
    ensures m.bbwPercentile <= 0.80 <==> row.bbwPercentile <= 0.80
  {
    RoundedAdxThresholds(row.adx);
    RoundedDeltaVanishes(row.emaDelta);
  }

  /** An accepted audit is the report built from the analysis of the
      fetched candles, whose snapshot is the final row, rounded. */
  lemma AuditUnfold(req: AuditRequest, ohlcv: seq<MarketData.Candle>,
                    lib: Indicators.LibrarySeries, explain: NarrativeInput -> Narrative) returns (a: Analysis)
    requires Indicators.Fits(lib, |ohlcv|)
    requires MarketData.ValidateCandles(req.symbol, req.timeframe, ohlcv).Success?
    ensures Audit(req, ohlcv, lib, explain) == Success(BuildReport(req, a, explain(NarrativeInputOf(req, a))))
    ensures var row := LatestRow(ohlcv, lib);
      a.latest.metrics.adx == Round(row.adx, 2) && a.latest.metrics.emaDelta == Round(row.emaDelta, 4)
      && a.latest.metrics.bbwPercentile == Round(row.bbwPercentile, 2) == row.bbwPercentile
    ensures a.regime == RegimeClassifier.Classify(MetricsDictOf(a.latest.metrics))
    ensures a.alignment == Alignment.AlignmentSpec(req.strategyType, RegimeDictOf(a.regime))
  {
    var v := MarketData.ValidateCandles(req.symbol, req.timeframe, ohlcv);
    assert v.value.candles == ohlcv;
    a := Analyze(req, ohlcv, lib).value;
    SnapshotIsFinalRow(req, ohlcv, lib);
  }

  /** The analysed snapshot is the final row of the metric table, rounded. */
  lemma SnapshotIsFinalRow(req: AuditRequest, candles: seq<MarketData.Candle>, lib: Indicators.LibrarySeries)
    requires Indicators.Fits(lib, |candles|) && |candles| >= Indicators.MIN_ROWS
    ensures var a := Analyze(req, candles, lib).value; var row := LatestRow(candles, lib);
      a.latest.metrics.adx == Round(row.adx, 2) && a.latest.metrics.emaDelta == Round(row.emaDelta, 4)
      && a.latest.metrics.bbwPercentile == Round(row.bbwPercentile, 2) == row.bbwPercentile
  {
    var rows := Indicators.Metrics(candles, lib).value;
    assert rows[|rows| - 1] == LatestRow(candles, lib);
    Indicators.PercentileKeptByRounding(candles, lib, |candles| - 1);
  }

  /** The ADX thresholds as they act on the unrounded ADX: the snapshot keeps 2 decimals. */
  lemma RoundedAdxThresholds(adx: real)
    ensures Round(adx, 2) > RegimeClassifier.TRENDING_ABOVE <==> adx > 25.005
    ensures Round(adx, 2) < RegimeClassifier.RANGING_BELOW <==> adx < 19.995
  {
    assert Pow10(2) == 100;
    var n := RoundHalfEven(adx * 100.0);
    assert Round(adx, 2) * 100.0 == n as real;
  }

  /** The EMA delta keeps 4 decimals, so one within 0.00005 of zero reads as zero. */
  lemma RoundedDeltaVanishes(emaDelta: real)
    ensures Round(emaDelta, 4) == 0.0 <==> -0.00005 <= emaDelta <= 0.00005
  {
    assert Pow10(4) == 10000;
    var n := RoundHalfEven(emaDelta * 10000.0);
    assert Round(emaDelta, 4) * 10000.0 == n as real;
  }

  /** The classifier's suggestion and the scorer agree: trend following is
      suggested exactly when it would score HIGH, and a suggested mean
      reversion or breakout setup scores HIGH for that strategy. */
  lemma SuggestionScoresHigh(metrics: RegimeClassifier.MetricsDict)
    ensures var s := RegimeClassifier.Classify(metrics).suggestedStrategy;
      && (s == RegimeClassifier.TREND_FOLLOWING <==> ScoreFor("TREND_FOLLOWING", metrics) == Alignment.HIGH)
      && (s == RegimeClassifier.MEAN_REVERSION ==> ScoreFor("MEAN_REVERSION", metrics) == Alignment.HIGH)
      && (s == RegimeClassifier.BREAKOUT_SETUP ==> ScoreFor("BREAKOUT", metrics) == Alignment.HIGH)
  {
    var m := RegimeClassifier.MetricsDict(
      Some(metrics.bbwPercentile.GetOr(RegimeClassifier.DEFAULT_PERCENTILE)),
      Some(metrics.adx.GetOr(RegimeClassifier.DEFAULT_ADX)),
      Some(metrics.emaDelta.GetOr(RegimeClassifier.DEFAULT_EMA_DELTA)));
    assert RegimeClassifier.Classify(m) == RegimeClassifier.Classify(metrics);
    ScoresFromMetrics(m.adx.value, m.emaDelta.value, m.bbwPercentile.value);
  }

  /** With fewer than 50 rows the mean falls back to the latest ATR, so a
      non-negative ATR never raises the flash-crash flag. */
  lemma ShortHistoryNeverFlashCrashes(rows: seq<Indicators.MetricRow>, price: real, atr: real, balance: real, riskPct: real)
    requires |rows| < ATR_MEAN_WINDOW && atr >= 0.0
    ensures !RiskEngine.Calculate(price, atr, AtrMean50(rows, atr), balance, riskPct).warnings.flashCrashDetected
  {
  }

  /** The ATR mean of a full history is the mean of the final 50 ATR values,
      non-negative when they are. */
  lemma AtrMeanOfFullHistory(rows: seq<Indicators.MetricRow>, latestAtr: real)
    requires |rows| >= ATR_MEAN_WINDOW
    requires forall k :: 0 <= k < |rows| ==> rows[k].atr >= 0.0
    ensures AtrMean50(rows, latestAtr) * ATR_MEAN_WINDOW as real == Sum(AtrColumn(rows)[|rows| - ATR_MEAN_WINDOW..])
    ensures AtrMean50(rows, latestAtr) >= 0.0
  {
    var w := AtrColumn(rows)[|rows| - ATR_MEAN_WINDOW..];
    SumNonNegative(w);
  }
}
