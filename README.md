# RiskGuard-AI analytics chain in Dafny

This project models the deterministic core of the RiskGuard-AI trading audit
backend. A request names a symbol, a timeframe, a strategy type, an account
balance and a risk percentage. The orchestrator (`audit_asset` in
`backend/main.py`) then runs these steps in a fixed order:

1. It validates the candles the exchange returned (`MarketData`).
2. It derives per-candle metrics from the indicator library's series and takes
   the rounded latest snapshot (`Indicators`, with Python's `round` in
   `Rounding`).
3. It classifies the market regime (`RegimeClassifier`).
4. It scores how well the requested strategy fits that regime (`Alignment`).
5. It sizes the position and its stop (`RiskEngine`).
6. It assembles the UI decision report (`Audit`).

Each module follows one source file:

- The classifier, the risk engine and the pipeline's decision logic are pure
  functions with contracts.
- The scorer and the metric normaliser work step by step in the source, so they
  are modelled as methods: `Alignment.Evaluate`, `Indicators.CalculateMetrics`,
  `Indicators.VolumeDeltaColumn`, `Indicators.PercentileColumn` and
  `Audit.AuditAsset`.
- Each of those methods is proved equal to a separate reference function:
  `Alignment.AlignmentSpec`, `Indicators.Metrics`, the cell functions
  `Indicators.VolumeDeltaCell` and `Indicators.PercentileCell`, and `Audit.Audit`. The
  properties are proved as lemmas about those reference functions.

Pandas' NaN is modelled as `None` in an `Option<real>` column. Raised
exceptions are modelled as `Failure` values.

Some behaviours of the code differ from its design description. The model
follows the code:

- **MEDIUM is never returned.**
  - The scorer ends with a promotion to HIGH whenever no blocker was
    recorded. So the score is HIGH exactly when there are no blockers and LOW
    otherwise, and the traffic light is never YELLOW or GREY.
  - This covers a breakout in NORMAL volatility (described as MEDIUM) and an
    unknown strategy type (described as a default MEDIUM). Both come out HIGH
    with no checks recorded for the unknown type.
  - See `Alignment.ScoreFollowsBlockers`, `Alignment.UnknownStrategyScoresHigh`
    and `Audit.ReportLightFollowsBlockers`.
- **The band-width percentile never reaches 0.**
  - pandas' rolling rank uses the average method, so a full window gives
    (2·below + tied + 1) / 100. That value lies in (0, 1] and is never 0 for a
    defined window.
  - 0 appears only where the window is incomplete or undefined and the NaN fill
    replaces it.
  - A history with no band columns ranks at exactly 0.51 from the 50th row on;
    the earlier rows, whose window is incomplete, get 0.
- **The snapshot is rounded before it is classified.**
  - ADX keeps 2 decimals and the EMA delta keeps 4, so the effective trend
    thresholds are ADX > 25.005 and ADX < 19.995.
  - An EMA delta within 0.00005 of zero reads as zero.
  - The percentile is already a whole number of hundredths, so rounding leaves
    it unchanged.

## Model

| member | source | states |
|---|---|---|
| RegimeClassifier.ValueInjective | backend/app/services/regime_classifier.py:4-14 | two market states have the same string value only if they are the same state |
| RegimeClassifier.VolatilityState | backend/app/services/regime_classifier.py:36-41 | SQUEEZE iff percentile < 0.20, EXPANSION iff > 0.80, NORMAL iff 0.20 ≤ percentile ≤ 0.80; always a volatility state |
| RegimeClassifier.TrendState | backend/app/services/regime_classifier.py:47-58 | BULL_TREND iff ADX > 25 and delta > 0; BEAR_TREND iff ADX > 25 and delta < 0; RANGE iff ADX < 20; NEUTRAL iff 20 ≤ ADX ≤ 25 or (ADX > 25 and delta = 0) |
| RegimeClassifier.SuggestedStrategy | backend/app/services/regime_classifier.py:60-74 | BREAKOUT_SETUP iff SQUEEZE; TREND_FOLLOWING iff not SQUEEZE and a bull/bear trend; MEAN_REVERSION iff NORMAL and RANGE; WAIT exactly in the remaining cases |
| RegimeClassifier.Classify | backend/app/services/regime_classifier.py:22-80 | volatility from the percentile (default 0.5), trend from ADX and EMA delta (defaults 0), suggestion from the two states |
| RegimeClassifier.BoundariesAreInclusive | backend/app/services/regime_classifier.py:36-58 | percentile 0.20 and 0.80 are NORMAL; ADX 20 and 25 are NEUTRAL; a strong trend with zero delta is NEUTRAL |
| RegimeClassifier.StatesAreIndependent | backend/app/services/regime_classifier.py:33-58 | volatility depends only on the percentile, trend only on ADX and EMA delta |
| RegimeClassifier.SqueezeMeansBreakout | backend/app/services/regime_classifier.py:63-65 | a squeeze suggests a breakout setup whatever the trend |
| RegimeClassifier.MissingKeysDefault | backend/app/services/regime_classifier.py:34-48 | an empty metrics dictionary classifies as NORMAL / RANGE / MEAN_REVERSION |
| Alignment.AlignmentSpec | backend/app/services/alignment.py:10-75 | the reference scorer: HIGH iff the blocker list is empty, never MEDIUM, one check per rule outcome of the strategy |
| Alignment.Evaluate | backend/app/services/alignment.py:10-75 | the step-by-step scorer returns the rule table's checks in order, the blockers of the failing rules, and HIGH exactly when there is no blocker |
| Alignment.BlockersMatchFailures | backend/app/services/alignment.py:24-65 | for rules that record a blocker exactly when they fail, the blockers count the FAIL checks |
| Alignment.BlockerPerFailedCheck | backend/app/services/alignment.py:24-65 | every result has one blocker per FAIL check |
| Alignment.ScoreFollowsBlockers | backend/app/services/alignment.py:67-69 | LOW iff blockers are non-empty iff some check failed; HIGH iff no blockers; never MEDIUM |
| Alignment.TrendFollowingRecordsTwoChecks | backend/app/services/alignment.py:24-40 | trend following records "Trend Exists" then "Volatility Expansion", and is HIGH iff a bull/bear trend outside a squeeze |
| Alignment.BreakoutCases | backend/app/services/alignment.py:43-54 | squeeze: HIGH with a PASS; expansion: LOW with the "Missed the move" blocker; normal: HIGH with a NEUTRAL check |
| Alignment.MeanReversionNeedsRange | backend/app/services/alignment.py:57-65 | outside a range: LOW with the "(Needs Range)" blocker and a FAIL check; in a range: HIGH without blockers |
| Alignment.UnknownStrategyScoresHigh | backend/app/services/alignment.py:17-69 | an unrecognised strategy records no checks and no blockers and scores HIGH |
| RiskEngine.CappedRisk | backend/app/services/risk_engine.py:30-35 | the used risk is at most 2% and at most the request, and equals the request iff the request is within 2% |
| RiskEngine.PositionSize | backend/app/services/risk_engine.py:44-49 | a positive stop width gives units with units × width = risk amount; otherwise 0 units |
| RiskEngine.FlashCrash | backend/app/services/risk_engine.py:60-62 | raised iff the mean is positive and the ATR exceeds five times it; a raised flag implies the ATR exceeds the mean |
| RiskEngine.WarningMessage | backend/app/services/risk_engine.py:86-90 | the flash-crash text when flagged, otherwise the cap warning or none |
| RiskEngine.Calculate | backend/app/services/risk_engine.py:10-91 | risk used ≤ 2% and equal to the request when within it; cap flag iff the request exceeds 2%; stop = 1.5 × ATR; units × stop = risk amount for positive ATR, else 0; notional = units × price; 1R/2R/3R distances; flash crash iff mean > 0 and ATR > 5 × mean; message precedence |
| RiskEngine.StopOutLosesAtMostTwoPercent | backend/app/services/risk_engine.py:28-54 | with a non-negative balance, being stopped out after one stop width loses at most 2% of the balance |
| RiskEngine.PositionSizeNonNegative | backend/app/services/risk_engine.py:44-49 | non-negative balance, risk and ATR give non-negative units, and zero units for zero ATR |
| RiskEngine.FlashCrashTakesPrecedence | backend/app/services/risk_engine.py:58-90 | an ATR six times a positive mean is a flash crash, and its message wins over an active risk cap |
| MarketData.MapSymbol | backend/app/services/market_data.py:27-30 | BTC/USDT becomes BTC/USD, ETH/USDT becomes ETH/USD, any other symbol is kept |
| MarketData.CandleHours | backend/app/services/market_data.py:48-49 | 24 hours for "1d", 4 hours for every other timeframe |
| MarketData.HasGap | backend/app/services/market_data.py:52-59 | true iff some consecutive timestamps differ by more than the threshold |
| MarketData.ValidateCandles | backend/app/services/market_data.py:27-70 | no-data error (with the remapped symbol) iff empty; too-new iff 1–199 candles; gap error iff a gap wider than three candle durations lies within the last 200; success iff at least 200 candles and no such gap (zero volume never rejects), returning the data unchanged with the zero-volume flag iff the last volume is 0 |
| MarketData.EarlierCandlesNotChecked | backend/app/services/market_data.py:51-60 | whatever precedes the last 200 candles, the verdict and the zero-volume flag are the same |
| Indicators.Metrics | backend/app/services/indicators.py:11-93 | fails iff fewer than 14 candles, otherwise one analysed row per candle |
| Indicators.VolumeDeltaColumn | backend/app/services/indicators.py:76-84 | the loop yields, row by row, volume over the 20-row mean when that mean exists and is positive, else 0 |
| Indicators.PercentileColumn | backend/app/services/indicators.py:86-88 | the loop yields, row by row, the average-method rank over the trailing 50 rows, undefined when the window is incomplete or holds NaN |
| Indicators.CalculateMetrics | backend/app/services/indicators.py:11-93 | the low-depth warning iff fewer than 50 candles, and the reference metric table (or its error) |
| Indicators.GetLatestMetrics | backend/app/services/indicators.py:95-112 | fails iff the table is empty; otherwise the final row's timestamp and close and its metrics rounded to 2 or 4 decimals |
| Indicators.LatestReadsFinalRowOnly | backend/app/services/indicators.py:99-111 | two tables with the same final row give the same snapshot |
| Indicators.AdxFallsBackToZero | backend/app/services/indicators.py:26-30 | without an ADX frame, ADX is 0 on every row |
| Indicators.EmaFallbackZeroesDelta | backend/app/services/indicators.py:34-39 | when the EMA-200 is undefined on every row, the close replaces it and the delta is 0 |
| Indicators.ZeroMiddleBandGivesZeroWidth | backend/app/services/indicators.py:52-70 | a zero middle band or absent band columns give width 0 |
| Indicators.BandWidthFormula | backend/app/services/indicators.py:65 | with defined bands and a nonzero middle, width × middle = upper − lower |
| Indicators.VolumeDeltaGuards | backend/app/services/indicators.py:78-84 | ratio 0 during the 19-row warm-up or for a non-positive mean; otherwise ratio × mean = volume |
| Indicators.PercentileInUnitInterval | backend/app/services/indicators.py:88-91 | the percentile lies in (0, 1] when the trailing window is full and defined, and is 0 otherwise |
| Indicators.MissingBandsRankAtMidpoint | backend/app/services/indicators.py:66-91 | without band columns every full window is one tie, ranked 0.51 |
| Indicators.PercentileKeptByRounding | backend/app/services/indicators.py:88-108 | rounding a percentile to 2 decimals leaves it unchanged |
| Rounding.RoundHalfEven | backend/app/services/indicators.py:104-110 | the integer within one half of the input, and the even one on a tie |
| Rounding.RoundToScale | backend/app/services/indicators.py:104-110 | the rounded value is a whole number of steps, at most half a step from the input |
| Rounding.Round | backend/app/services/indicators.py:104-110 | `round(x, places)` is a whole number of 10^-places steps, obtained by rounding x half to even, and lies within half a step of x |
| Rounding.RoundOnGrid | backend/app/services/indicators.py:104-110 | a value already on the grid is returned unchanged |
| Audit.ColorFor | backend/main.py:119-120 | GREEN for HIGH, YELLOW for MEDIUM, RED for LOW, GREY for anything else |
| Audit.AtrMean50 | backend/main.py:79-81 | with fewer than 50 rows the latest ATR; otherwise the mean of the last 50 ATR values (mean × 50 = their sum) |
| Audit.Analyze | backend/main.py:74-102 | fails iff fewer than 14 candles; otherwise the snapshot of the metric table, the ATR mean, and the classification, score and risk computed from that snapshot |
| Audit.BuildReport | backend/main.py:122-147 | asset is the requested symbol, status COMPLETE, light and label from the score, regime text "trend / volatility", regime card titled "Market Context" with the narrative's market context as subtext, risk card titled "Safety Guardrails" from the stop width and units, analysis text = alignment verdict + " " + risk note, blockers attached |
| Audit.Audit | backend/main.py:60-147 | the reference pipeline fails iff candle validation rejects, with that error wrapped; a report names the requested symbol and has status COMPLETE; accepted data has at least 200 rows, so the 14-row floor of the metric table is never reached |
| Audit.AuditAsset | backend/main.py:60-147 | the pipeline built from the imperative scorer and normaliser returns the reference report or error |
| Audit.DefaultRequestRisk | backend/main.py:28-33 | the default request risks 0.01, the engine's own default (risk_engine.py:15), below the cap, so 100 of the 10000 balance is at risk |
| Audit.BuiltLightFollowsBlockers | backend/main.py:118-130 | for a score that follows its blockers the light is GREEN iff no blockers and RED iff some; the label is "HIGH Alignment" or "LOW Alignment" |
| Audit.ReportLightFollowsBlockers | backend/main.py:118-147 | every successful report has status COMPLETE and the requested symbol, and its light is GREEN iff no blockers and otherwise RED |
| Audit.TrendFollowingScore | backend/main.py:85-92 | trend following scores HIGH iff the regime trends (bull or bear) outside a squeeze |
| Audit.MeanReversionScore | backend/main.py:85-92 | mean reversion scores HIGH iff the regime is RANGE |
| Audit.BreakoutScore | backend/main.py:85-92 | a breakout scores HIGH iff volatility is not EXPANSION |
| Audit.ScoresFromMetrics | backend/main.py:85-92 | on snapshot values: trend following HIGH iff ADX > 25, delta ≠ 0 and percentile ≥ 0.20; mean reversion iff ADX < 20; breakout iff percentile ≤ 0.80 |
| Audit.LightFromSnapshot | backend/main.py:85-130 | the light is GREEN under exactly those snapshot conditions for the requested strategy, and always for an unknown strategy |
| Audit.LightFromRow | backend/main.py:75-130 | the same conditions restated on the unrounded row the snapshot came from |
| Audit.LightFromLatestRow | backend/main.py:71-130 | for a successful audit, GREEN iff (trend following) ADX > 25.005, abs(delta) > 0.00005 and percentile ≥ 0.20; (mean reversion) ADX < 19.995; (breakout) percentile ≤ 0.80; always for an unknown strategy |
| Audit.SnapshotConditions | backend/main.py:75-85 | the classifier's threshold tests on the rounded snapshot coincide with the shifted tests on the raw row |
| Audit.AuditUnfold | backend/main.py:68-147 | an accepted audit is the report of the analysis of the fetched candles, whose snapshot is the final row rounded |
| Audit.SnapshotIsFinalRow | backend/main.py:74-75 | the analysed snapshot's ADX, delta and percentile are the final row's, rounded |
| Audit.RoundedAdxThresholds | backend/main.py:75-85 | a 2-decimal ADX exceeds 25 iff the raw ADX exceeds 25.005, and is below 20 iff the raw ADX is below 19.995 |
| Audit.RoundedDeltaVanishes | backend/main.py:75-85 | a 4-decimal EMA delta is 0 iff the raw delta lies within 0.00005 of 0 |
| Audit.SuggestionScoresHigh | backend/main.py:85-92 | trend following is suggested iff it scores HIGH; a suggested mean reversion or breakout setup scores HIGH for that strategy |
| Audit.ShortHistoryNeverFlashCrashes | backend/main.py:79-81 | with fewer than 50 rows the mean falls back to the latest ATR, so a non-negative ATR never raises the flash-crash flag |
| Audit.AtrMeanOfFullHistory | backend/main.py:79 | with at least 50 rows the mean times 50 is the sum of the last 50 ATR values, and is non-negative when they are |

## Left out

- The exchange fetch is not modelled: ccxt, the network, async calls, closing the connection and the `limit` argument. Its answer is the `ohlcv` parameter. The re-raised `ConnectionError` and `ValueError` on exchange errors are left out with it.
- The indicator library's formulas (ADX, EMA-200, ATR, Bollinger Bands, RSI) are not modelled. Their series are the inputs in `Indicators.LibrarySeries`.
- A band frame that is missing and one that lacks a BBU/BBL/BBM column lead to the same result (width 0). Both are modelled as absent bands.
- `llm_explainer.py` is not part of this model. The narrative generator is the `explain` function parameter.
- The FastAPI app, CORS, the startup and shutdown hooks, and the conversion of any exception into an HTTP 500 are not modelled. Errors are `Audit.AuditError` values.
- The report identifier and the ISO timestamp strings are left out, because they are date formatting. So is the text formatting of the risk card's two numbers; the card carries the numbers themselves.
- The printed warnings are not modelled as output. The low-depth warning and the zero-volume warning are returned as booleans instead.
- `calculate_metrics` mutates the data frame in place. The model builds a new table. The table keeps only the columns the rest of the pipeline reads; the intermediate EMA_200, BB_Upper/Lower/Mid and Vol_SMA_20 columns are dropped.
- Timestamps stay as integer milliseconds; their conversion to datetimes is not modelled.
- Indicators.CalculateMetrics: a zero EMA-200 under a nonzero close makes pandas produce ±inf, which the NaN fill keeps. The model treats the division as undefined, so it becomes 0, because there are no infinities among the reals.
- RiskEngine.Calculate: reports its quantities unrounded. The source rounds the reported amounts, widths, units and distances to 2 or 4 decimals as presentation, and nothing downstream decides on those rounded values.
- Rounding.Round: rounds the exact real value with ties to even. Python rounds the binary double, so a decimal tie such as 2.675 can go the other way.
- Floating point in general is modelled by exact real arithmetic.
