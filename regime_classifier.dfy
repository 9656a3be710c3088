/** The regime classifier: three if/elif chains that turn the latest
    metrics into a volatility state, a trend state and a suggested
    strategy (backend/app/services/regime_classifier.py). */
module RegimeClassifier {
  import opened Wrappers

  /** The `MarketState` enum: three volatility states and four trend states
      share one enumeration. */
  datatype MarketState =
    | SQUEEZE | NORMAL | EXPANSION
    | BULL_TREND | BEAR_TREND | RANGE | NEUTRAL
  {
    predicate IsVolatilityState() {
      this in {SQUEEZE, NORMAL, EXPANSION}
    }

    predicate IsTrendState() {
      this in {BULL_TREND, BEAR_TREND, RANGE, NEUTRAL}
    }

    /** The enum member's string value. */
    function Value(): string {
      match this
      case SQUEEZE => "SQUEEZE"
      case NORMAL => "NORMAL"
      case EXPANSION => "EXPANSION"
      case BULL_TREND => "BULL_TREND"
      case BEAR_TREND => "BEAR_TREND"
      case RANGE => "RANGE"
      case NEUTRAL => "NEUTRAL"
    }
  }

  /** Distinct states have distinct string values. */
  lemma ValueInjective(a: MarketState, b: MarketState)
    ensures a.Value() == b.Value() <==> a == b
  {
    if a != b {
      assert a.Value() != b.Value() by {
        match a
        case SQUEEZE =>
        case NORMAL =>
        case EXPANSION =>
        case BULL_TREND =>
        case BEAR_TREND =>
        case RANGE =>
        case NEUTRAL =>
      }
    }
  }

  /** The suggested strategy, a plain string in the source. */
  datatype Suggestion = WAIT | BREAKOUT_SETUP | TREND_FOLLOWING | MEAN_REVERSION
  {
    function Value(): string {
      match this
      case WAIT => "WAIT"
      case BREAKOUT_SETUP => "BREAKOUT_SETUP"
      case TREND_FOLLOWING => "TREND_FOLLOWING"
      case MEAN_REVERSION => "MEAN_REVERSION"
    }
  }

  /** The metrics dictionary the classifier reads; any key may be absent. */
  datatype MetricsDict = MetricsDict(
    bbwPercentile: Option<real>,
    adx: Option<real>,
    emaDelta: Option<real>)

  /** The classifier's output: one volatility state, one trend state, one suggestion. */
  datatype Regime = Regime(
    volatilityState: MarketState,
    trendState: MarketState,
    suggestedStrategy: Suggestion)

  const SQUEEZE_BELOW: real := 0.20
  const EXPANSION_ABOVE: real := 0.80
  const TRENDING_ABOVE: real := 25.0
  const RANGING_BELOW: real := 20.0

  /** Default values of `metrics.get` for missing keys. */
  const DEFAULT_PERCENTILE: real := 0.5
  const DEFAULT_ADX: real := 0.0
  const DEFAULT_EMA_DELTA: real := 0.0

  /** Volatility from the band-width percentile, with strict thresholds. */
  function VolatilityState(percentile: real): (v: MarketState)
    ensures v.IsVolatilityState()
    ensures v == SQUEEZE <==> percentile < SQUEEZE_BELOW
    ensures v == EXPANSION <==> percentile > EXPANSION_ABOVE
    ensures v == NORMAL <==> SQUEEZE_BELOW <= percentile <= EXPANSION_ABOVE
  {
    if percentile < SQUEEZE_BELOW then SQUEEZE
    else if percentile > EXPANSION_ABOVE then EXPANSION
    else NORMAL
  }

  /** Trend from the trend strength (ADX) and the signed EMA deviation. */
  function TrendState(adx: real, emaDelta: real): (t: MarketState)
    ensures t.IsTrendState()
    ensures t == BULL_TREND <==> adx > TRENDING_ABOVE && emaDelta > 0.0
    ensures t == BEAR_TREND <==> adx > TRENDING_ABOVE && emaDelta < 0.0
    ensures t == RANGE <==> adx < RANGING_BELOW
    ensures t == NEUTRAL <==>
      (RANGING_BELOW <= adx <= TRENDING_ABOVE) || (adx > TRENDING_ABOVE && emaDelta == 0.0)
  {
    if adx > TRENDING_ABOVE && emaDelta > 0.0 then BULL_TREND
    else if adx > TRENDING_ABOVE && emaDelta < 0.0 then BEAR_TREND
    else if adx < RANGING_BELOW then RANGE
    else NEUTRAL
  }

  /** The strategy suggested for a pair of states; a squeeze takes priority. */
  function SuggestedStrategy(vol: MarketState, trend: MarketState): (s: Suggestion)
    requires vol.IsVolatilityState() && trend.IsTrendState()
    ensures s == BREAKOUT_SETUP <==> vol == SQUEEZE
    ensures s == TREND_FOLLOWING <==> vol != SQUEEZE && trend in {BULL_TREND, BEAR_TREND}
    ensures s == MEAN_REVERSION <==> vol == NORMAL && trend == RANGE
    ensures s == WAIT <==>
      vol != SQUEEZE && (trend == NEUTRAL || (trend == RANGE && vol == EXPANSION))
  {
    if vol == SQUEEZE then BREAKOUT_SETUP
    else if trend in [BULL_TREND, BEAR_TREND] && vol in [NORMAL, EXPANSION] then TREND_FOLLOWING
    else if trend == RANGE && vol == NORMAL then MEAN_REVERSION
    else WAIT
  }

  /** `RegimeClassifier.classify`: volatility first, trend second, then the mapping. */
  function Classify(metrics: MetricsDict): (r: Regime)
    ensures r.volatilityState.IsVolatilityState() && r.trendState.IsTrendState()
    ensures r.volatilityState == VolatilityState(metrics.bbwPercentile.GetOr(DEFAULT_PERCENTILE))
    ensures r.trendState == TrendState(metrics.adx.GetOr(DEFAULT_ADX), metrics.emaDelta.GetOr(DEFAULT_EMA_DELTA))
    ensures r.suggestedStrategy == SuggestedStrategy(r.volatilityState, r.trendState)
  {
    var volState := VolatilityState(metrics.bbwPercentile.GetOr(DEFAULT_PERCENTILE));
    var trendState := TrendState(metrics.adx.GetOr(DEFAULT_ADX), metrics.emaDelta.GetOr(DEFAULT_EMA_DELTA));
    Regime(volState, trendState, SuggestedStrategy(volState, trendState))
  }

  /** The exact thresholds fall into NORMAL and NEUTRAL. */
  lemma BoundariesAreInclusive(delta: real)
    ensures VolatilityState(0.20) == NORMAL && VolatilityState(0.80) == NORMAL
    ensures TrendState(20.0, delta) == NEUTRAL && TrendState(25.0, delta) == NEUTRAL
    ensures TrendState(30.0, 0.0) == NEUTRAL
  {
  }

  /** Volatility depends only on the percentile, trend only on ADX and the EMA delta. */
  lemma StatesAreIndependent(m1: MetricsDict, m2: MetricsDict)
    ensures m1.bbwPercentile == m2.bbwPercentile ==>
      Classify(m1).volatilityState == Classify(m2).volatilityState
    ensures m1.adx == m2.adx && m1.emaDelta == m2.emaDelta ==>
      Classify(m1).trendState == Classify(m2).trendState
  {
  }

  /** A squeeze yields a breakout setup whatever the trend. */
  lemma SqueezeMeansBreakout(metrics: MetricsDict)
    ensures Classify(metrics).volatilityState == SQUEEZE ==>
      Classify(metrics).suggestedStrategy == BREAKOUT_SETUP
  {
  }

  /** Missing keys behave as percentile 0.5 (NORMAL) and ADX 0 (RANGE). */
  lemma MissingKeysDefault()
    ensures Classify(MetricsDict(None, None, None)) == Regime(NORMAL, RANGE, MEAN_REVERSION)
  {
  }
}
