/** The risk engine: a capped risk percentage, a 1.5 x ATR stop width, a
    guarded position size, volatility distances and a flash-crash flag
    (backend/app/services/risk_engine.py). Quantities are reals; the
    source's rounding of the reported values is presentation and is not
    modelled. */
module RiskEngine {
  import opened Wrappers

  const MAX_RISK_PCT: real := 0.02
  /** The default of `calculate`'s `risk_pct` argument. */
  const DEFAULT_RISK_PCT: real := 0.01
  const STOP_ATR_MULTIPLE: real := 1.5
  const FLASH_CRASH_MULTIPLE: real := 5.0

  const CAP_MESSAGE: string := "Risk capped at 2% max per system rules."
  const FLASH_CRASH_MESSAGE: string := "Extreme Volatility Detected. Standard risk metrics may fail."
  const FORMULA_TEXT: string := "1.5 * ATR(14)"
  const DISTANCE_NOTE: string := "Distances are volatility-based, not predictive targets."

  datatype RiskParameters = RiskParameters(accountBalance: real, riskPercentageUsed: real, riskAmountUsd: real)
  datatype StopLossGuardrails = StopLossGuardrails(atrValue: real, minStopWidthPrice: real, formula: string)
  datatype PositionSizing = PositionSizing(recommendedUnits: real, notionalValue: real)
  datatype VolatilityDistances = VolatilityDistances(distance1R: real, distance2R: real, distance3R: real, note: string)
  datatype Warnings = Warnings(riskCapActive: bool, flashCrashDetected: bool, message: Option<string>)

  datatype RiskAssessment = RiskAssessment(
    riskParameters: RiskParameters,
    stopLossGuardrails: StopLossGuardrails,
    positionSizing: PositionSizing,
    volatilityDistances: VolatilityDistances,
    warnings: Warnings)

  /** `min(risk_pct, 0.02)`: the requested percentage, never above the 2% ceiling. */
  function CappedRisk(riskPct: real): (safe: real)
    ensures safe <= MAX_RISK_PCT
    ensures safe <= riskPct
    ensures safe == riskPct || safe == MAX_RISK_PCT
    ensures safe == riskPct <==> riskPct <= MAX_RISK_PCT
  {
    if MAX_RISK_PCT < riskPct then MAX_RISK_PCT else riskPct
  }

  /** Units such that a full stop-out loses exactly the risk amount; no
      division when the stop width is not positive. */
  function PositionSize(riskAmount: real, stopWidth: real): (units: real)
    ensures stopWidth > 0.0 ==> units * stopWidth == riskAmount
    ensures stopWidth <= 0.0 ==> units == 0.0
  {
    if stopWidth > 0.0 then riskAmount / stopWidth else 0.0
  }

  /** The flash-crash test: the current ATR exceeds five times a positive 50-period mean. */
  function FlashCrash(atr: real, atrMean50: real): (flag: bool)
    ensures flag <==> atrMean50 > 0.0 && atr > FLASH_CRASH_MULTIPLE * atrMean50
    ensures flag ==> atr > atrMean50
  {
    atrMean50 > 0.0 && atr > atrMean50 * FLASH_CRASH_MULTIPLE
  }

  /** The single warning message: the flash-crash text wins over the cap text. */
  function WarningMessage(flashCrash: bool, warningRisk: Option<string>): (m: Option<string>)
    ensures flashCrash ==> m == Some(FLASH_CRASH_MESSAGE)
    ensures !flashCrash ==> m == warningRisk
  {
    if flashCrash then Some(FLASH_CRASH_MESSAGE) else warningRisk
  }

  /** `RiskEngine.calculate`. */
  function Calculate(currentPrice: real, atr: real, atrMean50: real, balance: real, riskPct: real): (r: RiskAssessment)
    ensures r.riskParameters.accountBalance == balance
    ensures r.riskParameters.riskPercentageUsed <= MAX_RISK_PCT
    ensures riskPct <= MAX_RISK_PCT ==> r.riskParameters.riskPercentageUsed == riskPct
    ensures r.warnings.riskCapActive <==> riskPct > MAX_RISK_PCT
    ensures r.warnings.riskCapActive ==> r.riskParameters.riskPercentageUsed == MAX_RISK_PCT
    ensures r.riskParameters.riskAmountUsd == balance * r.riskParameters.riskPercentageUsed
    ensures r.stopLossGuardrails.atrValue == atr
    ensures r.stopLossGuardrails.minStopWidthPrice == STOP_ATR_MULTIPLE * atr
    ensures var units := r.positionSizing.recommendedUnits;
      (atr > 0.0 ==> units * r.stopLossGuardrails.minStopWidthPrice == r.riskParameters.riskAmountUsd)
      && (atr <= 0.0 ==> units == 0.0)
    ensures r.positionSizing.notionalValue == r.positionSizing.recommendedUnits * currentPrice
    ensures var d := r.volatilityDistances; var w := r.stopLossGuardrails.minStopWidthPrice;
      d.distance1R == w && d.distance2R == 2.0 * w && d.distance3R == 3.0 * w
    ensures r.warnings.flashCrashDetected <==> atrMean50 > 0.0 && atr > FLASH_CRASH_MULTIPLE * atrMean50
    ensures r.warnings.flashCrashDetected ==> r.warnings.message == Some(FLASH_CRASH_MESSAGE)
    ensures !r.warnings.flashCrashDetected && r.warnings.riskCapActive ==> r.warnings.message == Some(CAP_MESSAGE)
    ensures !r.warnings.flashCrashDetected && !r.warnings.riskCapActive ==> r.warnings.message == None
  {
    var safeRiskPct := CappedRisk(riskPct);
    var warningRisk: Option<string> := if safeRiskPct != riskPct then Some(CAP_MESSAGE) else None;
    var stopWidth := STOP_ATR_MULTIPLE * atr;
    var riskAmountUsd := balance * safeRiskPct;
    var positionSizeUnits := PositionSize(riskAmountUsd, stopWidth);
    var flashCrashWarning := FlashCrash(atr, atrMean50);
    RiskAssessment(
      RiskParameters(balance, safeRiskPct, riskAmountUsd),
      StopLossGuardrails(atr, stopWidth, FORMULA_TEXT),
      PositionSizing(positionSizeUnits, positionSizeUnits * currentPrice),
      VolatilityDistances(stopWidth, 2.0 * stopWidth, 3.0 * stopWidth, DISTANCE_NOTE),
      Warnings(warningRisk.Some?, flashCrashWarning, WarningMessage(flashCrashWarning, warningRisk)))
  }

  /** The guardrail the engine exists for: with a non-negative balance, a
      position stopped out at one stop width loses at most 2% of the balance. */
  lemma StopOutLosesAtMostTwoPercent(currentPrice: real, atr: real, atrMean50: real, balance: real, riskPct: real)
    requires balance >= 0.0
    ensures var r := Calculate(currentPrice, atr, atrMean50, balance, riskPct);
      r.positionSizing.recommendedUnits * r.volatilityDistances.distance1R <= MAX_RISK_PCT * balance
  {
    var r := Calculate(currentPrice, atr, atrMean50, balance, riskPct);
    var used := r.riskParameters.riskPercentageUsed;
    assert balance * used <= balance * MAX_RISK_PCT by {
      assert used <= MAX_RISK_PCT;
      MultiplyMonotone(balance, used, MAX_RISK_PCT);
    }
    if atr > 0.0 {
      assert r.positionSizing.recommendedUnits * r.volatilityDistances.distance1R == balance * used;
    } else {
      assert r.positionSizing.recommendedUnits == 0.0;
      assert MAX_RISK_PCT * balance >= 0.0;
    }
  }

  lemma MultiplyMonotone(a: real, x: real, y: real)
    requires a >= 0.0 && x <= y
    ensures a * x <= a * y
  {
    assert a * y - a * x == a * (y - x);
  }

  /** With a non-negative balance and ATR the position size is non-negative,
      and zero when the ATR is zero. */
  lemma PositionSizeNonNegative(currentPrice: real, atr: real, atrMean50: real, balance: real, riskPct: real)
    requires balance >= 0.0 && riskPct >= 0.0 && atr >= 0.0
    ensures var r := Calculate(currentPrice, atr, atrMean50, balance, riskPct);
      r.positionSizing.recommendedUnits >= 0.0
      && (atr == 0.0 ==> r.positionSizing.recommendedUnits == 0.0)
  {
    var r := Calculate(currentPrice, atr, atrMean50, balance, riskPct);
    var used := r.riskParameters.riskPercentageUsed;
    assert used >= 0.0;
    assert balance * used >= 0.0 by { MultiplyMonotone(balance, 0.0, used); }
  }

  /** An ATR of six times a positive mean is a flash crash, and its message
      wins even when the risk cap also fires. */
  lemma FlashCrashTakesPrecedence(currentPrice: real, atrMean50: real, balance: real, riskPct: real)
    requires atrMean50 > 0.0 && riskPct > MAX_RISK_PCT
    ensures var r := Calculate(currentPrice, 6.0 * atrMean50, atrMean50, balance, riskPct);
      r.warnings.flashCrashDetected && r.warnings.riskCapActive
      && r.warnings.message == Some(FLASH_CRASH_MESSAGE)
  {
  }
}
