/** The strategy alignment scorer: a rule table per strategy type that records
    confluence checks and blockers, then a final promotion to HIGH when
    nothing blocks (backend/app/services/alignment.py). */
module Alignment {
  import opened Wrappers

  datatype Score = LOW | MEDIUM | HIGH
  {
    function Value(): string {
      match this
      case LOW => "LOW"
      case MEDIUM => "MEDIUM"
      case HIGH => "HIGH"
    }
  }

  datatype Status = PASS | FAIL | NEUTRAL

  /** One entry of `confluence_checks`: rule name, status and detail text. */
  datatype Check = Check(rule: string, status: Status, detail: string)

  /** The regime dictionary as the scorer reads it; `regime.get` may find no key. */
  datatype RegimeDict = RegimeDict(volatility: Option<string>, trend: Option<string>)

  datatype AlignmentResult = AlignmentResult(
    alignmentScore: Score,
    confluenceChecks: seq<Check>,
    blockers: seq<string>)

  /** How an f-string renders an optional string: a missing key prints as "None". */
  function Show(s: Option<string>): string {
    match s
    case Some(v) => v
    case None => "None"
  }

  // ---------------------------------------------------------------------
  // The rule table, stated declaratively: each rule gives a check and, when
  // it fails, the blocker recorded with it.
  // ---------------------------------------------------------------------

  datatype RuleOutcome = RuleOutcome(check: Check, blocker: Option<string>)

  function TrendExists(trend: Option<string>): RuleOutcome {
    if trend == Some("BULL_TREND") || trend == Some("BEAR_TREND") then
      RuleOutcome(Check("Trend Exists", PASS, "Market is in " + Show(trend)), None)
    else
      RuleOutcome(Check("Trend Exists", FAIL, "No clear trend"),
                  Some("Market is " + Show(trend) + " (Needs Trend)"))
  }

  function VolatilityExpansion(volatility: Option<string>): RuleOutcome {
    if volatility == Some("SQUEEZE") then
      RuleOutcome(Check("Volatility Expansion", FAIL, "In Squeeze"),
                  Some("Volatility is Squeezed (Wait for expansion)"))
    else
      RuleOutcome(Check("Volatility Expansion", PASS, "Volatility Active"), None)
  }

  function VolatilitySqueeze(volatility: Option<string>): RuleOutcome {
    if volatility == Some("SQUEEZE") then
      RuleOutcome(Check("Volatility Squeeze", PASS, "Market is Squeezed"), None)
    else if volatility == Some("EXPANSION") then
      RuleOutcome(Check("Volatility Squeeze", FAIL, "Already Expanded"),
                  Some("Volatility already Expanded (Missed the move)"))
    else
      RuleOutcome(Check("Volatility Squeeze", NEUTRAL, "Normal Volatility"), None)
  }

  function MarketRanging(trend: Option<string>): RuleOutcome {
    if trend == Some("RANGE") then
      RuleOutcome(Check("Market Ranging", PASS, "Market is Ranging"), None)
    else
      RuleOutcome(Check("Market Ranging", FAIL, "Trending"),
                  Some("Market is " + Show(trend) + " (Needs Range)"))
  }

  /** The rules evaluated for a strategy type, in order; none for an unknown type. */
  function RuleOutcomes(strategyType: string, regime: RegimeDict): seq<RuleOutcome> {
    if strategyType == "TREND_FOLLOWING" then
      [TrendExists(regime.trend), VolatilityExpansion(regime.volatility)]
    else if strategyType == "BREAKOUT" then
      [VolatilitySqueeze(regime.volatility)]
    else if strategyType == "MEAN_REVERSION" then
      [MarketRanging(regime.trend)]
    else
      []
  }

  function ChecksOf(outcomes: seq<RuleOutcome>): (checks: seq<Check>)
    ensures |checks| == |outcomes|
    ensures forall k :: 0 <= k < |outcomes| ==> checks[k] == outcomes[k].check
  {
    if outcomes == [] then [] else ChecksOf(outcomes[..|outcomes| - 1]) + [outcomes[|outcomes| - 1].check]
  }

  /** The blocker a rule contributes: one when it failed, none otherwise. */
  function BlockerList(outcome: RuleOutcome): seq<string> {
    if outcome.blocker.Some? then [outcome.blocker.value] else []
  }

  function BlockersOf(outcomes: seq<RuleOutcome>): seq<string> {
    if outcomes == [] then []
    else BlockersOf(outcomes[..|outcomes| - 1]) + BlockerList(outcomes[|outcomes| - 1])
  }

  /** The rule table has at most two rows; this spells both lists out for them. */
  lemma UnfoldShort(outcomes: seq<RuleOutcome>)
    requires |outcomes| <= 2
    ensures |outcomes| == 0 ==> BlockersOf(outcomes) == [] && ChecksOf(outcomes) == []
    ensures |outcomes| == 1 ==>
      BlockersOf(outcomes) == BlockerList(outcomes[0]) && ChecksOf(outcomes) == [outcomes[0].check]
    ensures |outcomes| == 2 ==>
      BlockersOf(outcomes) == BlockerList(outcomes[0]) + BlockerList(outcomes[1])
      && ChecksOf(outcomes) == [outcomes[0].check, outcomes[1].check]
  {
    if |outcomes| >= 1 {
      assert outcomes[..1][..0] == [];
    }
    if |outcomes| == 2 {
      assert outcomes[..1] == [outcomes[0]];
    }
  }

  /** The reference definition of `evaluate`: the rule table's checks, the
      blockers of its failing rules, and HIGH exactly when nothing blocks. */
  function AlignmentSpec(strategyType: string, regime: RegimeDict): (r: AlignmentResult)
    ensures r.alignmentScore == HIGH <==> r.blockers == []
    ensures r.alignmentScore != MEDIUM
    ensures |r.confluenceChecks| == |RuleOutcomes(strategyType, regime)|
  {
    var outcomes := RuleOutcomes(strategyType, regime);
    var blockers := BlockersOf(outcomes);
    AlignmentResult(if blockers == [] then HIGH else LOW, ChecksOf(outcomes), blockers)
  }

  // ---------------------------------------------------------------------
  // `StrategyAlignmentService.evaluate`, step by step as the source does it.
  // ---------------------------------------------------------------------

  method Evaluate(strategyType: string, regime: RegimeDict) returns (r: AlignmentResult)
    ensures r == AlignmentSpec(strategyType, regime)
  {
    UnfoldShort(RuleOutcomes(strategyType, regime));
    var volatility := regime.volatility;
    var trend := regime.trend;

    var score := MEDIUM;
    var blockers: seq<string> := [];
    var rulesChecked: seq<Check> := [];

    if strategyType == "TREND_FOLLOWING" {
      if trend == Some("BULL_TREND") || trend == Some("BEAR_TREND") {
        rulesChecked := rulesChecked + [Check("Trend Exists", PASS, "Market is in " + Show(trend))];
      } else {
        score := LOW;
        blockers := blockers + ["Market is " + Show(trend) + " (Needs Trend)"];
        rulesChecked := rulesChecked + [Check("Trend Exists", FAIL, "No clear trend")];
      }
      if volatility == Some("SQUEEZE") {
        score := if score == MEDIUM then LOW else LOW;
        blockers := blockers + ["Volatility is Squeezed (Wait for expansion)"];
        rulesChecked := rulesChecked + [Check("Volatility Expansion", FAIL, "In Squeeze")];
      } else {
        rulesChecked := rulesChecked + [Check("Volatility Expansion", PASS, "Volatility Active")];
      }
    } else if strategyType == "BREAKOUT" {
      if volatility == Some("SQUEEZE") {
        score := HIGH;
        rulesChecked := rulesChecked + [Check("Volatility Squeeze", PASS, "Market is Squeezed")];
      } else if volatility == Some("EXPANSION") {
        score := LOW;
        blockers := blockers + ["Volatility already Expanded (Missed the move)"];
        rulesChecked := rulesChecked + [Check("Volatility Squeeze", FAIL, "Already Expanded")];
      } else {
        score := MEDIUM;
        rulesChecked := rulesChecked + [Check("Volatility Squeeze", NEUTRAL, "Normal Volatility")];
      }
    } else if strategyType == "MEAN_REVERSION" {
      if trend == Some("RANGE") {
        score := HIGH;
        rulesChecked := rulesChecked + [Check("Market Ranging", PASS, "Market is Ranging")];
      } else {
        score := LOW;
        blockers := blockers + ["Market is " + Show(trend) + " (Needs Range)"];
        rulesChecked := rulesChecked + [Check("Market Ranging", FAIL, "Trending")];
      }
    }

    // Final confluence logic: no blockers promotes to HIGH.
    if blockers == [] && score != HIGH {
      score := HIGH;
    }

    r := AlignmentResult(score, rulesChecked, blockers);
  }

  // ---------------------------------------------------------------------
  // Properties of the scorer.
  // ---------------------------------------------------------------------

  /** A rule records a blocker exactly when its check fails. */
  predicate WellFormed(outcomes: seq<RuleOutcome>) {
    forall k :: 0 <= k < |outcomes| ==> (outcomes[k].blocker.Some? <==> outcomes[k].check.status == FAIL)
  }

  /** The number of checks in `checks` that have status FAIL. */
  function FailCount(checks: seq<Check>): nat {
    if checks == [] then 0
    else FailCount(checks[..|checks| - 1]) + (if checks[|checks| - 1].status == FAIL then 1 else 0)
  }

  lemma {:induction false} BlockersMatchFailures(outcomes: seq<RuleOutcome>)
    requires WellFormed(outcomes)
    ensures |BlockersOf(outcomes)| == FailCount(ChecksOf(outcomes))
  {
    if outcomes != [] {
      var init := outcomes[..|outcomes| - 1];
      assert WellFormed(init) by {
        forall k | 0 <= k < |init| ensures (init[k].blocker.Some? <==> init[k].check.status == FAIL) {
          assert init[k] == outcomes[k];
        }
      }
      BlockersMatchFailures(init);
      assert ChecksOf(outcomes)[..|outcomes| - 1] == ChecksOf(init);
    }
  }

  /** Every FAIL check comes with exactly one blocker: the blockers count the failures. */
  lemma BlockerPerFailedCheck(strategyType: string, regime: RegimeDict)
    ensures var r := AlignmentSpec(strategyType, regime);
      |r.blockers| == FailCount(r.confluenceChecks)
  {
    BlockersMatchFailures(RuleOutcomes(strategyType, regime));
  }

  /** The score is HIGH exactly when nothing blocks and LOW otherwise; never MEDIUM. */
  lemma ScoreFollowsBlockers(strategyType: string, regime: RegimeDict)
    ensures var r := AlignmentSpec(strategyType, regime);
      && (r.blockers != [] <==> r.alignmentScore == LOW)
      && (r.blockers == [] <==> r.alignmentScore == HIGH)
      && (FailCount(r.confluenceChecks) > 0 <==> r.alignmentScore == LOW)
      && r.alignmentScore != MEDIUM
  {
    BlockerPerFailedCheck(strategyType, regime);
  }

  /** Trend following always records "Trend Exists" then "Volatility Expansion". */
  lemma TrendFollowingRecordsTwoChecks(regime: RegimeDict)
    ensures var r := AlignmentSpec("TREND_FOLLOWING", regime);
      |r.confluenceChecks| == 2
      && r.confluenceChecks[0].rule == "Trend Exists"
      && r.confluenceChecks[1].rule == "Volatility Expansion"
      && (r.alignmentScore == HIGH <==>
            (regime.trend == Some("BULL_TREND") || regime.trend == Some("BEAR_TREND"))
            && regime.volatility != Some("SQUEEZE"))
  {
    UnfoldShort(RuleOutcomes("TREND_FOLLOWING", regime));
  }

  /** Breakout: a squeeze passes, an expansion fails with "Missed the move",
      normal volatility records one neutral check. */
  lemma BreakoutCases(regime: RegimeDict)
    ensures var r := AlignmentSpec("BREAKOUT", regime);
      && (regime.volatility == Some("SQUEEZE") ==>
            r.alignmentScore == HIGH && r.blockers == [] && r.confluenceChecks == [Check("Volatility Squeeze", PASS, "Market is Squeezed")])
      && (regime.volatility == Some("EXPANSION") ==>
            r.alignmentScore == LOW && r.blockers == ["Volatility already Expanded (Missed the move)"]
            && r.confluenceChecks == [Check("Volatility Squeeze", FAIL, "Already Expanded")])
      && (regime.volatility == Some("NORMAL") ==>
            r.alignmentScore == HIGH && r.blockers == [] && r.confluenceChecks == [Check("Volatility Squeeze", NEUTRAL, "Normal Volatility")])
  {
    UnfoldShort(RuleOutcomes("BREAKOUT", regime));
  }

  /** Mean reversion outside a range scores LOW with the trend-mismatch blocker. */
  lemma MeanReversionNeedsRange(regime: RegimeDict)
    ensures var r := AlignmentSpec("MEAN_REVERSION", regime);
      && (regime.trend != Some("RANGE") ==>
            r.alignmentScore == LOW && r.blockers == ["Market is " + Show(regime.trend) + " (Needs Range)"]
            && r.confluenceChecks == [Check("Market Ranging", FAIL, "Trending")])
      && (regime.trend == Some("RANGE") ==> r.alignmentScore == HIGH && r.blockers == [])
  {
    UnfoldShort(RuleOutcomes("MEAN_REVERSION", regime));
  }

  /** An unrecognised strategy type records nothing and is promoted to HIGH. */
  lemma UnknownStrategyScoresHigh(strategyType: string, regime: RegimeDict)
    requires strategyType !in {"TREND_FOLLOWING", "BREAKOUT", "MEAN_REVERSION"}
    ensures AlignmentSpec(strategyType, regime) == AlignmentResult(HIGH, [], [])
  {
  }
}
