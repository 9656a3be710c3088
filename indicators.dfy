/** The metric normaliser: the post-processing `IndicatorService` applies to
    the indicator-library series (backend/app/services/indicators.py).
    The library's formulas (ADX, EMA, ATR, Bollinger Bands, RSI) are not
    modelled: their series are inputs, one optional real per row, where
    `None` stands for pandas' NaN. */
module Indicators {
  import opened Wrappers
  import opened Series
  import opened Rounding
  import MarketData

  /** A float column of the data frame; `None` is NaN. */
  type Column = seq<Option<real>>

  /** The Bollinger band columns (upper, lower, middle), when all three exist. */
  datatype Bands = Bands(upper: Column, lower: Column, middle: Column)

  /** What the indicator library returns for the candles: no ADX frame or no
      band columns at all is `None`. */
  datatype LibrarySeries = LibrarySeries(
    adx: Option<Column>,
    ema200: Column,
    atr: Column,
    bands: Option<Bands>,
    rsi: Column)

  /** The library returns one value per candle. */
  predicate Fits(lib: LibrarySeries, n: nat) {
    && (lib.adx.Some? ==> |lib.adx.value| == n)
    && |lib.ema200| == n && |lib.atr| == n && |lib.rsi| == n
    && (lib.bands.Some? ==>
          |lib.bands.value.upper| == n && |lib.bands.value.lower| == n && |lib.bands.value.middle| == n)
  }

  /** One row of the analysed data frame after `fillna(0)`. */
  datatype MetricRow = MetricRow(
    timestamp: int,
    close: real,
    volume: real,
    adx: real,
    emaDelta: real,
    atr: real,
    bbwPct: real,
    rsi: real,
    volumeDelta: real,
    bbwPercentile: real)

  datatype IndicatorError =
    | InsufficientData   // fewer than 14 rows
    | NoRows             // `iloc[-1]` of an empty frame

  const MIN_ROWS: nat := 14
  const LOW_DEPTH_ROWS: nat := 50
  const VOLUME_WINDOW: nat := 20
  const RANK_WINDOW: nat := 50

  // ---------------------------------------------------------------------
  // Cell arithmetic as pandas does it: NaN in, NaN out.
  // ---------------------------------------------------------------------

  /** `fillna(0)` on one cell. */
  function Fill(c: Option<real>): real {
    c.GetOr(0.0)
  }

  function Sub(a: Option<real>, b: Option<real>): Option<real> {
    if a.Some? && b.Some? then Some(a.value - b.value) else None
  }

  /** Division; a zero divisor gives an undefined cell. */
  function Div(a: Option<real>, b: Option<real>): Option<real> {
    if a.Some? && b.Some? && b.value != 0.0 then Some(a.value / b.value) else None
  }

  predicate AllUndefined(c: Column) {
    forall k :: 0 <= k < |c| ==> c[k].None?
  }

  predicate AllDefined(c: Column) {
    forall k :: 0 <= k < |c| ==> c[k].Some?
  }

  function Volumes(candles: seq<MarketData.Candle>): (v: seq<real>)
    ensures |v| == |candles| && forall k :: 0 <= k < |candles| ==> v[k] == candles[k].volume
  {
    seq(|candles|, k requires 0 <= k < |candles| => candles[k].volume)
  }

  // ---------------------------------------------------------------------
  // The reference definition, cell by cell.
  // ---------------------------------------------------------------------

  /** ADX: the library's column, or 0 everywhere when it gives none. */
  function AdxCell(lib: LibrarySeries, n: nat, i: nat): Option<real>
    requires Fits(lib, n) && i < n
  {
    match lib.adx
    case Some(c) => c[i]
    case None => Some(0.0)
  }

  /** The EMA-200 baseline: the close itself when the library's EMA is undefined on every row. */
  function EmaBaseline(candles: seq<MarketData.Candle>, lib: LibrarySeries, i: nat): Option<real>
    requires Fits(lib, |candles|) && i < |candles|
  {
    if AllUndefined(lib.ema200) then Some(candles[i].close) else lib.ema200[i]
  }

  /** `(close - EMA_200) / EMA_200`. */
  function EmaDeltaCell(candles: seq<MarketData.Candle>, lib: LibrarySeries, i: nat): Option<real>
    requires Fits(lib, |candles|) && i < |candles|
  {
    var ema := EmaBaseline(candles, lib, i);
    Div(Sub(Some(candles[i].close), ema), ema)
  }

  /** `(upper - lower) / middle` with a zero middle band made undefined; 0 without bands. */
  function BbwCell(lib: LibrarySeries, n: nat, i: nat): Option<real>
    requires Fits(lib, n) && i < n
  {
    match lib.bands
    case None => Some(0.0)
    case Some(b) =>
      var middle := if b.middle[i] == Some(0.0) then None else b.middle[i];
      Div(Sub(b.upper[i], b.lower[i]), middle)
  }

  /** The band-width column before the NaN fill. */
  function BbwColumn(lib: LibrarySeries, n: nat): (c: Column)
    requires Fits(lib, n)
    ensures |c| == n && forall i :: 0 <= i < n ==> c[i] == BbwCell(lib, n, i)
  {
    seq(n, i requires 0 <= i < n => BbwCell(lib, n, i))
  }

  /** `volume.rolling(20).mean()`: undefined until 20 rows are available. */
  function VolumeSma(candles: seq<MarketData.Candle>, i: nat): Option<real>
    requires i < |candles|
  {
    if i + 1 < VOLUME_WINDOW then None
    else Some(Sum(Volumes(candles)[i + 1 - VOLUME_WINDOW..i + 1]) / VOLUME_WINDOW as real)
  }

  /** `volume / Vol_SMA_20` when that mean is positive, else 0. */
  function VolumeDeltaCell(candles: seq<MarketData.Candle>, i: nat): real
    requires i < |candles|
  {
    var sma := VolumeSma(candles, i);
    if sma.Some? && sma.value > 0.0 then candles[i].volume / sma.value else 0.0
  }

  /** The number of defined entries of `w` below `x`. */
  function CountBelow(w: Column, x: real): nat {
    if w == [] then 0
    else CountBelow(w[..|w| - 1], x) + (if w[|w| - 1].Some? && w[|w| - 1].value < x then 1 else 0)
  }

  /** The number of defined entries of `w` equal to `x`. */
  function CountTied(w: Column, x: real): nat {
    if w == [] then 0
    else CountTied(w[..|w| - 1], x) + (if w[|w| - 1] == Some(x) then 1 else 0)
  }

  /** The average rank of `x` in a full window, as a fraction of the window size. */
  function PctRank(w: Column, x: real): real {
    (CountBelow(w, x) as real + (CountTied(w, x) as real + 1.0) / 2.0) / RANK_WINDOW as real
  }

  /** `rolling(50).rank(pct=True)`: undefined unless all 50 values of the trailing window are defined. */
  function PercentileCell(col: Column, i: nat): Option<real>
    requires i < |col|
  {
    if i + 1 < RANK_WINDOW then None
    else
      var w := col[i + 1 - RANK_WINDOW..i + 1];
      if AllDefined(w) then Some(PctRank(w, col[i].value)) else None
  }

  /** Row `i` of the analysed frame. */
  function Row(candles: seq<MarketData.Candle>, lib: LibrarySeries, i: nat): MetricRow
    requires Fits(lib, |candles|) && i < |candles|
  {
    var n := |candles|;
    MetricRow(
      candles[i].timestamp,
      candles[i].close,
      candles[i].volume,
      Fill(AdxCell(lib, n, i)),
      Fill(EmaDeltaCell(candles, lib, i)),
      Fill(lib.atr[i]),
      Fill(BbwCell(lib, n, i)),
      Fill(lib.rsi[i]),
      VolumeDeltaCell(candles, i),
      Fill(PercentileCell(BbwColumn(lib, n), i)))
  }

  /** The reference definition of `calculate_metrics`. */
  function Metrics(candles: seq<MarketData.Candle>, lib: LibrarySeries): (r: Result<seq<MetricRow>, IndicatorError>)
    requires Fits(lib, |candles|)
    ensures r.Failure? <==> |candles| < MIN_ROWS
    ensures r.Failure? ==> r.error == InsufficientData
    ensures r.Success? ==> |r.value| == |candles| && forall i :: 0 <= i < |candles| ==> r.value[i] == Row(candles, lib, i)
  {
    if |candles| < MIN_ROWS then Failure(InsufficientData)
    else Success(seq(|candles|, i requires 0 <= i < |candles| => Row(candles, lib, i)))
  }

  // ---------------------------------------------------------------------
  // `IndicatorService.calculate_metrics`, column by column.
  // ---------------------------------------------------------------------

  /** The rolling 20-row volume mean and the row-wise guarded ratio. */
  method VolumeDeltaColumn(candles: seq<MarketData.Candle>) returns (delta: seq<real>)
    ensures |delta| == |candles|
    ensures forall i :: 0 <= i < |candles| ==> delta[i] == VolumeDeltaCell(candles, i)
  {
    var volumes := Volumes(candles);
    delta := [];
    var i := 0;
    while i < |candles|
      invariant 0 <= i <= |candles| && |delta| == i
      invariant forall k :: 0 <= k < i ==> delta[k] == VolumeDeltaCell(candles, k)
    {
      var sma: Option<real> := None;
      if i + 1 >= VOLUME_WINDOW {
        var lo := i + 1 - VOLUME_WINDOW;
        var acc := 0.0;
        var j := lo;
        while j <= i
          invariant lo <= j <= i + 1
          invariant acc == Sum(volumes[lo..j])
        {
          SumExtend(volumes, lo, j);
          acc := acc + volumes[j];
          j := j + 1;
        }
        sma := Some(acc / VOLUME_WINDOW as real);
      }
      var d := if sma.Some? && sma.value > 0.0 then candles[i].volume / sma.value else 0.0;
      delta := delta + [d];
      i := i + 1;
    }
  }

  /** The trailing 50-row percentile rank of each band-width value. */
  method PercentileColumn(col: Column) returns (pct: Column)
    ensures |pct| == |col|
    ensures forall i :: 0 <= i < |col| ==> pct[i] == PercentileCell(col, i)
  {
    pct := [];
    var i := 0;
    while i < |col|
      invariant 0 <= i <= |col| && |pct| == i
      invariant forall k :: 0 <= k < i ==> pct[k] == PercentileCell(col, k)
    {
      var rank: Option<real> := None;
      if i + 1 >= RANK_WINDOW && col[i].Some? {
        var lo := i + 1 - RANK_WINDOW;
        var x := col[i].value;
        var below, tied, defined := 0, 0, true;
        var j := lo;
        while j <= i
          invariant lo <= j <= i + 1
          invariant below == CountBelow(col[lo..j], x)
          invariant tied == CountTied(col[lo..j], x)
          invariant defined == AllDefined(col[lo..j])
        {
          assert col[lo..j + 1][..j - lo] == col[lo..j];
          defined := defined && col[j].Some?;
          if col[j].Some? && col[j].value < x {
            below := below + 1;
          }
          if col[j] == Some(x) {
            tied := tied + 1;
          }
          j := j + 1;
        }
        if defined {
          rank := Some((below as real + (tied as real + 1.0) / 2.0) / RANK_WINDOW as real);
        }
      }
      pct := pct + [rank];
      i := i + 1;
    }
  }

  /** `calculate_metrics`: the 14-row floor, the library columns with their
      fallbacks, the derived columns and the final NaN fill. The low-depth
      warning it prints is returned as a flag. */
  method CalculateMetrics(candles: seq<MarketData.Candle>, lib: LibrarySeries)
    returns (r: Result<seq<MetricRow>, IndicatorError>, lowDepthWarning: bool)
    requires Fits(lib, |candles|)
    ensures lowDepthWarning <==> |candles| < LOW_DEPTH_ROWS
    ensures r == Metrics(candles, lib)
  {
    var n := |candles|;
    lowDepthWarning := n < LOW_DEPTH_ROWS;
    if n < MIN_ROWS {
      return Failure(InsufficientData), lowDepthWarning;
    }

    var adx: Column := if lib.adx.Some? then lib.adx.value else seq(n, _ => Some(0.0));

    var ema200 := lib.ema200;
    if forall k | 0 <= k < n :: ema200[k].None? {
      ema200 := seq(n, k requires 0 <= k < n => Some(candles[k].close));
    }
    var emaDelta: Column := seq(n, k requires 0 <= k < n => Div(Sub(Some(candles[k].close), ema200[k]), ema200[k]));

    var bbwPct: Column;
    if lib.bands.Some? {
      var b := lib.bands.value;
      var middle: Column := seq(n, k requires 0 <= k < n => if b.middle[k] == Some(0.0) then None else b.middle[k]);
      bbwPct := seq(n, k requires 0 <= k < n => Div(Sub(b.upper[k], b.lower[k]), middle[k]));
    } else {
      bbwPct := seq(n, _ => Some(0.0));
    }
    assert bbwPct == BbwColumn(lib, n);

    var volumeDelta := VolumeDeltaColumn(candles);
    var percentile := PercentileColumn(bbwPct);

    var rows: seq<MetricRow> := [];
    var i := 0;
    while i < n
      invariant 0 <= i <= n && |rows| == i
      invariant forall k :: 0 <= k < i ==> rows[k] == Row(candles, lib, k)
    {
      rows := rows + [MetricRow(
        candles[i].timestamp, candles[i].close, candles[i].volume,
        Fill(adx[i]), Fill(emaDelta[i]), Fill(lib.atr[i]), Fill(bbwPct[i]),
        Fill(lib.rsi[i]), volumeDelta[i], Fill(percentile[i]))];
      i := i + 1;
    }
    var spec := Metrics(candles, lib);
    assert rows == spec.value;
    r := Success(rows);
  }

  // ---------------------------------------------------------------------
  // `get_latest_metrics`
  // ---------------------------------------------------------------------

  datatype SnapshotMetrics = SnapshotMetrics(
    adx: real, emaDelta: real, atr: real, bbwPct: real, bbwPercentile: real, rsi: real, volumeDelta: real)

  datatype LatestMetrics = LatestMetrics(timestamp: int, close: real, metrics: SnapshotMetrics)

  /** The final row of the analysed frame, each metric rounded as the API
      reports it: ADX, RSI, percentile and volume ratio to 2 decimals, EMA
      delta, ATR and band width to 4. */
  function GetLatestMetrics(rows: seq<MetricRow>): (r: Result<LatestMetrics, IndicatorError>)
    ensures r.Failure? <==> rows == []
    ensures r.Success? ==>
      var last := rows[|rows| - 1];
      && r.value.timestamp == last.timestamp && r.value.close == last.close
      && r.value.metrics == SnapshotMetrics(
           Round(last.adx, 2), Round(last.emaDelta, 4), Round(last.atr, 4), Round(last.bbwPct, 4),
           Round(last.bbwPercentile, 2), Round(last.rsi, 2), Round(last.volumeDelta, 2))
  {
    if rows == [] then Failure(NoRows)
    else
      var latest := rows[|rows| - 1];
      Success(LatestMetrics(latest.timestamp, latest.close, SnapshotMetrics(
        Round(latest.adx, 2),
        Round(latest.emaDelta, 4),
        Round(latest.atr, 4),
        Round(latest.bbwPct, 4),
        Round(latest.bbwPercentile, 2),
        Round(latest.rsi, 2),
        Round(latest.volumeDelta, 2))))
  }

  // ---------------------------------------------------------------------
  // Properties of the normaliser.
  // ---------------------------------------------------------------------

  /** The latest snapshot depends on the final row only. */
  lemma LatestReadsFinalRowOnly(rows1: seq<MetricRow>, rows2: seq<MetricRow>)
    requires rows1 != [] && rows2 != [] && rows1[|rows1| - 1] == rows2[|rows2| - 1]
    ensures GetLatestMetrics(rows1) == GetLatestMetrics(rows2)
  {
  }

  /** Without an ADX column from the library, ADX is 0 on every row. */
  lemma AdxFallsBackToZero(candles: seq<MarketData.Candle>, lib: LibrarySeries, i: nat)
    requires Fits(lib, |candles|) && i < |candles| && lib.adx.None?
    ensures Row(candles, lib, i).adx == 0.0
  {
  }

  /** When the library's EMA-200 is undefined on every row the close replaces
      it, and the EMA delta is 0 on every row. */
  lemma EmaFallbackZeroesDelta(candles: seq<MarketData.Candle>, lib: LibrarySeries, i: nat)
    requires Fits(lib, |candles|) && i < |candles| && AllUndefined(lib.ema200)
    ensures Row(candles, lib, i).emaDelta == 0.0
  {
  }

  /** A zero middle band yields width 0 (no division), as does a missing band frame. */
  lemma ZeroMiddleBandGivesZeroWidth(candles: seq<MarketData.Candle>, lib: LibrarySeries, i: nat)
    requires Fits(lib, |candles|) && i < |candles|
    requires lib.bands.None? || lib.bands.value.middle[i] == Some(0.0)
    ensures Row(candles, lib, i).bbwPct == 0.0
  {
  }

  /** With all three bands defined and a nonzero middle band the width is the band spread over the middle. */
  lemma BandWidthFormula(candles: seq<MarketData.Candle>, lib: LibrarySeries, i: nat)
    requires Fits(lib, |candles|) && i < |candles| && lib.bands.Some?
    requires var b := lib.bands.value;
      b.upper[i].Some? && b.lower[i].Some? && b.middle[i].Some? && b.middle[i].value != 0.0
    ensures var b := lib.bands.value;
      Row(candles, lib, i).bbwPct * b.middle[i].value == b.upper[i].value - b.lower[i].value
  {
  }

  /** The volume ratio is 0 during the 19-row warm-up and where the mean is not
      positive; otherwise ratio times mean is the row's volume. */
  lemma VolumeDeltaGuards(candles: seq<MarketData.Candle>, lib: LibrarySeries, i: nat)
    requires Fits(lib, |candles|) && i < |candles|
    ensures i + 1 < VOLUME_WINDOW ==> Row(candles, lib, i).volumeDelta == 0.0
    ensures i + 1 >= VOLUME_WINDOW ==>
      var mean := Sum(Volumes(candles)[i + 1 - VOLUME_WINDOW..i + 1]) / VOLUME_WINDOW as real;
      (mean > 0.0 ==> Row(candles, lib, i).volumeDelta * mean == candles[i].volume)
      && (mean <= 0.0 ==> Row(candles, lib, i).volumeDelta == 0.0)
  {
  }

  lemma {:induction false} CountsBounded(w: Column, x: real)
    ensures CountBelow(w, x) + CountTied(w, x) <= |w|
    ensures (exists k :: 0 <= k < |w| && w[k] == Some(x)) ==> CountTied(w, x) >= 1
  {
    if w != [] {
      var init := w[..|w| - 1];
      CountsBounded(init, x);
      if w[|w| - 1] != Some(x) && exists k :: 0 <= k < |w| && w[k] == Some(x) {
        var k :| 0 <= k < |w| && w[k] == Some(x);
        assert init[k] == Some(x);
      }
    }
  }

  /** The percentile is 0 unless the trailing 50-row window is full and
      defined, and then lies in (0, 1]. */
  lemma PercentileInUnitInterval(candles: seq<MarketData.Candle>, lib: LibrarySeries, i: nat)
    requires Fits(lib, |candles|) && i < |candles|
    ensures var p := Row(candles, lib, i).bbwPercentile;
      var col := BbwColumn(lib, |candles|);
      if i + 1 >= RANK_WINDOW && AllDefined(col[i + 1 - RANK_WINDOW..i + 1])
      then 0.0 < p <= 1.0
      else p == 0.0
  {
    var col := BbwColumn(lib, |candles|);
    if i + 1 >= RANK_WINDOW {
      var w := col[i + 1 - RANK_WINDOW..i + 1];
      if AllDefined(w) {
        var x := col[i].value;
        assert w[RANK_WINDOW - 1] == Some(x);
        CountsBounded(w, x);
      }
    }
  }

  lemma {:induction false} ConstantWindowCounts(w: Column, x: real)
    requires forall k :: 0 <= k < |w| ==> w[k] == Some(x)
    ensures CountBelow(w, x) == 0 && CountTied(w, x) == |w|
  {
    if w != [] {
      var init := w[..|w| - 1];
      assert forall k :: 0 <= k < |init| ==> init[k] == w[k];
      ConstantWindowCounts(init, x);
    }
  }

  /** Without band columns every width is 0, so a full window is one big tie
      and ranks at (1 + 50) / 2 / 50 = 0.51. */
  lemma MissingBandsRankAtMidpoint(candles: seq<MarketData.Candle>, lib: LibrarySeries, i: nat)
    requires Fits(lib, |candles|) && i < |candles| && lib.bands.None? && i + 1 >= RANK_WINDOW
    ensures Row(candles, lib, i).bbwPercentile == 0.51
  {
    var col := BbwColumn(lib, |candles|);
    var w := col[i + 1 - RANK_WINDOW..i + 1];
    assert forall k :: 0 <= k < |w| ==> w[k] == col[i + 1 - RANK_WINDOW + k] == Some(0.0);
    ConstantWindowCounts(w, 0.0);
  }

  /** A percentile is a whole number of hundredths, (2 * below + tied + 1) / 100,
      so rounding it to 2 decimals leaves it unchanged. */
  lemma PercentileKeptByRounding(candles: seq<MarketData.Candle>, lib: LibrarySeries, i: nat)
    requires Fits(lib, |candles|) && i < |candles|
    ensures Round(Row(candles, lib, i).bbwPercentile, 2) == Row(candles, lib, i).bbwPercentile
  {
    var p := Row(candles, lib, i).bbwPercentile;
    var cell := PercentileCell(BbwColumn(lib, |candles|), i);
    var k: int := 0;
    if cell.Some? {
      var col := BbwColumn(lib, |candles|);
      var w := col[i + 1 - RANK_WINDOW..i + 1];
      var x := col[i].value;
      k := 2 * CountBelow(w, x) + CountTied(w, x) + 1;
    }
    assert p * 100.0 == k as real;
    assert Pow10(2) == 100;
    RoundOnGrid(p, k, 100.0);
  }
}
