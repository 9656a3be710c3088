/** The validation half of `MarketDataService.get_candles`: the symbol
    remapping applied before the fetch and the checks applied to what the
    exchange returned (backend/app/services/market_data.py). The fetch itself
    is not modelled: its result is a parameter. */
module MarketData {
  import opened Wrappers

  /** One OHLCV row; the timestamp is in milliseconds since the epoch. */
  datatype Candle = Candle(timestamp: int, open: real, high: real, low: real, close: real, volume: real)

  datatype MarketDataError =
    | NoData(symbol: string)   // "No data returned for {symbol}"
    | AssetTooNew              // fewer than 200 candles
    | DataGaps                 // a gap wider than three candles in the last 200

  /** What `get_candles` returns: the data, unchanged, and whether the zero-volume warning was printed. */
  datatype Fetched = Fetched(candles: seq<Candle>, zeroVolumeWarning: bool)

  const MIN_CANDLES: nat := 200
  const CHECKED_TAIL: nat := 200
  const GAP_MULTIPLE: int := 3
  const MS_PER_HOUR: int := 3_600_000
  const DEFAULT_HOURS: int := 4

  /** The exchange uses USD where the frontend says USDT, for two pairs only. */
  function MapSymbol(symbol: string): (mapped: string)
    ensures symbol == "BTC/USDT" ==> mapped == "BTC/USD"
    ensures symbol == "ETH/USDT" ==> mapped == "ETH/USD"
    ensures symbol != "BTC/USDT" && symbol != "ETH/USDT" ==> mapped == symbol
  {
    var s := if symbol == "BTC/USDT" then "BTC/USD" else symbol;
    if s == "ETH/USDT" then "ETH/USD" else s
  }

  /** Hours per candle: `{'4h': 4, '1d': 24}.get(timeframe, 4)`. */
  function CandleHours(timeframe: string): (hours: int)
    ensures hours > 0
    ensures timeframe == "1d" ==> hours == 24
    ensures timeframe != "1d" ==> hours == 4
  {
    var timeframeMap := map["4h" := 4, "1d" := 24];
    if timeframe in timeframeMap then timeframeMap[timeframe] else DEFAULT_HOURS
  }

  /** The largest accepted spacing between consecutive candles, in milliseconds. */
  function GapThreshold(timeframe: string): int {
    CandleHours(timeframe) * GAP_MULTIPLE * MS_PER_HOUR
  }

  function Timestamps(candles: seq<Candle>): (ts: seq<int>)
    ensures |ts| == |candles|
    ensures forall k :: 0 <= k < |candles| ==> ts[k] == candles[k].timestamp
  {
    seq(|candles|, k requires 0 <= k < |candles| => candles[k].timestamp)
  }

  /** `(ts.diff().iloc[1:] > threshold).any()`. */
  function HasGap(ts: seq<int>, threshold: int): (gap: bool)
    ensures gap <==> exists k :: 1 <= k < |ts| && ts[k] - ts[k - 1] > threshold
  {
    if |ts| < 2 then false
    else
      var init := ts[..|ts| - 1];
      assert forall k :: 0 <= k < |init| ==> init[k] == ts[k];
      HasGap(init, threshold) || ts[|ts| - 1] - ts[|ts| - 2] > threshold
  }

  /** The checks `get_candles` applies to the exchange's answer for `MapSymbol(symbol)`. */
  function ValidateCandles(symbol: string, timeframe: string, ohlcv: seq<Candle>): (r: Result<Fetched, MarketDataError>)
    ensures r == Failure(NoData(MapSymbol(symbol))) <==> |ohlcv| == 0
    ensures r == Failure(AssetTooNew) <==> 0 < |ohlcv| < MIN_CANDLES
    ensures r == Failure(DataGaps) <==>
      |ohlcv| >= MIN_CANDLES
      && exists k :: |ohlcv| - CHECKED_TAIL < k < |ohlcv|
           && ohlcv[k].timestamp - ohlcv[k - 1].timestamp > GapThreshold(timeframe)
    ensures r.Success? <==>
      |ohlcv| >= MIN_CANDLES
      && !exists k :: |ohlcv| - CHECKED_TAIL < k < |ohlcv|
           && ohlcv[k].timestamp - ohlcv[k - 1].timestamp > GapThreshold(timeframe)
    ensures r.Success? ==> r.value.candles == ohlcv
    ensures r.Success? ==> (r.value.zeroVolumeWarning <==> ohlcv[|ohlcv| - 1].volume == 0.0)
  {
    var mapped := MapSymbol(symbol);
    if |ohlcv| == 0 then Failure(NoData(mapped))
    else if |ohlcv| < MIN_CANDLES then Failure(AssetTooNew)
    else
      var tail := Timestamps(ohlcv)[|ohlcv| - CHECKED_TAIL..];
      assert forall k :: 0 <= k < |tail| ==> tail[k] == ohlcv[|ohlcv| - CHECKED_TAIL + k].timestamp;
      if HasGap(tail, GapThreshold(timeframe)) then
        Failure(DataGaps)
      else
        Success(Fetched(ohlcv, ohlcv[|ohlcv| - 1].volume == 0.0))
  }

  /** Only the last 200 candles are checked: whatever precedes them, the
      verdict and the zero-volume flag are the same. */
  lemma EarlierCandlesNotChecked(symbol: string, timeframe: string, early1: seq<Candle>, early2: seq<Candle>, recent: seq<Candle>)
    requires |recent| == CHECKED_TAIL
    ensures var r1, r2 := ValidateCandles(symbol, timeframe, early1 + recent), ValidateCandles(symbol, timeframe, early2 + recent);
      && (r1.Success? <==> r2.Success?)
      && (r1.Failure? ==> r1 == r2)
      && (r1.Success? ==> r1.value.zeroVolumeWarning == r2.value.zeroVolumeWarning)
  {
    var a, b := early1 + recent, early2 + recent;
    assert forall k :: |a| - CHECKED_TAIL <= k < |a| ==> a[k] == recent[k - |early1|];
    assert forall k :: |b| - CHECKED_TAIL <= k < |b| ==> b[k] == recent[k - |early2|];
    assert Timestamps(a)[|a| - CHECKED_TAIL..] == Timestamps(recent);
    assert Timestamps(b)[|b| - CHECKED_TAIL..] == Timestamps(recent);
  }
}
