/** The long-side entry analyzer: swing points with a configurable lookback,
    bullish CHOCH events (a lower low, then a close above the first swing
    high after it), and the active-signal check against the last close. */
module LongEntry {
  import opened Series
  import opened Swings
  import opened Choch

  /** Every bullish event found on the detected swings starts from a swing
      low strictly below the previous swing low; its level is the High of
      the first swing high in time after that low; its break bar is the
      first later bar closing strictly above the level. */
  lemma BullishEventFromLowerLow(bars: seq<Bar>, lookback: nat, e: ChochEvent) returns (i: nat, k: nat)
    requires e in ChochEvents(bars, SwingLows(bars, lookback), SwingHighs(bars, lookback), Bullish)
    ensures var lows, highs := SwingLows(bars, lookback), SwingHighs(bars, lookback);
      && 1 <= i < |lows| && k < |highs|
      && lows[i].price < lows[i - 1].price && e.origin == lows[i].price
      && SwingLowAt(bars, lows[i].index, lookback) && SwingHighAt(bars, highs[k].index, lookback)
      && lows[i].index < highs[k].index
      && (forall t {:trigger SwingHighAt(bars, t, lookback)} ::
            lows[i].index < t < highs[k].index ==> !SwingHighAt(bars, t, lookback))
      && e.level == highs[k].price == bars[highs[k].index].high
      && highs[k].index < e.breakIndex < |bars| && bars[e.breakIndex].close > e.level
      && (forall j :: highs[k].index < j < e.breakIndex ==> bars[j].close <= e.level)
  {
    var lows, highs := SwingLows(bars, lookback), SwingHighs(bars, lookback);
    i, k := ChochEventOrigin(bars, lows, highs, Bullish, e);
    forall t | lows[i].index < t < highs[k].index
      ensures !SwingHighAt(bars, t, lookback)
    {
      if SwingHighAt(bars, t, lookback) {
        FirstPivotIsFirstInTime(highs, lows[i].index, k, t);
        assert false;
      }
    }
  }

  /** The analyzer over an already fetched series of bars. */
  class ChochAnalyzer {
    const symbol: string
    const interval: string
    const data: seq<Bar>
    var swingLows: seq<SwingPoint>
    var swingHighs: seq<SwingPoint>
    var chochSignals: seq<ChochEvent>

    /** Every recorded event breaks on a bar of the series. */
    ghost predicate Valid()
      reads this`chochSignals
    {
      forall m :: 0 <= m < |chochSignals| ==> chochSignals[m].breakIndex < |data|
    }

    constructor (symbol: string, interval: string, bars: seq<Bar>)
      ensures this.symbol == symbol && this.interval == interval && data == bars
      ensures swingLows == [] && swingHighs == [] && chochSignals == []
      ensures Valid()
    {
      this.symbol := symbol;
      this.interval := interval;
      data := bars;
      swingLows, swingHighs, chochSignals := [], [], [];
    }

    /** Reset both swing lists and record every swing low and swing high. */
    method FindSwingPoints(lookback: nat)
      modifies this`swingLows, this`swingHighs
      ensures swingLows == SwingLows(data, lookback)
      ensures swingHighs == SwingHighs(data, lookback)
    {
      swingLows, swingHighs := DetectSwingPoints(data, lookback);
    }

    /** Reset the event list and fill it from the recorded swing lists. */
    method DetectBullishChoch()
      modifies this`chochSignals
      ensures chochSignals == ChochEvents(data, swingLows, swingHighs, Bullish)
      ensures Valid()
    {
      chochSignals := DetectChoch(data, swingLows, swingHighs, Bullish);
    }

    /** No signal without events; otherwise the last event, in list order,
      whose level is within `distancePct` percent of the last close. */
    method CheckActiveSignals(distancePct: real) returns (r: Option<ActiveSignal>)
      requires Valid()
      ensures chochSignals == [] ==> r.None?
      ensures chochSignals != [] ==>
        |data| > 0 && r == LastActive(symbol, chochSignals, data[|data| - 1].close, distancePct, None)
    {
      if chochSignals == [] {
        return None;
      }
      assert chochSignals[0].breakIndex < |data|;
      var currentPrice := data[|data| - 1].close;
      r := CollectActive(symbol, chochSignals, currentPrice, distancePct, None);
    }
  }
}
