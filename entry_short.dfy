/** The short-side entry analyzer: the mirror of the long side, with bearish
    CHOCH events (a higher high, then a close below the first swing low after
    it); its active signals also report the chart interval. */
module ShortEntry {
  import opened Series
  import opened Swings
  import opened Choch

  /** Every bearish event found on the detected swings starts from a swing
      high strictly above the previous swing high; its level is the Low of
      the first swing low in time after that high; its break bar is the
      first later bar closing strictly below the level. */
  lemma BearishEventFromHigherHigh(bars: seq<Bar>, lookback: nat, e: ChochEvent) returns (i: nat, k: nat)
    requires e in ChochEvents(bars, SwingHighs(bars, lookback), SwingLows(bars, lookback), Bearish)
    ensures var highs, lows := SwingHighs(bars, lookback), SwingLows(bars, lookback);
      && 1 <= i < |highs| && k < |lows|
      && highs[i].price > highs[i - 1].price && e.origin == highs[i].price
      && SwingHighAt(bars, highs[i].index, lookback) && SwingLowAt(bars, lows[k].index, lookback)
      && highs[i].index < lows[k].index
      && (forall t {:trigger SwingLowAt(bars, t, lookback)} ::
            highs[i].index < t < lows[k].index ==> !SwingLowAt(bars, t, lookback))
      && e.level == lows[k].price == bars[lows[k].index].low
      && lows[k].index < e.breakIndex < |bars| && bars[e.breakIndex].close < e.level
      && (forall j :: lows[k].index < j < e.breakIndex ==> bars[j].close >= e.level)
  {
    var highs, lows := SwingHighs(bars, lookback), SwingLows(bars, lookback);
    i, k := ChochEventOrigin(bars, highs, lows, Bearish, e);
    forall t | highs[i].index < t < lows[k].index
      ensures !SwingLowAt(bars, t, lookback)
    {
      if SwingLowAt(bars, t, lookback) {
        FirstPivotIsFirstInTime(lows, highs[i].index, k, t);
        assert false;
      }
    }
  }

  /** The analyzer over an already fetched series of bars. */
  class BearishChochAnalyzer {
    const symbol: string
    const interval: string
    const data: seq<Bar>
    var swingLows: seq<SwingPoint>
    var swingHighs: seq<SwingPoint>
    var chochSignals: seq<ChochEvent>

    /** Every recorded event breaks on a bar of the series. */
    ghost predicate Valid()
      reads this`chochSignals
    {
      forall m :: 0 <= m < |chochSignals| ==> chochSignals[m].breakIndex < |data|
    }

    constructor (symbol: string, interval: string, bars: seq<Bar>)
      ensures this.symbol == symbol && this.interval == interval && data == bars
      ensures swingLows == [] && swingHighs == [] && chochSignals == []
      ensures Valid()
    {
      this.symbol := symbol;
      this.interval := interval;
      data := bars;
      swingLows, swingHighs, chochSignals := [], [], [];
    }

    /** Reset both swing lists and record every swing low and swing high. */
    method FindSwingPoints(lookback: nat)
      modifies this`swingLows, this`swingHighs
      ensures swingLows == SwingLows(data, lookback)
      ensures swingHighs == SwingHighs(data, lookback)
    {
      swingLows, swingHighs := DetectSwingPoints(data, lookback);
    }

    /** Reset the event list and fill it from the recorded swing lists, the
      swing highs as origins and the swing lows as pivots. */
    method DetectBearishChoch()
      modifies this`chochSignals
      ensures chochSignals == ChochEvents(data, swingHighs, swingLows, Bearish)
      ensures Valid()
    {
      chochSignals := DetectChoch(data, swingHighs, swingLows, Bearish);
    }

    /** No signal without events; otherwise the last event, in list order,
      whose level is within `distancePct` percent of the last close, tagged
      with the chart interval. */
    method CheckActiveSignals(distancePct: real) returns (r: Option<ActiveSignal>)
      requires Valid()
      ensures chochSignals == [] ==> r.None?
      ensures chochSignals != [] ==>
        |data| > 0 && r == LastActive(symbol, chochSignals, data[|data| - 1].close, distancePct, Some(interval))
    {
      if chochSignals == [] {
        return None;
      }
      assert chochSignals[0].breakIndex < |data|;
      var currentPrice := data[|data| - 1].close;
      r := CollectActive(symbol, chochSignals, currentPrice, distancePct, Some(interval));
    }
  }
}
