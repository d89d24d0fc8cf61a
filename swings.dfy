/** Swing point detection with a symmetric lookback window, shared by the
    range analysis (swing highs, lookback 5) and by both CHOCH analyzers
    (swing lows and highs, caller-chosen lookback). */
module Swings {
  import opened Series

  /** A detected local extremum: its price and the index of its bar. */
  datatype SwingPoint = SwingPoint(price: real, index: nat)

  /** Bar `i` is a swing high: its High is strictly above every High within
      `lookback` bars on either side. Only `lookback <= i < |bars| - lookback`
      qualifies, and a zero lookback never yields a swing point (see
      `WindowSwingHigh`). */
  predicate SwingHighAt(bars: seq<Bar>, i: int, lookback: nat) {
    && 0 < lookback && lookback <= i && i + lookback < |bars|
    && forall j :: i - lookback <= j <= i + lookback && j != i ==> bars[j].high < bars[i].high
  }

  /** Bar `i` is a swing low: its Low is strictly below every Low within
      `lookback` bars on either side. */
  predicate SwingLowAt(bars: seq<Bar>, i: int, lookback: nat) {
    && 0 < lookback && lookback <= i && i + lookback < |bars|
    && forall j :: i - lookback <= j <= i + lookback && j != i ==> bars[i].low < bars[j].low
  }

  /** The source's test at an examined bar: the High is strictly above the
      highest High of the `lookback` bars before it and of the `lookback`
      bars after it. (The maximum of an empty window is NaN in pandas and a
      comparison with NaN is false, so a zero lookback fails the test.) */
  predicate WindowSwingHigh(bars: seq<Bar>, i: nat, lookback: nat)
    requires lookback <= i && i + lookback < |bars|
  {
    && 0 < lookback
    && bars[i].high > HighestHigh(bars[i - lookback..i])
    && bars[i].high > HighestHigh(bars[i + 1..i + lookback + 1])
  }

  /** The mirror test on Lows: strictly below the lowest Low on both sides. */
  predicate WindowSwingLow(bars: seq<Bar>, i: nat, lookback: nat)
    requires lookback <= i && i + lookback < |bars|
  {
    && 0 < lookback
    && bars[i].low < LowestLow(bars[i - lookback..i])
    && bars[i].low < LowestLow(bars[i + 1..i + lookback + 1])
  }

  /** The window test is the same as "strictly greater than every High within
      `lookback` bars on either side": ties never make a swing high. */
  lemma WindowSwingHighIsStrictMaximum(bars: seq<Bar>, i: nat, lookback: nat)
    requires lookback <= i && i + lookback < |bars|
    ensures WindowSwingHigh(bars, i, lookback) <==> SwingHighAt(bars, i, lookback)
  {
    if 0 < lookback {
      var left, right := bars[i - lookback..i], bars[i + 1..i + lookback + 1];
      if SwingHighAt(bars, i, lookback) {
        var a :| 0 <= a < |left| && left[a].high == HighestHigh(left);
        assert left[a] == bars[i - lookback + a];
        var b :| 0 <= b < |right| && right[b].high == HighestHigh(right);
        assert right[b] == bars[i + 1 + b];
      }
      if WindowSwingHigh(bars, i, lookback) {
        forall j | i - lookback <= j <= i + lookback && j != i
          ensures bars[j].high < bars[i].high
        {
          if j < i {
            assert bars[j] == left[j - (i - lookback)];
          } else {
            assert bars[j] == right[j - (i + 1)];
          }
        }
      }
    }
  }

  /** The window test on Lows is "strictly less than every Low within
      `lookback` bars on either side". */
  lemma WindowSwingLowIsStrictMinimum(bars: seq<Bar>, i: nat, lookback: nat)
    requires lookback <= i && i + lookback < |bars|
    ensures WindowSwingLow(bars, i, lookback) <==> SwingLowAt(bars, i, lookback)
  {
    if 0 < lookback {
      var left, right := bars[i - lookback..i], bars[i + 1..i + lookback + 1];
      if SwingLowAt(bars, i, lookback) {
        var a :| 0 <= a < |left| && left[a].low == LowestLow(left);
        assert left[a] == bars[i - lookback + a];
        var b :| 0 <= b < |right| && right[b].low == LowestLow(right);
        assert right[b] == bars[i + 1 + b];
      }
      if WindowSwingLow(bars, i, lookback) {
        forall j | i - lookback <= j <= i + lookback && j != i
          ensures bars[i].low < bars[j].low
        {
          if j < i {
            assert bars[j] == left[j - (i - lookback)];
          } else {
            assert bars[j] == right[j - (i + 1)];
          }
        }
      }
    }
  }

  /** Last bar index examined plus one: the source loops over
      `range(lookback, len(bars) - lookback)`. */
  function ScanEnd(n: nat, lookback: nat): nat {
    if n > lookback then n - lookback else 0
  }

  /** Swing highs among the bars `lookback <= i < k`, in index order. */
  function SwingHighsIn(bars: seq<Bar>, lookback: nat, k: nat): (r: seq<SwingPoint>)
    ensures forall m :: 0 <= m < |r| ==>
      r[m].index < k && SwingHighAt(bars, r[m].index, lookback) && r[m].price == bars[r[m].index].high
    ensures forall a, b :: 0 <= a < b < |r| ==> r[a].index < r[b].index
    ensures forall i {:trigger SwingHighAt(bars, i, lookback)} :: 0 <= i < k && SwingHighAt(bars, i, lookback) ==> SwingPoint(bars[i].high, i) in r
    decreases k
  {
    if k <= lookback then []
    else
      SwingHighsIn(bars, lookback, k - 1)
      + (if SwingHighAt(bars, k - 1, lookback) then [SwingPoint(bars[k - 1].high, k - 1)] else [])
  }

  /** Swing lows among the bars `lookback <= i < k`, in index order. */
  function SwingLowsIn(bars: seq<Bar>, lookback: nat, k: nat): (r: seq<SwingPoint>)
    ensures forall m :: 0 <= m < |r| ==>
      r[m].index < k && SwingLowAt(bars, r[m].index, lookback) && r[m].price == bars[r[m].index].low
    ensures forall a, b :: 0 <= a < b < |r| ==> r[a].index < r[b].index
    ensures forall i {:trigger SwingLowAt(bars, i, lookback)} :: 0 <= i < k && SwingLowAt(bars, i, lookback) ==> SwingPoint(bars[i].low, i) in r
    decreases k
  {
    if k <= lookback then []
    else
      SwingLowsIn(bars, lookback, k - 1)
      + (if SwingLowAt(bars, k - 1, lookback) then [SwingPoint(bars[k - 1].low, k - 1)] else [])
  }

  /** All swing highs of the series: exactly the bars passing the swing-high
      test, each with its own High as price, in strictly ascending index order. */
  function SwingHighs(bars: seq<Bar>, lookback: nat): (r: seq<SwingPoint>)
    ensures forall m :: 0 <= m < |r| ==>
      SwingHighAt(bars, r[m].index, lookback) && r[m].price == bars[r[m].index].high
    ensures forall a, b :: 0 <= a < b < |r| ==> r[a].index < r[b].index
    ensures forall i {:trigger SwingHighAt(bars, i, lookback)} :: SwingHighAt(bars, i, lookback) ==> SwingPoint(bars[i].high, i) in r
  {
    SwingHighsIn(bars, lookback, ScanEnd(|bars|, lookback))
  }

  /** All swing lows of the series: exactly the bars passing the swing-low
      test, each with its own Low as price, in strictly ascending index order. */
  function SwingLows(bars: seq<Bar>, lookback: nat): (r: seq<SwingPoint>)
    ensures forall m :: 0 <= m < |r| ==>
      SwingLowAt(bars, r[m].index, lookback) && r[m].price == bars[r[m].index].low
    ensures forall a, b :: 0 <= a < b < |r| ==> r[a].index < r[b].index
    ensures forall i {:trigger SwingLowAt(bars, i, lookback)} :: SwingLowAt(bars, i, lookback) ==> SwingPoint(bars[i].low, i) in r
  {
    SwingLowsIn(bars, lookback, ScanEnd(|bars|, lookback))
  }

  /** The window test on Highs at one examined bar. */
  method IsSwingHigh(bars: seq<Bar>, i: nat, lookback: nat) returns (b: bool)
    requires lookback <= i && i + lookback < |bars|
    ensures b <==> SwingHighAt(bars, i, lookback)
  {
    WindowSwingHighIsStrictMaximum(bars, i, lookback);
    b := WindowSwingHigh(bars, i, lookback);
  }

  /** The window test on Lows at one examined bar. */
  method IsSwingLow(bars: seq<Bar>, i: nat, lookback: nat) returns (b: bool)
    requires lookback <= i && i + lookback < |bars|
    ensures b <==> SwingLowAt(bars, i, lookback)
  {
    WindowSwingLowIsStrictMinimum(bars, i, lookback);
    b := WindowSwingLow(bars, i, lookback);
  }

  /** The detection loop: for each examined bar, append it to the swing lows
      and/or the swing highs (a bar may be both), starting from empty lists. */
  method DetectSwingPoints(bars: seq<Bar>, lookback: nat) returns (lows: seq<SwingPoint>, highs: seq<SwingPoint>)
    ensures lows == SwingLows(bars, lookback)
    ensures highs == SwingHighs(bars, lookback)
  {
    lows, highs := [], [];
    var i := lookback;
    while i < |bars| - lookback
      invariant lookback <= i
      invariant i == lookback || i <= |bars| - lookback
      invariant lows == SwingLowsIn(bars, lookback, i)
      invariant highs == SwingHighsIn(bars, lookback, i)
    {
      var isLow := IsSwingLow(bars, i, lookback);
      if isLow {
        lows := lows + [SwingPoint(bars[i].low, i)];
      }
      var isHigh := IsSwingHigh(bars, i, lookback);
      if isHigh {
        highs := highs + [SwingPoint(bars[i].high, i)];
      }
      i := i + 1;
    }
  }

  /** Where no examined bar passes the swing-high test, the scan finds none. */
  lemma {:induction false} NoSwingHighsIn(bars: seq<Bar>, lookback: nat, k: nat)
    requires forall i :: 0 <= i < k ==> !SwingHighAt(bars, i, lookback)
    ensures SwingHighsIn(bars, lookback, k) == []
  {
    if k > lookback {
      NoSwingHighsIn(bars, lookback, k - 1);
    }
  }

  /** Where no examined bar passes the swing-low test, the scan finds none. */
  lemma {:induction false} NoSwingLowsIn(bars: seq<Bar>, lookback: nat, k: nat)
    requires forall i :: 0 <= i < k ==> !SwingLowAt(bars, i, lookback)
    ensures SwingLowsIn(bars, lookback, k) == []
  {
    if k > lookback {
      NoSwingLowsIn(bars, lookback, k - 1);
    }
  }

  /** A series whose bars all share one High and one Low has no swing point
      of either kind. */
  lemma {:induction false} FlatSeriesHasNoSwings(bars: seq<Bar>, lookback: nat)
    requires forall i :: 0 <= i < |bars| ==> bars[i].high == bars[0].high && bars[i].low == bars[0].low
    ensures SwingHighs(bars, lookback) == []
    ensures SwingLows(bars, lookback) == []
  {
    var end := ScanEnd(|bars|, lookback);
    forall i | 0 <= i < end
      ensures !SwingHighAt(bars, i, lookback) && !SwingLowAt(bars, i, lookback)
    {
      if 0 < i {
        assert bars[i - 1].high == bars[i].high && bars[i - 1].low == bars[i].low;
      }
    }
    NoSwingHighsIn(bars, lookback, end);
    NoSwingLowsIn(bars, lookback, end);
  }

  /** When every Low is strictly above the previous one there is no swing
      low: the bar just before any candidate has a lower Low. */
  lemma {:induction false} RisingLowsHaveNoSwingLows(bars: seq<Bar>, lookback: nat)
    requires forall i :: 0 < i < |bars| ==> bars[i - 1].low < bars[i].low
    ensures SwingLows(bars, lookback) == []
  {
    var end := ScanEnd(|bars|, lookback);
    forall i | 0 <= i < end
      ensures !SwingLowAt(bars, i, lookback)
    {
      if 0 < i {
        assert bars[i - 1].low < bars[i].low;
      }
    }
    NoSwingLowsIn(bars, lookback, end);
  }

  /** When every High is strictly below the previous one there is no swing
      high: the bar just before any candidate has a higher High. */
  lemma {:induction false} FallingHighsHaveNoSwingHighs(bars: seq<Bar>, lookback: nat)
    requires forall i :: 0 < i < |bars| ==> bars[i].high < bars[i - 1].high
    ensures SwingHighs(bars, lookback) == []
  {
    var end := ScanEnd(|bars|, lookback);
    forall i | 0 <= i < end
      ensures !SwingHighAt(bars, i, lookback)
    {
      if 0 < i {
        assert bars[i].high < bars[i - 1].high;
      }
    }
    NoSwingHighsIn(bars, lookback, end);
  }
}
