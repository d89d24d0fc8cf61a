/** Change-of-character (CHOCH) detection, shared by the long-side and the
    short-side analyzers. A bullish CHOCH starts from a lower low between two
    consecutive swing lows and completes when a later close breaks above the
    first swing high after the newer low; a bearish CHOCH mirrors it with a
    higher high, the first swing low after it and a close below that low. */
module Choch {
  import opened Series
  import opened Swings

  datatype Direction = Bullish | Bearish

  /** The trend test on a consecutive pair of origin swings: a strictly lower
      low for a bullish CHOCH, a strictly higher high for a bearish one. */
  predicate Continues(dir: Direction, prev: real, curr: real) {
    if dir == Bullish then curr < prev else curr > prev
  }

  /** Which way a close must cross the pivot level to complete the CHOCH. */
  function BreakSide(dir: Direction): Side {
    if dir == Bullish then Above else Below
  }

  /** One CHOCH: the newer origin swing price, the pivot swing price, the
      breaking bar and its close, and the CHOCH level (the pivot price). */
  datatype ChochEvent = ChochEvent(
    direction: Direction,
    origin: real,
    pivot: real,
    breakPrice: real,
    breakIndex: nat,
    level: real)

  /** `k` is the first position in the pivot list whose bar comes strictly
      after bar `after`. */
  ghost predicate FirstPivotAt(pivots: seq<SwingPoint>, after: nat, k: int) {
    && 0 <= k < |pivots| && pivots[k].index > after
    && forall k' :: 0 <= k' < k ==> pivots[k'].index <= after
  }

  /** The first pivot from position `from` on, in list order, whose bar comes
      strictly after bar `after`. */
  function FirstPivotAfter(pivots: seq<SwingPoint>, after: nat, from: nat): (r: Option<nat>)
    ensures r.Some? ==>
      from <= r.value < |pivots| && pivots[r.value].index > after
      && forall k :: from <= k < r.value ==> pivots[k].index <= after
    ensures r.None? <==> (forall k :: from <= k < |pivots| ==> pivots[k].index <= after)
    decreases if from < |pivots| then |pivots| - from else 0
  {
    if from >= |pivots| then None
    else if pivots[from].index > after then Some(from)
    else FirstPivotAfter(pivots, after, from + 1)
  }

  /** The event of the pair (`origins[i-1]`, `origins[i]`): none unless the
      pair continues the trend; otherwise only the first pivot after the newer
      origin is examined, and the event is built from the first later bar
      whose close breaks it. A pair yields at most one event. */
  function PairEvent(bars: seq<Bar>, origins: seq<SwingPoint>, pivots: seq<SwingPoint>, i: nat, dir: Direction): (r: Option<ChochEvent>)
    requires 1 <= i < |origins|
    ensures r.Some? ==>
      && r.value.direction == dir && r.value.origin == origins[i].price
      && r.value.level == r.value.pivot
      && r.value.breakIndex < |bars| && r.value.breakPrice == bars[r.value.breakIndex].close
  {
    var curr := origins[i];
    if !Continues(dir, origins[i - 1].price, curr.price) then None
    else
      match FirstPivotAfter(pivots, curr.index, 0)
      case None => None
      case Some(k) =>
        match FirstCloseBeyond(bars, pivots[k].index + 1, |bars|, pivots[k].price, BreakSide(dir))
        case None => None
        case Some(j) => Some(ChochEvent(dir, curr.price, pivots[k].price, bars[j].close, j, pivots[k].price))
  }

  /** A pair yields an event exactly when it continues the trend, some pivot
      comes after its newer origin, and a later close breaks the first such
      pivot; the event's level is that pivot's price and its break bar is the
      first close beyond it. */
  lemma PairEventCharacterised(bars: seq<Bar>, origins: seq<SwingPoint>, pivots: seq<SwingPoint>, i: nat, dir: Direction)
    requires 1 <= i < |origins|
    ensures PairEvent(bars, origins, pivots, i, dir).Some? <==>
      && Continues(dir, origins[i - 1].price, origins[i].price)
      && exists k :: FirstPivotAt(pivots, origins[i].index, k)
           && exists j :: pivots[k].index < j < |bars| && Beyond(bars[j].close, pivots[k].price, BreakSide(dir))
    ensures PairEvent(bars, origins, pivots, i, dir).Some? ==>
      var e := PairEvent(bars, origins, pivots, i, dir).value;
      exists k :: FirstPivotAt(pivots, origins[i].index, k) && e.pivot == pivots[k].price
        && FirstBeyondAt(bars, pivots[k].index + 1, e.breakIndex, e.pivot, BreakSide(dir))
  {
    var curr := origins[i];
    var fp := FirstPivotAfter(pivots, curr.index, 0);
    if fp.Some? {
      var k := fp.value;
      assert FirstPivotAt(pivots, curr.index, k);
      forall k' | FirstPivotAt(pivots, curr.index, k')
        ensures k' == k
      {
      }
      var fb := FirstCloseBeyond(bars, pivots[k].index + 1, |bars|, pivots[k].price, BreakSide(dir));
      if fb.Some? {
        assert pivots[k].index < fb.value < |bars|;
      }
    }
  }

  /** The events of the pairs ending before position `n` of the origin list,
      in pair order. */
  function ChochEventsUpTo(bars: seq<Bar>, origins: seq<SwingPoint>, pivots: seq<SwingPoint>, dir: Direction, n: nat): (r: seq<ChochEvent>)
    requires n <= |origins|
    ensures |r| <= if n == 0 then 0 else n - 1
    ensures forall m :: 0 <= m < |r| ==> r[m].breakIndex < |bars| && r[m].direction == dir
    decreases n
  {
    if n <= 1 then []
    else ChochEventsUpTo(bars, origins, pivots, dir, n - 1) + OptionToSeq(PairEvent(bars, origins, pivots, n - 1, dir))
  }

  /** The CHOCH list: empty when there are fewer than two origin swings or
      fewer than two pivot swings, otherwise one event per qualifying
      consecutive pair, in pair order, at most one per pair. */
  function ChochEvents(bars: seq<Bar>, origins: seq<SwingPoint>, pivots: seq<SwingPoint>, dir: Direction): (r: seq<ChochEvent>)
    ensures |origins| < 2 || |pivots| < 2 ==> r == []
    ensures |origins| >= 2 ==> |r| <= |origins| - 1
    ensures forall m :: 0 <= m < |r| ==> r[m].breakIndex < |bars| && r[m].direction == dir
  {
    if |origins| < 2 || |pivots| < 2 then []
    else ChochEventsUpTo(bars, origins, pivots, dir, |origins|)
  }

  /** An event is listed exactly when some pair before position `n` yields it. */
  lemma {:induction false} ChochEventsUpToMembership(bars: seq<Bar>, origins: seq<SwingPoint>, pivots: seq<SwingPoint>, dir: Direction, n: nat)
    requires n <= |origins|
    ensures forall e :: e in ChochEventsUpTo(bars, origins, pivots, dir, n) <==>
      exists i :: 1 <= i < n && PairEvent(bars, origins, pivots, i, dir) == Some(e)
    decreases n
  {
    if n > 1 {
      ChochEventsUpToMembership(bars, origins, pivots, dir, n - 1);
    }
  }

  /** Every listed event comes from a consecutive origin pair, and every pair
      that yields an event has it listed (given enough swings of both kinds). */
  lemma ChochEventsMembership(bars: seq<Bar>, origins: seq<SwingPoint>, pivots: seq<SwingPoint>, dir: Direction)
    ensures forall e :: e in ChochEvents(bars, origins, pivots, dir) <==>
      && 2 <= |origins| && 2 <= |pivots|
      && exists i :: 1 <= i < |origins| && PairEvent(bars, origins, pivots, i, dir) == Some(e)
  {
    if 2 <= |origins| && 2 <= |pivots| {
      ChochEventsUpToMembership(bars, origins, pivots, dir, |origins|);
    }
  }

  /** Every listed event continues the trend at its pair, takes its level
      from the first pivot after the newer origin, and breaks it at the
      first close beyond it. */
  lemma ChochEventOrigin(bars: seq<Bar>, origins: seq<SwingPoint>, pivots: seq<SwingPoint>, dir: Direction, e: ChochEvent)
    returns (i: nat, k: nat)
    requires e in ChochEvents(bars, origins, pivots, dir)
    ensures 1 <= i < |origins| && PairEvent(bars, origins, pivots, i, dir) == Some(e)
    ensures Continues(dir, origins[i - 1].price, origins[i].price) && e.origin == origins[i].price
    ensures FirstPivotAt(pivots, origins[i].index, k) && e.pivot == pivots[k].price && e.level == e.pivot
    ensures FirstBeyondAt(bars, pivots[k].index + 1, e.breakIndex, e.level, BreakSide(dir))
  {
    ChochEventsMembership(bars, origins, pivots, dir);
    i :| 1 <= i < |origins| && PairEvent(bars, origins, pivots, i, dir) == Some(e);
    PairEventCharacterised(bars, origins, pivots, i, dir);
    k :| FirstPivotAt(pivots, origins[i].index, k) && e.pivot == pivots[k].price
      && FirstBeyondAt(bars, pivots[k].index + 1, e.breakIndex, e.pivot, BreakSide(dir));
  }

  /** In an ascending pivot list, the first pivot after bar `after` in list
      order is also the first swing in time: no swing of the list lies
      strictly between bar `after` and it. */
  lemma FirstPivotIsFirstInTime(pivots: seq<SwingPoint>, after: nat, k: nat, t: int)
    requires FirstPivotAt(pivots, after, k)
    requires forall a, b :: 0 <= a < b < |pivots| ==> pivots[a].index < pivots[b].index
    requires after < t < pivots[k].index
    ensures forall m :: 0 <= m < |pivots| ==> pivots[m].index != t
  {
    forall m | 0 <= m < |pivots|
      ensures pivots[m].index != t
    {
      if k < m {
        assert pivots[k].index < pivots[m].index;
      }
    }
  }

  /** With no pair continuing the trend before position `n`, no event is listed. */
  lemma {:induction false} NoContinuationUpTo(bars: seq<Bar>, origins: seq<SwingPoint>, pivots: seq<SwingPoint>, dir: Direction, n: nat)
    requires n <= |origins|
    requires forall i :: 1 <= i < n ==> !Continues(dir, origins[i - 1].price, origins[i].price)
    ensures ChochEventsUpTo(bars, origins, pivots, dir, n) == []
    decreases n
  {
    if n > 1 {
      NoContinuationUpTo(bars, origins, pivots, dir, n - 1);
    }
  }

  /** If the origin swings never move in the trend direction (the swing lows
      never strictly fall, for a bullish CHOCH; the swing highs never
      strictly rise, for a bearish one), there is no event. */
  lemma NoContinuationNoEvents(bars: seq<Bar>, origins: seq<SwingPoint>, pivots: seq<SwingPoint>, dir: Direction)
    requires forall i :: 1 <= i < |origins| ==> !Continues(dir, origins[i - 1].price, origins[i].price)
    ensures ChochEvents(bars, origins, pivots, dir) == []
  {
    NoContinuationUpTo(bars, origins, pivots, dir, |origins|);
  }

  /** A flat series has no swing points, hence no CHOCH of either direction. */
  lemma FlatSeriesHasNoChoch(bars: seq<Bar>, lookback: nat)
    requires forall i :: 0 <= i < |bars| ==> bars[i].high == bars[0].high && bars[i].low == bars[0].low
    ensures ChochEvents(bars, SwingLows(bars, lookback), SwingHighs(bars, lookback), Bullish) == []
    ensures ChochEvents(bars, SwingHighs(bars, lookback), SwingLows(bars, lookback), Bearish) == []
  {
    FlatSeriesHasNoSwings(bars, lookback);
  }

  /** Scan one origin pair and append its event, if any: skip a pair that
      does not continue the trend; otherwise walk the pivots in list order,
      and at the first one after the newer origin walk the later bars and
      append at the first close beyond it; stop after that first pivot
      whether or not it was broken. */
  method AppendPairEvent(bars: seq<Bar>, origins: seq<SwingPoint>, pivots: seq<SwingPoint>, i: nat, dir: Direction, events: seq<ChochEvent>)
    returns (r: seq<ChochEvent>)
    requires 1 <= i < |origins|
    ensures r == events + OptionToSeq(PairEvent(bars, origins, pivots, i, dir))
  {
    r := events;
    var prev, curr := origins[i - 1], origins[i];
    if !Continues(dir, prev.price, curr.price) {
      return;
    }
    var k := 0;
    while k < |pivots|
      invariant k <= |pivots|
      invariant forall k' :: 0 <= k' < k ==> pivots[k'].index <= curr.index
    {
      var pivot := pivots[k];
      if pivot.index > curr.index {
        assert FirstPivotAfter(pivots, curr.index, 0) == Some(k) by {
          PivotSearchFrom(pivots, curr.index, 0, k);
        }
        var j := pivot.index + 1;
        while j < |bars|
          invariant pivot.index + 1 <= j
          invariant forall j' :: pivot.index + 1 <= j' < j && j' < |bars| ==> !Beyond(bars[j'].close, pivot.price, BreakSide(dir))
        {
          if Beyond(bars[j].close, pivot.price, BreakSide(dir)) {
            FirstCloseBeyondAt(bars, pivot.index + 1, j, pivot.price, BreakSide(dir));
            r := r + [ChochEvent(dir, curr.price, pivot.price, bars[j].close, j, pivot.price)];
            return;
          }
          j := j + 1;
        }
        return;
      }
      k := k + 1;
    }
  }

  /** The pivot search lands on `k` when `k` is the first pivot from `from`
      on whose bar comes after `after`. */
  lemma PivotSearchFrom(pivots: seq<SwingPoint>, after: nat, from: nat, k: nat)
    requires from <= k < |pivots| && pivots[k].index > after
    requires forall k' :: from <= k' < k ==> pivots[k'].index <= after
    ensures FirstPivotAfter(pivots, after, from) == Some(k)
  {
  }

  /** The close scan lands on `j` when `j` is the first bar from `from` on
      whose close is beyond the level. */
  lemma FirstCloseBeyondAt(bars: seq<Bar>, from: nat, j: nat, level: real, side: Side)
    requires from <= j < |bars| && Beyond(bars[j].close, level, side)
    requires forall j' :: from <= j' < j ==> !Beyond(bars[j'].close, level, side)
    ensures FirstCloseBeyond(bars, from, |bars|, level, side) == Some(j)
  {
  }

  /** The detection loops: run the pair scan for every consecutive origin
      pair in order, after the guard on the numbers of swings. */
  method DetectChoch(bars: seq<Bar>, origins: seq<SwingPoint>, pivots: seq<SwingPoint>, dir: Direction) returns (events: seq<ChochEvent>)
    ensures events == ChochEvents(bars, origins, pivots, dir)
  {
    events := [];
    if |origins| < 2 || |pivots| < 2 {
      return;
    }
    var i := 1;
    while i < |origins|
      invariant 1 <= i <= |origins|
      invariant events == ChochEventsUpTo(bars, origins, pivots, dir, i)
    {
      events := AppendPairEvent(bars, origins, pivots, i, dir, events);
      i := i + 1;
    }
  }

  /** An active signal as reported to the caller (time stamp and rounding
      left out). The short side also reports its chart interval. */
  datatype ActiveSignal = ActiveSignal(
    symbol: string,
    direction: Direction,
    level: real,
    currentPrice: real,
    distancePct: real,
    maxDistancePct: real,
    breakIndex: nat,
    interval: Option<string>)

  /** Distance of the price from a non-zero level, in percent of the level. */
  function DistancePct(level: real, p: real): (r: real)
    requires level != 0.0
    ensures r >= 0.0
    ensures r <= 0.0 <==> p == level
    ensures r == Abs(p - level) / Abs(level) * 100.0
  {
    var q := (p - level) / level;
    assert q * level == p - level;
    Abs(q * 100.0)
  }

  /** An event is active when the last close is within `maxDistance` percent
      of its level. A zero level gives an infinite or undefined distance,
      which never compares as within range. */
  predicate IsActive(e: ChochEvent, p: real, maxDistance: real) {
    e.level != 0.0 && DistancePct(e.level, p) <= maxDistance
  }

  /** The reported record of an active event: the symbol, the event's
      direction, level and break bar, the last close, its distance from the
      level in percent of the level, the bound, and the chart interval when
      the caller reports one. */
  function ActiveSignalOf(symbol: string, e: ChochEvent, p: real, maxDistance: real, interval: Option<string>): (s: ActiveSignal)
    requires e.level != 0.0
    ensures s.symbol == symbol && s.direction == e.direction && s.interval == interval
    ensures s.level == e.level && s.breakIndex == e.breakIndex
    ensures s.currentPrice == p && s.maxDistancePct == maxDistance
    ensures s.distancePct == Abs(p - e.level) / Abs(e.level) * 100.0
    ensures IsActive(e, p, maxDistance) <==> s.distancePct <= maxDistance
  {
    ActiveSignal(symbol, e.direction, e.level, p, DistancePct(e.level, p), maxDistance, e.breakIndex, interval)
  }

  /** The active signals of the events, in list order. */
  function ActiveSignals(symbol: string, events: seq<ChochEvent>, p: real, maxDistance: real, interval: Option<string>): (r: seq<ActiveSignal>)
    ensures |r| <= |events|
    decreases |events|
  {
    if events == [] then []
    else
      var e := events[|events| - 1];
      ActiveSignals(symbol, events[..|events| - 1], p, maxDistance, interval)
      + (if IsActive(e, p, maxDistance) then [ActiveSignalOf(symbol, e, p, maxDistance, interval)] else [])
  }

  /** The reported signal: the last active one in list order, if any. */
  function LastActive(symbol: string, events: seq<ChochEvent>, p: real, maxDistance: real, interval: Option<string>): Option<ActiveSignal> {
    var active := ActiveSignals(symbol, events, p, maxDistance, interval);
    if active == [] then None else Some(active[|active| - 1])
  }

  /** No signal is reported exactly when no event is active. */
  lemma {:induction false} LastActiveAbsent(symbol: string, events: seq<ChochEvent>, p: real, maxDistance: real, interval: Option<string>)
    ensures LastActive(symbol, events, p, maxDistance, interval).None? <==>
      forall m :: 0 <= m < |events| ==> !IsActive(events[m], p, maxDistance)
    decreases |events|
  {
    if events != [] {
      var init := events[..|events| - 1];
      LastActiveAbsent(symbol, init, p, maxDistance, interval);
      assert forall m :: 0 <= m < |init| ==> init[m] == events[m];
    }
  }

  /** A reported signal is built from an active event that no later event in
      the list follows as active: the last qualifying event in list order. */
  lemma {:induction false} LastActiveSource(symbol: string, events: seq<ChochEvent>, p: real, maxDistance: real, interval: Option<string>)
    returns (m: nat)
    requires LastActive(symbol, events, p, maxDistance, interval).Some?
    ensures m < |events| && IsActive(events[m], p, maxDistance)
    ensures LastActive(symbol, events, p, maxDistance, interval) == Some(ActiveSignalOf(symbol, events[m], p, maxDistance, interval))
    ensures forall m' :: m < m' < |events| ==> !IsActive(events[m'], p, maxDistance)
    decreases |events|
  {
    var n := |events|;
    var init := events[..n - 1];
    if IsActive(events[n - 1], p, maxDistance) {
      m := n - 1;
    } else {
      m := LastActiveSource(symbol, init, p, maxDistance, interval);
      assert events[m] == init[m];
    }
  }

  /** A reported signal is within the distance bound and reports the
      distance of the last close from its level. */
  lemma LastActiveWithinBound(symbol: string, events: seq<ChochEvent>, p: real, maxDistance: real, interval: Option<string>)
    requires LastActive(symbol, events, p, maxDistance, interval).Some?
    ensures var s := LastActive(symbol, events, p, maxDistance, interval).value;
      s.level != 0.0 && s.distancePct == DistancePct(s.level, p) && s.distancePct <= maxDistance
      && s.currentPrice == p && s.maxDistancePct == maxDistance
  {
    var m := LastActiveSource(symbol, events, p, maxDistance, interval);
  }

  /** Raising the distance bound never loses the reported signal. */
  lemma LastActiveMonotone(symbol: string, events: seq<ChochEvent>, p: real, d1: real, d2: real, interval: Option<string>)
    requires d1 <= d2
    requires LastActive(symbol, events, p, d1, interval).Some?
    ensures LastActive(symbol, events, p, d2, interval).Some?
  {
    var m := LastActiveSource(symbol, events, p, d1, interval);
    LastActiveAbsent(symbol, events, p, d2, interval);
    assert IsActive(events[m], p, d2);
  }

  /** The active-signal loop: collect the active signals in list order and
      report the last one. */
  method CollectActive(symbol: string, events: seq<ChochEvent>, p: real, maxDistance: real, interval: Option<string>)
    returns (r: Option<ActiveSignal>)
    ensures r == LastActive(symbol, events, p, maxDistance, interval)
  {
    var active: seq<ActiveSignal> := [];
    var k := 0;
    while k < |events|
      invariant k <= |events|
      invariant active == ActiveSignals(symbol, events[..k], p, maxDistance, interval)
    {
      var e := events[k];
      assert events[..k + 1][..k] == events[..k];
      if e.level != 0.0 && DistancePct(e.level, p) <= maxDistance {
        active := active + [ActiveSignalOf(symbol, e, p, maxDistance, interval)];
      }
      k := k + 1;
    }
    assert events[..k] == events;
    r := if active == [] then None else Some(active[|active| - 1]);
  }
}
