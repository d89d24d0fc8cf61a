/** The range scanner of primary_test.py: weak high, last bullish break of
    structure before it, the range anchor between the two, the invalidation
    of that anchor, and the position of the current close in the range with
    its BUY flag. */
module RangeAnalysis {
  import opened Series
  import opened Swings

  /** The scanner looks for swing highs with a fixed 5-bar lookback. */
  const SwingLookback: nat := 5

  /** The highest High of the series and the first bar carrying it. */
  datatype WeakHigh = WeakHigh(price: real, index: nat)

  /** A bullish break of structure: a swing high and the first later bar
      closing above it. */
  datatype Bos = Bos(breakPrice: real, swingPrice: real, breakIndex: nat, swingIndex: nat)

  /** The bar with the lowest Low between the BOS swing and the weak high. */
  datatype Anchor = Anchor(low: real, open: real, high: real, close: real, index: nat)

  datatype Status = InRange | AboveRange | BelowRange

  datatype Verdict = Buy | NoSignal

  datatype Position = Position(pct: real, status: Status)

  /** The signal record of one analysis (time stamp and rounding left out). */
  datatype RangeSignal = RangeSignal(
    symbol: string,
    currentPrice: real,
    rangeLow: real,
    rangeHigh: real,
    rangeMid: real,
    positionPct: real,
    inRange: bool,
    status: Status,
    swingLowBroken: bool,
    range50: bool,
    verdict: Verdict,
    weakHigh: Option<real>)

  /** The weak high: the maximum High over all bars, at its first occurrence. */
  function WeakHighOf(bars: seq<Bar>): (w: WeakHigh)
    requires |bars| > 0
    ensures w.index < |bars| && w.price == bars[w.index].high
    ensures forall j :: 0 <= j < |bars| ==> bars[j].high <= w.price
    ensures forall j :: 0 <= j < w.index ==> bars[j].high < w.price
  {
    var k := FirstArgMaxHigh(bars);
    WeakHigh(bars[k].high, k)
  }

  /** Bound of the BOS search: the weak-high bar, or the end of the series
      when no weak high has been found (no swing index reaches it then). */
  function BosLimit(n: nat, weakHigh: Option<WeakHigh>): nat {
    if weakHigh.Some? then weakHigh.value.index else n
  }

  /** One past the last bar the break scan may look at: the scan runs to the
      end of the series but stops after the bar at `limit`. */
  function BreakScanEnd(limit: nat, n: nat): nat {
    if limit < n then limit + 1 else n
  }

  /** The BOS recorded for one swing high: none when the swing is not
      strictly before the bound; otherwise the first later bar up to and
      including the bound whose Close is strictly above the swing price. */
  function BosOf(bars: seq<Bar>, s: SwingPoint, limit: nat): (r: Option<Bos>)
    ensures r.Some? ==> r.value.swingIndex == s.index && r.value.swingPrice == s.price
  {
    if s.index >= limit then None
    else
      match FirstCloseBeyond(bars, s.index + 1, BreakScanEnd(limit, |bars|), s.price, Above)
      case None => None
      case Some(j) => Some(Bos(bars[j].close, s.price, j, s.index))
  }

  /** A swing has a BOS exactly when it lies strictly before the bound and
      some later bar up to and including the bound closes strictly above it;
      the BOS records the first such bar and its Close. */
  lemma BosOfCharacterised(bars: seq<Bar>, s: SwingPoint, limit: nat)
    ensures BosOf(bars, s, limit).Some? ==>
      && s.index < limit && BosOf(bars, s, limit).value.breakIndex <= limit
      && FirstBeyondAt(bars, s.index + 1, BosOf(bars, s, limit).value.breakIndex, s.price, Above)
      && BosOf(bars, s, limit).value.breakPrice == bars[BosOf(bars, s, limit).value.breakIndex].close
    ensures BosOf(bars, s, limit).None? <==>
      (s.index >= limit || forall j :: s.index < j <= limit && j < |bars| ==> bars[j].close <= s.price)
  {
  }

  /** The break scan's hit: when bar `j` is the first bar after the swing,
      at or before the bound, closing strictly above it, the BOS is built
      from bar `j`. */
  lemma BosOfAt(bars: seq<Bar>, s: SwingPoint, limit: nat, j: nat)
    requires s.index < j <= limit && j < |bars|
    requires bars[j].close > s.price
    requires forall i :: s.index < i < j ==> bars[i].close <= s.price
    ensures BosOf(bars, s, limit) == Some(Bos(bars[j].close, s.price, j, s.index))
  {
  }

  /** The break scan's miss: a swing not strictly before the bound, or one
      whose price no close up to the bound exceeds, has no BOS. */
  lemma BosOfNone(bars: seq<Bar>, s: SwingPoint, limit: nat)
    requires s.index >= limit || forall j :: s.index < j <= limit && j < |bars| ==> bars[j].close <= s.price
    ensures BosOf(bars, s, limit).None?
  {
  }

  /** The step results of the BOS scan, one per swing high in list order. */
  function BosCandidates(bars: seq<Bar>, swings: seq<SwingPoint>, limit: nat): seq<Option<Bos>> {
    seq(|swings|, m requires 0 <= m < |swings| => BosOf(bars, swings[m], limit))
  }

  /** The BOS list: one entry per swing high broken in time, in swing order. */
  function BosEvents(bars: seq<Bar>, swings: seq<SwingPoint>, limit: nat): (r: seq<Bos>)
    ensures |r| <= |swings|
  {
    Somes(BosCandidates(bars, swings, limit))
  }

  /** The BOS list holds exactly the BOS of each swing high that has one. */
  lemma BosEventsMembership(bars: seq<Bar>, swings: seq<SwingPoint>, limit: nat)
    ensures forall b :: b in BosEvents(bars, swings, limit) <==>
      exists m :: 0 <= m < |swings| && BosOf(bars, swings[m], limit) == Some(b)
  {
    var os := BosCandidates(bars, swings, limit);
    SomesMembership(os);
    assert forall m :: 0 <= m < |swings| ==> os[m] == BosOf(bars, swings[m], limit);
  }

  /** Scanning one more swing appends its BOS, if it has one. */
  lemma BosEventsSnoc(bars: seq<Bar>, swings: seq<SwingPoint>, k: nat, limit: nat)
    requires k < |swings|
    ensures BosEvents(bars, swings[..k + 1], limit)
      == BosEvents(bars, swings[..k], limit) + OptionToSeq(BosOf(bars, swings[k], limit))
  {
    var os := BosCandidates(bars, swings[..k + 1], limit);
    assert os[..k] == BosCandidates(bars, swings[..k], limit);
  }

  /** The last entry of the BOS list, if any. */
  function LastBos(bars: seq<Bar>, swings: seq<SwingPoint>, limit: nat): Option<Bos> {
    var events := BosEvents(bars, swings, limit);
    if events == [] then None else Some(events[|events| - 1])
  }

  /** There is no last BOS exactly when no swing has a BOS. */
  lemma LastBosAbsent(bars: seq<Bar>, swings: seq<SwingPoint>, limit: nat)
    ensures LastBos(bars, swings, limit).None? <==>
      forall m :: 0 <= m < |swings| ==> BosOf(bars, swings[m], limit).None?
  {
    var os := BosCandidates(bars, swings, limit);
    SomesEmpty(os);
    assert forall m :: 0 <= m < |swings| ==> os[m] == BosOf(bars, swings[m], limit);
  }

  /** The range anchor over the inclusive window `[lo, hi]`: the first bar
      with the lowest Low, copied whole. */
  function AnchorOf(bars: seq<Bar>, lo: nat, hi: nat): (a: Anchor)
    requires lo <= hi < |bars|
    ensures lo <= a.index <= hi
    ensures a == Anchor(bars[a.index].low, bars[a.index].open, bars[a.index].high, bars[a.index].close, a.index)
    ensures forall j :: lo <= j <= hi ==> a.low <= bars[j].low
    ensures forall j :: lo <= j < a.index ==> a.low < bars[j].low
  {
    var k := FirstArgMinLow(bars, lo, hi);
    Anchor(bars[k].low, bars[k].open, bars[k].high, bars[k].close, k)
  }

  /** Some bar from `from` (inclusive) to the end closes strictly below `level`. */
  function ClosesBelowFrom(bars: seq<Bar>, from: nat, level: real): (r: bool)
    ensures r <==> exists j :: from <= j < |bars| && bars[j].close < level
  {
    FirstCloseBeyond(bars, from, |bars|, level, Below).Some?
  }

  /** Where `p` stands relative to the range `[low, high]`: the three-way
      split of the source, with the percentage measured from `low` in units
      of the range size. */
  function PositionIn(low: real, high: real, p: real): (r: Position)
    requires high != low
    ensures r.pct == (p - low) / (high - low) * 100.0
    ensures r.status == InRange <==> low <= p <= high
    ensures low < high ==> (r.status == AboveRange <==> p > high)
    ensures low < high ==> (r.status == BelowRange <==> p < low)
    ensures low < high && r.status == InRange ==> 0.0 <= r.pct <= 100.0
    ensures low < high && r.status == AboveRange ==> r.pct > 100.0
    ensures low < high && r.status == BelowRange ==> r.pct < 0.0
  {
    var size := high - low;
    PercentForms(low, high, p);
    RatioBounds(p - low, size);
    if low <= p <= high then
      Position((p - low) / size * 100.0, InRange)
    else if p > high then
      Position(100.0 + (p - high) / size * 100.0, AboveRange)
    else
      Position(-((low - p) / size * 100.0), BelowRange)
  }

  /** The signal record for a range, a current close and the invalidation
      flag: BUY exactly when the close is inside the range, below its
      midpoint, and the range low has not been broken. */
  function RangeSignalOf(symbol: string, low: real, high: real, p: real, broken: bool, weakHigh: Option<real>): (r: RangeSignal)
    requires high != low
    ensures r.symbol == symbol && r.currentPrice == p && r.weakHigh == weakHigh
    ensures r.rangeLow == low && r.rangeHigh == high && r.swingLowBroken == broken
    ensures r.rangeMid == (low + high) / 2.0
    ensures r.positionPct == (p - low) / (high - low) * 100.0
    ensures r.inRange <==> r.status == InRange
    ensures r.inRange <==> low <= p <= high
    ensures r.range50 <==> low <= p <= high && p < (low + high) / 2.0 && !broken
    ensures r.verdict == Buy <==> r.range50
    ensures broken ==> r.verdict == NoSignal
    ensures low < high && r.range50 ==> 0.0 <= r.positionPct < 50.0
  {
    RatioBounds(p - low, high - low);
    var pos := PositionIn(low, high, p);
    var mid := low + (high - low) / 2.0;
    var inRange := pos.status == InRange;
    var range50 := inRange && p < mid && !broken;
    RangeSignal(symbol, p, low, high, mid, pos.pct, inRange, pos.status, broken, range50,
                if range50 then Buy else NoSignal, weakHigh)
  }

  /** The steps of `analyze` after the BOS search, given the weak high and
      the last BOS: each is guarded by the results of the previous ones. */
  function AnalysisFrom(symbol: string, bars: seq<Bar>, wh: WeakHigh, last: Option<Bos>): Option<RangeSignal>
    requires wh.index < |bars|
  {
    match last
    case None => None
    case Some(bos) =>
      if bos.swingIndex >= wh.index then None
      else
        var anchor := AnchorOf(bars, bos.swingIndex, wh.index);
        var broken := ClosesBelowFrom(bars, wh.index, anchor.low);
        if bos.swingPrice - anchor.low == 0.0 then None
        else Some(RangeSignalOf(symbol, anchor.low, bos.swingPrice, bars[|bars| - 1].close, broken, Some(wh.price)))
  }

  /** What one analysis of a fresh scanner yields: the weak high, the last
      BOS before it, then the remaining steps. */
  function Analysis(symbol: string, bars: seq<Bar>): Option<RangeSignal> {
    if |bars| == 0 then None
    else
      var wh := WeakHighOf(bars);
      AnalysisFrom(symbol, bars, wh, LastBos(bars, SwingHighs(bars, SwingLookback), wh.index))
  }

  /** The position in the swing list of the swing the last BOS comes from. */
  lemma LastBosSource(bars: seq<Bar>, swings: seq<SwingPoint>, limit: nat) returns (m: nat)
    requires LastBos(bars, swings, limit).Some?
    ensures m < |swings| && BosOf(bars, swings[m], limit) == LastBos(bars, swings, limit)
    ensures forall m' :: m < m' < |swings| ==> BosOf(bars, swings[m'], limit).None?
  {
    var os := BosCandidates(bars, swings, limit);
    m := LastSomeIsLatest(os);
    assert forall m' :: 0 <= m' < |swings| ==> os[m'] == BosOf(bars, swings[m'], limit);
  }

  /** When no swing high listed after the `m`-th has a BOS, no swing high
      after it and before the bound is closed above by the bound. */
  lemma LaterSwingsUnbroken(bars: seq<Bar>, lookback: nat, limit: nat, m: nat)
    requires m < |SwingHighs(bars, lookback)|
    requires forall m' :: m < m' < |SwingHighs(bars, lookback)| ==>
      BosOf(bars, SwingHighs(bars, lookback)[m'], limit).None?
    ensures forall i :: SwingHighs(bars, lookback)[m].index < i < limit && SwingHighAt(bars, i, lookback) ==>
      forall j :: i < j <= limit && j < |bars| ==> bars[j].close <= bars[i].high
  {
    var swings := SwingHighs(bars, lookback);
    forall i | swings[m].index < i < limit && SwingHighAt(bars, i, lookback)
      ensures forall j :: i < j <= limit && j < |bars| ==> bars[j].close <= bars[i].high
    {
      var s := SwingPoint(bars[i].high, i);
      assert s in swings;
      var m' :| 0 <= m' < |swings| && swings[m'] == s;
      assert m < m';
      BosOfCharacterised(bars, s, limit);
    }
  }

  /** The last BOS is built from a swing high strictly before the bound and
      the first later bar, up to and including the bound, closing strictly
      above it; no later swing high before the bound is broken by then. */
  lemma LastBosIsLastBrokenSwing(bars: seq<Bar>, lookback: nat, limit: nat)
    requires LastBos(bars, SwingHighs(bars, lookback), limit).Some?
    ensures var bos := LastBos(bars, SwingHighs(bars, lookback), limit).value;
      && bos.swingIndex < bos.breakIndex <= limit && bos.breakIndex < |bars|
      && SwingHighAt(bars, bos.swingIndex, lookback) && bos.swingPrice == bars[bos.swingIndex].high
      && FirstBeyondAt(bars, bos.swingIndex + 1, bos.breakIndex, bos.swingPrice, Above)
      && bos.breakPrice == bars[bos.breakIndex].close
      && forall i :: bos.swingIndex < i < limit && SwingHighAt(bars, i, lookback) ==>
           forall j :: i < j <= limit && j < |bars| ==> bars[j].close <= bars[i].high
  {
    var swings := SwingHighs(bars, lookback);
    var m := LastBosSource(bars, swings, limit);
    BosOfCharacterised(bars, swings[m], limit);
    LaterSwingsUnbroken(bars, lookback, limit, m);
  }

  /** A reported range comes from the last BOS before the weak high: its top
      is the BOS swing price, its bottom the anchor Low between the two, and
      its invalidation flag the close scan from the weak-high bar. */
  lemma AnalysisParts(symbol: string, bars: seq<Bar>) returns (bos: Bos)
    requires Analysis(symbol, bars).Some?
    ensures |bars| > 0
    ensures LastBos(bars, SwingHighs(bars, SwingLookback), WeakHighOf(bars).index) == Some(bos)
    ensures bos.swingIndex < WeakHighOf(bars).index
    ensures var r := Analysis(symbol, bars).value;
      var anchor := AnchorOf(bars, bos.swingIndex, WeakHighOf(bars).index);
      && r.rangeHigh == bos.swingPrice && r.rangeLow == anchor.low
      && r.swingLowBroken == ClosesBelowFrom(bars, WeakHighOf(bars).index, anchor.low)
      && r == RangeSignalOf(symbol, anchor.low, bos.swingPrice, bars[|bars| - 1].close,
                            r.swingLowBroken, Some(WeakHighOf(bars).price))
  {
    bos := LastBos(bars, SwingHighs(bars, SwingLookback), WeakHighOf(bars).index).value;
  }

  /** The top of a reported range is the High of a swing high strictly before
      the weak high that some bar up to and including the weak-high bar
      closed strictly above, and no later swing high was broken in time. */
  lemma AnalysisRangeHighIsLastBrokenSwing(symbol: string, bars: seq<Bar>)
    requires Analysis(symbol, bars).Some?
    ensures var wh := WeakHighOf(bars);
      exists i ::
        && 0 <= i < wh.index && SwingHighAt(bars, i, SwingLookback)
        && bars[i].high == Analysis(symbol, bars).value.rangeHigh
        && (exists j :: i < j <= wh.index && bars[j].close > bars[i].high)
        && forall i' :: i < i' < wh.index && SwingHighAt(bars, i', SwingLookback) ==>
             forall j :: i' < j <= wh.index ==> bars[j].close <= bars[i'].high
  {
    var wh := WeakHighOf(bars);
    var bos := AnalysisParts(symbol, bars);
    LastBosIsLastBrokenSwing(bars, SwingLookback, wh.index);
    var i := bos.swingIndex;
    assert bars[bos.breakIndex].close > bars[i].high;
  }

  /** Over a well-formed series (Low at or below High on every bar) a
      reported range is never empty or inverted: its low is strictly below
      its high. */
  lemma AnalysisRangeIsOrdered(symbol: string, bars: seq<Bar>)
    requires WellFormed(bars)
    requires Analysis(symbol, bars).Some?
    ensures Analysis(symbol, bars).value.rangeLow < Analysis(symbol, bars).value.rangeHigh
  {
    var wh := WeakHighOf(bars);
    var swings := SwingHighs(bars, SwingLookback);
    var m := LastBosSource(bars, swings, wh.index);
    var bos := LastBos(bars, swings, wh.index).value;
    var anchor := AnchorOf(bars, bos.swingIndex, wh.index);
    assert anchor.low <= bars[bos.swingIndex].low <= bars[bos.swingIndex].high == bos.swingPrice;
  }

  /** Over a well-formed series, a last BOS before the weak high always
      yields a signal: the bar right after the BOS swing lies in the anchor
      window and its Low is at most its High, which is below the swing High,
      so the range is never of zero size. */
  lemma WellFormedBosGivesSignal(symbol: string, bars: seq<Bar>)
    requires WellFormed(bars) && |bars| > 0
    requires LastBos(bars, SwingHighs(bars, SwingLookback), WeakHighOf(bars).index).Some?
    ensures Analysis(symbol, bars).Some?
  {
    var wh := WeakHighOf(bars);
    LastBosIsLastBrokenSwing(bars, SwingLookback, wh.index);
    var bos := LastBos(bars, SwingHighs(bars, SwingLookback), wh.index).value;
    var si := bos.swingIndex;
    var anchor := AnchorOf(bars, si, wh.index);
    assert bars[si + 1].high < bars[si].high;
    assert anchor.low <= bars[si + 1].low <= bars[si + 1].high;
  }

  /** The range is invalidated exactly when some close from the weak-high
      bar (inclusive) to the last bar is strictly below the range low, and an
      invalidated range never yields BUY. */
  lemma AnalysisInvalidation(symbol: string, bars: seq<Bar>)
    requires Analysis(symbol, bars).Some?
    ensures var r := Analysis(symbol, bars).value;
      && (r.swingLowBroken <==>
            exists j :: WeakHighOf(bars).index <= j < |bars| && bars[j].close < r.rangeLow)
      && (r.swingLowBroken ==> r.verdict == NoSignal && !r.range50)
  {
  }

  /** A flat series (every bar with the same High and Low) has no swing
      high, hence no BOS and no range signal. */
  lemma FlatSeriesHasNoRange(symbol: string, bars: seq<Bar>)
    requires forall i :: 0 <= i < |bars| ==> bars[i].high == bars[0].high && bars[i].low == bars[0].low
    ensures Analysis(symbol, bars).None?
  {
    FlatSeriesHasNoSwings(bars, SwingLookback);
    if |bars| > 0 {
      LastBosAbsent(bars, SwingHighs(bars, SwingLookback), WeakHighOf(bars).index);
    }
  }

  /** The scanner object: its fields are set step by step by `Analyze`. */
  class SimplifiedSmc {
    const symbol: string
    const interval: string
    const data: seq<Bar>
    var weakHigh: Option<WeakHigh>
    var lastBullishBos: Option<Bos>
    var swingLow: Option<Anchor>
    var rangeLow: Option<real>
    var rangeHigh: Option<real>
    var currentPositionPct: Option<real>
    var signal: Option<RangeSignal>
    var swingLowBroken: bool

    /** Recorded bar positions lie inside the series. */
    ghost predicate Valid()
      reads this`weakHigh, this`swingLow
    {
      && (weakHigh.Some? ==> weakHigh.value.index < |data|)
      && (swingLow.Some? ==> swingLow.value.index < |data|)
    }

    /** The state of a freshly constructed scanner. */
    ghost predicate Initial()
      reads this
    {
      && weakHigh.None? && lastBullishBos.None? && swingLow.None?
      && rangeLow.None? && rangeHigh.None? && currentPositionPct.None?
      && signal.None? && !swingLowBroken
    }

    /** A scanner over an already fetched series. */
    constructor (symbol: string, interval: string, bars: seq<Bar>)
      ensures this.symbol == symbol && this.interval == interval && data == bars
      ensures Initial() && Valid()
    {
      this.symbol := symbol;
      this.interval := interval;
      data := bars;
      weakHigh, lastBullishBos, swingLow := None, None, None;
      rangeLow, rangeHigh, currentPositionPct, signal := None, None, None, None;
      swingLowBroken := false;
    }

    /** Step 1: record the weak high. */
    method FindWeakHigh()
      requires |data| > 0
      requires Valid()
      modifies this`weakHigh
      ensures Valid()
      ensures weakHigh == Some(WeakHighOf(data))
    {
      weakHigh := Some(WeakHighOf(data));
    }

    /** Step 2: detect the swing highs, list every swing high broken in time
      together with its first breaking bar, and keep the last entry of the
      list; the field is left as it was when the list is empty. */
    method FindLastBullishBos()
      requires Valid()
      modifies this`lastBullishBos
      ensures Valid()
      ensures var last := LastBos(data, SwingHighs(data, SwingLookback), BosLimit(|data|, old(weakHigh)));
        lastBullishBos == if last.Some? then last else old(lastBullishBos)
    {
      var swingLows, swingHighs := DetectSwingPoints(data, SwingLookback);
      var bosList := CollectBos(swingHighs, BosLimit(|data|, weakHigh));
      if bosList != [] {
        lastBullishBos := Some(bosList[|bosList| - 1]);
      }
    }

    /** The outer loop of the BOS search: run the break scan for every swing
      high in list order, collecting one entry per swing broken in time. */
    method CollectBos(swingHighs: seq<SwingPoint>, limit: nat) returns (bosList: seq<Bos>)
      ensures bosList == BosEvents(data, swingHighs, limit)
    {
      bosList := [];
      var k := 0;
      while k < |swingHighs|
        invariant k <= |swingHighs|
        invariant bosList == BosEvents(data, swingHighs[..k], limit)
      {
        bosList := AppendBreak(bosList, swingHighs[k], limit);
        BosEventsSnoc(data, swingHighs, k, limit);
        k := k + 1;
      }
      assert swingHighs[..k] == swingHighs;
    }

    /** The inner break scan for one swing high: skip a swing not strictly
      before the bound; otherwise walk the bars after it, stop after the
      bound, and append a BOS at the first close strictly above the swing. */
    method AppendBreak(bosList: seq<Bos>, swing: SwingPoint, limit: nat) returns (r: seq<Bos>)
      ensures r == bosList + OptionToSeq(BosOf(data, swing, limit))
    {
      r := bosList;
      if swing.index >= limit {
        BosOfNone(data, swing, limit);
        return;
      }
      var j := swing.index + 1;
      while j < |data|
        invariant swing.index + 1 <= j <= limit + 1
        invariant j == swing.index + 1 || j <= |data|
        invariant forall i :: swing.index + 1 <= i < j ==> data[i].close <= swing.price
      {
        if j > limit {
          break;
        }
        if data[j].close > swing.price {
          BosOfAt(data, swing, limit, j);
          r := r + [Bos(data[j].close, swing.price, j, swing.index)];
          return;
        }
        j := j + 1;
      }
      BosOfNone(data, swing, limit);
    }

    /** Step 3: when a BOS and a weak high are known and the BOS swing bar is
      strictly before the weak-high bar, record the anchor of the window
      between them, both ends included; otherwise leave the field as it was. */
    method FindSwingLowInRange()
      requires Valid()
      modifies this`swingLow
      ensures Valid()
      ensures swingLow ==
        if lastBullishBos.Some? && weakHigh.Some? && lastBullishBos.value.swingIndex < weakHigh.value.index
        then Some(AnchorOf(data, lastBullishBos.value.swingIndex, weakHigh.value.index))
        else old(swingLow)
    {
      if lastBullishBos.None? || weakHigh.None? {
        return;
      }
      var bosSwing, whIndex := lastBullishBos.value.swingIndex, weakHigh.value.index;
      if bosSwing >= whIndex {
        return;
      }
      swingLow := Some(AnchorOf(data, bosSwing, whIndex));
    }

    /** Step 4: scan from the weak-high bar (inclusive) to the end and raise
      the invalidation flag at the first close strictly below the anchor
      Low. The flag is only ever raised, never cleared. */
    method CheckSwingLowBreak()
      requires Valid()
      modifies this`swingLowBroken
      ensures Valid()
      ensures swingLowBroken ==
        if swingLow.Some? && weakHigh.Some?
        then old(swingLowBroken) || ClosesBelowFrom(data, weakHigh.value.index, swingLow.value.low)
        else old(swingLowBroken)
    {
      if swingLow.None? || weakHigh.None? {
        return;
      }
      var from, level := weakHigh.value.index, swingLow.value.low;
      var j := from;
      while j < |data|
        invariant from <= j && (j == from || j <= |data|)
        invariant forall i :: from <= i < j ==> data[i].close >= level
        invariant swingLowBroken == old(swingLowBroken)
      {
        if data[j].close < level {
          swingLowBroken := true;
          break;
        }
        j := j + 1;
      }
    }

    /** Step 5: set the range bounds from the anchor Low and the BOS swing
      price, then position the last close in the range and build the signal.
      A zero-size range leaves position and signal unset. */
    method CalculateRangeAndPosition()
      requires Valid()
      modifies this`rangeLow, this`rangeHigh, this`currentPositionPct, this`signal
      ensures Valid()
      ensures swingLow.None? || lastBullishBos.None? ==>
        rangeLow == old(rangeLow) && rangeHigh == old(rangeHigh)
        && currentPositionPct == old(currentPositionPct) && signal == old(signal)
      ensures swingLow.Some? && lastBullishBos.Some? ==>
        var low, high := swingLow.value.low, lastBullishBos.value.swingPrice;
        && rangeLow == Some(low) && rangeHigh == Some(high)
        && if high - low == 0.0 then
             currentPositionPct == old(currentPositionPct) && signal == old(signal)
           else
             && signal == Some(RangeSignalOf(symbol, low, high, data[|data| - 1].close, swingLowBroken,
                                             if weakHigh.Some? then Some(weakHigh.value.price) else None))
             && currentPositionPct == Some(signal.value.positionPct)
    {
      if swingLow.None? || lastBullishBos.None? {
        return;
      }
      var low, high := swingLow.value.low, lastBullishBos.value.swingPrice;
      rangeLow, rangeHigh := Some(low), Some(high);
      var currentPrice := data[|data| - 1].close;
      if high - low == 0.0 {
        return;
      }
      var s := RangeSignalOf(symbol, low, high, currentPrice, swingLowBroken,
                             if weakHigh.Some? then Some(weakHigh.value.price) else None);
      currentPositionPct := Some(s.positionPct);
      signal := Some(s);
    }

    /** The analysis: the five steps in order. An empty series makes the
      weak-high lookup fail, which the model reports as `false`. On a fresh
      scanner the resulting signal is `Analysis` of the series. */
    method Analyze() returns (ok: bool)
      requires Valid()
      modifies this
      ensures Valid()
      ensures ok <==> |data| > 0
      ensures !ok ==> unchanged(this)
      ensures ok ==> weakHigh == Some(WeakHighOf(data))
      ensures old(Initial()) ==> signal == Analysis(symbol, data)
      ensures ok && old(Initial()) ==>
        lastBullishBos == LastBos(data, SwingHighs(data, SwingLookback), WeakHighOf(data).index)
      ensures ok && old(Initial()) ==>
        swingLow == if lastBullishBos.Some? && lastBullishBos.value.swingIndex < WeakHighOf(data).index
                    then Some(AnchorOf(data, lastBullishBos.value.swingIndex, WeakHighOf(data).index))
                    else None
      ensures ok && old(Initial()) ==>
        swingLowBroken == (swingLow.Some? && ClosesBelowFrom(data, WeakHighOf(data).index, swingLow.value.low))
      ensures ok && old(Initial()) ==>
        && rangeLow == (if swingLow.Some? then Some(swingLow.value.low) else None)
        && rangeHigh == (if swingLow.Some? && lastBullishBos.Some? then Some(lastBullishBos.value.swingPrice) else None)
        && currentPositionPct == (if signal.Some? then Some(signal.value.positionPct) else None)
    {
      if |data| == 0 {
        return false;
      }
      ghost var initial := Initial();
      ghost var wh := WeakHighOf(data);
      ghost var last := LastBos(data, SwingHighs(data, SwingLookback), wh.index);
      FindWeakHigh();
      assert weakHigh == Some(wh);
      FindLastBullishBos();
      assert weakHigh == Some(wh);
      assert initial ==> lastBullishBos == last && swingLow.None? && !swingLowBroken && signal.None?;
      FindSwingLowInRange();
      assert weakHigh == Some(wh);
      ghost var anchor := swingLow;
      assert initial ==>
        anchor == if last.Some? && last.value.swingIndex < wh.index
                  then Some(AnchorOf(data, last.value.swingIndex, wh.index)) else None;
      CheckSwingLowBreak();
      assert weakHigh == Some(wh) && swingLow == anchor;
      assert initial ==> lastBullishBos == last;
      assert initial ==>
        swingLowBroken == (anchor.Some? && ClosesBelowFrom(data, wh.index, anchor.value.low));
      CalculateRangeAndPosition();
      if initial {
        if last.Some? && last.value.swingIndex < wh.index {
          assert swingLow == Some(AnchorOf(data, last.value.swingIndex, wh.index));
        } else {
          assert swingLow.None? && signal.None?;
        }
        assert signal == AnalysisFrom(symbol, data, wh, last);
      }
      return true;
    }

    /** The signal record, if one was built. */
    method GetSignalJson() returns (r: Option<RangeSignal>)
      ensures r == signal
    {
      r := signal;
    }
  }
}
