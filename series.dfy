/** Bar series: the ordered OHLCV input every analysis consumes, and the
    scans over it that the analyses share (first bar closing beyond a level,
    first highest High, first lowest Low). The bar index stands for time:
    the exchange's timestamps increase strictly, so comparing timestamps is
    comparing indices. */
module Series {

  datatype Option<T> = None | Some(value: T)

  /** One candle. Prices are modelled as exact reals, not floats. */
  datatype Bar = Bar(open: real, high: real, low: real, close: real, volume: real)

  /** Every candle has its Low at or below its High. */
  ghost predicate WellFormed(bars: seq<Bar>) {
    forall i :: 0 <= i < |bars| ==> bars[i].low <= bars[i].high
  }

  function Abs(x: real): (r: real)
    ensures r >= 0.0 && (r == x || r == -x)
  {
    if x < 0.0 then -x else x
  }

  /** Which way a close has to cross a level to count as a break. */
  datatype Side = Above | Below

  /** `x` is strictly beyond `level` on `side`. */
  predicate Beyond(x: real, level: real, side: Side) {
    match side
    case Above => x > level
    case Below => x < level
  }

  /** `j` is the first bar in `[from, |bars|)` whose Close is beyond `level`. */
  ghost predicate FirstBeyondAt(bars: seq<Bar>, from: int, j: int, level: real, side: Side) {
    && 0 <= from <= j < |bars|
    && Beyond(bars[j].close, level, side)
    && forall k :: from <= k < j ==> !Beyond(bars[k].close, level, side)
  }

  /** The first bar in `[from, to)` whose Close is strictly beyond `level`,
      scanning forward and stopping at the first hit. */
  function FirstCloseBeyond(bars: seq<Bar>, from: nat, to: nat, level: real, side: Side): (r: Option<nat>)
    requires to <= |bars|
    ensures r.Some? ==> from <= r.value < to && FirstBeyondAt(bars, from, r.value, level, side)
    ensures r.None? <==> (forall k :: from <= k < to ==> !Beyond(bars[k].close, level, side))
    decreases if from < to then to - from else 0
  {
    if from >= to then None
    else if Beyond(bars[from].close, level, side) then Some(from)
    else FirstCloseBeyond(bars, from + 1, to, level, side)
  }

  /** Position of the highest High, the first one on ties (pandas idxmax). */
  function FirstArgMaxHigh(bars: seq<Bar>): (k: nat)
    requires |bars| > 0
    ensures k < |bars|
    ensures forall j :: 0 <= j < |bars| ==> bars[j].high <= bars[k].high
    ensures forall j :: 0 <= j < k ==> bars[j].high < bars[k].high
  {
    if |bars| == 1 then 0
    else
      var k := FirstArgMaxHigh(bars[..|bars| - 1]);
      if bars[|bars| - 1].high > bars[k].high then |bars| - 1 else k
  }

  /** The highest High of a non-empty window (pandas max). */
  function HighestHigh(w: seq<Bar>): (m: real)
    requires |w| > 0
    ensures forall j :: 0 <= j < |w| ==> w[j].high <= m
    ensures exists j :: 0 <= j < |w| && w[j].high == m
  {
    w[FirstArgMaxHigh(w)].high
  }

  /** Position of the lowest Low in the inclusive window `[lo, hi]`, the
      first one on ties (pandas idxmin). */
  function FirstArgMinLow(bars: seq<Bar>, lo: nat, hi: nat): (k: nat)
    requires lo <= hi < |bars|
    ensures lo <= k <= hi
    ensures forall j :: lo <= j <= hi ==> bars[k].low <= bars[j].low
    ensures forall j :: lo <= j < k ==> bars[k].low < bars[j].low
    decreases hi - lo
  {
    if lo == hi then lo
    else
      var k := FirstArgMinLow(bars, lo, hi - 1);
      if bars[hi].low < bars[k].low then hi else k
  }

  /** The lowest Low of a non-empty window (pandas min). */
  function LowestLow(w: seq<Bar>): (m: real)
    requires |w| > 0
    ensures forall j :: 0 <= j < |w| ==> m <= w[j].low
    ensures exists j :: 0 <= j < |w| && w[j].low == m
  {
    w[FirstArgMinLow(w, 0, |w| - 1)].low
  }

  function OptionToSeq<T>(o: Option<T>): seq<T> {
    if o.Some? then [o.value] else []
  }

  /** The present values of a sequence of optional results, in order: a
      list built by appending one entry per step that produced a result. */
  function Somes<T>(os: seq<Option<T>>): (r: seq<T>)
    ensures |r| <= |os|
    decreases |os|
  {
    if os == [] then [] else Somes(os[..|os| - 1]) + OptionToSeq(os[|os| - 1])
  }

  /** Membership in the collected list is presence in the step results. */
  lemma {:induction false} SomesMembership<T>(os: seq<Option<T>>)
    ensures forall x :: x in Somes(os) <==> Some(x) in os
    decreases |os|
  {
    if os != [] {
      var init := os[..|os| - 1];
      SomesMembership(init);
      assert os == init + [os[|os| - 1]];
    }
  }

  /** The collected list is empty exactly when no step produced a result. */
  lemma {:induction false} SomesEmpty<T>(os: seq<Option<T>>)
    ensures Somes(os) == [] <==> forall m :: 0 <= m < |os| ==> os[m].None?
    decreases |os|
  {
    if os != [] {
      var init := os[..|os| - 1];
      SomesEmpty(init);
      assert Somes(os) == Somes(init) + OptionToSeq(os[|os| - 1]);
      if forall m :: 0 <= m < |os| ==> os[m].None? {
        assert forall m :: 0 <= m < |init| ==> init[m] == os[m];
      }
    }
  }

  /** The last entry of a non-empty collected list comes from the last step
      that produced a result. */
  lemma {:induction false} LastSomeIsLatest<T>(os: seq<Option<T>>) returns (m: nat)
    requires Somes(os) != []
    ensures m < |os| && os[m] == Some(Somes(os)[|Somes(os)| - 1])
    ensures forall m' :: m < m' < |os| ==> os[m'].None?
    decreases |os|
  {
    var n := |os|;
    var init := os[..n - 1];
    assert Somes(os) == Somes(init) + OptionToSeq(os[n - 1]);
    if os[n - 1].Some? {
      m := n - 1;
    } else {
      m := LastSomeIsLatest(init);
      assert os[m] == init[m];
    }
  }

  /** Comparing a quotient by a positive size with `c` is comparing the
      numerator with `c` times the size. */
  lemma QuotientOrder(x: real, size: real, c: real)
    requires size > 0.0
    ensures x / size < c <==> x < c * size
    ensures x / size <= c <==> x <= c * size
  {
  }

  /** A non-zero factor cancels. */
  lemma MulCancel(a: real, b: real, c: real)
    requires c != 0.0 && a * c == b * c
    ensures a == b
  {
  }

  /** Where a quotient by a positive size lies, from where its numerator lies. */
  lemma RatioBounds(x: real, size: real)
    ensures size > 0.0 && 0.0 <= x ==> 0.0 <= x / size
    ensures size > 0.0 && x <= size ==> x / size <= 1.0
    ensures size > 0.0 && x < 0.0 ==> x / size < 0.0
    ensures size > 0.0 && x > size ==> x / size > 1.0
    ensures size > 0.0 && 2.0 * x < size ==> x / size < 0.5
  {
    if size > 0.0 {
      QuotientOrder(x, size, 0.0);
      QuotientOrder(x, size, 1.0);
      QuotientOrder(x, size, 0.5);
    }
  }

  /** The three percentage formulas of the range position agree: measured
      from the range low, from the range high above, and as a deficit below. */
  lemma PercentForms(low: real, high: real, p: real)
    requires high != low
    ensures 100.0 + (p - high) / (high - low) * 100.0 == (p - low) / (high - low) * 100.0
    ensures -((low - p) / (high - low) * 100.0) == (p - low) / (high - low) * 100.0
  {
    var size := high - low;
    var q1, q2, q3 := (p - high) / size, (p - low) / size, (low - p) / size;
    assert q1 * size == p - high;
    assert q2 * size == p - low;
    assert q3 * size == low - p;
    MulCancel(1.0 + q1, q2, size);
    MulCancel(-q3, q2, size);
  }
}
