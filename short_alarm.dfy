/** The short-alarm selection over the results of a range scan: a result on
    the 4h chart whose weak high lies more than half the range high away
    from the range high becomes a short alarm. */
module ShortAlarms {
  import opened Series
  import opened RangeAnalysis

  /** One scan result: the range signal of a symbol on one chart interval. */
  datatype ScanResult = ScanResult(signal: RangeSignal, interval: string)

  /** A short alarm as recorded (time stamp and rounding left out);
      `distancePct` is the relative distance in percent of the range high. */
  datatype ShortAlarm = ShortAlarm(
    symbol: string,
    interval: string,
    rangeHigh: real,
    weakHigh: real,
    distancePct: real,
    currentPrice: real)

  /** The relative distance of the weak high from the range high, taken as
      zero when the range high is zero. */
  function DistanceRatio(rangeHigh: real, weakHigh: real): (r: real)
    ensures rangeHigh > 0.0 ==> r >= 0.0
    ensures rangeHigh <= 0.0 ==> r <= 0.0
    ensures rangeHigh == 0.0 ==> r == 0.0
  {
    if rangeHigh != 0.0 then Abs(rangeHigh - weakHigh) / rangeHigh else 0.0
  }

  /** The selection test: 4h chart, a weak high present, and a distance
      ratio above one half. */
  predicate KeepsShortAlarm(res: ScanResult) {
    && res.interval == "4h"
    && res.signal.weakHigh.Some?
    && DistanceRatio(res.signal.rangeHigh, res.signal.weakHigh.value) > 0.5
  }

  /** The recorded alarm of a result: its symbol, chart interval, range
      high, weak high and last close, and the distance of the weak high from
      the range high in percent of the range high (zero for a zero range
      high). */
  function AlarmOf(res: ScanResult): (a: ShortAlarm)
    requires res.signal.weakHigh.Some?
    ensures a.symbol == res.signal.symbol && a.interval == res.interval
    ensures a.rangeHigh == res.signal.rangeHigh && a.weakHigh == res.signal.weakHigh.value
    ensures a.currentPrice == res.signal.currentPrice
    ensures res.signal.rangeHigh != 0.0 ==>
      a.distancePct == Abs(res.signal.rangeHigh - res.signal.weakHigh.value) / res.signal.rangeHigh * 100.0
    ensures res.signal.rangeHigh == 0.0 ==> a.distancePct == 0.0
    ensures KeepsShortAlarm(res) ==> a.distancePct > 50.0
  {
    var rh, wh := res.signal.rangeHigh, res.signal.weakHigh.value;
    ShortAlarm(res.signal.symbol, res.interval, rh, wh, DistanceRatio(rh, wh) * 100.0, res.signal.currentPrice)
  }

  /** The alarms of the selected results, in result order. */
  function ShortAlarmsOf(results: seq<ScanResult>): (r: seq<ShortAlarm>)
    ensures |r| <= |results|
    decreases |results|
  {
    if results == [] then []
    else
      var last := results[|results| - 1];
      ShortAlarmsOf(results[..|results| - 1]) + (if KeepsShortAlarm(last) then [AlarmOf(last)] else [])
  }

  /** The selection test without the division: a 4h result is kept exactly
      when the range high is positive and the weak high lies more than half
      of it away; a zero or negative range high is never kept. */
  lemma KeepsShortAlarmIff(res: ScanResult)
    ensures KeepsShortAlarm(res) <==>
      && res.interval == "4h" && res.signal.weakHigh.Some?
      && res.signal.rangeHigh > 0.0
      && Abs(res.signal.rangeHigh - res.signal.weakHigh.value) > res.signal.rangeHigh / 2.0
  {
    if res.signal.weakHigh.Some? && res.signal.rangeHigh > 0.0 {
      var rh, d := res.signal.rangeHigh, Abs(res.signal.rangeHigh - res.signal.weakHigh.value);
      assert DistanceRatio(rh, res.signal.weakHigh.value) == d / rh;
      QuotientOrder(d, rh, 0.5);
    }
  }

  /** Every alarm comes from a kept result, and every kept result yields its
      alarm; an alarm is always on the 4h chart and more than 50 percent away. */
  lemma {:induction false} ShortAlarmsMembership(results: seq<ScanResult>)
    ensures forall a :: a in ShortAlarmsOf(results) <==>
      exists m :: 0 <= m < |results| && KeepsShortAlarm(results[m]) && a == AlarmOf(results[m])
    ensures forall a :: a in ShortAlarmsOf(results) ==> a.interval == "4h" && a.distancePct > 50.0
    decreases |results|
  {
    if results != [] {
      var init := results[..|results| - 1];
      ShortAlarmsMembership(init);
      assert forall m :: 0 <= m < |init| ==> init[m] == results[m];
    }
  }

  /** No alarm is recorded exactly when no result passes the selection. */
  lemma {:induction false} ShortAlarmsEmpty(results: seq<ScanResult>)
    ensures ShortAlarmsOf(results) == [] <==> forall m :: 0 <= m < |results| ==> !KeepsShortAlarm(results[m])
    decreases |results|
  {
    if results != [] {
      var init := results[..|results| - 1];
      ShortAlarmsEmpty(init);
      assert forall m :: 0 <= m < |init| ==> init[m] == results[m];
    }
  }

  /** The selection loop: walk the results in order and append the alarm of
      each kept one (the file write is left out). */
  method SaveShortAlarmSignals(results: seq<ScanResult>) returns (shortSignals: seq<ShortAlarm>)
    ensures shortSignals == ShortAlarmsOf(results)
  {
    shortSignals := [];
    var k := 0;
    while k < |results|
      invariant k <= |results|
      invariant shortSignals == ShortAlarmsOf(results[..k])
    {
      var res := results[k];
      assert results[..k + 1][..k] == results[..k];
      if res.interval == "4h" && res.signal.weakHigh.Some? {
        var rangeHigh, weakHigh := res.signal.rangeHigh, res.signal.weakHigh.value;
        var ratio := if rangeHigh != 0.0 then Abs(rangeHigh - weakHigh) / rangeHigh else 0.0;
        if ratio > 0.5 {
          shortSignals := shortSignals + [ShortAlarm(res.signal.symbol, res.interval, rangeHigh, weakHigh, ratio * 100.0, res.signal.currentPrice)];
        }
      }
      k := k + 1;
    }
    assert results[..k] == results;
  }
}
