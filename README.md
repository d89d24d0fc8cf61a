# Market-structure signal engine, in Dafny

This project models the market-structure part of a crypto trading scanner.
The scanner turns a series of OHLC candles into structure events and
trading signals in three places:

- **Range scanner** (`SimplifiedSMC` in `primary_test.py`). It runs five steps:
  - find the *weak high*, the highest High of the series;
  - find the last *bullish break of structure* (BOS) before it: a 5-bar swing high that a later close exceeds, no later than the weak-high bar;
  - take the *range anchor*, the lowest Low between the BOS swing bar and the weak-high bar;
  - flag the range as *broken* when a close from the weak-high bar on falls below the anchor;
  - place the last close inside, above or below the range, with a BUY flag when it sits in the lower half of an unbroken range.

  A filter over the results (`save_short_alarm_signals`) then picks the 4h results whose weak high lies far above the range high.
- **Long-entry analyzer** (`CHOCHAnalyzer` in `entry_long_signal.py`). It detects swing lows and highs with a chosen lookback. A *bullish change of character* (CHOCH) is a swing low below the previous swing low, followed by a close above the first swing high after it. The analyzer reports the last CHOCH whose level is within a distance bound of the last close.
- **Short-entry analyzer** (`BearishCHOCHAnalyzer` in `entry_short_signal.py`). It is the mirror of the long side: a higher swing high, then a close below the first swing low after it.

Each source class becomes a Dafny `class` with the source's fields. Its methods set those fields step by step (`modifies`), with loops and invariants where the source loops. Each method is proved against a pure specification function, and lemmas state what the source promises about that function.

Files:

| File | Module | Contents |
|---|---|---|
| `series.dfy` | `Series` | candles, shared scans (first close beyond a level, first arg-max/arg-min), helpers |
| `swings.dfy` | `Swings` | swing-point tests and the detection loop shared by all three classes |
| `range_analysis.dfy` | `RangeAnalysis` | the range scanner: `SimplifiedSmc` and its specification |
| `short_alarm.dfy` | `ShortAlarms` | the short-alarm selection |
| `choch.dfy` | `Choch` | CHOCH detection and the active-signal check, for both directions |
| `entry_long.dfy` | `LongEntry` | `ChochAnalyzer` |
| `entry_short.dfy` | `ShortEntry` | `BearishChochAnalyzer` |

Conventions:

- The bar index stands for time. The exchange's timestamps strictly increase, so the source's timestamp comparisons are index comparisons.
- Prices are exact `real`s.

## Model

| member | source | states |
|---|---|---|
| Series.FirstArgMaxHigh | primary_test.py:66-67 | the position of a highest High, and the first one on ties (no earlier bar reaches it) |
| Series.FirstArgMinLow | primary_test.py:143-144 | the position of a lowest Low in an inclusive window, and the first one on ties |
| Series.FirstCloseBeyond | primary_test.py:103-119 | the first bar of a range closing strictly beyond a level; none exactly when no bar of the range does |
| Swings.WindowSwingHighIsStrictMaximum | primary_test.py:77-82 | the pandas window test (High above the max of the windows on both sides) holds iff the High is strictly above every High within the lookback; a zero lookback never passes |
| Swings.WindowSwingLowIsStrictMinimum | entry_long_signal.py:63-69 | the window test on Lows holds iff the Low is strictly below every Low within the lookback |
| Swings.SwingHighsIn | entry_long_signal.py:76-86 | the swing highs among the examined bars before `k`: exactly the bars passing the test, each with its own High, in ascending index order |
| Swings.SwingLowsIn | entry_long_signal.py:63-74 | the same for swing lows |
| Swings.SwingHighs | primary_test.py:77-88 | all swing highs: each index lies in `[lookback, n - lookback)` with a strictly highest High in its window, the list ascends, and every such bar is listed |
| Swings.SwingLows | entry_long_signal.py:63-74 | all swing lows: strict window minima, ascending, complete |
| Swings.IsSwingHigh | entry_long_signal.py:77-81 | the per-bar swing-high test holds iff the bar is a swing high |
| Swings.IsSwingLow | entry_long_signal.py:65-69 | the per-bar swing-low test holds iff the bar is a swing low |
| Swings.DetectSwingPoints | entry_long_signal.py:58-86 | the detection loop returns exactly the swing lows and the swing highs, starting from empty lists |
| Swings.NoSwingHighsIn | entry_long_signal.py:76-86 | no examined bar passing the high test gives an empty list |
| Swings.NoSwingLowsIn | entry_long_signal.py:63-74 | no examined bar passing the low test gives an empty list |
| Swings.FlatSeriesHasNoSwings | entry_long_signal.py:63-86 | a series whose bars all share one High and one Low has no swing point of either kind |
| Swings.RisingLowsHaveNoSwingLows | entry_long_signal.py:63-74 | strictly rising Lows give no swing low |
| Swings.FallingHighsHaveNoSwingHighs | entry_long_signal.py:76-86 | strictly falling Highs give no swing high |
| RangeAnalysis.WeakHighOf | primary_test.py:63-69 | the weak high is the maximum High over all bars, at the first bar attaining it |
| RangeAnalysis.BosOf | primary_test.py:93-119 | a BOS recorded for a swing carries that swing's price and index |
| RangeAnalysis.BosOfCharacterised | primary_test.py:99-119 | a swing has a BOS iff it is strictly before the weak-high bar and some later bar, at or before it, closes strictly above it; the BOS is the first such bar and its close |
| RangeAnalysis.BosOfAt | primary_test.py:103-119 | when bar `j` is the first bar after the swing, at or before the bound, closing above it, the BOS is built from bar `j` |
| RangeAnalysis.BosOfNone | primary_test.py:99-110 | a swing at or after the weak high, or one no close up to the bound exceeds, has no BOS |
| RangeAnalysis.BosEvents | primary_test.py:93-119 | the BOS list of the outer loop, at most one entry per swing high; which entries it holds is stated by `BosEventsMembership`, and how it grows by `BosEventsSnoc` |
| RangeAnalysis.BosEventsMembership | primary_test.py:93-119 | the BOS list holds exactly the BOS of each swing high that has one |
| RangeAnalysis.BosEventsSnoc | primary_test.py:93-119 | scanning one more swing appends its BOS, if any, to the list |
| RangeAnalysis.LastBos | primary_test.py:121-123 | the last entry of the BOS list, if any; its meaning is stated by `LastBosAbsent`, `LastBosSource` and `LastBosIsLastBrokenSwing` |
| RangeAnalysis.LastBosAbsent | primary_test.py:121-123 | there is no last BOS exactly when no swing high has one |
| RangeAnalysis.LastBosSource | primary_test.py:121-123 | the last BOS comes from a swing high whose later swings all have no BOS |
| RangeAnalysis.LaterSwingsUnbroken | primary_test.py:93-119 | swing highs after the source swing and before the bound are never closed above by the bound |
| RangeAnalysis.LastBosIsLastBrokenSwing | primary_test.py:90-123 | the last BOS is a swing high strictly before the bound, broken by the first later close above it at or before the bound, with no later swing high broken in time |
| RangeAnalysis.AnchorOf | primary_test.py:125-155 | the anchor is the first bar with the lowest Low of the window from the BOS swing to the weak high, both ends included, copied whole |
| RangeAnalysis.ClosesBelowFrom | primary_test.py:157-178 | true iff some close from the weak-high bar (inclusive) to the end is strictly below the level |
| RangeAnalysis.PositionIn | primary_test.py:192-213 | the three-way split: in range iff `low <= p <= high`; above iff `p > high`; below iff `p < low`; the percentage lies in `[0, 100]`, above 100 or below 0 accordingly, always `(p - low) / size * 100` |
| RangeAnalysis.RangeSignalOf | primary_test.py:215-233 | the record carries the range, its midpoint and the position; BUY iff in range, below the midpoint and not broken; a broken range is never BUY |
| RangeAnalysis.AnalysisParts | primary_test.py:180-233 | a reported range has the last BOS's swing price as top, the anchor Low as bottom, and the close scan from the weak-high bar as its broken flag |
| RangeAnalysis.AnalysisRangeHighIsLastBrokenSwing | primary_test.py:90-123 | the range top is the High of a swing high before the weak high that some bar up to the weak-high bar closed above, and no later swing high was broken in time |
| RangeAnalysis.AnalysisFrom | primary_test.py:125-233 | the steps after the BOS search, each guarded by the previous one's result; a reported range comes from the given BOS and weak high |
| RangeAnalysis.Analysis | primary_test.py:235-255 | what one analysis of a fresh scanner yields: none for an empty series, when no swing high is broken by the weak-high bar, or when the range has zero size; otherwise the signal record of the symbol at the last close. Its parts are stated by `AnalysisParts`, `AnalysisRangeHighIsLastBrokenSwing`, `AnalysisRangeIsOrdered`, `AnalysisInvalidation` and `WellFormedBosGivesSignal` |
| RangeAnalysis.AnalysisRangeIsOrdered | primary_test.py:186-187 | over candles with Low at or below High, the range low is strictly below the range high |
| RangeAnalysis.WellFormedBosGivesSignal | primary_test.py:180-199 | over candles with Low at or below High, a last BOS before the weak high always yields a signal: the range never has zero size |
| RangeAnalysis.AnalysisInvalidation | primary_test.py:157-178 | the range is broken iff some close from the weak-high bar on is below the range low, and a broken range yields NO_SIGNAL |
| RangeAnalysis.FlatSeriesHasNoRange | primary_test.py:71-123 | a flat series has no swing high, hence no BOS and no signal |
| RangeAnalysis.SimplifiedSmc.constructor | primary_test.py:11-23 | every result field starts empty and the broken flag false |
| RangeAnalysis.SimplifiedSmc.FindWeakHigh | primary_test.py:63-69 | records the weak high of the series |
| RangeAnalysis.SimplifiedSmc.FindLastBullishBos | primary_test.py:71-123 | records the last BOS bounded by the recorded weak high, and leaves the field as it was when there is none |
| RangeAnalysis.SimplifiedSmc.CollectBos | primary_test.py:93-119 | the outer BOS loop returns the BOS list of the swing highs |
| RangeAnalysis.SimplifiedSmc.AppendBreak | primary_test.py:99-119 | the inner break scan appends exactly the swing's BOS, if any |
| RangeAnalysis.SimplifiedSmc.FindSwingLowInRange | primary_test.py:125-155 | records the anchor when the BOS swing bar is strictly before the weak-high bar, else leaves the field |
| RangeAnalysis.SimplifiedSmc.CheckSwingLowBreak | primary_test.py:157-178 | raises the flag iff a close from the weak-high bar on is below the anchor Low; never clears it |
| RangeAnalysis.SimplifiedSmc.CalculateRangeAndPosition | primary_test.py:180-233 | sets the range bounds, then the position and the signal record of the last close |
| RangeAnalysis.SimplifiedSmc.Analyze | primary_test.py:235-255 | runs the five steps in order and records the weak high; on a fresh scanner the last BOS is the specification's, the anchor is set iff that BOS swing is before the weak high, the broken flag is the close scan below the anchor, the range bounds come from the anchor and the BOS, the position from the signal, and the signal is the specification `Analysis` of the series; an empty series fails and changes nothing |
| RangeAnalysis.SimplifiedSmc.GetSignalJson | primary_test.py:257-259 | returns the recorded signal, if any |
| ShortAlarms.DistanceRatio | primary_test.py:409-410 | the ratio is non-negative for a positive range high and non-positive otherwise (zero for a zero range high) |
| ShortAlarms.AlarmOf | primary_test.py:412-420 | the alarm record carries the symbol, interval, range high, weak high and last close of its result, and the distance `abs(range_high - weak_high) / range_high * 100` (zero for a zero range high); a kept result's alarm is more than 50 percent away |
| ShortAlarms.KeepsShortAlarm | primary_test.py:402-411 | the selection test on one result, as written with the ratio; `KeepsShortAlarmIff` states it without the division |
| ShortAlarms.ShortAlarmsOf | primary_test.py:401-420 | at most one alarm per result |
| ShortAlarms.KeepsShortAlarmIff | primary_test.py:402-411 | a result is kept iff it is on the 4h chart, has a weak high, a positive range high, and a weak high more than half the range high away; a zero range high is never kept |
| ShortAlarms.ShortAlarmsMembership | primary_test.py:401-420 | an alarm is listed iff some kept result yields it; every alarm is on the 4h chart and more than 50 percent away |
| ShortAlarms.ShortAlarmsEmpty | primary_test.py:401-420 | no alarm is recorded iff no result is kept |
| ShortAlarms.SaveShortAlarmSignals | primary_test.py:394-420 | the selection loop returns the alarms of the kept results, in order |
| Choch.FirstPivotAfter | entry_long_signal.py:103-104 | the first pivot, in list order, whose bar comes after the origin bar; none iff no pivot does |
| Choch.PairEvent | entry_long_signal.py:96-121 | an event of a pair carries its direction, the newer origin's price, the level as pivot price, and a break bar inside the series with its close |
| Choch.PairEventCharacterised | entry_long_signal.py:101-120 | a pair yields an event iff it continues the trend and some later close breaks the first pivot after it; the level is that pivot and the break bar the first close beyond it |
| Choch.ChochEventsUpTo | entry_long_signal.py:96-121 | at most one event per pair examined so far |
| Choch.ChochEvents | entry_long_signal.py:88-121 | empty with fewer than 2 origins or 2 pivots; at most (origins - 1) events; each breaks inside the series |
| Choch.ChochEventsUpToMembership | entry_long_signal.py:96-121 | an event is listed iff some pair before `n` yields it |
| Choch.ChochEventsMembership | entry_short_signal.py:88-121 | an event is listed iff there are enough swings and some consecutive pair yields it |
| Choch.ChochEventOrigin | entry_short_signal.py:96-120 | every listed event comes from a pair continuing the trend, takes the first pivot after the newer origin as level, and breaks at the first close beyond it |
| Choch.FirstPivotIsFirstInTime | entry_long_signal.py:103-104 | in an ascending pivot list, the first pivot after the origin in list order is also the first in time |
| Choch.NoContinuationUpTo | entry_long_signal.py:96-101 | with no pair continuing the trend before `n`, no event is listed |
| Choch.NoContinuationNoEvents | entry_long_signal.py:96-101 | if the origin swings never move in the trend direction there is no event |
| Choch.FlatSeriesHasNoChoch | entry_long_signal.py:58-121 | a flat series has no CHOCH in either direction |
| Choch.AppendPairEvent | entry_long_signal.py:97-121 | the pivot loop and break loop of one pair append exactly that pair's event |
| Choch.PivotSearchFrom | entry_long_signal.py:103-104 | the pivot search lands on the first pivot after the origin |
| Choch.FirstCloseBeyondAt | entry_long_signal.py:108-120 | the close scan lands on the first close beyond the level |
| Choch.DetectChoch | entry_long_signal.py:88-121 | the detection loops return exactly the event list |
| Choch.DistancePct | entry_long_signal.py:133 | the distance from a non-zero level is `abs(p - level) / abs(level) * 100`: non-negative, and zero iff the price is at the level |
| Choch.IsActive | entry_long_signal.py:133-135 | an event is active when its level is non-zero and the last close is within the distance bound; its consequences are stated by `LastActiveWithinBound` and `LastActiveMonotone` |
| Choch.ActiveSignalOf | entry_long_signal.py:136-146 | the signal record carries the symbol, the event's direction, level and break bar, the last close, the distance `abs(p - level) / abs(level) * 100`, the bound, and the interval tag (the short side passes its interval, entry_short_signal.py:146); the record's distance is within the bound iff the event is active |
| Choch.ActiveSignals | entry_long_signal.py:129-148 | at most one active signal per event |
| Choch.LastActive | entry_long_signal.py:149-150 | the reported signal, the last active one in list order; its meaning is stated by `LastActiveAbsent` and `LastActiveSource` |
| Choch.LastActiveAbsent | entry_long_signal.py:149-150 | no signal is returned iff no event is within the distance bound |
| Choch.LastActiveSource | entry_long_signal.py:131-150 | a returned signal is built from an active event with no active event after it in list order |
| Choch.LastActiveWithinBound | entry_long_signal.py:133-135 | a returned signal has a non-zero level, its distance within the bound, and the last close as current price |
| Choch.LastActiveMonotone | entry_long_signal.py:133-135 | raising the distance bound never turns a returned signal into none |
| Choch.CollectActive | entry_short_signal.py:129-151 | the active-signal loop returns the last active signal |
| LongEntry.BullishEventFromLowerLow | entry_long_signal.py:96-121 | each bullish event comes from a swing low strictly below the previous one; its level is the High of the first swing high in time after it; its break bar is the first later close strictly above the level |
| LongEntry.ChochAnalyzer.constructor | entry_long_signal.py:13-21 | the swing lists and the event list start empty |
| LongEntry.ChochAnalyzer.FindSwingPoints | entry_long_signal.py:58-86 | resets and records exactly the swing lows and swing highs |
| LongEntry.ChochAnalyzer.DetectBullishChoch | entry_long_signal.py:88-121 | resets and records exactly the bullish events of the recorded swings |
| LongEntry.ChochAnalyzer.CheckActiveSignals | entry_long_signal.py:123-150 | none without events; otherwise the last event within the bound of the last close |
| ShortEntry.BearishEventFromHigherHigh | entry_short_signal.py:96-121 | each bearish event comes from a swing high strictly above the previous one; its level is the Low of the first swing low in time after it; its break bar is the first later close strictly below the level |
| ShortEntry.BearishChochAnalyzer.constructor | entry_short_signal.py:13-21 | the swing lists and the event list start empty |
| ShortEntry.BearishChochAnalyzer.FindSwingPoints | entry_short_signal.py:58-86 | resets and records exactly the swing lows and swing highs |
| ShortEntry.BearishChochAnalyzer.DetectBearishChoch | entry_short_signal.py:88-121 | resets and records exactly the bearish events, swing highs as origins and swing lows as pivots |
| ShortEntry.BearishChochAnalyzer.CheckActiveSignals | entry_short_signal.py:123-151 | none without events; otherwise the last event within the bound, tagged with the chart interval |

## Left out

- Fetching candles over HTTP and building the pandas frame (`fetch_binance_data` in all three files). The series is an input `seq<Bar>`.
- Analyze: a failed fetch is not modelled. An empty series is reported as `false`; in the source the weak-high lookup raises on an empty frame.
- The `limit` constructor parameter (the fetch size) and the long/short analyzers' unused `last_choch` field.
- Coin-list loaders, the alarm-file loader, the scan loops over all coins, JSON file writes, console output and `time.sleep`. This covers `scan_all_coins`, `load_coins_config`, `load_coins_from_json`, `load_alarm_files` and `analyze_coins_for_entry`.
- SaveShortAlarmSignals: the file name parameter and the write of the alarm file. The alarms are returned instead.
- The network-driven combinators `check_coin_above_range`, `get_long_signals_from_primary` and `analyze_all_coins_for_signals`. They build analyzers over live data and apply the modelled decisions.
- `main.py` (process orchestration, upload, scheduling) and `coins_async.py` (asynchronous fetching with retries) as a whole.
- Rounding of prices and percentages, and the `datetime.now()` and break time stamps in the output records. Signals carry the break bar index instead of its time stamp.
- Status strings are the enumeration `Status`, and the signal string is `Verdict`.
- RangeAnalysis.SimplifiedSmc.CalculateRangeAndPosition: a zero-size range divides by zero in the source, and numpy then yields an infinite or undefined position that still ends up in a signal. The model sets the bounds and records no position and no signal. This needs a candle with Low above High: over well-formed candles the range never has zero size (`WellFormedBosGivesSignal`).
- Choch.IsActive: a zero CHOCH level gives an infinite or undefined distance in numpy, which never compares as within the bound. The model treats such an event as never active, without modelling the special float values.
- ShortAlarms.ScanResult: the source tests `range_high` for null; the range signal always carries a range high, so only the weak high is optional.
- RangeAnalysis.SimplifiedSmc.FindLastBullishBos: it reuses the shared detector, which also computes the swing lows; they are discarded.
- The default arguments `lookback=5` of `find_swing_points` and `distance_pct=2.0` of `check_active_signals` are not modelled: both are explicit parameters here, as every caller passes them.
- Duplicate events: the same pivot can yield events for several pairs. The model keeps them, as the source does; no lemma rules them out.
