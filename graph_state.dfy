/**
 * The time-window state machine of the chart component: its state, the record of
 * parameters it hands to the data-fetch callback, and one pure transition function per
 * state-changing handler. Times in the state are milliseconds (JavaScript numbers,
 * modelled as exact reals); resolutions carry their candle length in seconds.
 */
module GraphState {
  import opened Wrappers
  import opened JsString
  import opened JsObject

  /** A candle length in whole seconds; every entry of the resolution registry has one. */
  type Seconds = n: int | 0 < n witness 1

  /** An entry of the resolution registry: the enum value sent to the query and the candle length. */
  datatype Resolution = Resolution(value: string, seconds: Seconds)

  /** The component's local state. `charts` maps a series name to its visibility flag. */
  datatype ChartState = ChartState(
    startTime: real,
    endTime: real,
    resolution: Resolution,
    charts: map<string, bool>,
    selectedExchange: string)

  /**
   * The record passed to the data-fetch callback: only the keys that are present are sent.
   * Times are in unix seconds, the resolution is its enum value.
   */
  datatype FetchParams = FetchParams(startTime: Option<real>, endTime: Option<real>, resolution: Option<string>)

  /** The new state after a handler and the fetch it issued, if any. */
  datatype Step = Step(state: ChartState, fetch: Option<FetchParams>)

  /** `moment(ms).unix()`: the whole seconds of a millisecond time, rounded down. */
  function Unix(ms: int): (secs: int)
    ensures secs * 1000 <= ms < secs * 1000 + 1000
  {
    ms / 1000
  }

  /** The guard both window setters use: a millisecond span compared with a count of seconds. */
  predicate SpanExceedsResolution(span: real, res: Resolution) {
    span > res.seconds as real
  }

  /** Candles spanned by the window: milliseconds to seconds, then divided by the candle length. */
  function CandleCount(s: ChartState): real {
    (s.endTime - s.startTime) / 1000.0 / s.resolution.seconds as real
  }

  /**
   * The state set up at construction, from the clock readings (whole unix seconds) of the
   * window's two ends and the daily registry entry. Only the volume and VWA series are in the
   * visibility map, so every exchange series starts hidden.
   */
  function InitialState(startUnix: int, endUnix: int, res: Resolution): (s: ChartState)
    ensures s.startTime == startUnix as real * 1000.0 && s.endTime == endUnix as real * 1000.0
    ensures s.resolution == res && s.selectedExchange == ""
    ensures Truthy(s.charts, "volume") && Truthy(s.charts, "VWA")
    ensures forall k :: k != "volume" && k != "VWA" ==> !Truthy(s.charts, k)
  {
    ChartState(startUnix as real * 1000.0, endUnix as real * 1000.0, res,
               map["volume" := true, "VWA" := true], "")
  }

  /**
   * `updateStartTime(t)`: rejected without a fetch when `endTime - t` does not exceed the
   * resolution's seconds; otherwise the start becomes `t` cut to whole seconds and the new
   * window is fetched.
   */
  function UpdateStartTime(s: ChartState, t: int): (r: Step)
    ensures r.fetch.None? <==> !SpanExceedsResolution(s.endTime - t as real, s.resolution)
    ensures r.fetch.None? ==> r.state == s
    ensures r.fetch.Some? ==>
      && r.state == s.(startTime := r.state.startTime)
      && r.state.startTime <= t as real < r.state.startTime + 1000.0
      && r.fetch.value == FetchParams(Some(Unix(t) as real), Some(s.endTime / 1000.0), None)
      && r.state.startTime == Unix(t) as real * 1000.0
      && SpanExceedsResolution(r.state.endTime - r.state.startTime, r.state.resolution)
  {
    if !SpanExceedsResolution(s.endTime - t as real, s.resolution) then Step(s, None)
    else
      var startTime := Unix(t);
      Step(s.(startTime := startTime as real * 1000.0),
           Some(FetchParams(Some(startTime as real), Some(s.endTime / 1000.0), None)))
  }

  /**
   * `updateEndTime(t)`: the mirror image of `UpdateStartTime`. Cutting `t` to whole seconds
   * moves the end earlier, so the accepted window can be up to a second shorter than the one
   * the guard looked at (see `EndTruncationCanUndercutGuard`).
   */
  function UpdateEndTime(s: ChartState, t: int): (r: Step)
    ensures r.fetch.None? <==> !SpanExceedsResolution(t as real - s.startTime, s.resolution)
    ensures r.fetch.None? ==> r.state == s
    ensures r.fetch.Some? ==>
      && r.state == s.(endTime := r.state.endTime)
      && r.state.endTime <= t as real < r.state.endTime + 1000.0
      && r.fetch.value == FetchParams(Some(s.startTime / 1000.0), Some(Unix(t) as real), None)
      && r.state.endTime == Unix(t) as real * 1000.0
      && SpanExceedsResolution(r.state.endTime + 1000.0 - r.state.startTime, r.state.resolution)
  {
    if !SpanExceedsResolution(t as real - s.startTime, s.resolution) then Step(s, None)
    else
      var endTime := Unix(t);
      Step(s.(endTime := endTime as real * 1000.0),
           Some(FetchParams(Some(s.startTime / 1000.0), Some(endTime as real), None)))
  }

  /** Scaling a window by the ratio of candle lengths leaves its candle count unchanged. */
  lemma RescaledWindowKeepsCount(startTime: real, endTime: real, oldSecs: real, newSecs: real)
    requires oldSecs > 0.0 && newSecs > 0.0
    ensures var count := (endTime - startTime) / 1000.0 / oldSecs;
            var newStart := (endTime / 1000.0 - count * newSecs) * 1000.0;
            (endTime - newStart) / 1000.0 / newSecs == count
  {
    var count := (endTime - startTime) / 1000.0 / oldSecs;
    var newStart := (endTime / 1000.0 - count * newSecs) * 1000.0;
    assert endTime - newStart == count * newSecs * 1000.0;
    assert (endTime - newStart) / 1000.0 == count * newSecs;
  }

  /**
   * `updateResolution(res)`: no guard. The end stays put, the start moves so that the window
   * spans as many candles of the new resolution as it did of the old one, and the fetch
   * carries the new start and the new resolution but no end time.
   */
  function UpdateResolution(s: ChartState, res: Resolution): (r: Step)
    ensures r.state == s.(startTime := r.state.startTime, resolution := res)
    ensures CandleCount(r.state) == CandleCount(s)
    ensures r.fetch == Some(FetchParams(Some(r.state.startTime / 1000.0), None, Some(res.value)))
  {
    var currentCandleCount := (s.endTime - s.startTime) / 1000.0 / s.resolution.seconds as real;
    var newStartTime := s.endTime / 1000.0 - currentCandleCount * res.seconds as real;
    RescaledWindowKeepsCount(s.startTime, s.endTime, s.resolution.seconds as real, res.seconds as real);
    Step(s.(resolution := res, startTime := newStartTime * 1000.0),
         Some(FetchParams(Some(newStartTime), None, Some(res.value))))
  }

  /**
   * `toggleChart(entry)`: the legend entry's data key, trimmed, addresses a series; its flag
   * becomes the negation of its truthiness, it becomes the selected series, and nothing else
   * changes. There is no fetch.
   */
  function ToggleChart(s: ChartState, dataKey: string): (r: ChartState)
    ensures var key := Trim(dataKey);
      && key in r.charts
      && Truthy(r.charts, key) == !Truthy(s.charts, key)
      && (forall k :: k != key ==> (k in r.charts <==> k in s.charts))
      && (forall k :: k != key && k in s.charts ==> r.charts[k] == s.charts[k])
      && r.selectedExchange == key
    ensures r.startTime == s.startTime && r.endTime == s.endTime && r.resolution == s.resolution
  {
    var key := Trim(dataKey);
    s.(charts := s.charts[key := !Truthy(s.charts, key)], selectedExchange := key)
  }

  /** `highlightExchange(name)` on legend hover: selects `name` as given, untrimmed. */
  function HighlightExchange(s: ChartState, name: string): (r: ChartState)
    ensures r.selectedExchange == name
    ensures r.(selectedExchange := s.selectedExchange) == s
  {
    s.(selectedExchange := name)
  }

  /** `unhighlightExchange()` when the pointer leaves the legend: clears the selection. */
  function UnhighlightExchange(s: ChartState): (r: ChartState)
    ensures r.selectedExchange == ""
    ensures r.(selectedExchange := s.selectedExchange) == s
  {
    s.(selectedExchange := "")
  }

  /** Toggling the same legend entry twice gives every series back its visibility. */
  lemma ToggleTwiceRestoresVisibility(s: ChartState, dataKey: string)
    ensures var r := ToggleChart(ToggleChart(s, dataKey), dataKey);
            forall k :: Truthy(r.charts, k) == Truthy(s.charts, k)
  {
  }

  /**
   * The window check "span exceeds the resolution" survives a resolution change: the
   * candle count is kept, and the check holds exactly when that count exceeds 1/1000.
   */
  lemma ResolutionKeepsSpanCheck(s: ChartState, res: Resolution)
    requires SpanExceedsResolution(s.endTime - s.startTime, s.resolution)
    ensures var r := UpdateResolution(s, res).state;
            SpanExceedsResolution(r.endTime - r.startTime, r.resolution)
  {
    var r := UpdateResolution(s, res).state;
    SpanCheckIsCount(s);
    SpanCheckIsCount(r);
  }

  lemma SpanCheckIsCount(s: ChartState)
    ensures SpanExceedsResolution(s.endTime - s.startTime, s.resolution) <==> CandleCount(s) > 0.001
  {
    var secs := s.resolution.seconds as real;
    var span := s.endTime - s.startTime;
    var c := CandleCount(s);
    assert c * secs == span / 1000.0;
    assert (c - 0.001) * secs == (span - secs) / 1000.0;
    ProductSign(c - 0.001, secs);
  }

  /** With a positive factor, a product has the sign of the other factor. */
  lemma ProductSign(x: real, y: real)
    requires y > 0.0
    ensures x > 0.0 <==> x * y > 0.0
  {
  }

  /**
   * The guard compares milliseconds with seconds: at daily resolution a 100-second window
   * (one-864th of a candle) is accepted.
   */
  lemma StartGuardAdmitsSubCandleWindow()
    ensures var day := Resolution("_1d", 86400);
            var s := ChartState(0.0, 1000000000.0, day, map[], "");
            var r := UpdateStartTime(s, 999900000);
            r.fetch.Some? && r.state.endTime - r.state.startTime == 100000.0
            && r.state.endTime - r.state.startTime < 86400.0 * 1000.0
  {
  }

  /**
   * Cutting the new end down to whole seconds can leave a window that the same guard
   * would reject: the update is accepted and fetched, yet the stored span no longer
   * exceeds the resolution's seconds.
   */
  lemma EndTruncationCanUndercutGuard()
    ensures var day := Resolution("_1d", 86400);
            var s := ChartState(0.0, 1000000000.0, day, map[], "");
            var r := UpdateEndTime(s, 86900);
            r.fetch.Some? && !SpanExceedsResolution(r.state.endTime - r.state.startTime, r.state.resolution)
  {
  }

  /**
   * A 90-day window at daily resolution switched to hourly resolution becomes a 90-hour
   * window ending at the same time.
   */
  lemma NinetyDaysBecomeNinetyHours(endTime: real, charts: map<string, bool>, selected: string)
    ensures var s := ChartState(endTime - 90.0 * 86400.0 * 1000.0, endTime, Resolution("_1d", 86400), charts, selected);
            var r := UpdateResolution(s, Resolution("_1h", 3600)).state;
            r.endTime == endTime && r.startTime == endTime - 90.0 * 3600.0 * 1000.0
  {
    var s := ChartState(endTime - 90.0 * 86400.0 * 1000.0, endTime, Resolution("_1d", 86400), charts, selected);
    assert CandleCount(s) == 90.0;
  }

  /**
   * The variables the remote query runs with (unix seconds and the resolution's enum value).
   * The fetch callback merges a parameter record into them: a present key replaces, an
   * absent one keeps the previous value.
   */
  datatype QueryVars = QueryVars(startTime: real, endTime: real, resolution: string)

  function Merge(v: QueryVars, p: Option<FetchParams>): QueryVars {
    match p
    case None => v
    case Some(f) =>
      QueryVars(
        if f.startTime.Some? then f.startTime.value else v.startTime,
        if f.endTime.Some? then f.endTime.value else v.endTime,
        if f.resolution.Some? then f.resolution.value else v.resolution)
  }

  /** The query runs on exactly the window and resolution the component shows. */
  predicate Synced(s: ChartState, v: QueryVars) {
    v.startTime * 1000.0 == s.startTime && v.endTime * 1000.0 == s.endTime && v.resolution == s.resolution.value
  }

  /** The query set up beside the component starts on the component's initial state. */
  lemma InitialQuerySynced(startUnix: int, endUnix: int, res: Resolution)
    ensures Synced(InitialState(startUnix, endUnix, res),
                   QueryVars(startUnix as real * 1000.0 / 1000.0, endUnix as real * 1000.0 / 1000.0, res.value))
  {
  }

  /**
   * Each handler sends just enough for the query to follow the state: after merging its
   * fetch (or nothing, when it sends none) the query is still in step with the new state.
   */
  lemma HandlersKeepQuerySynced(s: ChartState, v: QueryVars, t: int, res: Resolution, key: string)
    requires Synced(s, v)
    ensures var r := UpdateStartTime(s, t); Synced(r.state, Merge(v, r.fetch))
    ensures var r := UpdateEndTime(s, t); Synced(r.state, Merge(v, r.fetch))
    ensures var r := UpdateResolution(s, res); Synced(r.state, Merge(v, r.fetch))
    ensures Synced(ToggleChart(s, key), v)
    ensures Synced(HighlightExchange(s, key), v)
    ensures Synced(UnhighlightExchange(s), v)
  {
  }
}
