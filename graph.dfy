/**
 * The chart component itself: its state fields, updated in place by its handlers, and a
 * ghost log of every call it makes to the data-fetch callback.
 */
module Graph {
  import opened Wrappers
  import opened JsString
  import opened JsObject
  import opened GraphState
  import Series

  /** The fetches a step issued: none, or its one parameter record. */
  function Emitted(r: Step): (calls: seq<FetchParams>)
    ensures |calls| <= 1
    ensures calls == [] <==> r.fetch.None?
    ensures r.fetch.Some? ==> calls[0] == r.fetch.value
  {
    match r.fetch
    case None => []
    case Some(p) => [p]
  }

  class GraphComponent {
    var startTime: real
    var endTime: real
    var resolution: Resolution
    var charts: map<string, bool>
    var selectedExchange: string
    /** Every parameter record passed to the data-fetch callback, oldest first. */
    ghost var fetches: seq<FetchParams>

    function State(): ChartState
      reads this
    {
      ChartState(startTime, endTime, resolution, charts, selectedExchange)
    }

    /** The clock readings of the initial window's ends are given in whole unix seconds. */
    constructor (startUnix: int, endUnix: int, initialResolution: Resolution)
      ensures State() == InitialState(startUnix, endUnix, initialResolution)
      ensures fetches == []
    {
      startTime := startUnix as real * 1000.0;
      endTime := endUnix as real * 1000.0;
      resolution := initialResolution;
      charts := map["volume" := true, "VWA" := true];
      selectedExchange := "";
      fetches := [];
    }

    method UpdateStartTime(t: int)
      modifies this
      ensures State() == GraphState.UpdateStartTime(old(State()), t).state
      ensures fetches == old(fetches) + Emitted(GraphState.UpdateStartTime(old(State()), t))
    {
      if endTime - t as real <= resolution.seconds as real {
        return;
      }
      var unix := Unix(t);
      startTime := unix as real * 1000.0;
      fetches := fetches + [FetchParams(Some(unix as real), Some(endTime / 1000.0), None)];
    }

    method UpdateEndTime(t: int)
      modifies this
      ensures State() == GraphState.UpdateEndTime(old(State()), t).state
      ensures fetches == old(fetches) + Emitted(GraphState.UpdateEndTime(old(State()), t))
    {
      if t as real - startTime <= resolution.seconds as real {
        return;
      }
      var unix := Unix(t);
      endTime := unix as real * 1000.0;
      fetches := fetches + [FetchParams(Some(startTime / 1000.0), Some(unix as real), None)];
    }

    method UpdateResolution(res: Resolution)
      modifies this
      ensures State() == GraphState.UpdateResolution(old(State()), res).state
      ensures fetches == old(fetches) + Emitted(GraphState.UpdateResolution(old(State()), res))
    {
      var currentCandleCount := (endTime - startTime) / 1000.0 / resolution.seconds as real;
      var newStartTime := endTime / 1000.0 - currentCandleCount * res.seconds as real;
      resolution, startTime := res, newStartTime * 1000.0;
      fetches := fetches + [FetchParams(Some(newStartTime), None, Some(res.value))];
    }

    method ToggleChart(dataKey: string)
      modifies this
      ensures State() == GraphState.ToggleChart(old(State()), dataKey)
      ensures fetches == old(fetches)
    {
      var key := Trim(dataKey);
      var enabledCharts := charts;
      enabledCharts := enabledCharts[key := !Truthy(enabledCharts, key)];
      charts, selectedExchange := enabledCharts, key;
    }

    method HighlightExchange(name: string)
      modifies this
      ensures State() == GraphState.HighlightExchange(old(State()), name)
      ensures fetches == old(fetches)
    {
      selectedExchange := name;
    }

    method UnhighlightExchange()
      modifies this
      ensures State() == GraphState.UnhighlightExchange(old(State()))
      ensures fetches == old(fetches)
    {
      selectedExchange := "";
    }
  }

  /**
   * Clicking the same legend entry twice renders as merely selecting that entry: every
   * series is drawn or hidden as before, and the entry's trimmed key is the selection.
   */
  lemma ToggleTwiceRendersSame(s: ChartState, dataKey: string, data: Option<Series.Currency>, format: int -> string)
    ensures var r := ToggleChart(ToggleChart(s, dataKey), dataKey);
            Series.Render(data, r.charts, r.selectedExchange, format)
              == Series.Render(data, s.charts, Trim(dataKey), format)
  {
    var r := ToggleChart(ToggleChart(s, dataKey), dataKey);
    ToggleTwiceRestoresVisibility(s, dataKey);
    if data.Some? && |data.value.vwa| > 0 {
      var ms := data.value.markets;
      assert forall name :: Series.SeriesKey(r.charts, name) == Series.SeriesKey(s.charts, name) by {
        forall name ensures Series.SeriesKey(r.charts, name) == Series.SeriesKey(s.charts, name) {
          assert Truthy(r.charts, name) == Truthy(s.charts, name);
        }
      }
      assert Series.MarketLines(ms, r.charts, r.selectedExchange) == Series.MarketLines(ms, s.charts, Trim(dataKey));
    }
  }

  /**
   * Clicking the legend entry of exchange `i` flips whether that exchange's line is drawn,
   * hidden or not, and makes it the one drawn thick.
   */
  lemma LegendClickFlipsLine(s: ChartState, data: Series.Currency, format: int -> string, i: nat)
    requires |data.vwa| > 0 && i < |data.markets|
    requires IsTrimmed(Series.ExchangeName(data.markets[i]))
    ensures var before := Series.Render(Some(data), s.charts, s.selectedExchange, format);
            var r := ToggleChart(s, before.marketLines[i].dataKey);
            var after := Series.Render(Some(data), r.charts, r.selectedExchange, format);
            var name := Series.ExchangeName(data.markets[i]);
            && (after.marketLines[i].dataKey == name <==> before.marketLines[i].dataKey != name)
            && after.marketLines[i].strokeWidth == 3
  {
    var name := Series.ExchangeName(data.markets[i]);
    Series.SeriesKeyTrimsToName(s.charts, name);
  }

  /**
   * Hovering exchange `i`'s legend entry thickens its line exactly when the exchange is
   * visible: hovering a hidden exchange passes its key with the trailing space, which does
   * not thicken that exchange's own line.
   */
  lemma HoverThickensNamedLines(s: ChartState, data: Series.Currency, format: int -> string, i: nat)
    requires |data.vwa| > 0 && i < |data.markets|
    ensures var name := Series.ExchangeName(data.markets[i]);
            var key := Series.SeriesKey(s.charts, name);
            var after := Series.Render(Some(data), s.charts, HighlightExchange(s, key).selectedExchange, format);
            (after.marketLines[i].strokeWidth == 3 <==> Truthy(s.charts, name))
  {
    var name := Series.ExchangeName(data.markets[i]);
    assert name != name + " ";
  }

  /**
   * An exchange named with a leading space (market " X:USD") cannot be shown from its legend:
   * its hidden key " X " trims to "X", so the click toggles and selects "X", and the line
   * " X", whose key and width `Series.Render` takes from `SeriesKey` and `StrokeWidth`, stays
   * hidden and thin.
   */
  lemma UntrimmedNameStaysHidden()
    ensures Series.ExchangeName(Series.Market(" X:USD", [])) == " X"
    ensures var s := InitialState(0, 1000000, Resolution("_1d", 86400));
            var key := Series.SeriesKey(s.charts, " X");
            var r := ToggleChart(s, key);
            && key == " X "
            && r.selectedExchange == "X"
            && Series.SeriesKey(r.charts, " X") == " X "
            && Series.StrokeWidth(r.selectedExchange, " X") == 1
  {
    SpacedNameSplits();
    SpacedKeyTrims();
  }

  lemma SpacedNameSplits()
    ensures SplitHead(" X:USD", ':') == " X"
  {
    assert " X:USD"[1..] == "X:USD";
    assert "X:USD"[1..] == ":USD";
  }

  lemma SpacedKeyTrims()
    ensures Trim(" X ") == "X"
  {
    assert TrimStart(" X ") == "X " by {
      assert " X "[1..] == "X ";
    }
    assert TrimEnd("X ") == "X" by {
      assert "X "[..1] == "X";
    }
  }
}
