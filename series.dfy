/**
 * What `render` derives from the fetched payload: the positional join of the reference
 * (volume-weighted average) series with every exchange's series, the data key and stroke
 * width chosen for each drawn series, and the three render outcomes.
 */
module Series {
  import opened Wrappers
  import opened JsString
  import opened JsObject

  /** One time bucket of a series. */
  datatype Candle = Candle(open: real, startUnix: int, volume: real)

  /** A market of the payload: its symbol (`EXCHANGE:...`) and its candles, oldest first. */
  datatype Market = Market(marketSymbol: string, timeseries: seq<Candle>)

  /** The payload's `currency`: the reference series list and the per-exchange markets. */
  datatype Currency = Currency(vwa: seq<Market>, markets: seq<Market>)

  /** A field value of a chart row. */
  datatype Value = Num(x: real) | Text(s: string) | Null

  /** A chart row is a JavaScript object: field name to value. */
  type Row = map<string, Value>

  /** The exchange a market belongs to: its symbol up to the first ':'. */
  function ExchangeName(m: Market): string {
    SplitHead(m.marketSymbol, ':')
  }

  /** Market `m`'s open at candle position `i`, or `null` when its series has no candle there. */
  function Cell(m: Market, i: nat): Value {
    if i < |m.timeseries| then Num(m.timeseries[i].open) else Null
  }

  /** The exchange names of a list of markets. */
  function ExchangeNames(ms: seq<Market>): set<string> {
    set m | m in ms :: ExchangeName(m)
  }

  /** No later market of `ms` has the same exchange name as `ms[j]`. */
  predicate LastOfItsName(ms: seq<Market>, j: int)
    requires 0 <= j < |ms|
  {
    forall k :: j < k < |ms| ==> ExchangeName(ms[k]) != ExchangeName(ms[j])
  }

  /**
   * The `reduce` over the markets for candle position `i`: one entry per exchange name,
   * written in market order, so a later market overwrites an earlier one with the same name.
   */
  function MarketCells(ms: seq<Market>, i: nat): (r: Row)
    ensures r.Keys == ExchangeNames(ms)
    ensures forall j :: 0 <= j < |ms| && LastOfItsName(ms, j) ==> r[ExchangeName(ms[j])] == Cell(ms[j], i)
  {
    if ms == [] then map[]
    else
      var init := ms[..|ms| - 1];
      var last := ms[|ms| - 1];
      assert ms == init + [last];
      assert ExchangeNames(ms) == ExchangeNames(init) + {ExchangeName(last)};
      var r := MarketCells(init, i)[ExchangeName(last) := Cell(last, i)];
      assert forall j :: 0 <= j < |init| && LastOfItsName(ms, j) ==> LastOfItsName(init, j);
      r
  }

  /** The base fields of row `i`; `format` stands for the date formatting of `startUnix`. */
  function BaseRow(c: Candle, format: int -> string): Row {
    map["name" := Text(format(c.startUnix)), "timestamp" := Num(c.startUnix as real),
        "VWA" := Num(c.open), "volume" := Num(c.volume)]
  }

  /** The names of the base fields; an exchange of the same name overwrites one. */
  function BaseKeys(): set<string> {
    {"name", "timestamp", "VWA", "volume"}
  }

  /**
   * The joined rows: one per candle of the reference series, its base fields merged with the
   * exchange cells at the same position (`Object.assign`, exchange cells last).
   */
  function JoinRows(reference: seq<Candle>, markets: seq<Market>, format: int -> string): (rows: seq<Row>)
    ensures |rows| == |reference|
  {
    seq(|reference|, i requires 0 <= i < |reference| =>
      BaseRow(reference[i], format) + (if |markets| > 0 then MarketCells(markets, i) else map[]))
  }

  /**
   * Row `i` of the join holds the base fields and one field per exchange name; an exchange's
   * field is the `i`-th open of the last market with that name, or `null` when that series is
   * shorter; a base field not shadowed by an exchange keeps candle `i`'s value.
   */
  lemma JoinedRow(reference: seq<Candle>, markets: seq<Market>, format: int -> string, i: nat)
    requires i < |reference|
    ensures var row := JoinRows(reference, markets, format)[i];
      && row.Keys == BaseKeys() + ExchangeNames(markets)
      && (forall j :: 0 <= j < |markets| && LastOfItsName(markets, j) ==>
            row[ExchangeName(markets[j])] == Cell(markets[j], i))
      && ("name" !in ExchangeNames(markets) ==> row["name"] == Text(format(reference[i].startUnix)))
      && ("timestamp" !in ExchangeNames(markets) ==> row["timestamp"] == Num(reference[i].startUnix as real))
      && ("VWA" !in ExchangeNames(markets) ==> row["VWA"] == Num(reference[i].open))
      && ("volume" !in ExchangeNames(markets) ==> row["volume"] == Num(reference[i].volume))
  {
    var cells := if |markets| > 0 then MarketCells(markets, i) else map[];
    assert cells.Keys == ExchangeNames(markets);
    assert JoinRows(reference, markets, format)[i] == BaseRow(reference[i], format) + cells;
  }

  /** A series' data key: its name when its flag is truthy, its name and a space otherwise. */
  function SeriesKey(charts: map<string, bool>, name: string): (key: string)
    ensures key == name <==> Truthy(charts, name)
    ensures key == name || key == name + " "
  {
    if Truthy(charts, name) then name else name + " "
  }

  /** Stroke width: 3 for the selected series, 1 for every other. */
  function StrokeWidth(selected: string, name: string): (w: int)
    ensures w == 3 <==> selected == name
    ensures w == 1 || w == 3
  {
    if selected == name then 3 else 1
  }

  /** A drawn line: its data key and stroke width. */
  datatype Line = Line(dataKey: string, strokeWidth: int)

  /** What `render` produces. */
  datatype View =
    | Loading
    | NoMarkets
    | Chart(rows: seq<Row>, volumeBar: string, vwaLine: Line, marketLines: seq<Line>)

  /** One line per market, in market order. */
  function MarketLines(markets: seq<Market>, charts: map<string, bool>, selected: string): (lines: seq<Line>)
    ensures |lines| == |markets|
    ensures forall i :: 0 <= i < |markets| ==>
      && lines[i].dataKey == SeriesKey(charts, ExchangeName(markets[i]))
      && lines[i].strokeWidth == StrokeWidth(selected, ExchangeName(markets[i]))
  {
    seq(|markets|, i requires 0 <= i < |markets| =>
      Line(SeriesKey(charts, ExchangeName(markets[i])), StrokeWidth(selected, ExchangeName(markets[i]))))
  }

  /**
   * `render` for a payload (`None` while loading), the visibility map and the selected series.
   */
  function Render(data: Option<Currency>, charts: map<string, bool>, selected: string, format: int -> string): (v: View)
    ensures v.Loading? <==> data.None?
    ensures v.NoMarkets? <==> data.Some? && |data.value.vwa| == 0
    ensures v.Chart? ==>
      && v.rows == JoinRows(data.value.vwa[0].timeseries, data.value.markets, format)
      && |v.rows| == |data.value.vwa[0].timeseries|
      && (v.volumeBar == "volume" <==> Truthy(charts, "volume"))
      && (v.volumeBar == "volume" || v.volumeBar == "volume ")
      && (v.vwaLine.dataKey == "VWA" <==> Truthy(charts, "VWA"))
      && (v.vwaLine.dataKey == "VWA" || v.vwaLine.dataKey == "VWA ")
      && (v.vwaLine.strokeWidth == 3 <==> selected == "VWA")
      && (v.vwaLine.strokeWidth == 1 || v.vwaLine.strokeWidth == 3)
      && |v.marketLines| == |data.value.markets|
      && forall i :: 0 <= i < |v.marketLines| ==>
           var name := ExchangeName(data.value.markets[i]);
           && (v.marketLines[i].dataKey == name <==> Truthy(charts, name))
           && (v.marketLines[i].dataKey == name || v.marketLines[i].dataKey == name + " ")
           && (v.marketLines[i].strokeWidth == 3 <==> selected == name)
           && (v.marketLines[i].strokeWidth == 1 || v.marketLines[i].strokeWidth == 3)
  {
    match data
    case None => Loading
    case Some(currency) =>
      if |currency.vwa| == 0 then NoMarkets
      else
        Chart(JoinRows(currency.vwa[0].timeseries, currency.markets, format),
              SeriesKey(charts, "volume"),
              Line(SeriesKey(charts, "VWA"), StrokeWidth(selected, "VWA")),
              MarketLines(currency.markets, charts, selected))
  }

  /**
   * Clicking a drawn series' legend entry addresses that series, visible or hidden, as long
   * as its name carries no surrounding whitespace.
   */
  lemma SeriesKeyTrimsToName(charts: map<string, bool>, name: string)
    requires IsTrimmed(name)
    ensures Trim(SeriesKey(charts, name)) == name
  {
    if SeriesKey(charts, name) != name {
      TrimDropsAppendedSpace(name);
    }
  }
}
