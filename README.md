# Chart window and series model of the cryptolist currency chart

This project models `GraphComponent`, the price chart of a currency pair in the cryptolist
dashboard. The component keeps a local state: a time window (`startTime`, `endTime`, in
milliseconds), a resolution (a registry entry with an enum `value` and a candle length in
`seconds`), a visibility map `charts` from series name to flag, and the `selectedExchange`
drawn thick. Six handlers change that state, and the three window handlers also pass a
parameter record to the `getData` callback, which refetches the candles. `render` joins the
reference (volume-weighted average) series with every exchange's series by candle position,
and it picks a data key and a stroke width for each drawn series.

Modules:

- `Wrappers`: `Option`, standing for `null`/`undefined` and for keys left out of a record.
- `JsString`: the JavaScript built-ins the component calls. These are `trim` and `split(':')[0]`.
- `GraphState`: the state, the fetch parameter record, and one pure transition function per
  handler, with their properties. It also holds the query-variable merge used to show that
  the fetches keep the query in step with the state.
- `Series`: the payload, the positional row join, series keys and stroke widths, and `render`'s
  three outcomes (loading, no markets, chart).
- `Graph`: the class `GraphComponent`. Its fields are the state. Its handlers update those
  fields in place, and a ghost log `fetches` records every `getData` call. Each handler's new
  state and log entry are tied to the `GraphState` function. This module also holds the
  lemmas that connect handlers to what is rendered.

Behaviour reproduced as written:

- The window guards compare a millisecond span with `resolution.seconds`. At daily resolution,
  a 100-second window is accepted (`StartGuardAdmitsSubCandleWindow`).
- `moment(t).unix()` cuts the new time down to whole seconds before it is stored times 1000.
  For the end of the window this can leave a span that the same guard would reject
  (`EndTruncationCanUndercutGuard`).
- `updateResolution` has no guard. It keeps the candle count and sends no `endTime`.
- Exchanges are absent from the initial visibility map, so they start hidden, unless the name
  is an `Object.prototype` member (see "## Left out").
- Hovering a hidden exchange passes its key with the trailing space untrimmed. That key
  does not thicken that exchange's own line (`HoverThickensNamedLines`).
- An exchange whose name has leading or trailing whitespace cannot be shown from its legend:
  its key trims to a different name, so a click toggles and selects that other name
  (`UntrimmedNameStaysHidden`).

The candle count divides the millisecond span by 1000 and then by the candle length; the
model keeps this as written.

## Model

| member | source | states |
|---|---|---|
| `GraphState.Unix` | src/client/scenes/crypto-deep-info/components/graph.jsx:71 | `moment(ms).unix()` gives the whole seconds `s` with `s*1000 <= ms < s*1000 + 1000` |
| `GraphState.InitialState` | src/client/scenes/crypto-deep-info/components/graph.jsx:12-17 | initial window from whole-second clock readings; volume and VWA are shown, every other series (every exchange) is hidden, and nothing is selected (lines 57-66) |
| `GraphState.UpdateStartTime` | src/client/scenes/crypto-deep-info/components/graph.jsx:69-74 | no change and no fetch exactly when `endTime - t <= resolution.seconds`; otherwise only `startTime` changes, to `t` cut to whole seconds, the stored window passes the guard, and the fetch is `{startTime: unix(t), endTime: endTime/1000}` |
| `GraphState.UpdateEndTime` | src/client/scenes/crypto-deep-info/components/graph.jsx:76-81 | no change and no fetch exactly when `t - startTime <= resolution.seconds`; otherwise only `endTime` changes, to `t` cut to whole seconds, and the fetch is `{startTime: startTime/1000, endTime: unix(t)}` |
| `GraphState.UpdateResolution` | src/client/scenes/crypto-deep-info/components/graph.jsx:83-89 | only `startTime` and `resolution` change, `endTime` stays, the candle count `(end-start)/1000/seconds` is the same before and after, and the fetch is `{startTime, resolution: value}` with no end time |
| `GraphState.ToggleChart` | src/client/scenes/crypto-deep-info/components/graph.jsx:91-96 | the trimmed key's flag becomes the negation of its truthiness (absent is false), the key becomes selected, every other flag and the window and resolution are unchanged |
| `GraphState.HighlightExchange` | src/client/scenes/crypto-deep-info/components/graph.jsx:98-100 | selects the given name and changes nothing else |
| `GraphState.UnhighlightExchange` | src/client/scenes/crypto-deep-info/components/graph.jsx:102-104 | clears the selection and changes nothing else |
| `GraphState.ToggleTwiceRestoresVisibility` | src/client/scenes/crypto-deep-info/components/graph.jsx:91-96 | two toggles of the same entry restore every series' truthiness |
| `GraphState.ResolutionKeepsSpanCheck` | src/client/scenes/crypto-deep-info/components/graph.jsx:83-89 | a window that passes the guard still passes it after a resolution change, because the guard holds exactly when the candle count exceeds 1/1000 |
| `GraphState.StartGuardAdmitsSubCandleWindow` | src/client/scenes/crypto-deep-info/components/graph.jsx:70 | the guard's mixed units let a 100-second window through at daily resolution |
| `GraphState.EndTruncationCanUndercutGuard` | src/client/scenes/crypto-deep-info/components/graph.jsx:77-79 | an accepted end update can store a window that fails the guard once cut to whole seconds |
| `GraphState.NinetyDaysBecomeNinetyHours` | src/client/scenes/crypto-deep-info/components/graph.jsx:84-87 | 90 days at daily resolution switched to hourly becomes 90 hours ending at the same time |
| `GraphState.InitialQuerySynced` | src/client/scenes/crypto-deep-info/components/graph.jsx:230-236 | the query's initial variables match the component's initial window and resolution |
| `GraphState.HandlersKeepQuerySynced` | src/client/scenes/crypto-deep-info/components/graph.jsx:69-104 | if the query variables match the state, they still match the new state after merging each handler's fetch |
| `JsString.TrimStart` | src/client/scenes/crypto-deep-info/components/graph.jsx:92 | the result is the suffix left after a whitespace-only prefix, and it does not start with whitespace |
| `JsString.TrimEnd` | src/client/scenes/crypto-deep-info/components/graph.jsx:92 | the result is the prefix left before a whitespace-only suffix, and it does not end with whitespace |
| `JsString.Trim` | src/client/scenes/crypto-deep-info/components/graph.jsx:92 | the result is the input with a whitespace-only prefix and a whitespace-only suffix removed, it has no surrounding whitespace, and a trimmed input is returned unchanged |
| `JsString.TrimIdempotent` | src/client/scenes/crypto-deep-info/components/graph.jsx:92 | trimming twice is trimming once |
| `JsString.TrimDropsAppendedSpace` | src/client/scenes/crypto-deep-info/components/graph.jsx:144 | a trimmed name with a space appended trims back to the name |
| `JsString.SplitHead` | src/client/scenes/crypto-deep-info/components/graph.jsx:124 | `split(':')[0]` is the longest prefix without ':', and it ends at the first ':' or at the end of the string |
| `Series.MarketCells` | src/client/scenes/crypto-deep-info/components/graph.jsx:122-129 | one key per exchange name; each name holds the open at this position of the last market with that name, or null when that series is too short |
| `Series.JoinRows` | src/client/scenes/crypto-deep-info/components/graph.jsx:121-137 | one row per candle of the reference series |
| `Series.JoinedRow` | src/client/scenes/crypto-deep-info/components/graph.jsx:121-137 | row i has keys name, timestamp, VWA, volume and the exchange names; an exchange field is the i-th open of its last market or null; a base field not shadowed by an exchange name holds candle i's label, timestamp, open or volume |
| `Series.SeriesKey` | src/client/scenes/crypto-deep-info/components/graph.jsx:144 | the data key is the name exactly when its flag is truthy, otherwise the name with a space |
| `Series.StrokeWidth` | src/client/scenes/crypto-deep-info/components/graph.jsx:150 | width 3 exactly for the selected series, 1 for all others |
| `Series.MarketLines` | src/client/scenes/crypto-deep-info/components/graph.jsx:139-152 | one line per market, in market order: line i carries market i's series key and stroke width |
| `Series.Render` | src/client/scenes/crypto-deep-info/components/graph.jsx:106-114 | loading exactly when the currency is absent, the no-markets message exactly when the reference list is empty; otherwise the rows are the join of the first reference series with the markets, and the volume bar, the VWA line and each exchange line keyed by its name when visible and by its name and a space when hidden, with width 3 when selected and 1 otherwise (lines 121-137, 144, 150, 193, 202, 207) |
| `Series.SeriesKeyTrimsToName` | src/client/scenes/crypto-deep-info/components/graph.jsx:144 | for a name without surrounding whitespace, the series' key, visible or hidden, trims back to the name |
| `Graph.GraphComponent.constructor` | src/client/scenes/crypto-deep-info/components/graph.jsx:48-67 | the state is `InitialState` and no fetch has been made |
| `Graph.GraphComponent.UpdateStartTime` | src/client/scenes/crypto-deep-info/components/graph.jsx:69-74 | the fields become `GraphState.UpdateStartTime`'s state, and its fetch, if any, is appended to the log |
| `Graph.GraphComponent.UpdateEndTime` | src/client/scenes/crypto-deep-info/components/graph.jsx:76-81 | the fields become `GraphState.UpdateEndTime`'s state, and its fetch, if any, is appended to the log |
| `Graph.GraphComponent.UpdateResolution` | src/client/scenes/crypto-deep-info/components/graph.jsx:83-89 | the fields become `GraphState.UpdateResolution`'s state, and its fetch is appended to the log |
| `Graph.GraphComponent.ToggleChart` | src/client/scenes/crypto-deep-info/components/graph.jsx:91-96 | the fields become `GraphState.ToggleChart`'s state and nothing is fetched |
| `Graph.GraphComponent.HighlightExchange` | src/client/scenes/crypto-deep-info/components/graph.jsx:98-100 | only the selection changes, and nothing is fetched |
| `Graph.GraphComponent.UnhighlightExchange` | src/client/scenes/crypto-deep-info/components/graph.jsx:102-104 | the selection is cleared, and nothing is fetched |
| `Graph.ToggleTwiceRendersSame` | src/client/scenes/crypto-deep-info/components/graph.jsx:91-96 | two clicks on an entry render as one selection of the entry: every series is drawn or hidden as before and the trimmed key is selected (line 95) |
| `Graph.LegendClickFlipsLine` | src/client/scenes/crypto-deep-info/components/graph.jsx:186-191 | for an exchange name without surrounding whitespace, clicking its legend entry flips whether its line is drawn, hidden or not, and draws it thick |
| `Graph.UntrimmedNameStaysHidden` | src/client/scenes/crypto-deep-info/components/graph.jsx:92-95 | for the exchange " X", hidden at first, a click on its legend key toggles "X" instead, so its line stays hidden and thin |
| `Graph.HoverThickensNamedLines` | src/client/scenes/crypto-deep-info/components/graph.jsx:189 | hovering an exchange's legend entry thickens its line exactly when the exchange is visible |

## Left out

- Rendering through React and recharts is left out: JSX markup, styling, the colour palette,
  `ChartUtils` and `HistoricalData`. These are presentation through libraries that are not part of this model.
- The y-axis domain multipliers (0.975, 1.025, 3) are left out. They are floating-point padding handed to the chart library.
- The date label `moment(...).format('H:m MMM DD')` is a parameter `format` of the join. The date library is not part of this model.
- The clock is left out. The initial window is taken from two clock readings given in whole unix seconds, and the daily registry entry is a parameter. The resolution registry is not part of this model; a resolution is any record whose `seconds` is positive.
- The GraphQL query text and the `Query(...)` wiring are left out. `InitialQuerySynced` and `HandlersKeepQuerySynced` assume that `getData` merges the record into the query's variables, with present keys replacing old ones. That library is not part of this model.
- Concurrency is left out: the order of asynchronous fetch completions and React's deferred `setState`. Each handler is modelled as if its state update applies at once.
- Floating point is left out. Times and the candle count are exact reals, so `UpdateResolution`'s division is exact. Inputs to the two window setters are whole milliseconds.
- Series names that are `Object.prototype` members (`toString`, `constructor`, `valueOf`,
  `hasOwnProperty`, `__proto__` and the like) read as truthy in JavaScript even when absent, and
  assigning `__proto__` does not create a row field. The model reads every absent key as false
  and treats the visibility map and the rows as plain maps.
- Aliasing is left out. `toggleChart` mutates the existing `charts` object before `setState`. The model gives the field a new map; nothing else holds the old object here.
- The tab switcher (switcher.jsx) is left out. It is routing chrome: links built by string concatenation, active tab chosen by suffix, views mounted by the router.
