# Trade Oracle dashboard core, in Dafny

The dashboard simulates a live feed of international trade events. Every
4 seconds a timer tick builds one synthetic event. That event joins a rolling
window of the 50 most recent events, and its value is added to a running
total that starts at 1,450,200,000. From the window the page derives:

- a 20-point timeline;
- per-commodity totals, with a top-5 bar chart;
- a counsel: a summary of the latest 15 events produced by an external
  language model, with a fixed fallback whenever the request fails.

The counsel's opportunities are shown as cards with a strategy icon and an
action badge.

This project models that core and proves its properties:

- `types.dfy` (module `Types`): the records of `types.ts` and the two label
  unions, with parsing functions that are inverse to the labels.
- `seqs.dfy` (module `Seqs`): JavaScript's `slice(-k)` as `Tail`, and sums of
  event values.
- `simulation.dfy` (module `Simulation`): the state of `App.tsx` as the class
  `Dashboard`. It has the fields `events`, `counsel`, `isAnalyzing` and
  `totalVolume`, and ghost fields for the history of all generated events,
  the snapshot in flight and the number of automatic analyses. `Tick` builds
  an event with the redrawing loop and slides it into the window.
  `StartAnalyze` and `FinishAnalyze` are the two halves of `handleAnalyze`
  around its `await`. `ClickAnalyze` is the button; `AutoAnalyze` is the
  effect. `Valid()` keeps these invariants:
  - the window is the last 50 events ever generated;
  - the total is the starting volume plus every generated value;
  - every event has distinct ends and a value in range;
  - the flag is up exactly while a non-empty snapshot is in flight;
  - automatic analysis has run at most once.
- `charts.dfy` (module `Charts`): the timeline, and the `commodityCounts`
  record as an insertion-ordered list of keys filled by a loop. Then the
  stable descending sort, the top five and the bar colours.
- `insights.dfy` (module `Insights`): the digest lines and their `"\n"`
  join, with a split function proved inverse to the join. Also the fixed
  fallback counsel and the policy of `getTradeInsights`.
- `signals.dfy` (module `Signals`): the strategy icon switch, the badge
  colour choice and the card list.

These inputs of the source become parameters:

- Randomness (`Math.random`) becomes readings of the subset type `Unit`, a
  real in [0, 1). The redrawing loop consumes a sequence of such readings.
- The clock (`Date.now`) and the id string are parameters.
- The country and commodity lists come from `constants`, which is not part of
  this model, so they are parameters too.
- The language-model request is a function `ask` from the digest to a
  `Reply`: it threw, or it answered with a text that may be missing.
- `JSON.parse` is a function `parse` from that text to an optional counsel.
- The one-decimal formatting of `value / 1e6` is a function `amount`.

Three behaviours of the code shape the model:

- Parsed answers are not validated against the schema. `JSON.parse(text) as
  AICounsel` is returned as it is, so the label fields of `TradeOpportunity`
  are kept as raw strings. `Types.Conforms` states the declared shape; the
  fallback meets it.
- There is no `finally`. The flag comes down because `getTradeInsights`
  catches every failure and so never throws; `FinishAnalyze` always clears it.
- `handleAnalyze` itself does not check the flag. Its two callers do: the
  button is disabled while analyzing, and the effect tests `!isAnalyzing`.
  `StartAnalyze` therefore requires that no analysis is in flight.

## Model

| member | source | states |
|---|---|---|
| `Types.ParseAction` | types.ts:15 | a string read as an action is that action's label |
| `Types.ParseStrategy` | types.ts:16 | a string read as a strategy is that strategy's label |
| `Types.LabelsRoundTrip` | types.ts:15-16 | every member of both unions is read back from its label as itself |
| `Seqs.Tail` | App.tsx:37 | for k > 0 (the model uses 15, 20, 49 and 50; k = 0 gives the empty list, unlike `slice(-0)`), `slice(-k)` has Min(len, k) elements and is a suffix of its input; it is the whole input when that has at most k elements |
| `Seqs.TailOfTail` | App.tsx:37 | the last j of the last k (j <= k) are the last j |
| `Seqs.TailAppend` | App.tsx:37 | the last k after appending x are the last k-1 before, then x |
| `Simulation.PickIndex` | App.tsx:21 | `Math.floor(r * n)` is a valid index below n |
| `Simulation.Pick` | App.tsx:21-24 | a random choice from a list is an element of the list |
| `Simulation.EventValue` | App.tsx:32 | the generated value lies in [10,000,000, 60,000,000) |
| `Simulation.DirectionOf` | App.tsx:34 | the event is an export exactly when the reading exceeds 0.5, an import otherwise |
| `Simulation.Redraw` | App.tsx:22-25 | the country the redrawing settles on differs from the origin and is one of the countries |
| `Simulation.RedrawSettles` | App.tsx:22-25 | the redrawing settles exactly when some draw names a country other than the origin |
| `Simulation.GenerateEvent` | App.tsx:21-35 | the event's destination differs from its origin and is the first draw that does; every field is built from its draw; the value is in range |
| `Simulation.Slide` | App.tsx:37 | `[...prev.slice(-49), e]` has Min(n+1, 50) events, ends with e, and before e holds the newest events of prev in order |
| `Simulation.SlideKeepsLastFifty` | App.tsx:37 | sliding an event into the last 50 gives the last 50 after it: length Min(n+1, 50), oldest dropped first, nothing dropped while there is room |
| `Simulation.TickKeepsWindowInvariant` | App.tsx:37-38 | a tick keeps the window equal to the last 50 events ever generated and the total equal to 1,450,200,000 plus every generated value, evicted ones included |
| `Simulation.Dashboard.constructor` | App.tsx:12-15 | empty window, no counsel, flag down, total 1,450,200,000 |
| `Simulation.Dashboard.Tick` | App.tsx:20-38 | the window becomes `[...prev.slice(-49), e]` with length Min(n+1, 50); the total grows by exactly the event's value and so strictly increases; counsel and flag are untouched |
| `Simulation.Dashboard.StartAnalyze` | App.tsx:44-47 | on an empty window nothing changes; otherwise the flag goes up and the current window is the snapshot handed to the request |
| `Simulation.Dashboard.FinishAnalyze` | App.tsx:47-49 | the counsel becomes the fetcher's result for the snapshot and the flag comes down |
| `Simulation.Dashboard.ClickAnalyze` | App.tsx:77-79 | while analyzing the button does nothing; otherwise it starts an analysis as above |
| `Simulation.Dashboard.AutoAnalyze` | App.tsx:52-57 | fires exactly when at least 5 events are in, no counsel exists and nothing is in flight; when it fires it has never fired before (for answers that parse to an object) |
| `Charts.TimeData` | components/TradeCharts.tsx:12-15 | Min(20, n) points; point i has time i and the value of the i-th of the last 20 events |
| `Charts.LookupMissing` | components/TradeCharts.tsx:20 | a key is missing from the record exactly when no entry has that name |
| `Charts.LookupAt` | components/TradeCharts.tsx:20 | with distinct keys, looking up an entry's name finds its total |
| `Charts.Add` | components/TradeCharts.tsx:20 | adding v to key c (its old total, or 0 when absent) adds at most one key and leaves c present |
| `Charts.AddLookup` | components/TradeCharts.tsx:20 | adding v to key c sets c to its old total plus v (or v when absent) and changes no other key |
| `Charts.AddPlaces` | components/TradeCharts.tsx:20 | an existing key keeps its place; a new key is appended last |
| `Charts.AddDistinct` | components/TradeCharts.tsx:20 | the record never holds a key twice |
| `Charts.AddTotal` | components/TradeCharts.tsx:20 | each addition grows the sum of all totals by the value added |
| `Charts.Accumulate` | components/TradeCharts.tsx:18-21 | the `forEach` record has at most one key per event, and the last event's commodity is a key |
| `Charts.AccumulateLookup` | components/TradeCharts.tsx:18-21 | after the loop a commodity has a key exactly when it occurs, holding the sum of its events' values |
| `Charts.AccumulateDistinct` | components/TradeCharts.tsx:18-21 | no commodity has two keys |
| `Charts.AccumulateSize` | components/TradeCharts.tsx:18-21 | there are as many keys as distinct commodities |
| `Charts.AccumulateTotal` | components/TradeCharts.tsx:19-21 | the sum over all keys equals the sum of all event values |
| `Charts.CommodityCounts` | components/TradeCharts.tsx:18-21 | the `forEach` loop builds that record: distinct keys, one per occurring commodity, each the sum of its values, all together the sum of all values |
| `Charts.InsertPermutes` | components/TradeCharts.tsx:24 | inserting adds exactly the inserted entry and nothing else |
| `Charts.InsertSorts` | components/TradeCharts.tsx:24 | inserting into a list sorted by total, largest first, keeps it sorted |
| `Charts.SortByTotal` | components/TradeCharts.tsx:24 | the sort keeps the number of entries (with `SortByTotalSpec`: ordered, a permutation) |
| `Charts.SortByTotalSpec` | components/TradeCharts.tsx:24 | the sort orders by total, largest first, and is a permutation |
| `Charts.TopCommodities` | components/TradeCharts.tsx:23-25 | sort then `slice(0, 5)` gives Min(keys, 5) entries |
| `Charts.TopCommoditiesSpec` | components/TradeCharts.tsx:23-25 | sort then `slice(0, 5)`: Min(keys, 5) entries of the record, distinct, non-increasing, and no entry left out has a larger total than any kept |
| `Charts.CommodityData` | components/TradeCharts.tsx:18-26 | the bar data has at most 5 bars, no more than there are events, and at least one for a non-empty window |
| `Charts.CommodityDataSpec` | components/TradeCharts.tsx:18-26 | the bar data has Min(distinct commodities, 5) bars, distinct, largest first, each showing its commodity's total |
| `Charts.BarColors` | components/TradeCharts.tsx:86-88 | one colour per bar, each from the palette |
| `Charts.BarColorsSpec` | components/TradeCharts.tsx:28 | the first 5 bars take the palette in order, colours repeat every 5 bars (together: bar i gets `COLORS[i % 5]`), and the at most 5 bars shown all differ |
| `Insights.DigestLines` | services/geminiService.ts:8-10 | Min(15, n) lines; line i describes the i-th of the last 15 events |
| `Insights.Line` | services/geminiService.ts:10 | a digest line starts with the origin, and holds a newline exactly when a name or the amount text does |
| `Insights.Join` | services/geminiService.ts:11 | `join("\n")` starts with the first line and ends with the last (nothing trails), with a newline between two or more lines |
| `Insights.Digest` | services/geminiService.ts:8-11 | the digest is empty exactly for an empty window and holds a newline once there are two events |
| `Insights.SplitJoin` | services/geminiService.ts:11 | joining newline-free lines with `"\n"` and splitting gives the lines back: one separator between lines and none trailing |
| `Insights.DigestHasOneLinePerRecentEvent` | services/geminiService.ts:8-11 | the digest of a non-empty window is exactly Min(15, n) lines, the tail of the window in order |
| `Insights.Fallback` | services/geminiService.ts:63-79 | the fallback has 2 risks and one opportunity, `USA -> VIETNAM`, `STRONG BUY`, `Supply Chain`, confidence 88, which meets the declared shape |
| `Insights.Attempt` | services/geminiService.ts:20-60 | the `try` body yields a counsel exactly when a present, non-empty text parses, and then yields that parse; a thrown request yields none |
| `Insights.GetTradeInsights` | services/geminiService.ts:20-80 | a thrown request, a missing or empty text and a failed parse each give the fallback; a parsed answer is returned unchanged; nothing else is ever returned |
| `Signals.StrategyIcon` | components/TradeSignals.tsx:9-18 | every string gets an icon: the five strategy labels their own, any other string the default |
| `Signals.IconIdentifiesStrategy` | components/TradeSignals.tsx:9-18 | the icon gives the strategy back (or none for the default), so the six icons are pairwise distinct |
| `Signals.SameIconIffSameStrategy` | components/TradeSignals.tsx:9-18 | two labels share an icon exactly when they name the same strategy or both lie outside the union |
| `Signals.ActionBadge` | components/TradeSignals.tsx:39-42 | emerald exactly for `STRONG BUY`, sky exactly for `ACCUMULATE`, amber otherwise |
| `Signals.AmberActions` | components/TradeSignals.tsx:39-42 | within the union, `HEDGE` and `WATCH` are exactly the amber actions |
| `Signals.CardOf` | components/TradeSignals.tsx:36-65 | a card copies every field of its opportunity, its bar width is the confidence, its badge is emerald exactly for `STRONG BUY` and its icon is the default exactly for a label outside the union |
| `Signals.Cards` | components/TradeSignals.tsx:35-65 | one card per opportunity, in order, showing all of its fields (including rationale and target yield), badge and icon, with the confidence (and bar width) unchanged |

## Left out

- Layout, styling and rendering (the JSX of `App.tsx` and of the components) are presentation. That includes the feed shown newest first and the stat cards.
- `components/TradeFlowMap.tsx` and `components/StatCard.tsx` are not part of this model. The map measures the page and scales by pixel sizes in floating point; the card is presentational.
- The timer (`setInterval`, 4000 ms), React's effect scheduling and the interleaving at `await` are modelled as discrete steps: `Tick`, `AutoAnalyze`, `ClickAnalyze`, `StartAnalyze`, `FinishAnalyze`. React's batching of state updates and stale closures are not modelled.
- Randomness is injected: `Math.random` readings are exact reals in [0, 1), so binary floating-point rounding of `r * n` is not modelled. The redrawing loop stops only if some supplied draw names another country (`Redraw` settles); termination against an arbitrary random source cannot be proved.
- The id (`toString(36).substr(2, 9)`) and the timestamp are opaque parameters; their uniqueness and monotonicity are not modelled.
- Amounts are integers in currency units; the charts' division by 1e6 and the `toFixed(1)` text of the digest are not modelled (the latter is the parameter `amount`).
- The language-model client, the prompt template, the response schema and `JSON.parse` are foreign code. The request receives the digest, the only part of the prompt that depends on the events. A parsed value that is valid JSON but not shaped like a counsel cannot be represented. In particular a reply whose text is `null` parses to `null`, which `setCounsel` stores, so the auto-analysis effect fires again: `Dashboard.FinishAnalyze`'s non-null counsel and `Dashboard.AutoAnalyze`'s "at most once" hold only for answers that parse to an object.
- `console.error` in the failure path is a log side effect and is not modelled.
- `Charts.SortByTotalSpec`: ties keep their insertion order by construction of the insertion sort, but stability is not stated as a proved property.
- `Charts.CommodityCounts`: the record is a list of keys in insertion order, which is how JavaScript enumerates non-numeric string keys. Keys that look like array indices, and names inherited from `Object.prototype`, are not modelled.
- `Types.TradeOpportunity.confidence` is a real number; the number type's range and NaN are not modelled.
