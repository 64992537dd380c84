# Cryptocurrency dashboard: list rows, save button, detail page and chart scales

This project models the part of a cryptocurrency dashboard that the dashboard
itself decides:

- **Ticker list page** (module `Home`). Each row's trend (`increase`,
  `decrease`, `same`) comes from the sign of `last - first`. The trend picks
  the row's colour and its trend icon. A table of Korean labels for the three
  trends exists, but no row reads a label from it. The row also shows the
  percentage change. The page reads three queries: the ticker list, the currency list and
  the saved tickers. The model covers their cache keys and their `select`
  projections: a dispatch to one of two sorts, a symbol-keyed map, and a
  membership set.
- **Save button** (module `Savebutton`, class `SaveButton`). A click prevents
  the default action and dispatches exactly one remote write. The write is
  `remove` when the ticker is saved and `save` when it is not. The caller's own
  click handler then runs. When the write succeeds, the `['saved-ticker-list']`
  entry is marked stale. When it fails, the user gets one alert and the cache
  is left as it was.
- **Detail page** (module `Detail`, class `DetailPage`). The model covers the
  keys of the candle-chart and ticker-info queries and their `select`
  projections. It also covers the starting interval, and how an interval change
  rewrites the URL query while leaving every other parameter alone. While the
  ticker info is absent, every figure reads 0.
- **Chart utilities** (module `ChartUtils`). The normaliser maps each raw
  sample to a (timestamp, close) point. It keeps length and order, and it turns
  `undefined` into the empty list. The scale builder computes the extents and
  the margin-inset pixel ranges; the y axis is upside down.

Numbers are exact reals. `new Date(...)` (as its millisecond value) and
`parseFloat` are function-typed parameters, so the model does not interpret
them. The charting library's linear and time scales are taken to be the affine
map that sends the domain's ends to the range's ends. This is an assumed
library contract (`ChartUtils.Apply`). Likewise, the cache library's `invalidateQueries`
is taken to match keys by prefix (`QueryKeys.Matches`).

The code does not drop chart samples whose fields fail to parse: every sample
becomes a point. It also does not clamp a degenerate extent (all values equal)
before building a scale. The model follows the code on both points.

## Model

| member | source | states |
|---|---|---|
| `Home.GetIncreaseStatus` | src/domains/home/index.tsx:196-206 | the status is `increase` iff the difference is positive, `decrease` iff negative, `same` iff zero; exactly one holds |
| `Home.GetPriceColorByStatus` | src/domains/home/index.tsx:208-217 | red belongs to exactly `increase`, blue to exactly `decrease`, gray to exactly `same` |
| `Home.PriceColorIsInjective` | src/domains/home/index.tsx:208-217 | two statuses get the same colour only if they are the same status, so the colour mapping is a bijection onto the three colours |
| `Home.EngToKRStatus` | src/domains/home/index.tsx:20-24 | every status has a label, and each of the three Korean labels belongs to exactly one status |
| `Home.Diff` | src/domains/home/index.tsx:60 | the opening price plus the difference gives the last price |
| `Home.Rate` | src/domains/home/index.tsx:61 | for a non-zero opening price, the percentage times the opening price is one hundred times the difference |
| `Home.RateSignMatchesDiff` | src/domains/home/index.tsx:60-63 | with a positive opening price, the status of the percentage equals the status of the difference |
| `Home.RateSignFlipsForNegativeFirst` | src/domains/home/index.tsx:60-63 | with a negative opening price, the percentage has the opposite status to the difference |
| `Home.FallFromHundredToNinety` | src/domains/home/index.tsx:60-63 | opening at 100 and closing at 90 gives a difference of -10, a rate of -10 and the status `decrease` |
| `Home.ToUpperCase` | src/domains/home/index.tsx:59 | the symbol keeps its length, contains no lower-case ASCII letter, and differs from the input only where a lower-case letter became its capital |
| `Home.ToUpperCaseIsIdempotent` | src/domains/home/index.tsx:59 | upper-casing twice is the same as upper-casing once |
| `Home.TickerListKey` | src/domains/home/index.tsx:131 | the ticker-list key is the one-part key `ticker-list`, whatever the ordering |
| `Home.TickerListSelect` | src/domains/home/index.tsx:139-145 | the ticker-list projection is the volume sort of the fetched tickers when ordering by volume, and the name sort when ordering by name |
| `Home.InitialOrderIsVolume` | src/domains/home/index.tsx:18-32 | the page starts ordered by volume, so its first list is the volume sort of the fetched tickers |
| `Home.TickerListOrderingsShareEntry` | src/domains/home/index.tsx:126-145 | the key is `['ticker-list']` for both orderings; on the same fetched data, `volume` yields the volume sort and `name` yields the name sort |
| `Home.CurrencyMap` | src/domains/home/index.tsx:170-173 | the map's keys are exactly the symbols in the list, and each key maps to a record from the list that carries that symbol |
| `Home.CurrencyMapLastWins` | src/domains/home/index.tsx:170-173 | a symbol maps to the last record in the list that carries it (later records overwrite earlier ones) |
| `Home.CurrencyListSelect` | src/domains/home/index.tsx:154-174 | the currency query's projection is keyed by exactly the symbols of the fetched currencies, and each symbol maps to a fetched record carrying that symbol |
| `Home.CurrencyName` | src/domains/home/index.tsx:83 | a row has a name exactly when the map has loaded and holds its symbol, and the name is that record's name |
| `Home.SavedTickerSet` | src/domains/home/index.tsx:190-192 | the members are exactly the listed symbols, and the set is never larger than the list |
| `Home.DistinctSnoc` | src/domains/home/index.tsx:190-192 | a list with one symbol appended has no duplicates exactly when the list had none and the symbol is new |
| `Home.SavedTickerSetSizeIffDistinct` | src/domains/home/index.tsx:190-192 | the set has as many members as the list has entries exactly when the list has no duplicates |
| `Home.SavedTickerSetSelect` | src/domains/home/index.tsx:177-193 | the saved query's projection holds exactly the fetched symbols |
| `Home.GetTickerRow` | src/domains/home/index.tsx:58-110 | a row shows the upper-cased symbol. Its difference added to the opening price gives the last price. It has a rate exactly when the opening price is non-zero, and then the rate times the opening price is one hundred times the difference. Its status is `increase`/`decrease` exactly when last is above/below first. With a positive first price, the status agrees with the sign of the rate. The colour follows the status. It is saved exactly when the saved set has loaded and holds the symbol |
| `Home.RowIsSavedIffListed` | src/domains/home/index.tsx:59-108 | once the saved list has loaded, a row is saved exactly when the fetched list contains its upper-cased symbol |
| `Savebutton.ChooseMutation` | src/domains/home/Savebutton.tsx:41 | the click removes exactly when the ticker is saved and saves exactly when it is not, always for the button's own ticker |
| `Savebutton.SettleEffect` | src/domains/home/Savebutton.tsx:19-37 | success and only success invalidates, and only the saved-ticker key; failure and only failure alerts |
| `Savebutton.ClickEffects` | src/domains/home/Savebutton.tsx:19-43 | a click's effects are, in order: the default-prevention, the chosen write, the caller's handler (only when one was given), and last the settlement of the write; three effects without a caller handler, four with one |
| `Savebutton.ClickDispatchesExactlyOne` | src/domains/home/Savebutton.tsx:39-43 | a click first prevents the default action, then dispatches one write (remove iff saved) and no other. The caller's handler runs right after, and only if one was given |
| `Savebutton.ClickSettlement` | src/domains/home/Savebutton.tsx:19-37 | after a click, any invalidation is of `['saved-ticker-list']` and happens only on success; any alert is the last effect and happens only on failure |
| `Savebutton.IconName` | src/domains/home/Savebutton.tsx:49 | the icon is `star_filled` exactly when the ticker is saved |
| `Savebutton.IconAlt` | src/domains/home/Savebutton.tsx:50 | the alternative text says saved exactly when the ticker is saved |
| `Savebutton.SaveButton.constructor` | src/domains/home/Savebutton.tsx:11-17 | a new button has its props, no alerts and no effects yet |
| `Savebutton.SaveButton.HandleSuccess` | src/domains/home/Savebutton.tsx:19-21 | the saved-ticker entry becomes stale and one invalidation of that key is recorded; the alert count is unchanged |
| `Savebutton.SaveButton.HandleError` | src/domains/home/Savebutton.tsx:23-26 | one more alert, and the staleness of the saved-ticker entry is unchanged |
| `Savebutton.SaveButton.Click` | src/domains/home/Savebutton.tsx:39-43 | returns the chosen write and appends the click's effects. Afterwards the entry is stale iff it was stale before or the write succeeded, and the alert count grows by one iff the write failed |
| `Detail.CandleChartKey` | src/domains/home/detail/index.tsx:145 | the chart key has three parts: `candle-chart`, then the ticker, then the interval |
| `Detail.TickerInfoKey` | src/domains/home/detail/index.tsx:178 | the info key has two parts: `ticker-info`, then the ticker |
| `Detail.CandleChartKeyIsInjective` | src/domains/home/detail/index.tsx:145 | two charts share a cache entry exactly when both ticker and interval agree |
| `Detail.TickerInfoKeyIsInjective` | src/domains/home/detail/index.tsx:178 | two tickers' details share a cache entry exactly when the tickers agree |
| `Detail.KeysAreSeparate` | src/domains/home/detail/index.tsx:144-178 | the chart and info keys never coincide. Invalidating `['saved-ticker-list']` by prefix reaches that key only, never the chart, info, ticker-list or currency-list keys |
| `Detail.CandleChartSelect` | src/domains/home/detail/index.tsx:160 | the chart query's projection is the response's sample list itself, unchanged |
| `Detail.ChartData` | src/domains/home/detail/index.tsx:39-43 | the chart's `select` passes the samples through unchanged, so the plotted points are one per fetched sample, in order; no chart yet means no points |
| `Detail.TickerInfoSelect` | src/domains/home/detail/index.tsx:186 | the result is absent exactly when the list is empty, and is otherwise its first element |
| `Detail.GetDetailView` | src/domains/home/detail/index.tsx:96-120 | with no ticker info, every figure is 0 and there is no ticker; otherwise the ticker is upper-cased and each figure is the info's own |
| `Detail.InitialInterval` | src/domains/home/detail/index.tsx:34-36 | the page starts on the interval from the URL when there is one, and on the first offered interval otherwise |
| `Detail.InitialIntervalIsOfferedIff` | src/domains/home/detail/index.tsx:34-36 | the starting interval is one of the offered ones exactly when the URL named none or named an offered one (the URL's value is not validated) |
| `Detail.WithInterval` | src/domains/home/detail/index.tsx:59 | the new query has the old keys plus `interval`, with `interval` set to the chosen value and every other parameter unchanged |
| `Detail.WithIntervalLatestWins` | src/domains/home/detail/index.tsx:55-62 | two interval changes in a row give the same query as the second change alone |
| `Detail.DetailPage.constructor` | src/domains/home/detail/index.tsx:27-36 | a new page holds the starting interval and the given route, and has replaced no route yet |
| `Detail.DetailPage.CurrentKeys` | src/domains/home/detail/index.tsx:38-41 | the page reads the chart entry of its ticker and current interval and the info entry of its ticker |
| `Detail.DetailPage.HandleChangeInterval` | src/domains/home/detail/index.tsx:55-62 | the interval state becomes the chosen value. One route is handed to the router: same path, query with only `interval` overwritten |
| `ChartUtils.FormatSamples` | src/domains/home/detail/utils/index.ts:12-16 | the output has the input's length, and point i is built from sample i alone: its date and its parsed close |
| `ChartUtils.FormatSamplesAppend` | src/domains/home/detail/utils/index.ts:12-16 | normalising two lists joined is joining their normalisations, so order is kept and nothing is merged across samples |
| `ChartUtils.FormatChartData` | src/domains/home/detail/utils/index.ts:8-20 | `undefined` gives the empty list; otherwise one point per sample, in order, none dropped |
| `ChartUtils.FormatChartDataOfNothing` | src/domains/home/detail/utils/index.ts:11-17 | both `undefined` and the empty list normalise to the empty list |
| `ChartUtils.Extent` | src/domains/home/detail/utils/index.ts:39-40 | the extent is absent exactly for the empty list; otherwise both ends occur in the list and bound every element |
| `ChartUtils.ApplyEndpoints` | src/domains/home/detail/utils/index.ts:42-49 | under the affine-scale assumption, a non-degenerate domain's lower end maps to the range's first end and its upper end to the second |
| `ChartUtils.ApplyMonotone` | src/domains/home/detail/utils/index.ts:42-49 | over an increasing domain the scale keeps order for an increasing range and reverses it for a decreasing one |
| `ChartUtils.GetScales` | src/domains/home/detail/utils/index.ts:31-52 | the x range is `[margin.left, width - margin.right]` = `[0, width]`, and the y range is `[height - 20, 20]`. Each domain is absent exactly for no data. Otherwise each domain is the least and greatest timestamp (resp. close), attained by some point and bounding all |
| `ChartUtils.ScalesMapYExtentToInsetRange` | src/domains/home/detail/utils/index.ts:38-51 | with a non-degenerate y extent, the lowest close is drawn at `height - 20` and the highest at `20` |
| `ChartUtils.ScalesMapXExtentToFullWidth` | src/domains/home/detail/utils/index.ts:38-51 | with a non-degenerate x extent, the earliest time is drawn at 0 and the latest at `width` |
| `ChartUtils.YScaleIsInverted` | src/domains/home/detail/utils/index.ts:46-49 | for a chart taller than 40 pixels, a larger value is drawn at a smaller pixel coordinate |
| `ChartUtils.HundredPixelExample` | src/domains/home/detail/utils/index.ts:46-49 | closes of 10 and 20 on a 100-pixel-high chart are drawn at 80 and 20 |

## Left out

- The data-cache library (keyed cache, request deduplication, stale-while-revalidate, background refetch, hydration, `prefetchQuery`/`dehydrate`) is not part of this model. It is third-party code, and it is asynchronous and concurrent. Only the keys the dashboard chooses, its `select` projections and its invalidation calls are modelled.
- The remote calls (`fetch`, `api_saveTicker`, `api_removeTicker`, `api_getSavedTickerList`) are not modelled: they are network I/O. A write's result is the `Outcome` parameter of `Click`.
- Savebutton.SaveButton.Click: the write settles within the same step as the click. The asynchronous gap, and the race between two overlapping save/remove writes, are not modelled. Nothing in the dashboard orders such writes.
- The staleness flag is never cleared, because clearing it is the cache library's refetch.
- `sortByVolume`, `sortByName` and `formatNumber` live in a module that is not part of this model. The two sorts are function parameters and nothing is claimed about their order or stability. Number formatting (`formatNumber`, `toFixed`) is not modelled.
- `INTERVAL_LIST` is not part of this model. It is a parameter, taken to be non-empty.
- Home.Rate: requires a non-zero opening price. JavaScript yields an infinite or NaN percentage there, and real numbers cannot represent that.
- Home.GetTickerRow: has no rate for a zero opening price, where JavaScript shows an infinite or NaN percentage; the rest of the row is still built.
- Home.ToUpperCase: upper-cases ASCII letters only. JavaScript's `toUpperCase` also maps other scripts; ticker symbols are ASCII.
- ChartUtils.FormatChartData: `new Date(...)` and `parseFloat` are uninterpreted functions returning reals. An invalid date or an unparsable close (NaN in JavaScript) is not represented, although such a sample still yields a point.
- ChartUtils.Apply: is defined only for a non-degenerate domain. What the charting library does when all values are equal is its own behaviour and is not modelled.
- `useChart`, `useResizeObserver` and the drawing itself are not part of this model: they are DOM and SVG side effects. The same holds for `getRects`, which reads the element's bounding box.
- Detail.DetailPage.HandleChangeInterval: the router's query is updated in the same step as the `router.replace` call, although the navigation itself is asynchronous. `Detail.WithIntervalLatestWins` shows the final query does not depend on that.
- Markup, images, links and the ticker's `id` (used only as a list key) are not modelled. Neither is the icon's alt text on the list row, which interpolates the whole label table (src/domains/home/index.tsx:76).
- The `console.log` calls in `handleError` (src/domains/home/Savebutton.tsx:24) and in the resize callback (src/domains/home/detail/index.tsx:51) are not modelled: they are console output only.
- IEEE floating-point rounding is not modelled; numbers are exact reals.
