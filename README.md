# Indian Market Bubbles — a Dafny model of the core

This project models the core of a single-page app. The app shows every
NSE-listed stock as a bubble: the size follows the absolute percentage change
over a selected horizon (1 hour, 1 day, 1 week, 1 month, 1 year), and the
colour follows its sign and size. The Dafny modules follow the program's own
parts:

| module (file) | models |
|---|---|
| `Stocks` (stocks.dfy) | the stock record and its `changes` map, `find` by symbol |
| `Sorting` (sorting.dfy) | the stable, largest-first sort both views apply |
| `Nse` (nse_service.dfy) | the row filter and mapping of one index fetch, the merge of all index fetches into one record per symbol with the "upgrade from Other" rule, and the market-hours test |
| `ChangeTracker` (change_tracker.dfy) | the `HourlyTracker` class (price log, throttled trimmed save, one-hour change, data age) and the weekly-change computation |
| `MarketHook` (market_data.dfy) | the `useMarketData` hook as a class: the first load (record, save, weekly changes, enrich) and the poll (merge fresh quotes by symbol) |
| `StockView` (stock_view.dfy) | the list logic of `App`: category filter, ranking by abs(change), the rank window, the category count, the click handler |
| `BubbleRadius` (bubble_radius.dfy) | the device multiplier, the radius bounds, the rank/ratio blend and the 52% area cap |
| `BubblePlacement` (bubble_placement.dfy) | the size-sorted spiral seeding of the simulation nodes |
| `BubbleNodes` (bubble_nodes.dfy) | the nodes as objects changed in place: the tick's boundary clamp, the drag handlers and the ambient nudge |
| `BubbleLabels` (bubble_labels.dfy) | the colour bands and the four radius-dependent labels |

Inputs that the program reads from the outside world are parameters:

- `Date.now()` is `now`, in milliseconds.
- The day, hour and minute in Indian Standard Time are arguments to `IsMarketOpen`.
- A fetch is the rows it returned, or `None` for a failed or malformed response.
- The settled index fetches are a sequence of `Fulfilled`/`Rejected` values.
- The historical-endpoint answers are a map from symbol to change.
- `Math.random()` draws are a sequence of numbers in [0, 1).
- The stored tracker snapshot (localStorage `hourly_v3`) is a constructor argument and a field.
- The symbol to sector/industry table is a `map` parameter. `src/config/sectorMapping.js` is not part of this model.
- The math functions are function-typed parameters, each with the properties the proofs use:
  - `Math.pow(·, 2.2)` and `Math.pow(·, 1.5)` map [0, 1] into [0, 1], are monotone, and send 1 to 1.
  - `Math.sqrt` squares back to its argument.
  - `Math.cos` and `Math.sin` lie in [-1, 1].

Numbers are exact reals. `Math.PI` is the double value 3.141592653589793 taken as an exact real.

Behaviour of the code that a reader may not expect:

- An entity at x = -5 with radius 20 and gap 2 is clamped to x = 24, not 22. The code's padding is `radius + gap + 2` (`BubbleNodes.ClampLeftEdgeExample`).
- The 52% area cap is not an invariant of the code. The scaled radii are floored at 0.8 × minRadius, and minRadius is at least 14. So on a 10 × 10 viewport a single bubble already covers more than 52% (`BubbleRadius.AreaCapBrokenOnTinyViewport`). What holds is that the scaled radii before the floor fill exactly the allowed area (`BubbleRadius.SizeBubblesArea`).
- A viewport of zero width or height is not skipped. The chart effect only returns early for an empty list or a missing SVG element. The model's radius and seeding functions are total for width and height ≥ 0.
- The "Nifty 50" symbol set lists 49 symbols (`Nse.Nifty50`).
- On a viewport narrower than two paddings the two clamps of an axis cross. The node always ends on the high edge, and a node that started beyond the low edge keeps 9% of its speed (`BubbleNodes.ClampCrossedEdges`).

## Model

| member | source | states |
|---|---|---|
| Stocks.ChangeAt | src/components/BubbleChart.jsx:85 | a horizon present in `changes` reads as its value, an absent one as 0 |
| Stocks.Find | src/App.jsx:67 | finds a record exactly when some record has the symbol; the one found is the first with that symbol |
| Sorting.Insert | src/App.jsx:39-43 | inserting into a largest-first list keeps it sorted and adds exactly one element |
| Sorting.SortDesc | src/components/BubbleChart.jsx:175 | the result is sorted largest key first and is a permutation of the input |
| Sorting.InsertFilter | src/App.jsx:39-43 | an inserted element comes after every element of the list with the same key |
| Sorting.SortDescStable | src/components/BubbleChart.jsx:175 | the sort is stable: the elements of any one key come out in their input order |
| Stocks.Filter | src/App.jsx:32-37 | `filter` keeps exactly the elements that pass the test and is never longer than its input |
| Stocks.FilterAppend | src/App.jsx:32-37 | `filter` keeps the input order: one more element at the end adds it at the end exactly when it passes |
| Stocks.FilterCount | src/App.jsx:32-37 | `filter` keeps every copy of an element that passes and no copy of one that fails |
| Nse.DecodeSpaces | src/services/nseService.js:39 | `replace(/%20/g, " ")` never lengthens a string |
| Nse.DecodeSpacesPlain | src/services/nseService.js:39 | a prefix without '%' passes through the decoding unchanged |
| Nse.DecodeSpacesPlainName | src/services/nseService.js:39 | a name without '%' decodes to itself |
| Nse.DecodeSpacesEncoded | src/services/nseService.js:39 | "%20" after a plain prefix becomes one space ("NIFTY%20500" to "NIFTY 500") |
| Nse.IndexNamesAreDisplayNames | src/services/nseService.js:87-106 | each of the 18 fetched index names is its own decoded name, so the filter drops exactly the row named like the index |
| Nse.ToStock | src/services/nseService.js:40-65 | symbol, prices, 52-week band passed through; name falls back to the symbol, volume to 0, sector/industry to Other/General; Nifty-50 flag is set membership; 1h and 1w are 0; 1d, 1m, 1y are the row's values or 0 |
| Nse.KeptRows | src/services/nseService.js:38-39 | a row is kept exactly when it has a non-empty symbol, a positive last price and a symbol other than the index's display name |
| Nse.ConvertRows | src/services/nseService.js:40-65 | every row's stock is in the output and every output stock comes from a row |
| Nse.FetchIndex | src/services/nseService.js:20-70 | a failed or malformed response gives no stocks; every stock has a non-empty symbol, a positive price and is not the index row; every kept row's stock is present and every stock comes from a kept row |
| Nse.Absorb | src/services/nseService.js:117-126 | the incoming symbol is then stored and other symbols' records are unchanged |
| Nse.AbsorbKeepsRealSector | src/services/nseService.js:122-125 | a stored record whose sector is not "Other" is never changed by a merge step |
| Nse.Values | src/services/nseService.js:131 | `Object.values` lists the stored records in key order, one per key |
| Nse.AbsorbWellFormed | src/services/nseService.js:117-126 | a merge step keeps the key order duplicate-free, in step with the table, and each record under its own symbol |
| Nse.DedupedWellFormed | src/services/nseService.js:114-129 | the merged map is well formed for every input |
| Nse.DedupedCoverage | src/services/nseService.js:114-129 | a symbol is stored exactly when some fetched record has it |
| Nse.WithSector | src/services/nseService.js:122 | the records with a real sector, in order |
| Nse.Expected | src/services/nseService.js:114-129 | the reference record: the first record of the symbol, with sector and industry taken from the first record of it that has a real sector |
| Nse.ExpectedOtherSymbol | src/services/nseService.js:117-126 | a record for another symbol leaves the reference record unchanged |
| Nse.ExpectedNewSymbol | src/services/nseService.js:118-119 | the first record of a symbol is its reference record |
| Nse.ExpectedKnownSymbol | src/services/nseService.js:120-125 | a later record upgrades the reference exactly when it is still "Other" and the record has a real sector |
| Nse.ExpectedStep | src/services/nseService.js:117-126 | one merge step agrees with the reference record |
| Nse.DedupedEntries | src/services/nseService.js:114-129 | every stored record equals the reference record of its symbol |
| Nse.MergeResults | src/services/nseService.js:109-131 | the nested merge loop over the fulfilled results returns `Object.values` of the merged map |
| Nse.MergeResultsProperties | src/services/nseService.js:113-131 | the merged list has distinct symbols, exactly the fetched symbols, and each record is the reference record of its symbol |
| Nse.AbsorbAll | src/services/nseService.js:117-127 | the inner loop over one fetch's records leaves the merge at Deduped of everything fetched so far |
| Nse.ValuesCover | src/services/nseService.js:131 | a list of the stored records in key order has the keys as symbols and holds exactly the stored records |
| Nse.RealSectorIsFinal | src/services/nseService.js:121-125 | once a stored record has a real sector, no later record changes it |
| Nse.IsMarketOpen | src/services/nseService.js:146-157 | open exactly Monday to Friday from 9:15 to 15:30 inclusive |
| ChangeTracker.Prune | src/services/changeTracker.js:33-35 | keeps exactly the samples newer than the cutoff |
| ChangeTracker.PruneIncreasing | src/services/changeTracker.js:33-35 | pruning keeps the sample times increasing |
| ChangeTracker.Recorded | src/services/changeTracker.js:31-35 | the new sample is last, every kept sample is under four hours old, and the kept samples are the old and new ones in that window |
| ChangeTracker.RecordKeepsOrder | src/services/changeTracker.js:26-35 | a recorded, unthrottled sample keeps the log's times strictly increasing |
| ChangeTracker.LastEntries | src/services/changeTracker.js:50 | `slice(-80)` is the last min(80, n) samples |
| ChangeTracker.SavedSymbols | src/services/changeTracker.js:47 | exactly the first min(250, n) symbols of the key order |
| ChangeTracker.Trimmed | src/services/changeTracker.js:45-51 | the saved object has exactly the saved keys, each with its trimmed log |
| ChangeTracker.SnapshotBounds | src/services/changeTracker.js:44-52 | a save stores exactly the first min(250, n) keys in key order, well formed, each with at most its last 80 samples |
| ChangeTracker.Closest | src/services/changeTracker.js:67-77 | the scan picks a sample closest to the target and no earlier one as close |
| ChangeTracker.ClosestUnique | src/services/changeTracker.js:67-77 | the closest sample so defined is unique |
| ChangeTracker.PercentChange | src/services/changeTracker.js:81-83 | the change is non-negative exactly when the price did not fall, and zero exactly when it is unchanged |
| ChangeTracker.HourlyChange | src/services/changeTracker.js:58-97 | no change for a missing or one-sample log or a non-positive current price, and a change only otherwise |
| ChangeTracker.HourlyChangeReference | src/services/changeTracker.js:79-96 | for any sample closest to the one-hour mark, the change is against it when it is within 20 minutes and positive, else against the oldest when at least 5 minutes old and positive, else none |
| ChangeTracker.HourlyChangeFromSample | src/services/changeTracker.js:79-96 | any change returned is the change from a positive recorded price near the hour mark or from the oldest sample |
| ChangeTracker.RoundMinutes | src/services/changeTracker.js:102 | rounds milliseconds to the nearest minute, halves up |
| ChangeTracker.DataAgeMinutes | src/services/changeTracker.js:99-103 | 0 for a missing or empty log, else the rounded age of the oldest sample |
| Stocks.Get | src/services/changeTracker.js:59 | a property read (`priceHistory[symbol]`, `changes?.[p]`) is None exactly when the key is absent, else the stored value |
| ChangeTracker.LogOrEmpty | src/services/changeTracker.js:18-20 | the symbol's log, or a new empty one |
| ChangeTracker.RecordStep | src/services/changeTracker.js:15-36 | a non-positive or throttled price changes nothing; otherwise the symbol's log becomes Recorded and a new symbol joins the key order; other logs are unchanged; well-formedness is kept |
| ChangeTracker.RecordMatched | src/hooks/useMarketData.js:32-34 | recording a list keeps the key order well formed and leaves unlisted symbols' logs unchanged |
| ChangeTracker.HourlyTracker.constructor | src/services/changeTracker.js:9-13 | the tracker starts from the stored snapshot or empty, never saved |
| ChangeTracker.HourlyTracker.RecordPrice | src/services/changeTracker.js:15-36 | the new key order and log are RecordStep of the old ones |
| ChangeTracker.HourlyTracker.SaveToStorage | src/services/changeTracker.js:38-56 | a save under 30 s after the last stores nothing; otherwise the trimmed snapshot is stored and the save time updated; the log is untouched |
| ChangeTracker.HourlyTracker.GetHourlyChange | src/services/changeTracker.js:58-97 | returns HourlyChange of the symbol's log |
| ChangeTracker.HourlyTracker.GetDataAgeMinutes | src/services/changeTracker.js:99-103 | returns DataAgeMinutes of the symbol's log |
| ChangeTracker.TrimLogs | src/services/changeTracker.js:45-51 | the `forEach` loop builds exactly Trimmed |
| ChangeTracker.ClosestSample | src/services/changeTracker.js:67-77 | the `for` scan returns Closest and its distance |
| ChangeTracker.Estimate | src/services/changeTracker.js:152-166 | monthly / 4.3 when the monthly change is non-zero, else daily × 3 when that is non-zero, else 0 |
| ChangeTracker.TopStocks | src/services/changeTracker.js:131 | the first min(80, n) of the n priced stocks, in their order |
| ChangeTracker.Priced | src/services/changeTracker.js:131 | exactly the listed stocks with a positive price |
| ChangeTracker.FetchedChanges | src/services/changeTracker.js:130-149 | keeps exactly the historical answers given for the top stocks |
| ChangeTracker.FillEstimates | src/services/changeTracker.js:151-167 | every stock gets a value; fetched values are kept; others get the estimate of their first occurrence |
| ChangeTracker.WeeklyChanges | src/services/changeTracker.js:113-179 | every symbol gets a value; it is the historical answer for a top stock answered for, the estimate otherwise |
| MarketHook.Enrich | src/hooks/useMarketData.js:43-58 | all five horizons set: 1h from the tracker or 0, 1w from the weekly map or 0, 1d/1m/1y the stock's own or 0; other fields kept |
| MarketHook.Enriched | src/hooks/useMarketData.js:43-59 | the enriched list keeps length and symbols, and each stock is enriched with its own one-hour change |
| MarketHook.MergeStock | src/hooks/useMarketData.js:102-118 | quote fields and 1d/1m/1y from the fresh quote; 1h from the tracker, else the previous value; 1w from the weekly map, else the previous; all else kept |
| MarketHook.Updated | src/hooks/useMarketData.js:91-118 | a stock keeps its symbol and is unchanged when no quote has its symbol |
| MarketHook.PollMerged | src/hooks/useMarketData.js:88-122 | the poll keeps the previous list's length, order and symbols, and changes no identity fields |
| MarketHook.PollDropsNewSymbols | src/hooks/useMarketData.js:91-93 | a quote for a symbol not listed before never enters the list |
| MarketHook.IndexBySymbol | src/hooks/useMarketData.js:89 | the map holds exactly the previous symbols, each with its record |
| MarketHook.MergeOne | src/hooks/useMarketData.js:91-118 | one round of the quote loop keeps the loop invariant |
| MarketHook.MergeFresh | src/hooks/useMarketData.js:88-122 | the loop records the matched quotes in the tracker and returns PollMerged of the resulting log |
| MarketHook.ReadOut | src/hooks/useMarketData.js:121 | `Array.from(map.values())` is the previous list, each stock updated |
| MarketHook.MarketData.constructor | src/hooks/useMarketData.js:7-16 | the initial state: no stocks, loading, no error, closed, age 0 |
| MarketHook.MarketData.Save | src/hooks/useMarketData.js:124 | within 30 s of the last save the snapshot and save time are kept; otherwise the trimmed snapshot is stored and the save time is now; the stocks, the tracker's log and all other hook state are unchanged |
| MarketHook.MarketData.LoadInitialData | src/hooks/useMarketData.js:19-77 | an empty list fails with the no-data error and keeps the stocks, the tracker's key order and log, the snapshot and the save time; otherwise prices are recorded, the tracker is saved (SavedAt), weekly changes computed, the stocks become the enriched list, and loading ends without error |
| MarketHook.MarketData.LoadStocks | src/hooks/useMarketData.js:31-69 | the successful load: prices recorded, the tracker saved (SavedAt), weekly values per stock, the stocks replaced by the enriched list, the data age of the first stock, no error |
| MarketHook.MarketData.Publish | src/hooks/useMarketData.js:61-69 | the state setters of a successful load |
| MarketHook.MarketData.PollUpdate | src/hooks/useMarketData.js:80-134 | the market flag is refreshed; an empty quote list changes nothing else (stocks, times, the tracker's key order, log and save time, the snapshot); otherwise the stocks become PollMerged, the tracker records matched quotes and is saved (SavedAt), and time and age are refreshed |
| MarketHook.FirstLoad | src/hooks/useMarketData.js:31-69 | records all prices, returns the save's snapshot or none when throttled, computes weekly values per stock, enriches, and reads the first stock's data age, keeping the symbols distinct |
| MarketHook.WeeklyOfDistinct | src/hooks/useMarketData.js:39-40 | with distinct symbols every stock has its own weekly value |
| MarketHook.RecordAll | src/hooks/useMarketData.js:31-34 | the loop leaves the tracker at RecordMatched of the whole list |
| MarketHook.EnrichAll | src/hooks/useMarketData.js:43-59 | the `map` loop returns Enriched of the tracker's log |
| StockView.Magnitude | src/App.jsx:41-42 | the abs(change) the list is ranked by, missing as 0 |
| StockView.Candidates | src/App.jsx:28-37 | exactly the stocks in the category with a positive price, each as often as in the input (the order by Stocks.FilterAppend) |
| StockView.Ranked | src/App.jsx:39-43 | the candidates, sorted by abs(change) largest first, as a permutation |
| StockView.SliceBounds | src/App.jsx:45-48 | `slice(start, end)` bounds: clamped to the length, empty when end is before start, all when end is Infinity |
| StockView.FilteredStocks | src/App.jsx:25-51 | an empty list gives nothing; the window holds only listed stocks, ranked, and is the slice of the ranked list |
| StockView.TotalInCategory | src/App.jsx:53-59 | the count of listed stocks in the category |
| StockView.WindowWithinCategory | src/App.jsx:25-59 | the window never exceeds the category count nor end − start |
| StockView.FullWindowIsPermutation | src/App.jsx:45-48 | the window from 0 to Infinity holds every listed stock exactly as often |
| StockView.ListedStockShown | src/App.jsx:25-51 | every listed stock is in the full window |
| StockView.HandleStockClick | src/App.jsx:61-71 | a click on nothing clears; a click selects the current record of that symbol, or the clicked one when it is gone |
| BubbleRadius.DiagonalComparison | src/components/BubbleChart.jsx:55-69 | comparing the diagonal with a breakpoint equals comparing squares |
| BubbleRadius.DeviceMultiplier | src/components/BubbleChart.jsx:62-69 | the multiplier lies in [1.0, 1.8] |
| BubbleRadius.DeviceMultiplierMonotone | src/components/BubbleChart.jsx:62-69 | a bigger screen never gets a smaller multiplier |
| BubbleRadius.TierFactors | src/components/BubbleChart.jsx:92-108 | each tier's minimum factor is positive and below its maximum |
| BubbleRadius.TierFactorsShrink | src/components/BubbleChart.jsx:92-108 | more stocks never get larger factors |
| BubbleRadius.RadiusBounds | src/components/BubbleChart.jsx:92-112 | minRadius ≥ 14 and maxRadius ≥ 3.5 × minRadius, each the tier value or the floor |
| BubbleRadius.CountAtMostPermutation | src/components/BubbleChart.jsx:89-117 | counting on the sorted copy equals counting on the original |
| BubbleRadius.SortedChanges | src/components/BubbleChart.jsx:89 | the changes sorted ascending, a permutation |
| BubbleRadius.Rank | src/components/BubbleChart.jsx:117 | the rank lies in [0, 1] and is positive for a listed value |
| BubbleRadius.RankMonotone | src/components/BubbleChart.jsx:117 | a larger change never ranks lower |
| BubbleRadius.MaxChange | src/components/BubbleChart.jsx:128 | at least 0.1, at least every change, and either 0.1 or one of them |
| BubbleRadius.BlendedRadius | src/components/BubbleChart.jsx:124-136 | the blended radius lies in [minR, maxR] and is maxR at rank 1 and ratio 1 |
| BubbleRadius.BlendedRadiusMonotone | src/components/BubbleChart.jsx:124-136 | the blend is monotone in rank and ratio |
| BubbleRadius.AbsChanges | src/components/BubbleChart.jsx:84-86 | abs(change) of each stock, missing as 0 |
| BubbleRadius.Ratio | src/components/BubbleChart.jsx:128-129 | the change ratio lies in [0, 1] |
| BubbleRadius.RadiusAt | src/components/BubbleChart.jsx:115-139 | one stock's radius lies in [minR, maxR] |
| BubbleRadius.UnscaledRadii | src/components/BubbleChart.jsx:115-139 | every unscaled radius lies in [minR, maxR] |
| BubbleRadius.RadiusMonotone | src/components/BubbleChart.jsx:115-139 | a larger abs(change) never gets a smaller radius |
| BubbleRadius.LargestGetsMaxRadius | src/components/BubbleChart.jsx:115-139 | the largest change (≥ 0.1) gets exactly maxRadius |
| BubbleRadius.TotalArea | src/components/BubbleChart.jsx:146-149 | the total area is non-negative |
| BubbleRadius.ScaleFactor | src/components/BubbleChart.jsx:150-155 | 1 when the bubbles fit; otherwise below 1 with factor² × total = allowed |
| BubbleRadius.ScaledArea | src/components/BubbleChart.jsx:146-159 | scaling radii by s scales the area by s² |
| BubbleRadius.ScaledRadius | src/components/BubbleChart.jsx:158-161 | never below 0.8 × minR, never above the unscaled radius, unchanged at scale 1 |
| BubbleRadius.ScaledRadii | src/components/BubbleChart.jsx:158-161 | each radius is ScaledRadius of its unscaled one |
| BubbleRadius.Allowed | src/components/BubbleChart.jsx:150 | the allowed area is non-negative |
| BubbleRadius.SizeBubbles | src/components/BubbleChart.jsx:53-161 | the whole radius model: bounds, unscaled radii in range, scaled radii between the floor and the unscaled radius |
| BubbleRadius.SizeBubblesArea | src/components/BubbleChart.jsx:146-161 | bubbles that fit are left alone; otherwise the scaled radii before the floor cover exactly 52% of the viewport |
| BubbleRadius.AreaCap | src/components/BubbleChart.jsx:146-161 | the same for any list of radii above minR |
| BubbleRadius.FloorArea | src/components/BubbleChart.jsx:158-161 | radii floored at f cover at least n·π·f² |
| BubbleRadius.AreaCapBrokenOnTinyViewport | src/components/BubbleChart.jsx:110-161 | on a 10 × 10 viewport one bubble covers more than 52% |
| BubblePlacement.AverageRadius | src/components/BubbleChart.jsx:177-178 | the mean radius, 30 for an empty list or zero mean, positive for non-negative radii |
| BubblePlacement.Gap | src/components/BubbleChart.jsx:179 | at least 2 and at least 6% of the mean radius |
| BubblePlacement.Indexed | src/components/BubbleChart.jsx:168-172 | stock i paired with radius i and its signed change |
| BubblePlacement.ByRadius | src/components/BubbleChart.jsx:175 | a permutation, largest radius first |
| BubblePlacement.SpiralOffset | src/components/BubbleChart.jsx:182-194 | the offset along an axis is within 35% of the extent |
| BubblePlacement.Place | src/components/BubbleChart.jsx:181-198 | a node keeps stock, radius and change, starts at rest within 35% of the centre |
| BubblePlacement.SeedBubbles | src/components/BubbleChart.jsx:168-198 | the seeded nodes are the input triples, largest first, at rest, near the centre |
| BubbleNodes.Node.constructor | src/components/BubbleChart.jsx:181-198 | a node starts where it was seeded, unpinned |
| BubbleNodes.Node.DragStart | src/components/BubbleChart.jsx:241-244 | pins the node where it is |
| BubbleNodes.Node.DragMove | src/components/BubbleChart.jsx:252-255 | the pin follows the pointer |
| BubbleNodes.Node.DragEnd | src/components/BubbleChart.jsx:256-259 | the pin is released |
| BubbleNodes.Padding | src/components/BubbleChart.jsx:445 | radius + gap + 2 |
| BubbleNodes.ClampAxis | src/components/BubbleChart.jsx:446-461 | with edges in order the position ends between them and the velocity bounces by −0.3 exactly when an edge was crossed; with crossed edges it ends on the high edge |
| BubbleNodes.ClampLeftEdgeExample | src/components/BubbleChart.jsx:445-449 | x = −5, radius 20, gap 2 lands at 24 with vx × −0.3 |
| BubbleNodes.ClampCrossedEdges | src/components/BubbleChart.jsx:446-453 | on a too-narrow viewport the node is bounced twice and ends on the high edge |
| BubbleNodes.ClampNode | src/components/BubbleChart.jsx:444-462 | the node holds the clamp of its old position and velocity; pins untouched |
| BubbleNodes.ClampedInside | src/components/BubbleChart.jsx:444-462 | a clamped node lies within its padding on a wide enough viewport |
| BubbleNodes.Tick | src/components/BubbleChart.jsx:443-464 | every node is clamped in place; pins untouched |
| BubbleNodes.Truthy | src/components/BubbleChart.jsx:472 | null and 0 are falsy pins |
| BubbleNodes.NudgeEligible | src/components/BubbleChart.jsx:472 | free nodes and nodes pinned at (0, 0) are nudged |
| BubbleNodes.Jitter | src/components/BubbleChart.jsx:473-474 | each nudge is under 0.075 in size |
| BubbleNodes.AmbientNudge | src/components/BubbleChart.jsx:468-478 | below alpha 0.01 each eligible node's velocity gets its jitter; positions, pins and others untouched |
| BubbleLabels.BubbleColor | src/components/BubbleChart.jsx:10-21 | the colour is the palette entry of the band the parsed change lies in |
| BubbleLabels.BandsPartition | src/components/BubbleChart.jsx:12-20 | every change lies in exactly one band and the colours are distinct |
| BubbleLabels.UnparsedIsNeutral | src/components/BubbleChart.jsx:11-16 | an unparsable change gets the neutral colour of 0 |
| BubbleLabels.BandsOrdered | src/components/BubbleChart.jsx:12-20 | a larger change never lands in a weaker band |
| BubbleLabels.SymbolLabel | src/components/BubbleChart.jsx:286-291 | nothing below 18, then the first 3, 5 or all characters of the symbol |
| BubbleLabels.Prefix | src/components/BubbleChart.jsx:288-289 | `substring(0, n)` is the first min(n, length) characters |
| BubbleLabels.ChangeLabel | src/components/BubbleChart.jsx:315-318 | shown exactly from radius 24, a sign, the number and a percent sign |
| BubbleLabels.PriceLabel | src/components/BubbleChart.jsx:342-345 | shown exactly from radius 42, the rupee sign and the price |
| BubbleLabels.NameLabel | src/components/BubbleChart.jsx:363-367 | shown from radius 58, names over 16 characters cut to 15 and an ellipsis |
| BubbleLabels.LabelsGrowWithRadius | src/components/BubbleChart.jsx:286-367 | a bigger bubble shows at least the labels of a smaller one |

## Left out

- Network, caches and timers: `fetch`, the proxy, the sessionStorage cache of `fetchAllStocks` and its TTL, the six-hour weekly cache, the 600 ms batching delay, the poll interval and the float timers. These become inputs or are not modelled.
- JSON, storage failures and the `try`/`catch` paths of `saveToStorage` and the loaders: a save always succeeds. A load failure is modelled only for the empty list.
- d3: the force simulation between ticks, transitions, easing, hover and click highlights, and the DOM. The nodes change only through the tick, the drag handlers and the nudge.
- `fetchOneStockWeekly`: its answers are the `historical` map.
- `toFixed(2)` rounding and `toLocaleString` formatting: changes are exact reals, and labels take a formatting function.
- Floating point: NaN, Infinity and rounding. A change that does not parse is `None`.
- A row's missing numeric fields other than those the code tests: open, high, low, previous close and the 52-week band are always present.
- `Object.keys` / `Object.values` order: keys are in insertion order. JavaScript puts integer-like keys first, which no NSE symbol is.
- The intermediate `loading`/`error` values during a load: only the final state is modelled.
- Nse.MergeResults: the merged records are values, so the in-place update of the first record's sector, which the fetched list also sees, is not modelled.
- MarketHook.MarketData.LoadInitialData and MarketHook.MarketData.PollUpdate: one `now` stands for every clock read of a load or poll. The source reads `Date.now()` separately when recording (src/services/changeTracker.js:22), saving (line 39), computing the one-hour change (line 64) and the data age (line 102). The awaited `fetchWeeklyChanges` between recording and enriching (src/hooks/useMarketData.js:32-46) is one step; its batches run in order before the load resumes. The `setStocks` updater of the poll runs at once, so the model orders the merge before the save and the data-age read (src/hooks/useMarketData.js:88-130). React may run that updater later, after them.
- MarketHook.MarketData.LoadInitialData: requires distinct symbols, which the merge of the data service guarantees (`Nse.MergeResultsProperties`).
- MarketHook.MarketData.PollUpdate: requires distinct symbols in the quote list for the same reason.
- MarketHook.MarketData.PollUpdate: when the previous list has repeated symbols, `new Map` would merge them. The model's invariant keeps symbols distinct.
- The presentation components (header, filters, range selector, panels, tooltip, footer, loading screen), the service worker and the proxy worker.
