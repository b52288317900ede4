# A verified model of the stonks dashboard's computing core

The repository is a market dashboard. Its computing parts are the following.

- A C trading engine (`c-core/trading_engine.c`). It holds a ring buffer of 30 prices per asset, a momentum signal, a best-trade scan, and one position with stop-loss, take-profit and trailing stop.
- The dashboard's trading game (`src/App.jsx`). Its effects move prices, manage and open positions, and compute the win rate. It also has the question shortener `tldr` and the market filter.
- The Monte Carlo projection (`src/utils/math.js`). It covers the simulated paths, the percentile bands, hit probabilities, the analytic cross-check for an expired horizon, and the Fibonacci levels.
- The terminal's views (`polymarket-terminal/src/App.jsx`). These are the histogram of terminal values, the category filter and the per-scenario runs.
- The serverless handlers. `api/history.js`, `polymarket-terminal/api/markets.js` and `api/stocks.js` validate parameters and filter upstream answers.
- The hooks:
  - the retrying fetch and stock-map validation (`src/hooks/useStocks.js`);
  - the live-price merges and "last updated" labels of both apps;
  - the Manifold market pipeline (`src/hooks/useManifold.js`);
  - the terminal news widget's relative time, URL and state.
- Three Python scripts:
  - `portfolio_tracker.py`: alerts, the screener, totals and allocations;
  - `prediction_markets.py`: market formatting and the table;
  - `check_cvx_put.py`: put payoffs.

How the source's form is kept:
- Code that updates state in place is modelled as a class with `modifies` clauses:
  - the C engine's `PriceBuffer`, `Asset` and `Engine`, over arrays;
  - the game's `Simulator`;
  - `PortfolioTracker` and `PredictionMarketsTracker`;
  - the `StockFeed`, `StockHistory`, `ManifoldFeed` and `NewsWidget` states.
- Each method is proved against a specification function of the old state and the inputs. The properties the source promises are lemmas about those functions.
- Loops in the source are loops here:
  - the ring-buffer average and the best-trade scan;
  - the Monte Carlo path, day and percentile loops;
  - the retry loop, the stock-map `forEach` and the price-merge `forEach`;
  - the portfolio loops and the table loop.
- Pure code (filters, formatting, handlers' validation) is functions and lemmas.

Randomness, clocks and fetches are parameters:
- Each engine tick takes a `TickDraw` per asset; the game's ticks take `SimDraw`s.
- The Monte Carlo step factor is a function of the path and day index.
- The current time is passed in milliseconds.
- Every fetch is a datatype of its possible outcomes.

`float`, `double` and JavaScript numbers are `real`. The C `tick` wraps at 2^32, as a `uint32_t` does.

## Model

| member | source | states |
|---|---|---|
| PriceHistory.PriceBuffer.constructor | c-core/trading_engine.c:9 | a new buffer is empty: head 0, count 0, no retained prices |
| PriceHistory.PriceBuffer.Clear | c-core/trading_engine.c:27-28 | clearing resets head and count, so nothing is retained |
| PriceHistory.PriceBuffer.Push | c-core/trading_engine.c:35-39 | head advances modulo 30, count grows by one up to 30, the price lands in slot head−1 mod 30, and the retained prices become the last 30 of the old ones plus the new one |
| PriceHistory.RingPush | c-core/trading_engine.c:36-38 | writing at head and advancing keeps the array a ring image of the last 30 prices |
| PriceHistory.RecentSlot | c-core/trading_engine.c:47-51 | the i-th of the n most recent prices sits at slot head − min(n,count) + i modulo 30 |
| PriceHistory.PriceBuffer.Average | c-core/trading_engine.c:42-55 | 0 on an empty buffer, else the mean of the min(n,count) most recent prices, which lies between their minimum and maximum |
| PriceHistory.PriceBuffer.SumRecent | c-core/trading_engine.c:46-52 | the wrap-around loop sums exactly the min(n,count) most recent prices |
| EngineRules.NextTick | c-core/trading_engine.c:216 | the tick counter increments and wraps to 0 at 2^32 |
| EngineRules.Recorded | c-core/trading_engine.c:136-142 | a trade is appended only while fewer than 100 are recorded |
| EngineRules.Truncate7 | c-core/trading_engine.c:20-21 | the stored symbol is a prefix of at most 7 characters, the whole symbol when it fits |
| EngineRules.NextTrend | c-core/trading_engine.c:182-185 | the trend is kept unless the roll is below 5, and a new trend lies in [−0.0036, 0.0044] |
| EngineRules.Clamp | c-core/trading_engine.c:195-197 | the result lies in [lo, hi], equals the input inside it and the violated bound outside |
| EngineRules.StepPrice | c-core/trading_engine.c:187-197 | a stepped price always lies in [0.7·base, 1.5·base] and is the unclamped step when that already does |
| EngineRules.MomentumOf | c-core/trading_engine.c:58-63 | momentum is 0 with fewer than 10 prices |
| EngineRules.MomentumFromMean | c-core/trading_engine.c:58-63 | with 10 or more prices, momentum is (current − mean of the last 10)/mean, and that mean is positive |
| EngineRules.MomentumAbove | c-core/trading_engine.c:58-63 | momentum exceeds t exactly when the price exceeds (1+t) times the 10-price mean |
| EngineRules.MomentumSign | c-core/trading_engine.c:58-63 | momentum is positive (negative) exactly when the price is above (below) the 10-price mean |
| EngineRules.Threshold | c-core/trading_engine.c:69 | the entry threshold is 0.015 exactly below a balance of 2, 0.022 exactly from 10 on, else 0.018 |
| EngineRules.ScanFraction | c-core/trading_engine.c:79 | the scan's size fraction is between 0.30 and 0.70 |
| EngineRules.ScanSize | c-core/trading_engine.c:79-80 | the scan's position size is between 30% and 70% of a non-negative balance |
| EngineRules.Screen | c-core/trading_engine.c:72-86 | the four filters as written (last traded while balance > 5, under 10 prices, price above half the size, size/price below 0.01) accept exactly the eligible assets |
| EngineRules.ScanUpTo | c-core/trading_engine.c:71-95 | the index picked after any prefix of the scan is −1 or inside that prefix |
| EngineRules.ScanUpToBest | c-core/trading_engine.c:71-95 | after each prefix the pick is eligible, beats the threshold, is maximal among eligible assets so far, and is strictly above every earlier eligible one |
| EngineRules.BestTrade | c-core/trading_engine.c:66-98 | the result is −1 or an asset index |
| EngineRules.BestTradeIsBest | c-core/trading_engine.c:66-98 | the result is −1 when no eligible asset beats the threshold, else an eligible asset of maximal momentum, the earliest on ties |
| EngineRules.BestIsUnique | c-core/trading_engine.c:66-98 | at most one index meets that description, so it fully determines the result |
| EngineRules.OpenFraction | c-core/trading_engine.c:104-106 | the opening fraction is between 0.15 and 0.70, and it is 0.15 exactly from a balance of 10 |
| EngineRules.OpenFractionAntitone | c-core/trading_engine.c:104-106 | a larger balance never gets a larger opening fraction |
| EngineRules.Opened | c-core/trading_engine.c:101-117 | no position exactly when balance·fraction < 0.001; otherwise one at the given asset and price with that size, with stop < entry < take-profit for a positive price |
| EngineRules.OpensAboveFloor | c-core/trading_engine.c:104-109 | above a balance of 0.5 the size test always passes |
| EngineRules.Pnl | c-core/trading_engine.c:132 | the profit is non-negative exactly when the exit is at or above the entry, or the size is 0 |
| EngineRules.ClosedBalance | c-core/trading_engine.c:133 | the closed balance is balance + pnl floored at 0.5 |
| EngineRules.Evaluate | c-core/trading_engine.c:148-174 | close exactly when the price is at the stop or at the take-profit, as STOP exactly at the stop; otherwise, above 1.02·entry, the stop becomes the larger of the old stop and 0.97·current, and at or below it the stop is unchanged |
| EngineRules.StopNeverLowered | c-core/trading_engine.c:166-173 | over any run of held ticks the stop never decreases |
| EngineRules.CloseBooks | c-core/trading_engine.c:129-145 | without a position nothing changes; otherwise the position is cleared to −1, the balance is the floored balance + pnl, and at most one record is appended, never past 100 |
| EngineRules.OpenBooks | c-core/trading_engine.c:101-126 | the balance is unchanged; a position is opened and a BUY recorded exactly when the size test passes |
| EngineRules.UpdateBooks | c-core/trading_engine.c:148-174 | holding changes only the stop, to exactly the value Evaluate gives, never downwards; an exit is a close at the current price; the log only grows and the 0.5 floor is kept |
| TradingEngine.StepState | c-core/trading_engine.c:179-201 | one asset's tick re-rolls the trend, moves the price within [0.7·base, 1.5·base] and pushes exactly that price |
| TradingEngine.Asset.constructor | c-core/trading_engine.c:9 | a zeroed asset with an empty buffer |
| TradingEngine.Asset.Init | c-core/trading_engine.c:19-29 | the asset gets the truncated symbol, its base as the current price, trend 0 and a one-price history |
| TradingEngine.Asset.ContentsPositive | c-core/trading_engine.c:192-199 | every retained price of a live asset is positive |
| TradingEngine.Asset.Momentum | c-core/trading_engine.c:58-63 | the method computes the asset's momentum from its buffer |
| TradingEngine.Asset.Step | c-core/trading_engine.c:182-200 | the in-place tick of one asset is the value-level step |
| TradingEngine.Asset.Record | c-core/trading_engine.c:199-200 | the new price becomes current and is pushed |
| TradingEngine.Asset.Walk | c-core/trading_engine.c:182-197 | the trend update and the clamped price step |
| TradingEngine.Engine.constructor | c-core/trading_engine.c:8-13 | the given balance, no assets, no trades, tick 0, position −1 and no last-traded asset |
| TradingEngine.Engine.AddAsset | c-core/trading_engine.c:16-32 | nothing changes at 64 assets; otherwise one asset is appended with current = base and a one-price history, and earlier assets are untouched |
| TradingEngine.Engine.FillSlot | c-core/trading_engine.c:19-29 | initialising one slot leaves every other slot unchanged |
| TradingEngine.Engine.FindBestTrade | c-core/trading_engine.c:66-98 | the loop over the live assets returns the best trade of their candidates |
| TradingEngine.Engine.ScanStep | c-core/trading_engine.c:72-94 | one loop iteration advances the scan state by one asset |
| TradingEngine.Engine.ScanAsset | c-core/trading_engine.c:72-88 | the per-asset filters and momentum read from the slot |
| TradingEngine.Engine.RecordTrade | c-core/trading_engine.c:136-142 | the trade array gains one record only while under 100 |
| TradingEngine.Engine.OpenPosition | c-core/trading_engine.c:101-126 | the ledger becomes OpenBooks of the old one, and the asset becomes last traded only when opened |
| TradingEngine.Engine.ClosePosition | c-core/trading_engine.c:129-145 | the ledger becomes CloseBooks of the old one with the position's own symbol |
| TradingEngine.Engine.UpdatePosition | c-core/trading_engine.c:148-174 | the ledger becomes UpdateBooks at the position's current price; the log only grows and the 0.5 floor is kept |
| TradingEngine.Engine.MovePrices | c-core/trading_engine.c:179-201 | every live asset is stepped exactly once with its own draw |
| TradingEngine.Engine.StepSlot | c-core/trading_engine.c:180-200 | stepping one asset leaves the others unchanged |
| TradingEngine.Engine.TryOpen | c-core/trading_engine.c:209-214 | a position is opened only if none is open and the balance exceeds 0.5, on the best trade |
| TradingEngine.Engine.ManagePosition | c-core/trading_engine.c:203-214 | an open position is updated first, then the open step runs on the resulting books |
| TradingEngine.Engine.EngineTick | c-core/trading_engine.c:177-217 | every asset steps once by its draw; an open position is updated at its moved price, giving the managed books; a scan on the moved prices happens exactly when the managed books are flat with balance above 0.5, and the books become the opening of its pick or stay the managed ones; the tick advances, the log only grows and the 0.5 floor is kept |
| TradingEngine.Engine.TradeAndAdvance | c-core/trading_engine.c:203-216 | the managed books are the update of an open position, or the old books; the pick is the best trade exactly when they are flat with balance above 0.5, else −1; the final books open the pick or equal the managed ones; the tick advances |
| TradingEngine.Engine.AdvanceTick | c-core/trading_engine.c:216 | the tick advances with wrap-around |
| TradingSimulator.AssetsOk | src/App.jsx:11-26 | the asset table has one positive base price per symbol |
| TradingSimulator.Cents | src/App.jsx:185 | the P&L logged with two decimals is within half a cent of the value and keeps its sign |
| TradingSimulator.Initial | src/App.jsx:119-128 | the initial state satisfies the game's invariant |
| TradingSimulator.NextPrice | src/App.jsx:154-159 | a moved price stays within [0.7·base, 1.5·base] |
| TradingSimulator.NextHistoryWindow | src/App.jsx:161-162 | a history grows by one up to 50, and trimming drops only the oldest prices |
| TradingSimulator.MovedHistoryWindow | src/App.jsx:153-163 | each symbol's moved history is the old suffix plus one price within its band |
| TradingSimulator.TickProperties | src/App.jsx:147-171 | a tick keeps the invariant; it changes nothing unless running with 10 < balance < 10000; otherwise it adds one to tick and one price per symbol, leaving balance, position and log alone |
| TradingSimulator.ManageProperties | src/App.jsx:173-200 | managing keeps the invariant, touches only balance, position and log, adds at most one exit, and raises the stop only; a loss is a STOP with the balance floored at 10 |
| TradingSimulator.ManageOutcome | src/App.jsx:173-179 | no position or a stopped game leaves the state unchanged; otherwise the invariant guarantees a non-empty history for the held symbol, and managing settles the position at its last price |
| TradingSimulator.SettleStop | src/App.jsx:180-188 | at or below the stop: the balance becomes balance + pnl floored at 10, a STOP exit with the pnl in cents is logged, and the position is cleared |
| TradingSimulator.SettleWin | src/App.jsx:180-195 | above the stop and at or above the target: the balance becomes balance + pnl, never lower, a WIN exit is logged, and the position is cleared |
| TradingSimulator.SettleTrail | src/App.jsx:181-199 | strictly between stop and target: after a gain above 2% the stop becomes max(stop, 0.97·current); otherwise nothing changes |
| TradingSimulator.Candidate | src/App.jsx:207-214 | a candidate carries its symbol's index and last price |
| TradingSimulator.PositiveMean | src/App.jsx:210 | the 10-price mean of in-band prices is positive, so the strength is defined |
| TradingSimulator.BestUpToIsBest | src/App.jsx:205-216 | the pick is absent exactly when no symbol is strong enough; otherwise it has maximal strength, the first on ties |
| TradingSimulator.EnterProperties | src/App.jsx:202-230 | entry happens only when running, in range and flat, on the best pick, with size ⌊0.08·balance⌋, stop 0.965·price, target 1.07·price, and it records last traded and a BUY |
| TradingSimulator.Toggle | src/App.jsx:295-298 | Start/Stop is ignored when busted or won and flips running otherwise |
| TradingSimulator.WinRate | src/App.jsx:249-251 | the win rate is a percentage between 0 and 100 |
| TradingSimulator.WinRateNoExits | src/App.jsx:251 | with no exits the win rate is 0 |
| TradingSimulator.Simulator.constructor | src/App.jsx:119-128 | the game starts in the initial state |
| TradingSimulator.Simulator.Reset | src/App.jsx:232-241 | reset restores the initial state |
| TradingSimulator.Simulator.PriceTick | src/App.jsx:147-171 | the tick effect's new state is the tick function of the old one |
| TradingSimulator.Simulator.MoveAll | src/App.jsx:152-164 | the `forEach` produces every symbol's moved history and trend |
| TradingSimulator.Simulator.MoveSymbol | src/App.jsx:154-162 | one symbol's trend re-roll and history append |
| TradingSimulator.Simulator.ManagePosition | src/App.jsx:173-200 | the position effect's new state is the manage function of the old one |
| TradingSimulator.Simulator.SettleAt | src/App.jsx:183-194 | the stop and target exits update the state as the settle function says |
| TradingSimulator.Simulator.EnterPosition | src/App.jsx:202-230 | the entry effect's new state is the enter function of the old one |
| TradingSimulator.Simulator.ToggleRunning | src/App.jsx:295-298 | the key handler's new state is the toggle of the old one |
| DashboardHelpers.Tldr | src/App.jsx:92-97 | a question that fits is unchanged; otherwise the result is a prefix of at most maxLen characters plus "...", cut at the last space before maxLen only when that space is past index 20 |
| DashboardHelpers.TldrDefaultLength | src/App.jsx:92-97 | with the default length the result has at most 53 characters and never grows by more than the ellipsis |
| DashboardHelpers.FilteredMarketsKeeps | src/App.jsx:311-324 | the filter keeps, in order, exactly the markets that match the category's keywords (any for all) and, with the toggle on, pass `probability >= 0.90 || probability <= 0.10` as JavaScript evaluates it |
| DashboardHelpers.FilteredMarketsSound | src/App.jsx:311-324 | every kept market is from the input and passes both tests |
| DashboardHelpers.HighConvictionIff | src/App.jsx:321 | the conviction test passes exactly for a numeric probability ≥ 0.90 or ≤ 0.10 or a `null` probability (compared as 0); `undefined`/`NaN` fail it |
| DashboardHelpers.NullMarketKept | src/App.jsx:321 | a market whose probability is `null` survives the toggle, though it has no probability |
| DashboardHelpers.FilteredMarketsKnownSound | src/App.jsx:311-324 | with the intended test every kept market is from the input, matches the category and, with the toggle on, has a numeric probability ≥ 0.90 or ≤ 0.10; with no `null` probabilities it keeps exactly what the code as written keeps |
| DashboardHelpers.UnknownCategoryKeepsNothing | src/App.jsx:314 | a category without keywords keeps nothing |
| DashboardHelpers.AllKeepsEverything | src/App.jsx:311-324 | all with the toggle off keeps the list unchanged |
| MonteCarlo.BsProb | src/utils/math.js:23 | for T ≤ 0 the probability is 1 exactly when S > K and 0 otherwise |
| MonteCarlo.FibFlat | src/utils/math.js:29-41 | a flat 52-week range puts all eight levels at the spot |
| MonteCarlo.FibOrdered | src/utils/math.js:29-41 | fib100 is spot + range, and the levels strictly increase above the spot when high > low |
| MonteCarlo.MaxDay | src/utils/math.js:55 | the maximum horizon is an upper bound attained by some horizon |
| MonteCarlo.PathPointsShape | src/utils/math.js:60-65 | a preview path has one point per day 0..maxD, starting at (0, spot), each holding that day's price |
| MonteCarlo.PreviewPathsShape | src/utils/math.js:65-70 | only the first 50 paths are kept, in order |
| MonteCarlo.ColumnShape | src/utils/math.js:66-68 | a reached horizon collects exactly one terminal value per path, an unreached one none |
| MonteCarlo.PricePositive | src/utils/math.js:64 | prices stay positive when the spot and every step factor are |
| MonteCarlo.PctRowOrdered | src/utils/math.js:75-83 | each percentile row is defined exactly when there are previews, and then p5 ≤ p50 ≤ p95 |
| MonteCarlo.Probs | src/utils/math.js:86-98 | one probability entry per target |
| MonteCarlo.ProbForProperties | src/utils/math.js:86-98 | an empty column gives the spot defaults; otherwise 0 ≤ mc ≤ 1 and positive exactly when some value reaches the target, p5 ≤ p95 are values of the column, and the mean lies between min and max |
| MonteCarlo.HitRateOf | src/utils/math.js:92 | the hit rate is a fraction in [0,1], positive exactly when some value reaches the target |
| MonteCarlo.SortedPicks | src/utils/math.js:89-96 | the 5th and 95th percentile picks from the sorted list are ordered and come from the list |
| MonteCarlo.RunMonteCarlo | src/utils/math.js:52-101 | the nested loops compute the simulation function and the first 50 preview paths |
| MonteCarlo.SimulatePath | src/utils/math.js:59-71 | one path appends its price to every reached horizon's column and yields its preview |
| MonteCarlo.RecordDay | src/utils/math.js:66-68 | one day's price is appended to exactly the columns whose horizon is that day |
| MonteCarlo.Percentiles | src/utils/math.js:74-83 | the percentile loop yields one row per day 0, 5, 10, … up to maxD |
| MonteCarlo.RunMonteCarloShape | src/utils/math.js:52-101 | target i is scored on horizon i's column; reached columns hold N values; percentile days are 0, 5, … ≤ maxD; previews have maxD+1 points from the spot |
| MonteCarlo.PctRowsShape | src/utils/math.js:75-83 | row k is the percentile row of day 5k |
| Sorting.SortAscSorted | src/utils/math.js:89 | the numeric sort yields an ascending permutation of its input |
| Sorting.SortDescBySorted | src/hooks/useManifold.js:41 | the keyed sort yields a permutation ordered by descending key |
| TerminalView.Hist | polymarket-terminal/src/App.jsx:117-125 | the histogram is empty exactly for a missing or empty list, and otherwise has 20 buckets |
| TerminalView.BucketWidth | polymarket-terminal/src/App.jsx:120-122 | the bucket width is positive: (max−min)/20, or 1 when max = min |
| TerminalView.HistEdge | polymarket-terminal/src/App.jsx:120-122 | bucket i starts at min + i·(max−min)/20, or at min + i when all values are equal |
| TerminalView.BucketsDisjoint | polymarket-terminal/src/App.jsx:123 | no value lies in two buckets |
| TerminalView.HitsAtMostOne | polymarket-terminal/src/App.jsx:123 | each value is counted in at most one bucket |
| TerminalView.HistTotal | polymarket-terminal/src/App.jsx:123 | the bucket counts sum to at most the number of values |
| TerminalView.HistDropsMax | polymarket-terminal/src/App.jsx:120-123 | when max > min the maximum falls in no bucket |
| TerminalView.HistAllEqual | polymarket-terminal/src/App.jsx:120-123 | when all values are equal bucket 0 holds them all |
| TerminalView.TerminalFilterKeeps | polymarket-terminal/src/App.jsx:94-100 | all returns the list unchanged; another category keeps exactly the markets whose lowercased category or question contains it, and filtering again changes nothing |
| TerminalView.RunSim | polymarket-terminal/src/App.jsx:103-108 | an unknown asset gives empty results; a known one gives one probability per target and one column per horizon |
| TerminalView.AllRes | polymarket-terminal/src/App.jsx:111-114 | one result per scenario key, each the scenario's run |
| ApiHandlers.ValidateHistory | api/history.js:3-31 | defaults AAPL/1y/1d; accepted exactly when symbol, range and interval are valid; the first failing check in that order gives its 400 |
| ApiHandlers.Cell | api/history.js:79-83 | a missing column or index reads as null |
| ApiHandlers.HistoryKeeps | api/history.js:76-85 | the history keeps, in order, exactly the points whose close is a number, each from its own timestamp |
| ApiHandlers.HistoryHandler | api/history.js:2-115 | a successful reply has a non-empty history of points with a numeric close |
| ApiHandlers.HistoryRejectsBeforeFetch | api/history.js:8-31 | a rejected request is a 400 whatever the upstream would answer |
| ApiHandlers.HistoryNoValidPoints | api/history.js:87-92 | a chart without any numeric close is a 404 "No valid data points" |
| ApiHandlers.MarketsLimit | polymarket-terminal/api/markets.js:3 | the limit is at most 100, 50 when absent, unparseable or 0, and otherwise the parsed number capped at 100 |
| ApiHandlers.MarketsLimitOfNumber | polymarket-terminal/api/markets.js:3 | a numeric limit becomes itself capped at 100 (50 for 0), and negatives pass unchanged |
| ApiHandlers.ValidateMarkets | polymarket-terminal/api/markets.js:3-15 | accepted exactly for a valid order (default volume24hr); closed and ascending hold only for "true"; otherwise 400 "Invalid order parameter" |
| ApiHandlers.ValidMarketsKeeps | polymarket-terminal/api/markets.js:43-48 | the reply keeps exactly the markets with truthy id, question and slug |
| ApiHandlers.MarketsHandler | polymarket-terminal/api/markets.js:1-72 | every failure is a 400, 500 or 504 |
| ApiHandlers.MarketsErrors | polymarket-terminal/api/markets.js:9-70 | a bad order is a 400 whatever the upstream says; a non-array body is a 500 |
| ApiHandlers.SymbolList | api/stocks.js:9 | the queried symbols are the first at most 50 comma-separated pieces, all of them when there are at most 50 |
| ApiHandlers.Unwrap | api/stocks.js:33-36 | an object with a non-zero `raw` number becomes that number; a bare number, an object with a zero or missing `raw`, and a missing field pass unchanged |
| ApiHandlers.RecordOf | api/stocks.js:25-39 | a record exists exactly for a priced lookup and carries the requested symbol |
| ApiHandlers.QuotesInOrder | api/stocks.js:43 | the records are the priced symbols' records, in request order |
| ApiHandlers.StocksHandler | api/stocks.js:2-52 | failures are 400 or 500, and a reply holds at most 50 records |
| ApiHandlers.StocksHandlerKeeps | api/stocks.js:3-43 | the default list is used when none is given; a malformed list is a 400 regardless of lookups; a reply's records follow the priced requested symbols |
| StockHooks.FetchWithRetry | src/hooks/useStocks.js:7-42 | the retry loop's result, waits and attempt count are the retry policy's |
| StockHooks.RetryBounds | src/hooks/useStocks.js:10-37 | at most maxRetries attempts; wait k is baseDelay·2^k; one wait fewer than attempts, none after the last |
| StockHooks.RetryOutcome | src/hooks/useStocks.js:24-41 | success returns the first successful body; an early stop is a fatal ('400'/'Invalid') error; all failures rethrow the last error |
| StockHooks.ToStock | src/hooks/useStocks.js:96-104 | missing change, changePercent and volume become 0; a missing 52-week high or low becomes the price |
| StockHooks.StockMapKeys | src/hooks/useStocks.js:94-106 | the map has a key exactly for symbols of usable entries |
| StockHooks.StockMapValue | src/hooks/useStocks.js:94-106 | each key holds the record of the last usable entry with that symbol |
| StockHooks.BuildStockMap | src/hooks/useStocks.js:93-106 | the `forEach` builds exactly that map |
| StockHooks.StockFeed.constructor | src/hooks/useStocks.js:73-76 | the fallback data is shown, loading, no error and zero retries |
| StockHooks.StockFeed.FetchStocks | src/hooks/useStocks.js:78-128 | a non-empty map replaces the stocks and resets the retry count; any failure keeps the stocks and counts a retry, with the error set to the outcome's message: the invalid-symbols message before any fetch, the last retry error, "Invalid response format: expected array", or "No valid stock data received" for an empty map |
| StockHooks.StockFeed.Fail | src/hooks/useStocks.js:116-125 | the error path keeps a non-empty map and falls back otherwise |
| StockHooks.StocksOutcome | src/hooks/useStocks.js:85-111 | a successful outcome is a non-empty map |
| StockHooks.StockHistory.constructor | src/hooks/useStocks.js:147-149 | empty history, loading, no error |
| StockHooks.StockHistory.Refresh | src/hooks/useStocks.js:151-180 | nothing is fetched for an empty symbol; otherwise the URL carries the encoded symbol and the range; a body with an array replaces the history; a failed fetch keeps it and records the retry error, another body keeps it with "Invalid history data format" |
| LivePrices.WithCoin | src/hooks/useLivePrices.js:103-108 | a coin's spot and change are replaced with chg = spot·chgPct/100; other fields survive |
| LivePrices.UpdateOf | src/hooks/useLivePrices.js:72-78 | a commodity update has the price as spot and 0 for a missing change or percentage |
| LivePrices.UpdatesKeys | src/hooks/useLivePrices.js:69-80 | updates exist exactly for entries with a truthy price, each built from its entry |
| LivePrices.BuildUpdates | src/hooks/useLivePrices.js:69-80 | the `forEach` builds exactly that map |
| LivePrices.WithUpdate | src/hooks/useLivePrices.js:124-131 | hi52 and lo52 keep the old values when the new ones are falsy; other fields survive |
| LivePrices.MergePrices | src/hooks/useLivePrices.js:97-137 | the updater computes the merged prices |
| LivePrices.ApplyUpdates | src/hooks/useLivePrices.js:121-134 | the commodity loop applies each update to keys present before |
| LivePrices.MergedKeeps | src/hooks/useLivePrices.js:98-134 | keys are the old ones plus replaced coins; untouched assets keep their record |
| LivePrices.MergedValues | src/hooks/useLivePrices.js:101-131 | updated commodities carry the new spot and change and the kept hi52; replaced coins carry the new spot with chg = spot·chgPct/100 |
| LivePrices.CoinsKeeps | src/hooks/useLivePrices.js:101-118 | btc and eth are replaced exactly when the new spot is truthy |
| LivePrices.CoinsAt | src/hooks/useLivePrices.js:101-118 | the pointwise form of the coin replacement |
| LivePrices.DashboardLabels | src/hooks/useLivePrices.js:163-175 | between an hour and a day the label is ⌊s/3600⌋h ago with 1..23 hours; after a day ⌊s/86400⌋d ago; the number reads back |
| LivePrices.TerminalCrypto | polymarket-terminal/src/hooks/useLivePrices.js:40-49 | a missing or zero spot falls back to the shown one, and a missing change becomes 0 |
| LivePrices.TerminalRefresh | polymarket-terminal/src/hooks/useLivePrices.js:62-78 | a refresh changes only btc and eth; each gets the API spot when truthy or the shown one, the API change, chg = spot·chgPct/100, and keeps its other fields; a failed fetch changes nothing |
| LivePrices.TerminalLabels | polymarket-terminal/src/hooks/useLivePrices.js:104-110 | under a minute "Just now"; then ⌊s/60⌋m ago with 1..59 minutes; then ⌊s/3600⌋h ago; the number reads back |
| News.UnitsNest | polymarket-terminal/src/components/NewsWidget.jsx:16-18 | whole hours are whole minutes over 60, whole days whole hours over 24 |
| News.TimeAgoEnds | polymarket-terminal/src/components/NewsWidget.jsx:20-24 | under a minute, future dates included, "Just now"; from seven days the locale date |
| News.TimeAgoMinutes | polymarket-terminal/src/components/NewsWidget.jsx:21 | within the hour the label is m ago with 1..59 minutes, and the number reads back |
| News.TimeAgoHours | polymarket-terminal/src/components/NewsWidget.jsx:22 | within the day the label is h ago with 1..23 hours |
| News.TimeAgoDays | polymarket-terminal/src/components/NewsWidget.jsx:23 | within the week the label is d ago with 1..6 days |
| News.NewsUrl | polymarket-terminal/src/components/NewsWidget.jsx:41-46 | every URL starts with the pageSize=8 base |
| News.SearchUrlParams | polymarket-terminal/src/components/NewsWidget.jsx:42-43 | a non-empty query gives exactly the parameters type=search and the encoded q |
| News.CategoryUrlParams | polymarket-terminal/src/components/NewsWidget.jsx:44-45 | an empty query gives exactly the category parameter |
| News.CategoryUrls | polymarket-terminal/src/components/NewsWidget.jsx:4-9 | each of the four categories' URLs has exactly its category parameter |
| News.NewsOutcome | polymarket-terminal/src/components/NewsWidget.jsx:48-58 | an error exactly for a failed fetch or a body with an error, with a non-empty message; otherwise the articles or [] |
| News.NewsWidget.constructor | polymarket-terminal/src/components/NewsWidget.jsx:27-69 | category general, no search; a widget open at mount shows the general fetch |
| News.NewsWidget.FetchNews | polymarket-terminal/src/components/NewsWidget.jsx:36-62 | requests the URL for (cat, query) and shows its articles, or [] with the error |
| News.NewsWidget.SetSearchQuery | polymarket-terminal/src/components/NewsWidget.jsx:33 | typing changes only the query |
| News.NewsWidget.HandleCategoryChange | polymarket-terminal/src/components/NewsWidget.jsx:72-77 | the category is set, the query cleared, searching off, and the category is fetched |
| News.NewsWidget.HandleSearch | polymarket-terminal/src/components/NewsWidget.jsx:80-86 | nothing happens for a blank query; otherwise searching is on and the trimmed query is fetched |
| News.NewsWidget.ClearSearch | polymarket-terminal/src/components/NewsWidget.jsx:89-93 | the query is cleared, searching off, and the category is fetched |
| News.NewsWidget.Refresh | polymarket-terminal/src/components/NewsWidget.jsx:134 | refetches the category, or the query while searching |
| News.NewsWidget.Toggle | polymarket-terminal/src/components/NewsWidget.jsx:108 | collapsing fetches nothing; expanding fetches the category |
| Manifold.CategoryOf | src/hooks/useManifold.js:28 | the category is the first group slug when truthy, else general |
| Manifold.ToMarket | src/hooks/useManifold.js:23-37 | the reshaped market keeps id, question and probability, defaults missing numbers to 0, and is marked manifold |
| Manifold.MapMarkets | src/hooks/useManifold.js:23-37 | each kept market is reshaped in place |
| Manifold.ManifoldShape | src/hooks/useManifold.js:21-41 | at most 20 markets, sorted by probability descending with missing as 0, a permutation of the first 20 open markets |
| Manifold.ManifoldFromOpen | src/hooks/useManifold.js:22-36 | every published market is an open API market, reshaped |
| Manifold.ManifoldKeepsAllOpen | src/hooks/useManifold.js:38 | with at most 20 open markets none is dropped |
| Manifold.ManifoldFeed.constructor | src/hooks/useManifold.js:6-8 | no markets, loading, no error |
| Manifold.ManifoldFeed.FetchMarkets | src/hooks/useManifold.js:10-50 | a listing replaces the markets and clears the error; a failure keeps the markets and sets the error |
| Portfolio.Dedup | portfolio_tracker.py:118-145 | the fetched keys are the tickers without repeats |
| Portfolio.FetchAll | portfolio_tracker.py:116-145 | one entry per distinct ticker, with its fetch result |
| Portfolio.ToMap | portfolio_tracker.py:116-145 | the market data holds every fetched ticker with its own entry |
| Portfolio.AlertsForIff | portfolio_tracker.py:212-219 | an alert fires exactly when the ticker has data and its price is ≥ above or ≤ below; both can fire |
| Portfolio.AlertsOfIff | portfolio_tracker.py:206-219 | the triggered alerts are exactly those of some configured ticker |
| Portfolio.FailedLookupAlerts | portfolio_tracker.py:143 | a failed lookup has price 0, so its below alerts fire |
| Portfolio.MatchOf | portfolio_tracker.py:256-263 | a match carries the ticker and price, and no PE exactly for a zero PE |
| Portfolio.ScreenedIff | portfolio_tracker.py:240-263 | the matches are exactly the non-error entries passing volume, PE and market-cap tests |
| Portfolio.ChangeOfCases | portfolio_tracker.py:127-162 | the change is finite exactly for a non-zero previous close, with the sign of the move; a zero previous close, possible only with a history price, gives +inf for a positive price and NaN for a zero one |
| Portfolio.HistoryPricesNeverRaise | portfolio_tracker.py:125-172 | when every price is a history close the analysis does not raise and every priced holding keeps its row |
| Portfolio.FromHighBounds | portfolio_tracker.py:254 | 0 without a high; between 0 and 100 for a price within [0, high] |
| Portfolio.RowsOf | portfolio_tracker.py:155-172 | at most one row per holding |
| Portfolio.Allocated | portfolio_tracker.py:175-178 | each row's allocation is its rounded value over the total in percent, 0 when the total is not positive |
| Portfolio.TotalIsRowSum | portfolio_tracker.py:155-172 | the total is the sum of the rows' values |
| Portfolio.AllocationsSum | portfolio_tracker.py:175-178 | the allocations sum to the rounded values' sum over the total in percent |
| Portfolio.AllocationsZero | portfolio_tracker.py:177 | a non-positive total gives 0 allocations |
| Portfolio.PortfolioTracker.constructor | portfolio_tracker.py:21-48 | the loaded config, or the default one; no holdings, no data |
| Portfolio.PortfolioTracker.CheckAlerts | portfolio_tracker.py:206-219 | the loop collects exactly the triggered alerts, in configured order |
| Portfolio.PortfolioTracker.ScreenStocks | portfolio_tracker.py:228-266 | an empty default universe returns nothing; otherwise the screened matches |
| Portfolio.PortfolioTracker.AnalyzePortfolio | portfolio_tracker.py:147-181 | the market data is refetched; it raises exactly when a priced holding has a zero previous close and a price from the info record; otherwise the total and the allocated rows |
| Portfolio.SumHoldings | portfolio_tracker.py:155-172 | the loop stops with the division error exactly when a holding's change raises, and otherwise yields the rows and the total |
| Portfolio.AllocateRows | portfolio_tracker.py:175-178 | the loop yields the allocated rows |
| Portfolio.Keys | portfolio_tracker.py:149 | the tickers in portfolio order |
| PyFormat.RoundHalfEven | prediction_markets.py:105 | the nearest integer, ties to even |
| PyFormat.Round2 | portfolio_tracker.py:176 | the value read back from its two-decimal text is within half a cent |
| PyFormat.UngroupThousands | portfolio_tracker.py:176 | dropping the separators from grouped digits gives the digits back |
| PyFormat.GroupSizes | prediction_markets.py:105 | groups after the first have exactly three digits, the first one to three |
| PyFormat.FormatGroupedReadsBack | prediction_markets.py:105 | a grouped number reads back once the separators are dropped |
| PredictionMarkets.StatusAndProbability | prediction_markets.py:93-120 | resolved markets are Resolved at 100 for YES else 0; otherwise Closed exactly for state CLOSED, else Open, with the probability or 0; the YES probability equals it |
| PredictionMarkets.VolumeText | prediction_markets.py:104-105 | "$0" for a non-positive volume, else $ and the grouped rounded volume |
| PredictionMarkets.DaysText | prediction_markets.py:107-114 | N/A without a close time, else the whole days followed by d |
| PredictionMarkets.ColorOf | prediction_markets.py:149-155 | green exactly above 60, red exactly below 40, yellow otherwise |
| PredictionMarkets.Truncate | prediction_markets.py:158-160 | longer than 50 becomes the first 47 plus "...", exactly 50 |
| PredictionMarkets.PrefixTo | prediction_markets.py:138 | Python's slice [:n], negative n included |
| PredictionMarkets.DisplayMarketsTable | prediction_markets.py:131-171 | No markets found exactly for an empty list; otherwise one row per shown market |
| PredictionMarkets.ResolvedColors | prediction_markets.py:97-99 | a resolved market is green for YES and red otherwise |
| PredictionMarkets.TableBound | prediction_markets.py:138 | at most max_rows rows, all when they fit |
| PredictionMarkets.ByIdLast | prediction_markets.py:42 | the map has a key exactly for the listed ids, each holding the last market with it |
| PredictionMarkets.PredictionMarketsTracker.constructor | prediction_markets.py:18-20 | no markets |
| PredictionMarkets.PredictionMarketsTracker.FetchMarkets | prediction_markets.py:22-47 | a failed request returns [] and keeps the map; a listing without ids raises; otherwise the list and the map by id |
| CvxPut.PutValue | check_cvx_put.py:19-28 | the put's value is never negative |
| CvxPut.Scenarios | check_cvx_put.py:19-28 | one row per target price, in order |
| CvxPut.ScenarioPayoff | check_cvx_put.py:20-28 | each row's value is max(strike − price, 0) and its P&L 100 times it |
| CvxPut.PayoffMonotone | check_cvx_put.py:20-28 | the payoff never rises with the price and is 0 from the strike up |
| CvxPut.StandingAt | check_cvx_put.py:36-40 | in the money exactly when current < strike, with intrinsic strike − current and 100 times it per contract; otherwise out by current − strike |
| CvxPut.DefaultScenarios | check_cvx_put.py:6 | the default run gives values 9, 4, 0, 0 |
| Strs.ParseIntOfIntToString | polymarket-terminal/api/markets.js:3 | `parseInt` reads back a printed integer |
| Strs.JoinSplit | api/stocks.js:9 | joining the comma-split pieces gives the list back |
| Strs.SplitJoin | src/hooks/useStocks.js:85 | splitting a joined list of separator-free pieces gives them back |
| Strs.EncodedIsSafe | polymarket-terminal/src/components/NewsWidget.jsx:43 | an encoded component holds only unreserved characters and % |
| Strs.DecodeEncode | polymarket-terminal/src/components/NewsWidget.jsx:43 | decoding an encoded ASCII query gives it back |
| Strs.LastIndexOf | src/App.jsx:95 | the last index of the character, or −1 |
| Strs.TrimStart | polymarket-terminal/src/components/NewsWidget.jsx:82 | the suffix left after the leading white space |

## Left out

- Floating point: `float` (single precision in C) and JavaScript or Python doubles are exact reals. Rounding, NaN and infinities are not modelled, except that a NaN close is a non-number in the history handler, and the portfolio's change over a zero previous close is an infinity or NaN when the price is a numpy history close.
- Randomness: `rand()`, `Math.random`, `sRand` and `nRand` are left out. Their draws are parameters, and the Monte Carlo day factor (the exp/log/cos step) is an arbitrary positive function.
- `nCDF` is left out. The analytic probability for T > 0 is a parameter.
- MonteCarlo.Percentiles: the preview value is read at index ⌊d/5⌋ of each path, as the code does, not at day d.
- `formatPrice`, `toFixed` and locale formatting are left out. Locale dates and times are parameters.
- Python's `:,.2f` and `:.1f` texts are represented by the rounded value. Dollar signs and sign characters are not built.
- PriceHistory.PriceBuffer.Average: requires n ≥ 1. In C a non-empty buffer with n = 0 divides 0 by 0, which gives NaN.
- TradingEngine.Asset.Init: requires a positive base price. The engine divides by prices, and a zero base would give NaN momentum.
- EngineRules.Truncate7: `strncpy` is modelled only as "at most the first seven characters".
- React rendering, effect ordering, `setInterval` scheduling, abort timeouts, CORS and cache headers are left out.
- Loading flags are modelled only as their final value after each operation.
- The network and thin proxies are left out: `api/news.js`, `api/weather.js`, `api/prices.js`, `api/commodities.js`, and the terminal's own commodities, history, prices, stocks and validate-link handlers.
- Every fetch is an input datatype of its outcomes.
- Strs.Lower: folds ASCII letters only; `toLowerCase` also folds other Unicode letters (for example U+212A KELVIN SIGN to `k`), so the market filters are modelled for ASCII keywords and text.
- Strs.DecodeEncode: the round trip is proved for ASCII text only. Multi-byte UTF-8 decoding is not modelled.
- `days_until_close`: computed from millisecond timestamps with a floor. Timezone and DST effects of `datetime.fromtimestamp` are not modelled.
- Sorting: `Array.prototype.sort` and `sorted` are modelled by insertion sort as functions on sequences. Stability is not claimed, and the in-place sort is a value.
- Portfolio.PortfolioTracker.ScreenStocks: a config without `screener_criteria` raises `KeyError` in Python. The model's config always has criteria, with optional members.
- Portfolio: scraping, yfinance, printing and the sector breakdown display are left out.
- The `src/App.jsx` call of `runMonteCarlo` is left out. Its asset records lack `vol` and `targets`, so `runMonteCarlo` is modelled against its own precondition |targets| ≤ |horizons|.
- The terminal's `runMonteCarlo` is taken to be the same function as the dashboard's.
- Test files that assert behaviour the code does not have are not used as a specification.
- `stock_analysis.py`, `market_utils.py`, `api/main.py`, `c-core/main.c` and the static asset tables are not part of this model.

## Findings

| source | as written | input that shows it | evidently intended | confidence | as-written member | corrected member |
|---|---|---|---|---|---|---|
| src/App.jsx:321 | the high-conviction toggle tests `m.probability >= 0.90 \|\| m.probability <= 0.10`; JavaScript compares `null` as 0, so `null <= 0.10` holds and a market without outcome prices is kept | a market whose probability is `null` (no `outcomePrices`), category "all", toggle on | keep only markets with a known probability ≥ 0.90 or ≤ 0.10 | not executed | DashboardHelpers.NullMarketKept | DashboardHelpers.FilteredMarketsKnownSound |
