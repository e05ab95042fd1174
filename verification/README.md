# Market data fan-out and portfolio services: a verified model

The program is a trading back end. Its core is a live market-data fan-out on one
event loop: a background worker per symbol publishes Coinbase messages, client tasks
share these workers by reference counting, and each websocket session owns a small
table of cancellable tasks. Around it are candle paging, portfolio valuation,
limit-order sizing, a dashboard cache, a subscription store, a volatility series and
a store of top-10 prices.

Code that changes state in place is modelled by classes and methods, each proved
equal to a specification function; the results are lemmas about these functions over
all inputs, all runs or all reachable states.

- **Fan-out** (`SymbolWorker`, `FanOut`, `EventLoops`, `Forwarding`, `Publishers`,
  `Quiescence`). A step of the system is what runs between two awaits. Tasks and workers may be resumed in any
  order, every await may fail or deliver a cancellation, and a new worker may start
  while the old one is still closing its connection. Results: the stored count is
  exactly acquisitions minus releases; releases are always safe; each symbol has one
  uncancelled worker, the registered one; which steps bring a second publisher to a
  symbol; a task sends exactly the data messages it hears, and a worker publishes every
  event it reads unless a publication fails; the references left at the end are exactly those of tasks broken off at an
  await their clean-up does not cover.
- **Sessions** (`Sessions`, `Hub`, `HubQuiescence`). A session refines a pure reading
  of its messages and has a closed form in terms of the last message of each kind. Any
  number of sessions together own every live task exactly once, and the stored counts
  are numbers of sessions plus tasks on their way out. A state of the sessions can be
  drained, down to the references already lost and never below, exactly when nobody
  waits for a worker that no session can stop.
- **Paging** (`Candles`, `ForwardPaging`, `BackwardPaging`, `OhlcEndpoint`). Both loops
  against one unpaged query, and the endpoint with its two exchanges.
- **Money** (`Balances`, `Portfolio`, `ExchangeLifecycle`, `LimitOrder`). Accounts to
  balance, balance to dashboard and snapshot, who closes which exchange, and how an
  order is cut into lots.
- **Stores** (`DashboardCache`, `SubscriptionStore`, `Volatility`, `PriceStore`).

## Where the code does less than it seems to

Each of these is a result here, with the condition under which the code does better.

- A worker whose connection fails to close while the worker is being cancelled goes
  on, because the catch-all handler swallows the failure. If its symbol then has, or
  is given, another worker, two publish on one channel (`Publishers.OnePublisherIff`;
  `Publishers.TwoPublish` is such a run).
- The handler that cancelled such a worker waits for it. If it was itself cancelled by
  its session, as on an unsubscription, or its session is closed, it waits for ever
  (`HubQuiescence.CanDrainIff`; `HubQuiescence.HandlerWaitsForEver` is such a run).
- A market-price task that is cancelled or fails while subscribing, unsubscribing or
  closing never gives its reference back, and its worker runs for ever
  (`FanOut.ResidueIsStranded`; `FanOut.StrandedForEver` is such a run).
- A disconnect cancels no task of the session (`Hub.DisconnectedIsNeverCancelled`).
- A page of older candles whose window has a gap repeats the candle it was asked to
  stop at (`BackwardPaging.RepeatsIffGap`, with a history in
  `BackwardPaging.GapRepeatsCandle`), and a client that follows `next_before` never
  learns that the history has ended (`BackwardPaging.OldestPageRepeats`).
- One exchange that fails to close discards all snapshots of a pass and ends the
  worker, as a failing commit does (`Portfolio.IsolatedIff`, with a pass in
  `Portfolio.OneCloseLosesAll`).
- A user whose dashboard fails in one pass finds the cache empty before the next one
  (`DashboardCache.NeverMissesIffAllServe`, with passes in
  `DashboardCache.OneFailureMisses`).
- An update from Stripe that announces a cancellation can never be stored, and a user
  who cancels and subscribes again can neither cancel nor renew from then on
  (`SubscriptionStore.CancellingUpdateIsLost`, `SubscriptionStore.TwoRowsAreFinal`).
- The volatility endpoint raises for exactly two candles (`Volatility.GetVolatility`).

## Assumptions

- Network, Redis, Stripe and ccxt calls are outcomes: they end normally, fail, or
  deliver a cancellation, in every combination. Of the database, the query and the
  commit of the snapshot pass may fail, as may the query of the dashboard worker; a
  commit of a subscription handler fails exactly when a row violates a constraint.
- The exchange answers a candle query with the first `limit` candles at or after
  `since`, in ascending order. The history does not change during a fetch; the clock
  may read anything after each page.
- Account codes are upper case, as the exchange library makes its unified codes
  (`requirements.txt:18`), so none is free, used or total. The balance is coherent
  exactly under this assumption (`Balances.CoherentIffNoReserved`).
- Amounts are exact reals, `round(x, 2)` rounds half to even on the exact value. The
  precision helpers round a price to the nearest tick, truncate an amount to whole
  lots and refuse a result of zero; ticks and lots are positive.
- The cache expires an entry exactly 40 seconds after its write, and the worker pauses
  for exactly 30 seconds. `DashboardCache.NeverMissesIffAllServe` assumes passes of at
  most five seconds that list each user once.
- Webhooks are handled one at a time. Subscription ids come from a counter.
- Of the logarithm only log(xy) = log x + log y for positive x and y is used, of the
  square root that it is not negative and its square is its argument; of the final
  rounding nothing, but that it keeps zero or every number where a result says so.

## Model

| member | source | states |
|---|---|---|
| SymbolWorker.NeverEndsAlone | app/websocket/background/coinbase_worker.py:33-137 | A symbol worker that nobody cancels never ends and its stop flag stays clear, whatever its connections, messages and publications do. |
| SymbolWorker.ResumeClassified | app/websocket/background/coinbase_worker.py:132-137 | A live worker stays active; a cancelled one becomes active again exactly when closing its connection fails during the cancellation, which the catch-all handler swallows; it ends only when cancelled. |
| SymbolWorker.ReadsBothChannels | app/websocket/background/coinbase_worker.py:47-65 | Whenever an uncancelled worker waits for messages or publishes, it has subscribed to both channels of its current connection. |
| SymbolWorker.EventsAreConserved | app/websocket/background/coinbase_worker.py:81-130 | Every event of every message read has been published, was given up at a failing publication, or is still to be published. |
| SymbolWorker.Reconnects | app/websocket/background/coinbase_worker.py:36-137 | A worker leaves a connection only by closing it; after a failure it backs off and connects again, after the end of the stream it connects again at once. |
| SymbolWorker.StopEnds | app/websocket/background/coinbase_worker.py:29-72 | A worker told to stop publishes no further message and does not connect again. |
| SymbolWorker.ComesToRead | app/websocket/background/coinbase_worker.py:36-69 | An active worker that nothing disturbs comes to wait for messages. |
| SymbolWorker.CancelEnds | app/websocket/background/coinbase_worker.py:33-137 | A cancelled worker ends at once if it has no connection, else it closes its connection and ends when that succeeds. |
| EventLoops.EventLoop.EnsureSymbolWorker | app/websocket/background/coinbase_worker.py:144-157 | Counts the subscriber, keeps a running worker, otherwise registers a new one: the two dictionaries and the task table become those of the specification. |
| EventLoops.EventLoop.RemoveSymbolSubscriber | app/websocket/background/coinbase_worker.py:160-173 | A missing key changes nothing; otherwise the count falls by one, and a count of zero is removed and its worker stopped. |
| EventLoops.EventLoop.StopSymbolWorker | app/websocket/background/coinbase_worker.py:176-188 | The worker is unregistered at once; only a running one is cancelled and then awaited. |
| EventLoops.EventLoop.RunMarketPrice | app/websocket/handlers/market_price.py:16-45 | Resuming a market-price task runs it to its next await: acquire, subscribe, listen, send, unsubscribe, close, release, wait for the stopped worker. |
| Forwarding.SendsWhatItHears | app/websocket/handlers/market_price.py:33-36 | In every run a task writes to its websocket once for each data message that reaches it while it listens uncancelled, and at no other time. |
| Forwarding.Forwards | app/websocket/handlers/market_price.py:33-36 | A listening task can be handed any sequence of messages: it sends the data among them and listens again. |
| Forwarding.HandlerFollows | app/websocket/handlers/market_price.py:21-45 | In every reachable state each await of a market-price task leads where the handler goes: on, into its clean-up, or out of the task without a release. |
| Forwarding.LastOneWaits | app/websocket/background/coinbase_worker.py:170-186 | A releasing task waits for a worker exactly when it was the last holder of its symbol, and then for the registered worker. |
| Forwarding.OthersRunOn | app/websocket/router.py:129-156 | An order-book or top-10 task runs on until it is cancelled or fails, and touches no dictionary. |
| Symbols.UpperIs | app/websocket/background/coinbase_worker.py:145 | Upper-casing moves a to z onto A to Z letter by letter and leaves everything else. |
| FanOut.StepKeeps | app/websocket/background/coinbase_worker.py:144-188 | Every step of every task and worker, and every cancellation at any await, keeps the protocol invariant (counts are numbers of holders, equal keys, registered workers never cancelled). |
| FanOut.RunKeepsInv | app/websocket/background/coinbase_worker.py:144-188 | The invariant holds in every state reachable by any interleaving of any number of tasks, symbols and workers. |
| FanOut.CountIsHistory | app/websocket/background/coinbase_worker.py:147-173 | In every reachable state the stored count of a symbol is acquisitions so far minus releases so far, and every stored count is at least one. |
| FanOut.ReleaseIsSafe | app/websocket/background/coinbase_worker.py:160-173 | No release ever misses its key or decrements a count below one; it lowers the count by one and removes the key exactly when it was the last. |
| FanOut.OneWorkerPerSymbol | app/websocket/background/coinbase_worker.py:144-188 | In every reachable state both dictionaries have the same keys, each registered worker is active and for its own symbol, and every uncancelled worker is the registered one of its symbol. |
| Publishers.PublishersRegisteredIff | app/websocket/background/coinbase_worker.py:132-188 | Throughout a run every worker that goes on publishing is the registered one of its symbol, if and only if no worker fails to close its connection while it is being cancelled. |
| Publishers.StepKeepsOne | app/websocket/background/coinbase_worker.py:132-188 | A step keeps at most one publishing worker per symbol, if and only if it neither lets a cancelled worker go on beside another active one of its symbol nor acquires a symbol without a registered worker while an old one is active. |
| Publishers.OnePublisherIff | app/websocket/background/coinbase_worker.py:132-188 | At most one worker per symbol publishes, throughout a run, if and only if the run takes no such step. |
| Publishers.NoSwallowMeansOne | app/websocket/background/coinbase_worker.py:132-188 | A run in which no worker fails to close while being cancelled has at most one publisher per symbol throughout. |
| Publishers.TwoPublish | app/websocket/background/coinbase_worker.py:98-136 | A run after which two workers are both about to publish on the channel of the same symbol. |
| Publishers.StepKeepsInactive | app/websocket/background/coinbase_worker.py:132-137 | A step revives a cancelled worker exactly when it is such a swallowed cancellation. |
| FanOut.StepMovesCounts | app/websocket/handlers/market_price.py:23-45 | A step changes the number of holders of a symbol only by acquiring or releasing, and the number of stranded tasks only by breaking off at an uncovered await. |
| FanOut.ResidueIsStranded | app/websocket/handlers/market_price.py:24-45 | Once all tasks have finished, the count left for a symbol is exactly the number of its tasks cancelled or failed at the awaits of subscribe, unsubscribe or close. |
| FanOut.StrandedForEver | app/websocket/handlers/market_price.py:24-30 | A run whose only task fails while subscribing: it has finished, its reference is still counted and its worker still active. |
| FanOut.QuiescentIsEmpty | app/websocket/handlers/market_price.py:24-45 | With no such task, both dictionaries are empty and every worker ever created was cancelled. |
| FanOut.CancelBeforeFirstStep | app/websocket/handlers/market_price.py:16-24 | Cancelling a task before its first step leaves both dictionaries, every worker and every other task as they were. |
| Quiescence.LostNeverFalls | app/websocket/handlers/market_price.py:30-45 | No step ever brings back a reference that is stranded or about to be; a step towards the end loses none. |
| Quiescence.CanDrain | app/websocket/handlers/market_price.py:32-45 | If tasks that wait for an active worker may be cancelled, every run can be continued until all tasks have finished, with exactly the already lost references left. |
| Quiescence.LeastResidue | app/websocket/handlers/market_price.py:32-45 | No continuation in which all tasks finish leaves fewer references than are already lost. |
| Sessions.MarketSession.CancelTask | app/websocket/router.py:87-90 | Forgets the task of a category and cancels it unless it is done. |
| Sessions.MarketSession.HandleMessage | app/websocket/router.py:101-194 | One message changes the current symbol, the task table and the shared tasks as specified, including bad JSON, an unknown type and the messages whose handling raises. |
| Sessions.MarketSession.Run | app/websocket/router.py:100-194 | A sequence of messages does what the messages do one after the other. |
| Sessions.ReceiveShows | app/websocket/router.py:108-191 | What a client sees of the session (symbol, symbol streamed per category, open or not) changes as a pure reading of the message says. |
| Sessions.SessionTellsHistory | app/websocket/router.py:82-191 | After any messages of which none raised, the current symbol is the one last named, a category is streamed when its last subscription came after its last unsubscription, and each stream carries the symbol current at its last subscription or change. |
| Sessions.SameAfterChange | app/websocket/router.py:166-191 | Right after a change of symbol every symbol stream carries the current symbol. |
| Sessions.DifferOnlyAfterSubscription | app/websocket/router.py:111-191 | The two symbol streams differ only if a subscription came after the last change of symbol. |
| Sessions.StopsAtFatal | app/websocket/router.py:108-109 | A message whose handling raises closes the session, and nothing received after it has any effect. |
| Sessions.OpenIff | app/websocket/router.py:100-163 | A session is open after exactly the sequences without a message that is no object, names a symbol that is no text, or unsubscribes an unhashable category. |
| Hub.RunKeepsInv | app/websocket/router.py:85-191 | Over every run of any number of sessions, registered tasks are uncancelled, owned by their session and of their category, and every live task is registered by its owner. |
| Hub.LiveTasksAreOwned | app/websocket/router.py:85-191 | A live task is registered by its owner and by no other session; a session has at most one live task per category. |
| Hub.CountIsViewersAndLeavers | app/websocket/background/coinbase_worker.py:147-173 | The stored count of a symbol is the number of sessions that stream it plus the number of ended or ending tasks that have not given their reference back. |
| Hub.ViewedSymbolHasWorker | app/websocket/background/coinbase_worker.py:151-157 | A symbol that some session streams has an active registered worker. |
| Hub.ReceiveSpares | app/websocket/router.py:87-191 | A message to one session cancels no task of another session. |
| Hub.DisconnectedIsNeverCancelled | app/websocket/router.py:196-217 | Once a session is closed nothing cancels its tasks, in any future. |
| Hub.HubRunIsFanOutRun | app/websocket/router.py:100-191 | Whatever the sessions do, the shared state is reached by steps of the fan-out alone, so its results hold of it. |
| HubQuiescence.CanDrainIff | app/websocket/router.py:87-90 | A run of the sessions can be continued until all tasks have finished, if and only if every task waiting for a worker that swallowed its cancellation is itself uncancelled and its session is open; the residue can then be just the references already lost. |
| HubQuiescence.HubLeastResidue | app/websocket/handlers/market_price.py:32-45 | No continuation of the sessions in which all tasks finish leaves fewer references than are already lost. |
| HubQuiescence.StuckForEver | app/websocket/background/coinbase_worker.py:181-188 | A cancelled task, or one of a closed session, that waits for such a worker waits in every future. |
| HubQuiescence.HandlerWaitsForEver | app/websocket/background/coinbase_worker.py:181-188 | A session subscribes and unsubscribes once and its worker fails to close: no future then finishes all tasks. |
| ForwardPaging.GetHistoricalData | app/coinbase/exchange.py:839-885 | Unknown timeframes and periods are refused, in this order; otherwise the days are the smaller of the two tables' entries, and the candles are those of the paging loop from that many days before now. |
| ForwardPaging.FetchAll | app/coinbase/exchange.py:853-872 | The loop ends, after full pages that all ended before the clock as read after them, with nothing left or a last candle that had reached the clock. |
| ForwardPaging.PagingRefinesQuery | app/coinbase/exchange.py:851-872 | The result is strictly ascending and is the unpaged query up to its own last candle; it is the whole query unless that candle had reached the clock. |
| ForwardPaging.PagingIsDetermined | app/coinbase/exchange.py:857-872 | The history and the clock readings determine the result and the number of pages. |
| BackwardPaging.PageExactIff | app/coinbase/exchange.py:1011-1041 | On any history on the candle grid a page is exactly its window if and only if the window has no gap or nothing lies at or after the requested time; otherwise it runs over into later candles. |
| BackwardPaging.ProgressIff | app/coinbase/exchange.py:1028-1077 | `next_before` moves back exactly when the window holds a candle. |
| BackwardPaging.ChainLosesNothing | app/coinbase/exchange.py:1028-1077 | On any history on the grid, gaps included, the pages of a chain without what they repeat are the unpaged query, as long as no window is empty. |
| BackwardPaging.ChainIsDirectQuery | app/coinbase/exchange.py:1028-1077 | On a gap-free history k pages joined oldest first are exactly the direct query of k * limit candles. |
| BackwardPaging.AlignedFallsByWindow | app/coinbase/exchange.py:1028-1077 | From the start of a candle `next_before` falls by exactly limit steps a page. |
| BackwardPaging.OldestPageRepeats | app/coinbase/exchange.py:1028-1077 | A chain that has reached the oldest candle is served the oldest page for ever. |
| BackwardPaging.RepeatsIffGap | app/coinbase/exchange.py:1028-1077 | The page asked for at a candle contains that candle, if and only if its window has a gap. |
| BackwardPaging.GapRepeatsCandle | app/coinbase/exchange.py:1028-1077 | A history with a gap and a page of it that contains the candle it was asked to stop at. |
| OhlcEndpoint.ConfigLimits | app/coinbase/exchange.py:889-894 | The four timeframes have pages of 300, 288, 168 and 30 candles of one minute, a quarter of an hour, an hour and a day. |
| OhlcEndpoint.TimeAsked | app/coinbase/exchange.py:1016-1077 | Both exchanges are asked for one page up to now, if no time, zero, or a time not before now is given, else up to that time; the primary one's candles are answered, else the fallback's, with the time of the oldest. |
| OhlcEndpoint.FirstPageIsNewest | app/coinbase/exchange.py:1016-1041 | A first request on a gap-free history that reaches now is answered with the newest candles. |
| OhlcEndpoint.FutureIsNow | app/coinbase/exchange.py:1016-1020 | Asking without a time, or for the future, is asking with now. |
| OhlcEndpoint.EndpointServesPages | app/coinbase/exchange.py:1016-1087 | The answer is the page of the primary history if that has a candle, else of the fallback; an exchange that fails has no candles. |
| OhlcEndpoint.AnswersAreChain | app/coinbase/exchange.py:1016-1087 | The i-th answer to a client that follows `next_before`, while the clock goes on, is the i-th page of the chain over both exchanges, as long as every window holds a candle and no time asked for is zero. |
| OhlcEndpoint.EndpointChain | app/coinbase/exchange.py:1033-1077 | Such a chain switches at most once, from the fallback to the primary exchange, and without repeats its pages are the unpaged query of the fallback above the switch and of the primary history below it. |
| Balances.BuildBalance | app/coinbase/coinbase_cctx.py:60-97 | Fails exactly when an account has no code; otherwise builds the specified balance. |
| Balances.BalanceShowsLastParsed | app/coinbase/coinbase_cctx.py:62-95 | With no reserved code, entry and tables show for each code its last account that parsed, and a code of which none parsed appears nowhere. |
| Balances.BalanceShowsAvailableAndHold | app/coinbase/coinbase_cctx.py:68-86 | For each code with an account that can be read, free is what the last such account has available, used what it holds, and total both together, in the entry and in the tables; other codes appear nowhere. |
| Balances.CoherentIffNoReserved | app/coinbase/coinbase_cctx.py:60-86 | In the balance that is built the entries and the three tables name the same currencies, agree, and satisfy free + used = total, if and only if no account that parses is called free, used or total. |
| Portfolio.ValueAssets | app/coinbase/exchange.py:1296-1343 | The loop over the balance computes total, breakdown and amounts, leaving out zero amounts and assets without a ticker. |
| Portfolio.CalculateDashboard | app/coinbase/exchange.py:1294-1415 | The loops over balance and trades compute the specified dashboard. |
| Portfolio.AddCosts | app/coinbase/exchange.py:1358-1376 | The cost basis is the sum over buys up to the first trade that cannot be read. |
| Portfolio.WorthIsSumOfProducts | app/coinbase/exchange.py:1304-1340 | The portfolio is worth the sum of amount times price over the assets that are not zero and have a ticker, USDC and USDT counting one each. |
| Portfolio.DashboardShows | app/coinbase/exchange.py:1340-1415 | The dashboard lists exactly the assets that have a value, each with its amount and with amount times price to the nearest cent, and their sum to the nearest cent. |
| Portfolio.DashboardProfits | app/coinbase/exchange.py:1382-1414 | Cost, profit and 24h figure are, to the nearest cent, the cost basis, worth less cost, and worth less the snapshot; without a snapshot, or with one of zero, the last is zero. |
| Portfolio.CostBasisAdds | app/coinbase/exchange.py:1358-1376 | The cost basis adds up over trades that can be read. |
| Portfolio.CostOfOne | app/coinbase/exchange.py:1364-1376 | A trade adds its cost if it is a buy that has one, and an unreadable trade ends the sum. |
| Portfolio.DashboardAnyOrder | app/coinbase/exchange.py:1304-1347 | The whole dashboard does not depend on the order in which the balance is iterated. |
| Portfolio.WorthAnyOrder | app/coinbase/exchange.py:1304-1347 | The unrounded total is the same for all permutations of the assets. |
| Portfolio.CentsNearest | app/coinbase/exchange.py:1410-1414 | Rounding goes to the nearest cent, and from the middle to the even one. |
| Portfolio.BreakdownNearTotal | app/coinbase/exchange.py:1340-1411 | The n rounded entries add up to the rounded total within (n + 1) / 2 cents. |
| Portfolio.ProfitNearDifference | app/coinbase/exchange.py:1382-1414 | The rounded profit differs from rounded total minus rounded cost basis by at most one cent. |
| Portfolio.TakeSnapshot | app/services/background/portfolio_snapshot_worker.py:62-81 | The snapshot loop computes the specified valuation and gives up at the first missing ticker. |
| Portfolio.SnapshotIsDashboardWorth | app/services/background/portfolio_snapshot_worker.py:62-81 | A snapshot value exists exactly when every counting asset is priced, and is then the unrounded total of the dashboard. |
| Portfolio.SnapshotIsSumOfProducts | app/services/background/portfolio_snapshot_worker.py:66-81 | A snapshot value exists exactly when every asset that is not zero has a value, and is then the sum of amount times price. |
| Portfolio.UnchangedDayIsZero | app/coinbase/exchange.py:1397-1404 | With unchanged prices and balance, in any order, the 24h figure is zero. |
| Portfolio.SnapshotUsers | app/services/background/portfolio_snapshot_worker.py:32-95 | The loop over the users adds the rows of the users whose steps succeed, and is left early exactly when the worker is cancelled or an exchange fails to close. |
| Portfolio.SnapshotPass | app/services/background/portfolio_snapshot_worker.py:25-97 | A pass commits the rows of the specification, and the worker survives it exactly when the query of the users and the commit go through and the loop over the users is not left early. |
| Portfolio.OwnAllIsExactly | app/services/background/portfolio_snapshot_worker.py:32-91 | The rows added are exactly those of the users whose own steps succeed. |
| Portfolio.OwnIs | app/services/background/portfolio_snapshot_worker.py:36-88 | A user has a row exactly when keys are found, an exchange opens and knows a balance, and every asset that is not zero has a value; its worth is the sum of amount times price. |
| Portfolio.CompletesIff | app/services/background/portfolio_snapshot_worker.py:25-97 | A pass completes exactly when the query and the commit go through, the worker is not cancelled for any user, and every opened exchange closes. |
| Portfolio.IsolatedIff | app/services/background/portfolio_snapshot_worker.py:32-97 | A pass commits the rows of exactly those users whose own steps succeed, if and only if nothing stops it before the end of its commit or nobody has a row to lose. |
| Portfolio.OneUserDecides | app/services/background/portfolio_snapshot_worker.py:32-97 | What happens to one user decides that user's row and no other, unless it stops the pass, which loses all rows. |
| Portfolio.OneCloseLosesAll | app/services/background/portfolio_snapshot_worker.py:93-97 | A pass in which one user's exchange fails to close and another user's row is lost. |
| ExchangeLifecycle.ExchangePool.FetchAccounts | app/coinbase/coinbase_cctx.py:48-124 | The retry loop ends as specified, with the specified numbers of requests and time syncs. |
| ExchangeLifecycle.ExchangePool.GetWorkingExchange | app/coinbase/coinbase_cctx.py:25-186 | The result is the specified one, and what is newly open is the returned exchange and what an interruption leaves. |
| ExchangeLifecycle.ExchangePool.UseExchange | app/services/background/portfolio_snapshot_worker.py:34-95 | With the `finally` of its caller the set of open exchanges is unchanged but for interruptions. |
| ExchangeLifecycle.UncutLeavesNothing | app/coinbase/coinbase_cctx.py:126-184 | Without a cancellation nothing is left open but what is returned. |
| ExchangeLifecycle.AtMostOneLeft | app/coinbase/coinbase_cctx.py:126-184 | A cancelled call leaves at most one exchange open, and no other call leaves one. |
| ExchangeLifecycle.RequestsAndSyncs | app/coinbase/coinbase_cctx.py:48-121 | As many account requests are made as attempts, one to three, and a time sync after each refusal but the third. |
| ExchangeLifecycle.PrimaryReturnedIff | app/coinbase/coinbase_cctx.py:48-124 | The primary exchange is returned exactly when one of three attempts answers with coded accounts after only refusals, with the balance built from that answer. |
| ExchangeLifecycle.FallbackReturnedIff | app/coinbase/coinbase_cctx.py:143-170 | The fallback is returned exactly when the primary exchange gave no answer, was closed, nothing was cancelled, there is a passphrase, and the fallback is built, put in its sandbox and answers. |
| ExchangeLifecycle.InterruptedIff | app/coinbase/coinbase_cctx.py:54-184 | A call is interrupted exactly by the cancellation of an attempt or its pause, of the fallback's request, or of the close that follows a failure. |
| ExchangeLifecycle.LeftOpenIs | app/coinbase/coinbase_cctx.py:126-184 | An interrupted call leaves open the primary exchange if an attempt or its close was cancelled, else the fallback if one was built. |
| LimitOrder.PlacedIffPermitted | app/coinbase/exchange.py:660-687 | An order is placed if and only if some affordable number of lots reaches the minimum, and then for the greatest one at the rounded price. |
| LimitOrder.PlacedBounds | app/coinbase/exchange.py:667-687 | A placed buy satisfies amount * price <= quantity < (amount + lot) * price, a sell amount <= quantity < amount + lot, and the amount is at least the minimum. |
| LimitOrder.SizingIsMonotone | app/coinbase/exchange.py:667-687 | More quantity never makes an order fail nor smaller. |
| LimitOrder.PriceIsNearLimit | app/coinbase/exchange.py:667 | The rounded price lies within half a tick of the limit. |
| LimitOrder.RefusedFor | app/coinbase/exchange.py:661-680 | Without a limit or a quantity, with a price that rounds to zero, an amount of less than one lot, or no minimum, an order is refused for that reason, else it is placed or too small. |
| LimitOrder.LotsAreOdd | app/coinbase/exchange.py:668-672 | Amounts are truncated towards zero on either side. |
| DashboardCache.Cache.RunPass | app/websocket/background/dashboard_worker.py:34-58 | A pass leaves in the cache each user's last write, and takes the time of its turns. |
| DashboardCache.Cache.Work | app/websocket/background/dashboard_worker.py:25-63 | After any passes the cache holds each user's last write. |
| DashboardCache.Cache.Get | app/websocket/router.py:259-268 | A read finds an entry until its forty seconds have passed. |
| DashboardCache.Cache.RunTurn | app/websocket/background/dashboard_worker.py:36-58 | A turn that succeeds sets the user's entry to a write at the time the turn ends, and no other entry changes. |
| DashboardCache.CacheReadsLog | app/websocket/router.py:259-268 | Reading the cache is reading the log of writes. |
| DashboardCache.EveryTimeIsAMoment | app/websocket/background/dashboard_worker.py:25-63 | Every time of a run lies after some number of passes and turns and before the next change. |
| DashboardCache.GetReadsLog | app/websocket/router.py:255-268 | At every moment of every run a reader gets from the cache what the log of all writes says, whatever the worker does afterwards. |
| DashboardCache.ServedIsFresh | app/websocket/router.py:259-263 | Whatever is served was written less than 40 seconds earlier, with no write since. |
| DashboardCache.WritesAreClose | app/websocket/background/dashboard_worker.py:34-63 | Consecutive writes for a user are at most the pause and the two passes apart. |
| DashboardCache.NeverMissesIff | app/websocket/background/dashboard_worker.py:45-51 | Readers never miss exactly when no two consecutive writes are more than the TTL apart. |
| DashboardCache.FailedPassMisses | app/websocket/background/dashboard_worker.py:55-63 | A pass that does not serve a user leaves a moment at which the entry has expired. |
| DashboardCache.NeverMissesIffAllServe | app/websocket/background/dashboard_worker.py:25-63 | With passes of at most five seconds a user's readers never miss, from first write to last expiry, if and only if every pass serves the user. |
| DashboardCache.OneFailureMisses | app/websocket/background/dashboard_worker.py:55-63 | Three quick passes of which the second fails for a user: that user's readers then miss. |
| SubscriptionStore.Store.HandleSubscription | app/services/payment_service.py:89-143 | A checkout leaves the specified tables; it commits exactly when the status is valid, the event is new, the user exists and has at most one row. |
| SubscriptionStore.Store.HandleCancelSubscriptionAtPeriodEnd | app/services/payment_service.py:243-262 | A cancellation leaves the specified tables; it commits exactly when the user has one row and Stripe agrees. |
| SubscriptionStore.Store.HandleSubscriptionUpdated | app/services/payment_service.py:148-171 | An update leaves the specified tables; it commits exactly when one row has the id and no cancellation is announced. |
| SubscriptionStore.RunKeepsInvariants | app/models/user.py:134-146 | In every serial run event ids are never repeated and no user has more than two rows. |
| SubscriptionStore.StepMovesRows | app/services/payment_service.py:89-143 | Only a checkout adds a row, and only for a user without a row or whose one row is set to end. |
| SubscriptionStore.SecondRowNeedsCancellation | app/services/payment_service.py:96-129 | A second row is created only while the first is set to end with its period. |
| SubscriptionStore.CheckoutIsAtomic | app/services/payment_service.py:105-140 | A checkout changes a row and adds its transaction together, or changes nothing. |
| SubscriptionStore.CheckoutRefusedIff | app/services/payment_service.py:89-140 | A checkout changes nothing exactly when its status is not of the enumeration, its event id is known, its user does not exist or has two rows. |
| SubscriptionStore.RenewalWrites | app/services/payment_service.py:96-116 | An accepted checkout of a user with one row not set to end writes the event's plan, type, status, price, period and Stripe id into that row, keeps its id, user and cancellation, changes no other row, and bills that row. |
| SubscriptionStore.NewRowWrites | app/services/payment_service.py:119-140 | An accepted checkout of a user without a row, or whose one row is set to end, adds a row with the event's fields that is not set to end, and a bill that is linked to no row. |
| SubscriptionStore.RunKeepsRowsValid | app/models/user.py:96-120 | In every run ids are below the counter and never shared, so a new row's id is new; statuses are of the enumeration and users exist. |
| SubscriptionStore.CheckoutMovesOnlyOwnRow | app/services/payment_service.py:96-129 | For a user with one row, all other rows stay, and a row is added exactly when that one is set to end. |
| SubscriptionStore.ReplayChangesNothing | app/models/user.py:145 | A checkout whose event id was committed changes nothing when delivered again, at any later time and with any content. |
| SubscriptionStore.AcceptedStaysBilled | app/services/payment_service.py:107-140 | A checkout that the database lets through, of a user with at most one row, is billed and stays so in every later state. |
| SubscriptionStore.TwoRowsAreFinal | app/services/payment_service.py:89-92 | A user with two rows keeps two for ever, and no checkout or cancellation of that user changes anything. |
| SubscriptionStore.CancelIff | app/services/payment_service.py:243-258 | A cancellation sets exactly the user's one row to end, if there is exactly one and Stripe agrees, and changes no other row and no transaction. |
| SubscriptionStore.CancellingUpdateIsLost | app/services/payment_service.py:157-168 | An update that announces a cancellation never changes the store, since its status is not of the enumeration; otherwise, if exactly one row has the id, that row becomes active and not set to end, and nothing else changes. |
| SubscriptionStore.BillsComeFromCheckouts | app/services/payment_service.py:107-139 | Every transaction stems from a checkout event of the run, with its user and price. |
| SubscriptionStore.ResubscribingLocksOut | app/services/payment_service.py:92-129 | For any user with one row, cancelling and subscribing again gives two rows and a cancellation that no longer works. |
| Volatility.GetVolatility | app/coinbase/exchange.py:1109-1135 | Fewer than two candles give no series, exactly two raise, n give n - 2 points, of which the k-th has the time of candle k + 2; the latest is that of the last point. |
| Volatility.VolatilityIs | app/coinbase/exchange.py:1121-1125 | A point is the rounded non-negative number whose square is the population variance of the returns of the closes before it, times 365 * 24. |
| Volatility.ReturnsAre | app/coinbase/exchange.py:1123 | n closes have n - 1 returns, of which the k-th is the difference of the logarithms of closes k + 1 and k. |
| Volatility.VarianceIs | app/coinbase/exchange.py:1125 | n times the variance is the sum of the squares less the square of the sum over n. |
| Volatility.CalmIff | app/coinbase/exchange.py:1121-1125 | With an exact result a point is zero if and only if all returns before it are equal. |
| Volatility.AppendingKeepsPoints | app/coinbase/exchange.py:1120-1129 | Later candles never change an earlier point. |
| Volatility.ScalingKeepsPoints | app/coinbase/exchange.py:1123-1125 | Multiplying all closes by a positive factor changes no point. |
| Volatility.GeometricIsCalm | app/coinbase/exchange.py:1123-1125 | A price that grows by a constant factor has volatility zero at every point. |
| Volatility.VarianceZeroIff | app/coinbase/exchange.py:1125 | The variance of the returns is never negative, and zero exactly when they are all equal. |
| PriceStore.Listener.Connection | app/websocket/background/top10_listener.py:55-73 | One connection stores the tickers it reads, up to the first message that raises. |
| PriceStore.Listener.Listen | app/websocket/background/top10_listener.py:38-78 | Over any number of reconnects the store is that of all delivered messages. |
| PriceStore.ReadableIs | app/websocket/background/top10_listener.py:55-76 | What a connection delivers is its longest beginning of which every message can be read. |
| PriceStore.DeliveredInTurn | app/websocket/background/top10_listener.py:38-78 | Connections deliver one after the other, each what can be read of it. |
| PriceStore.StoreHoldsLast | app/websocket/background/top10_listener.py:59-73 | The store maps each product seen, and no other, to its last ticker. |
| PriceStore.StoredIff | app/websocket/background/top10_listener.py:59-62 | The products stored are those of the tickers received, except for the empty one. |
| PriceStore.StoreListsByFirst | app/websocket/handlers/top_10.py:19-22 | The values are listed in the order in which their products were first seen, each once. |

## Left out

- Loading a user's exchange keys before a request, except in the snapshot pass.
- Authentication, keep-alive and the replies of a session; the inside of the order-book and top-10 tasks, which are only running or finished.
- Letters beyond ASCII in `upper()`.
- The doubling back-off of the reconnect loops, the content of published messages, and the shutdown flag of the top-10 listener.
- Real parallelism: steps interleave only at awaits.
- ForwardPaging.GetHistoricalData: does not model the offset by which `utcnow().timestamp()` is wrong outside UTC, nor the symbol names and the conversion of candles to records.
- OhlcEndpoint.AnswersAreChain: an exchange is available for the whole chain or fails throughout; the formatting of timestamps is not modelled.
- Balances.BuildBalance: does not model the entry that keeps the raw accounts under the key info, nor an account with that code.
- Portfolio.CalculateDashboard: does not model floating-point error.
- ExchangeLifecycle.ExchangePool.CloseExchange: a close that raises counts as closed.
- LimitOrder.PlacedIffPermitted: covers limit orders whose rounded price is positive and whose market has a minimum; a market without a minimum, and a price or amount that vanishes, are refusals of `Size`.
- Market orders, the switch between USD and USDC, validation of order fields, and the stored order row.
- SubscriptionStore.CheckoutIsAtomic: does not promise that a new subscription's transaction is linked to it, since its id is read before it exists.
- The handlers of automatic renewals and of deleted subscriptions, prices that are no integers, and an absent cancellation flag.
- Gaps in the ids after a refused insert.
- Realised profit and loss, the unused cached dashboard, sign-up, one-time passwords, addresses, settings and key storage: they would add only easy members or are not reached.
