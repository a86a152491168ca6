# stocks-near-ma, modelled in Dafny

stocks-near-ma watches S&P 500 stocks and a few fixed ETFs. For each one it measures how far the
last close lies from its moving average, 150 days by default. The system has five front ends:

- A FastAPI backend that caches results for an hour and fetches tickers in batches on a thread pool.
- A scheduled job that uploads a JSON document of the same records.
- A Streamlit dashboard that loads tickers one by one and shows filters and counters.
- An alert monitor whose WhatsApp notifications are held back by a cooldown.
- A helper that asks for confirmation, then writes a near-MA alert for every S&P 500 symbol into config.yaml.

The Dafny project models the logic under that glue:

- The time-to-live cache (`Cache`) and the API handlers built on it (`Api`).
- The metric of one ticker (`StockService`, over the averages of `Prices`).
- The batch loop with its pauses and its unordered results inside a batch (`Batching`, `ParallelProcessor`).
- The ticker universe and its clean-up (`Sp500Fetcher`), and the merge of user-typed tickers (`TickerMerge`, over the string functions of `Text`).
- The counters (`Stats`).
- The alert conditions, the dispatch and one monitoring pass (`Monitor`), and the cooldown bookkeeping (`Notifier`).
- The dashboard (`Dashboard`), the scheduled job (`FetchJob`) and the config helper (`AddSp500`).

Everything the programs receive from outside is taken as a parameter of the model:

- price histories: `Market`, or a `Feed`;
- the scraped Symbol column: `Option<seq<string>>`, where `None` means the request raised;
- clock readings: `now`, `recordedAt` and `elapsed`, in seconds;
- the HTTP outcome of a WhatsApp send;
- the environment secrets;
- the success of the upload;
- the typed answer;
- the contents of the config file.

A `None` history stands for a provider call that raised. The source turns such a call into a `None` record, and so does the model.

Prices are positive reals (`Prices.Price`), so every moving average is positive and no division can be by zero. The thread pool's `as_completed` order is modelled as a free choice. The next finished future is picked with `:|`, so the results of a batch are pinned down only up to their multiset, while the batches themselves come out in order.

Where code and prose disagree, the model follows the code:

- A price exactly equal to its average is reported `BELOW`, since the test is a strict `>` (`StockService.PriceAtAverageIsBelow`).
- The backend's cache key `f"stocks_{include_custom or 'default'}"` gives one entry to three requests: no `include_custom`, an empty one, and `include_custom=default` (`Api.DefaultKeyShared`).
- The scheduled job's ticker list goes through `list(set(...))`. Its order is not fixed, and only the absence of duplicates and the set of members are promised (`FetchJob.JobTickers`).

## Model

| member | source | states |
|---|---|---|
| Cache.SimpleCache.constructor | backend/utils/cache.py:10-18 | a new cache keeps the given time-to-live and starts empty |
| Cache.SimpleCache.Get | backend/utils/cache.py:20-37 | returns the value only for a present entry younger than the ttl (strict); deletes an expired entry for that key and nothing else |
| Cache.SimpleCache.Set | backend/utils/cache.py:39-47 | the key now maps to the value stamped with the current time; every other entry is unchanged |
| Cache.SimpleCache.Clear | backend/utils/cache.py:49-51 | the store is empty |
| Cache.SimpleCache.Has | backend/utils/cache.py:53-63 | true exactly when `get` would return a value, and it evicts an expired entry just as `get` does |
| Cache.SetThenGet | backend/utils/cache.py:30-47 | a value stored at t is read back at t2 exactly while t2 - t < ttl, with the store untouched; from t2 - t == ttl on the read misses and drops the key |
| Cache.GetAbsent | backend/utils/cache.py:30-37 | reading an absent key returns nothing and changes nothing |
| Cache.GetExpired | backend/utils/cache.py:30-36 | reading an expired key returns nothing and removes exactly that key; other entries keep their values |
| Cache.OtherKeysUntouched | backend/utils/cache.py:30-47 | a read or a write of one key never changes what another key holds or reads as |
| Cache.GetIdempotent | backend/utils/cache.py:30-37 | a second read at the same time sees the same result and changes nothing more |
| Cache.GetThenSet | backend/utils/cache.py:30-47 | a write after a read of the same key yields the same store as the write alone |
| Cache.ClearedMisses | backend/utils/cache.py:30-51 | after `clear` every read misses and leaves the store empty |
| Notifier.AlertNotifier.constructor | notifier.py:12-24 | the notifier keeps its cooldown and credentials, and no alert has been recorded |
| Notifier.AlertNotifier.SendAlert | notifier.py:57-89 | suppressed exactly when `should_alert` is false, and then the map is unchanged; otherwise records the key at the time after the send, whatever the credentials or the HTTP outcome were |
| Notifier.Report | notifier.py:70-86 | an alert that is not suppressed is only logged exactly when a credential is missing |
| Notifier.ReportFollowsHttp | notifier.py:71-86 | with credentials, the send succeeds exactly on status 200 and errs exactly when the request raised |
| Notifier.NeverRecordedIsDue | notifier.py:49-50 | a key that was never recorded may always fire, and firing records it |
| Notifier.CooldownBoundary | notifier.py:52-55 | a recorded key is due at exactly cooldown minutes after its time (inclusive), and not before |
| Notifier.AfterSendChanges | notifier.py:66-89 | a suppressed send leaves the map as it was; one that goes out sets its own key, and every other key keeps its presence and its time |
| Notifier.SuppressedUntilCooldown | notifier.py:52-89 | after a send recorded at r, the key is due at a later time exactly when that time is at least r plus the cooldown |
| Notifier.NoDoubleSend | notifier.py:49-89 | with a positive cooldown a second send of the same key at the same moment is suppressed and changes nothing |
| StockService.GetStockMaData | backend/services/stock_service.py:8-48 | `None` exactly when the provider raised or there are fewer than ma_period closes; otherwise the record names the symbol, holds the last close, and holds the mean of the last ma_period closes; the record's distances, direction and near flag obey their definitions |
| StockService.DirectionMatchesSign | backend/services/stock_service.py:32-34 | ABOVE exactly when the signed distance is positive, BELOW exactly when it is not |
| StockService.NearMeansWithinBand | backend/services/stock_service.py:32-35 | near_ma holds exactly when the price lies within 5% of the average, bounds included |
| StockService.PriceAtAverageIsBelow | backend/services/stock_service.py:34-35 | a price equal to its average is BELOW, at distance 0, and near |
| StockService.AverageWithinWindow | backend/services/stock_service.py:27-29 | the moving average lies between the smallest and the largest close of its window |
| StockService.FlatHistory | backend/services/stock_service.py:23-35 | a constant history has that constant as its average and is BELOW, at distance 0 and near |
| StockService.JumpAfterFlatHistory | backend/services/stock_service.py:23-35 | 149 closes of 100 and one of 110 give an average of 15010/150, ABOVE, a distance of between 9.9 and 10 percent, not near |
| Batching.FlattenBatches | backend/services/parallel_processor.py:38-40 | the batches, laid end to end, are the ticker list: every ticker lands in exactly one batch, in order |
| Batching.BatchSizes | backend/services/parallel_processor.py:38-40 | no batch is empty and none holds more than batch_size tickers |
| Batching.BatchCount | backend/services/parallel_processor.py:37-40 | there are ceil(n / batch_size) batches |
| Batching.BatchAt | backend/services/parallel_processor.py:38-40 | batch k is `tickers[k*size : min(k*size + size, n)]` |
| Batching.CollectBatch | backend/services/parallel_processor.py:46-61 | whatever order the futures finish in, one batch yields exactly the non-None results of its tickers, as a multiset |
| Batching.CollectBatches | backend/services/parallel_processor.py:34-70 | the results are the per-batch outputs concatenated in batch order. Each batch's output is its non-None results. Overall they are the non-None results of all tickers, and there is one pause fewer than there are batches (none for an empty list) |
| ParallelProcessor.ParallelStockProcessor.constructor | backend/services/parallel_processor.py:13-22 | the processor keeps its worker count and batch size |
| ParallelProcessor.ParallelStockProcessor.FetchStocksParallel | backend/services/parallel_processor.py:24-70 | the records are the fetcher's non-None results, batch by batch, never more than the tickers, each well-formed and for a requested ticker, with batches - 1 pauses |
| ParallelProcessor.ParallelStockProcessor.FetchSingleStock | backend/services/parallel_processor.py:72-82 | exactly the service's result for the symbol |
| ParallelProcessor.KeptStocksWellFormed | backend/services/parallel_processor.py:54-59 | every record the loop keeps is well-formed and belongs to a requested ticker |
| Sp500Fetcher.CleanSymbol | backend/utils/sp500_fetcher.py:42 | each '.' becomes '-', every other character and the length stay |
| Sp500Fetcher.CleanSymbols | backend/utils/sp500_fetcher.py:42 | the cleaned list keeps the count and order of the scraped symbols |
| Sp500Fetcher.GetSp500Tickers | backend/utils/sp500_fetcher.py:8-51 | on success the cleaned symbols followed by the ETFs and the stocks, without dedup; on failure the ETFs followed by the stocks |
| Sp500Fetcher.TickerCount | backend/utils/sp500_fetcher.py:12-51 | 13 tickers on failure, the scraped count plus 13 on success |
| Sp500Fetcher.CustomsAlwaysPresent | backend/utils/sp500_fetcher.py:45-51 | every fixed ETF and stock is in the list on both paths |
| Sp500Fetcher.NoDotsRemain | backend/utils/sp500_fetcher.py:42-51 | no ticker of the list contains a '.' |
| Stats.ComputeStatistics | backend/app.py:160-170 | total is the list length, near and above + below never exceed it |
| Stats.AboveBelowPartition | backend/app.py:162-163 | when every record is ABOVE or BELOW, above + below == total |
| Stats.StatisticsOrderIndependent | backend/app.py:160-163 | two lists with the same records in any order have the same statistics |
| Text.Strip | backend/app.py:109 | `strip()` never lengthens a string and leaves no blank at either end of a non-empty result |
| Text.StripPadded | add_sp500.py:88 | stripping blanks around a word with non-blank ends gives back the word |
| Text.JoinSplit | backend/app.py:109 | `split(',')` loses nothing: joining the pieces with ',' gives the input back |
| Text.ParseNatToString | add_sp500.py:31 | the decimal rendering of ma_period in an alert name reads back as the same number |
| TickerMerge.ParseTickerList | backend/app.py:109 | at most one ticker per comma-separated piece, each non-empty, comma-free, upper-case and trimmed |
| TickerMerge.ParseMember | backend/app.py:109 | a ticker is parsed exactly when some piece strips and upper-cases to it |
| TickerMerge.Merged | backend/app.py:110-112 | the original list is an unchanged prefix; every appended ticker came from the input, was not in the original, and appears once; every input ticker ends up in the list |
| TickerMerge.MergeCustom | backend/app.py:108-112 | the append loop computes `Merged` |
| TickerMerge.MergeNothingNew | backend/app.py:110-112 | merging tickers that are all present changes nothing |
| TickerMerge.MergeIdempotent | backend/app.py:108-112 | merging the same input twice is merging it once |
| TickerMerge.MergeKeepsNoDuplicates | backend/app.py:110-112 | a duplicate-free list stays duplicate-free |
| TickerMerge.MergedFrom | backend/app.py:110-112 | every ticker of the result comes from the original list or the input |
| Api.StocksCacheKey | backend/app.py:92 | the key starts with "stocks_" and never collides with the ticker key |
| Api.CacheKeyInjective | backend/app.py:92 | different non-empty selections get different keys |
| Api.DefaultKeyShared | backend/app.py:92 | no selection, an empty one and "default" share "stocks_default" |
| Api.StockKeyServesStocks | backend/app.py:95-102 | a fresh entry under a stock key is always a list of well-formed records |
| Api.StockApi.constructor | backend/app.py:30 | start-up builds an empty one-hour cache and a processor with 10 workers and batches of 50 |
| Api.StockApi.FetchStocks | backend/app.py:116 | the processor returns the non-None records of the tickers, all well-formed |
| Api.StockApi.Requested | backend/app.py:104-112 | the base list, extended by the parsed `include_custom` tickers when there are any |
| Api.StockApi.Probe | backend/app.py:95-96 | a hit only for a fresh, non-empty value; a hit changes nothing, a miss may evict the expired entry |
| Api.StockApi.Store | backend/app.py:120 | the store is the pre-read store with the key set; the handlers' invariant is kept |
| Api.StockApi.GetTickers | backend/app.py:53-75 | count == len(tickers); a hit serves the cached list and changes nothing; a miss serves and stores the fresh list under "sp500_tickers", stamped with the time the scrape finished |
| Api.StockApi.GetStocks | backend/app.py:78-127 | total_count == len(stocks); a hit returns the cached records with time 0.0 and cache_hit true, store unchanged; a miss fetches the requested tickers and stores the records under the key, stamped with the time the fetch finished, with cache_hit false and the fetch's own duration as processing time, no other key altered |
| Api.StockApi.FetchAndStore | backend/app.py:104-127 | the miss path of `get_stocks`: fetched records of the requested tickers, stored under the key only, stamped with the time the fetch finished |
| Api.StockApi.GetStatistics | backend/app.py:130-170 | explicit tickers: their statistics, cache untouched; otherwise the cached default list's statistics on a hit, or the fetched default list's with the records stored under "stocks_default" and the response stamped with the store time; above + below == total always |
| Api.StockApi.ClearCache | backend/app.py:173-177 | the store is empty and the message is "Cache cleared successfully" |
| Monitor.CheckNearMa | main.py:42-79 | fewer than ma_period closes: not met with "Insufficient data"; otherwise met exactly when the absolute percent distance is at most the threshold, with no message when not met |
| Monitor.CheckAbove | main.py:81-103 | empty history: not met, "No data available"; no price: raises; otherwise met exactly when the last close is strictly above it |
| Monitor.CheckBelow | main.py:105-127 | the mirror image with a strict below |
| Monitor.CheckPercentChange | main.py:129-158 | fewer than 2 closes: not met, "Insufficient data"; when met the message says "up" exactly when the last close exceeds the one before |
| Monitor.NearMaBand | main.py:68-70 | the near-MA check fires exactly when the price lies within threshold percent of the average, bounds included |
| Monitor.AboveBelowExclusive | main.py:95-124 | `check_above` and `check_below` never both fire for the same history and price |
| Monitor.PercentChangeBand | main.py:143-152 | the change check fires exactly when the move exceeds threshold percent of the previous close, strictly, up or down |
| Monitor.NearMaInfo | main.py:209-223 | the record keeps symbol and name, holds the last close, the average, the distance as the absolute percentage of the average, direction ABOVE when the price is strictly above the average and BELOW otherwise, and the check's outcome and message |
| Monitor.StockMonitor.constructor | main.py:17-31 | a fresh notifier with the configured cooldown (default 60) and credentials, and no records |
| Monitor.StockMonitor.CheckAlert | main.py:160-247 | the record is that of `Evaluate`, and the notifier's map is updated for the alert it dispatched, if any |
| Monitor.StockMonitor.RunIteration | main.py:261-281 | no alerts: nothing changes; otherwise the records are exactly those of the alerts in order, and the notifier's map is what the alerts' sends produce one after another |
| Monitor.DisabledIffNone | main.py:170-171 | `check_alert` returns None exactly when enabled is explicitly false, and then sends nothing |
| Monitor.QuietPaths | main.py:178-233 | an unknown condition, an empty one-day history or an unreachable provider give the default record and no alert |
| Monitor.AlertKeyShape | main.py:235-242 | an alert is sent only for an enabled alert with a known condition that was met, under symbol + "_" + condition; every record names its symbol |
| Monitor.TriggeredOnlyNearMa | main.py:203-242 | only a near-MA alert sets alert_triggered, and then its alert is sent |
| Monitor.NearMaAgreesWithService | main.py:203-223 | with the defaults, the monitor's near-MA check and direction agree with the backend's record |
| Monitor.InfosCount | main.py:276-281 | a pass holds one record per enabled alert |
| Monitor.InfosInOrder | main.py:278-281 | the records follow the enabled alerts in configuration order |
| Monitor.AfterAlertsTouchesOnlySentKeys | main.py:236-242 | a key no alert of the pass sent keeps its presence and its time |
| Dashboard.RowAgreesWithService | streamlit_app.py:95-129 | the dashboard's copy of the metric gives a row exactly when the backend gives a record, field for field equal, the bell exactly when near_ma |
| Dashboard.KeptRowsAreRecords | streamlit_app.py:136-142 | the loaded rows are the backend's records, in ticker order |
| Dashboard.LoadAllStocks | streamlit_app.py:131-149 | the rows are the non-None rows in ticker order; one pause per multiple of 50 among the 1-based indexes |
| Dashboard.LoadedRowStyles | streamlit_app.py:151-163 | on every loaded row the direction is red exactly when price > MA and green exactly otherwise; the bell is highlighted exactly within 5% |
| Dashboard.FilterRowsSpec | streamlit_app.py:225-231 | the table shows the rows that pass both filters in their original order; "All" without near-only shows every row |
| Dashboard.DashboardStatsMatchBackend | streamlit_app.py:236-249 | the four metrics over the unfiltered rows, compared on unrounded distances, are the backend's statistics, so near <= total and above + below == total |
| Dashboard.TickersNeverEmpty | streamlit_app.py:192-196 | the ticker list always holds at least 13 tickers |
| Dashboard.RenderPage | streamlit_app.py:192-255 | no rows: "No data loaded"; otherwise all rows, the filtered rows, the metrics, and whether the "Showing" count appears |
| AddSp500.ScrapeTickers | add_sp500.py:6-23 | the cleaned symbols in order, or nothing when the scrape raised |
| AddSp500.GenerateConfigEntries | add_sp500.py:25-42 | one entry per ticker, in order, each the near-MA alert for that ticker |
| AddSp500.GeneratedEntriesMonitored | add_sp500.py:30-39 | every generated alert is enabled with the given period and threshold, so a monitoring pass keeps one record per ticker and alerts only under ticker + "_near_ma" |
| AddSp500.ReplaceOnlyAlerts | add_sp500.py:59-60 | the new config sets 'alerts' and keeps every other key and value |
| AddSp500.UpdateConfig | add_sp500.py:44-69 | an unreadable file writes nothing; an empty document is backed up and then fails; otherwise the backup holds the old config and the file the new one |
| AddSp500.RunAddSp500 | add_sp500.py:71-102 | no tickers ends without writing; with tickers found the config is replaced exactly when the answer, stripped and lower-cased, is "yes", and any other answer ends Cancelled; an update carries one default entry per ticker, backs up the old config (None for an empty document, which then fails before writing) and writes it with its alerts replaced; an unreadable file writes nothing |
| AddSp500.ConfirmedDespiteCaseAndBlanks | add_sp500.py:88-90 | any case of "yes" padded with any whitespace confirms |
| AddSp500.OtherAnswersCancel | add_sp500.py:88-102 | "y", "no" and an empty answer cancel |
| FetchJob.JobTickers | scripts/fetch_stocks.py:45-86 | on success no duplicates and exactly the cleaned symbols, ETFs and stocks as members; on failure the ETFs followed by the stocks |
| FetchJob.DictRoundTrip | scripts/fetch_stocks.py:33-42 | `to_dict` has exactly the seven fields, and the record reads back from it intact |
| FetchJob.ToDictInjective | scripts/fetch_stocks.py:33-42 | different records give different dictionaries |
| FetchJob.KeptDictsAreRecords | scripts/fetch_stocks.py:146-148 | the kept dictionaries are the backend's records converted, in ticker order |
| FetchJob.FetchJobStocks | scripts/fetch_stocks.py:123-158 | the job's batch loop returns the converted non-None records batch by batch, with batches - 1 pauses |
| FetchJob.DictStatisticsMatch | scripts/fetch_stocks.py:209-211 | counting over the dictionaries is counting over the records |
| FetchJob.JobStatistics | scripts/fetch_stocks.py:209-220 | whatever the completion order, the counters are the backend's statistics: total_count = len, near_ma_count <= total, above + below == total |
| FetchJob.UploadDataShape | scripts/fetch_stocks.py:214-225 | the document has exactly "stocks" and "metadata"; "stocks" is the fetched list unchanged, counted by the metadata, version "1.0.0" |
| FetchJob.RunFetchJob | scripts/fetch_stocks.py:179-250 | missing secrets: status 1 and nothing uploaded; otherwise the tickers are the fixed lists when the scrape fails and, when it succeeds, exactly the cleaned scraped symbols and the fixed lists without duplicates; the document of the fetched records is uploaded and the status is 0 exactly when the upload succeeded |

## Left out

- Network calls: yfinance, the Wikipedia scrape, the JSONBin PUT and the CallMeBot request are not modelled. Their results are parameters.
- Threads: `ThreadPoolExecutor` and `as_completed` are modelled as sequential work in a chosen order within each batch. `max_workers` does nothing in the model.
- Floating point: prices are exact reals. `round(..., 2)` on the reported fields and the `:.2f` formatting of messages are not modelled; messages keep their numbers unformatted.
- The moving average is the mean of the last ma_period closes. Pandas' rolling-window mechanics are not modelled.
- Clocks and sleeps: `time.time`, `datetime.now` and `time.sleep` are not modelled. Readings are parameters and sleeps are counted as pauses.
- Monitor.StockMonitor.CheckAlert: the near-MA path downloads the long history twice. The model takes both downloads to be the same list.
- Monitor.StockMonitor.CheckAlert: `check_alert` downloads the 1-day history (main.py:194) and `check_above` / `check_below` download it again (main.py:93, 117). `Evaluate` uses one `oneDay` list for both, so a second download that comes back empty after a non-empty first one cannot happen in the model.
- Monitor.Enabled: only `enabled: false` disables an alert. In the source (main.py:170) any falsy YAML value, such as `null`, `0` or `""`, disables it too.
- Monitor.DefaultInfo: a missing `name` gives "Unknown". An explicit `name: null` in the YAML gives None in the source (main.py:173); the model has no such case.
- File I/O and logging: YAML loading and dumping, alerts_data.json (`save_web_data`), stock_summary.txt, alerts.log and all printing are not modelled. The config helper's effect is described by what it would write (`AddSp500.Written`).
- Monitor.StockMonitor.RunIteration: the `while True` loop of `run` is one pass; the check interval and the KeyboardInterrupt exit are not modelled.
- Monitor.StockMonitor.constructor: reading config.yaml (`load_config`) is not modelled. The loaded alerts, cooldown and credentials are parameters.
- Dashboard.FilterRows, Dashboard.DashboardStats, Dashboard.DashboardStatsMatchBackend: the near-only filter (streamlit_app.py:228) and the near counter (streamlit_app.py:240) compare 'Distance (abs)', which is rounded to two places (streamlit_app.py:124). The bell column (streamlit_app.py:126) and the backend (backend/services/stock_service.py:35) compare the unrounded value. For a distance strictly between 5.0 and 5.005 the dashboard filters and counts the row as near while the backend and the bell do not. The model compares unrounded distances everywhere, so the lemma's agreement holds only for that comparison.
- Monitor: a missing `symbol` in an alert is not modelled: each alert has a symbol. `ma_period` is a positive whole number.
- Monitor.CheckPercentChange: a `threshold_percent` of null in the YAML, which would make the comparison raise, is not modelled.
- Monitor.ThresholdOf, Monitor.StockMonitor.CheckAlert: an explicit null in the YAML is not told apart from a missing entry. For a near-MA alert with `threshold_percent: null`, `params.get('threshold_percent', 5.0)` gives None (main.py:54) and the comparison at main.py:70 raises, so `check_alert` returns the default record and sends nothing (main.py:244); the model applies the 5% default and may fill the record and send `<symbol>_near_ma`. The same holds for `ma_period: null` (main.py:53, 57) in Monitor.PeriodOf. With `params: null`, `alert_config.get('params', {})` is None (main.py:176) and every `params.get` raises; `AlertConfig` always carries a `Params` record, so the model has no such case.
- Cache.SimpleCache.Has: `has` returns false for a stored `None`. The application's typed cache values cannot be `None`, so that case is not modelled.
- Batching: a batch size of 0, which makes `range` raise, is excluded by the precondition `size > 0`.
- Notifier: the title and message text of `send_alert` and the URL quoting are not modelled, since only the key decides the bookkeeping.
- Dashboard.RenderPage: the "Failed to load tickers" branch is unreachable because the list always holds the 13 fixed tickers (`Dashboard.TickersNeverEmpty`). `st.cache_data`, widgets, progress bars, table styling calls and the CSV download are not modelled.
- Text.ToUpper and Text.ToLower: only ASCII letters change case. Python's Unicode case mapping is not modelled.
- The root and health endpoints of backend/app.py, FastAPI routing, CORS and uvicorn are not modelled.
- web_server.py is not part of this model: it only serves files.
- backend/models/stock_models.py is not part of this model. It holds only schemas, mirrored by the record datatypes (`StockService.StockData`, `Api.StockResponse`, `Stats.Statistics`).
- The dashboard's and the config helper's own `get_sp500_tickers` share their lists and clean-up with the backend's. They are modelled by `Sp500Fetcher.GetSp500Tickers` and `AddSp500.ScrapeTickers`.
