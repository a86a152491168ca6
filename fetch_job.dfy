/**
 * The scheduled fetch job scripts/fetch_stocks.py: its own ticker universe (deduplicated
 * through a `set`), the shared batch loop producing JSON dictionaries, the statistics and
 * metadata block, and the exit status of `main`. The environment secrets, the scrape, the
 * market data, the clock readings and the upload's success are inputs; the JSON document it
 * would upload is an output. Its `get_stock_ma_data` is the backend's, line for line, and
 * is modelled by `StockService.GetStockMaData`.
 */
module FetchJob {
  import opened Wrappers
  import opened Seqs
  import opened StockService
  import opened Sp500Fetcher
  import opened Batching
  import opened ParallelProcessor
  import opened Stats

  const JOB_ETFS: seq<string> := ["SPY", "QQQ", "DIA", "IWM", "VTI", "VOO",
                                  "XLF", "XLK", "XLE", "XLV", "XLI", "XLY", "XLP",
                                  "VEA", "VWO", "EFA", "AGG", "BND", "TLT", "GLD", "SLV", "NLR"]
  const JOB_STOCKS: seq<string> := ["TSLA", "AAPL", "AMZN", "MSFT", "GOOGL", "META", "NVDA",
                                    "PLTR", "NFLX", "CEG", "VST", "AMD", "INTC"]
  const BATCH_SIZE: nat := 50
  const VERSION: string := "1.0.0"

  /** A JSON value as `json` serialises Python's dicts, lists, strings, numbers and booleans. */
  datatype Json =
    | JString(str: string)
    | JNumber(num: real)
    | JInt(integer: int)
    | JBool(flag: bool)
    | JObject(fields: map<string, Json>)
    | JArray(items: seq<Json>)

  type Dict = map<string, Json>

  /** `get_sp500_tickers()` of the job. On success `list(set(...))` leaves the order to the
      set, so the only promise is: no duplicates, and exactly the cleaned symbols and both
      fixed lists. On failure, the two fixed lists in order. */
  method JobTickers(scrape: Option<seq<string>>) returns (tickers: seq<string>)
    ensures scrape.None? ==> tickers == JOB_ETFS + JOB_STOCKS
    ensures scrape.Some? ==> NoDuplicates(tickers)
    ensures scrape.Some? ==> forall t :: t in tickers <==> t in CleanSymbols(scrape.value) + JOB_ETFS + JOB_STOCKS
  {
    if scrape.None? {
      return JOB_ETFS + JOB_STOCKS;
    }
    var all := CleanSymbols(scrape.value) + JOB_ETFS + JOB_STOCKS;
    ghost var d := Dedup(all);
    assert && NoDuplicates(d)
           && (forall i :: 0 <= i < |d| ==> d[i] in all)
           && (forall i :: 0 <= i < |all| ==> all[i] in d);
    tickers :| && NoDuplicates(tickers)
               && (forall i :: 0 <= i < |tickers| ==> tickers[i] in all)
               && (forall i :: 0 <= i < |all| ==> all[i] in tickers);
    forall t ensures t in tickers <==> t in all {
      if t in all {
        var i :| 0 <= i < |all| && all[i] == t;
      }
      if t in tickers {
        var i :| 0 <= i < |tickers| && tickers[i] == t;
      }
    }
  }

  /** `StockData.to_dict()`: the seven fields under their JSON names. */
  function ToDict(sd: StockData): Dict
  {
    map["symbol" := JString(sd.symbol), "price" := JNumber(sd.price), "ma_150" := JNumber(sd.ma150),
        "distance_percent" := JNumber(sd.distancePercent), "distance_abs" := JNumber(sd.distanceAbs),
        "direction" := JString(sd.direction), "near_ma" := JBool(sd.nearMa)]
  }

  const FIELD_NAMES: set<string> := {"symbol", "price", "ma_150", "distance_percent", "distance_abs", "direction", "near_ma"}

  /** Reading a record back from its dictionary; `None` when a field is missing or mistyped. */
  function FromDict(d: Dict): Option<StockData>
  {
    if && "symbol" in d && d["symbol"].JString?
       && "price" in d && d["price"].JNumber?
       && "ma_150" in d && d["ma_150"].JNumber?
       && "distance_percent" in d && d["distance_percent"].JNumber?
       && "distance_abs" in d && d["distance_abs"].JNumber?
       && "direction" in d && d["direction"].JString?
       && "near_ma" in d && d["near_ma"].JBool?
    then Some(StockData(d["symbol"].str, d["price"].num, d["ma_150"].num, d["distance_percent"].num,
                        d["distance_abs"].num, d["direction"].str, d["near_ma"].flag))
    else None
  }

  /** `to_dict` has exactly the seven fields and loses nothing: the record reads back intact. */
  lemma DictRoundTrip(sd: StockData)
    ensures ToDict(sd).Keys == FIELD_NAMES
    ensures FromDict(ToDict(sd)) == Some(sd)
  {
  }

  /** So different records never share a dictionary. */
  lemma ToDictInjective(a: StockData, b: StockData)
    requires ToDict(a) == ToDict(b)
    ensures a == b
  {
    DictRoundTrip(a);
    DictRoundTrip(b);
  }

  /** The task per ticker: `get_stock_ma_data(ticker)`, kept as `result.to_dict()`. */
  function DictFetcher(market: Market): string -> Option<Dict>
  {
    t => var r := GetStockMaData(t, market(t), DEFAULT_PERIOD); if r.Some? then Some(ToDict(r.value)) else None
  }

  /** The dictionaries the job keeps are the backend's records, converted, in ticker order. */
  lemma KeptDictsAreRecords(tickers: seq<string>, market: Market)
    ensures Kept(tickers, DictFetcher(market)) == MapSeq(Kept(tickers, StockFetcher(market)), ToDict)
  {
    KeptMap(tickers, StockFetcher(market), DictFetcher(market), ToDict);
  }

  /** `fetch_stocks_parallel(tickers, 10, 50)` of the job: the shared batch loop, each record
      appended as its dictionary. */
  method FetchJobStocks(tickers: seq<string>, market: Market)
    returns (stocks: seq<Dict>, pauses: nat, ghost perBatch: seq<seq<Dict>>)
    ensures multiset(stocks) == multiset(MapSeq(Kept(tickers, StockFetcher(market)), ToDict))
    ensures stocks == Flatten(perBatch) && |perBatch| == |Batches(tickers, BATCH_SIZE)|
    ensures forall k :: 0 <= k < |perBatch| ==>
      multiset(perBatch[k]) == multiset(Kept(Batches(tickers, BATCH_SIZE)[k], DictFetcher(market)))
    ensures pauses == if tickers == [] then 0 else |perBatch| - 1
  {
    stocks, pauses, perBatch := CollectBatches(tickers, BATCH_SIZE, DictFetcher(market));
    KeptDictsAreRecords(tickers, market);
  }

  predicate DictNear(d: Dict) { "near_ma" in d && d["near_ma"] == JBool(true) }
  predicate DictAbove(d: Dict) { "direction" in d && d["direction"] == JString(ABOVE) }
  predicate DictBelow(d: Dict) { "direction" in d && d["direction"] == JString(BELOW) }

  /** `len(stocks_data)` and the three `sum(1 for s in stocks_data if ...)` over dictionaries. */
  function DictStatistics(stocks: seq<Dict>): Statistics
  {
    Statistics(|stocks|, CountWhere(stocks, DictNear), CountWhere(stocks, DictAbove), CountWhere(stocks, DictBelow))
  }

  /** Counting over the dictionaries is counting over the records. */
  lemma DictStatisticsMatch(records: seq<StockData>)
    ensures DictStatistics(MapSeq(records, ToDict)) == ComputeStatistics(records)
  {
    CountMap(records, ToDict, DictNear, IsNear);
    CountMap(records, ToDict, DictAbove, IsAbove);
    CountMap(records, ToDict, DictBelow, IsBelow);
  }

  /** Whatever order the futures finished in, the job's counters are the backend's
      statistics for the same tickers: near <= total and above + below == total. */
  lemma JobStatistics(stocks: seq<Dict>, tickers: seq<string>, market: Market)
    requires multiset(stocks) == multiset(MapSeq(Kept(tickers, StockFetcher(market)), ToDict))
    ensures DictStatistics(stocks) == ComputeStatistics(Kept(tickers, StockFetcher(market)))
    ensures var st := DictStatistics(stocks);
      st.totalTickers == |stocks| && st.nearMaCount <= st.totalTickers && st.aboveCount + st.belowCount == st.totalTickers
  {
    var records := Kept(tickers, StockFetcher(market));
    var dicts := MapSeq(records, ToDict);
    assert |stocks| == |multiset(stocks)| == |multiset(dicts)| == |dicts|;
    CountPermutation(stocks, dicts, DictNear);
    CountPermutation(stocks, dicts, DictAbove);
    CountPermutation(stocks, dicts, DictBelow);
    DictStatisticsMatch(records);
    KeptStocksWellFormed(tickers, market);
    assert forall i :: 0 <= i < |records| ==> records[i] in records;
    AboveBelowPartition(records);
  }

  /** The document `main` uploads: the dictionaries unchanged, and the metadata block. */
  function UploadData(stocks: seq<Dict>, processingTime: real, lastUpdated: string): Json
  {
    var st := DictStatistics(stocks);
    JObject(map[
      "stocks" := JArray(MapSeq(stocks, (d: Dict) => JObject(d))),
      "metadata" := JObject(map[
        "total_count" := JInt(st.totalTickers),
        "near_ma_count" := JInt(st.nearMaCount),
        "above_count" := JInt(st.aboveCount),
        "below_count" := JInt(st.belowCount),
        "processing_time" := JNumber(processingTime),
        "last_updated" := JString(lastUpdated),
        "version" := JString(VERSION)])])
  }

  /** The uploaded `stocks` field is exactly the fetched list, and the metadata counts it. */
  lemma UploadDataShape(stocks: seq<Dict>, processingTime: real, lastUpdated: string)
    ensures var doc := UploadData(stocks, processingTime, lastUpdated).fields;
      && doc.Keys == {"stocks", "metadata"}
      && doc["stocks"].JArray? && |doc["stocks"].items| == |stocks|
      && (forall i :: 0 <= i < |stocks| ==> doc["stocks"].items[i] == JObject(stocks[i]))
      && doc["metadata"].fields["total_count"] == JInt(|stocks|)
      && doc["metadata"].fields["near_ma_count"].integer <= |stocks|
      && doc["metadata"].fields["version"] == JString(VERSION)
  {
  }

  /** How `main` ends: the exit status, and the document handed to the upload, if any. */
  datatype JobRun = JobRun(exitCode: int, uploaded: Option<Json>)

  /** `main()`. Missing secrets stop the job with status 1 before anything is fetched; a
      failed upload also ends with status 1. */
  method RunFetchJob(apiKey: Option<string>, binId: Option<string>, scrape: Option<seq<string>>,
                     market: Market, processingTime: real, lastUpdated: string, uploadSucceeds: bool)
    returns (run: JobRun, tickers: seq<string>, stocks: seq<Dict>)
    ensures !(Configured(apiKey) && Configured(binId)) ==> run == JobRun(1, None)
    ensures Configured(apiKey) && Configured(binId) ==>
      && run.uploaded == Some(UploadData(stocks, processingTime, lastUpdated))
      && run.exitCode == (if uploadSucceeds then 0 else 1)
      && (scrape.None? ==> tickers == JOB_ETFS + JOB_STOCKS)
      && (scrape.Some? ==> NoDuplicates(tickers))
      && (scrape.Some? ==> forall t :: t in tickers <==> t in CleanSymbols(scrape.value) + JOB_ETFS + JOB_STOCKS)
      && multiset(stocks) == multiset(MapSeq(Kept(tickers, StockFetcher(market)), ToDict))
      && DictStatistics(stocks) == ComputeStatistics(Kept(tickers, StockFetcher(market)))
  {
    if !(apiKey.Some? && apiKey.value != "" && binId.Some? && binId.value != "") {
      return JobRun(1, None), [], [];
    }
    tickers := JobTickers(scrape);
    var pauses; ghost var perBatch;
    stocks, pauses, perBatch := FetchJobStocks(tickers, market);
    JobStatistics(stocks, tickers, market);
    var data := UploadData(stocks, processingTime, lastUpdated);
    run := JobRun(if uploadSucceeds then 0 else 1, Some(data));
  }
}
