/**
 * `ParallelStockProcessor` (backend/services/parallel_processor.py): the batch loop of
 * `Batching` run with `get_stock_ma_data` as the per-ticker fetch. The market is an
 * input that maps a ticker to its price history, or to `None` when the provider raised.
 */
module ParallelProcessor {
  import opened Wrappers
  import opened Seqs
  import opened Prices
  import opened StockService
  import opened Batching

  /** What the price provider answers for each ticker. */
  type Market = string -> Option<seq<Price>>

  /** The task submitted per ticker: `get_stock_ma_data(ticker)` with the default period. */
  function StockFetcher(market: Market): string -> Option<StockData>
  {
    t => GetStockMaData(t, market(t), DEFAULT_PERIOD)
  }

  /** Whatever the fetcher keeps is a well-formed record for one of the requested tickers. */
  lemma {:induction false} KeptStocksWellFormed(tickers: seq<string>, market: Market)
    ensures forall y :: y in Kept(tickers, StockFetcher(market)) ==> Consistent(y) && y.symbol in tickers
  {
    forall y | y in Kept(tickers, StockFetcher(market)) ensures Consistent(y) && y.symbol in tickers {
      KeptMember(tickers, StockFetcher(market), y);
      var i :| 0 <= i < |tickers| && StockFetcher(market)(tickers[i]) == Some(y);
      assert GetStockMaData(tickers[i], market(tickers[i]), DEFAULT_PERIOD) == Some(y);
    }
  }

  class ParallelStockProcessor {
    const maxWorkers: nat
    const batchSize: nat

    /** `ParallelStockProcessor(max_workers=10, batch_size=50)`. */
    constructor(maxWorkers: nat, batchSize: nat)
      ensures this.maxWorkers == maxWorkers && this.batchSize == batchSize
    {
      this.maxWorkers := maxWorkers;
      this.batchSize := batchSize;
    }

    /** `fetch_stocks_parallel(tickers)`. `pauses` counts the one-second sleeps;
        `perBatch[k]` is what batch `k` contributed, in completion order. */
    method FetchStocksParallel(tickers: seq<string>, market: Market)
      returns (stocks: seq<StockData>, pauses: nat, ghost perBatch: seq<seq<StockData>>)
      requires batchSize > 0
      ensures multiset(stocks) == multiset(Kept(tickers, StockFetcher(market)))
      ensures |stocks| <= |tickers|
      ensures forall i :: 0 <= i < |stocks| ==> Consistent(stocks[i]) && stocks[i].symbol in tickers
      ensures stocks == Flatten(perBatch) && |perBatch| == |Batches(tickers, batchSize)|
      ensures forall k :: 0 <= k < |perBatch| ==>
        multiset(perBatch[k]) == multiset(Kept(Batches(tickers, batchSize)[k], StockFetcher(market)))
      ensures pauses == if tickers == [] then 0 else |perBatch| - 1
    {
      stocks, pauses, perBatch := CollectBatches(tickers, batchSize, StockFetcher(market));
      KeptStocksWellFormed(tickers, market);
      assert |multiset(stocks)| == |stocks|;
      forall i | 0 <= i < |stocks| ensures Consistent(stocks[i]) && stocks[i].symbol in tickers {
        assert stocks[i] in multiset(stocks);
      }
    }

    /** `fetch_single_stock(symbol)`: the service call, unchanged. */
    method FetchSingleStock(symbol: string, market: Market) returns (r: Option<StockData>)
      ensures r == GetStockMaData(symbol, market(symbol), DEFAULT_PERIOD)
      ensures r.Some? ==> r.value.symbol == symbol && Consistent(r.value)
    {
      r := GetStockMaData(symbol, market(symbol), DEFAULT_PERIOD);
    }
  }
}
