/**
 * The request handlers of the FastAPI backend (backend/app.py) over one shared
 * `SimpleCache` with a one-hour time-to-live and one `ParallelStockProcessor(10, 50)`.
 * Every handler takes the clock reading `now` at which it reads the cache and the
 * reading `storedAt` at which it writes a value back, after the scrape and the fetch
 * have both finished; `get_stocks` also reports the time `elapsed` its fetch took.
 * The scrape and the market data are inputs, as in `Sp500Fetcher` and `ParallelProcessor`.
 */
module Api {
  import opened Wrappers
  import opened Seqs
  import opened StockService
  import opened Cache
  import opened ParallelProcessor
  import opened Sp500Fetcher
  import opened TickerMerge
  import opened Stats

  const TICKERS_KEY: string := "sp500_tickers"
  const DEFAULT_STOCKS_KEY: string := "stocks_default"
  const CLEARED_MESSAGE: string := "Cache cleared successfully"

  /** The two kinds of value the application stores in the shared cache. */
  datatype CachedValue = TickerList(tickers: seq<string>) | StockList(stocks: seq<StockData>)

  /** An empty list is falsy in Python: `if cached:` treats it as a miss. */
  predicate Truthy(v: CachedValue)
  {
    match v
    case TickerList(t) => t != []
    case StockList(s) => s != []
  }

  datatype TickersResponse = TickersResponse(tickers: seq<string>, count: nat)
  datatype StockResponse = StockResponse(stocks: seq<StockData>, totalCount: nat, processingTime: real, cacheHit: bool)

  /** `f"stocks_{include_custom or 'default'}"`. */
  function StocksCacheKey(includeCustom: Option<string>): (k: string)
    ensures |k| >= 7 && k[..7] == "stocks_"
    ensures k != TICKERS_KEY
  {
    var k := "stocks_" + if includeCustom.Some? && includeCustom.value != "" then includeCustom.value else "default";
    assert k[1] != TICKERS_KEY[1];
    k
  }

  /** Different non-empty selections get different cache entries. */
  lemma CacheKeyInjective(a: string, b: string)
    requires a != "" && b != "" && StocksCacheKey(Some(a)) == StocksCacheKey(Some(b))
    ensures a == b
  {
    assert a == StocksCacheKey(Some(a))[7..];
    assert b == StocksCacheKey(Some(b))[7..];
  }

  /** An absent, an empty and a literal `include_custom=default` request share one entry. */
  lemma DefaultKeyShared()
    ensures StocksCacheKey(None) == StocksCacheKey(Some("")) == StocksCacheKey(Some("default")) == DEFAULT_STOCKS_KEY
  {
  }

  /** The ticker list `get_stocks` fetches on a miss. */
  function RequestedTickers(includeCustom: Option<string>, scrape: Option<seq<string>>): seq<string>
  {
    var base := GetSp500Tickers(scrape);
    if includeCustom.Some? && includeCustom.value != "" then Merged(base, ParseTickerList(includeCustom.value))
    else base
  }

  /** The cached value under `key` that a handler would serve, if any. */
  function CacheHit(store: map<string, Entry<CachedValue>>, key: string, now: real): Option<CachedValue>
  {
    var r := Lookup(store, key, now, DEFAULT_TTL);
    if r.Some? && Truthy(r.value) then r else None
  }

  /** What the handlers keep true of the store: the ticker key holds the ticker list, every
      other key a list of well-formed stock records. */
  predicate StoreInvariant(store: map<string, Entry<CachedValue>>)
  {
    forall k :: k in store ==>
      && (store[k].value.TickerList? <==> k == TICKERS_KEY)
      && (store[k].value.StockList? ==> AllConsistent(store[k].value.stocks))
  }

  lemma InvariantAfterGet(store: map<string, Entry<CachedValue>>, key: string, now: real)
    requires StoreInvariant(store)
    ensures StoreInvariant(AfterGet(store, key, now, DEFAULT_TTL))
  {
  }

  lemma InvariantAfterSet(store: map<string, Entry<CachedValue>>, key: string, v: CachedValue, t: real)
    requires StoreInvariant(store)
    requires v.TickerList? <==> key == TICKERS_KEY
    requires v.StockList? ==> AllConsistent(v.stocks)
    ensures StoreInvariant(store[key := Entry(v, t)])
  {
  }

  /** Under any stock key the store only ever serves well-formed stock records. */
  lemma StockKeyServesStocks(store: map<string, Entry<CachedValue>>, key: string, now: real)
    requires StoreInvariant(store) && key != TICKERS_KEY && Lookup(store, key, now, DEFAULT_TTL).Some?
    ensures Lookup(store, key, now, DEFAULT_TTL).value.StockList?
    ensures AllConsistent(Lookup(store, key, now, DEFAULT_TTL).value.stocks)
  {
  }

  class StockApi {
    const cache: SimpleCache<CachedValue>
    const processor: ParallelStockProcessor

    predicate Valid()
      reads cache
    {
      cache.ttl == DEFAULT_TTL && processor.batchSize == 50 && processor.maxWorkers == 10 && StoreInvariant(cache.store)
    }

    /** Module start-up: `stock_cache = SimpleCache(ttl=3600)` and `ParallelStockProcessor(10, 50)`. */
    constructor()
      ensures Valid() && fresh(cache) && cache.store == map[]
    {
      cache := new SimpleCache(DEFAULT_TTL);
      processor := new ParallelStockProcessor(10, 50);
    }

    /** `processor.fetch_stocks_parallel(tickers)`, seen from the handlers: the records, in
        completion order, and their well-formedness. */
    method FetchStocks(tickers: seq<string>, market: Market) returns (stocks: seq<StockData>)
      requires Valid()
      ensures multiset(stocks) == multiset(Kept(tickers, StockFetcher(market)))
      ensures AllConsistent(stocks)
    {
      var pauses; ghost var perBatch;
      stocks, pauses, perBatch := processor.FetchStocksParallel(tickers, market);
      AllConsistentIff(stocks);
    }

    /** The base list, extended by the `include_custom` symbols when there are any. */
    method Requested(includeCustom: Option<string>, scrape: Option<seq<string>>) returns (tickers: seq<string>)
      ensures tickers == RequestedTickers(includeCustom, scrape)
    {
      tickers := GetSp500Tickers(scrape);
      if includeCustom.Some? && includeCustom.value != "" {
        tickers := MergeCustom(tickers, ParseTickerList(includeCustom.value));
      }
    }

    /** `stock_cache.get(key)` followed by the handlers' `if cached:`: a hit only when the
        value is there, fresh and non-empty; an expired entry is evicted either way. */
    method Probe(key: string, now: real) returns (hit: Option<CachedValue>)
      requires Valid()
      modifies cache
      ensures Valid()
      ensures hit == CacheHit(old(cache.store), key, now)
      ensures cache.store == AfterGet(old(cache.store), key, now, DEFAULT_TTL)
      ensures hit.Some? ==> cache.store == old(cache.store)
      ensures hit.Some? && key != TICKERS_KEY ==> hit.value.StockList? && AllConsistent(hit.value.stocks)
    {
      ghost var before := cache.store;
      InvariantAfterGet(before, key, now);
      var cached := cache.Get(key, now);
      if cached.Some? && Truthy(cached.value) {
        if key != TICKERS_KEY {
          StockKeyServesStocks(before, key, now);
        }
        hit := cached;
      } else {
        hit := None;
      }
    }

    /** `stock_cache.set(key, value)` after a `Probe` of the same key at `now`: the result is
        as if the probe had not evicted anything. */
    method Store(key: string, v: CachedValue, now: real, t: real, ghost before: map<string, Entry<CachedValue>>)
      requires Valid()
      requires cache.store == AfterGet(before, key, now, DEFAULT_TTL)
      requires v.TickerList? <==> key == TICKERS_KEY
      requires v.StockList? ==> AllConsistent(v.stocks)
      modifies cache
      ensures Valid()
      ensures cache.store == before[key := Entry(v, t)]
    {
      InvariantAfterSet(cache.store, key, v, t);
      GetThenSet(before, key, now, DEFAULT_TTL, Entry(v, t));
      cache.Set(key, v, t);
    }

    /** `GET /api/sp500-tickers`. */
    method GetTickers(now: real, storedAt: real, scrape: Option<seq<string>>) returns (resp: TickersResponse)
      requires Valid()
      modifies cache
      ensures Valid()
      ensures resp.count == |resp.tickers|
      ensures CacheHit(old(cache.store), TICKERS_KEY, now).Some? ==>
        && resp.tickers == CacheHit(old(cache.store), TICKERS_KEY, now).value.tickers
        && cache.store == old(cache.store)
      ensures CacheHit(old(cache.store), TICKERS_KEY, now).None? ==>
        && resp.tickers == GetSp500Tickers(scrape)
        && cache.store == old(cache.store)[TICKERS_KEY := Entry(TickerList(resp.tickers), storedAt)]
    {
      ghost var before := cache.store;
      var cached := Probe(TICKERS_KEY, now);
      if cached.Some? {
        return TickersResponse(cached.value.tickers, |cached.value.tickers|);
      }
      var tickers := GetSp500Tickers(scrape);
      Store(TICKERS_KEY, TickerList(tickers), now, storedAt, before);
      resp := TickersResponse(tickers, |tickers|);
    }

    /** `GET /api/stocks?include_custom=...`. On a miss the records come back in the
        order the fetches completed, which only their multiset pins down. */
    method GetStocks(includeCustom: Option<string>, now: real, elapsed: real, storedAt: real,
                     scrape: Option<seq<string>>, market: Market) returns (resp: StockResponse)
      requires Valid()
      modifies cache
      ensures Valid()
      ensures resp.totalCount == |resp.stocks|
      ensures AllConsistent(resp.stocks)
      ensures var key := StocksCacheKey(includeCustom);
        var hit := CacheHit(old(cache.store), key, now);
        if hit.Some? then
          && resp == StockResponse(hit.value.stocks, |resp.stocks|, 0.0, true)
          && cache.store == old(cache.store)
        else
          && !resp.cacheHit && resp.processingTime == elapsed
          && multiset(resp.stocks) == multiset(Kept(RequestedTickers(includeCustom, scrape), StockFetcher(market)))
          && key in cache.store && cache.store == old(cache.store)[key := cache.store[key]]
          && cache.store[key] == Entry(StockList(resp.stocks), storedAt)
    {
      var key := StocksCacheKey(includeCustom);
      var cached := Probe(key, now);
      if cached.Some? {
        var s := cached.value.stocks;
        resp := StockResponse(s, |s|, 0.0, true);
      } else {
        resp := FetchAndStore(key, includeCustom, now, elapsed, storedAt, scrape, market, old(cache.store));
      }
    }

    /** The miss path of `get_stocks`: fetch the records and store them under `key`. */
    method FetchAndStore(key: string, includeCustom: Option<string>, now: real, elapsed: real, storedAt: real,
                          scrape: Option<seq<string>>, market: Market, ghost before: map<string, Entry<CachedValue>>) returns (resp: StockResponse)
      requires Valid() && key != TICKERS_KEY
      requires cache.store == AfterGet(before, key, now, DEFAULT_TTL)
      modifies cache
      ensures Valid()
      ensures resp.totalCount == |resp.stocks|
      ensures AllConsistent(resp.stocks)
      ensures !resp.cacheHit && resp.processingTime == elapsed
      ensures multiset(resp.stocks) == multiset(Kept(RequestedTickers(includeCustom, scrape), StockFetcher(market)))
      ensures key in cache.store && cache.store == before[key := cache.store[key]]
      ensures cache.store[key] == Entry(StockList(resp.stocks), storedAt)
    {
      var tickers := Requested(includeCustom, scrape);
      var stocks := FetchStocks(tickers, market);
      resp := StockResponse(stocks, |stocks|, elapsed, false);
      Store(key, StockList(stocks), now, storedAt, before);
    }

    /** `GET /api/statistics?tickers=...`. Because statistics ignore order, every path
        has one deterministic answer. */
    method GetStatistics(tickers: Option<string>, now: real, storedAt: real,
                         scrape: Option<seq<string>>, market: Market) returns (st: Statistics)
      requires Valid()
      modifies cache
      ensures Valid()
      ensures st.aboveCount + st.belowCount == st.totalTickers
      ensures tickers.Some? && tickers.value != "" ==>
        && st == ComputeStatistics(Kept(ParseTickerList(tickers.value), StockFetcher(market)))
        && cache.store == old(cache.store)
      ensures (tickers.None? || tickers.value == "") && CacheHit(old(cache.store), DEFAULT_STOCKS_KEY, now).Some? ==>
        && st == ComputeStatistics(CacheHit(old(cache.store), DEFAULT_STOCKS_KEY, now).value.stocks)
        && cache.store == old(cache.store)
      ensures (tickers.None? || tickers.value == "") && CacheHit(old(cache.store), DEFAULT_STOCKS_KEY, now).None? ==>
        && st == ComputeStatistics(Kept(GetSp500Tickers(scrape), StockFetcher(market)))
        && DEFAULT_STOCKS_KEY in cache.store
        && cache.store == old(cache.store)[DEFAULT_STOCKS_KEY := cache.store[DEFAULT_STOCKS_KEY]]
        && cache.store[DEFAULT_STOCKS_KEY].timestamp == storedAt
        && cache.store[DEFAULT_STOCKS_KEY].value.StockList?
        && multiset(cache.store[DEFAULT_STOCKS_KEY].value.stocks) == multiset(Kept(GetSp500Tickers(scrape), StockFetcher(market)))
    {
      var stocks: seq<StockData>;
      if tickers.None? || tickers.value == "" {
        ghost var before := cache.store;
        var cached := Probe(DEFAULT_STOCKS_KEY, now);
        if cached.Some? {
          stocks := cached.value.stocks;
        } else {
          stocks := FetchStocks(GetSp500Tickers(scrape), market);
          StatisticsOrderIndependent(stocks, Kept(GetSp500Tickers(scrape), StockFetcher(market)));
          Store(DEFAULT_STOCKS_KEY, StockList(stocks), now, storedAt, before);
        }
      } else {
        stocks := FetchStocks(ParseTickerList(tickers.value), market);
        StatisticsOrderIndependent(stocks, Kept(ParseTickerList(tickers.value), StockFetcher(market)));
      }
      AllConsistentDirections(stocks);
      AboveBelowPartition(stocks);
      st := ComputeStatistics(stocks);
    }

    /** `POST /api/cache/clear`. */
    method ClearCache() returns (message: string)
      requires Valid()
      modifies cache
      ensures Valid() && cache.store == map[] && message == CLEARED_MESSAGE
    {
      cache.Clear();
      message := CLEARED_MESSAGE;
    }
  }
}
