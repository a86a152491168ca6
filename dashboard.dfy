/**
 * The Streamlit dashboard (streamlit_app.py): its own copy of the metric as a table row,
 * the sequential loader with its rate-limit pauses, the cell styles, and the page logic of
 * `main` (custom tickers, filters, the four counters). Widgets, progress bars and the CSV
 * download are presentation; the scrape and the market data are inputs. The dashboard's
 * ticker lists are those of the backend, so `Sp500Fetcher.GetSp500Tickers` models its
 * `get_sp500_tickers` as well.
 */
module Dashboard {
  import opened Wrappers
  import opened Seqs
  import opened Prices
  import opened StockService
  import opened Sp500Fetcher
  import opened TickerMerge
  import opened ParallelProcessor
  import opened Stats
  import opened Batching

  /** The `'Near MA (5%)'` marker. */
  const BELL: string := "\U{1F514}"

  /** `if (i + 1) % 50 == 0: time.sleep(1)`. */
  const PAUSE_EVERY: nat := 50

  const ALL: string := "All"
  const ABOVE_STYLE: string := "background-color: #ffebee; color: #c62828"
  const BELOW_STYLE: string := "background-color: #e8f5e9; color: #2e7d32"
  const NEAR_STYLE: string := "background-color: #fff9c4; font-weight: bold"

  /** One row of the table: the dictionary `get_stock_ma_data` returns here. */
  datatype Row = Row(
    symbol: string,
    price: real,
    ma: real,
    distancePercent: real,
    distanceAbs: real,
    direction: string,
    nearMa: string)

  /** The dashboard's `get_stock_ma_data(symbol)` on the fetched history. */
  function GetStockMaRow(symbol: string, history: Option<seq<Price>>, n: Period): Option<Row>
  {
    if history.None? || |history.value| < n then None
    else
      var m := ComputeMetrics(history.value, n);
      Some(Row(symbol, m.price, m.ma, m.diffPercent, m.distanceAbs, m.direction,
               if m.distanceAbs <= 5.0 then BELL else ""))
  }

  /** The row the dashboard shows for a record of the backend. */
  function RowOf(sd: StockData): Row
  {
    Row(sd.symbol, sd.price, sd.ma150, sd.distancePercent, sd.distanceAbs, sd.direction,
        if sd.nearMa then BELL else "")
  }

  /** The dashboard's copy of the metric agrees with the backend's field by field, and the
      bell marks exactly the backend's `near_ma`. */
  lemma RowAgreesWithService(symbol: string, history: Option<seq<Price>>, n: Period)
    ensures GetStockMaRow(symbol, history, n).Some? <==> GetStockMaData(symbol, history, n).Some?
    ensures GetStockMaRow(symbol, history, n).Some? ==>
      GetStockMaRow(symbol, history, n).value == RowOf(GetStockMaData(symbol, history, n).value)
  {
  }

  function RowFetcher(market: Market): string -> Option<Row>
  {
    t => GetStockMaRow(t, market(t), DEFAULT_PERIOD)
  }

  /** The rows the loader keeps are the backend's records, in ticker order. */
  lemma KeptRowsAreRecords(tickers: seq<string>, market: Market)
    ensures Kept(tickers, RowFetcher(market)) == MapSeq(Kept(tickers, StockFetcher(market)), RowOf)
  {
    forall i | 0 <= i < |tickers|
      ensures RowFetcher(market)(tickers[i])
           == if StockFetcher(market)(tickers[i]).Some? then Some(RowOf(StockFetcher(market)(tickers[i]).value)) else None
    {
      RowAgreesWithService(tickers[i], market(tickers[i]), DEFAULT_PERIOD);
    }
    KeptMap(tickers, StockFetcher(market), RowFetcher(market), RowOf);
  }

  /** One more ticker adds a pause exactly when its 1-based index is a multiple of 50. */
  lemma PauseStep(i: nat)
    ensures (i + 1) / PAUSE_EVERY == i / PAUSE_EVERY + if (i + 1) % PAUSE_EVERY == 0 then 1 else 0
  {
    var q, m := i / PAUSE_EVERY, i % PAUSE_EVERY;
    assert i == q * PAUSE_EVERY + m;
    if m == PAUSE_EVERY - 1 {
      DivInRange(i + 1, PAUSE_EVERY, q + 1);
    } else {
      DivInRange(i + 1, PAUSE_EVERY, q);
    }
  }

  /** One loader step: the next ticker's row, if any, joins the rows collected so far. */
  lemma LoadStep(tickers: seq<string>, i: nat, rows: seq<Row>, market: Market)
    requires i < |tickers|
    requires rows + Kept(tickers[i..], RowFetcher(market)) == Kept(tickers, RowFetcher(market))
    ensures var d := GetStockMaRow(tickers[i], market(tickers[i]), DEFAULT_PERIOD);
      (if d.Some? then rows + [d.value] else rows) + Kept(tickers[i + 1..], RowFetcher(market))
      == Kept(tickers, RowFetcher(market))
  {
    assert tickers[i..][1..] == tickers[i + 1..];
    assert RowFetcher(market)(tickers[i]) == GetStockMaRow(tickers[i], market(tickers[i]), DEFAULT_PERIOD);
  }

  /** `load_all_stocks(tickers)`: one ticker after another, a pause after every fiftieth. */
  method LoadAllStocks(tickers: seq<string>, market: Market) returns (rows: seq<Row>, pauses: nat)
    ensures rows == Kept(tickers, RowFetcher(market))
    ensures pauses == |tickers| / PAUSE_EVERY
  {
    rows, pauses := [], 0;
    var i := 0;
    while i < |tickers|
      invariant 0 <= i <= |tickers|
      invariant rows + Kept(tickers[i..], RowFetcher(market)) == Kept(tickers, RowFetcher(market))
      invariant pauses == i / PAUSE_EVERY
      decreases |tickers| - i
    {
      LoadStep(tickers, i, rows, market);
      PauseStep(i);
      var data := GetStockMaRow(tickers[i], market(tickers[i]), DEFAULT_PERIOD);
      if data.Some? {
        rows := rows + [data.value];
      }
      if (i + 1) % PAUSE_EVERY == 0 {
        pauses := pauses + 1;
      }
      i := i + 1;
    }
    assert tickers[i..] == [];
  }

  /** `color_direction(val)`. */
  function ColorDirection(val: string): string
  {
    if val == ABOVE then ABOVE_STYLE else if val == BELOW then BELOW_STYLE else ""
  }

  /** `color_near_ma(val)`. */
  function ColorNearMa(val: string): string
  {
    if val == BELL then NEAR_STYLE else ""
  }

  /** On every row the loader keeps, the direction cell is styled red exactly when the
      price is above its average and green otherwise, and the marker cell is highlighted
      exactly when the price is within 5% of the average. */
  lemma LoadedRowStyles(tickers: seq<string>, market: Market)
    ensures forall r :: r in Kept(tickers, RowFetcher(market)) ==>
      && (ColorDirection(r.direction) == ABOVE_STYLE <==> r.price > r.ma)
      && (ColorDirection(r.direction) == BELOW_STYLE <==> r.price <= r.ma)
      && (ColorNearMa(r.nearMa) == NEAR_STYLE <==> r.distanceAbs <= NEAR_THRESHOLD)
  {
    KeptRowsAreRecords(tickers, market);
    KeptStocksWellFormed(tickers, market);
    forall r | r in Kept(tickers, RowFetcher(market))
      ensures && (ColorDirection(r.direction) == ABOVE_STYLE <==> r.price > r.ma)
              && (ColorDirection(r.direction) == BELOW_STYLE <==> r.price <= r.ma)
              && (ColorNearMa(r.nearMa) == NEAR_STYLE <==> r.distanceAbs <= NEAR_THRESHOLD)
    {
      var stocks := Kept(tickers, StockFetcher(market));
      var j :| 0 <= j < |stocks| && MapSeq(stocks, RowOf)[j] == r;
      assert stocks[j] in stocks;
      assert r == RowOf(stocks[j]);
    }
  }

  predicate NearRow(r: Row) { r.distanceAbs <= 5.0 }

  /** Whether a row passes the sidebar filters. */
  predicate Shown(r: Row, nearOnly: bool, direction: string)
  {
    (!nearOnly || NearRow(r)) && (direction == ALL || r.direction == direction)
  }

  /** The two boolean-mask filters of `main`, applied in turn. */
  function FilterRows(rows: seq<Row>, nearOnly: bool, direction: string): seq<Row>
  {
    var a := if nearOnly then Filter(rows, NearRow) else rows;
    if direction != ALL then Filter(a, (r: Row) => r.direction == direction) else a
  }

  /** The filtered table is the rows that pass both filters, in their original order:
      nothing is reordered, nothing that passes is lost, and "All" without the near-only box
      shows every row. */
  lemma FilterRowsSpec(rows: seq<Row>, nearOnly: bool, direction: string)
    ensures FilterRows(rows, nearOnly, direction) == Filter(rows, (r: Row) => Shown(r, nearOnly, direction))
    ensures IsSubsequence(FilterRows(rows, nearOnly, direction), rows)
    ensures !nearOnly && direction == ALL ==> FilterRows(rows, nearOnly, direction) == rows
  {
    var byDir := (r: Row) => r.direction == direction;
    var shown := (r: Row) => Shown(r, nearOnly, direction);
    if nearOnly && direction != ALL {
      FilterFilter(rows, NearRow, byDir, shown);
    } else if nearOnly {
      FilterSame(rows, NearRow, shown);
    } else if direction != ALL {
      FilterSame(rows, byDir, shown);
    } else {
      FilterAll(rows, shown);
    }
    FilterIsSubsequence(rows, shown);
  }

  /** The four metrics, over the unfiltered rows. */
  function DashboardStats(rows: seq<Row>): Statistics
  {
    Statistics(|rows|, CountWhere(rows, NearRow), CountWhere(rows, (r: Row) => r.direction == ABOVE),
               CountWhere(rows, (r: Row) => r.direction == BELOW))
  }

  /** The dashboard's counters are the backend's statistics for the same tickers, so
      near <= total and above + below == total hold here too. */
  lemma DashboardStatsMatchBackend(tickers: seq<string>, market: Market)
    ensures DashboardStats(Kept(tickers, RowFetcher(market))) == ComputeStatistics(Kept(tickers, StockFetcher(market)))
    ensures var st := DashboardStats(Kept(tickers, RowFetcher(market)));
      st.nearMaCount <= st.totalTickers && st.aboveCount + st.belowCount == st.totalTickers
  {
    var stocks := Kept(tickers, StockFetcher(market));
    KeptRowsAreRecords(tickers, market);
    KeptStocksWellFormed(tickers, market);
    assert forall i :: 0 <= i < |stocks| ==> stocks[i] in stocks;
    CountMap(stocks, RowOf, NearRow, IsNear);
    CountMap(stocks, RowOf, (r: Row) => r.direction == ABOVE, IsAbove);
    CountMap(stocks, RowOf, (r: Row) => r.direction == BELOW, IsBelow);
    AboveBelowPartition(stocks);
  }

  /** What the page ends up showing. */
  datatype Page =
    | NoData
    | Table(rows: seq<Row>, shown: seq<Row>, stats: Statistics, showingCount: bool)

  /** The ticker list the page loads: the base list, extended by the sidebar input. */
  function PageTickers(scrape: Option<seq<string>>, customInput: string): seq<string>
  {
    var base := GetSp500Tickers(scrape);
    if customInput != "" then Merged(base, ParseTickerList(customInput)) else base
  }

  /** The ticker list is never empty, so `main`'s "Failed to load tickers" exit is never taken. */
  lemma TickersNeverEmpty(scrape: Option<seq<string>>, customInput: string)
    ensures |PageTickers(scrape, customInput)| >= 13
  {
    TickerCount(scrape);
  }

  /** `main()` from the ticker list to the table, for one sidebar state. */
  method RenderPage(customInput: string, nearOnly: bool, direction: string,
                    scrape: Option<seq<string>>, market: Market) returns (page: Page, pauses: nat)
    ensures pauses == |PageTickers(scrape, customInput)| / PAUSE_EVERY
    ensures var rows := Kept(PageTickers(scrape, customInput), RowFetcher(market));
      && (rows == [] ==> page == NoData)
      && (rows != [] ==> page == Table(rows, FilterRows(rows, nearOnly, direction), DashboardStats(rows),
                                       nearOnly || direction != ALL))
  {
    var tickers := GetSp500Tickers(scrape);
    if customInput != "" {
      var userTickers := ParseTickerList(customInput);
      tickers := MergeCustom(tickers, userTickers);
    }
    var rows;
    rows, pauses := LoadAllStocks(tickers, market);
    if rows == [] {
      return NoData, pauses;
    }
    var shown := FilterRows(rows, nearOnly, direction);
    page := Table(rows, shown, DashboardStats(rows), nearOnly || direction != ALL);
  }
}
