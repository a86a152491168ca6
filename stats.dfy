/**
 * The four counters over a stock list (`get_statistics` in backend/app.py; the
 * metadata block of scripts/fetch_stocks.py `main`).
 */
module Stats {
  import opened Seqs
  import opened StockService

  datatype Statistics = Statistics(totalTickers: nat, nearMaCount: nat, aboveCount: nat, belowCount: nat)

  predicate IsNear(s: StockData) { s.nearMa }
  predicate IsAbove(s: StockData) { s.direction == ABOVE }
  predicate IsBelow(s: StockData) { s.direction == BELOW }

  /** `len(stocks)` and the three `sum(1 for s in stocks if ...)`. */
  function ComputeStatistics(stocks: seq<StockData>): (st: Statistics)
    ensures st.totalTickers == |stocks|
    ensures st.nearMaCount <= st.totalTickers
    ensures st.aboveCount + st.belowCount <= st.totalTickers
  {
    CountDisjoint(stocks, IsAbove, IsBelow);
    Statistics(|stocks|, CountWhere(stocks, IsNear), CountWhere(stocks, IsAbove), CountWhere(stocks, IsBelow))
  }

  /** Every record is ABOVE or BELOW, so the two counters add up to the total. */
  lemma AboveBelowPartition(stocks: seq<StockData>)
    requires forall i :: 0 <= i < |stocks| ==> stocks[i].direction == ABOVE || stocks[i].direction == BELOW
    ensures ComputeStatistics(stocks).aboveCount + ComputeStatistics(stocks).belowCount == |stocks|
  {
    CountComplement(stocks, IsAbove, IsBelow);
  }

  /** The order in which records arrive does not change the statistics. */
  lemma StatisticsOrderIndependent(a: seq<StockData>, b: seq<StockData>)
    requires multiset(a) == multiset(b)
    ensures ComputeStatistics(a) == ComputeStatistics(b)
  {
    assert |a| == |multiset(a)| == |multiset(b)| == |b|;
    CountPermutation(a, b, IsNear);
    CountPermutation(a, b, IsAbove);
    CountPermutation(a, b, IsBelow);
  }
}
