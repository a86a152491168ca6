/**
 * The moving-average metric of one ticker (`get_stock_ma_data` in
 * backend/services/stock_service.py; scripts/fetch_stocks.py carries an identical copy).
 * The price history the provider returns is an input; `None` stands for a provider
 * call that raised, which the source turns into a `None` result.
 */
module StockService {
  import opened Wrappers
  import opened Prices

  /** `near_ma = distance_abs <= 5.0`. */
  const NEAR_THRESHOLD: real := 5.0

  /** The default `ma_period`. */
  const DEFAULT_PERIOD: Period := 150

  const ABOVE: string := "ABOVE"
  const BELOW: string := "BELOW"

  /** The `StockData` record (seven fields, as in backend/models/stock_models.py). */
  datatype StockData = StockData(
    symbol: string,
    price: real,
    ma150: real,
    distancePercent: real,
    distanceAbs: real,
    direction: string,
    nearMa: bool)

  /** The quantities derived from one history, before they are rounded and packed. */
  datatype Metrics = Metrics(price: real, ma: real, diffPercent: real, distanceAbs: real, direction: string)

  function ComputeMetrics(closes: seq<Price>, n: Period): (m: Metrics)
    requires n <= |closes|
    ensures m.ma > 0.0
  {
    var price := LastClose(closes);
    var ma := MovingAverage(closes, n);
    var diff := (price - ma) / ma * 100.0;
    Metrics(price, ma, diff, Abs(diff), if price > ma then ABOVE else BELOW)
  }

  /** What holds of every record the service produces. */
  predicate Consistent(sd: StockData)
  {
    && sd.ma150 > 0.0
    && sd.distancePercent == (sd.price - sd.ma150) / sd.ma150 * 100.0
    && sd.distanceAbs == Abs(sd.distancePercent)
    && (sd.direction == ABOVE || sd.direction == BELOW)
    && (sd.direction == ABOVE <==> sd.price > sd.ma150)
    && (sd.nearMa <==> sd.distanceAbs <= NEAR_THRESHOLD)
  }

  /** Every record of a list is consistent (stated element by element, head first). */
  predicate AllConsistent(s: seq<StockData>)
  {
    s == [] || (Consistent(s[0]) && AllConsistent(s[1..]))
  }

  lemma {:induction false} AllConsistentIff(s: seq<StockData>)
    ensures AllConsistent(s) <==> forall i :: 0 <= i < |s| ==> Consistent(s[i])
  {
    if s != [] {
      AllConsistentIff(s[1..]);
      assert forall i :: 1 <= i < |s| ==> s[1..][i - 1] == s[i];
    }
  }

  /** In a consistent list every direction is ABOVE or BELOW. */
  lemma {:induction false} AllConsistentDirections(s: seq<StockData>)
    requires AllConsistent(s)
    ensures forall i :: 0 <= i < |s| ==> s[i].direction == ABOVE || s[i].direction == BELOW
  {
    if s != [] {
      AllConsistentDirections(s[1..]);
      assert forall i :: 1 <= i < |s| ==> s[1..][i - 1] == s[i];
    }
  }

  /** `get_stock_ma_data(symbol, ma_period)` with the fetched history as input. */
  function GetStockMaData(symbol: string, history: Option<seq<Price>>, n: Period): (r: Option<StockData>)
    ensures r.Some? <==> history.Some? && |history.value| >= n
    ensures r.Some? ==> && r.value.symbol == symbol
                        && r.value.price == LastClose(history.value)
                        && r.value.ma150 == Mean(Window(history.value, n))
                        && Consistent(r.value)
  {
    match history
    case None => None
    case Some(closes) =>
      if |closes| < n then None
      else
        var m := ComputeMetrics(closes, n);
        Some(StockData(symbol, m.price, m.ma, m.diffPercent, m.distanceAbs, m.direction, m.distanceAbs <= NEAR_THRESHOLD))
  }

  /** With a positive average, ABOVE is the same as a positive signed distance. */
  lemma DirectionMatchesSign(sd: StockData)
    requires Consistent(sd)
    ensures sd.direction == ABOVE <==> sd.distancePercent > 0.0
    ensures sd.direction == BELOW <==> sd.distancePercent <= 0.0
  {
    var p, m := sd.price, sd.ma150;
    var q := (p - m) / m;
    assert q * m == p - m;
    assert q > 0.0 <==> p - m > 0.0;
  }

  /** Near the average exactly when the price lies within 5% of it, bounds included. */
  lemma NearMeansWithinBand(sd: StockData)
    requires Consistent(sd)
    ensures sd.nearMa <==> 0.95 * sd.ma150 <= sd.price <= 1.05 * sd.ma150
  {
    RatioWithinBand(sd.price - sd.ma150, sd.ma150, 0.05);
  }

  /** `|d / m * 100| <= 100 e` exactly when `-e m <= d <= e m`, for a positive `m`. */
  lemma RatioWithinBand(d: real, m: real, e: real)
    requires m > 0.0
    ensures Abs(d / m * 100.0) <= e * 100.0 <==> -(e * m) <= d <= e * m
  {
    var q := d / m;
    assert q * m == d;
    if q <= e {
      assert (e - q) * m >= 0.0;
    } else {
      assert (q - e) * m > 0.0;
    }
    if -e <= q {
      assert (q + e) * m >= 0.0;
    } else {
      assert (-e - q) * m > 0.0;
    }
  }

  /** A price equal to its average is reported BELOW, at distance zero, and near. */
  lemma PriceAtAverageIsBelow(symbol: string, closes: seq<Price>, n: Period)
    requires n <= |closes| && LastClose(closes) == MovingAverage(closes, n)
    ensures var r := GetStockMaData(symbol, Some(closes), n);
      r.Some? && r.value.direction == BELOW && r.value.distancePercent == 0.0 && r.value.nearMa
  {
  }

  /** The average lies between the smallest and the largest close of its window. */
  lemma AverageWithinWindow(closes: seq<Price>, n: Period, lo: real, hi: real)
    requires n <= |closes|
    requires forall i :: |closes| - n <= i < |closes| ==> lo <= closes[i] <= hi
    ensures lo <= MovingAverage(closes, n) <= hi
  {
    var w := Window(closes, n);
    forall i | 0 <= i < |w| ensures lo <= w[i] <= hi {
      assert w[i] == closes[|closes| - n + i];
    }
    MeanBounds(w, lo, hi);
  }

  /** A flat history sits exactly on its average: BELOW, distance zero, near. */
  lemma FlatHistory(symbol: string, closes: seq<Price>, n: Period, x: Price)
    requires n <= |closes|
    requires forall i :: 0 <= i < |closes| ==> closes[i] == x
    ensures var r := GetStockMaData(symbol, Some(closes), n);
      r.Some? && r.value.ma150 == x && r.value.direction == BELOW && r.value.distanceAbs == 0.0 && r.value.nearMa
  {
    var w := Window(closes, n);
    assert forall i :: 0 <= i < |w| ==> w[i] == closes[|closes| - n + i];
    SumConstant(w, x);
    assert Mean(w) == x;
  }

  /** 149 closes of 100 then one of 110: the average is 15010/150, the price is ABOVE
      it by about 9.93%, so the ticker is not near its average. */
  lemma JumpAfterFlatHistory(symbol: string)
    ensures var closes: seq<Price> := seq(149, _ => 100.0) + [110.0];
      var r := GetStockMaData(symbol, Some(closes), 150);
      && r.Some?
      && r.value.ma150 == 15010.0 / 150.0
      && r.value.price == 110.0
      && r.value.direction == ABOVE
      && 9.9 < r.value.distancePercent < 10.0
      && !r.value.nearMa
  {
    var flat: seq<Price> := seq(149, _ => 100.0);
    var closes: seq<Price> := flat + [110.0];
    assert Window(closes, 150) == closes;
    SumConstant(flat, 100.0);
    SumConcat(flat, [110.0]);
    assert Sum([110.0]) == 110.0;
    assert Sum(closes) == 15010.0;
    var ma := 15010.0 / 150.0;
    assert MovingAverage(closes, 150) == ma;
    var d := (110.0 - ma) / ma * 100.0;
    assert d == 149000.0 / 15010.0;
  }
}
