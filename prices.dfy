/**
 * Closing prices and the simple moving average over them
 * (pandas' `hist['Close'].rolling(window=n).mean().iloc[-1]`, over exact reals).
 */
module Prices {

  /** A closing price: always positive. */
  type Price = r: real | r > 0.0 witness 1.0

  /** A moving-average window length: at least one day. */
  type Period = n: nat | n > 0 witness 150

  function Sum(s: seq<real>): real
  {
    if s == [] then 0.0 else s[0] + Sum(s[1..])
  }

  lemma {:induction false} SumConcat(a: seq<real>, b: seq<real>)
    ensures Sum(a + b) == Sum(a) + Sum(b)
  {
    if a == [] {
      assert a + b == b;
    } else {
      assert (a + b)[1..] == a[1..] + b;
      SumConcat(a[1..], b);
    }
  }

  /** `n` copies of `x` add up to `n * x`. */
  lemma {:induction false} SumConstant(s: seq<real>, x: real)
    requires forall i :: 0 <= i < |s| ==> s[i] == x
    ensures Sum(s) == |s| as real * x
  {
    if s != [] {
      SumConstant(s[1..], x);
    }
  }

  /** A sum of values in `[lo, hi]` lies in `[n * lo, n * hi]`. */
  lemma {:induction false} SumBounds(s: seq<real>, lo: real, hi: real)
    requires forall i :: 0 <= i < |s| ==> lo <= s[i] <= hi
    ensures |s| as real * lo <= Sum(s) <= |s| as real * hi
  {
    if s != [] {
      SumBounds(s[1..], lo, hi);
      assert |s| as real * lo == lo + |s[1..]| as real * lo;
      assert |s| as real * hi == hi + |s[1..]| as real * hi;
    }
  }

  lemma {:induction false} SumPositive(s: seq<Price>)
    requires s != []
    ensures Sum(s) > 0.0
  {
    if |s| > 1 {
      SumPositive(s[1..]);
    }
  }

  /** The arithmetic mean. */
  function Mean(s: seq<real>): real
    requires s != []
  {
    Sum(s) / |s| as real
  }

  /** The mean of values in `[lo, hi]` lies in `[lo, hi]`. */
  lemma MeanBounds(s: seq<real>, lo: real, hi: real)
    requires s != []
    requires forall i :: 0 <= i < |s| ==> lo <= s[i] <= hi
    ensures lo <= Mean(s) <= hi
  {
    SumBounds(s, lo, hi);
    var n := |s| as real;
    assert Mean(s) * n == Sum(s);
  }

  /** The last `n` closes. */
  function Window(closes: seq<Price>, n: Period): (w: seq<Price>)
    requires n <= |closes|
    ensures |w| == n
  {
    closes[|closes| - n..]
  }

  /** `rolling(window=n).mean().iloc[-1]`: the mean of the last `n` closes. */
  function MovingAverage(closes: seq<Price>, n: Period): (ma: real)
    requires n <= |closes|
    ensures ma > 0.0
  {
    SumPositive(Window(closes, n));
    Mean(Window(closes, n))
  }

  /** `iloc[-1]`: the most recent close. */
  function LastClose(closes: seq<Price>): Price
    requires closes != []
  {
    closes[|closes| - 1]
  }
}
