/**
 * The batch loop shared by `ParallelStockProcessor.fetch_stocks_parallel`
 * (backend/services/parallel_processor.py) and `fetch_stocks_parallel`
 * (scripts/fetch_stocks.py): `for batch_start in range(0, n, batch_size)`,
 * each batch fanned out to a thread pool and collected with `as_completed`,
 * a one-second pause between batches.
 */
module Batching {
  import opened Wrappers
  import opened Seqs

  /** The batches `tickers[start:min(start + size, n)]` for `start` in `range(0, n, size)`. */
  function Batches<T>(s: seq<T>, size: nat): seq<seq<T>>
    requires size > 0
    decreases |s|
  {
    if s == [] then []
    else
      var end := Min(size, |s|);
      [s[..end]] + Batches(s[end..], size)
  }

  /** The batches, laid end to end, are the whole list in order: every ticker lands
      in exactly one batch and the batches follow each other. */
  lemma {:induction false} FlattenBatches<T>(s: seq<T>, size: nat)
    requires size > 0
    ensures Flatten(Batches(s, size)) == s
    decreases |s|
  {
    if s != [] {
      var end := Min(size, |s|);
      FlattenBatches(s[end..], size);
      assert s == s[..end] + s[end..];
    }
  }

  /** No batch is empty and none is larger than `size`. */
  lemma {:induction false} BatchSizes<T>(s: seq<T>, size: nat)
    requires size > 0
    ensures forall k :: 0 <= k < |Batches(s, size)| ==> 0 < |Batches(s, size)[k]| <= size
    decreases |s|
  {
    if s != [] {
      var end := Min(size, |s|);
      BatchSizes(s[end..], size);
      var bs := Batches(s, size);
      assert bs[1..] == Batches(s[end..], size);
      forall k | 0 <= k < |bs| ensures 0 < |bs[k]| <= size {
        if k > 0 {
          assert bs[k] == bs[1..][k - 1];
        }
      }
    }
  }

  /** There are `ceil(n / size)` batches. */
  lemma {:induction false} BatchCount<T>(s: seq<T>, size: nat)
    requires size > 0
    ensures |Batches(s, size)| == (|s| + size - 1) / size
    decreases |s|
  {
    if s != [] {
      var end := Min(size, |s|);
      BatchCount(s[end..], size);
      if |s| <= size {
        assert size <= |s| + size - 1 < 2 * size;
        DivInRange(|s| + size - 1, size, 1);
      } else {
        var x := |s| - size + size - 1;
        DivShift(x, size);
      }
    }
  }

  lemma DivInRange(x: int, d: nat, q: int)
    requires d > 0 && q * d <= x < (q + 1) * d
    ensures x / d == q
  {
    var r, m := x / d, x % d;
    assert x == r * d + m && 0 <= m < d;
    if r < q {
      MulMono(r + 1, q, d);
    } else if r > q {
      MulMono(q + 1, r, d);
    }
  }

  lemma MulMono(a: int, b: int, d: nat)
    requires a <= b
    ensures a * d <= b * d
  {
    assert b * d - a * d == (b - a) * d;
  }

  lemma DivShift(x: int, d: nat)
    requires d > 0
    ensures (x + d) / d == x / d + 1
  {
    var q := x / d;
    assert q * d <= x < (q + 1) * d;
    DivInRange(x + d, d, q + 1);
  }

  /** Batch `k` is exactly the slice the source's index arithmetic picks. */
  lemma {:induction false} BatchAt<T>(s: seq<T>, size: nat, k: nat)
    requires size > 0 && k < |Batches(s, size)|
    ensures k * size < |s|
    ensures Batches(s, size)[k] == s[k * size..Min(k * size + size, |s|)]
    decreases |s|
  {
    if k == 0 {
      assert k * size == 0;
    } else {
      BatchesRest(s, size, k);
      BatchAt(s[size..], size, k - 1);
      var a := (k - 1) * size;
      BatchAtShift(s, size, k - 1, a);
      MulSucc(k - 1, size);
    }
  }

  /** Past the first, batch `k` of `s` is batch `k - 1` of the rest. */
  lemma BatchesRest<T>(s: seq<T>, size: nat, k: nat)
    requires size > 0 && 0 < k < |Batches(s, size)|
    ensures size < |s| && k - 1 < |Batches(s[size..], size)|
    ensures Batches(s, size)[k] == Batches(s[size..], size)[k - 1]
  {
  }

  /** A batch of what follows the first batch, read as a batch of `s`. */
  lemma BatchAtShift<T>(s: seq<T>, size: nat, j: nat, a: nat)
    requires 0 < size < |s|
    requires j < |Batches(s[size..], size)| && a < |s| - size
    requires Batches(s[size..], size)[j] == s[size..][a..Min(a + size, |s| - size)]
    ensures size + a < |s|
    ensures Batches(s, size)[j + 1] == s[size + a..Min(size + a + size, |s|)]
  {
    assert Batches(s, size) == [s[..size]] + Batches(s[size..], size);
    var b := Min(a + size, |s| - size);
    assert size + b == Min(size + a + size, |s|);
    SliceOfDrop(s, size, a, b);
  }

  lemma SliceOfDrop<T>(s: seq<T>, d: nat, a: nat, b: nat)
    requires d <= |s| && a <= b <= |s| - d
    ensures s[d..][a..b] == s[d + a..d + b]
  {
  }

  lemma MulSucc(k: nat, size: nat)
    ensures (k + 1) * size == k * size + size
  {
  }

  /** Taking the next batch off the front of what is left. */
  lemma BatchesUnfold<T>(s: seq<T>, start: nat, size: nat)
    requires size > 0 && start < |s|
    ensures Batches(s[start..], size) == [s[start..Min(start + size, |s|)]] + Batches(s[Min(start + size, |s|)..], size)
  {
    var t := s[start..];
    var end := Min(size, |t|);
    assert t[..end] == s[start..Min(start + size, |s|)];
    assert t[end..] == s[Min(start + size, |s|)..];
  }

  /** One batch under `as_completed`: the futures finish in any order, each result that
      is not `None` is appended as its future finishes. */
  method CollectBatch<T>(batch: seq<string>, fetch: string -> Option<T>) returns (out: seq<T>)
    ensures multiset(out) == multiset(Kept(batch, fetch))
  {
    out := [];
    var pending := batch;
    while pending != []
      invariant multiset(out) + multiset(Kept(pending, fetch)) == multiset(Kept(batch, fetch))
      decreases |pending|
    {
      var p :| 0 <= p < |pending|;
      var ticker := pending[p];
      var rest := pending[..p] + pending[p + 1..];
      assert multiset(Kept(pending, fetch)) == multiset(Kept(rest, fetch)) + multiset(Kept([ticker], fetch)) by {
        KeptRemove(pending, p, fetch);
      }
      KeptSingle(ticker, fetch);
      var result := fetch(ticker);
      if result.Some? {
        out := out + [result.value];
      }
      pending := rest;
    }
  }

  /** One pass of the batch loop moves the next batch from what is left to what is done. */
  lemma DoneStep(tickers: seq<string>, size: nat, start: nat, done: seq<seq<string>>)
    requires size > 0 && start < |tickers|
    requires done + Batches(tickers[start..], size) == Batches(tickers, size)
    ensures var end := Min(start + size, |tickers|);
      (done + [tickers[start..end]]) + Batches(tickers[end..], size) == Batches(tickers, size)
  {
    var end := Min(start + size, |tickers|);
    BatchesUnfold(tickers, start, size);
    var rest := Batches(tickers[end..], size);
    assert (done + [tickers[start..end]]) + rest == done + ([tickers[start..end]] + rest);
  }

  /** Appending a batch and its results keeps them paired up index by index. */
  lemma PairStep<T>(done: seq<seq<string>>, perBatch: seq<seq<T>>, batch: seq<string>, out: seq<T>,
                    fetch: string -> Option<T>)
    requires |perBatch| == |done|
    requires forall k :: 0 <= k < |done| ==> multiset(perBatch[k]) == multiset(Kept(done[k], fetch))
    requires multiset(out) == multiset(Kept(batch, fetch))
    ensures forall k :: 0 <= k < |done| + 1 ==>
      multiset((perBatch + [out])[k]) == multiset(Kept((done + [batch])[k], fetch))
  {
    forall k | 0 <= k < |done| + 1
      ensures multiset((perBatch + [out])[k]) == multiset(Kept((done + [batch])[k], fetch))
    {
      if k < |done| {
        assert (perBatch + [out])[k] == perBatch[k] && (done + [batch])[k] == done[k];
      }
    }
  }

  /** The results so far grow by the batch's results, up to order. */
  lemma ResultsStep<T>(tickers: seq<string>, start: nat, end: nat, results: seq<T>, out: seq<T>,
                       fetch: string -> Option<T>)
    requires start <= end <= |tickers|
    requires multiset(results) == multiset(Kept(tickers[..start], fetch))
    requires multiset(out) == multiset(Kept(tickers[start..end], fetch))
    ensures multiset(results + out) == multiset(Kept(tickers[..end], fetch))
  {
    KeptPrefix(tickers, start, end, fetch);
  }

  /** What a prefix keeps is what its two parts keep, one after the other. */
  lemma KeptPrefix<T>(tickers: seq<string>, start: nat, end: nat, fetch: string -> Option<T>)
    requires start <= end <= |tickers|
    ensures Kept(tickers[..end], fetch) == Kept(tickers[..start], fetch) + Kept(tickers[start..end], fetch)
  {
    var c := tickers[..end];
    assert c[..start] == tickers[..start] && c[start..] == tickers[start..end];
    assert c == c[..start] + c[start..];
    KeptConcat(c[..start], c[start..], fetch);
  }

  /** What the batch loop has achieved once `start` tickers are behind it: `done` are the
      batches taken so far, `perBatch` their results, `results` all of them laid end to end. */
  ghost predicate Progress<T>(tickers: seq<string>, size: nat, fetch: string -> Option<T>, start: nat,
                              done: seq<seq<string>>, perBatch: seq<seq<T>>, results: seq<T>)
    requires size > 0
  {
    && start <= |tickers|
    && done + Batches(tickers[start..], size) == Batches(tickers, size)
    && |perBatch| == |done|
    && (forall k :: 0 <= k < |done| ==> multiset(perBatch[k]) == multiset(Kept(done[k], fetch)))
    && results == Flatten(perBatch)
    && multiset(results) == multiset(Kept(tickers[..start], fetch))
  }

  /** One pass of the loop body keeps `Progress`. */
  lemma BatchStep<T>(tickers: seq<string>, size: nat, fetch: string -> Option<T>, start: nat,
                     done: seq<seq<string>>, perBatch: seq<seq<T>>, results: seq<T>, out: seq<T>)
    requires size > 0 && start < |tickers|
    requires Progress(tickers, size, fetch, start, done, perBatch, results)
    requires multiset(out) == multiset(Kept(tickers[start..Min(start + size, |tickers|)], fetch))
    ensures var end := Min(start + size, |tickers|);
      Progress(tickers, size, fetch, end, done + [tickers[start..end]], perBatch + [out], results + out)
  {
    var end := Min(start + size, |tickers|);
    var batch := tickers[start..end];
    DoneStep(tickers, size, start, done);
    PairStep(done, perBatch, batch, out, fetch);
    ResultsStep(tickers, start, end, results, out, fetch);
    FlattenAppend(perBatch, out);
  }

  /** The whole batch loop. `perBatch[k]` is what batch `k` contributed, in the order its
      futures happened to finish; `pauses` counts the `time.sleep(1)` calls. */
  method CollectBatches<T>(tickers: seq<string>, size: nat, fetch: string -> Option<T>)
    returns (results: seq<T>, pauses: nat, ghost perBatch: seq<seq<T>>)
    requires size > 0
    ensures |perBatch| == |Batches(tickers, size)|
    ensures forall k :: 0 <= k < |perBatch| ==>
      multiset(perBatch[k]) == multiset(Kept(Batches(tickers, size)[k], fetch))
    ensures results == Flatten(perBatch)
    ensures multiset(results) == multiset(Kept(tickers, fetch))
    ensures pauses == if tickers == [] then 0 else |perBatch| - 1
  {
    results, pauses, perBatch := [], 0, [];
    ghost var done: seq<seq<string>> := [];
    var n := |tickers|;
    var start := 0;
    assert tickers[0..] == tickers;
    while start < n
      invariant 0 <= start <= n
      invariant Progress(tickers, size, fetch, start, done, perBatch, results)
      invariant pauses == if start == n && start > 0 then |done| - 1 else |done|
      decreases n - start
    {
      var end := Min(start + size, n);
      var out := CollectBatch(tickers[start..end], fetch);
      BatchStep(tickers, size, fetch, start, done, perBatch, results, out);
      results := results + out;
      perBatch := perBatch + [out];
      done := done + [tickers[start..end]];
      if end < n {
        pauses := pauses + 1;
      }
      start := end;
    }
    assert tickers[..n] == tickers;
    assert tickers[n..] == [];
  }
}
