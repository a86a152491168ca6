/**
 * User-supplied extra tickers: `[t.strip().upper() for t in text.split(',') if t.strip()]`
 * followed by `for t in extra: if t not in tickers: tickers.append(t)`
 * (backend/app.py, `get_stocks`; streamlit_app.py, `main`).
 */
module TickerMerge {
  import opened Wrappers
  import opened Seqs
  import opened Text

  /** One comma-separated piece: dropped when blank, otherwise trimmed and upper-cased. */
  function NormalizePiece(piece: string): Option<string>
  {
    var t := Strip(piece);
    if t == [] then None else Some(ToUpper(t))
  }

  /** A symbol the parse can produce: non-empty, comma-free, upper-case, trimmed. */
  predicate WellFormedTicker(t: string)
  {
    t != [] && ',' !in t && ToUpper(t) == t && !IsSpace(t[0]) && !IsSpace(t[|t| - 1])
  }

  lemma NormalizedIsWellFormed(piece: string)
    requires ',' !in piece && NormalizePiece(piece).Some?
    ensures WellFormedTicker(NormalizePiece(piece).value)
  {
    var t := Strip(piece);
    var off := |piece| - |TrimLeft(piece)|;
    forall i | 0 <= i < |t| ensures t[i] != ',' {
      assert t[i] == piece[off + i];
    }
    UpperKeepsShape(t);
  }

  /** Upper-casing a trimmed, comma-free symbol keeps it trimmed and comma-free. */
  lemma UpperKeepsShape(t: string)
    requires t != [] && ',' !in t && !IsSpace(t[0]) && !IsSpace(t[|t| - 1])
    ensures WellFormedTicker(ToUpper(t))
  {
    var u := ToUpper(t);
    UpperIsUpper(t);
    forall i | 0 <= i < |u| ensures u[i] != ',' {
      assert u[i] == UpperChar(t[i]);
    }
  }

  /** The list comprehension over `text.split(',')`. */
  function ParseTickerList(text: string): (r: seq<string>)
    ensures |r| <= |Split(text, ',')|
    ensures forall i :: 0 <= i < |r| ==> WellFormedTicker(r[i])
  {
    PiecesWellFormed(Split(text, ','));
    Kept(Split(text, ','), NormalizePiece)
  }

  lemma PiecesWellFormed(parts: seq<string>)
    requires forall k :: 0 <= k < |parts| ==> ',' !in parts[k]
    ensures forall j :: 0 <= j < |Kept(parts, NormalizePiece)| ==> WellFormedTicker(Kept(parts, NormalizePiece)[j])
  {
    forall i | 0 <= i < |parts| && NormalizePiece(parts[i]).Some?
      ensures WellFormedTicker(NormalizePiece(parts[i]).value)
    {
      NormalizedIsWellFormed(parts[i]);
    }
    KeptProperty(parts, NormalizePiece, WellFormedTicker);
  }

  /** Some piece of `parts` normalises to `t`. */
  predicate Produces(parts: seq<string>, t: string)
  {
    exists k :: 0 <= k < |parts| && NormalizePiece(parts[k]) == Some(t)
  }

  /** A symbol is parsed out of the text exactly when some piece normalises to it. */
  lemma ParseMember(text: string, t: string)
    ensures t in ParseTickerList(text) <==> Produces(Split(text, ','), t)
  {
    assert ParseTickerList(text) == Kept(Split(text, ','), NormalizePiece);
    KeptMember(Split(text, ','), NormalizePiece, t);
  }

  /** The list after the append loop over `extra`. */
  function Merged(base: seq<string>, extra: seq<string>): (r: seq<string>)
    ensures |base| <= |r| <= |base| + |extra| && r[..|base|] == base
    ensures forall i :: |base| <= i < |r| ==> r[i] in extra && r[i] !in base
    ensures forall i, j :: |base| <= i < j < |r| ==> r[i] != r[j]
    ensures forall i :: 0 <= i < |extra| ==> extra[i] in r
    decreases |extra|
  {
    if extra == [] then base
    else
      var init := extra[..|extra| - 1];
      var t := extra[|extra| - 1];
      var prev := Merged(base, init);
      assert forall i :: 0 <= i < |init| ==> init[i] == extra[i];
      if t in prev then prev else prev + [t]
  }

  /** The append loop itself. */
  method MergeCustom(tickers: seq<string>, extra: seq<string>) returns (r: seq<string>)
    ensures r == Merged(tickers, extra)
  {
    r := tickers;
    for i := 0 to |extra|
      invariant r == Merged(tickers, extra[..i])
    {
      assert extra[..i + 1][..i] == extra[..i];
      if extra[i] !in r {
        r := r + [extra[i]];
      }
    }
    assert extra[..|extra|] == extra;
  }

  /** Merging symbols that are all present already changes nothing. */
  lemma {:induction false} MergeNothingNew(base: seq<string>, extra: seq<string>)
    requires forall i :: 0 <= i < |extra| ==> extra[i] in base
    ensures Merged(base, extra) == base
    decreases |extra|
  {
    if extra != [] {
      var init := extra[..|extra| - 1];
      assert forall i :: 0 <= i < |init| ==> init[i] == extra[i];
      MergeNothingNew(base, init);
    }
  }

  /** Submitting the same extra symbols twice is the same as once. */
  lemma MergeIdempotent(base: seq<string>, extra: seq<string>)
    ensures Merged(Merged(base, extra), extra) == Merged(base, extra)
  {
    MergeNothingNew(Merged(base, extra), extra);
  }

  /** A list without duplicates stays without duplicates. */
  lemma MergeKeepsNoDuplicates(base: seq<string>, extra: seq<string>)
    requires NoDuplicates(base)
    ensures NoDuplicates(Merged(base, extra))
  {
    var r := Merged(base, extra);
    forall i, j | 0 <= i < j < |r| ensures r[i] != r[j] {
      if j >= |base| && i < |base| {
        assert r[i] == base[i];
      }
    }
  }

  /** Every element of the result came from the base list or the extra ones. */
  lemma MergedFrom(base: seq<string>, extra: seq<string>)
    ensures forall i :: 0 <= i < |Merged(base, extra)| ==>
      Merged(base, extra)[i] in base || Merged(base, extra)[i] in extra
  {
    var r := Merged(base, extra);
    forall i | 0 <= i < |r| ensures r[i] in base || r[i] in extra {
      if i < |base| {
        assert r[i] == r[..|base|][i];
      }
    }
  }
}
