/**
 * Generic list operations the Python code spells as comprehensions, `sum(1 for ...)`,
 * boolean-mask filters and `list(set(...))`, with the facts the rest of the model uses.
 */
module Seqs {
  import opened Wrappers

  /** The results of `f` over `s`, in order, with every `None` dropped
      (`[r for x in s if (r := f(x))]`). */
  function Kept<S, T>(s: seq<S>, f: S -> Option<T>): (r: seq<T>)
    ensures |r| <= |s|
  {
    if s == [] then []
    else (match f(s[0]) case Some(y) => [y] case None => []) + Kept(s[1..], f)
  }

  lemma {:induction false} KeptConcat<S, T>(a: seq<S>, b: seq<S>, f: S -> Option<T>)
    ensures Kept(a + b, f) == Kept(a, f) + Kept(b, f)
  {
    if a == [] {
      assert a + b == b;
    } else {
      assert (a + b)[1..] == a[1..] + b;
      KeptConcat(a[1..], b, f);
    }
  }

  /** An element is kept exactly when some input produced it. */
  lemma {:induction false} KeptMember<S, T>(s: seq<S>, f: S -> Option<T>, y: T)
    ensures y in Kept(s, f) <==> exists i :: 0 <= i < |s| && f(s[i]) == Some(y)
  {
    if s != [] {
      KeptMember(s[1..], f, y);
      if y in Kept(s[1..], f) {
        var i :| 0 <= i < |s[1..]| && f(s[1..][i]) == Some(y);
        assert f(s[i + 1]) == Some(y);
      }
      if exists i :: 0 <= i < |s| && f(s[i]) == Some(y) {
        var i :| 0 <= i < |s| && f(s[i]) == Some(y);
        if i > 0 {
          assert f(s[1..][i - 1]) == Some(y);
        }
      }
    }
  }

  /** What a single element contributes. */
  lemma KeptSingle<S, T>(x: S, f: S -> Option<T>)
    ensures Kept([x], f) == if f(x).Some? then [f(x).value] else []
  {
    assert [x][1..] == [];
  }

  /** Taking out one input takes out exactly its own result. */
  lemma {:induction false} KeptRemove<S, T>(s: seq<S>, p: nat, f: S -> Option<T>)
    requires p < |s|
    ensures multiset(Kept(s, f)) == multiset(Kept(s[..p] + s[p + 1..], f)) + multiset(Kept([s[p]], f))
  {
    var a, x, b := s[..p], [s[p]], s[p + 1..];
    assert s == a + (x + b);
    KeptConcat(a, x + b, f);
    KeptConcat(x, b, f);
    KeptConcat(a, b, f);
    assert Kept(s, f) == Kept(a, f) + (Kept(x, f) + Kept(b, f));
    assert Kept(a + b, f) == Kept(a, f) + Kept(b, f);
  }

  /** Whatever every produced result satisfies, every kept element satisfies. */
  lemma {:induction false} KeptProperty<S, T>(s: seq<S>, f: S -> Option<T>, P: T -> bool)
    requires forall i :: 0 <= i < |s| && f(s[i]).Some? ==> P(f(s[i]).value)
    ensures forall j :: 0 <= j < |Kept(s, f)| ==> P(Kept(s, f)[j])
  {
    if s != [] {
      KeptProperty(s[1..], f, P);
      assert forall i :: 1 <= i < |s| ==> s[1..][i - 1] == s[i];
    }
  }

  /** When `f` succeeds exactly where `p` holds, as many results are kept as `p` counts. */
  lemma {:induction false} KeptCount<S, T>(s: seq<S>, f: S -> Option<T>, p: S -> bool)
    requires forall i :: 0 <= i < |s| ==> (f(s[i]).Some? <==> p(s[i]))
    ensures |Kept(s, f)| == CountWhere(s, p)
  {
    if s != [] {
      KeptCount(s[1..], f, p);
    }
  }

  /** `sum(1 for x in s if p(x))`. */
  function CountWhere<T>(s: seq<T>, p: T -> bool): (n: nat)
    ensures n <= |s|
  {
    if s == [] then 0 else (if p(s[0]) then 1 else 0) + CountWhere(s[1..], p)
  }

  lemma {:induction false} CountConcat<T>(a: seq<T>, b: seq<T>, p: T -> bool)
    ensures CountWhere(a + b, p) == CountWhere(a, p) + CountWhere(b, p)
  {
    if a == [] {
      assert a + b == b;
    } else {
      assert (a + b)[1..] == a[1..] + b;
      CountConcat(a[1..], b, p);
    }
  }

  /** Counting does not depend on the order of the list. */
  lemma {:induction false} CountPermutation<T>(a: seq<T>, b: seq<T>, p: T -> bool)
    requires multiset(a) == multiset(b)
    ensures CountWhere(a, p) == CountWhere(b, p)
    decreases |a|
  {
    if a != [] {
      assert a[0] in multiset(b);
      var i :| 0 <= i < |b| && b[i] == a[0];
      var rest := b[..i] + b[i + 1..];
      MultisetRemove(b, i);
      assert a == [a[0]] + a[1..];
      assert multiset(a[1..]) == multiset(rest);
      CountPermutation(a[1..], rest, p);
      CountRemove(b, i, p);
    }
  }

  /** Removing the element at `i` removes one occurrence of it. */
  lemma MultisetRemove<T>(b: seq<T>, i: nat)
    requires i < |b|
    ensures multiset(b[..i] + b[i + 1..]) == multiset(b) - multiset{b[i]}
  {
    assert b == b[..i] + [b[i]] + b[i + 1..];
  }

  /** Removing the element at `i` removes its share of the count. */
  lemma CountRemove<T>(b: seq<T>, i: nat, p: T -> bool)
    requires i < |b|
    ensures CountWhere(b, p) == CountWhere(b[..i] + b[i + 1..], p) + (if p(b[i]) then 1 else 0)
  {
    assert CountWhere(b, p) == CountWhere(b[..i], p) + CountWhere(b[i..], p) by {
      assert b[..i] + b[i..] == b;
      CountConcat(b[..i], b[i..], p);
    }
    assert CountWhere(b[i..], p) == (if p(b[i]) then 1 else 0) + CountWhere(b[i + 1..], p) by {
      assert b[i..][0] == b[i] && b[i..][1..] == b[i + 1..];
    }
    CountConcat(b[..i], b[i + 1..], p);
  }

  /** Two predicates that split every element between them split the count. */
  lemma {:induction false} CountComplement<T>(s: seq<T>, p: T -> bool, q: T -> bool)
    requires forall i :: 0 <= i < |s| ==> (p(s[i]) <==> !q(s[i]))
    ensures CountWhere(s, p) + CountWhere(s, q) == |s|
  {
    if s != [] {
      CountComplement(s[1..], p, q);
    }
  }

  /** Two predicates that never hold together count at most the whole list. */
  lemma {:induction false} CountDisjoint<T>(s: seq<T>, p: T -> bool, q: T -> bool)
    requires forall i :: 0 <= i < |s| ==> !(p(s[i]) && q(s[i]))
    ensures CountWhere(s, p) + CountWhere(s, q) <= |s|
  {
    if s != [] {
      CountDisjoint(s[1..], p, q);
    }
  }

  /** A boolean-mask filter: the elements satisfying `p`, in their original order. */
  function Filter<T>(s: seq<T>, p: T -> bool): (r: seq<T>)
    ensures |r| == CountWhere(s, p)
    ensures forall i :: 0 <= i < |r| ==> p(r[i])
    ensures forall i :: 0 <= i < |s| && p(s[i]) ==> s[i] in r
  {
    if s == [] then []
    else if p(s[0]) then [s[0]] + Filter(s[1..], p)
    else Filter(s[1..], p)
  }

  /** `a` is `b` with some elements removed and the rest in the same order. */
  predicate IsSubsequence<T(==)>(a: seq<T>, b: seq<T>)
    decreases |b|
  {
    a == [] || (b != [] && ((a[0] == b[0] && IsSubsequence(a[1..], b[1..])) || IsSubsequence(a, b[1..])))
  }

  lemma {:induction false} FilterIsSubsequence<T>(s: seq<T>, p: T -> bool)
    ensures IsSubsequence(Filter(s, p), s)
  {
    if s != [] {
      FilterIsSubsequence(s[1..], p);
    }
  }

  /** A filter that keeps everything is the identity. */
  lemma {:induction false} FilterAll<T>(s: seq<T>, p: T -> bool)
    requires forall i :: 0 <= i < |s| ==> p(s[i])
    ensures Filter(s, p) == s
  {
    if s != [] {
      FilterAll(s[1..], p);
    }
  }

  /** Two filters in a row are one filter by both conditions. */
  lemma {:induction false} FilterFilter<T>(s: seq<T>, p: T -> bool, q: T -> bool, both: T -> bool)
    requires forall i :: 0 <= i < |s| ==> (both(s[i]) <==> p(s[i]) && q(s[i]))
    ensures Filter(Filter(s, p), q) == Filter(s, both)
  {
    if s != [] {
      assert forall i :: 1 <= i < |s| ==> s[1..][i - 1] == s[i];
      FilterFilter(s[1..], p, q, both);
      if p(s[0]) {
        assert Filter(s, p) == [s[0]] + Filter(s[1..], p);
        assert ([s[0]] + Filter(s[1..], p))[1..] == Filter(s[1..], p);
      }
    }
  }

  /** Filters by conditions that agree on every element give the same list. */
  lemma {:induction false} FilterSame<T>(s: seq<T>, p: T -> bool, q: T -> bool)
    requires forall i :: 0 <= i < |s| ==> (p(s[i]) <==> q(s[i]))
    ensures Filter(s, p) == Filter(s, q)
  {
    if s != [] {
      assert forall i :: 1 <= i < |s| ==> s[1..][i - 1] == s[i];
      FilterSame(s[1..], p, q);
    }
  }

  predicate NoDuplicates<T(==)>(s: seq<T>)
  {
    forall i, j :: 0 <= i < j < |s| ==> s[i] != s[j]
  }

  /** The distinct elements of `s`, each at its first occurrence. */
  function Dedup<T(==)>(s: seq<T>): (r: seq<T>)
    ensures NoDuplicates(r)
    ensures forall i :: 0 <= i < |r| ==> r[i] in s
    ensures forall i :: 0 <= i < |s| ==> s[i] in r
    ensures |r| <= |s|
  {
    if s == [] then []
    else
      var r := Dedup(s[..|s| - 1]);
      assert s == s[..|s| - 1] + [s[|s| - 1]];
      if s[|s| - 1] in r then r else r + [s[|s| - 1]]
  }

  /** Concatenation of a list of lists, in order. */
  function Flatten<T>(ss: seq<seq<T>>): seq<T>
  {
    if ss == [] then [] else ss[0] + Flatten(ss[1..])
  }

  lemma {:induction false} FlattenAppend<T>(ss: seq<seq<T>>, x: seq<T>)
    ensures Flatten(ss + [x]) == Flatten(ss) + x
  {
    if ss == [] {
      assert [x][1..] == [];
    } else {
      assert (ss + [x])[1..] == ss[1..] + [x];
      FlattenAppend(ss[1..], x);
    }
  }

  function MapSeq<S, T>(s: seq<S>, f: S -> T): (r: seq<T>)
    ensures |r| == |s|
    ensures forall i :: 0 <= i < |s| ==> r[i] == f(s[i])
  {
    if s == [] then [] else [f(s[0])] + MapSeq(s[1..], f)
  }

  /** When `g` is `f` followed by `h`, keeping `g`'s results is mapping `h` over `f`'s. */
  lemma {:induction false} KeptMap<S, T, U>(s: seq<S>, f: S -> Option<T>, g: S -> Option<U>, h: T -> U)
    requires forall i :: 0 <= i < |s| ==> g(s[i]) == if f(s[i]).Some? then Some(h(f(s[i]).value)) else None
    ensures Kept(s, g) == MapSeq(Kept(s, f), h)
  {
    if s != [] {
      KeptMap(s[1..], f, g, h);
      var rest := Kept(s[1..], f);
      if f(s[0]).Some? {
        assert Kept(s, f) == [f(s[0]).value] + rest;
        assert ([f(s[0]).value] + rest)[1..] == rest;
      }
    }
  }

  /** Counting over a mapped list is counting the composed predicate. */
  lemma {:induction false} CountMap<S, T>(s: seq<S>, h: S -> T, p: T -> bool, q: S -> bool)
    requires forall i :: 0 <= i < |s| ==> (p(h(s[i])) <==> q(s[i]))
    ensures CountWhere(MapSeq(s, h), p) == CountWhere(s, q)
  {
    if s != [] {
      CountMap(s[1..], h, p, q);
      assert MapSeq(s, h)[1..] == MapSeq(s[1..], h);
    }
  }
}
