/** Stable sorting by a key order, and the facts that make a sorted listing canonical. */
module Ordering {
  import opened Basics

  ghost predicate TotalPreorder<T(!new)>(leq: (T, T) -> bool) {
    && (forall x, y :: leq(x, y) || leq(y, x))
    && (forall x, y, z :: leq(x, y) && leq(y, z) ==> leq(x, z))
  }

  ghost predicate Sorted<T>(xs: seq<T>, leq: (T, T) -> bool) {
    forall i, j :: 0 <= i < j < |xs| ==> leq(xs[i], xs[j])
  }

  /** No two different rows of `xs` tie: the key identifies the row. */
  ghost predicate KeyIdentifies<T>(xs: seq<T>, leq: (T, T) -> bool) {
    forall x, y :: x in xs && y in xs && leq(x, y) && leq(y, x) ==> x == y
  }

  function Insert<T>(x: T, xs: seq<T>, leq: (T, T) -> bool): (ys: seq<T>)
    ensures multiset(ys) == multiset(xs) + multiset{x}
  {
    if xs == [] || leq(x, xs[0]) then [x] + xs
    else
      assert xs == [xs[0]] + xs[1..];
      [xs[0]] + Insert(x, xs[1..], leq)
  }

  /** A stable sort: rows that tie keep their list order. */
  function SortBy<T>(xs: seq<T>, leq: (T, T) -> bool): (ys: seq<T>)
    ensures multiset(ys) == multiset(xs)
  {
    if xs == [] then []
    else
      assert xs == [xs[0]] + xs[1..];
      Insert(xs[0], SortBy(xs[1..], leq), leq)
  }

  lemma {:induction false} InsertSorted<T(!new)>(x: T, xs: seq<T>, leq: (T, T) -> bool)
    requires TotalPreorder(leq) && Sorted(xs, leq)
    ensures Sorted(Insert(x, xs, leq), leq)
  {
    if xs == [] || leq(x, xs[0]) {
    } else {
      var rest := Insert(x, xs[1..], leq);
      InsertSorted(x, xs[1..], leq);
      forall y | y in rest
        ensures leq(xs[0], y)
      {
        assert y in multiset(rest);
      }
    }
  }

  lemma {:induction false} SortBySorted<T(!new)>(xs: seq<T>, leq: (T, T) -> bool)
    requires TotalPreorder(leq)
    ensures Sorted(SortBy(xs, leq), leq)
  {
    if xs != [] {
      SortBySorted(xs[1..], leq);
      InsertSorted(xs[0], SortBy(xs[1..], leq), leq);
    }
  }

  lemma SortedHead<T(!new)>(xs: seq<T>, leq: (T, T) -> bool, y: T)
    requires TotalPreorder(leq) && Sorted(xs, leq) && y in xs
    ensures leq(xs[0], y) && Sorted(xs[1..], leq)
  {
    assert leq(y, y);
  }

  lemma SameKey<T>(xs: seq<T>, leq: (T, T) -> bool, x: T, y: T)
    requires KeyIdentifies(xs, leq) && x in xs && y in xs && leq(x, y) && leq(y, x)
    ensures x == y && KeyIdentifies(xs[1..], leq)
  {
  }

  /** Two sorted listings of the same rows are the same listing when the key identifies rows. */
  lemma {:induction false} SortedUnique<T(!new)>(xs: seq<T>, ys: seq<T>, leq: (T, T) -> bool)
    requires TotalPreorder(leq)
    requires Sorted(xs, leq) && Sorted(ys, leq)
    requires multiset(xs) == multiset(ys)
    requires KeyIdentifies(xs, leq)
    ensures xs == ys
  {
    hide TotalPreorder, Sorted, KeyIdentifies;
    assert |xs| == |multiset(xs)| == |ys|;
    if xs != [] {
      assert xs[0] in multiset(ys) && ys[0] in multiset(xs);
      SortedHead(xs, leq, ys[0]);
      SortedHead(ys, leq, xs[0]);
      SameKey(xs, leq, xs[0], ys[0]);
      Uncons(xs);
      Uncons(ys);
      SortedUnique(xs[1..], ys[1..], leq);
    }
  }

  lemma Uncons<T>(xs: seq<T>)
    requires xs != []
    ensures xs == [xs[0]] + xs[1..] && multiset(xs[1..]) == multiset(xs) - multiset{xs[0]}
  {
    assert xs == [xs[0]] + xs[1..];
  }

  /** The sorted listing depends on the rows alone, not on the order they were inserted in. */
  lemma SortOrderIndependent<T(!new)>(xs: seq<T>, ys: seq<T>, leq: (T, T) -> bool)
    requires TotalPreorder(leq)
    requires multiset(xs) == multiset(ys)
    requires KeyIdentifies(xs, leq)
    ensures SortBy(xs, leq) == SortBy(ys, leq)
  {
    SortBySorted(xs, leq);
    SortBySorted(ys, leq);
    forall x, y | x in SortBy(xs, leq) && y in SortBy(xs, leq) && leq(x, y) && leq(y, x)
      ensures x == y
    {
      assert x in multiset(SortBy(xs, leq)) && y in multiset(SortBy(xs, leq));
    }
    SortedUnique(SortBy(xs, leq), SortBy(ys, leq), leq);
  }

  lemma {:induction false} SortOfSorted<T(!new)>(xs: seq<T>, leq: (T, T) -> bool)
    requires TotalPreorder(leq) && Sorted(xs, leq)
    ensures SortBy(xs, leq) == xs
  {
    if xs != [] {
      SortOfSorted(xs[1..], leq);
    }
  }

  /** The first row of the sorted listing is the first that no other row beats. */
  lemma {:induction false} SortHead<T(!new)>(xs: seq<T>, leq: (T, T) -> bool) returns (i: nat)
    requires TotalPreorder(leq) && xs != []
    ensures i < |xs| && SortBy(xs, leq) != [] && SortBy(xs, leq)[0] == xs[i]
    ensures forall j :: 0 <= j < i ==> !leq(xs[j], xs[i])
    ensures forall j :: i < j < |xs| ==> leq(xs[i], xs[j])
  {
    i := 0;
    if |xs| > 1 {
      var later := SortHead(xs[1..], leq);
      assert forall j :: 0 < j < |xs| ==> xs[j] == xs[1..][j - 1];
      assert forall j :: 0 < j < |xs| ==> leq(xs[later + 1], xs[j]);
      if !leq(xs[0], xs[later + 1]) {
        i := later + 1;
      }
    }
  }

  /** Filtering keeps the order. */
  lemma {:induction false} FilterSorted<T>(xs: seq<T>, leq: (T, T) -> bool, keep: T -> bool)
    requires Sorted(xs, leq)
    ensures Sorted(Filter(xs, keep), leq)
  {
    if xs != [] {
      var rest := Filter(xs[1..], keep);
      FilterSorted(xs[1..], leq, keep);
      forall y <- rest
        ensures leq(xs[0], y)
      {
        assert y in xs[1..];
      }
    }
  }

  /** Dictionary order on strings, by code point. */
  predicate TextLeq(a: string, b: string) {
    if a == "" then true
    else if b == "" then false
    else a[0] < b[0] || (a[0] == b[0] && TextLeq(a[1..], b[1..]))
  }

  lemma {:induction false} TextTotal(a: string, b: string)
    ensures TextLeq(a, b) || TextLeq(b, a)
    ensures TextLeq(a, b) && TextLeq(b, a) ==> a == b
  {
    if a != "" && b != "" && a[0] == b[0] {
      TextTotal(a[1..], b[1..]);
      assert a == [a[0]] + a[1..] && b == [b[0]] + b[1..];
    }
  }

  lemma {:induction false} TextTransitive(a: string, b: string, c: string)
    requires TextLeq(a, b) && TextLeq(b, c)
    ensures TextLeq(a, c)
  {
    if a != "" && b != "" && c != "" && a[0] == b[0] && b[0] == c[0] {
      TextTransitive(a[1..], b[1..], c[1..]);
    }
  }

  lemma TextOrder()
    ensures TotalPreorder(TextLeq)
    ensures forall a, b :: TextLeq(a, b) && TextLeq(b, a) ==> a == b
  {
    forall a, b ensures TextLeq(a, b) || TextLeq(b, a) { TextTotal(a, b); }
    forall a, b, c | TextLeq(a, b) && TextLeq(b, c) ensures TextLeq(a, c) { TextTransitive(a, b, c); }
    forall a, b | TextLeq(a, b) && TextLeq(b, a) ensures a == b { TextTotal(a, b); }
  }

  /** One text comes before another exactly when it is its beginning or has the smaller character where they part. */
  lemma {:induction false} TextMeaning(a: string, b: string)
    ensures TextLeq(a, b) <==>
              || a <= b
              || exists n :: 0 <= n < |a| && n < |b| && a[..n] == b[..n] && a[n] < b[n]
  {
    if a != "" && b != "" && a[0] == b[0] {
      TextMeaning(a[1..], b[1..]);
      assert a == [a[0]] + a[1..] && b == [b[0]] + b[1..];
      if n :| 0 <= n < |a[1..]| && n < |b[1..]| && a[1..][..n] == b[1..][..n] && a[1..][n] < b[1..][n] {
        assert a[..n + 1] == [a[0]] + a[1..][..n] && b[..n + 1] == [b[0]] + b[1..][..n];
      }
      if n :| 0 <= n < |a| && n < |b| && a[..n] == b[..n] && a[n] < b[n] {
        assert a[..n][1..] == a[1..][..n - 1] && b[..n][1..] == b[1..][..n - 1];
        assert a[1..][n - 1] < b[1..][n - 1];
      }
    }
  }
}
