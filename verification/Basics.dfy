/** Small vocabulary shared by every component of the model. */
module Basics {

  datatype Option<+T> = None | Some(value: T)

  datatype Result<+T, +E> = Ok(value: T) | Err(error: E)

  /** A list comprehension with a guard, in list order. */
  function Filter<T>(xs: seq<T>, keep: T -> bool): (ys: seq<T>)
    ensures forall y <- ys :: y in xs && keep(y)
    ensures forall x <- xs :: keep(x) ==> x in ys
  {
    if xs == [] then []
    else (if keep(xs[0]) then [xs[0]] else []) + Filter(xs[1..], keep)
  }

  lemma {:induction false} FilterConcat<T>(xs: seq<T>, ys: seq<T>, keep: T -> bool)
    ensures Filter(xs + ys, keep) == Filter(xs, keep) + Filter(ys, keep)
  {
    if xs == [] {
      assert xs + ys == ys;
    } else {
      assert (xs + ys)[1..] == xs[1..] + ys;
      FilterConcat(xs[1..], ys, keep);
    }
  }

  lemma {:induction false} FilterNone<T>(xs: seq<T>, keep: T -> bool)
    requires forall x <- xs :: !keep(x)
    ensures Filter(xs, keep) == []
  {
    if xs != [] {
      FilterNone(xs[1..], keep);
    }
  }

  lemma {:induction false} FilterAll<T>(xs: seq<T>, keep: T -> bool)
    requires forall x <- xs :: keep(x)
    ensures Filter(xs, keep) == xs
  {
    if xs != [] {
      FilterAll(xs[1..], keep);
    }
  }

  lemma FilterMiddle<T>(a: seq<T>, b: seq<T>, c: seq<T>, keep: T -> bool)
    requires forall x <- a :: !keep(x)
    requires forall x <- b :: keep(x)
    requires forall x <- c :: !keep(x)
    ensures Filter(a + b + c, keep) == b
  {
    hide Filter;
    FilterConcat(a + b, c, keep);
    FilterConcat(a, b, keep);
    FilterNone(a, keep);
    FilterAll(b, keep);
    FilterNone(c, keep);
  }

  lemma FilterOne<T>(x: T, keep: T -> bool)
    ensures Filter([x], keep) == if keep(x) then [x] else []
    ensures Filter([], keep) == []
  {
    assert [x][1..] == [];
  }

  lemma FilterSplice<T>(a: seq<T>, x: T, b: seq<T>, keep: T -> bool)
    ensures multiset(Filter(a + [x] + b, keep)) == multiset(Filter([x], keep)) + multiset(Filter(a + b, keep))
  {
    FilterConcat(a + [x], b, keep);
    FilterConcat(a, [x], keep);
    FilterConcat(a, b, keep);
  }

  lemma RemoveFirst<T>(xs: seq<T>, a: seq<T>, b: seq<T>)
    requires xs != [] && multiset(xs) == multiset(a + [xs[0]] + b)
    ensures multiset(xs[1..]) == multiset(a + b)
  {
    assert xs == [xs[0]] + xs[1..];
    assert multiset(xs[1..]) == multiset(xs) - multiset{xs[0]};
    assert multiset(a + [xs[0]] + b) == multiset(a + b) + multiset{xs[0]};
    assert multiset(a + b) == multiset(a + [xs[0]] + b) - multiset{xs[0]};
  }

  /** Filtering commutes with reordering. */
  lemma {:induction false} FilterPermutation<T>(xs: seq<T>, ys: seq<T>, keep: T -> bool)
    requires multiset(xs) == multiset(ys)
    ensures multiset(Filter(xs, keep)) == multiset(Filter(ys, keep))
  {
    hide Filter;
    if xs == [] {
      assert |multiset(ys)| == |ys|;
      assert ys == [];
    } else {
      assert xs[0] in multiset(xs);
      var i := Occurrence(xs[0], ys);
      var a, b := ys[..i], ys[i + 1..];
      assert ys == a + [xs[0]] + b;
      RemoveFirst(xs, a, b);
      FilterPermutation(xs[1..], a + b, keep);
      FilterSplice(a, xs[0], b, keep);
      FilterSplice([], xs[0], xs[1..], keep);
      assert [] + [xs[0]] + xs[1..] == xs && [] + xs[1..] == xs[1..];
    }
  }

  lemma Occurrence<T>(x: T, ys: seq<T>) returns (i: nat)
    requires x in multiset(ys)
    ensures i < |ys| && ys[i] == x
  {
    i :| 0 <= i < |ys| && ys[i] == x;
  }

  lemma PermutationMembers<T>(xs: seq<T>, ys: seq<T>)
    requires multiset(xs) == multiset(ys)
    ensures |xs| == |ys|
    ensures forall x :: x in xs <==> x in ys
  {
    assert |multiset(xs)| == |multiset(ys)|;
    forall x
      ensures x in xs <==> x in ys
    {
      assert x in xs <==> x in multiset(xs);
      assert x in ys <==> x in multiset(ys);
    }
  }

  function Sum(xs: seq<int>): (total: int)
  {
    if xs == [] then 0 else xs[0] + Sum(xs[1..])
  }

  lemma {:induction false} SumConcat(xs: seq<int>, ys: seq<int>)
    ensures Sum(xs + ys) == Sum(xs) + Sum(ys)
  {
    if xs == [] {
      assert xs + ys == ys;
    } else {
      assert (xs + ys)[1..] == xs[1..] + ys;
      SumConcat(xs[1..], ys);
    }
  }

  /** An element-wise list comprehension. */
  function Map<S, T>(f: S -> T, xs: seq<S>): (ys: seq<T>)
    ensures |ys| == |xs|
    ensures forall i :: 0 <= i < |xs| ==> ys[i] == f(xs[i])
  {
    if xs == [] then [] else [f(xs[0])] + Map(f, xs[1..])
  }

  /** Nested loops that append: everything `f` yields for each element, in order. */
  function FlatMap<S, T>(f: S -> seq<T>, xs: seq<S>): seq<T> {
    if xs == [] then [] else FlatMap(f, xs[..|xs| - 1]) + f(xs[|xs| - 1])
  }

  lemma FlatMapStep<S, T>(f: S -> seq<T>, xs: seq<S>, n: nat)
    requires n < |xs|
    ensures FlatMap(f, xs[..n + 1]) == FlatMap(f, xs[..n]) + f(xs[n])
  {
    assert xs[..n + 1][..n] == xs[..n];
  }

  lemma {:induction false} FlatMapConcat<S, T>(f: S -> seq<T>, xs: seq<S>, ys: seq<S>)
    ensures FlatMap(f, xs + ys) == FlatMap(f, xs) + FlatMap(f, ys)
    decreases |ys|
  {
    if ys == [] {
      assert xs + ys == xs;
    } else {
      var front := ys[..|ys| - 1];
      assert (xs + ys)[..|xs + ys| - 1] == xs + front;
      FlatMapConcat(f, xs, front);
    }
  }

  lemma FlatMapSplice<S, T>(f: S -> seq<T>, a: seq<S>, x: S, b: seq<S>)
    ensures multiset(FlatMap(f, a + [x] + b)) == multiset(f(x)) + multiset(FlatMap(f, a + b))
  {
    FlatMapConcat(f, a + [x], b);
    FlatMapConcat(f, a, [x]);
    FlatMapConcat(f, a, b);
    assert FlatMap(f, [x]) == f(x) by {
      FlatMapStep(f, [x], 0);
      assert [x][..1] == [x] && [x][..0] == [];
    }
  }

  /** Nested loops collect the same rows whatever the order of the outer list and of each inner one. */
  lemma {:induction false} FlatMapPermutation<S, T>(f: S -> seq<T>, g: S -> seq<T>, xs: seq<S>, ys: seq<S>)
    requires multiset(xs) == multiset(ys)
    requires forall x <- xs :: multiset(f(x)) == multiset(g(x))
    ensures multiset(FlatMap(f, xs)) == multiset(FlatMap(g, ys))
    decreases |xs|
  {
    hide FlatMap;
    if xs == [] {
      assert |multiset(ys)| == |ys|;
      assert ys == [];
      EmptyFlatMap(f);
      EmptyFlatMap(g);
    } else {
      assert xs[0] in multiset(xs);
      var i := Occurrence(xs[0], ys);
      var a, b := ys[..i], ys[i + 1..];
      assert ys == a + [xs[0]] + b;
      RemoveFirst(xs, a, b);
      FlatMapPermutation(f, g, xs[1..], a + b);
      FlatMapSplice(g, a, xs[0], b);
      FlatMapSplice(f, [], xs[0], xs[1..]);
      assert [] + [xs[0]] + xs[1..] == xs && [] + xs[1..] == xs[1..];
    }
  }

  lemma EmptyFlatMap<S, T>(f: S -> seq<T>)
    ensures FlatMap(f, []) == []
  {
  }

  lemma {:induction false} MapAsFlatMap<S, T>(f: S -> T, xs: seq<S>)
    ensures Map(f, xs) == FlatMap((x: S) => [f(x)], xs)
    decreases |xs|
  {
    if xs != [] {
      MapAsFlatMap(f, xs[..|xs| - 1]);
      assert Map(f, xs) == Map(f, xs[..|xs| - 1]) + [f(xs[|xs| - 1])];
    }
  }

  lemma MapPermutation<S, T>(f: S -> T, xs: seq<S>, ys: seq<S>)
    requires multiset(xs) == multiset(ys)
    ensures multiset(Map(f, xs)) == multiset(Map(f, ys))
  {
    hide Map, FlatMap;
    MapAsFlatMap(f, xs);
    MapAsFlatMap(f, ys);
    FlatMapPermutation((x: S) => [f(x)], (x: S) => [f(x)], xs, ys);
  }

  lemma {:induction false} FilterCongruence<T>(xs: seq<T>, f: T -> bool, g: T -> bool)
    requires forall x <- xs :: f(x) == g(x)
    ensures Filter(xs, f) == Filter(xs, g)
  {
    if xs != [] {
      FilterCongruence(xs[1..], f, g);
    }
  }

  lemma SameCount<T>(xs: seq<T>, ys: seq<T>)
    requires multiset(xs) == multiset(ys)
    ensures |xs| == |ys|
  {
    PermutationMembers(xs, ys);
  }

  /** The distinct elements, in order of first appearance. */
  function Distinct<T(==)>(xs: seq<T>): (ys: seq<T>)
    ensures forall y <- ys :: y in xs
    ensures forall x <- xs :: x in ys
    ensures forall i, j :: 0 <= i < j < |ys| ==> ys[i] != ys[j]
  {
    if xs == [] then []
    else
      var front, last := xs[..|xs| - 1], xs[|xs| - 1];
      assert xs == front + [last];
      var ys := Distinct(front);
      if last in ys then ys else ys + [last]
  }

  lemma DistinctGrows<T>(xs: seq<T>, x: T)
    ensures Distinct(xs + [x]) == if x in xs then Distinct(xs) else Distinct(xs) + [x]
  {
    assert (xs + [x])[..|xs|] == xs;
  }

  lemma {:induction false} OnceEach<T>(xs: seq<T>, x: T)
    requires forall i, j :: 0 <= i < j < |xs| ==> xs[i] != xs[j]
    ensures multiset(xs)[x] <= 1
  {
    if xs != [] {
      OnceEach(xs[1..], x);
      assert xs == [xs[0]] + xs[1..];
      assert xs[0] !in xs[1..];
    }
  }

  lemma Twice<T>(ys: seq<T>, i: nat, j: nat)
    requires i < j < |ys| && ys[i] == ys[j]
    ensures multiset(ys)[ys[i]] >= 2
  {
    assert ys == ys[..j] + ys[j..];
    assert ys[..j][i] == ys[i] && ys[j..][0] == ys[j];
    assert ys[i] in multiset(ys[..j]) && ys[i] in multiset(ys[j..]);
  }

  /** A reordering of distinct elements has distinct elements. */
  lemma NoRepeats<T>(xs: seq<T>, ys: seq<T>)
    requires forall i, j :: 0 <= i < j < |xs| ==> xs[i] != xs[j]
    requires multiset(xs) == multiset(ys)
    ensures forall i, j :: 0 <= i < j < |ys| ==> ys[i] != ys[j]
  {
    forall i, j | 0 <= i < j < |ys|
      ensures ys[i] != ys[j]
    {
      OnceEach(xs, ys[i]);
      if ys[i] == ys[j] {
        Twice(ys, i, j);
        assert false;
      }
    }
  }

  lemma {:induction false} FlatMapMembers<S, T>(f: S -> seq<T>, xs: seq<S>, y: T)
    ensures y in FlatMap(f, xs) <==> exists x <- xs :: y in f(x)
    decreases |xs|
  {
    if xs != [] {
      FlatMapMembers(f, xs[..|xs| - 1], y);
      assert xs == xs[..|xs| - 1] + [xs[|xs| - 1]];
    }
  }

  lemma MapMembers<S, T>(f: S -> T, xs: seq<S>, y: T)
    ensures y in Map(f, xs) <==> exists x <- xs :: f(x) == y
  {
    hide Map;
    if y in Map(f, xs) {
      var i :| 0 <= i < |xs| && Map(f, xs)[i] == y;
      assert f(xs[i]) == y && xs[i] in xs;
    }
    if exists x <- xs :: f(x) == y {
      var x :| x in xs && f(x) == y;
      var i :| 0 <= i < |xs| && xs[i] == x;
      assert Map(f, xs)[i] == y;
    }
  }
}
