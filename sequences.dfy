/** Sequence helpers shared by the weather core and the trip views: first-seen
    de-duplication (the behaviour of an insertion-ordered Python dict or a
    "seen" set), first occurrence, prefix caps and sorting by an integer key. */
module Sequences {

  /** The distinct elements of `xs`, each once, in the order they are first met. */
  function Distinct<T(==)>(xs: seq<T>): seq<T>
  {
    if xs == [] then []
    else
      var d := Distinct(xs[..|xs| - 1]);
      if xs[|xs| - 1] in d then d else d + [xs[|xs| - 1]]
  }

  /** Position of the first occurrence of `x` in `xs`. */
  function FirstIndex<T(==)>(xs: seq<T>, x: T): (k: nat)
    requires x in xs
    ensures k < |xs| && xs[k] == x
    ensures forall j :: 0 <= j < k ==> xs[j] != x
  {
    var n := |xs| - 1;
    if x in xs[..n] then
      var k := FirstIndex(xs[..n], x);
      assert xs[k] == xs[..n][k];
      k
    else
      assert forall j :: 0 <= j < n ==> xs[j] == xs[..n][j];
      n
  }

  /** The first `n` elements of `xs` (all of them when there are fewer): Python's `xs[:n]`. */
  function Take<T>(xs: seq<T>, n: nat): (r: seq<T>)
    ensures |r| <= n && |r| <= |xs|
    ensures |xs| <= n ==> r == xs
    ensures forall i :: 0 <= i < |r| ==> r[i] == xs[i]
  {
    if |xs| <= n then xs else xs[..n]
  }

  predicate NoDuplicates<T(==)>(xs: seq<T>)
  {
    forall i, j :: 0 <= i < j < |xs| ==> xs[i] != xs[j]
  }

  lemma {:induction false} DistinctContents<T>(xs: seq<T>)
    ensures forall x :: x in Distinct(xs) <==> x in xs
    ensures forall k :: 0 <= k < |Distinct(xs)| ==> Distinct(xs)[k] in xs
    ensures NoDuplicates(Distinct(xs))
    ensures |Distinct(xs)| <= |xs|
  {
    if xs != [] {
      var n := |xs| - 1;
      DistinctContents(xs[..n]);
      assert xs == xs[..n] + [xs[n]];
    }
  }

  /** Extending the input by one element extends the distinct list only by a new element. */
  lemma DistinctSnoc<T>(xs: seq<T>, x: T)
    ensures Distinct(xs + [x]) == if x in xs then Distinct(xs) else Distinct(xs) + [x]
  {
    assert (xs + [x])[..|xs|] == xs;
    DistinctContents(xs);
  }

  /** A non-empty list of one repeated value has that value as its only distinct element. */
  lemma {:induction false} DistinctOfConstant<T>(xs: seq<T>, x: T)
    requires xs != [] && forall k :: 0 <= k < |xs| ==> xs[k] == x
    ensures Distinct(xs) == [x]
  {
    var n := |xs| - 1;
    if n > 0 {
      DistinctOfConstant(xs[..n], x);
    }
  }

  /** Distinct lists its elements in the order of their first occurrence. */
  lemma {:induction false} DistinctFirstSeen<T>(xs: seq<T>, i: nat, j: nat)
    requires i < j < |Distinct(xs)|
    ensures Distinct(xs)[i] in xs && Distinct(xs)[j] in xs
    ensures FirstIndex(xs, Distinct(xs)[i]) < FirstIndex(xs, Distinct(xs)[j])
  {
    DistinctContents(xs);
    var n := |xs| - 1;
    var init := xs[..n];
    var d := Distinct(init);
    DistinctContents(init);
    if xs[n] in d || j < |d| {
      DistinctFirstSeen(init, i, j);
    } else {
      assert Distinct(xs)[j] == xs[n];
      assert d[i] in d && d[i] in init;
      var k := FirstIndex(init, d[i]);
      assert xs[k] == init[k];
    }
  }

  /** Prefix-capped de-duplication: the result of the Python loop that walks `xs`
      and adds an element to a "seen" set when it is new and the set holds fewer
      than `cap` elements. */
  lemma TakeDistinctSnoc<T>(xs: seq<T>, x: T, cap: nat)
    ensures Take(Distinct(xs + [x]), cap) ==
      if x !in Take(Distinct(xs), cap) && |Take(Distinct(xs), cap)| < cap
      then Take(Distinct(xs), cap) + [x]
      else Take(Distinct(xs), cap)
  {
    DistinctSnoc(xs, x);
    DistinctContents(xs);
    var d := Distinct(xs);
    if x in xs {
    } else if |d| < cap {
      assert Take(d, cap) == d;
    } else {
      assert (d + [x])[..cap] == d[..cap];
    }
  }

  /** `xs` is in ascending order of `key`. */
  predicate SortedBy<T>(xs: seq<T>, key: T -> int)
  {
    forall i, j :: 0 <= i < j < |xs| ==> key(xs[i]) <= key(xs[j])
  }

  /** Inserts `x` before the first element whose key is not smaller. */
  function InsertBy<T>(x: T, xs: seq<T>, key: T -> int): seq<T>
  {
    if xs == [] then [x]
    else if key(x) <= key(xs[0]) then [x] + xs
    else [xs[0]] + InsertBy(x, xs[1..], key)
  }

  /** `xs` sorted by ascending `key` (insertion sort; elements with equal keys keep their order). */
  function SortBy<T>(xs: seq<T>, key: T -> int): seq<T>
  {
    if xs == [] then [] else InsertBy(xs[0], SortBy(xs[1..], key), key)
  }

  /** Two elements with equal keys come out in their input order. */
  lemma SortByKeepsTies<T>(x: T, y: T, key: T -> int)
    requires key(x) == key(y)
    ensures SortBy([x, y], key) == [x, y]
  {
    assert [x, y][1..] == [y];
    assert [y][1..] == [];
    assert SortBy([y], key) == [y];
  }

  /** Insertion adds exactly `x` to the elements. */
  lemma {:induction false} InsertByCount<T>(x: T, xs: seq<T>, key: T -> int)
    ensures multiset(InsertBy(x, xs, key)) == multiset(xs) + multiset{x}
  {
    if xs != [] && key(x) > key(xs[0]) {
      InsertByCount(x, xs[1..], key);
      assert xs == [xs[0]] + xs[1..];
    }
  }

  /** Insertion keeps a lower bound on the keys that `x` and `xs` both respect. */
  lemma {:induction false} InsertByBound<T>(x: T, xs: seq<T>, key: T -> int, lo: int)
    requires key(x) >= lo
    requires forall i :: 0 <= i < |xs| ==> key(xs[i]) >= lo
    ensures forall i :: 0 <= i < |InsertBy(x, xs, key)| ==> key(InsertBy(x, xs, key)[i]) >= lo
  {
    if xs != [] && key(x) > key(xs[0]) {
      InsertByBound(x, xs[1..], key, lo);
    }
  }

  lemma {:induction false} InsertBySorted<T>(x: T, xs: seq<T>, key: T -> int)
    requires SortedBy(xs, key)
    ensures SortedBy(InsertBy(x, xs, key), key)
  {
    if xs != [] && key(x) > key(xs[0]) {
      InsertBySorted(x, xs[1..], key);
      InsertByBound(x, xs[1..], key, key(xs[0]));
    }
  }

  /** Sorting yields an ordered permutation of its input. */
  lemma {:induction false} SortBySpec<T>(xs: seq<T>, key: T -> int)
    ensures SortedBy(SortBy(xs, key), key)
    ensures multiset(SortBy(xs, key)) == multiset(xs)
  {
    if xs != [] {
      SortBySpec(xs[1..], key);
      InsertBySorted(xs[0], SortBy(xs[1..], key), key);
      InsertByCount(xs[0], SortBy(xs[1..], key), key);
      assert xs == [xs[0]] + xs[1..];
    }
  }

  /** The elements of `xs` that satisfy `p`, in order (a Python list comprehension with a condition). */
  function Filter<T>(xs: seq<T>, p: T -> bool): (r: seq<T>)
    ensures forall i :: 0 <= i < |r| ==> r[i] in xs && p(r[i])
    ensures forall i :: 0 <= i < |xs| && p(xs[i]) ==> xs[i] in r
    ensures |r| <= |xs|
  {
    if xs == [] then []
    else (if p(xs[0]) then [xs[0]] else []) + Filter(xs[1..], p)
  }

  lemma {:induction false} FilterCount<T>(xs: seq<T>, p: T -> bool)
    ensures forall x :: multiset(Filter(xs, p))[x] == if p(x) then multiset(xs)[x] else 0
  {
    if xs != [] {
      FilterCount(xs[1..], p);
      assert xs == [xs[0]] + xs[1..];
    }
  }

  /** Position of the first element of `xs` with the largest `f`-value: the element
      Python's `max(xs, key=f)` returns, since it keeps the earliest maximum. */
  function FirstMaxIndex<T>(xs: seq<T>, f: T -> int): (m: nat)
    requires xs != []
    ensures m < |xs|
    ensures forall j :: 0 <= j < |xs| ==> f(xs[j]) <= f(xs[m])
    ensures forall j :: 0 <= j < m ==> f(xs[j]) < f(xs[m])
  {
    var n := |xs| - 1;
    if n == 0 then 0
    else
      var b := FirstMaxIndex(xs[..n], f);
      assert forall j :: 0 <= j < n ==> xs[..n][j] == xs[j];
      if f(xs[n]) > f(xs[b]) then n else b
  }

  /** The choice depends only on the `f`-values of the elements. */
  lemma {:induction false} FirstMaxIndexCongruent<T>(xs: seq<T>, f: T -> int, g: T -> int)
    requires xs != []
    requires forall j :: 0 <= j < |xs| ==> f(xs[j]) == g(xs[j])
    ensures FirstMaxIndex(xs, f) == FirstMaxIndex(xs, g)
  {
    var n := |xs| - 1;
    if n > 0 {
      assert forall j :: 0 <= j < n ==> xs[..n][j] == xs[j];
      FirstMaxIndexCongruent(xs[..n], f, g);
    }
  }
}
