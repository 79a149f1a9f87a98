/** Python's `sorted(xs, key=key, reverse=True)`: highest key first, ties in their incoming order. */
module Ordering {

  function InsertDesc<T>(xs: seq<T>, x: T, key: T -> real): seq<T> {
    if xs == [] then [x]
    else
      var last := xs[|xs| - 1];
      if key(last) >= key(x) then xs + [x] else InsertDesc(xs[..|xs| - 1], x, key) + [last]
  }

  function SortDesc<T>(xs: seq<T>, key: T -> real): seq<T> {
    if xs == [] then [] else InsertDesc(SortDesc(xs[..|xs| - 1], key), xs[|xs| - 1], key)
  }

  predicate Descending<T>(xs: seq<T>, key: T -> real) {
    forall i, j :: 0 <= i < j < |xs| ==> key(xs[i]) >= key(xs[j])
  }

  predicate Pairwise<T>(xs: seq<T>, before: (T, T) -> bool) {
    forall i, j :: 0 <= i < j < |xs| ==> before(xs[i], xs[j])
  }

  /** `before` orders `x`, which comes later, against everything in `xs`: by key, ties by arrival. */
  ghost predicate Decides<T(!new)>(xs: seq<T>, x: T, key: T -> real, before: (T, T) -> bool) {
    forall y :: y in xs ==> if key(y) >= key(x) then before(y, x) else before(x, y)
  }

  lemma {:induction false} InsertMembers<T(!new)>(xs: seq<T>, x: T, key: T -> real)
    ensures multiset(InsertDesc(xs, x, key)) == multiset(xs) + multiset{x} && |InsertDesc(xs, x, key)| == |xs| + 1
    ensures forall y :: y in InsertDesc(xs, x, key) <==> y in xs || y == x
  {
    if xs != [] {
      var init, last := xs[..|xs| - 1], xs[|xs| - 1];
      assert xs == init + [last];
      InsertMembers(init, x, key);
    }
  }

  lemma PairwiseSnoc<T(!new)>(xs: seq<T>, x: T, before: (T, T) -> bool)
    requires Pairwise(xs, before) && forall y :: y in xs ==> before(y, x)
    ensures Pairwise(xs + [x], before)
  {
  }

  lemma {:induction false} InsertOrders<T(!new)>(xs: seq<T>, x: T, key: T -> real, before: (T, T) -> bool)
    requires Descending(xs, key) && Pairwise(xs, before) && Decides(xs, x, key, before)
    ensures Descending(InsertDesc(xs, x, key), key) && Pairwise(InsertDesc(xs, x, key), before)
  {
    if xs == [] {
    } else if key(xs[|xs| - 1]) >= key(x) {
      assert forall y :: y in xs ==> key(y) >= key(x);
      PairwiseSnoc(xs, x, before);
    } else {
      var init, last := xs[..|xs| - 1], xs[|xs| - 1];
      assert forall y :: y in init ==> y in xs;
      InsertOrders(init, x, key, before);
      InsertMembers(init, x, key);
      assert forall y :: y in init ==> key(y) >= key(last) && before(y, last);
      assert last in xs;
      hide InsertDesc, Decides;
      PairwiseSnoc(InsertDesc(init, x, key), last, before);
      DescendingSnoc(InsertDesc(init, x, key), last, key);
      InsertLeft(xs, x, key);
    }
  }

  lemma DescendingSnoc<T(!new)>(xs: seq<T>, x: T, key: T -> real)
    requires Descending(xs, key) && forall y :: y in xs ==> key(y) >= key(x)
    ensures Descending(xs + [x], key)
  {
  }

  lemma InsertLeft<T(!new)>(xs: seq<T>, x: T, key: T -> real)
    requires xs != [] && key(xs[|xs| - 1]) < key(x)
    ensures InsertDesc(xs, x, key) == InsertDesc(xs[..|xs| - 1], x, key) + [xs[|xs| - 1]]
  {
  }

  /** Sorting is a permutation, highest key first, and stable: any relation that orders every two
      elements by key, and by arrival on ties, holds all along the result. */
  lemma {:induction false} SortIsStable<T(!new)>(xs: seq<T>, key: T -> real, before: (T, T) -> bool)
    requires forall j :: 0 <= j < |xs| ==> Decides(xs[..j], xs[j], key, before)
    ensures Descending(SortDesc(xs, key), key) && Pairwise(SortDesc(xs, key), before)
    ensures multiset(SortDesc(xs, key)) == multiset(xs) && |SortDesc(xs, key)| == |xs|
    ensures forall y :: y in SortDesc(xs, key) <==> y in xs
  {
    if xs != [] {
      var init, last := xs[..|xs| - 1], xs[|xs| - 1];
      assert xs == init + [last];
      assert forall j :: 0 <= j < |init| ==> init[..j] == xs[..j] && init[j] == xs[j];
      SortIsStable(init, key, before);
      assert Decides(init, last, key, before);
      InsertOrders(SortDesc(init, key), last, key, before);
      InsertMembers(SortDesc(init, key), last, key);
    }
  }

  function Map<S, T>(xs: seq<S>, f: S -> T): seq<T> {
    seq(|xs|, i requires 0 <= i < |xs| => f(xs[i]))
  }

  lemma {:induction false} InsertMap<S, T>(xs: seq<S>, x: S, f: S -> T, key: T -> real, via: S -> real)
    requires forall s :: via(s) == key(f(s))
    ensures InsertDesc(Map(xs, f), f(x), key) == Map(InsertDesc(xs, x, via), f)
  {
    if xs == [] {
    } else if via(xs[|xs| - 1]) >= via(x) {
      assert Map(xs + [x], f) == Map(xs, f) + [f(x)];
    } else {
      var init := xs[..|xs| - 1];
      InsertMap(init, x, f, key, via);
      assert Map(xs, f)[..|xs| - 1] == Map(init, f);
      assert Map(InsertDesc(init, x, via) + [xs[|xs| - 1]], f) == Map(InsertDesc(init, x, via), f) + [f(xs[|xs| - 1])];
    }
  }

  /** Sorting commutes with a map that keeps the keys. */
  lemma {:induction false} SortMap<S, T>(xs: seq<S>, f: S -> T, key: T -> real, via: S -> real)
    requires forall s :: via(s) == key(f(s))
    ensures SortDesc(Map(xs, f), key) == Map(SortDesc(xs, via), f)
  {
    if xs != [] {
      var init := xs[..|xs| - 1];
      SortMap(init, f, key, via);
      assert Map(xs, f)[..|xs| - 1] == Map(init, f);
      InsertMap(SortDesc(init, via), xs[|xs| - 1], f, key, via);
    }
  }

  /** A strict order has one arrangement of a set of elements. */
  lemma {:induction false} OneArrangement<T(!new)>(a: seq<T>, b: seq<T>, before: (T, T) -> bool)
    requires Pairwise(a, before) && Pairwise(b, before)
    requires forall x, y :: before(x, y) ==> !before(y, x) && x != y
    requires forall x :: x in a <==> x in b
    ensures a == b
    decreases |a|
  {
    assert b == [] || b[0] in b;
    if a != [] {
      assert a[0] in b && b[0] in a;
      FirstIsFirst(a, b, before);
      var x := a[0];
      assert forall y :: y in a[1..] <==> y in a && y != x;
      assert forall y :: y in b[1..] <==> y in b && y != x;
      OneArrangement(a[1..], b[1..], before);
    }
  }

  lemma FirstIsFirst<T(!new)>(a: seq<T>, b: seq<T>, before: (T, T) -> bool)
    requires a != [] && Pairwise(a, before) && Pairwise(b, before) && b != [] && a[0] in b && b[0] in a
    requires forall x, y :: before(x, y) ==> !before(y, x) && x != y
    ensures a[0] == b[0]
  {
    var i :| 0 <= i < |b| && b[i] == a[0];
    var j :| 0 <= j < |a| && a[j] == b[0];
  }
}
