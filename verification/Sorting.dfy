/** A stable sort by a strict order given as a function, and the fact that makes
    the choice of algorithm irrelevant: under a strict total order there is only
    one sorted permutation. */
module Sorting {

  function Insert<T>(x: T, sorted: seq<T>, before: (T, T) -> bool): seq<T> {
    if sorted == [] then [x]
    else if before(sorted[0], x) then [sorted[0]] + Insert(x, sorted[1..], before)
    else [x] + sorted
  }

  function Sort<T>(xs: seq<T>, before: (T, T) -> bool): seq<T> {
    if xs == [] then [] else Insert(xs[0], Sort(xs[1..], before), before)
  }

  /** Every earlier element comes before every later one. */
  ghost predicate Ordered<T>(xs: seq<T>, before: (T, T) -> bool) {
    forall i, j :: 0 <= i < j < |xs| ==> before(xs[i], xs[j])
  }

  ghost predicate Irreflexive<T>(dom: set<T>, before: (T, T) -> bool) {
    forall a | a in dom :: !before(a, a)
  }

  ghost predicate Connex<T>(dom: set<T>, before: (T, T) -> bool) {
    forall a, b {:trigger before(a, b)} | a in dom && b in dom && a != b :: before(a, b) != before(b, a)
  }

  ghost predicate Transitive<T>(dom: set<T>, before: (T, T) -> bool) {
    forall a, b, c {:trigger before(a, b), before(b, c)}
      | a in dom && b in dom && c in dom && before(a, b) && before(b, c) :: before(a, c)
  }

  ghost predicate StrictTotalOrder<T>(dom: set<T>, before: (T, T) -> bool) {
    Irreflexive(dom, before) && Connex(dom, before) && Transitive(dom, before)
  }

  ghost predicate Within<T>(xs: seq<T>, dom: set<T>) {
    forall i :: 0 <= i < |xs| ==> xs[i] in dom
  }

  ghost predicate Distinct<T>(xs: seq<T>) {
    forall i, j :: 0 <= i < j < |xs| ==> xs[i] != xs[j]
  }

  lemma {:induction false} InsertPermutes<T>(x: T, sorted: seq<T>, before: (T, T) -> bool)
    ensures multiset(Insert(x, sorted, before)) == multiset(sorted) + multiset{x}
  {
    if sorted != [] {
      assert sorted == [sorted[0]] + sorted[1..];
      if before(sorted[0], x) {
        InsertPermutes(x, sorted[1..], before);
      }
    }
  }

  lemma {:induction false} SortPermutes<T>(xs: seq<T>, before: (T, T) -> bool)
    ensures multiset(Sort(xs, before)) == multiset(xs)
  {
    if xs != [] {
      SortPermutes(xs[1..], before);
      InsertPermutes(xs[0], Sort(xs[1..], before), before);
      assert xs == [xs[0]] + xs[1..];
    }
  }

  lemma {:induction false} InsertOrders<T>(x: T, sorted: seq<T>, before: (T, T) -> bool, dom: set<T>)
    requires StrictTotalOrder(dom, before)
    requires x in dom && Within(sorted, dom)
    requires Ordered(sorted, before) && x !in sorted
    ensures Ordered(Insert(x, sorted, before), before)
  {
    if sorted != [] {
      var head, tail := sorted[0], sorted[1..];
      if before(head, x) {
        InsertOrders(x, tail, before, dom);
        InsertPermutes(x, tail, before);
        var out := Insert(x, tail, before);
        forall j | 0 <= j < |out|
          ensures before(head, out[j])
        {
          assert out[j] in multiset(out);
          assert out[j] == x || out[j] in tail;
          HeadIsFirst(sorted, out[j], before);
        }
      } else {
        forall j | 0 <= j < |sorted|
          ensures before(x, sorted[j])
        {
          assert before(x, head);
          assert j > 0 ==> before(head, sorted[j]);
        }
      }
    }
  }

  lemma {:induction false} HeadIsFirst<T>(xs: seq<T>, y: T, before: (T, T) -> bool)
    requires Ordered(xs, before) && xs != []
    ensures y in xs[1..] ==> before(xs[0], y)
    ensures y in xs ==> y == xs[0] || before(xs[0], y)
  {
    if y in xs[1..] {
      var j :| 0 <= j < |xs[1..]| && xs[1..][j] == y;
      assert before(xs[0], xs[j + 1]);
    }
    if y in xs {
      var j :| 0 <= j < |xs| && xs[j] == y;
    }
  }

  lemma {:induction false} SortOrders<T>(xs: seq<T>, before: (T, T) -> bool, dom: set<T>)
    requires StrictTotalOrder(dom, before)
    requires Distinct(xs) && Within(xs, dom)
    ensures Ordered(Sort(xs, before), before)
    ensures Within(Sort(xs, before), dom)
  {
    if xs != [] {
      var rest := Sort(xs[1..], before);
      SortOrders(xs[1..], before, dom);
      SortPermutes(xs[1..], before);
      assert xs[0] in rest <==> xs[0] in multiset(rest);
      InsertOrders(xs[0], rest, before, dom);
    }
    SortPermutes(xs, before);
    forall i | 0 <= i < |Sort(xs, before)|
      ensures Sort(xs, before)[i] in dom
    {
      assert Sort(xs, before)[i] in multiset(xs);
    }
  }

  lemma {:induction false} TailElements<T>(xs: seq<T>)
    requires xs != []
    ensures xs == [xs[0]] + xs[1..] && multiset(xs[1..]) == multiset(xs) - multiset{xs[0]}
  {
    assert xs == [xs[0]] + xs[1..];
  }

  /** Any sort at all gives the same sequence: two ordered permutations of the same
      elements are equal. */
  lemma {:induction false} SortedUnique<T>(xs: seq<T>, ys: seq<T>, before: (T, T) -> bool, dom: set<T>)
    requires StrictTotalOrder(dom, before) && Within(xs, dom)
    requires multiset(xs) == multiset(ys)
    requires Ordered(xs, before) && Ordered(ys, before)
    ensures xs == ys
  {
    assert |multiset(xs)| == |xs| && |multiset(ys)| == |ys|;
    if xs != [] {
      assert xs[0] in multiset(ys) && ys[0] in multiset(xs);
      HeadIsFirst(xs, ys[0], before);
      HeadIsFirst(ys, xs[0], before);
      assert xs[0] == ys[0];
      TailElements(xs);
      TailElements(ys);
      SortedUnique(xs[1..], ys[1..], before, dom);
    }
  }

  lemma {:induction false} CountsAddUp<T>(xs: seq<T>, i: nat, j: nat)
    requires i < j < |xs| && xs[i] == xs[j]
    ensures multiset(xs)[xs[i]] >= 2
  {
    assert xs == xs[..i] + [xs[i]] + xs[i + 1..j] + [xs[j]] + xs[j + 1..];
  }

  lemma {:induction false} DistinctCounts<T>(xs: seq<T>, x: T)
    requires Distinct(xs)
    ensures multiset(xs)[x] <= 1
  {
    if xs != [] {
      var front, last := xs[..|xs| - 1], xs[|xs| - 1];
      assert xs == front + [last];
      DistinctCounts(front, x);
      if x == last {
        assert x !in front;
        assert x in multiset(front) <==> x in front;
      }
    }
  }

  /** A permutation of distinct elements is distinct. */
  lemma {:induction false} PermutationDistinct<T>(xs: seq<T>, ys: seq<T>)
    requires Distinct(xs) && multiset(xs) == multiset(ys)
    ensures Distinct(ys)
  {
    forall i, j | 0 <= i < j < |ys|
      ensures ys[i] != ys[j]
    {
      DistinctCounts(xs, ys[i]);
      if ys[i] == ys[j] { CountsAddUp(ys, i, j); }
    }
  }

  /** Distinct elements, as many and all among those of another: a permutation. */
  lemma {:induction false} SameElements<T>(xs: seq<T>, ys: seq<T>)
    requires Distinct(xs) && Distinct(ys) && |xs| == |ys|
    requires forall i :: 0 <= i < |xs| ==> xs[i] in ys
    ensures multiset(xs) == multiset(ys)
  {
    var a, b := multiset(xs), multiset(ys);
    forall x
      ensures a[x] <= b[x]
    {
      DistinctCounts(xs, x);
      if x in a { assert x in ys; assert x in b; }
    }
    assert |b - a| == |b| - |a| == 0;
    assert b - a == multiset{};
    forall x
      ensures a[x] == b[x]
    {
      assert (b - a)[x] == b[x] - a[x];
    }
  }

  /** Under a transitive order neighbours are enough. */
  lemma {:induction false} AdjacentOrdered<T>(xs: seq<T>, before: (T, T) -> bool, dom: set<T>, i: nat, j: nat)
    requires Transitive(dom, before) && Within(xs, dom) && i < j < |xs|
    requires forall k :: 0 <= k < |xs| - 1 ==> before(xs[k], xs[k + 1])
    ensures before(xs[i], xs[j])
  {
    if i + 1 < j {
      AdjacentOrdered(xs, before, dom, i, j - 1);
      assert before(xs[j - 1], xs[j - 1 + 1]);
      assert xs[i] in dom && xs[j - 1] in dom && xs[j] in dom;
    }
  }

  lemma {:induction false} OrderedDistinct<T>(xs: seq<T>, before: (T, T) -> bool, dom: set<T>)
    requires Irreflexive(dom, before) && Within(xs, dom) && Ordered(xs, before)
    ensures Distinct(xs)
  {
    forall i, j | 0 <= i < j < |xs| ensures xs[i] != xs[j] {
      assert before(xs[i], xs[j]) && xs[i] in dom;
    }
  }

  /** What is in order already is left alone. */
  lemma {:induction false} SortedStays<T>(xs: seq<T>, before: (T, T) -> bool)
    requires forall i, j :: 0 <= i < j < |xs| ==> !before(xs[j], xs[i])
    ensures Sort(xs, before) == xs
  {
    if xs != [] {
      SortedStays(xs[1..], before);
      assert |xs| > 1 ==> xs[1..][0] == xs[1];
    }
  }
}
