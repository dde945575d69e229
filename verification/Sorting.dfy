/** Stable sorting by a numeric rank, as the library sort does it. */
module Sorting {

  ghost predicate SortedBy<T>(rank: T -> int, xs: seq<T>) {
    forall k, m :: 0 <= k < m < |xs| ==> rank(xs[k]) <= rank(xs[m])
  }

  ghost predicate StrictlySortedBy<T>(rank: T -> int, xs: seq<T>) {
    forall k, m :: 0 <= k < m < |xs| ==> rank(xs[k]) < rank(xs[m])
  }

  function Insert<T>(rank: T -> int, x: T, xs: seq<T>): seq<T> {
    if xs == [] || rank(x) <= rank(xs[0]) then [x] + xs
    else [xs[0]] + Insert(rank, x, xs[1..])
  }

  function Sort<T>(rank: T -> int, xs: seq<T>): seq<T> {
    if xs == [] then [] else Insert(rank, xs[0], Sort(rank, xs[1..]))
  }

  lemma HeadAndTail<T>(xs: seq<T>)
    requires xs != []
    ensures multiset(xs) == multiset{xs[0]} + multiset(xs[1..])
  {
    assert xs == [xs[0]] + xs[1..];
  }

  lemma {:induction false} InsertAdds<T>(rank: T -> int, x: T, xs: seq<T>)
    ensures multiset(Insert(rank, x, xs)) == multiset{x} + multiset(xs)
  {
    if xs == [] || rank(x) <= rank(xs[0]) {
    } else {
      HeadAndTail(xs);
      InsertAdds(rank, x, xs[1..]);
    }
  }

  lemma SortedFrom<T>(rank: T -> int, x: T, xs: seq<T>)
    requires SortedBy(rank, xs) && forall y :: y in xs ==> rank(x) <= rank(y)
    ensures SortedBy(rank, [x] + xs)
  {
    var all := [x] + xs;
    forall k, m | 0 <= k < m < |all|
      ensures rank(all[k]) <= rank(all[m])
    {
      assert all[m] == xs[m - 1] && xs[m - 1] in xs;
      assert k > 0 ==> all[k] == xs[k - 1];
    }
  }

  lemma HeadIsLeast<T>(rank: T -> int, xs: seq<T>)
    requires SortedBy(rank, xs) && xs != []
    ensures forall y :: y in xs ==> rank(xs[0]) <= rank(y)
    ensures SortedBy(rank, xs[1..])
  {
  }

  lemma {:induction false} InsertIsCorrect<T>(rank: T -> int, x: T, xs: seq<T>)
    requires SortedBy(rank, xs)
    ensures SortedBy(rank, Insert(rank, x, xs))
  {
    if xs == [] {
    } else {
      HeadIsLeast(rank, xs);
      if rank(x) <= rank(xs[0]) {
        SortedFrom(rank, x, xs);
      } else {
        var rest := Insert(rank, x, xs[1..]);
        InsertIsCorrect(rank, x, xs[1..]);
        InsertAdds(rank, x, xs[1..]);
        forall y | y in rest
          ensures rank(xs[0]) <= rank(y)
        {
          assert y in multiset(rest);
          assert y == x || y in xs[1..];
        }
        SortedFrom(rank, xs[0], rest);
      }
    }
  }

  /** Sorting yields an ordered permutation. */
  lemma {:induction false} SortIsCorrect<T>(rank: T -> int, xs: seq<T>)
    ensures SortedBy(rank, Sort(rank, xs)) && multiset(Sort(rank, xs)) == multiset(xs)
  {
    if xs == [] {
    } else {
      SortIsCorrect(rank, xs[1..]);
      InsertIsCorrect(rank, xs[0], Sort(rank, xs[1..]));
      InsertAdds(rank, xs[0], Sort(rank, xs[1..]));
      HeadAndTail(xs);
    }
  }

  lemma SameHead<T>(rank: T -> int, xs: seq<T>, ys: seq<T>)
    requires StrictlySortedBy(rank, xs) && SortedBy(rank, ys) && multiset(ys) == multiset(xs) && xs != []
    ensures ys != [] && ys[0] == xs[0]
  {
    assert xs[0] in multiset(ys);
    assert ys[0] in multiset(xs);
    var k :| 0 <= k < |ys| && ys[k] == xs[0];
    var m :| 0 <= m < |xs| && xs[m] == ys[0];
  }

  /** There is only one way to order elements of distinct rank. */
  lemma {:induction false} SortedIsUnique<T>(rank: T -> int, xs: seq<T>, ys: seq<T>)
    requires StrictlySortedBy(rank, xs) && SortedBy(rank, ys) && multiset(ys) == multiset(xs)
    ensures ys == xs
  {
    if xs == [] {
      assert |multiset(ys)| == |ys|;
    } else {
      SameHead(rank, xs, ys);
      HeadAndTail(xs);
      HeadAndTail(ys);
      assert multiset(xs[1..]) == multiset(xs) - multiset{xs[0]};
      assert multiset(ys[1..]) == multiset(ys) - multiset{xs[0]};
      SortedIsUnique(rank, xs[1..], ys[1..]);
    }
  }
}
