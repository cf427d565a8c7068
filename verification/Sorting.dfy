/**
 `retain`/`filter` and the stable `sort_by_key` of the Rust standard library, as functions on
 sequences. The sort is specified by what makes it the only one: sorted, and the elements of each
 key in their original order.
 */
module Sorting {

  function Filter<T>(xs: seq<T>, keep: T -> bool): (ys: seq<T>)
    ensures |ys| <= |xs|
    ensures forall y :: y in ys ==> y in xs && keep(y)
    ensures forall x :: x in xs && keep(x) ==> x in ys
  {
    if xs == [] then [] else (if keep(xs[0]) then [xs[0]] else []) + Filter(xs[1..], keep)
  }

  lemma {:induction false} FilterOfConcat<T>(xs: seq<T>, ys: seq<T>, keep: T -> bool)
    ensures Filter(xs + ys, keep) == Filter(xs, keep) + Filter(ys, keep)
    decreases |xs|
  {
    if xs == [] {
      assert xs + ys == ys;
    } else {
      assert (xs + ys)[1..] == xs[1..] + ys;
      FilterOfConcat(xs[1..], ys, keep);
    }
  }

  lemma {:induction false} FilterKeepsAll<T>(xs: seq<T>, keep: T -> bool)
    requires forall x :: x in xs ==> keep(x)
    ensures Filter(xs, keep) == xs
    decreases |xs|
  {
    if xs != [] {
      FilterKeepsAll(xs[1..], keep);
    }
  }

  lemma {:induction false} FilterKeepsNone<T>(xs: seq<T>, keep: T -> bool)
    requires forall x :: x in xs ==> !keep(x)
    ensures Filter(xs, keep) == []
    decreases |xs|
  {
    if xs != [] {
      FilterKeepsNone(xs[1..], keep);
    }
  }

  lemma {:induction false} FiltersCommute<T>(xs: seq<T>, p: T -> bool, q: T -> bool)
    ensures Filter(Filter(xs, p), q) == Filter(Filter(xs, q), p)
    decreases |xs|
  {
    if xs != [] {
      FiltersCommute(xs[1..], p, q);
      var head := if p(xs[0]) then [xs[0]] else [];
      FilterOfConcat(head, Filter(xs[1..], p), q);
      var head' := if q(xs[0]) then [xs[0]] else [];
      FilterOfConcat(head', Filter(xs[1..], q), p);
    }
  }

  /** A first filter that lets through everything the second wants changes nothing. */
  lemma {:induction false} FilterAbsorbs<T>(xs: seq<T>, p: T -> bool, q: T -> bool)
    requires forall x :: x in xs && q(x) ==> p(x)
    ensures Filter(Filter(xs, p), q) == Filter(xs, q)
    decreases |xs|
  {
    if xs != [] {
      FilterAbsorbs(xs[1..], p, q);
      var head := if p(xs[0]) then [xs[0]] else [];
      FilterOfConcat(head, Filter(xs[1..], p), q);
    }
  }

  // ---------------------------------------------------------------------------
  // The stable sort
  // ---------------------------------------------------------------------------

  predicate Sorted<T>(xs: seq<T>, key: T -> int) {
    forall i, j :: 0 <= i < j < |xs| ==> key(xs[i]) <= key(xs[j])
  }

  /** `x` before the first element whose key is not smaller. */
  function Insert<T>(x: T, xs: seq<T>, key: T -> int): seq<T> {
    if xs == [] || key(x) <= key(xs[0]) then [x] + xs else [xs[0]] + Insert(x, xs[1..], key)
  }

  function SortBy<T>(xs: seq<T>, key: T -> int): seq<T> {
    if xs == [] then [] else Insert(xs[0], SortBy(xs[1..], key), key)
  }

  lemma {:induction false} InsertKeepsMembers<T>(x: T, xs: seq<T>, key: T -> int)
    ensures |Insert(x, xs, key)| == |xs| + 1
    ensures multiset(Insert(x, xs, key)) == multiset([x] + xs)
    decreases |xs|
  {
    if xs != [] && key(x) > key(xs[0]) {
      InsertKeepsMembers(x, xs[1..], key);
      assert xs == [xs[0]] + xs[1..];
    }
  }

  lemma {:induction false} InsertKeepsSorted<T>(x: T, xs: seq<T>, key: T -> int)
    requires Sorted(xs, key)
    ensures Sorted(Insert(x, xs, key), key)
    decreases |xs|
  {
    if xs != [] && key(x) > key(xs[0]) {
      var tail := xs[1..];
      var rest := Insert(x, tail, key);
      InsertKeepsSorted(x, tail, key);
      InsertKeepsMembers(x, tail, key);
      forall i | 0 <= i < |rest|
        ensures key(xs[0]) <= key(rest[i])
      {
        var y := rest[i];
        assert y in multiset(rest);
        assert y == x || y in tail;
      }
    }
  }

  lemma {:induction false} SortBySorts<T>(xs: seq<T>, key: T -> int)
    ensures Sorted(SortBy(xs, key), key)
    ensures |SortBy(xs, key)| == |xs|
    ensures multiset(SortBy(xs, key)) == multiset(xs)
    decreases |xs|
  {
    if xs != [] {
      var rest := SortBy(xs[1..], key);
      SortBySorts(xs[1..], key);
      InsertKeepsSorted(xs[0], rest, key);
      InsertKeepsMembers(xs[0], rest, key);
      assert xs == [xs[0]] + xs[1..];
    }
  }

  lemma {:induction false} FilterOfInsert<T>(x: T, xs: seq<T>, key: T -> int, keep: T -> bool)
    requires Sorted(xs, key)
    ensures Filter(Insert(x, xs, key), keep)
      == if keep(x) then Insert(x, Filter(xs, keep), key) else Filter(xs, keep)
    decreases |xs|
  {
    if xs == [] || key(x) <= key(xs[0]) {
      assert ([x] + xs)[1..] == xs;
      var kept := Filter(xs, keep);
      if keep(x) && kept != [] {
        assert kept[0] in xs;
      }
    } else {
      FilterOfInsert(x, xs[1..], key, keep);
      assert ([xs[0]] + Insert(x, xs[1..], key))[1..] == Insert(x, xs[1..], key);
      if keep(xs[0]) {
        assert ([xs[0]] + Filter(xs[1..], keep))[1..] == Filter(xs[1..], keep);
      } else {
        assert [] + Filter(xs[1..], keep) == Filter(xs[1..], keep);
      }
    }
  }

  /** A stable sort commutes with leaving elements out. */
  lemma {:induction false} SortCommutesWithFilter<T>(xs: seq<T>, key: T -> int, keep: T -> bool)
    ensures SortBy(Filter(xs, keep), key) == Filter(SortBy(xs, key), keep)
    decreases |xs|
  {
    if xs != [] {
      SortBySorts(xs[1..], key);
      SortCommutesWithFilter(xs[1..], key, keep);
      FilterOfInsert(xs[0], SortBy(xs[1..], key), key, keep);
      if keep(xs[0]) {
        assert ([xs[0]] + Filter(xs[1..], keep))[1..] == Filter(xs[1..], keep);
      } else {
        assert [] + Filter(xs[1..], keep) == Filter(xs[1..], keep);
      }
    }
  }

  function HasKey<T>(key: T -> int, k: int): T -> bool {
    (x: T) => key(x) == k
  }

  /** Elements with the same key keep their order. */
  lemma {:induction false} SortByIsStable<T>(xs: seq<T>, key: T -> int, k: int)
    ensures Filter(SortBy(xs, key), HasKey(key, k)) == Filter(xs, HasKey(key, k))
  {
    var same := Filter(xs, HasKey(key, k));
    SortCommutesWithFilter(xs, key, HasKey(key, k));
    SortOfOneKey(same, key, k);
  }

  lemma {:induction false} SortOfOneKey<T>(xs: seq<T>, key: T -> int, k: int)
    requires forall x :: x in xs ==> key(x) == k
    ensures SortBy(xs, key) == xs
    decreases |xs|
  {
    if xs != [] {
      SortOfOneKey(xs[1..], key, k);
      assert |xs| > 1 ==> xs[1] in xs;
    }
  }

  lemma FilterTail<T>(xs: seq<T>, keep: T -> bool)
    requires xs != []
    ensures Filter(xs[1..], keep) == if keep(xs[0]) then Filter(xs, keep)[1..] else Filter(xs, keep)
  {
  }

  lemma FirstHasItsKey<T>(xs: seq<T>, key: T -> int)
    requires xs != []
    ensures Filter(xs, HasKey(key, key(xs[0]))) != []
  {
  }

  /** Sorted and stable leave no choice: two such arrangements of the same elements are equal. */
  lemma {:induction false} StableSortIsUnique<T(!new)>(xs: seq<T>, ys: seq<T>, key: T -> int)
    requires Sorted(xs, key) && Sorted(ys, key)
    requires forall k: int :: Filter(xs, HasKey(key, k)) == Filter(ys, HasKey(key, k))
    ensures xs == ys
    decreases |xs|
  {
    if xs == [] {
      if ys != [] {
        FirstHasItsKey(ys, key);
      }
    } else {
      var k := key(xs[0]);
      assert xs[0] in Filter(xs, HasKey(key, k));
      assert xs[0] in ys;
      var l := key(ys[0]);
      assert ys[0] in Filter(ys, HasKey(key, l));
      assert ys[0] in xs;
      assert k == l;
      assert Filter(xs, HasKey(key, k))[0] == xs[0];
      assert Filter(ys, HasKey(key, k))[0] == ys[0];
      forall m: int
        ensures Filter(xs[1..], HasKey(key, m)) == Filter(ys[1..], HasKey(key, m))
      {
        assert Filter(xs, HasKey(key, m)) == Filter(ys, HasKey(key, m));
        FilterTail(xs, HasKey(key, m));
        FilterTail(ys, HasKey(key, m));
      }
      StableSortIsUnique(xs[1..], ys[1..], key);
    }
  }
}
