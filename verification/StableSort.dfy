/** Python's `sorted(xs, key=..., reverse=True)`: non-increasing keys, and equal keys
    keep their input order. */
module StableSort {
  import opened Lists

  ghost predicate Descending<T>(xs: seq<T>, key: T -> real) {
    forall i, j :: 0 <= i < j < |xs| ==> key(xs[i]) >= key(xs[j])
  }

  /** The elements with key `k`, in order. */
  ghost function KeyClass<T>(xs: seq<T>, key: T -> real, k: real): seq<T> {
    if xs == [] then []
    else (if key(xs[0]) == k then [xs[0]] else []) + KeyClass(xs[1..], key, k)
  }

  lemma DescendingCons<T>(x: T, xs: seq<T>, key: T -> real)
    requires Descending(xs, key) && (xs == [] || key(x) >= key(xs[0]))
    ensures Descending([x] + xs, key)
  {
    forall i, j | 0 <= i < j < |[x] + xs| ensures key(([x] + xs)[i]) >= key(([x] + xs)[j]) {
      assert key(xs[0]) >= key(xs[j - 1]);
    }
  }

  /** `x` goes before the first element whose key is not greater. */
  function Insert<T>(x: T, xs: seq<T>, key: T -> real): seq<T> {
    if xs == [] || key(x) >= key(xs[0]) then [x] + xs else [xs[0]] + Insert(x, xs[1..], key)
  }

  function SortDescending<T>(xs: seq<T>, key: T -> real): seq<T> {
    if xs == [] then [] else Insert(xs[0], SortDescending(xs[1..], key), key)
  }

  lemma {:induction false} InsertDescending<T>(x: T, xs: seq<T>, key: T -> real)
    requires Descending(xs, key)
    ensures Descending(Insert(x, xs, key), key)
    ensures Insert(x, xs, key) != []
    ensures Insert(x, xs, key)[0] == if xs == [] || key(x) >= key(xs[0]) then x else xs[0]
  {
    if xs == [] || key(x) >= key(xs[0]) {
      DescendingCons(x, xs, key);
    } else {
      InsertDescending(x, xs[1..], key);
      DescendingCons(xs[0], Insert(x, xs[1..], key), key);
    }
  }

  lemma {:induction false} InsertMultiset<T>(x: T, xs: seq<T>, key: T -> real)
    ensures multiset(Insert(x, xs, key)) == multiset(xs) + multiset{x}
    ensures |Insert(x, xs, key)| == |xs| + 1
  {
    if xs == [] || key(x) >= key(xs[0]) {
    } else {
      InsertMultiset(x, xs[1..], key);
      assert xs == [xs[0]] + xs[1..];
    }
  }

  lemma {:induction false} SortDescends<T>(xs: seq<T>, key: T -> real)
    ensures Descending(SortDescending(xs, key), key)
  {
    if xs == [] {
    } else {
      SortDescends(xs[1..], key);
      InsertDescending(xs[0], SortDescending(xs[1..], key), key);
    }
  }

  lemma {:induction false} SortPermutes<T>(xs: seq<T>, key: T -> real)
    ensures multiset(SortDescending(xs, key)) == multiset(xs)
    ensures |SortDescending(xs, key)| == |xs|
  {
    if xs == [] {
    } else {
      SortPermutes(xs[1..], key);
      InsertMultiset(xs[0], SortDescending(xs[1..], key), key);
      assert xs == [xs[0]] + xs[1..];
    }
  }

  /** The result is ordered and a permutation of the input. */
  lemma SortOrders<T>(xs: seq<T>, key: T -> real)
    ensures Descending(SortDescending(xs, key), key)
    ensures multiset(SortDescending(xs, key)) == multiset(xs)
    ensures |SortDescending(xs, key)| == |xs|
  {
    SortDescends(xs, key);
    SortPermutes(xs, key);
  }

  lemma KeyClassCons<T>(x: T, xs: seq<T>, key: T -> real, k: real)
    ensures KeyClass([x] + xs, key, k) == (if key(x) == k then [x] else []) + KeyClass(xs, key, k)
  {
    assert ([x] + xs)[1..] == xs;
  }

  lemma {:induction false} InsertKeyClass<T>(x: T, xs: seq<T>, key: T -> real, k: real)
    ensures KeyClass(Insert(x, xs, key), key, k) == (if key(x) == k then [x] else []) + KeyClass(xs, key, k)
  {
    if xs == [] || key(x) >= key(xs[0]) {
      KeyClassCons(x, xs, key, k);
    } else {
      InsertKeyClass(x, xs[1..], key, k);
      KeyClassCons(xs[0], Insert(x, xs[1..], key), key, k);
    }
  }

  lemma {:induction false} SortIsStable<T>(xs: seq<T>, key: T -> real, k: real)
    ensures KeyClass(SortDescending(xs, key), key, k) == KeyClass(xs, key, k)
  {
    if xs == [] {
    } else {
      SortIsStable(xs[1..], key, k);
      InsertKeyClass(xs[0], SortDescending(xs[1..], key), key, k);
    }
  }

  lemma {:induction false} KeyClassElements<T>(xs: seq<T>, key: T -> real, k: real)
    ensures forall x :: x in KeyClass(xs, key, k) <==> x in xs && key(x) == k
  {
    if xs == [] {
    } else {
      assert xs == [xs[0]] + xs[1..];
      KeyClassElements(xs[1..], key, k);
    }
  }

  lemma ClassOfTail<T>(xs: seq<T>, key: T -> real, k: real)
    requires xs != []
    ensures KeyClass(xs[1..], key, k) == KeyClass(xs, key, k)[if key(xs[0]) == k then 1 else 0..]
  {
  }

  /** Order and stability leave only one possible result: `SortDescending` is the only
      function with the two laws above. */
  lemma {:induction false} StableOrderUnique<T(!new)>(xs: seq<T>, ys: seq<T>, key: T -> real)
    requires Descending(xs, key) && Descending(ys, key)
    requires forall k :: KeyClass(xs, key, k) == KeyClass(ys, key, k)
    ensures xs == ys
  {
    if xs == [] {
      if ys != [] {
        HeadInSameClass(ys, xs, key);
      }
    } else {
      var k := key(xs[0]);
      HeadInSameClass(xs, ys, key);
      HeadInSameClass(ys, xs, key);
      assert KeyClass(xs, key, k)[0] == xs[0] && KeyClass(ys, key, k)[0] == ys[0];
      forall l ensures KeyClass(xs[1..], key, l) == KeyClass(ys[1..], key, l) {
        ClassOfTail(xs, key, l);
        ClassOfTail(ys, key, l);
      }
      StableOrderUnique(xs[1..], ys[1..], key);
      assert xs == [xs[0]] + xs[1..] && ys == [ys[0]] + ys[1..];
    }
  }

  lemma HeadInSameClass<T>(xs: seq<T>, ys: seq<T>, key: T -> real)
    requires xs != [] && Descending(ys, key)
    requires KeyClass(xs, key, key(xs[0])) == KeyClass(ys, key, key(xs[0]))
    ensures ys != [] && key(ys[0]) >= key(xs[0])
  {
    KeyClassElements(xs, key, key(xs[0]));
    KeyClassElements(ys, key, key(xs[0]));
    assert xs[0] in ys;
  }

  /** `best` is where `max(xs, key=..)` stops: the first position of the greatest key. */
  ghost predicate LeftmostMax(keys: seq<real>, best: int) {
    && 0 <= best < |keys|
    && (forall i :: 0 <= i < best ==> keys[i] < keys[best])
    && (forall i :: best <= i < |keys| ==> keys[i] <= keys[best])
  }

  /** The head of the sorted list is the leftmost element of greatest key. */
  lemma HeadIsLeftmostMax<T>(xs: seq<T>, key: T -> real, best: int)
    requires LeftmostMax(Map(xs, key), best)
    ensures SortDescending(xs, key) != [] && SortDescending(xs, key)[0] == xs[best]
  {
    var sorted := SortDescending(xs, key);
    SortOrders(xs, key);
    HeadHasGreatestKey(xs, sorted, key, best);
    SortIsStable(xs, key, key(xs[best]));
    FirstOfClass(sorted, key, 0);
    forall i | 0 <= i < best ensures key(xs[i]) != key(xs[best]) {
      assert Map(xs, key)[i] < Map(xs, key)[best];
    }
    FirstOfClass(xs, key, best);
  }

  lemma InSameBag<T>(xs: seq<T>, ys: seq<T>, i: nat) returns (j: nat)
    requires multiset(xs) == multiset(ys) && i < |xs|
    ensures j < |ys| && ys[j] == xs[i]
  {
    assert xs[i] in multiset(ys);
    j :| 0 <= j < |ys| && ys[j] == xs[i];
  }

  lemma HeadHasGreatestKey<T>(xs: seq<T>, sorted: seq<T>, key: T -> real, best: int)
    requires LeftmostMax(Map(xs, key), best)
    requires Descending(sorted, key) && multiset(sorted) == multiset(xs)
    ensures sorted != [] && key(sorted[0]) == key(xs[best])
  {
    var j := InSameBag(xs, sorted, best);
    var i := InSameBag(sorted, xs, 0);
    assert Map(xs, key)[i] <= Map(xs, key)[best];
    assert j > 0 ==> key(sorted[0]) >= key(sorted[j]);
  }

  lemma {:induction false} FirstOfClass<T>(xs: seq<T>, key: T -> real, first: nat)
    requires first < |xs|
    requires forall i :: 0 <= i < first ==> key(xs[i]) != key(xs[first])
    ensures KeyClass(xs, key, key(xs[first])) != [] && KeyClass(xs, key, key(xs[first]))[0] == xs[first]
  {
    if first == 0 {
    } else {
      FirstOfClass(xs[1..], key, first - 1);
    }
  }
}
