/** Sequence combinators the other modules share, each with the one law about
    concatenation that loops over a sequence need. */
module Lists {

  datatype Option<+T> = None | Some(value: T)

  /** `[x for x in xs if keep(x)]` */
  function Filter<T>(xs: seq<T>, keep: T -> bool): seq<T> {
    if xs == [] then []
    else if keep(xs[0]) then [xs[0]] + Filter(xs[1..], keep)
    else Filter(xs[1..], keep)
  }

  /** `[f(x) for x in xs]` */
  function Map<S, T>(xs: seq<S>, f: S -> T): (ys: seq<T>)
    ensures |ys| == |xs|
    ensures forall i :: 0 <= i < |xs| ==> ys[i] == f(xs[i])
  {
    seq(|xs|, i requires 0 <= i < |xs| => f(xs[i]))
  }

  lemma {:induction false} FilterConcat<T>(xs: seq<T>, ys: seq<T>, keep: T -> bool)
    ensures Filter(xs + ys, keep) == Filter(xs, keep) + Filter(ys, keep)
  {
    if xs == [] {
      assert xs + ys == ys;
    } else {
      assert (xs + ys)[1..] == xs[1..] + ys;
      FilterConcat(xs[1..], ys, keep);
    }
  }

  /** A filter keeps exactly the elements its test accepts. */
  lemma {:induction false} FilterElements<T>(xs: seq<T>, keep: T -> bool)
    ensures |Filter(xs, keep)| <= |xs|
    ensures forall x :: x in Filter(xs, keep) <==> x in xs && keep(x)
  {
    if xs == [] {
    } else {
      assert xs == [xs[0]] + xs[1..];
      FilterElements(xs[1..], keep);
    }
  }

  lemma {:induction false} NothingKept<T>(xs: seq<T>, keep: T -> bool)
    ensures Filter(xs, keep) == [] <==> forall i :: 0 <= i < |xs| ==> !keep(xs[i])
  {
    if xs == [] {
    } else {
      NothingKept(xs[1..], keep);
      assert forall i :: 0 <= i < |xs| - 1 ==> xs[1..][i] == xs[i + 1];
      assert (forall i :: 0 <= i < |xs| ==> !keep(xs[i])) ==> forall i :: 0 <= i < |xs| - 1 ==> !keep(xs[1..][i]);
      assert forall i :: 0 < i < |xs| ==> xs[i] == xs[1..][i - 1];
    }
  }

  lemma MapConcat<S, T>(xs: seq<S>, ys: seq<S>, f: S -> T)
    ensures Map(xs + ys, f) == Map(xs, f) + Map(ys, f)
  {
  }

  /** `xs` without the element at position `i` */
  function Without<T>(xs: seq<T>, i: nat): (r: seq<T>)
    requires i < |xs|
    ensures |r| == |xs| - 1
  {
    xs[..i] + xs[i + 1..]
  }

  lemma WithoutMultiset<T>(xs: seq<T>, i: nat)
    requires i < |xs|
    ensures multiset(xs) == multiset(Without(xs, i)) + multiset{xs[i]}
    ensures multiset(Without(xs, i)) == multiset(xs) - multiset{xs[i]}
  {
    var before, after := xs[..i], xs[i + 1..];
    assert xs == before + [xs[i]] + after;
    assert multiset(before + [xs[i]] + after) == multiset(before + [xs[i]]) + multiset(after);
  }

  lemma MatchHead<T>(xs: seq<T>, ys: seq<T>) returns (i: nat)
    requires xs != [] && multiset(xs) == multiset(ys)
    ensures i < |ys| && ys[i] == xs[0] && multiset(xs[1..]) == multiset(Without(ys, i))
  {
    assert xs[0] in multiset(ys);
    i :| 0 <= i < |ys| && ys[i] == xs[0];
    WithoutMultiset(xs, 0);
    WithoutMultiset(ys, i);
    assert Without(xs, 0) == xs[1..];
  }

  lemma ConcatAssociates<T>(xs: seq<T>, ys: seq<T>, zs: seq<T>)
    ensures xs + (ys + zs) == xs + ys + zs
  {
  }

  /** Every element contributes some items, which may depend on the position the first of
      them lands at; the items of the first element land at `n`. */
  function LaidOut<S, T>(xs: seq<S>, n: nat, items: (nat, S) -> seq<T>): seq<T> {
    if xs == [] then []
    else
      var before := LaidOut(xs[..|xs| - 1], n, items);
      before + items(n + |before|, xs[|xs| - 1])
  }

  lemma LaidOutSnoc<S, T>(xs: seq<S>, x: S, n: nat, items: (nat, S) -> seq<T>)
    ensures LaidOut(xs + [x], n, items) == LaidOut(xs, n, items) + items(n + |LaidOut(xs, n, items)|, x)
  {
    assert (xs + [x])[..|xs|] == xs;
  }

  lemma LaidOutAfter<S, T>(start: seq<T>, xs: seq<S>, x: S, items: (nat, S) -> seq<T>)
    ensures var before := start + LaidOut(xs, |start|, items);
            start + LaidOut(xs + [x], |start|, items) == before + items(|before|, x)
  {
    var laid, all := LaidOut(xs, |start|, items), LaidOut(xs + [x], |start|, items);
    var more := items(|start| + |laid|, x);
    assert all == laid + more by {
      LaidOutSnoc(xs, x, |start|, items);
    }
    ConcatAssociates(start, laid, more);
    assert |start + laid| == |start| + |laid|;
  }

  /** What holds of no items and is kept by the items of one more element holds of all. */
  lemma {:induction false} LaidOutInduction<S(!new), T(!new)>(
    xs: seq<S>, n: nat, items: (nat, S) -> seq<T>, good: (seq<S>, seq<T>) -> bool)
    requires good([], [])
    requires forall before, laid, k: nat, x :: good(before, laid) ==> good(before + [x], laid + items(k, x))
    ensures good(xs, LaidOut(xs, n, items))
  {
    if xs == [] {
    } else {
      var before, x := xs[..|xs| - 1], xs[|xs| - 1];
      LaidOutInduction(before, n, items, good);
      LaidOutSnoc(before, x, n, items);
      assert xs == before + [x];
      assert good(before, LaidOut(before, n, items));
    }
  }

  /** How many elements pass the test. */
  function Count<T>(xs: seq<T>, test: T -> bool): nat {
    if xs == [] then 0
    else Count(xs[..|xs| - 1], test) + if test(xs[|xs| - 1]) then 1 else 0
  }

  lemma CountSnoc<T>(xs: seq<T>, x: T, test: T -> bool)
    ensures Count(xs + [x], test) == Count(xs, test) + if test(x) then 1 else 0
  {
    assert (xs + [x])[..|xs|] == xs;
  }

  lemma {:induction false} CountSame<T>(xs: seq<T>, p: T -> bool, q: T -> bool)
    requires forall x :: x in xs ==> p(x) == q(x)
    ensures Count(xs, p) == Count(xs, q)
  {
    if xs == [] {
    } else {
      CountSame(xs[..|xs| - 1], p, q);
    }
  }

  lemma FilterOne<T>(x: T, keep: T -> bool)
    ensures Filter([x], keep) == if keep(x) then [x] else []
  {
    assert [x][1..] == [] && Filter([x][1..], keep) == [];
  }

  lemma {:induction false} FilterLength<T>(xs: seq<T>, keep: T -> bool)
    ensures |Filter(xs, keep)| == Count(xs, keep)
  {
    if xs == [] {
    } else {
      var before, x := xs[..|xs| - 1], xs[|xs| - 1];
      FilterLength(before, keep);
      FilterConcat(before, [x], keep);
      FilterOne(x, keep);
      assert xs == before + [x];
    }
  }

  /** An element a filter keeps has as many elements before it as it had kept ones. */
  lemma FilterAt<T>(xs: seq<T>, keep: T -> bool, i: nat)
    requires i < |xs| && keep(xs[i])
    ensures Count(xs[..i], keep) < |Filter(xs, keep)| == Count(xs, keep)
    ensures Filter(xs, keep)[Count(xs[..i], keep)] == xs[i]
  {
    var before, after := xs[..i], xs[i + 1..];
    assert xs == before + ([xs[i]] + after);
    FilterConcat(before, [xs[i]] + after, keep);
    assert ([xs[i]] + after)[1..] == after;
    FilterLength(before, keep);
    FilterLength(xs, keep);
  }

  /** Where an element of a filtered list comes from. */
  lemma {:induction false} FilterSource<T>(xs: seq<T>, keep: T -> bool, k: nat) returns (i: nat)
    requires k < |Filter(xs, keep)|
    ensures i < |xs| && keep(xs[i]) && Filter(xs, keep)[k] == xs[i] && Count(xs[..i], keep) == k
  {
    var before, x := xs[..|xs| - 1], xs[|xs| - 1];
    FilterConcat(before, [x], keep);
    FilterOne(x, keep);
    assert xs == before + [x];
    if k < |Filter(before, keep)| {
      i := FilterSource(before, keep, k);
      assert before[..i] == xs[..i];
    } else {
      i := |xs| - 1;
      FilterLength(before, keep);
    }
  }

  lemma {:induction false} FilterTwice<T>(xs: seq<T>, p: T -> bool, q: T -> bool)
    ensures Filter(Filter(xs, p), q) == Filter(xs, x => p(x) && q(x))
  {
    if xs == [] {
    } else {
      FilterTwice(xs[1..], p, q);
      var rest := Filter(xs[1..], p);
      if p(xs[0]) {
        assert ([xs[0]] + rest)[1..] == rest;
      }
    }
  }

  lemma {:induction false} FilterSame<T>(xs: seq<T>, p: T -> bool, q: T -> bool)
    requires forall x :: x in xs ==> p(x) == q(x)
    ensures Filter(xs, p) == Filter(xs, q)
  {
    if xs == [] {
    } else {
      assert xs == [xs[0]] + xs[1..];
      FilterSame(xs[1..], p, q);
    }
  }

  lemma {:induction false} CountMonotone<T>(xs: seq<T>, i: nat, test: T -> bool)
    requires i <= |xs|
    ensures Count(xs[..i], test) <= Count(xs, test)
  {
    if i == |xs| {
      assert xs[..i] == xs;
    } else {
      assert xs[..|xs| - 1][..i] == xs[..i];
      CountMonotone(xs[..|xs| - 1], i, test);
    }
  }
}
