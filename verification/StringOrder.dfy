/** Code-point order on names, and the sorted listing of a directory. */
module StringOrder {

  predicate Less(a: string, b: string) {
    b != "" && (a == "" || a[0] < b[0] || (a[0] == b[0] && Less(a[1..], b[1..])))
  }

  lemma {:induction false} LessIrreflexive(a: string)
    ensures !Less(a, a)
  {
    if a == "" {
    } else {
      LessIrreflexive(a[1..]);
    }
  }

  lemma {:induction false} LessTotal(a: string, b: string)
    ensures a == b || Less(a, b) || Less(b, a)
  {
    if a == "" || b == "" || a[0] != b[0] {
    } else {
      LessTotal(a[1..], b[1..]);
      assert a == [a[0]] + a[1..] && b == [b[0]] + b[1..];
    }
  }

  lemma {:induction false} LessTransitive(a: string, b: string, c: string)
    requires Less(a, b) && Less(b, c)
    ensures Less(a, c)
  {
    if a == "" || a[0] != b[0] || b[0] != c[0] {
    } else {
      LessTransitive(a[1..], b[1..], c[1..]);
    }
  }

  /** The first position where two strings differ, or the length of the shorter one. */
  function FirstDifference(a: string, b: string): (i: nat)
    ensures i <= |a| && i <= |b|
    ensures forall k :: 0 <= k < i ==> a[k] == b[k]
    ensures i < |a| && i < |b| ==> a[i] != b[i]
  {
    if a == "" || b == "" || a[0] != b[0] then 0 else 1 + FirstDifference(a[1..], b[1..])
  }

  /** The order is Python's: the smaller character at the first difference decides, and a proper
      prefix comes first. */
  lemma {:induction false} LessIsLexicographic(a: string, b: string)
    ensures var i := FirstDifference(a, b);
            Less(a, b) <==> i < |b| && (i == |a| || (i < |a| && a[i] < b[i]))
  {
    if a == "" || b == "" || a[0] != b[0] {
    } else {
      LessIsLexicographic(a[1..], b[1..]);
    }
  }

  ghost predicate Increasing(names: seq<string>) {
    forall i, j :: 0 <= i < j < |names| ==> Less(names[i], names[j])
  }

  predicate Least(m: string, names: set<string>) {
    m in names && forall x :: x in names && x != m ==> Less(m, x)
  }

  lemma LessAsymmetric(a: string, b: string)
    requires Less(a, b)
    ensures !Less(b, a) && a != b
  {
    LessIrreflexive(a);
    if Less(b, a) {
      LessTransitive(a, b, a);
    }
  }

  lemma {:induction false} LeastExists(names: set<string>)
    requires names != {}
    ensures exists m :: Least(m, names)
  {
    var y :| y in names;
    var rest := names - {y};
    assert names == rest + {y};
    if rest == {} {
      assert Least(y, names);
    } else {
      LeastExists(rest);
      var m :| Least(m, rest);
      LessTotal(m, y);
      if Less(m, y) {
        assert Least(m, names);
      } else {
        forall x | x in names && x != y ensures Less(y, x) {
          if x != m {
            LessTransitive(y, m, x);
          }
        }
        assert Least(y, names);
      }
    }
  }

  lemma LeastUnique(names: set<string>)
    ensures forall m, n :: Least(m, names) && Least(n, names) ==> m == n
  {
    forall m, n | Least(m, names) && Least(n, names) && m != n ensures false {
      LessAsymmetric(m, n);
    }
  }

  /** `sorted(names)`: strictly increasing, and nothing lost or added. */
  function Sorted(names: set<string>): (r: seq<string>)
    ensures Increasing(r)
    ensures forall x :: x in r <==> x in names
  {
    if names == {} then []
    else
      LeastExists(names);
      LeastUnique(names);
      var m :| Least(m, names);
      [m] + Sorted(names - {m})
  }

  lemma IncreasingTail(xs: seq<string>)
    requires Increasing(xs) && xs != []
    ensures forall x :: x in xs[1..] <==> x in xs && x != xs[0]
    ensures Increasing(xs[1..])
  {
    forall x | x in xs[1..] ensures x in xs && x != xs[0] {
      var i :| 0 <= i < |xs[1..]| && xs[1..][i] == x;
      assert Less(xs[0], xs[i + 1]);
      LessAsymmetric(xs[0], x);
    }
    assert xs == [xs[0]] + xs[1..];
  }

  /** The two facts of `Sorted` leave only one possible listing. */
  lemma {:induction false} SortedUnique(xs: seq<string>, ys: seq<string>)
    requires Increasing(xs) && Increasing(ys)
    requires forall x :: x in xs <==> x in ys
    ensures xs == ys
  {
    if xs == [] {
    } else {
      assert xs[0] in ys;
    }
    if ys != [] {
      var y := ys[0];
      assert y in ys;
      assert xs[0] in ys && ys[0] in xs;
      if xs[0] != ys[0] {
        var i :| 0 <= i < |ys| && ys[i] == xs[0];
        var j :| 0 <= j < |xs| && xs[j] == ys[0];
        LessAsymmetric(xs[0], ys[0]);
      }
      IncreasingTail(xs);
      IncreasingTail(ys);
      SortedUnique(xs[1..], ys[1..]);
      assert xs == [xs[0]] + xs[1..] && ys == [ys[0]] + ys[1..];
    }
  }

  /** Between names of one length a common suffix does not affect the order. */
  lemma {:induction false} LessWithSuffix(a: string, b: string, suffix: string)
    requires |a| == |b|
    ensures Less(a + suffix, b + suffix) <==> Less(a, b)
  {
    if a == "" {
      assert a + suffix == suffix && b + suffix == suffix;
      LessIrreflexive(suffix);
    } else {
      assert (a + suffix)[1..] == a[1..] + suffix && (b + suffix)[1..] == b[1..] + suffix;
      LessWithSuffix(a[1..], b[1..], suffix);
    }
  }
}
