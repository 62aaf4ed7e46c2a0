/** Sizes of finite sets: an injection bounds a set by its target, and the size of a product. */
module Counting {

  ghost predicate Injects<A(!new), B(!new)>(f: map<A, B>, from: set<A>, to: set<B>) {
    && (forall x | x in from :: x in f && f[x] in to)
    && (forall x, y | x in from && y in from && f[x] == f[y] :: x == y)
  }

  lemma {:induction false} InjectionBound<A(!new), B(!new)>(f: map<A, B>, from: set<A>, to: set<B>)
    requires Injects(f, from, to)
    ensures |from| <= |to|
  {
    if from != {} {
      var x :| x in from;
      InjectionBound(f, from - {x}, to - {f[x]});
    }
  }

  lemma NonEmpty(s: set<int>)
    requires s != {}
    ensures exists x :: x in s
  {
    assert (forall x :: x !in s) ==> s == {};
  }

  lemma SubsetSize<T>(small: set<T>, large: set<T>)
    requires small <= large
    ensures |small| <= |large|
  {
    assert large == small + (large - small);
  }

  /** A set whose every element is the image of some cause is no larger than the set of causes. */
  lemma {:induction false} ImageBound<A(!new), B(!new)>(f: map<A, B>, causes: set<A>, effects: set<B>)
    requires causes <= f.Keys
    requires forall e | e in effects :: exists c | c in causes :: f[c] == e
    ensures |effects| <= |causes|
  {
    if effects != {} {
      var e :| e in effects;
      var c :| c in causes && f[c] == e;
      forall e' | e' in effects - {e} ensures exists c' | c' in causes - {c} :: f[c'] == e' {
        var c' :| c' in causes && f[c'] == e';
        assert c' in causes - {c};
      }
      ImageBound(f, causes - {c}, effects - {e});
    }
  }

  function Pairs<A, B>(xs: set<A>, ys: set<B>): set<(A, B)> {
    set x, y | x in xs && y in ys :: (x, y)
  }

  lemma {:induction false} RowSize<A(!new), B(!new)>(x: A, ys: set<B>)
    ensures |Pairs({x}, ys)| == |ys|
  {
    if ys != {} {
      var y :| y in ys;
      RowSize(x, ys - {y});
      assert Pairs({x}, ys) == Pairs({x}, ys - {y}) + {(x, y)};
    } else {
      assert Pairs({x}, ys) == {};
    }
  }

  lemma PairsSplit<A(!new), B(!new)>(rest: set<A>, x: A, ys: set<B>)
    requires x !in rest
    ensures Pairs(rest + {x}, ys) == Pairs(rest, ys) + Pairs({x}, ys)
    ensures Pairs(rest, ys) !! Pairs({x}, ys)
  {
  }

  lemma OneMoreRow(rows: nat, width: nat)
    ensures (rows + 1) * width == rows * width + width
  {
  }

  lemma {:induction false} PairsSize<A(!new), B(!new)>(xs: set<A>, ys: set<B>)
    ensures |Pairs(xs, ys)| == |xs| * |ys|
  {
    if xs != {} {
      var x :| x in xs;
      var rest := xs - {x};
      PairsSize(rest, ys);
      RowSize(x, ys);
      PairsSplit(rest, x, ys);
      assert xs == rest + {x};
      OneMoreRow(|rest|, |ys|);
    } else {
      assert Pairs(xs, ys) == {};
    }
  }
}
