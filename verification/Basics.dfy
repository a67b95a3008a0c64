/** Small shared vocabulary: optional values, results, weighted sums and sorted id lists. */
module Wrappers {
  datatype Option<+T> = None | Some(value: T)

  datatype Result<+T, +E> = Success(value: T) | Failure(error: E)
}

/** Weighted sums over sequences. Every balance, share count and total in the project is one of these. */
module Sums {
  function Sum<T>(s: seq<T>, w: T -> int): int
  {
    if s == [] then 0 else Sum(s[..|s| - 1], w) + w(s[|s| - 1])
  }

  lemma {:induction false} SumAppend<T>(s: seq<T>, t: seq<T>, w: T -> int)
    ensures Sum(s + t, w) == Sum(s, w) + Sum(t, w)
  {
    if t == [] {
      assert s + t == s;
    } else {
      var u := t[..|t| - 1];
      assert (s + t)[..|s + t| - 1] == s + u;
      SumAppend(s, u, w);
    }
  }

  lemma {:induction false} SumOne<T>(x: T, w: T -> int)
    ensures Sum([x], w) == w(x)
  {
  }

  lemma {:induction false} SumTwo<T>(x: T, y: T, w: T -> int)
    ensures Sum([x, y], w) == w(x) + w(y)
  {
    assert [x, y][..1] == [x];
    SumOne(x, w);
  }

  lemma {:induction false} SumThree<T>(x: T, y: T, z: T, w: T -> int)
    ensures Sum([x, y, z], w) == w(x) + w(y) + w(z)
  {
    assert [x, y, z][..2] == [x, y];
    SumTwo(x, y, w);
  }

  lemma {:induction false} SumFour<T>(x: T, y: T, z: T, v: T, w: T -> int)
    ensures Sum([x, y, z, v], w) == w(x) + w(y) + w(z) + w(v)
  {
    assert [x, y, z, v][..3] == [x, y, z];
    SumThree(x, y, z, w);
  }

  lemma {:induction false} SumSame<T>(s: seq<T>, v: T -> int, w: T -> int)
    requires forall x :: x in s ==> v(x) == w(x)
    ensures Sum(s, v) == Sum(s, w)
  {
    if s == [] {
    } else {
      SumSame(s[..|s| - 1], v, w);
    }
  }

  lemma {:induction false} SumZero<T>(s: seq<T>, w: T -> int)
    requires forall x :: x in s ==> w(x) == 0
    ensures Sum(s, w) == 0
  {
    if s == [] {
    } else {
      SumZero(s[..|s| - 1], w);
    }
  }

  lemma {:induction false} SumPlus<T>(s: seq<T>, u: T -> int, v: T -> int, w: T -> int)
    requires forall x :: x in s ==> w(x) == u(x) + v(x)
    ensures Sum(s, w) == Sum(s, u) + Sum(s, v)
  {
    if s == [] {
    } else {
      SumPlus(s[..|s| - 1], u, v, w);
    }
  }

  lemma {:induction false} SumAtMost<T>(s: seq<T>, v: T -> int, w: T -> int)
    requires forall x :: x in s ==> v(x) <= w(x)
    ensures Sum(s, v) <= Sum(s, w)
    ensures (exists x :: x in s && v(x) < w(x)) ==> Sum(s, v) < Sum(s, w)
  {
    if s == [] {
    } else {
      SumAtMost(s[..|s| - 1], v, w);
    }
  }

  function Across<A, B>(cell: (A, B) -> int, x: A): B -> int { (y: B) => cell(x, y) }

  function Down<A, B>(cell: (A, B) -> int, y: B): A -> int { (x: A) => cell(x, y) }

  /** Two sums taken in either order agree: by column first, or by row first. */
  lemma {:induction false} SumSwap<A, B>(xs: seq<A>, ys: seq<B>, cell: (A, B) -> int, byX: A -> int, byY: B -> int)
    requires forall x :: x in xs ==> byX(x) == Sum(ys, Across(cell, x))
    requires forall y :: y in ys ==> byY(y) == Sum(xs, Down(cell, y))
    ensures Sum(xs, byX) == Sum(ys, byY)
  {
    if xs == [] {
      SumZero(ys, byY);
    } else {
      var n := |xs| - 1;
      var rest, last := xs[..n], xs[n];
      var fewer := (y: B) => Sum(rest, Down(cell, y));
      SumSwap(rest, ys, cell, byX, fewer);
      SumPlus(ys, fewer, Across(cell, last), byY);
    }
  }
}

/** Ascending enumeration of a finite set of ids: the one global lock order. */
module Ascending {
  ghost predicate IsMin(m: nat, s: set<nat>)
  {
    m in s && forall x :: x in s ==> m <= x
  }

  lemma {:induction false} MinExists(s: set<nat>)
    requires s != {}
    ensures exists m :: IsMin(m, s)
  {
    var x :| x in s;
    if s == {x} {
      assert IsMin(x, s);
    } else {
      var rest := s - {x};
      MinExists(rest);
      var m :| IsMin(m, rest);
      assert s == rest + {x};
      if x < m {
        assert IsMin(x, s);
      } else {
        assert IsMin(m, s);
      }
    }
  }

  ghost function Least(s: set<nat>): (m: nat)
    requires s != {}
    ensures IsMin(m, s)
  {
    MinExists(s);
    var m :| IsMin(m, s);
    m
  }

  predicate StrictlyUp(q: seq<nat>)
  {
    forall i, j :: 0 <= i < j < |q| ==> q[i] < q[j]
  }

  /** `sorted({...})`: ascending, each id once. */
  ghost function Sorted(s: set<nat>): (q: seq<nat>)
    ensures StrictlyUp(q)
    ensures forall x :: x in q <==> x in s
  {
    if s == {} then [] else [Least(s)] + Sorted(s - {Least(s)})
  }

  lemma {:induction false} SortedUnique(p: seq<nat>, q: seq<nat>)
    requires StrictlyUp(p) && StrictlyUp(q)
    requires forall x :: x in p <==> x in q
    ensures p == q
  {
    if p == [] {
      assert forall i :: 0 <= i < |q| ==> q[i] in p;
    } else {
      assert p[0] in q;
      assert q[0] in p;
      assert p[0] == q[0];
      forall x ensures x in p[1..] <==> x in q[1..] {
        assert x in p[1..] <==> x in p && x != p[0];
        assert x in q[1..] <==> x in q && x != q[0];
      }
      SortedUnique(p[1..], q[1..]);
    }
  }
}
