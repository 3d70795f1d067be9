/**
 Strict total orders, the "order by ... limit 1" selection the queries use, and the
 byte-wise string order they compare text with.
*/
module Ordering {

  ghost predicate StrictTotal<T(!new)>(less: (T, T) -> bool) {
    && (forall x :: !less(x, x))
    && (forall x, y :: x != y ==> less(x, y) || less(y, x))
    && (forall x, y, z :: less(x, y) && less(y, z) ==> less(x, z))
  }

  /** `x` comes before every other member of `s`. */
  ghost predicate IsFirst<T>(s: set<T>, less: (T, T) -> bool, x: T) {
    x in s && forall y | y in s && y != x :: less(x, y)
  }

  lemma {:induction false} FirstExists<T(!new)>(s: set<T>, less: (T, T) -> bool)
    requires StrictTotal(less) && s != {}
    ensures exists x :: IsFirst(s, less, x)
  {
    var x :| x in s;
    if s == {x} {
      assert IsFirst(s, less, x);
    } else {
      FirstExists(s - {x}, less);
      var y :| IsFirst(s - {x}, less, y);
      var z := if less(x, y) then x else y;
      forall e | e in s && e != z ensures less(z, e) {
        assert e == x || e in s - {x};
      }
      assert IsFirst(s, less, z);
    }
  }

  /** The first member of a nonempty set. */
  ghost function First<T(!new)>(s: set<T>, less: (T, T) -> bool): (x: T)
    requires StrictTotal(less) && s != {}
    ensures IsFirst(s, less, x)
  {
    FirstExists(s, less);
    var x :| IsFirst(s, less, x);
    x
  }

  /** One pass over the candidates, keeping the first one met so far. */
  method SelectFirst<T(==,!new)>(s: set<T>, less: (T, T) -> bool) returns (first: T)
    requires StrictTotal(less) && s != {}
    ensures IsFirst(s, less, first)
    ensures first == First(s, less)
  {
    first :| first in s;
    var rest := s - {first};
    while rest != {}
      invariant rest <= s && first in s - rest
      invariant forall y | y in s - rest && y != first :: less(first, y)
      decreases |rest|
    {
      var next :| next in rest;
      ghost var seen, was := s - rest, first;
      if less(next, first) {
        first := next;
      }
      rest := rest - {next};
      forall y | y in s - rest && y != first ensures less(first, y) {
        assert y == next || y in seen;
      }
    }
  }

  /** `items` lists exactly `s`, in order and without repetition. */
  ghost predicate Lists<T(!new)>(items: seq<T>, s: set<T>, less: (T, T) -> bool) {
    && (forall x :: x in items <==> x in s)
    && (forall i, j | 0 <= i < j < |items| :: less(items[i], items[j]))
  }

  /** An ordered query result. */
  method SelectOrdered<T(==,!new)>(s: set<T>, less: (T, T) -> bool) returns (items: seq<T>)
    requires StrictTotal(less)
    ensures Lists(items, s, less)
  {
    items := [];
    var rest := s;
    while rest != {}
      invariant rest <= s
      invariant Lists(items, s - rest, less)
      invariant forall x, y | x in items && y in rest :: less(x, y)
      decreases |rest|
    {
      var first := SelectFirst(rest, less);
      items := items + [first];
      rest := rest - {first};
    }
  }

  lemma {:induction false} ListsUnique<T(!new)>(a: seq<T>, b: seq<T>, s: set<T>, less: (T, T) -> bool)
    requires StrictTotal(less) && Lists(a, s, less) && Lists(b, s, less)
    ensures a == b
    decreases |a|
  {
    ListsSize(a, s, less);
    ListsSize(b, s, less);
    if a != [] {
      assert a[0] in b && b[0] in a;
      var i :| 0 <= i < |b| && b[i] == a[0];
      var j :| 0 <= j < |a| && a[j] == b[0];
      assert i == 0;
      TailLists(a, s, less);
      TailLists(b, s, less);
      ListsUnique(a[1..], b[1..], s - {a[0]}, less);
      assert a == [a[0]] + a[1..] && b == [b[0]] + b[1..];
    }
  }

  lemma {:induction false} ListsSize<T(!new)>(a: seq<T>, s: set<T>, less: (T, T) -> bool)
    requires StrictTotal(less) && Lists(a, s, less)
    ensures |a| == |s|
    decreases |a|
  {
    if a == [] {
      assert s == {};
    } else {
      TailLists(a, s, less);
      ListsSize(a[1..], s - {a[0]}, less);
    }
  }

  lemma TailLists<T(!new)>(a: seq<T>, s: set<T>, less: (T, T) -> bool)
    requires StrictTotal(less) && Lists(a, s, less) && a != []
    ensures Lists(a[1..], s - {a[0]}, less)
  {
    forall x | x in a[1..] ensures x in s - {a[0]} {
      var i :| 0 <= i < |a| - 1 && a[1..][i] == x;
      assert less(a[0], a[i + 1]);
    }
    forall x | x in s - {a[0]} ensures x in a[1..] {
      var i :| 0 <= i < |a| && a[i] == x;
      assert a[1..][i - 1] == x;
    }
  }

  /** The members of `s` that come before `x`. */
  function Ahead<T>(s: set<T>, less: (T, T) -> bool, x: T): set<T> {
    set y | y in s && less(y, x)
  }

  /** `order by ... limit k`: the members with fewer than `k` ahead of them. */
  function Top<T>(s: set<T>, less: (T, T) -> bool, k: nat): set<T> {
    set x | x in s && |Ahead(s, less, x)| < k
  }

  /** The top `k` are at most `k`, and each comes before every member left out. */
  lemma TopIsBounded<T(!new)>(s: set<T>, less: (T, T) -> bool, k: nat)
    requires StrictTotal(less)
    ensures |Top(s, less, k)| <= k
    ensures forall x, y | x in Top(s, less, k) && y in s - Top(s, less, k) :: less(x, y)
  {
    var top := Top(s, less, k);
    if top != {} {
      var backwards := (x, y) => less(y, x);
      var last := First(top, backwards);
      assert forall x | x in top - {last} :: backwards(last, x);
      assert top - {last} <= Ahead(s, less, last);
      SubsetSize(top - {last}, Ahead(s, less, last));
    }
    forall x, y | x in top && y in s - top ensures less(x, y) {
      if less(y, x) {
        assert Ahead(s, less, y) <= Ahead(s, less, x);
        SubsetSize(Ahead(s, less, y), Ahead(s, less, x));
        assert false;
      }
    }
  }

  /** And they are as many as there can be. */
  lemma TopIsFull<T(!new)>(s: set<T>, less: (T, T) -> bool, k: nat)
    requires StrictTotal(less)
    ensures |Top(s, less, k)| == if |s| <= k then |s| else k
  {
    var top := Top(s, less, k);
    TopIsBounded(s, less, k);
    SubsetSize(top, s);
    var rest := s - top;
    if rest == {} {
      assert forall x | x in s :: x !in rest;
      assert top == s;
    } else {
      var next := First(rest, less);
      forall x | x in Ahead(s, less, next) ensures x in top {
        assert x in rest ==> x == next || less(next, x);
      }
      SubsetSize(Ahead(s, less, next), top);
      ProperSubsetSize(top, s);
    }
  }

  lemma SubsetSize<T>(a: set<T>, b: set<T>)
    requires a <= b
    ensures |a| <= |b|
  {
    assert b == a + (b - a);
  }

  lemma ProperSubsetSize<T>(a: set<T>, b: set<T>)
    requires a < b
    ensures |a| < |b|
  {
    var x :| x in b && x !in a;
    SubsetSize(a, b - {x});
  }

  /** Byte-wise order of two strings. */
  predicate LexLess(a: string, b: string) {
    b != [] && (a == [] || a[0] < b[0] || (a[0] == b[0] && LexLess(a[1..], b[1..])))
  }

  lemma {:induction false} LexTrichotomy(a: string, b: string)
    ensures !LexLess(a, a)
    ensures a != b ==> LexLess(a, b) || LexLess(b, a)
    ensures !(LexLess(a, b) && LexLess(b, a))
  {
    if a != [] {
      LexTrichotomy(a[1..], if b == [] then [] else b[1..]);
      if b != [] && a[0] == b[0] && a[1..] == b[1..] {
        assert a == [a[0]] + a[1..] && b == [b[0]] + b[1..];
      }
    }
  }

  lemma {:induction false} LexTransitive(a: string, b: string, c: string)
    requires LexLess(a, b) && LexLess(b, c)
    ensures LexLess(a, c)
  {
    if a != [] && a[0] == b[0] == c[0] {
      LexTransitive(a[1..], b[1..], c[1..]);
    }
  }

  /** Equal-length heads decide, and equal heads leave the tails to decide. */
  lemma {:induction false} LexConcat(p: string, q: string, x: string, y: string)
    requires |p| == |q|
    ensures LexLess(p + x, q + y) <==> LexLess(p, q) || (p == q && LexLess(x, y))
  {
    if p == [] {
      assert p + x == x && q + y == y;
    } else {
      assert (p + x)[1..] == p[1..] + x && (q + y)[1..] == q[1..] + y;
      LexConcat(p[1..], q[1..], x, y);
      assert p == q <==> p[0] == q[0] && p[1..] == q[1..] by {
        assert p == [p[0]] + p[1..] && q == [q[0]] + q[1..];
      }
    }
  }

  /** One text is before another if it is a beginning of it, or smaller where they first differ. */
  lemma {:induction false} LexLessIff(a: string, b: string)
    ensures LexLess(a, b) <==>
      || (|a| < |b| && a == b[..|a|])
      || (exists k | 0 <= k < |a| && k < |b| :: a[..k] == b[..k] && a[k] < b[k])
    decreases |a|
  {
    if a != [] && b != [] {
      LexLessIff(a[1..], b[1..]);
      var u, v := a[1..], b[1..];
      if a[0] == b[0] {
        forall k | 0 <= k < |u| && k < |v| && u[..k] == v[..k] && u[k] < v[k]
          ensures a[..k + 1] == b[..k + 1] && a[k + 1] < b[k + 1]
        {
          assert a[..k + 1] == [a[0]] + u[..k] && b[..k + 1] == [b[0]] + v[..k];
        }
        forall k | 0 < k < |a| && k < |b| && a[..k] == b[..k] && a[k] < b[k]
          ensures u[..k - 1] == v[..k - 1] && u[k - 1] < v[k - 1]
        {
          assert u[..k - 1] == a[..k][1..] && v[..k - 1] == b[..k][1..];
        }
        assert |a| < |b| && a == b[..|a|] <==> |u| < |v| && u == v[..|u|] by {
          if |u| < |v| && u == v[..|u|] {
            assert a == [a[0]] + u && b[..|a|] == [b[0]] + v[..|u|];
          }
          if |a| < |b| && a == b[..|a|] {
            assert u == b[..|a|][1..] == v[..|u|];
          }
        }
      } else if a[0] < b[0] {
        assert a[..0] == b[..0];
      }
    }
  }
}
