// sorted(...): a set laid out in strict order, which can be done in one way only.
module Sorting {

  ghost predicate StrictOrder<T(!new)>(less: (T, T) -> bool) {
    && (forall x: T :: !less(x, x))
    && (forall x: T, y: T :: x != y ==> less(x, y) || less(y, x))
    && (forall x: T, y: T, z: T :: less(x, y) && less(y, z) ==> less(x, z))
  }

  ghost predicate SortedBy<T(!new)>(xs: seq<T>, s: set<T>, less: (T, T) -> bool) {
    && (forall i, j :: 0 <= i < j < |xs| ==> less(xs[i], xs[j]))
    && (forall x: T :: x in xs <==> x in s)
  }

  lemma {:induction false} SortedUnique<T(!new)>(a: seq<T>, b: seq<T>, s: set<T>, less: (T, T) -> bool)
    requires StrictOrder(less) && SortedBy(a, s, less) && SortedBy(b, s, less)
    ensures a == b
    decreases |a|
  {
    assert a != [] ==> a[0] in b;
    assert b != [] ==> b[0] in a;
    if a != [] {
      var x := a[0];
      var rest := s - {x};
      assert SortedBy(a[1..], rest, less) by {
        forall y: T ensures y in a[1..] <==> y in rest {
          if y in a[1..] { var i :| 1 <= i < |a| && a[i] == y; assert less(a[0], a[i]); }
          if y in rest { var i :| 0 <= i < |a| && a[i] == y; assert a[1..][i - 1] == y; }
        }
      }
      assert SortedBy(b[1..], rest, less) by {
        forall y: T ensures y in b[1..] <==> y in rest {
          if y in b[1..] { var i :| 1 <= i < |b| && b[i] == y; assert less(b[0], b[i]); }
          if y in rest { var i :| 0 <= i < |b| && b[i] == y; assert b[1..][i - 1] == y; }
        }
      }
      SortedUnique(a[1..], b[1..], rest, less);
      assert a == [a[0]] + a[1..] && b == [b[0]] + b[1..];
    }
  }

  method Sort<T(==, !new)>(s: set<T>, less: (T, T) -> bool) returns (xs: seq<T>)
    requires StrictOrder(less)
    ensures SortedBy(xs, s, less)
  {
    xs := [];
    var left := s;
    ghost var done: set<T> := {};
    while left != {}
      invariant left !! done && left + done == s && SortedBy(xs, done, less)
      decreases left
    {
      var x :| x in left;
      var k := 0;
      while k < |xs| && less(xs[k], x)
        invariant k <= |xs| && forall i :: 0 <= i < k ==> less(xs[i], x)
      {
        k := k + 1;
      }
      InsertSorted(xs, done, less, x, k);
      xs := xs[..k] + [x] + xs[k..];
      done := done + {x};
      left := left - {x};
    }
  }

  lemma InsertSorted<T(!new)>(xs: seq<T>, s: set<T>, less: (T, T) -> bool, x: T, k: nat)
    requires StrictOrder(less) && SortedBy(xs, s, less) && x !in s && k <= |xs|
    requires forall i :: 0 <= i < k ==> less(xs[i], x)
    requires k < |xs| ==> !less(xs[k], x)
    ensures SortedBy(xs[..k] + [x] + xs[k..], s + {x}, less)
  {
  }

  // ----- the two orders in use -----

  predicate NatLess(a: nat, b: nat) {
    a < b
  }

  predicate StrLess(a: string, b: string) {
    b != [] && (a == [] || a[0] < b[0] || (a[0] == b[0] && StrLess(a[1..], b[1..])))
  }

  lemma NatLessIsStrict()
    ensures StrictOrder(NatLess)
  {
  }

  lemma {:induction false} StrLessTransitive(a: string, b: string, c: string)
    requires StrLess(a, b) && StrLess(b, c)
    ensures StrLess(a, c)
    decreases |a|
  {
    if a != [] && a[0] == b[0] && b[0] == c[0] { StrLessTransitive(a[1..], b[1..], c[1..]); }
  }

  lemma {:induction false} StrLessTotal(a: string, b: string)
    ensures !StrLess(a, a)
    ensures a != b ==> StrLess(a, b) || StrLess(b, a)
    decreases |a|
  {
    if a != [] {
      if b != [] && a[0] == b[0] {
        assert a == [a[0]] + a[1..] && b == [b[0]] + b[1..];
        StrLessTotal(a[1..], b[1..]);
      } else {
        StrLessTotal(a[1..], []);
      }
    }
  }

  lemma StrLessIsStrict()
    ensures StrictOrder(StrLess)
  {
    forall a: string, b: string ensures !StrLess(a, a) && (a != b ==> StrLess(a, b) || StrLess(b, a)) {
      StrLessTotal(a, b);
    }
    forall a: string, b: string, c: string | StrLess(a, b) && StrLess(b, c) ensures StrLess(a, c) {
      StrLessTransitive(a, b, c);
    }
  }
}
