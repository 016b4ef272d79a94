// Ordered containers of the C++ standard library: a std::set or the keys of
// a std::map are visited in ascending order of the element type's operator<.
// The model keeps plain Dafny sets and lists their elements through an
// explicit strict total order.
module Ordering {
  import opened DateTimes

  /** `less` is irreflexive, transitive and total on distinct values. */
  ghost predicate StrictTotalOrder<T(!new)>(less: (T, T) -> bool)
  {
    && (forall a :: !less(a, a))
    && (forall a, b, c :: less(a, b) && less(b, c) ==> less(a, c))
    && (forall a, b :: a == b || less(a, b) || less(b, a))
  }

  predicate Ascending<T>(xs: seq<T>, less: (T, T) -> bool)
  {
    forall i, j :: 0 <= i < j < |xs| ==> less(xs[i], xs[j])
  }

  predicate IsLeast<T>(x: T, s: set<T>, less: (T, T) -> bool)
  {
    x in s && forall y :: y in s ==> !less(y, x)
  }

  /** Every non-empty finite set has a least element. */
  lemma {:induction false} LeastExists<T(!new)>(s: set<T>, less: (T, T) -> bool)
    requires StrictTotalOrder(less) && s != {}
    ensures exists x :: IsLeast(x, s, less)
    decreases |s|
  {
    var x :| x in s;
    if s - {x} == {} {
      assert s == {x};
      assert IsLeast(x, s, less);
    } else {
      LeastExists(s - {x}, less);
      var y :| IsLeast(y, s - {x}, less);
      if less(x, y) {
        assert IsLeast(x, s, less);
      } else {
        assert IsLeast(y, s, less);
      }
    }
  }

  /** The head of an ascending list is its least element. */
  lemma HeadIsLeast<T(!new)>(xs: seq<T>, less: (T, T) -> bool)
    requires StrictTotalOrder(less) && Ascending(xs, less) && xs != []
    ensures forall x :: x in xs ==> !less(x, xs[0])
  {
    forall x | x in xs
      ensures !less(x, xs[0])
    {
      var k :| 0 <= k < |xs| && xs[k] == x;
      if k > 0 {
        assert less(xs[0], x);
      }
    }
  }

  /** Two ascending lists of the same elements are the same list. */
  lemma {:induction false} AscendingUnique<T(!new)>(a: seq<T>, b: seq<T>, less: (T, T) -> bool)
    requires StrictTotalOrder(less)
    requires Ascending(a, less) && Ascending(b, less)
    requires forall x :: x in a <==> x in b
    ensures a == b
    decreases |a|
  {
    assert b != [] ==> b[0] in a;
    if a != [] {
      assert a[0] in a;
      assert |b| > 0;
      assert b[0] in b;
      HeadIsLeast(a, less);
      HeadIsLeast(b, less);
      assert a[0] == b[0];
      forall x
        ensures x in a[1..] <==> x in b[1..]
      {
        if x in a[1..] {
          var k :| 1 <= k < |a| && a[k] == x;
          assert x in b;
          assert less(a[0], x);
        }
        if x in b[1..] {
          var k :| 1 <= k < |b| && b[k] == x;
          assert x in a;
          assert less(b[0], x);
        }
      }
      AscendingUnique(a[1..], b[1..], less);
      assert a == [a[0]] + a[1..] && b == [b[0]] + b[1..];
    }
  }

  /** The elements of `s` in ascending order: the order in which a std::set yields them. */
  ghost function AscendingOf<T(!new)>(s: set<T>, less: (T, T) -> bool): (xs: seq<T>)
    requires StrictTotalOrder(less)
    ensures Ascending(xs, less)
    ensures forall x :: x in xs <==> x in s
    decreases |s|
  {
    if s == {} then []
    else
      LeastExists(s, less);
      var x :| IsLeast(x, s, less);
      var rest := AscendingOf(s - {x}, less);
      assert forall y :: y in rest ==> y in s && y != x && less(x, y);
      [x] + rest
  }

  /** Iterating a set: the least remaining element, one at a time. */
  method Ascend<T(==, !new)>(s: set<T>, less: (T, T) -> bool) returns (xs: seq<T>)
    requires StrictTotalOrder(less)
    ensures xs == AscendingOf(s, less)
  {
    xs := [];
    var remaining := s;
    while remaining != {}
      invariant Ascending(xs, less)
      invariant forall x :: x in s <==> x in xs || x in remaining
      invariant forall x, y :: x in xs && y in remaining ==> less(x, y)
      decreases |remaining|
    {
      LeastExists(remaining, less);
      var x :| IsLeast(x, remaining, less);
      forall y | y in remaining && y != x
        ensures less(x, y)
      {
      }
      xs := xs + [x];
      remaining := remaining - {x};
    }
    AscendingUnique(xs, AscendingOf(s, less), less);
  }

  // ---- std::string's operator< -------------------------------------------

  /** Lexicographic order on character codes; a proper prefix comes first. */
  predicate StringLess(a: string, b: string)
  {
    if a == [] then b != []
    else if b == [] then false
    else if a[0] != b[0] then a[0] < b[0]
    else StringLess(a[1..], b[1..])
  }

  lemma {:induction false} StringLessIrreflexive(a: string)
    ensures !StringLess(a, a)
  {
    if a != [] {
      StringLessIrreflexive(a[1..]);
    }
  }

  lemma {:induction false} StringLessTransitive(a: string, b: string, c: string)
    requires StringLess(a, b) && StringLess(b, c)
    ensures StringLess(a, c)
  {
    if a != [] && b != [] && c != [] && a[0] == b[0] && b[0] == c[0] {
      StringLessTransitive(a[1..], b[1..], c[1..]);
    }
  }

  lemma {:induction false} StringLessTotal(a: string, b: string)
    ensures a == b || StringLess(a, b) || StringLess(b, a)
  {
    if a != [] && b != [] && a[0] == b[0] {
      StringLessTotal(a[1..], b[1..]);
      if a[1..] == b[1..] {
        assert a == [a[0]] + a[1..] && b == [b[0]] + b[1..];
      }
    }
  }

  lemma StringOrder()
    ensures StrictTotalOrder(StringLess)
  {
    forall a ensures !StringLess(a, a) {
      StringLessIrreflexive(a);
    }
    forall a, b, c | StringLess(a, b) && StringLess(b, c) ensures StringLess(a, c) {
      StringLessTransitive(a, b, c);
    }
    forall a, b ensures a == b || StringLess(a, b) || StringLess(b, a) {
      StringLessTotal(a, b);
    }
  }

  /** DateTime's operator< orders a std::set<DateTime>. */
  lemma TimeOrder()
    ensures StrictTotalOrder(Less)
  {
    forall a ensures !Less(a, a) {
      LessIsStrictTotalOrder(a, a, a);
    }
    forall a, b, c | Less(a, b) && Less(b, c) ensures Less(a, c) {
      LessIsStrictTotalOrder(a, b, c);
    }
    forall a, b ensures a == b || Less(a, b) || Less(b, a) {
      LessIsStrictTotalOrder(a, b, b);
    }
  }
}
