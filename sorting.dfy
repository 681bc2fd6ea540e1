/** Python's stable `sorted` / `list.sort`, written as an insertion sort over an order
    `ge(a, b)`: "a may be placed before b". A descending sort by key uses
    `key(a) >= key(b)`; `sort(reverse=True)` over tuples uses "tuple a >= tuple b". */
module Sorting {

  ghost predicate TotalPreorder<T(!new)>(ge: (T, T) -> bool) {
    && (forall a, b :: ge(a, b) || ge(b, a))
    && (forall a, b, c :: ge(a, b) && ge(b, c) ==> ge(a, c))
  }

  ghost predicate Antisymmetric<T(!new)>(ge: (T, T) -> bool) {
    forall a, b :: ge(a, b) && ge(b, a) ==> a == b
  }

  ghost predicate Ordered<T>(s: seq<T>, ge: (T, T) -> bool) {
    forall i, j :: 0 <= i < j < |s| ==> ge(s[i], s[j])
  }

  /** Put `x` after the leading elements of `s` that may come before it. */
  function Insert<T>(x: T, s: seq<T>, ge: (T, T) -> bool): (r: seq<T>)
    ensures |r| == |s| + 1
    ensures multiset(r) == multiset(s) + multiset{x}
  {
    if s == [] then [x]
    else if ge(s[0], x) then
      assert s == [s[0]] + s[1..];
      [s[0]] + Insert(x, s[1..], ge)
    else [x] + s
  }

  /** The stable sort: insert the elements one by one, in input order. */
  function SortDesc<T>(xs: seq<T>, ge: (T, T) -> bool): (r: seq<T>)
    ensures |r| == |xs|
    ensures multiset(r) == multiset(xs)
  {
    if xs == [] then []
    else
      assert xs == xs[..|xs| - 1] + [xs[|xs| - 1]];
      Insert(xs[|xs| - 1], SortDesc(xs[..|xs| - 1], ge), ge)
  }

  lemma {:induction false} InsertOrdered<T(!new)>(x: T, s: seq<T>, ge: (T, T) -> bool)
    requires TotalPreorder(ge) && Ordered(s, ge)
    ensures Ordered(Insert(x, s, ge), ge)
  {
    if s != [] {
      if ge(s[0], x) {
        InsertOrdered(x, s[1..], ge);
        var r := Insert(x, s[1..], ge);
        forall j | 0 <= j < |r| ensures ge(s[0], r[j]) {
          assert r[j] in multiset(s[1..]) + multiset{x};
          if r[j] != x {
            assert r[j] in s[1..];
            var k :| 0 <= k < |s[1..]| && s[1..][k] == r[j];
            assert s[k + 1] == r[j];
          }
        }
      }
    }
  }

  /** The sort puts every element before every element it may not follow. */
  lemma {:induction false} SortOrdered<T(!new)>(xs: seq<T>, ge: (T, T) -> bool)
    requires TotalPreorder(ge)
    ensures Ordered(SortDesc(xs, ge), ge)
  {
    if xs != [] {
      SortOrdered(xs[..|xs| - 1], ge);
      InsertOrdered(xs[|xs| - 1], SortDesc(xs[..|xs| - 1], ge), ge);
    }
  }

  /** The elements of `s` that are tied with `y`, in order. */
  function Tied<T>(s: seq<T>, ge: (T, T) -> bool, y: T): seq<T> {
    if s == [] then []
    else (if ge(s[0], y) && ge(y, s[0]) then [s[0]] else []) + Tied(s[1..], ge, y)
  }

  lemma {:induction false} TiedAppend<T>(a: seq<T>, b: seq<T>, ge: (T, T) -> bool, y: T)
    ensures Tied(a + b, ge, y) == Tied(a, ge, y) + Tied(b, ge, y)
  {
    if a != [] {
      assert (a + b)[0] == a[0];
      assert (a + b)[1..] == a[1..] + b;
      TiedAppend(a[1..], b, ge, y);
    } else {
      assert a + b == b;
    }
  }

  lemma {:induction false} TiedNone<T>(s: seq<T>, ge: (T, T) -> bool, y: T)
    requires forall j :: 0 <= j < |s| ==> !(ge(s[j], y) && ge(y, s[j]))
    ensures Tied(s, ge, y) == []
  {
    if s != [] {
      TiedNone(s[1..], ge, y);
    }
  }

  /** Nothing after an element that may not precede `x` is tied with `x`. */
  lemma NoTiesAfter<T(!new)>(x: T, s: seq<T>, ge: (T, T) -> bool, y: T)
    requires TotalPreorder(ge) && Ordered(s, ge)
    requires s != [] && !ge(s[0], x) && ge(x, y) && ge(y, x)
    ensures Tied(s, ge, y) == []
  {
    forall j | 0 <= j < |s| ensures !(ge(s[j], y) && ge(y, s[j])) {
      if j > 0 {
        assert ge(s[0], s[j]);
      }
    }
    TiedNone(s, ge, y);
  }

  lemma TiedSingle<T>(x: T, ge: (T, T) -> bool, y: T)
    ensures Tied([x], ge, y) == if ge(x, y) && ge(y, x) then [x] else []
  {
    assert [x][..0] == [];
  }

  /** Putting the same element in front of two lists keeps their tied elements related. */
  lemma TiedCons<T>(h: T, t: seq<T>, r: seq<T>, ge: (T, T) -> bool, y: T, mine: seq<T>)
    requires Tied(r, ge, y) == Tied(t, ge, y) + mine
    ensures Tied([h] + r, ge, y) == Tied([h] + t, ge, y) + mine
  {
    TiedAppend([h], r, ge, y);
    TiedAppend([h], t, ge, y);
  }

  lemma InsertTiedFront<T(!new)>(x: T, s: seq<T>, ge: (T, T) -> bool, y: T)
    requires TotalPreorder(ge) && Ordered(s, ge)
    requires s != [] && !ge(s[0], x)
    ensures Tied(Insert(x, s, ge), ge, y) == Tied(s, ge, y) + (if ge(x, y) && ge(y, x) then [x] else [])
  {
    TiedSingle(x, ge, y);
    TiedAppend([x], s, ge, y);
    if ge(x, y) && ge(y, x) {
      NoTiesAfter(x, s, ge, y);
    }
  }

  lemma {:induction false} InsertTied<T(!new)>(x: T, s: seq<T>, ge: (T, T) -> bool, y: T)
    requires TotalPreorder(ge) && Ordered(s, ge)
    ensures Tied(Insert(x, s, ge), ge, y) == Tied(s, ge, y) + (if ge(x, y) && ge(y, x) then [x] else [])
  {
    if s == [] {
      TiedSingle(x, ge, y);
    } else if ge(s[0], x) {
      assert Ordered(s[1..], ge);
      InsertTied(x, s[1..], ge, y);
      TiedCons(s[0], s[1..], Insert(x, s[1..], ge), ge, y, if ge(x, y) && ge(y, x) then [x] else []);
      assert s == [s[0]] + s[1..];
    } else {
      InsertTiedFront(x, s, ge, y);
    }
  }

  /** Stability: elements tied under the order keep their input order. */
  lemma {:induction false} SortStable<T(!new)>(xs: seq<T>, ge: (T, T) -> bool, y: T)
    requires TotalPreorder(ge)
    ensures Tied(SortDesc(xs, ge), ge, y) == Tied(xs, ge, y)
  {
    if xs != [] {
      var init := xs[..|xs| - 1];
      SortStable(init, ge, y);
      SortOrdered(init, ge);
      InsertTied(xs[|xs| - 1], SortDesc(init, ge), ge, y);
      assert xs == init + [xs[|xs| - 1]];
      TiedAppend(init, [xs[|xs| - 1]], ge, y);
      TiedSingle(xs[|xs| - 1], ge, y);
    }
  }

  lemma MultisetTail<T>(a: seq<T>, b: seq<T>)
    requires a != [] && b != [] && a[0] == b[0]
    requires multiset(a) == multiset(b)
    ensures multiset(a[1..]) == multiset(b[1..])
  {
    assert a == [a[0]] + a[1..];
    assert b == [b[0]] + b[1..];
    assert multiset(a) == multiset{a[0]} + multiset(a[1..]);
    assert multiset(b) == multiset{b[0]} + multiset(b[1..]);
    assert multiset(a[1..]) == multiset(a) - multiset{a[0]};
    assert multiset(b[1..]) == multiset(b) - multiset{b[0]};
  }

  /** The first elements of two ordered arrangements of the same elements agree. */
  lemma OrderedHead<T(!new)>(a: seq<T>, b: seq<T>, ge: (T, T) -> bool)
    requires TotalPreorder(ge) && Antisymmetric(ge)
    requires Ordered(a, ge) && Ordered(b, ge)
    requires a != [] && b != [] && multiset(a) == multiset(b)
    ensures a[0] == b[0]
  {
    assert a[0] in multiset(b);
    var k :| 0 <= k < |b| && b[k] == a[0];
    assert b[0] in multiset(a);
    var m :| 0 <= m < |a| && a[m] == b[0];
    assert ge(b[0], a[0]) by { if k > 0 { assert ge(b[0], b[k]); } }
    assert ge(a[0], b[0]) by { if m > 0 { assert ge(a[0], a[m]); } }
  }

  /** Under an order with no distinct ties, two ordered arrangements of the same elements agree. */
  lemma {:induction false} OrderedUnique<T(!new)>(a: seq<T>, b: seq<T>, ge: (T, T) -> bool)
    requires TotalPreorder(ge) && Antisymmetric(ge)
    requires Ordered(a, ge) && Ordered(b, ge)
    requires multiset(a) == multiset(b)
    ensures a == b
  {
    assert |a| == |multiset(a)| == |multiset(b)| == |b|;
    if a != [] {
      OrderedHead(a, b, ge);
      MultisetTail(a, b);
      assert Ordered(a[1..], ge) && Ordered(b[1..], ge);
      OrderedUnique(a[1..], b[1..], ge);
      assert a == [a[0]] + a[1..] && b == [b[0]] + b[1..];
    }
  }

  /** Sorting does not depend on the order its input arrives in, when nothing is tied but equal elements. */
  lemma SortIndependentOfInputOrder<T(!new)>(xs: seq<T>, ys: seq<T>, ge: (T, T) -> bool)
    requires TotalPreorder(ge) && Antisymmetric(ge)
    requires multiset(xs) == multiset(ys)
    ensures SortDesc(xs, ge) == SortDesc(ys, ge)
  {
    SortOrdered(xs, ge);
    SortOrdered(ys, ge);
    OrderedUnique(SortDesc(xs, ge), SortDesc(ys, ge), ge);
  }
}
