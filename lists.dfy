/** Python list semantics the core relies on: slicing with a possibly negative stop,
    indexing with possibly negative positions, and duplicate-freedom. */
module Lists {
  import opened Wrappers

  predicate Distinct<T(==)>(s: seq<T>) {
    forall i, j :: 0 <= i < j < |s| ==> s[i] != s[j]
  }

  /** Some occurrence of `x` in `s` comes before some occurrence of `y`. */
  predicate Before<T(==)>(s: seq<T>, x: T, y: T) {
    exists a, b :: 0 <= a < b < |s| && s[a] == x && s[b] == y
  }

  /** Appending keeps every earlier order, and puts any earlier element before the new last one. */
  lemma BeforeSnoc<T>(s: seq<T>, z: T)
    ensures forall x, y :: Before(s, x, y) ==> Before(s + [z], x, y)
    ensures forall x :: x in s ==> Before(s + [z], x, z)
  {
    var s' := s + [z];
    forall x, y | Before(s, x, y) ensures Before(s', x, y) {
      var a, b :| 0 <= a < b < |s| && s[a] == x && s[b] == y;
      assert s'[a] == x && s'[b] == y;
    }
    forall x | x in s ensures Before(s', x, z) {
      var a :| 0 <= a < |s| && s[a] == x;
      assert s'[a] == x && s'[|s|] == z;
    }
  }

  /** The end position Python uses for `xs[:stop]` on a list of length `n`:
      a negative stop counts from the end, and both ends are clamped. */
  function SliceEnd(n: nat, stop: int): (e: nat)
    ensures e <= n
    ensures stop >= 0 ==> e == if stop < n then stop else n
    ensures stop < 0 ==> e == if n + stop > 0 then n + stop else 0
  {
    if stop >= 0 then (if stop < n then stop else n)
    else if n + stop > 0 then n + stop else 0
  }

  /** The element Python's `xs[i]` selects in a list of length `n`, or None where it raises IndexError. */
  function PyIndex(n: nat, i: int): (r: Option<nat>)
    ensures r.Some? <==> 0 <= n + i && i < n
    ensures r.Some? ==> r.value < n
    ensures 0 <= i < n ==> r.Some? && r.value == i
    ensures 0 <= n + i && i < 0 ==> r.Some? && r.value == n + i
  {
    if 0 <= i < n then Some(i as nat) else if 0 <= n + i && i < 0 then Some((n + i) as nat) else None
  }

  lemma DistinctPrefix<T>(s: seq<T>, k: nat)
    requires Distinct(s) && k <= |s|
    ensures Distinct(s[..k])
  {
  }

  /** A duplicate-free list of elements of `a` is no longer than `a`. */
  lemma {:induction false} DistinctSubsetLength<T>(s: seq<T>, a: set<T>)
    requires Distinct(s)
    requires forall x :: x in s ==> x in a
    ensures |s| <= |a|
  {
    if s != [] {
      var x := s[|s| - 1];
      var rest := s[..|s| - 1];
      assert forall y :: y in rest ==> y in a - {x} by {
        forall y | y in rest ensures y in a - {x} {
          var k :| 0 <= k < |rest| && rest[k] == y;
          assert s[k] == y && s[|s| - 1] == x;
        }
      }
      DistinctSubsetLength(rest, a - {x});
    }
  }

  /** A duplicate-free list of elements of `a` that is as long as `a` lists all of `a`. */
  lemma DistinctCovers<T>(s: seq<T>, a: set<T>)
    requires Distinct(s) && |s| == |a|
    requires forall x :: x in s ==> x in a
    ensures forall x :: x in a ==> x in s
  {
    forall y | y in a ensures y in s {
      if y !in s {
        DistinctSubsetLength(s, a - {y});
      }
    }
  }

  /** A duplicate-free list holds as many elements as the set of its elements. */
  lemma {:induction false} DistinctCardinality<T>(s: seq<T>)
    requires Distinct(s)
    ensures |set x | x in s| == |s|
  {
    if s != [] {
      var rest := s[..|s| - 1];
      var x := s[|s| - 1];
      DistinctCardinality(rest);
      assert x !in rest by {
        forall k | 0 <= k < |rest| ensures rest[k] != x {
          assert rest[k] == s[k];
        }
      }
      assert (set y | y in s) == (set y | y in rest) + {x} by {
        assert s == rest + [x];
      }
    }
  }

  /** Some duplicate-free listing of a finite set; `list(s)` lists a Python set in an order
      the language leaves unspecified, so callers may rely on nothing but this. */
  lemma {:induction false} Enumerate<T>(s: set<T>) returns (l: seq<T>)
    ensures Distinct(l) && |l| == |s|
    ensures forall x :: x in l <==> x in s
    decreases |s|
  {
    if s == {} {
      l := [];
    } else {
      var x :| x in s;
      var rest := Enumerate(s - {x});
      l := [x] + rest;
      forall i, j | 0 <= i < j < |l| ensures l[i] != l[j] {
        assert l[j] == rest[j - 1];
        if i > 0 {
          assert l[i] == rest[i - 1];
        }
      }
    }
  }

  /** A list is duplicate-free exactly when no element occurs twice in its multiset. */
  lemma {:induction false} DistinctMultiset<T>(s: seq<T>)
    ensures Distinct(s) <==> forall x :: multiset(s)[x] <= 1
  {
    if s != [] {
      var init, x := s[..|s| - 1], s[|s| - 1];
      assert s == init + [x];
      DistinctMultiset(init);
      if Distinct(s) {
        assert Distinct(init);
        assert x !in init by {
          forall k | 0 <= k < |init| ensures init[k] != x {
            assert init[k] == s[k];
          }
        }
      } else {
        var i, j :| 0 <= i < j < |s| && s[i] == s[j];
        if j < |s| - 1 {
          assert init[i] == init[j];
          assert !Distinct(init);
          var y :| multiset(init)[y] > 1;
          assert multiset(s)[y] >= multiset(init)[y];
        } else {
          assert init[i] == x;
          assert x in multiset(init);
          assert multiset(s)[x] == multiset(init)[x] + 1;
          assert multiset(s)[x] > 1;
        }
      }
    }
  }

  /** Rearranging a duplicate-free list leaves it duplicate-free. */
  lemma DistinctPermutation<T>(a: seq<T>, b: seq<T>)
    requires Distinct(a) && multiset(a) == multiset(b)
    ensures Distinct(b)
  {
    DistinctMultiset(a);
    DistinctMultiset(b);
  }

  /** Rearranging a list keeps its elements. */
  lemma PermutationElements<T>(a: seq<T>, b: seq<T>)
    requires multiset(a) == multiset(b)
    ensures forall x :: x in a <==> x in b
  {
    forall x ensures x in a <==> x in b {
      assert x in a <==> x in multiset(a);
      assert x in b <==> x in multiset(b);
    }
  }

  /** Two duplicate-free lists with the same elements are rearrangements of each other. */
  lemma DistinctSameElements<T>(a: seq<T>, b: seq<T>)
    requires Distinct(a) && Distinct(b)
    requires forall x :: x in a <==> x in b
    ensures multiset(a) == multiset(b)
  {
    DistinctMultiset(a);
    DistinctMultiset(b);
    forall x ensures multiset(a)[x] == multiset(b)[x] {
      assert x in a <==> x in multiset(a);
      assert x in b <==> x in multiset(b);
    }
  }
}
