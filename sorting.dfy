/**
 * `Array.prototype.sort` with a comparator, as a stable insertion sort.
 *
 * An element taken from the input is inserted into the already sorted
 * prefix and moves left past an element `e` exactly while `cmp(x, e) < 0`:
 * the pivot is the comparator's first argument and ties keep input order,
 * which is the stable behaviour ECMAScript requires since 2019.
 */
module Sorting {
  import opened Seqs

  function Insert<T(!new)>(x: T, s: seq<T>, cmp: (T, T) -> int): (r: seq<T>)
    ensures |r| == |s| + 1
  {
    if s == [] then [x]
    else if cmp(x, s[|s| - 1]) < 0 then Insert(x, s[..|s| - 1], cmp) + [s[|s| - 1]]
    else s + [x]
  }

  function InsertionSort<T(!new)>(s: seq<T>, cmp: (T, T) -> int): (r: seq<T>)
    ensures |r| == |s|
  {
    if s == [] then []
    else Insert(s[|s| - 1], InsertionSort(s[..|s| - 1], cmp), cmp)
  }

  lemma {:induction false} InsertPermutation<T(!new)>(x: T, s: seq<T>, cmp: (T, T) -> int)
    ensures multiset(Insert(x, s, cmp)) == multiset(s) + multiset{x}
  {
    if s != [] && cmp(x, s[|s| - 1]) < 0 {
      assert s == s[..|s| - 1] + [s[|s| - 1]];
      InsertPermutation(x, s[..|s| - 1], cmp);
    }
  }

  /** The sorted array is a permutation of the input. */
  lemma {:induction false} InsertionSortPermutation<T(!new)>(s: seq<T>, cmp: (T, T) -> int)
    ensures multiset(InsertionSort(s, cmp)) == multiset(s)
  {
    if s != [] {
      assert s == s[..|s| - 1] + [s[|s| - 1]];
      InsertionSortPermutation(s[..|s| - 1], cmp);
      InsertPermutation(s[|s| - 1], InsertionSort(s[..|s| - 1], cmp), cmp);
    }
  }

  /** `cmp` is a consistent comparator on the elements of `u`: it orders
      `a` before `b` exactly when it orders `b` after `a`, and "not after"
      is transitive. */
  ghost predicate Consistent<T(!new)>(u: seq<T>, cmp: (T, T) -> int) {
    (forall a, b {:trigger a in u, b in u} :: a in u && b in u ==> (cmp(a, b) < 0 <==> cmp(b, a) > 0))
    && (forall a, b, c {:trigger a in u, b in u, c in u} ::
          a in u && b in u && c in u && cmp(a, b) <= 0 && cmp(b, c) <= 0 ==> cmp(a, c) <= 0)
  }

  predicate Sorted<T(!new)>(s: seq<T>, cmp: (T, T) -> int) {
    forall i, j :: 0 <= i < j < |s| ==> cmp(s[i], s[j]) <= 0
  }

  lemma {:induction false} InsertSorted<T(!new)>(x: T, s: seq<T>, cmp: (T, T) -> int, u: seq<T>)
    requires Consistent(u, cmp)
    requires x in u && forall y :: y in s ==> y in u
    requires Sorted(s, cmp)
    ensures Sorted(Insert(x, s, cmp), cmp)
  {
    if s != [] {
      var front, last := s[..|s| - 1], s[|s| - 1];
      assert last in s;
      if cmp(x, last) < 0 {
        assert forall y :: y in front ==> y in s;
        InsertSorted(x, front, cmp, u);
        var a := Insert(x, front, cmp);
        InsertPermutation(x, front, cmp);
        forall i | 0 <= i < |a|
          ensures cmp(a[i], last) <= 0
        {
          assert a[i] in multiset(front) + multiset{x};
          if a[i] != x {
            var k :| 0 <= k < |front| && front[k] == a[i];
            assert s[k] == a[i];
          }
        }
      } else {
        assert cmp(last, x) <= 0;
        forall i | 0 <= i < |s|
          ensures cmp(s[i], x) <= 0
        {
          assert s[i] in s;
          if i < |s| - 1 {
            assert cmp(s[i], last) <= 0;
          }
        }
      }
    }
  }

  /** With a consistent comparator the result is in order. */
  lemma {:induction false} InsertionSortSorted<T(!new)>(s: seq<T>, cmp: (T, T) -> int)
    requires Consistent(s, cmp)
    ensures Sorted(InsertionSort(s, cmp), cmp)
  {
    if s != [] {
      var front := s[..|s| - 1];
      assert forall y :: y in front ==> y in s;
      ConsistentSub(s, front, cmp);
      InsertionSortSorted(front, cmp);
      var t := InsertionSort(front, cmp);
      InsertionSortPermutation(front, cmp);
      forall y | y in t
        ensures y in s
      {
        assert y in multiset(t);
      }
      InsertSorted(s[|s| - 1], t, cmp, s);
    }
  }

  lemma ConsistentSub<T(!new)>(u: seq<T>, v: seq<T>, cmp: (T, T) -> int)
    requires Consistent(u, cmp)
    requires forall y :: y in v ==> y in u
    ensures Consistent(v, cmp)
  {
  }

  // ---------------------------------------------------------------------
  // Stability

  /** The elements of `s` the comparator ties with `x`, in order. */
  function Ties<T(!new)>(s: seq<T>, x: T, cmp: (T, T) -> int): seq<T> {
    if s == [] then []
    else Ties(s[..|s| - 1], x, cmp) + (if cmp(x, s[|s| - 1]) == 0 then [s[|s| - 1]] else [])
  }

  lemma {:induction false} TiesAppend<T(!new)>(a: seq<T>, b: seq<T>, x: T, cmp: (T, T) -> int)
    ensures Ties(a + b, x, cmp) == Ties(a, x, cmp) + Ties(b, x, cmp)
    decreases |b|
  {
    if b == [] {
      assert a + b == a;
    } else {
      assert (a + b)[..|a + b| - 1] == a + b[..|b| - 1];
      TiesAppend(a, b[..|b| - 1], x, cmp);
    }
  }

  lemma {:induction false} InsertTies<T(!new)>(y: T, s: seq<T>, x: T, cmp: (T, T) -> int, u: seq<T>)
    requires Consistent(u, cmp)
    requires x in u && y in u && forall z :: z in s ==> z in u
    ensures Ties(Insert(y, s, cmp), x, cmp) == Ties(s, x, cmp) + (if cmp(x, y) == 0 then [y] else [])
  {
    if s != [] {
      var front, last := s[..|s| - 1], s[|s| - 1];
      assert last in s;
      var tiesY := if cmp(x, y) == 0 then [y] else [];
      var tiesLast := if cmp(x, last) == 0 then [last] else [];
      assert Ties(s, x, cmp) == Ties(front, x, cmp) + tiesLast;
      if cmp(y, last) < 0 {
        assert forall z :: z in front ==> z in s;
        InsertTies(y, front, x, cmp, u);
        TiesAppend(Insert(y, front, cmp), [last], x, cmp);
        assert Ties([last], x, cmp) == tiesLast;
        if cmp(x, last) == 0 {
          // `y` passed `last`, so it cannot tie with what ties with `last`
          assert cmp(last, y) > 0 && cmp(last, x) <= 0;
          assert tiesY == [];
        } else {
          assert tiesLast == [];
        }
      } else {
        TiesAppend(s, [y], x, cmp);
        assert Ties([y], x, cmp) == tiesY;
      }
    }
  }

  /** Stability: elements the comparator ties keep their input order. */
  lemma {:induction false} InsertionSortStable<T(!new)>(s: seq<T>, x: T, cmp: (T, T) -> int)
    requires Consistent(s + [x], cmp)
    ensures Ties(InsertionSort(s, cmp), x, cmp) == Ties(s, x, cmp)
  {
    if s != [] {
      var front := s[..|s| - 1];
      assert forall z :: z in front + [x] ==> z in s + [x];
      ConsistentSub(s + [x], front + [x], cmp);
      InsertionSortStable(front, x, cmp);
      var t := InsertionSort(front, cmp);
      InsertionSortPermutation(front, cmp);
      forall z | z in t
        ensures z in s + [x]
      {
        assert z in multiset(t);
      }
      InsertTies(s[|s| - 1], t, x, cmp, s + [x]);
    }
  }

  // ---------------------------------------------------------------------
  // Elements that compare after everything

  /** `bottom` elements sort after every other element: a bottom pivot is
      never moved left, and any other pivot always passes a bottom one. */
  ghost predicate BottomLast<T(!new)>(cmp: (T, T) -> int, bottom: T -> bool) {
    (forall a, b :: bottom(a) ==> cmp(a, b) >= 0)
    && (forall a, b :: !bottom(a) && bottom(b) ==> cmp(a, b) < 0)
  }

  lemma {:induction false} InsertPastBottom<T(!new)>(x: T, s: seq<T>, z: seq<T>, cmp: (T, T) -> int, bottom: T -> bool)
    requires BottomLast(cmp, bottom)
    requires !bottom(x)
    requires forall i :: 0 <= i < |z| ==> bottom(z[i])
    ensures Insert(x, s + z, cmp) == Insert(x, s, cmp) + z
    decreases |z|
  {
    if z != [] {
      var last := z[|z| - 1];
      assert (s + z)[..|s + z| - 1] == s + z[..|z| - 1];
      InsertPastBottom(x, s, z[..|z| - 1], cmp, bottom);
      assert Insert(x, s, cmp) + z[..|z| - 1] + [last] == Insert(x, s, cmp) + z;
    } else {
      assert s + z == s;
    }
  }

  lemma InsertBottom<T(!new)>(x: T, t: seq<T>, cmp: (T, T) -> int, bottom: T -> bool)
    requires BottomLast(cmp, bottom)
    requires bottom(x)
    ensures Insert(x, t, cmp) == t + [x]
  {
  }

  /** Bottom elements end up after all others, in input order, and the
      others are sorted among themselves. */
  lemma {:induction false} InsertionSortBottomLast<T(!new)>(s: seq<T>, cmp: (T, T) -> int, bottom: T -> bool)
    requires BottomLast(cmp, bottom)
    ensures InsertionSort(s, cmp) == InsertionSort(Reject(s, bottom), cmp) + Filter(s, bottom)
  {
    if s != [] {
      var front, x := s[..|s| - 1], s[|s| - 1];
      assert InsertionSort(s, cmp) == Insert(x, InsertionSort(front, cmp), cmp);
      InsertionSortBottomLast(front, cmp, bottom);
      if bottom(x) {
        BottomLastStepBottom(s, cmp, bottom);
      } else {
        BottomLastStepOther(s, cmp, bottom);
      }
    }
  }

  lemma BottomLastStepBottom<T(!new)>(s: seq<T>, cmp: (T, T) -> int, bottom: T -> bool)
    requires BottomLast(cmp, bottom)
    requires s != [] && bottom(s[|s| - 1])
    requires InsertionSort(s[..|s| - 1], cmp)
      == InsertionSort(Reject(s[..|s| - 1], bottom), cmp) + Filter(s[..|s| - 1], bottom)
    ensures InsertionSort(s, cmp) == InsertionSort(Reject(s, bottom), cmp) + Filter(s, bottom)
  {
    InsertBottom(s[|s| - 1], InsertionSort(s[..|s| - 1], cmp), cmp, bottom);
    AppendBottom(s, cmp, bottom);
  }

  /** The step for a bottom element once its insertion is known to append it. */
  lemma AppendBottom<T(!new)>(s: seq<T>, cmp: (T, T) -> int, bottom: T -> bool)
    requires s != [] && bottom(s[|s| - 1])
    requires InsertionSort(s[..|s| - 1], cmp)
      == InsertionSort(Reject(s[..|s| - 1], bottom), cmp) + Filter(s[..|s| - 1], bottom)
    requires Insert(s[|s| - 1], InsertionSort(s[..|s| - 1], cmp), cmp) == InsertionSort(s[..|s| - 1], cmp) + [s[|s| - 1]]
    ensures InsertionSort(s, cmp) == InsertionSort(Reject(s, bottom), cmp) + Filter(s, bottom)
  {
    var front, x := s[..|s| - 1], s[|s| - 1];
    assert InsertionSort(s, cmp) == Insert(x, InsertionSort(front, cmp), cmp);
    assert Filter(s, bottom) == Filter(front, bottom) + [x];
    assert Reject(s, bottom) == Reject(front, bottom);
    var a, z := InsertionSort(Reject(front, bottom), cmp), Filter(front, bottom);
    assert (a + z) + [x] == a + (z + [x]);
  }

  lemma BottomLastStepOther<T(!new)>(s: seq<T>, cmp: (T, T) -> int, bottom: T -> bool)
    requires BottomLast(cmp, bottom)
    requires s != [] && !bottom(s[|s| - 1])
    requires InsertionSort(s[..|s| - 1], cmp)
      == InsertionSort(Reject(s[..|s| - 1], bottom), cmp) + Filter(s[..|s| - 1], bottom)
    ensures InsertionSort(s, cmp) == InsertionSort(Reject(s, bottom), cmp) + Filter(s, bottom)
  {
    var front, x := s[..|s| - 1], s[|s| - 1];
    assert InsertionSort(s, cmp) == Insert(x, InsertionSort(front, cmp), cmp);
    var p, z := Reject(front, bottom), Filter(front, bottom);
    assert forall i :: 0 <= i < |z| ==> z[i] in z;
    InsertPastBottom(x, InsertionSort(p, cmp), z, cmp, bottom);
    assert Reject(s, bottom) == p + [x];
    assert Filter(s, bottom) == z;
  }
}
