/**
 * Sequence vocabulary used across the model: filtering in order,
 * subsequences and keep-first de-duplication (JavaScript's `Set` insertion
 * order, pandas' `drop_duplicates(keep='first')`).
 */
module Seqs {

  /** The elements of `s` satisfying `p`, in their original order. */
  function Filter<T(==,!new)>(s: seq<T>, p: T -> bool): (r: seq<T>)
    ensures |r| <= |s|
    ensures forall x :: x in r <==> x in s && p(x)
  {
    if s == [] then []
    else Filter(s[..|s| - 1], p) + (if p(s[|s| - 1]) then [s[|s| - 1]] else [])
  }

  /** Filtering a non-empty sequence: its head when it passes, then the
      filtered tail. */
  lemma FilterCons<T(!new)>(s: seq<T>, p: T -> bool)
    requires s != []
    ensures p(s[0]) ==> Filter(s, p) == [s[0]] + Filter(s[1..], p)
    ensures !p(s[0]) ==> Filter(s, p) == Filter(s[1..], p)
  {
    var head, tail := [s[0]], s[1..];
    assert s == head + tail;
    FilterAppend(head, tail, p);
    assert head[..0] == [];
    if p(s[0]) {
      assert Filter(head, p) == [s[0]];
    } else {
      assert Filter(head, p) == [];
    }
  }

  /** The elements of `s` not satisfying `p`, in their original order. */
  function Reject<T(==,!new)>(s: seq<T>, p: T -> bool): (r: seq<T>)
    ensures |r| <= |s|
    ensures forall x :: x in r <==> x in s && !p(x)
  {
    if s == [] then []
    else Reject(s[..|s| - 1], p) + (if p(s[|s| - 1]) then [] else [s[|s| - 1]])
  }

  lemma {:induction false} FilterAppend<T(!new)>(a: seq<T>, b: seq<T>, p: T -> bool)
    ensures Filter(a + b, p) == Filter(a, p) + Filter(b, p)
    decreases |b|
  {
    if b == [] {
      assert a + b == a;
    } else {
      assert (a + b)[..|a + b| - 1] == a + b[..|b| - 1];
      FilterAppend(a, b[..|b| - 1], p);
    }
  }

  lemma {:induction false} RejectAppend<T(!new)>(a: seq<T>, b: seq<T>, p: T -> bool)
    ensures Reject(a + b, p) == Reject(a, p) + Reject(b, p)
    decreases |b|
  {
    if b == [] {
      assert a + b == a;
    } else {
      assert (a + b)[..|a + b| - 1] == a + b[..|b| - 1];
      RejectAppend(a, b[..|b| - 1], p);
    }
  }

  /** Every element is kept by exactly one of Filter and Reject. */
  lemma {:induction false} FilterRejectSize<T(!new)>(s: seq<T>, p: T -> bool)
    ensures |Filter(s, p)| + |Reject(s, p)| == |s|
  {
    if s != [] {
      FilterRejectSize(s[..|s| - 1], p);
    }
  }

  /** `a` is `b` with some elements removed, order kept. */
  predicate Subseq<T(==,!new)>(a: seq<T>, b: seq<T>)
    decreases |b|
  {
    if a == [] then true
    else if b == [] then false
    else if a[|a| - 1] == b[|b| - 1] then Subseq(a[..|a| - 1], b[..|b| - 1])
    else Subseq(a, b[..|b| - 1])
  }

  lemma {:induction false} SubseqDropLast<T(!new)>(a: seq<T>, b: seq<T>)
    requires Subseq(a, b) && a != []
    ensures Subseq(a[..|a| - 1], b)
    decreases |b|, 0
  {
    var b' := b[..|b| - 1];
    assert b == b' + [b[|b| - 1]];
    if a[|a| - 1] == b[|b| - 1] {
      SubseqSkipLast(a[..|a| - 1], b', b[|b| - 1]);
    } else {
      SubseqDropLast(a, b');
      SubseqSkipLast(a[..|a| - 1], b', b[|b| - 1]);
    }
  }

  lemma {:induction false} SubseqSkipLast<T(!new)>(a: seq<T>, b: seq<T>, x: T)
    requires Subseq(a, b)
    ensures Subseq(a, b + [x])
    decreases |b|, 1
  {
    assert (b + [x])[..|b|] == b;
    if a != [] && a[|a| - 1] == x {
      SubseqDropLast(a, b);
    }
  }

  /** A subsequence is no longer than the sequence it is drawn from. */
  lemma {:induction false} SubseqLength<T(!new)>(a: seq<T>, b: seq<T>)
    requires Subseq(a, b)
    ensures |a| <= |b|
    decreases |b|
  {
    if a != [] {
      if a[|a| - 1] == b[|b| - 1] {
        SubseqLength(a[..|a| - 1], b[..|b| - 1]);
      } else {
        SubseqLength(a, b[..|b| - 1]);
      }
    }
  }

  lemma SubseqExtend<T(!new)>(a: seq<T>, b: seq<T>, y: T)
    requires Subseq(a, b)
    ensures Subseq(a + [y], b + [y])
  {
    assert (b + [y])[..|b|] == b;
    assert (a + [y])[..|a|] == a;
  }

  lemma {:induction false} SubseqRefl<T(!new)>(s: seq<T>)
    ensures Subseq(s, s)
  {
    if s != [] {
      SubseqRefl(s[..|s| - 1]);
    }
  }

  /** Every prefix of a subsequence is a subsequence. */
  lemma {:induction false} SubseqPrefix<T(!new)>(a: seq<T>, b: seq<T>, n: nat)
    requires Subseq(a, b) && n <= |a|
    ensures Subseq(a[..n], b)
    decreases |a|
  {
    if n == |a| {
      assert a[..n] == a;
    } else {
      SubseqDropLast(a, b);
      assert a[..|a| - 1][..n] == a[..n];
      SubseqPrefix(a[..|a| - 1], b, n);
    }
  }

  /** A filter keeps a subsequence of its input. */
  lemma {:induction false} FilterSubseq<T(!new)>(s: seq<T>, p: T -> bool)
    ensures Subseq(Filter(s, p), s)
  {
    if s != [] {
      var front := s[..|s| - 1];
      FilterSubseq(front, p);
      assert s == front + [s[|s| - 1]];
      if p(s[|s| - 1]) {
        assert Filter(s, p) == Filter(front, p) + [s[|s| - 1]];
        SubseqExtend(Filter(front, p), front, s[|s| - 1]);
      } else {
        assert Filter(s, p) == Filter(front, p);
        SubseqSkipLast(Filter(front, p), front, s[|s| - 1]);
      }
    }
  }

  function Reverse<T>(s: seq<T>): (r: seq<T>)
    ensures |r| == |s|
    ensures forall i :: 0 <= i < |s| ==> r[i] == s[|s| - 1 - i]
  {
    if s == [] then [] else [s[|s| - 1]] + Reverse(s[..|s| - 1])
  }

  lemma {:induction false} ReversePermutation<T>(s: seq<T>)
    ensures multiset(Reverse(s)) == multiset(s)
  {
    if s != [] {
      ReversePermutation(s[..|s| - 1]);
      assert s == s[..|s| - 1] + [s[|s| - 1]];
    }
  }

  /** Equal multisets with equal heads have equal tails. */
  lemma MultisetTail<T>(t1: seq<T>, t2: seq<T>)
    requires t1 != [] && t2 != [] && t1[0] == t2[0] && multiset(t1) == multiset(t2)
    ensures multiset(t1[1..]) == multiset(t2[1..])
  {
    assert t1 == [t1[0]] + t1[1..] && t2 == [t2[0]] + t2[1..];
    assert multiset(t1) == multiset{t1[0]} + multiset(t1[1..]);
    assert multiset(t2) == multiset{t2[0]} + multiset(t2[1..]);
    forall z
      ensures multiset(t1[1..])[z] == multiset(t2[1..])[z]
    {
      assert multiset(t1)[z] == multiset(t2)[z];
    }
  }

  // ---------------------------------------------------------------------
  // Keep-first de-duplication by a key

  function KeysOf<T(==,!new), K(==,!new)>(s: seq<T>, key: T -> K): (ks: seq<K>)
    ensures |ks| == |s|
    ensures forall i :: 0 <= i < |s| ==> ks[i] == key(s[i])
  {
    if s == [] then [] else KeysOf(s[..|s| - 1], key) + [key(s[|s| - 1])]
  }

  /** The first element of `s` for each distinct key, in order of first
      appearance. */
  function DedupBy<T(==,!new), K(==,!new)>(s: seq<T>, key: T -> K): seq<T>
  {
    if s == [] then []
    else
      var front := s[..|s| - 1];
      var x := s[|s| - 1];
      DedupBy(front, key) + (if key(x) in KeysOf(front, key) then [] else [x])
  }

  predicate Distinct<K(==,!new)>(ks: seq<K>) {
    forall i, j :: 0 <= i < j < |ks| ==> ks[i] != ks[j]
  }

  /** The index of the first element whose key is `k`. */
  predicate FirstWithKey<T(==,!new), K(==,!new)>(s: seq<T>, key: T -> K, i: int) {
    0 <= i < |s| && forall j :: 0 <= j < i ==> key(s[j]) != key(s[i])
  }

  /** De-duplication keeps exactly one element per key: the keys it keeps are
      pairwise distinct, every key of the input is kept, and each kept
      element is the first in the input with its key. */
  lemma {:induction false} DedupByProperties<T(!new), K(!new)>(s: seq<T>, key: T -> K)
    ensures Distinct(KeysOf(DedupBy(s, key), key))
    ensures forall k :: k in KeysOf(s, key) <==> k in KeysOf(DedupBy(s, key), key)
    ensures forall x :: x in DedupBy(s, key) ==> exists i :: FirstWithKey(s, key, i) && s[i] == x
    ensures |DedupBy(s, key)| <= |s|
  {
    if s != [] {
      var front := s[..|s| - 1];
      var x := s[|s| - 1];
      DedupByProperties(front, key);
      var d := DedupBy(front, key);
      var r := DedupBy(s, key);
      assert KeysOf(s, key) == KeysOf(front, key) + [key(x)];
      if key(x) in KeysOf(front, key) {
        assert r == d;
      } else {
        assert r == d + [x];
        assert KeysOf(r, key) == KeysOf(d, key) + [key(x)];
        assert FirstWithKey(s, key, |s| - 1);
      }
      forall y | y in r
        ensures exists i :: FirstWithKey(s, key, i) && s[i] == y
      {
        if y in d {
          var i :| FirstWithKey(front, key, i) && front[i] == y;
          assert FirstWithKey(s, key, i);
        } else {
          assert FirstWithKey(s, key, |s| - 1);
        }
      }
    }
  }

  /** De-duplication keeps a subsequence of its input. */
  lemma {:induction false} DedupBySubseq<T(!new), K(!new)>(s: seq<T>, key: T -> K)
    ensures Subseq(DedupBy(s, key), s)
  {
    if s != [] {
      var front := s[..|s| - 1];
      DedupBySubseq(front, key);
      assert s == front + [s[|s| - 1]];
      if key(s[|s| - 1]) in KeysOf(front, key) {
        assert DedupBy(s, key) == DedupBy(front, key);
        SubseqSkipLast(DedupBy(front, key), front, s[|s| - 1]);
      } else {
        assert DedupBy(s, key) == DedupBy(front, key) + [s[|s| - 1]];
        SubseqExtend(DedupBy(front, key), front, s[|s| - 1]);
      }
    }
  }

  /** De-duplicating by a coarser key keeps a subsequence of what the finer
      key keeps: an element that is first with its coarse key is also first
      with its fine key. */
  lemma {:induction false} DedupByCoarser<T(!new), K(!new), L(!new)>(s: seq<T>, fine: T -> K, coarse: T -> L)
    requires forall x, y :: fine(x) == fine(y) ==> coarse(x) == coarse(y)
    ensures Subseq(DedupBy(s, coarse), DedupBy(s, fine))
  {
    if s != [] {
      var front := s[..|s| - 1];
      var x := s[|s| - 1];
      DedupByCoarser(front, fine, coarse);
      var cs, fs := KeysOf(front, coarse), KeysOf(front, fine);
      if coarse(x) in cs {
        assert DedupBy(s, coarse) == DedupBy(front, coarse);
        if fine(x) !in fs {
          assert DedupBy(s, fine) == DedupBy(front, fine) + [x];
          SubseqSkipLast(DedupBy(front, coarse), DedupBy(front, fine), x);
        } else {
          assert DedupBy(s, fine) == DedupBy(front, fine);
        }
      } else {
        forall j | 0 <= j < |front|
          ensures fs[j] != fine(x)
        {
          assert cs[j] == coarse(front[j]) != coarse(x);
        }
        assert DedupBy(s, coarse) == DedupBy(front, coarse) + [x];
        assert DedupBy(s, fine) == DedupBy(front, fine) + [x];
        SubseqExtend(DedupBy(front, coarse), DedupBy(front, fine), x);
      }
    }
  }
}
