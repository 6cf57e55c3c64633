/** Sequence vocabulary shared by the filter, the grouping fold and the
    property-order model: distinctness, first positions, order-preserving
    filtering, subsequences and the concatenation of grouped buckets. */
module Seqs {

  /** No element occurs twice. */
  predicate Distinct<T(==)>(s: seq<T>) {
    forall i, j :: 0 <= i < j < |s| ==> s[i] != s[j]
  }

  /** Position of the first occurrence of `x` in `s`, or `|s|` when `x` does not occur. */
  function IndexOf<T(==)>(s: seq<T>, x: T): (i: nat)
    ensures i <= |s|
    ensures i < |s| <==> x in s
    ensures i < |s| ==> s[i] == x
    ensures forall j :: 0 <= j < i ==> s[j] != x
  {
    if |s| == 0 then 0
    else if s[0] == x then 0
    else 1 + IndexOf(s[1..], x)
  }

  /** In a sequence without repetitions, every element's first position is its position. */
  lemma IndexOfDistinct<T>(s: seq<T>, i: nat)
    requires Distinct(s) && i < |s|
    ensures IndexOf(s, s[i]) == i
  {
  }

  /** Appending an element leaves the first position of an element already present unchanged. */
  lemma IndexOfAppend<T>(s: seq<T>, y: T, x: T)
    requires x in s
    ensures IndexOf(s + [y], x) == IndexOf(s, x)
  {
    var i := IndexOf(s, x);
    assert (s + [y])[i] == x;
  }

  /** `a` is obtained from `b` by deleting elements: the last element of `b`
      is either used for the last element of `a` or skipped. */
  predicate IsSubsequence<T(==)>(a: seq<T>, b: seq<T>)
    decreases |b|
  {
    if |a| == 0 then true
    else if |b| == 0 then false
    else (a[|a| - 1] == b[|b| - 1] && IsSubsequence(a[..|a| - 1], b[..|b| - 1]))
         || IsSubsequence(a, b[..|b| - 1])
  }

  lemma {:induction false} SubsequenceReflexive<T>(s: seq<T>)
    ensures IsSubsequence(s, s)
    decreases |s|
  {
    if |s| > 0 {
      SubsequenceReflexive(s[..|s| - 1]);
    }
  }

  /** The elements of `s` that satisfy `p`, in their original order
      (Array.prototype.filter). */
  function Filter<T(==,!new)>(s: seq<T>, p: T -> bool): (r: seq<T>)
    ensures |r| <= |s|
    ensures forall x :: x in r ==> x in s && p(x)
    ensures forall x :: multiset(r)[x] == if p(x) then multiset(s)[x] else 0
    ensures IsSubsequence(r, s)
    decreases |s|
  {
    if |s| == 0 then []
    else
      var pre := s[..|s| - 1];
      var last := s[|s| - 1];
      var f := Filter(pre, p);
      assert s == pre + [last];
      assert multiset(s) == multiset(pre) + multiset{last};
      if p(last) then
        var r := f + [last];
        assert r[..|r| - 1] == f;
        r
      else
        f
  }

  /** Filtering distributes over concatenation. */
  lemma {:induction false} FilterAppend<T(!new)>(a: seq<T>, b: seq<T>, p: T -> bool)
    ensures Filter(a + b, p) == Filter(a, p) + Filter(b, p)
    decreases |b|
  {
    if |b| > 0 {
      var b' := b[..|b| - 1];
      assert (a + b)[..|a + b| - 1] == a + b';
      FilterAppend(a, b', p);
    } else {
      assert a + b == a;
    }
  }

  /** Filtering twice with the same predicate is filtering once. */
  lemma {:induction false} FilterIdempotent<T(!new)>(s: seq<T>, p: T -> bool)
    ensures Filter(Filter(s, p), p) == Filter(s, p)
    decreases |s|
  {
    if |s| > 0 {
      var pre := s[..|s| - 1];
      FilterIdempotent(pre, p);
      var x := s[|s| - 1];
      FilterAppend(Filter(pre, p), if p(x) then [x] else [], p);
    }
  }

  /** Any relation that holds between every earlier and later element of `s`
      still holds between earlier and later elements of a filtered `s`:
      filtering keeps relative order. */
  lemma {:induction false} FilterKeepsOrder<T(!new)>(s: seq<T>, p: T -> bool, before: (T, T) -> bool)
    requires forall i, j :: 0 <= i < j < |s| ==> before(s[i], s[j])
    ensures forall i, j :: 0 <= i < j < |Filter(s, p)| ==> before(Filter(s, p)[i], Filter(s, p)[j])
    decreases |s|
  {
    if |s| > 0 {
      var pre := s[..|s| - 1];
      var last := s[|s| - 1];
      FilterKeepsOrder(pre, p, before);
      var f := Filter(pre, p);
      var r := Filter(s, p);
      forall i, j | 0 <= i < j < |r|
        ensures before(r[i], r[j])
      {
        if j >= |f| {
          assert r[i] == f[i] && r[j] == last;
          assert f[i] in pre;
          var a :| 0 <= a < |pre| && pre[a] == f[i];
          assert s[a] == f[i];
        } else {
          assert r[i] == f[i] && r[j] == f[j];
        }
      }
    }
  }

  /** The concatenation of the buckets of a list of (key, bucket) pairs, in list order. */
  function Flatten<K, T>(entries: seq<(K, seq<T>)>): seq<T>
    decreases |entries|
  {
    if |entries| == 0 then []
    else Flatten(entries[..|entries| - 1]) + entries[|entries| - 1].1
  }

  lemma {:induction false} FlattenAppend<K, T>(a: seq<(K, seq<T>)>, b: seq<(K, seq<T>)>)
    ensures Flatten(a + b) == Flatten(a) + Flatten(b)
    decreases |b|
  {
    if |b| == 0 {
      assert a + b == a;
    } else {
      var b' := b[..|b| - 1];
      assert (a + b)[..|a + b| - 1] == a + b';
      FlattenAppend(a, b');
    }
  }

  /** Reordering the entries does not change which tickets the buckets hold, counted with multiplicity. */
  lemma {:induction false} FlattenPermutation<K, T>(a: seq<(K, seq<T>)>, b: seq<(K, seq<T>)>)
    requires multiset(a) == multiset(b)
    ensures multiset(Flatten(a)) == multiset(Flatten(b))
    decreases |a|
  {
    if |a| == 0 {
      assert |multiset(b)| == 0;
    } else {
      var a' := a[..|a| - 1];
      var x := a[|a| - 1];
      assert a == a' + [x];
      assert x in b by {
        assert x in multiset(a);
      }
      var i := IndexOf(b, x);
      var left, right := b[..i], b[i + 1..];
      assert b == left + [x] + right;
      RemoveOne(a', x, b, i);
      FlattenPermutation(a', left + right);
      FlattenAround(left, x, right);
      var fa, fb := Flatten(a'), Flatten(left + right);
      assert multiset(fa) == multiset(fb);
      assert Flatten(a) == fa + x.1;
      assert Flatten(b) == Flatten(left) + x.1 + Flatten(right);
      assert multiset(Flatten(b)) == multiset(fb) + multiset(x.1);
    }
  }

  lemma RemoveOne<E>(a': seq<E>, x: E, b: seq<E>, i: nat)
    requires i < |b| && b[i] == x
    requires multiset(a' + [x]) == multiset(b)
    ensures multiset(a') == multiset(b[..i] + b[i + 1..])
  {
    assert b == b[..i] + [x] + b[i + 1..];
    calc {
      multiset(a');
      multiset(a' + [x]) - multiset{x};
      multiset(b) - multiset{x};
      multiset(b[..i]) + multiset{x} + multiset(b[i + 1..]) - multiset{x};
      multiset(b[..i] + b[i + 1..]);
    }
  }

  lemma FlattenAround<K, T>(left: seq<(K, seq<T>)>, x: (K, seq<T>), right: seq<(K, seq<T>)>)
    ensures Flatten(left + [x] + right) == Flatten(left) + x.1 + Flatten(right)
    ensures Flatten(left + right) == Flatten(left) + Flatten(right)
  {
    FlattenAppend(left, [x]);
    FlattenAppend(left + [x], right);
    FlattenAppend(left, right);
    assert [x][..0] == [];
  }

  /** The distinct elements of `s` in order of first occurrence. */
  function FirstOccurrences<T(==,!new)>(s: seq<T>): (d: seq<T>)
    ensures forall x :: x in d <==> x in s
    ensures Distinct(d)
    ensures forall i, j :: 0 <= i < j < |d| ==> IndexOf(s, d[i]) < IndexOf(s, d[j])
    decreases |s|
  {
    if |s| == 0 then []
    else
      var pre := s[..|s| - 1];
      var x := s[|s| - 1];
      var p := FirstOccurrences(pre);
      assert s == pre + [x];
      assert forall y :: y in pre ==> IndexOf(s, y) == IndexOf(pre, y) by {
        forall y | y in pre ensures IndexOf(s, y) == IndexOf(pre, y) {
          IndexOfAppend(pre, x, y);
        }
      }
      if x in p then p
      else
        assert IndexOf(s, x) == |pre|;
        p + [x]
  }
}
