/** The accumulator object of the grouping fold and the order in which
    Object.entries lists its properties. Object.entries follows
    OrdinaryOwnPropertyKeys (section 10.1.11.1 of ECMA-262, 2023 edition):
    array-index keys first in ascending numeric order, then the other
    string keys in the order the properties were created. */
module OwnKeys {
  import opened Seqs
  import opened Decimal
  import opened Tickets

  /** One own property: a key and the array of tickets stored under it. */
  type Entry = (string, seq<Ticket>)

  function Keys(ps: seq<Entry>): (ks: seq<string>)
    ensures |ks| == |ps|
    ensures forall i :: 0 <= i < |ps| ==> ks[i] == ps[i].0
  {
    seq(|ps|, i requires 0 <= i < |ps| => ps[i].0)
  }

  /** An object never holds two properties with the same key. */
  predicate DistinctKeys(ps: seq<Entry>) {
    Distinct(Keys(ps))
  }

  /** The numeric value of an array-index key. */
  function IndexValue(k: string): nat {
    if AllDigits(k) then DigitsValue(k) else 0
  }

  predicate IsIndexEntry(e: Entry) {
    IsArrayIndex(e.0)
  }

  /** Where OrdinaryOwnPropertyKeys puts key `a` relative to key `b`, given
      the keys in creation order (`created`, possibly with repetitions;
      only first positions count). */
  predicate KeyPrecedes(created: seq<string>, a: string, b: string) {
    if IsArrayIndex(a) then !IsArrayIndex(b) || IndexValue(a) < IndexValue(b)
    else !IsArrayIndex(b) && IndexOf(created, a) < IndexOf(created, b)
  }

  /** Every earlier entry's key precedes every later one's. */
  predicate InOwnKeyOrder(ps: seq<Entry>, created: seq<string>) {
    forall i, j :: 0 <= i < j < |ps| ==> KeyPrecedes(created, ps[i].0, ps[j].0)
  }

  predicate AscendingByIndex(es: seq<Entry>) {
    forall i, j :: 0 <= i < j < |es| ==> IndexValue(es[i].0) < IndexValue(es[j].0)
  }

  /** An entry whose value is below every value of an ascending list can go in front. */
  lemma PrependAscending(first: Entry, rest: seq<Entry>)
    requires AscendingByIndex(rest)
    requires forall x :: x in rest ==> IndexValue(first.0) < IndexValue(x.0)
    ensures AscendingByIndex([first] + rest)
  {
    var r := [first] + rest;
    forall i, j | 0 <= i < j < |r| ensures IndexValue(r[i].0) < IndexValue(r[j].0) {
      assert r[j] == rest[j - 1];
      if i > 0 {
        assert r[i] == rest[i - 1];
      } else {
        assert rest[j - 1] in rest;
      }
    }
  }

  /** Insert an entry into a list ascending by key value. */
  function InsertByIndex(e: Entry, es: seq<Entry>): (r: seq<Entry>)
    requires AscendingByIndex(es)
    requires forall x :: x in es ==> IndexValue(x.0) != IndexValue(e.0)
    ensures AscendingByIndex(r)
    ensures multiset(r) == multiset(es) + multiset{e}
    ensures forall x :: x in r <==> x in es || x == e
    decreases |es|
  {
    if |es| == 0 || IndexValue(e.0) < IndexValue(es[0].0) then
      BelowHeadBelowAll(e, es);
      PrependAscending(e, es);
      [e] + es
    else
      var first := es[0];
      var tail := es[1..];
      assert es == [first] + tail;
      var rest := InsertByIndex(e, tail);
      HeadBelowInsertion(first, tail, e, rest);
      PrependAscending(first, rest);
      [first] + rest
  }

  /** An entry below the head of an ascending list is below all of it. */
  lemma BelowHeadBelowAll(e: Entry, es: seq<Entry>)
    requires AscendingByIndex(es)
    requires |es| == 0 || IndexValue(e.0) < IndexValue(es[0].0)
    ensures forall x :: x in es ==> IndexValue(e.0) < IndexValue(x.0)
  {
    forall x | x in es ensures IndexValue(e.0) < IndexValue(x.0) {
      var k :| 0 <= k < |es| && es[k] == x;
      assert k == 0 || IndexValue(es[0].0) < IndexValue(es[k].0);
    }
  }

  /** The head of an ascending list stays below the rest after a larger entry is inserted. */
  lemma HeadBelowInsertion(first: Entry, tail: seq<Entry>, e: Entry, rest: seq<Entry>)
    requires AscendingByIndex([first] + tail)
    requires IndexValue(first.0) < IndexValue(e.0)
    requires forall x :: x in rest <==> x in tail || x == e
    ensures forall x :: x in rest ==> IndexValue(first.0) < IndexValue(x.0)
  {
    var es := [first] + tail;
    forall x | x in rest ensures IndexValue(first.0) < IndexValue(x.0) {
      if x != e {
        var k :| 0 <= k < |tail| && tail[k] == x;
        assert es[0] == first && es[k + 1] == x;
      }
    }
  }

  /** The entries ordered by ascending key value. */
  function SortByIndex(es: seq<Entry>): (r: seq<Entry>)
    requires forall i, j :: 0 <= i < j < |es| ==> IndexValue(es[i].0) != IndexValue(es[j].0)
    ensures AscendingByIndex(r)
    ensures multiset(r) == multiset(es)
    ensures forall x :: x in r <==> x in es
    decreases |es|
  {
    if |es| == 0 then []
    else
      var first := es[0];
      var tail := es[1..];
      assert es == [first] + tail;
      TailDiffersFromHead(es);
      var rest := SortByIndex(tail);
      InsertByIndex(first, rest)
  }

  /** In a list with pairwise distinct values, the tail has distinct values
      and none equal to the head's. */
  lemma TailDiffersFromHead(es: seq<Entry>)
    requires |es| > 0
    requires forall i, j :: 0 <= i < j < |es| ==> IndexValue(es[i].0) != IndexValue(es[j].0)
    ensures forall i, j :: 0 <= i < j < |es[1..]| ==> IndexValue(es[1..][i].0) != IndexValue(es[1..][j].0)
    ensures forall x :: x in es[1..] ==> IndexValue(x.0) != IndexValue(es[0].0)
  {
    var tail := es[1..];
    forall x | x in tail ensures IndexValue(x.0) != IndexValue(es[0].0) {
      var k :| 0 <= k < |tail| && tail[k] == x;
      assert es[k + 1] == x;
    }
  }

  /** Object.entries of an object whose own properties, in creation order,
      are `ps`: a reordering of `ps` that follows OrdinaryOwnPropertyKeys. */
  function OwnEntries(ps: seq<Entry>): (r: seq<Entry>)
    requires DistinctKeys(ps)
    ensures multiset(r) == multiset(ps)
    ensures InOwnKeyOrder(r, Keys(ps))
  {
    var index := Filter(ps, IsIndexEntry);
    var other := Filter(ps, (e: Entry) => !IsIndexEntry(e));
    IndexEntriesSortable(ps, index);
    var sorted := SortByIndex(index);
    OtherEntriesInCreationOrder(ps, other);
    SplitPermutation(ps, sorted, other);
    IndexThenOther(sorted, other, Keys(ps));
    sorted + other
  }

  lemma SplitPermutation(ps: seq<Entry>, sorted: seq<Entry>, other: seq<Entry>)
    requires multiset(sorted) == multiset(Filter(ps, IsIndexEntry))
    requires other == Filter(ps, (e: Entry) => !IsIndexEntry(e))
    ensures multiset(sorted + other) == multiset(ps)
  {
    assert forall x :: multiset(sorted + other)[x] == multiset(ps)[x];
  }

  /** Ascending index entries followed by the other entries in creation order are in own-key order. */
  lemma IndexThenOther(sorted: seq<Entry>, other: seq<Entry>, ks: seq<string>)
    requires AscendingByIndex(sorted) && forall x :: x in sorted ==> IsIndexEntry(x)
    requires forall x :: x in other ==> !IsIndexEntry(x)
    requires forall i, j :: 0 <= i < j < |other| ==> IndexOf(ks, other[i].0) < IndexOf(ks, other[j].0)
    ensures InOwnKeyOrder(sorted + other, ks)
  {
    var r := sorted + other;
    forall i, j | 0 <= i < j < |r|
      ensures KeyPrecedes(ks, r[i].0, r[j].0)
    {
      if j < |sorted| {
        assert r[i] == sorted[i] && r[j] == sorted[j];
        assert sorted[i] in sorted && sorted[j] in sorted;
      } else if i < |sorted| {
        assert r[i] == sorted[i] && r[j] == other[j - |sorted|];
        assert sorted[i] in sorted && other[j - |sorted|] in other;
      } else {
        assert r[i] == other[i - |sorted|] && r[j] == other[j - |sorted|];
        assert other[i - |sorted|] in other && other[j - |sorted|] in other;
      }
    }
  }

  /** The array-index entries of an object have pairwise distinct values. */
  lemma IndexEntriesSortable(ps: seq<Entry>, index: seq<Entry>)
    requires DistinctKeys(ps) && index == Filter(ps, IsIndexEntry)
    ensures forall i, j :: 0 <= i < j < |index| ==> IndexValue(index[i].0) != IndexValue(index[j].0)
  {
    FilterKeepsOrder(ps, IsIndexEntry, (x: Entry, y: Entry) => x.0 != y.0);
    forall i, j | 0 <= i < j < |index|
      ensures IndexValue(index[i].0) != IndexValue(index[j].0)
    {
      assert index[i] in index && index[j] in index;
      if IndexValue(index[i].0) == IndexValue(index[j].0) {
        ArrayIndexInjective(index[i].0, index[j].0);
      }
    }
  }

  /** The other entries keep creation order. */
  lemma OtherEntriesInCreationOrder(ps: seq<Entry>, other: seq<Entry>)
    requires DistinctKeys(ps) && other == Filter(ps, (e: Entry) => !IsIndexEntry(e))
    ensures forall i, j :: 0 <= i < j < |other| ==> IndexOf(Keys(ps), other[i].0) < IndexOf(Keys(ps), other[j].0)
  {
    var ks := Keys(ps);
    forall i | 0 <= i < |ps| ensures IndexOf(ks, ps[i].0) == i {
      IndexOfDistinct(ks, i);
    }
    FilterKeepsOrder(ps, (e: Entry) => !IsIndexEntry(e),
                     (x: Entry, y: Entry) => IndexOf(ks, x.0) < IndexOf(ks, y.0));
  }

  /** The order is strict: no key precedes itself, and of two keys at most one precedes the other. */
  lemma KeyPrecedesAsymmetric(created: seq<string>, a: string, b: string)
    ensures !(KeyPrecedes(created, a, b) && KeyPrecedes(created, b, a))
  {
  }
}
