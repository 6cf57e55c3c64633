/** The board's grouping function: fold the tickets into an object with one
    array per label, then list that object's entries. The accumulator here
    has no inherited properties; AsWritten models the source's accumulator,
    which does. */
module Grouping {
  import opened Seqs
  import opened Decimal
  import opened Tickets
  import opened OwnKeys

  /** The label of every ticket, in input order. */
  function Labels(data: seq<Ticket>, g: GroupKey): (ls: seq<string>)
    ensures |ls| == |data|
    ensures forall i :: 0 <= i < |data| ==> ls[i] == Label(data[i], g)
    decreases |data|
  {
    if |data| == 0 then [] else Labels(data[..|data| - 1], g) + [Label(data[|data| - 1], g)]
  }

  /** The tickets labelled `k`, in input order. */
  function Bucket(data: seq<Ticket>, g: GroupKey, k: string): seq<Ticket>
    decreases |data|
  {
    if |data| == 0 then []
    else
      var t := data[|data| - 1];
      Bucket(data[..|data| - 1], g, k) + (if Label(t, g) == k then [t] else [])
  }

  predicate Labelled(g: GroupKey, k: string, t: Ticket) {
    Label(t, g) == k
  }

  /** A bucket is the input filtered by label. */
  lemma {:induction false} BucketIsFilter(data: seq<Ticket>, g: GroupKey, k: string)
    ensures Bucket(data, g, k) == Filter(data, t => Labelled(g, k, t))
    decreases |data|
  {
    if |data| > 0 {
      BucketIsFilter(data[..|data| - 1], g, k);
    }
  }

  /** A bucket holds the input's tickets with that label, each as often as
      the input does, in input order. */
  lemma BucketContents(data: seq<Ticket>, g: GroupKey, k: string)
    ensures forall t :: t in Bucket(data, g, k) ==> t in data && Label(t, g) == k
    ensures forall t :: multiset(Bucket(data, g, k))[t] == if Label(t, g) == k then multiset(data)[t] else 0
    ensures IsSubsequence(Bucket(data, g, k), data)
  {
    BucketIsFilter(data, g, k);
  }

  /** One column per key of `d`, holding that key's tickets. */
  function Columns(d: seq<string>, data: seq<Ticket>, g: GroupKey): (cs: seq<Entry>)
    ensures |cs| == |d| && Keys(cs) == d
  {
    var cs := seq(|d|, i requires 0 <= i < |d| => (d[i], Bucket(data, g, d[i])));
    assert Keys(cs) == d;
    cs
  }

  /** The accumulator stated directly: one property per distinct label, in
      order of first occurrence, holding that label's tickets. */
  function Accumulated(data: seq<Ticket>, g: GroupKey): seq<Entry> {
    Columns(FirstOccurrences(Labels(data, g)), data, g)
  }

  /** One step of the fold: the ticket is appended to the array stored under
      its label, and an absent label first gets an empty array as a new
      property after all existing ones. No other property changes. */
  function AddTicket(acc: seq<Entry>, k: string, t: Ticket): (r: seq<Entry>)
    ensures Keys(r) == if k in Keys(acc) then Keys(acc) else Keys(acc) + [k]
    ensures forall i :: 0 <= i < |acc| && acc[i].0 != k ==> r[i] == acc[i]
    ensures k in Keys(acc) ==> r[IndexOf(Keys(acc), k)].1 == acc[IndexOf(Keys(acc), k)].1 + [t]
    ensures k !in Keys(acc) ==> r[|acc|] == (k, [t])
  {
    var i := IndexOf(Keys(acc), k);
    if i < |acc| then acc[i := (k, acc[i].1 + [t])] else acc + [(k, [t])]
  }

  /** The fold over the tickets, starting from an empty accumulator: its own
      properties in creation order. Each label becomes exactly one property. */
  function Reduce(data: seq<Ticket>, g: GroupKey): (r: seq<Entry>)
    ensures DistinctKeys(r)
    ensures forall k :: k in Keys(r) <==> k in Labels(data, g)
    decreases |data|
  {
    if |data| == 0 then []
    else
      var pre := data[..|data| - 1];
      var t := data[|data| - 1];
      var acc := Reduce(pre, g);
      assert Labels(data, g) == Labels(pre, g) + [Label(t, g)];
      AddTicket(acc, Label(t, g), t)
  }

  /** What the grouping promises: one column per distinct label, holding
      exactly that label's tickets in input order, with the columns in
      OrdinaryOwnPropertyKeys order. */
  predicate IsGrouping(r: seq<Entry>, data: seq<Ticket>, g: GroupKey) {
    && DistinctKeys(r)
    && (forall k :: k in Keys(r) ==> k in Labels(data, g))
    && (forall k :: k in Labels(data, g) ==> k in Keys(r))
    && (forall i :: 0 <= i < |r| ==> r[i].1 == Bucket(data, g, r[i].0))
    && InOwnKeyOrder(r, Labels(data, g))
  }

  /** The grouping of an array: the folded accumulator's entries, listed as Object.entries lists them. */
  function GroupTickets(data: seq<Ticket>, g: GroupKey): (r: seq<Entry>)
    ensures IsGrouping(r, data, g)
    ensures multiset(Flatten(r)) == multiset(data)
  {
    var acc := Reduce(data, g);
    ReduceIsAccumulated(data, g);
    AccumulatedKeys(data, g);
    var r := OwnEntries(acc);
    ReducePartition(data, g);
    FlattenPermutation(r, acc);
    GroupingFromEntries(data, g, acc, r);
    r
  }

  /** The grouping of any value: a non-array gives no columns. */
  function GroupValue(data: TicketList, g: GroupKey): (r: seq<Entry>)
    ensures data.NotAnArray? ==> r == []
    ensures data.TicketArray? ==> IsGrouping(r, data.items, g) && multiset(Flatten(r)) == multiset(data.items)
  {
    match data
    case NotAnArray => []
    case TicketArray(items) => GroupTickets(items, g)
  }

  lemma BucketSnoc(data: seq<Ticket>, t: Ticket, g: GroupKey, k: string)
    ensures Bucket(data + [t], g, k) == Bucket(data, g, k) + (if Label(t, g) == k then [t] else [])
  {
    assert (data + [t])[..|data|] == data;
  }

  /** A label no ticket carries has an empty bucket. */
  lemma BucketOfAbsentLabel(data: seq<Ticket>, g: GroupKey, k: string)
    requires k !in Labels(data, g)
    ensures Bucket(data, g, k) == []
  {
    BucketContents(data, g, k);
  }

  /** The accumulator's keys are the distinct labels in first-occurrence order. */
  lemma AccumulatedKeys(data: seq<Ticket>, g: GroupKey)
    ensures Keys(Accumulated(data, g)) == FirstOccurrences(Labels(data, g))
    ensures DistinctKeys(Accumulated(data, g))
  {
  }

  /** The fold builds exactly the accumulator described by Accumulated. */
  lemma {:induction false} ReduceIsAccumulated(data: seq<Ticket>, g: GroupKey)
    ensures Reduce(data, g) == Accumulated(data, g)
    decreases |data|
  {
    if |data| > 0 {
      var pre := data[..|data| - 1];
      var t := data[|data| - 1];
      assert data == pre + [t];
      ReduceIsAccumulated(pre, g);
      AccumulatedSnoc(pre, t, g);
    }
  }

  /** Adding one ticket to the described accumulator of a prefix gives the
      described accumulator of the longer list. */
  lemma AccumulatedSnoc(pre: seq<Ticket>, t: Ticket, g: GroupKey)
    ensures AddTicket(Accumulated(pre, g), Label(t, g), t) == Accumulated(pre + [t], g)
  {
    var data := pre + [t];
    var k := Label(t, g);
    var d := FirstOccurrences(Labels(pre, g));
    assert data[..|data| - 1] == pre;
    var ls := Labels(data, g);
    assert ls[..|ls| - 1] == Labels(pre, g);
    var i := IndexOf(d, k);
    if i < |d| {
      assert FirstOccurrences(ls) == d;
      ColumnsExtend(d, pre, t, g, i);
    } else {
      assert FirstOccurrences(ls) == d + [k];
      assert k !in Labels(pre, g);
      BucketOfAbsentLabel(pre, g, k);
      ColumnsAppend(d, pre, t, g);
    }
  }

  /** A ticket whose label already has a column goes to the end of that column. */
  lemma ColumnsExtend(d: seq<string>, pre: seq<Ticket>, t: Ticket, g: GroupKey, i: nat)
    requires Distinct(d) && i < |d| && d[i] == Label(t, g) && IndexOf(d, Label(t, g)) == i
    ensures AddTicket(Columns(d, pre, g), Label(t, g), t) == Columns(d, pre + [t], g)
  {
    AddToExisting(Columns(d, pre, g), Label(t, g), t, i);
    ExtendColumn(d, pre, t, g, i);
  }

  /** Adding under a key the accumulator already has replaces that entry. */
  lemma AddToExisting(acc: seq<Entry>, k: string, t: Ticket, i: nat)
    requires i < |acc| && IndexOf(Keys(acc), k) == i
    ensures AddTicket(acc, k, t) == acc[i := (k, acc[i].1 + [t])]
  {
  }

  lemma ExtendColumn(d: seq<string>, pre: seq<Ticket>, t: Ticket, g: GroupKey, i: nat)
    requires Distinct(d) && i < |d| && d[i] == Label(t, g)
    ensures Columns(d, pre, g)[i := (d[i], Columns(d, pre, g)[i].1 + [t])] == Columns(d, pre + [t], g)
  {
    var next := Columns(d, pre, g)[i := (d[i], Columns(d, pre, g)[i].1 + [t])];
    forall j | 0 <= j < |d|
      ensures next[j] == Columns(d, pre + [t], g)[j]
    {
      ExtendAt(d, pre, t, g, i, j);
    }
  }

  lemma ExtendAt(d: seq<string>, pre: seq<Ticket>, t: Ticket, g: GroupKey, i: nat, j: nat)
    requires i < |d| && j < |d| && d[i] == Label(t, g) && (j != i ==> d[j] != d[i])
    ensures Columns(d, pre, g)[i := (d[i], Columns(d, pre, g)[i].1 + [t])][j] == Columns(d, pre + [t], g)[j]
  {
    ColumnStep(d, pre, t, g, i);
    ColumnStep(d, pre, t, g, j);
    var b := Bucket(pre, g, d[j]);
    assert b + [] == b;
  }

  /** A ticket with a new label opens a column after all existing ones. */
  lemma ColumnsAppend(d: seq<string>, pre: seq<Ticket>, t: Ticket, g: GroupKey)
    requires Label(t, g) !in d && Bucket(pre, g, Label(t, g)) == []
    ensures AddTicket(Columns(d, pre, g), Label(t, g), t) == Columns(d + [Label(t, g)], pre + [t], g)
  {
    var k := Label(t, g);
    var old_, new_ := Columns(d, pre, g), Columns(d + [k], pre + [t], g);
    var next := old_ + [(k, [t])];
    assert AddTicket(old_, k, t) == next;
    forall j | 0 <= j < |d| + 1
      ensures next[j] == new_[j]
    {
      AppendAt(d, pre, t, g, j);
    }
  }

  lemma AppendAt(d: seq<string>, pre: seq<Ticket>, t: Ticket, g: GroupKey, j: nat)
    requires j <= |d| && (j < |d| ==> d[j] != Label(t, g)) && Bucket(pre, g, Label(t, g)) == []
    ensures (Columns(d, pre, g) + [(Label(t, g), [t])])[j] == Columns(d + [Label(t, g)], pre + [t], g)[j]
  {
    var d' := d + [Label(t, g)];
    ColumnStep(d', pre, t, g, j);
    if j < |d| {
      assert d'[j] == d[j];
      ColumnStep(d, pre, t, g, j);
      var b := Bucket(pre, g, d[j]);
      assert b + [] == b;
    } else {
      assert [] + [t] == [t];
    }
  }

  /** Column `j` before and after one more ticket. */
  lemma ColumnStep(d: seq<string>, pre: seq<Ticket>, t: Ticket, g: GroupKey, j: nat)
    requires j < |d|
    ensures j < |Columns(d, pre, g)| ==> Columns(d, pre, g)[j] == (d[j], Bucket(pre, g, d[j]))
    ensures Columns(d, pre + [t], g)[j]
            == (d[j], Bucket(pre, g, d[j]) + (if Label(t, g) == d[j] then [t] else []))
  {
    BucketSnoc(pre, t, g, d[j]);
  }

  /** One step of the fold adds the ticket to the accumulator's contents once. */
  lemma AddTicketPartition(acc: seq<Entry>, k: string, t: Ticket)
    ensures multiset(Flatten(AddTicket(acc, k, t))) == multiset(Flatten(acc)) + multiset{t}
  {
    var i := IndexOf(Keys(acc), k);
    if i < |acc| {
      var left, right := acc[..i], acc[i + 1..];
      assert acc == left + [acc[i]] + right;
      assert AddTicket(acc, k, t) == left + [(k, acc[i].1 + [t])] + right;
      FlattenAround(left, acc[i], right);
      FlattenAround(left, (k, acc[i].1 + [t]), right);
    } else {
      FlattenAppend(acc, [(k, [t])]);
      assert [(k, [t])][..0] == [];
    }
  }

  /** The fold neither loses nor duplicates a ticket. */
  lemma {:induction false} ReducePartition(data: seq<Ticket>, g: GroupKey)
    ensures multiset(Flatten(Reduce(data, g))) == multiset(data)
    decreases |data|
  {
    if |data| > 0 {
      var pre := data[..|data| - 1];
      var t := data[|data| - 1];
      assert data == pre + [t];
      ReducePartition(pre, g);
      AddTicketPartition(Reduce(pre, g), Label(t, g), t);
    }
  }

  /** Listing the accumulator's entries in own-key order gives a grouping. */
  lemma GroupingFromEntries(data: seq<Ticket>, g: GroupKey, acc: seq<Entry>, r: seq<Entry>)
    requires acc == Accumulated(data, g)
    requires multiset(r) == multiset(acc)
    requires InOwnKeyOrder(r, Keys(acc))
    ensures IsGrouping(r, data, g)
  {
    var labels := Labels(data, g);
    var d := FirstOccurrences(labels);
    AccumulatedKeys(data, g);
    forall i | 0 <= i < |r|
      ensures r[i].0 in labels && r[i].1 == Bucket(data, g, r[i].0)
    {
      assert r[i] in multiset(acc);
      EntryOfAccumulated(data, g, acc, r[i]);
    }
    forall k | k in labels
      ensures k in Keys(r)
    {
      LabelHasEntry(data, g, acc, r, k);
    }
    forall i, j | 0 <= i < j < |r|
      ensures KeyPrecedes(labels, r[i].0, r[j].0) && r[i].0 != r[j].0
    {
      PrecedesByFirstOccurrence(labels, r[i].0, r[j].0);
    }
  }

  /** Every entry of the accumulator is a label with its bucket. */
  lemma EntryOfAccumulated(data: seq<Ticket>, g: GroupKey, acc: seq<Entry>, e: Entry)
    requires acc == Accumulated(data, g) && e in acc
    ensures e.0 in Labels(data, g) && e.1 == Bucket(data, g, e.0)
  {
    var d := FirstOccurrences(Labels(data, g));
    var j :| 0 <= j < |acc| && acc[j] == e;
    ColumnAt(d, data, g, j);
    assert d[j] in d;
  }

  /** Every label has an entry among any reordering of the accumulator. */
  lemma LabelHasEntry(data: seq<Ticket>, g: GroupKey, acc: seq<Entry>, r: seq<Entry>, k: string)
    requires acc == Accumulated(data, g) && multiset(r) == multiset(acc) && k in Labels(data, g)
    ensures k in Keys(r)
  {
    var d := FirstOccurrences(Labels(data, g));
    var j := IndexOf(d, k);
    ColumnAt(d, data, g, j);
    assert acc[j] in multiset(r);
    var i :| 0 <= i < |r| && r[i] == acc[j];
    assert Keys(r)[i] == k;
  }

  /** Precedence among the distinct labels carries over to the labels with repetitions. */
  lemma PrecedesByFirstOccurrence(labels: seq<string>, a: string, b: string)
    requires a in labels && b in labels && KeyPrecedes(FirstOccurrences(labels), a, b)
    ensures KeyPrecedes(labels, a, b) && a != b
  {
    var d := FirstOccurrences(labels);
    if !IsArrayIndex(a) {
      var x, y := IndexOf(d, a), IndexOf(d, b);
      assert x < y;
    }
  }

  lemma ColumnAt(d: seq<string>, data: seq<Ticket>, g: GroupKey, j: nat)
    requires j < |d|
    ensures Columns(d, data, g)[j] == (d[j], Bucket(data, g, d[j]))
  {
  }

  /** The grouping is determined by the tickets and the key: two results
      meeting IsGrouping are the same list. */
  lemma GroupingUnique(r1: seq<Entry>, r2: seq<Entry>, data: seq<Ticket>, g: GroupKey)
    requires IsGrouping(r1, data, g) && IsGrouping(r2, data, g)
    ensures r1 == r2
  {
    var n := if |r1| <= |r2| then |r1| else |r2|;
    PrefixesAgree(r1, r2, data, g, n);
    SameLength(r1, r2, data, g, n);
    assert r1 == r1[..n] && r2 == r2[..n];
  }

  /** A grouping never extends another grouping of the same tickets. */
  lemma SameLength(r1: seq<Entry>, r2: seq<Entry>, data: seq<Ticket>, g: GroupKey, n: nat)
    requires IsGrouping(r1, data, g) && IsGrouping(r2, data, g)
    requires n <= |r1| && n <= |r2| && (n == |r1| || n == |r2|) && r1[..n] == r2[..n]
    ensures |r1| == |r2|
  {
    if |r1| > n {
      KeyShared(r1, r2, data, g, n);
      NextKeyIsNew(r1, r2, n);
    } else if |r2| > n {
      KeyShared(r2, r1, data, g, n);
      NextKeyIsNew(r2, r1, n);
    }
  }

  /** The key after a prefix of distinct keys is not among that prefix's keys. */
  lemma NextKeyIsNew(long: seq<Entry>, short: seq<Entry>, n: nat)
    requires DistinctKeys(long) && n < |long| && |short| == n && long[..n] == short[..n]
    ensures long[n].0 !in Keys(short)
  {
  }

  /** Every key of one grouping is a key of any other grouping of the same tickets. */
  lemma KeyShared(r1: seq<Entry>, r2: seq<Entry>, data: seq<Ticket>, g: GroupKey, i: nat)
    requires IsGrouping(r1, data, g) && IsGrouping(r2, data, g) && i < |r1|
    ensures r1[i].0 in Keys(r2)
  {
    assert Keys(r1)[i] == r1[i].0;
  }

  lemma {:induction false} PrefixesAgree(r1: seq<Entry>, r2: seq<Entry>, data: seq<Ticket>, g: GroupKey, n: nat)
    requires IsGrouping(r1, data, g) && IsGrouping(r2, data, g)
    requires n <= |r1| && n <= |r2|
    ensures r1[..n] == r2[..n]
    decreases n
  {
    if n > 0 {
      var i := n - 1;
      PrefixesAgree(r1, r2, data, g, i);
      SameEntryAt(r1, r2, data, g, i);
      assert r1[..n] == r1[..i] + [r1[i]] && r2[..n] == r2[..i] + [r2[i]];
    }
  }

  /** Two groupings agreeing before position `i` agree at `i`: the key there is
      the first remaining key in own-key order, whichever grouping one looks at. */
  lemma SameEntryAt(r1: seq<Entry>, r2: seq<Entry>, data: seq<Ticket>, g: GroupKey, i: nat)
    requires IsGrouping(r1, data, g) && IsGrouping(r2, data, g)
    requires i < |r1| && i < |r2| && r1[..i] == r2[..i]
    ensures r1[i] == r2[i]
  {
    var labels := Labels(data, g);
    var a, b := r1[i].0, r2[i].0;
    if a != b {
      assert Keys(r1)[i] == a && Keys(r2)[i] == b;
      var ja := IndexOf(Keys(r2), a);
      var jb := IndexOf(Keys(r1), b);
      LaterPosition(r1, r2, i, ja, jb);
      assert KeyPrecedes(labels, b, a) && KeyPrecedes(labels, a, b);
      KeyPrecedesAsymmetric(labels, a, b);
    }
  }

  lemma LaterPosition(r1: seq<Entry>, r2: seq<Entry>, i: nat, ja: nat, jb: nat)
    requires DistinctKeys(r1) && DistinctKeys(r2)
    requires i < |r1| && i < |r2| && r1[..i] == r2[..i]
    requires ja < |r2| && r2[ja].0 == r1[i].0 && jb < |r1| && r1[jb].0 == r2[i].0
    requires r1[i].0 != r2[i].0
    ensures ja > i && jb > i
  {
  }

  /** Every input ticket sits in exactly one column: the one named by its label. */
  lemma EachTicketInOneColumn(data: seq<Ticket>, g: GroupKey, t: Ticket)
    requires t in data
    ensures var r := GroupTickets(data, g);
      && (exists i :: 0 <= i < |r| && r[i].0 == Label(t, g) && t in r[i].1)
      && (forall i :: 0 <= i < |r| && t in r[i].1 ==> r[i].0 == Label(t, g))
  {
    PlacedByLabel(GroupTickets(data, g), data, g, t);
  }

  lemma PlacedByLabel(r: seq<Entry>, data: seq<Ticket>, g: GroupKey, t: Ticket)
    requires IsGrouping(r, data, g) && t in data
    ensures exists i :: 0 <= i < |r| && r[i].0 == Label(t, g) && t in r[i].1
    ensures forall i :: 0 <= i < |r| && t in r[i].1 ==> r[i].0 == Label(t, g)
  {
    var k := Label(t, g);
    var m :| 0 <= m < |data| && data[m] == t;
    assert Labels(data, g)[m] == k;
    assert k in Keys(r);
    var i :| 0 <= i < |r| && Keys(r)[i] == k;
    BucketContents(data, g, k);
    assert multiset(r[i].1)[t] == multiset(data)[t];
    forall j | 0 <= j < |r| && t in r[j].1
      ensures r[j].0 == k
    {
      BucketContents(data, g, r[j].0);
    }
  }

  /** No column is empty, and every column holds only tickets of the input
      carrying its label, in input order. */
  lemma ColumnsNonEmpty(data: seq<Ticket>, g: GroupKey)
    ensures var r := GroupTickets(data, g);
      forall i :: 0 <= i < |r| ==>
        && |r[i].1| > 0
        && IsSubsequence(r[i].1, data)
        && (forall t :: t in r[i].1 ==> t in data && Label(t, g) == r[i].0)
  {
    var r := GroupTickets(data, g);
    forall i | 0 <= i < |r|
      ensures |r[i].1| > 0
      ensures IsSubsequence(r[i].1, data)
      ensures forall t :: t in r[i].1 ==> t in data && Label(t, g) == r[i].0
    {
      ColumnFacts(r, data, g, i);
    }
  }

  lemma ColumnFacts(r: seq<Entry>, data: seq<Ticket>, g: GroupKey, i: nat)
    requires IsGrouping(r, data, g) && i < |r|
    ensures |r[i].1| > 0
    ensures IsSubsequence(r[i].1, data)
    ensures forall t :: t in r[i].1 ==> t in data && Label(t, g) == r[i].0
  {
    var k := r[i].0;
    assert Keys(r)[i] == k;
    assert k in Labels(data, g);
    BucketContents(data, g, k);
    var m :| 0 <= m < |data| && Labels(data, g)[m] == k;
    assert multiset(r[i].1)[data[m]] == multiset(data)[data[m]];
  }

  /** No tickets, no columns. */
  lemma GroupEmpty(g: GroupKey)
    ensures GroupTickets([], g) == []
  {
  }

  /** When every priority is an integer in 0 .. 2^32 - 2, grouping by
      priority lists the numeric columns in ascending order, whatever order
      the tickets arrived in; each is the decimal text of a non-zero
      priority that occurs; priority 0 is falsy and goes to "Ungrouped",
      which, when present, is the last column: no column follows it. */
  lemma PriorityColumnsAscending(data: seq<Ticket>)
    requires forall t :: t in data ==> t.priority.Int? && 0 <= t.priority.n < ArrayIndexBound
    ensures var r := GroupTickets(data, Priority);
      && (forall i, j :: 0 <= i < j < |r| && r[j].0 != Ungrouped ==> IndexValue(r[i].0) < IndexValue(r[j].0))
      && (forall i :: 0 <= i < |r| && r[i].0 != Ungrouped ==>
            exists t :: t in data && t.priority.n != 0 && r[i].0 == NatToDecimal(t.priority.n))
      && (forall i :: 0 <= i < |r| && r[i].0 == Ungrouped ==> i == |r| - 1)
      && (Ungrouped in Keys(r) <==> exists t :: t in data && t.priority.n == 0)
  {
    PriorityGrouping(GroupTickets(data, Priority), data);
  }

  lemma PriorityGrouping(r: seq<Entry>, data: seq<Ticket>)
    requires IsGrouping(r, data, Priority)
    requires forall t :: t in data ==> t.priority.Int? && 0 <= t.priority.n < ArrayIndexBound
    ensures forall i, j :: 0 <= i < j < |r| && r[j].0 != Ungrouped ==> IndexValue(r[i].0) < IndexValue(r[j].0)
    ensures forall i :: 0 <= i < |r| && r[i].0 != Ungrouped ==>
      exists t :: t in data && t.priority.n != 0 && r[i].0 == NatToDecimal(t.priority.n)
    ensures forall i :: 0 <= i < |r| && r[i].0 == Ungrouped ==> i == |r| - 1
    ensures Ungrouped in Keys(r) <==> exists t :: t in data && t.priority.n == 0
  {
    PriorityKeys(r, data);
    PriorityOrder(r, data);
    UngroupedColumn(r, data);
  }

  lemma PriorityKeys(r: seq<Entry>, data: seq<Ticket>)
    requires IsGrouping(r, data, Priority)
    requires forall t :: t in data ==> t.priority.Int? && 0 <= t.priority.n < ArrayIndexBound
    ensures forall i :: 0 <= i < |r| ==> r[i].0 == Ungrouped || IsArrayIndex(r[i].0)
    ensures forall i :: 0 <= i < |r| && r[i].0 != Ungrouped ==>
      exists t :: t in data && t.priority.n != 0 && r[i].0 == NatToDecimal(t.priority.n)
  {
    forall i | 0 <= i < |r|
      ensures r[i].0 == Ungrouped || IsArrayIndex(r[i].0)
      ensures r[i].0 != Ungrouped ==> exists t :: t in data && t.priority.n != 0 && r[i].0 == NatToDecimal(t.priority.n)
    {
      PriorityColumnKey(r, data, i);
    }
  }

  /** With every key "Ungrouped" or an array index, the index keys ascend
      and nothing follows "Ungrouped". */
  lemma PriorityOrder(r: seq<Entry>, data: seq<Ticket>)
    requires IsGrouping(r, data, Priority)
    requires forall i :: 0 <= i < |r| ==> r[i].0 == Ungrouped || IsArrayIndex(r[i].0)
    ensures forall i, j :: 0 <= i < j < |r| && r[j].0 != Ungrouped ==> IndexValue(r[i].0) < IndexValue(r[j].0)
    ensures forall i :: 0 <= i < |r| && r[i].0 == Ungrouped ==> i == |r| - 1
  {
    UngroupedNotIndex();
    forall i, j | 0 <= i < j < |r| && r[j].0 != Ungrouped
      ensures IndexValue(r[i].0) < IndexValue(r[j].0)
    {
      assert KeyPrecedes(Labels(data, Priority), r[i].0, r[j].0);
    }
    forall i | 0 <= i < |r| - 1
      ensures r[i].0 != Ungrouped
    {
      assert KeyPrecedes(Labels(data, Priority), r[i].0, r[i + 1].0);
      KeysDiffer(r, i, i + 1);
    }
  }

  lemma KeysDiffer(r: seq<Entry>, i: nat, j: nat)
    requires DistinctKeys(r) && i < j < |r|
    ensures r[i].0 != r[j].0
  {
    assert Keys(r)[i] == r[i].0 && Keys(r)[j] == r[j].0;
  }

  /** The "Ungrouped" column exists exactly when some priority is 0. */
  lemma UngroupedColumn(r: seq<Entry>, data: seq<Ticket>)
    requires IsGrouping(r, data, Priority)
    requires forall t :: t in data ==> t.priority.Int? && 0 <= t.priority.n < ArrayIndexBound
    ensures Ungrouped in Keys(r) <==> exists t :: t in data && t.priority.n == 0
  {
    if Ungrouped in Keys(r) {
      var m :| 0 <= m < |data| && Labels(data, Priority)[m] == Ungrouped;
      PriorityLabel(data[m]);
      UngroupedNotIndex();
      assert data[m] in data;
    }
    if t :| t in data && t.priority.n == 0 {
      var m :| 0 <= m < |data| && data[m] == t;
      assert Labels(data, Priority)[m] == Ungrouped;
    }
  }

  /** Under such priorities every priority column is "Ungrouped" or an
      array-index key spelling a non-zero priority that occurs. */
  lemma PriorityColumnKey(r: seq<Entry>, data: seq<Ticket>, i: nat)
    requires IsGrouping(r, data, Priority) && i < |r|
    requires forall t :: t in data ==> t.priority.Int? && 0 <= t.priority.n < ArrayIndexBound
    ensures r[i].0 == Ungrouped || IsArrayIndex(r[i].0)
    ensures r[i].0 != Ungrouped ==> exists t :: t in data && t.priority.n != 0 && r[i].0 == NatToDecimal(t.priority.n)
  {
    assert Keys(r)[i] == r[i].0;
    assert r[i].0 in Labels(data, Priority);
    var m :| 0 <= m < |data| && Labels(data, Priority)[m] == r[i].0;
    var t := data[m];
    assert t in data;
    PriorityLabel(t);
  }

  /** Priority 0 is falsy and labels "Ungrouped"; a positive integer
      priority below 2^32 - 1 labels its column with its decimal text,
      which is an array index. */
  lemma PriorityLabel(t: Ticket)
    requires t.priority.Int? && 0 <= t.priority.n < ArrayIndexBound
    ensures t.priority.n == 0 ==> Label(t, Priority) == Ungrouped
    ensures t.priority.n != 0 ==> Label(t, Priority) == NatToDecimal(t.priority.n) && IsArrayIndex(Label(t, Priority))
  {
    IntKeyArrayIndex(t.priority.n);
  }

  /** "Ungrouped" is not an array index, so it is listed after them. */
  lemma UngroupedNotIndex()
    ensures !IsArrayIndex(Ungrouped)
  {
    assert !IsDigit(Ungrouped[0]);
  }
}
