/** Worked examples: three tickets grouped by each key, and a few priority
    strings read as numbers. */
module Scenarios {
  import opened Seqs
  import opened Decimal
  import opened NumericString
  import opened Tickets
  import opened OwnKeys
  import opened DisplayFilter
  import opened Grouping

  const T1: Ticket := Ticket(Int(1), Undefined, Str("Todo"), Int(4), Str("Alice"))
  const T2: Ticket := Ticket(Int(2), Undefined, Str("Todo"), Int(1), Str(""))
  const T3: Ticket := Ticket(Int(3), Undefined, Str("Done"), Int(3), Undefined)
  const Sample: seq<Ticket> := [T1, T2, T3]

  /** By status: "Todo" first, as it occurs first. */
  lemma ByStatus()
    ensures GroupTickets(Sample, Status) == [("Todo", [T1, T2]), ("Done", [T3])]
  {
    var want := [("Todo", [T1, T2]), ("Done", [T3])];
    SampleLabels(Status);
    SampleBuckets(Status, "Todo");
    SampleBuckets(Status, "Done");
    TwoTextColumns(want, Sample, Status);
    GroupingUnique(GroupTickets(Sample, Status), want, Sample, Status);
  }

  /** By name: the empty and the missing name both land in "Ungrouped". */
  lemma ByName()
    ensures GroupTickets(Sample, Name) == [("Alice", [T1]), ("Ungrouped", [T2, T3])]
  {
    var want := [("Alice", [T1]), ("Ungrouped", [T2, T3])];
    SampleLabels(Name);
    SampleBuckets(Name, "Alice");
    SampleBuckets(Name, "Ungrouped");
    TwoTextColumns(want, Sample, Name);
    GroupingUnique(GroupTickets(Sample, Name), want, Sample, Name);
  }

  lemma SampleLabels(g: GroupKey)
    ensures Labels(Sample, g) == [Label(T1, g), Label(T2, g), Label(T3, g)]
  {
    assert Sample[..2] == [T1, T2] && Sample[..2][..1] == [T1];
  }

  lemma SampleBuckets(g: GroupKey, k: string)
    ensures Bucket(Sample, g, k)
            == (if Label(T1, g) == k then [T1] else [])
             + (if Label(T2, g) == k then [T2] else [])
             + (if Label(T3, g) == k then [T3] else [])
  {
    BucketSnoc([], T1, g, k);
    BucketSnoc([T1], T2, g, k);
    BucketSnoc([T1, T2], T3, g, k);
    assert [] + [T1] == [T1] && [T1] + [T2] == [T1, T2] && [T1, T2] + [T3] == Sample;
  }

  /** Two columns with non-numeric keys `a` then `b`, each holding its
      bucket, form the grouping when the labels are `a`, then `a` or `b`,
      then `b`. */
  lemma TwoTextColumns(want: seq<Entry>, data: seq<Ticket>, g: GroupKey)
    requires |want| == 2 && want[0].0 != want[1].0
    requires !IsArrayIndex(want[0].0) && !IsArrayIndex(want[1].0)
    requires var ls := Labels(data, g);
      |ls| == 3 && ls[0] == want[0].0 && ls[2] == want[1].0 && (ls[1] == want[0].0 || ls[1] == want[1].0)
    requires want[0].1 == Bucket(data, g, want[0].0) && want[1].1 == Bucket(data, g, want[1].0)
    ensures IsGrouping(want, data, g)
  {
    TwoKeysCover(want, Labels(data, g));
  }

  lemma TwoKeysCover(want: seq<Entry>, ls: seq<string>)
    requires |want| == 2 && want[0].0 != want[1].0
    requires !IsArrayIndex(want[0].0) && !IsArrayIndex(want[1].0)
    requires |ls| == 3 && ls[0] == want[0].0 && ls[2] == want[1].0 && (ls[1] == want[0].0 || ls[1] == want[1].0)
    ensures DistinctKeys(want)
    ensures forall k :: k in Keys(want) <==> k in ls
    ensures InOwnKeyOrder(want, ls)
  {
    assert Keys(want) == [want[0].0, want[1].0];
    assert IndexOf(ls, want[0].0) == 0;
    assert KeyPrecedes(ls, want[0].0, want[1].0);
  }

  /** High priority grouped by priority: the columns come out as "3" then
      "4" although the ticket with priority 4 comes first, because both keys
      are array indices. */
  lemma HighPriorityByPriority()
    ensures FilterTickets(Sample, HighPriority) == [T1, T3]
    ensures GroupTickets([T1, T3], Priority) == [("3", [T3]), ("4", [T1])]
  {
    HighPriorityOfSample();
    var want := [("3", [T3]), ("4", [T1])];
    PriorityLabelsOfHigh();
    PriorityColumns(want);
    GroupingUnique(GroupTickets([T1, T3], Priority), want, [T1, T3], Priority);
  }

  lemma HighPriorityOfSample()
    ensures FilterTickets(Sample, HighPriority) == [T1, T3]
  {
    HighPriorityOfTwo();
    SampleHighPriority();
    FilterTicketsSnoc([T1, T2], T3, HighPriority);
    assert [T1, T2] + [T3] == Sample;
  }

  lemma HighPriorityOfTwo()
    ensures FilterTickets([T1, T2], HighPriority) == [T1]
  {
    SampleHighPriority();
    FilterTicketsSnoc([], T1, HighPriority);
    FilterTicketsSnoc([T1], T2, HighPriority);
    assert [] + [T1] == [T1] && [T1] + [T2] == [T1, T2];
  }

  lemma SampleHighPriority()
    ensures Shows(HighPriority, T1) && !Shows(HighPriority, T2) && Shows(HighPriority, T3)
  {
    PriorityComparisons(T1);
    PriorityComparisons(T2);
    PriorityComparisons(T3);
  }

  lemma PriorityLabelsOfHigh()
    ensures Labels([T1, T3], Priority) == ["4", "3"]
    ensures Bucket([T1, T3], Priority, "3") == [T3]
    ensures Bucket([T1, T3], Priority, "4") == [T1]
  {
    assert NatToDecimal(4) == "4" && NatToDecimal(3) == "3";
    assert [T1, T3][..1] == [T1];
    BucketSnoc([], T1, Priority, "3");
    BucketSnoc([T1], T3, Priority, "3");
    BucketSnoc([], T1, Priority, "4");
    BucketSnoc([T1], T3, Priority, "4");
    assert [] + [T1] == [T1] && [T1] + [T3] == [T1, T3];
  }

  lemma PriorityColumns(want: seq<Entry>)
    requires want == [("3", [T3]), ("4", [T1])]
    requires Labels([T1, T3], Priority) == ["4", "3"]
    requires Bucket([T1, T3], Priority, "3") == [T3] && Bucket([T1, T3], Priority, "4") == [T1]
    ensures IsGrouping(want, [T1, T3], Priority)
  {
    IndexKeysCover(want, Labels([T1, T3], Priority));
    assert want[0].1 == Bucket([T1, T3], Priority, want[0].0);
    assert want[1].1 == Bucket([T1, T3], Priority, want[1].0);
  }

  lemma IndexKeysCover(want: seq<Entry>, ls: seq<string>)
    requires |want| == 2 && want[0].0 == "3" && want[1].0 == "4" && ls == ["4", "3"]
    ensures DistinctKeys(want)
    ensures forall k :: k in Keys(want) <==> k in ls
    ensures InOwnKeyOrder(want, ls)
  {
    assert Keys(want) == ["3", "4"];
    SmallIndexKeys();
    assert KeyPrecedes(ls, want[0].0, want[1].0);
  }

  lemma SmallIndexKeys()
    ensures IsArrayIndex("3") && IsArrayIndex("4")
    ensures IndexValue("3") == 3 && IndexValue("4") == 4
  {
    assert DigitsValue("3") == 3 && DigitsValue("4") == 4;
  }

  /** An empty priority string reads as 0, so it counts as low priority. */
  lemma EmptyStringIsZero()
    ensures StringToNumber("") == Finite(0.0)
  {
  }

  /** Text that is no numeric literal reads as NaN. */
  lemma WordIsNaN()
    ensures StringToNumber("abc") == NaN
  {
    assert TrimStart("abc") == "abc" && TrimEnd("abc") == "abc";
    ReadAfterTrim("abc", "abc");
    WordIsNoLiteral();
  }

  lemma WordIsNoLiteral()
    ensures ParseUnsignedDecimal("abc") == NaN
  {
    NoExponentMarker("abc");
    assert !IsDigit('a');
  }

  lemma NoExponentMarker(u: string)
    requires u == "abc"
    ensures IndexOf(u, 'e') == 3 && IndexOf(u, 'E') == 3 && IndexOf(u, '.') == 3
  {
  }

  /** Surrounding white space is ignored. */
  lemma PaddedNumber()
    ensures StringToNumber(" 42 ") == Finite(42.0)
  {
    PaddedTrim();
    ReadAfterTrim(" 42 ", "42");
    FortyTwo();
  }

  lemma PaddedTrim()
    ensures TrimEnd(TrimStart(" 42 ")) == "42"
  {
    assert TrimStart(" 42 ") == "42 ";
    assert TrimEnd("42 ") == "42";
  }

  lemma FortyTwo()
    ensures ParseDecimal("42") == Finite(42.0)
  {
    ParseDigits("42");
    assert DigitsValue("42") == 42 by {
      assert "42"[..1] == "4";
    }
  }

  /** A hexadecimal literal is read in base 16. */
  lemma HexNumber()
    ensures StringToNumber("0x1F") == Finite(31.0)
  {
    assert TrimStart("0x1F") == "0x1F" && TrimEnd("0x1F") == "0x1F";
    ReadAfterTrim("0x1F", "0x1F");
    HexDigits();
  }

  lemma HexDigits()
    ensures PrefixRadix("0x1F") == 16
    ensures ParseNonDecimal("0x1F") == Finite(31.0)
  {
    assert "0x1F"[2..] == "1F" && "1F"[..1] == "1" && "1"[..0] == "";
    assert HexDigitValue('1') == 1 && HexDigitValue('F') == 15;
  }

  lemma ReadAfterTrim(s: string, t: string)
    requires TrimEnd(TrimStart(s)) == t && |t| >= 1
    ensures PrefixRadix(t) != 0 ==> StringToNumber(s) == ParseNonDecimal(t)
    ensures PrefixRadix(t) == 0 ==> StringToNumber(s) == ParseDecimal(t)
  {
  }
}
