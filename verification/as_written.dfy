/** The grouping with the accumulator the source actually uses: an empty
    object literal, whose prototype is Object.prototype. Reading a property
    the object does not own falls through to the prototype, so a label
    naming one of Object.prototype's properties finds a function (or, for
    "__proto__", Object.prototype itself). That value is truthy, so the
    fallback to a fresh array is skipped, and pushing onto it throws a
    TypeError.
    Grouping.GroupTickets is the same fold over an object without inherited
    properties; this module states exactly when the two differ. */
module AsWritten {
  import opened Seqs
  import opened Tickets
  import opened OwnKeys
  import opened DisplayFilter
  import opened Grouping
  import opened Board

  /** How a piece of code ends: with a value, or by throwing. */
  datatype Completion<T> = Normal(value: T) | Throw(error: string)

  const TypeError: string := "TypeError"

  /** The properties every ordinary object inherits from Object.prototype:
      sections 20.1.3.1 to 20.1.3.7 of ECMA-262, 2023 edition, and the
      legacy accessors of its Annex B.2.2. */
  const InheritedKeys: set<string> := {
    "constructor", "hasOwnProperty", "isPrototypeOf", "propertyIsEnumerable",
    "toLocaleString", "toString", "valueOf",
    "__proto__", "__defineGetter__", "__defineSetter__", "__lookupGetter__", "__lookupSetter__"
  }

  /** Whether some ticket's label names an inherited property. */
  predicate HitsPrototype(data: seq<Ticket>, g: GroupKey) {
    exists t :: t in data && Label(t, g) in InheritedKeys
  }

  /** One step of the fold on an object-literal accumulator. A key the
      accumulator owns gets the ticket appended; an absent key that is not
      inherited gets a new array; an inherited key yields a non-array, and
      pushing onto it throws. A throw ends the fold. */
  function StepAsWritten(acc: Completion<seq<Entry>>, t: Ticket, g: GroupKey): (r: Completion<seq<Entry>>)
    ensures acc.Throw? ==> r == acc
    ensures acc.Normal? ==> (r.Throw? <==> Label(t, g) !in Keys(acc.value) && Label(t, g) in InheritedKeys)
    ensures r.Normal? ==> r.value == AddTicket(acc.value, Label(t, g), t)
  {
    match acc
    case Throw(e) => acc
    case Normal(ps) =>
      var k := Label(t, g);
      if k !in Keys(ps) && k in InheritedKeys then Throw(TypeError)
      else Normal(AddTicket(ps, k, t))
  }

  /** The fold over the tickets on an object-literal accumulator, as written:
      it throws exactly when a label names an inherited property, and
      otherwise builds the same properties as the fold without a prototype. */
  function ReduceAsWritten(data: seq<Ticket>, g: GroupKey): (r: Completion<seq<Entry>>)
    ensures r.Throw? <==> HitsPrototype(data, g)
    ensures r.Throw? ==> r.error == TypeError
    ensures r.Normal? ==> r.value == Reduce(data, g)
    decreases |data|
  {
    if |data| == 0 then Normal([])
    else
      var pre := data[..|data| - 1];
      var t := data[|data| - 1];
      var acc := ReduceAsWritten(pre, g);
      FoldStep(data, pre, t, g);
      if Label(t, g) in Keys(Reduce(pre, g)) && Label(t, g) in InheritedKeys then
        OwnedInheritedLabel(pre, g, Label(t, g));
        StepAsWritten(acc, t, g)
      else
        StepAsWritten(acc, t, g)
  }

  /** The last step of the fold, and of the prototype test. */
  lemma FoldStep(data: seq<Ticket>, pre: seq<Ticket>, t: Ticket, g: GroupKey)
    requires |data| > 0 && pre == data[..|data| - 1] && t == data[|data| - 1]
    ensures Reduce(data, g) == AddTicket(Reduce(pre, g), Label(t, g), t)
    ensures HitsPrototype(data, g) <==> HitsPrototype(pre, g) || Label(t, g) in InheritedKeys
  {
    assert data == pre + [t];
    HitsSnoc(pre, t, g);
  }

  /** One more ticket hits the prototype when the earlier ones did or its own label does. */
  lemma HitsSnoc(pre: seq<Ticket>, t: Ticket, g: GroupKey)
    ensures HitsPrototype(pre + [t], g) <==> HitsPrototype(pre, g) || Label(t, g) in InheritedKeys
  {
    assert t in pre + [t];
    forall u | u in pre ensures u in pre + [t] {
    }
  }

  /** A property the fold owns is named by some ticket's label. */
  lemma OwnedInheritedLabel(pre: seq<Ticket>, g: GroupKey, k: string)
    requires k in Keys(Reduce(pre, g)) && k in InheritedKeys
    ensures HitsPrototype(pre, g)
  {
    var m :| 0 <= m < |pre| && Labels(pre, g)[m] == k;
    assert pre[m] in pre;
  }

  /** The grouping function as written, on any value. */
  function GroupTicketsAsWritten(data: TicketList, g: GroupKey): (r: Completion<seq<Entry>>)
    ensures data.NotAnArray? ==> r == Normal([])
    ensures data.TicketArray? ==> (r.Throw? <==> HitsPrototype(data.items, g))
  {
    match data
    case NotAnArray => Normal([])
    case TicketArray(items) =>
      match ReduceAsWritten(items, g)
      case Throw(e) => Throw(e)
      case Normal(ps) =>
        ReduceIsAccumulated(items, g);
        AccumulatedKeys(items, g);
        Normal(OwnEntries(ps))
  }

  /** The source's grouping and the corrected one agree on every input
      whose labels avoid Object.prototype's property names; on every other
      array the source throws a TypeError. */
  lemma AsWrittenMatchesCorrected(data: TicketList, g: GroupKey)
    ensures data.NotAnArray? ==> GroupTicketsAsWritten(data, g) == Normal(GroupValue(data, g))
    ensures data.TicketArray? && !HitsPrototype(data.items, g)
            ==> GroupTicketsAsWritten(data, g) == Normal(GroupValue(data, g))
    ensures data.TicketArray? && HitsPrototype(data.items, g)
            ==> GroupTicketsAsWritten(data, g) == Throw(TypeError)
  {
  }

  /** A ticket whose status is "constructor" makes the source throw, while
      the corrected grouping gives it a column of its own. */
  lemma ConstructorStatusThrows(t: Ticket)
    requires t.status == Str("constructor")
    ensures GroupTicketsAsWritten(TicketArray([t]), Status) == Throw(TypeError)
    ensures GroupTickets([t], Status) == [("constructor", [t])]
  {
    ConstructorIsInherited(t);
    OneLabelOneColumn([t], Status, GroupTickets([t], Status));
  }

  lemma ConstructorIsInherited(t: Ticket)
    requires t.status == Str("constructor")
    ensures Label(t, Status) == "constructor" && HitsPrototype([t], Status)
  {
    assert t in [t];
  }

  /** When every ticket carries the same label, the grouping is that single column. */
  lemma OneLabelOneColumn(data: seq<Ticket>, g: GroupKey, r: seq<Entry>)
    requires |data| > 0 && forall i :: 0 <= i < |data| ==> Label(data[i], g) == Label(data[0], g)
    requires IsGrouping(r, data, g)
    ensures r == [(Label(data[0], g), data)]
  {
    SingleColumn(data, g);
    GroupingUnique(r, [(Label(data[0], g), data)], data, g);
  }

  lemma SingleColumn(data: seq<Ticket>, g: GroupKey)
    requires |data| > 0 && forall i :: 0 <= i < |data| ==> Label(data[i], g) == Label(data[0], g)
    ensures IsGrouping([(Label(data[0], g), data)], data, g)
  {
    var k := Label(data[0], g);
    var want := [(k, data)];
    BucketWhole(data, g, k);
    LabelsAllEqual(data, g, k);
    assert Keys(want) == [k];
  }

  lemma LabelsAllEqual(data: seq<Ticket>, g: GroupKey, k: string)
    requires |data| > 0 && forall i :: 0 <= i < |data| ==> Label(data[i], g) == k
    ensures forall l :: l in Labels(data, g) <==> l == k
  {
    assert Labels(data, g)[0] == k;
  }

  /** A label every ticket carries has the whole input as its bucket. */
  lemma {:induction false} BucketWhole(data: seq<Ticket>, g: GroupKey, k: string)
    requires forall i :: 0 <= i < |data| ==> Label(data[i], g) == k
    ensures Bucket(data, g, k) == data
    decreases |data|
  {
    if |data| > 0 {
      var pre := data[..|data| - 1];
      BucketWhole(pre, g, k);
      assert data == pre + [data[|data| - 1]];
    }
  }
  /** Whether the event makes the source's grouping throw: the tickets it
      regroups carry a label naming an inherited property. */
  predicate ThrowsOn(s: State, e: Event) {
    match e
    case FetchSucceeded(payload) => HitsPrototype(Normalise(payload), Status)
    case FetchFailed => false
    case GroupByChanged(g) => HitsPrototype(s.tickets, g)
    case DisplayChanged(d) => HitsPrototype(FilterTickets(s.tickets, d), s.groupBy)
  }

  /** The board's reaction to one event with the source's grouping. Each
      handler sets the tickets, the key or the display option before it
      groups; when the grouping throws, those earlier updates stand and the
      columns keep their old value. The fetch handler catches the error and
      logs it; the two selection handlers let it escape, and the model
      takes the updates they queued before the throw as applied. */
  function BoardStepAsWritten(s: State, e: Event): (s': State)
    ensures !ThrowsOn(s, e) ==> s' == Step(s, e)
    ensures ThrowsOn(s, e) ==> s' == Step(s, e).(groupedData := s.groupedData)
  {
    match e
    case FetchSucceeded(payload) =>
      var ts := Normalise(payload);
      var s1 := s.(tickets := ts);
      AsWrittenMatchesCorrected(TicketArray(ts), Status);
      match GroupTicketsAsWritten(TicketArray(ts), Status) {
        case Throw(_) => s1
        case Normal(r) => s1.(groupedData := r)
      }
    case FetchFailed => s
    case GroupByChanged(g) =>
      var s1 := s.(groupBy := g);
      AsWrittenMatchesCorrected(TicketArray(s.tickets), g);
      match GroupTicketsAsWritten(TicketArray(s.tickets), g) {
        case Throw(_) => s1
        case Normal(r) => s1.(groupedData := r)
      }
    case DisplayChanged(d) =>
      var s1 := s.(display := d);
      var shown := FilterTickets(s.tickets, d);
      AsWrittenMatchesCorrected(TicketArray(shown), s.groupBy);
      match GroupTicketsAsWritten(TicketArray(shown), s.groupBy) {
        case Throw(_) => s1
        case Normal(r) => s1.(groupedData := r)
      }
  }

  /** Grouping held "constructor"-status tickets by status leaves the key
      switched to status but the columns as they were. */
  lemma StaleColumnsAfterThrow(s: State, t: Ticket)
    requires t in s.tickets && t.status == Str("constructor")
    ensures BoardStepAsWritten(s, GroupByChanged(Status)).groupBy == Status
    ensures BoardStepAsWritten(s, GroupByChanged(Status)).groupedData == s.groupedData
  {
    ConstructorIsInherited(t);
  }
}
