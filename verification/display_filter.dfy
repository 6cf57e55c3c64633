/** The Display selection of the board: all tickets, the high-priority ones
    (priority at least 3) or the low-priority ones (priority below 3), in their
    original order. */
module DisplayFilter {
  import opened Seqs
  import opened NumericString
  import opened Tickets

  datatype Display = All | HighPriority | LowPriority

  /** Priorities at or above this are high, below it low. */
  const PriorityThreshold: int := 3

  /** Whether the selection shows a ticket. All shows every ticket; a
      priority selection shows only tickets whose priority reads as a
      number, split at the threshold. */
  predicate Shows(d: Display, t: Ticket)
    ensures d == All ==> Shows(d, t)
    ensures d != All && Shows(d, t) ==> ToNumber(t.priority) != NaN
    ensures d == HighPriority && ToNumber(t.priority).Finite? ==>
      (Shows(d, t) <==> ToNumber(t.priority).r >= PriorityThreshold as real)
    ensures d == LowPriority && ToNumber(t.priority).Finite? ==>
      (Shows(d, t) <==> ToNumber(t.priority).r < PriorityThreshold as real)
  {
    match d
    case All => true
    case HighPriority => LooseAtLeast(t.priority, PriorityThreshold)
    case LowPriority => LooseLess(t.priority, PriorityThreshold)
  }

  /** The tickets a selection shows: the whole list (copied) for All,
      otherwise the ones passing the priority comparison, order kept. */
  function FilterTickets(tickets: seq<Ticket>, d: Display): (r: seq<Ticket>)
    ensures forall t :: t in r ==> t in tickets && Shows(d, t)
    ensures forall t :: multiset(r)[t] == if Shows(d, t) then multiset(tickets)[t] else 0
    ensures IsSubsequence(r, tickets)
  {
    if d == All then
      assert IsSubsequence(tickets, tickets) by {
        SubsequenceReflexive(tickets);
      }
      tickets
    else Filter(tickets, (t: Ticket) => Shows(d, t))
  }

  /** The selection of a longer list: the selection of the shorter one,
      followed by the new ticket when it is shown. */
  lemma FilterTicketsSnoc(tickets: seq<Ticket>, t: Ticket, d: Display)
    ensures FilterTickets(tickets + [t], d) == FilterTickets(tickets, d) + (if Shows(d, t) then [t] else [])
  {
    assert (tickets + [t])[..|tickets|] == tickets;
  }

  /** Selecting All shows the ticket list unchanged. */
  lemma AllIsIdentity(tickets: seq<Ticket>)
    ensures FilterTickets(tickets, All) == tickets
  {
  }

  /** On an integer priority the two filters are the plain comparisons;
      a `null` priority counts as 0 and is low; a missing one is neither. */
  lemma PriorityComparisons(t: Ticket)
    ensures t.priority.Int? ==> (Shows(HighPriority, t) <==> t.priority.n >= PriorityThreshold)
    ensures t.priority.Int? ==> (Shows(LowPriority, t) <==> t.priority.n < PriorityThreshold)
    ensures t.priority == Null ==> Shows(LowPriority, t) && !Shows(HighPriority, t)
    ensures t.priority == Undefined ==> !Shows(LowPriority, t) && !Shows(HighPriority, t)
  {
  }

  /** A string priority is compared by its numeric reading, fractional or not. */
  lemma StringPriority(t: Ticket, s: string, x: real)
    requires t.priority == Str(s) && StringToNumber(s) == Finite(x)
    ensures Shows(HighPriority, t) <==> x >= PriorityThreshold as real
    ensures Shows(LowPriority, t) <==> x < PriorityThreshold as real
  {
  }

  /** No ticket is both high and low priority. */
  lemma HighLowDisjoint(t: Ticket)
    ensures !(Shows(HighPriority, t) && Shows(LowPriority, t))
  {
  }

  /** A ticket is high or low priority exactly when its priority reads as a
      number (not NaN). */
  lemma HighLowCover(t: Ticket)
    ensures Shows(HighPriority, t) || Shows(LowPriority, t) <==> ToNumber(t.priority) != NaN
  {
  }

  /** When every priority reads as a number, the high and low lists together
      hold every ticket exactly once. */
  lemma HighLowSplit(tickets: seq<Ticket>)
    requires forall t :: t in tickets ==> ToNumber(t.priority) != NaN
    ensures multiset(FilterTickets(tickets, HighPriority)) + multiset(FilterTickets(tickets, LowPriority))
            == multiset(tickets)
  {
    var high, low := FilterTickets(tickets, HighPriority), FilterTickets(tickets, LowPriority);
    forall t
      ensures (multiset(high) + multiset(low))[t] == multiset(tickets)[t]
    {
      HighLowDisjoint(t);
      if t in tickets {
        HighLowCover(t);
      }
    }
  }

  /** Applying a selection to its own result changes nothing. */
  lemma FilterTwice(tickets: seq<Ticket>, d: Display)
    ensures FilterTickets(FilterTickets(tickets, d), d) == FilterTickets(tickets, d)
  {
    if d != All {
      FilterIdempotent(tickets, (t: Ticket) => Shows(d, t));
    }
  }

  /** Filtering high-priority tickets for low priority leaves nothing, and the other way round. */
  lemma HighThenLowIsEmpty(tickets: seq<Ticket>)
    ensures FilterTickets(FilterTickets(tickets, HighPriority), LowPriority) == []
    ensures FilterTickets(FilterTickets(tickets, LowPriority), HighPriority) == []
  {
    var a := FilterTickets(FilterTickets(tickets, HighPriority), LowPriority);
    var b := FilterTickets(FilterTickets(tickets, LowPriority), HighPriority);
    if |a| > 0 {
      assert a[0] in a;
      HighLowDisjoint(a[0]);
    }
    if |b| > 0 {
      assert b[0] in b;
      HighLowDisjoint(b[0]);
    }
  }
}
