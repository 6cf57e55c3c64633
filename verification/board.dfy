/** The board component: four pieces of state and the four events that
    change them. The fetch outcome arrives as an event, so the step function
    is pure; the accumulator used for grouping is the corrected one
    (Grouping.GroupTickets, see AsWritten). */
module Board {
  import opened Seqs
  import opened Tickets
  import opened OwnKeys
  import opened DisplayFilter
  import opened Grouping

  /** `tickets`, `groupedData`, `groupBy` and `display`. */
  datatype State = State(tickets: seq<Ticket>, groupedData: seq<Entry>, groupBy: GroupKey, display: Display)

  /** The values the four `useState` calls start with. */
  const Initial: State := State([], [], Status, All)

  /** What can happen to the board: the fetch resolves with a parsed body
      whose `tickets` field is `payload`, the fetch fails (network error,
      non-OK status, unparsable body), or the user picks a grouping or a
      display option. */
  datatype Event =
    | FetchSucceeded(payload: TicketList)
    | FetchFailed
    | GroupByChanged(g: GroupKey)
    | DisplayChanged(d: Display)

  /** The ticket list the fetch handler keeps: the payload's array when it
      is one, and an empty list otherwise. */
  function Normalise(payload: TicketList): (ts: seq<Ticket>)
    ensures payload.TicketArray? ==> ts == payload.items
    ensures payload.NotAnArray? ==> ts == []
  {
    match payload
    case NotAnArray => []
    case TicketArray(items) => items
  }

  /** The board's reaction to one event. A successful fetch stores the
      tickets and groups them by status whatever `groupBy` holds; a failed
      one changes nothing; a new grouping regroups every held ticket and
      ignores the display option; a new display option filters the held
      tickets and groups them by the current key. */
  function Step(s: State, e: Event): (s': State)
    ensures e.FetchFailed? ==> s' == s
    ensures !e.FetchSucceeded? ==> s'.tickets == s.tickets
    ensures e.FetchSucceeded? ==>
      && s'.groupBy == s.groupBy && s'.display == s.display
      && (e.payload.TicketArray? ==> s'.tickets == e.payload.items)
      && (e.payload.NotAnArray? ==> s'.tickets == [] && s'.groupedData == [])
      && IsGrouping(s'.groupedData, s'.tickets, Status)
    ensures e.GroupByChanged? ==>
      && s'.groupBy == e.g && s'.display == s.display
      && IsGrouping(s'.groupedData, s.tickets, e.g)
    ensures e.DisplayChanged? ==>
      && s'.display == e.d && s'.groupBy == s.groupBy
      && IsGrouping(s'.groupedData, FilterTickets(s.tickets, e.d), s.groupBy)
  {
    match e
    case FetchSucceeded(payload) =>
      var ts := Normalise(payload);
      var r := GroupTickets(ts, Status);
      if payload.NotAnArray? then
        assert ts == [];
        GroupingOfNothing(r, Status);
        s.(tickets := ts, groupedData := r)
      else
        s.(tickets := ts, groupedData := r)
    case FetchFailed => s
    case GroupByChanged(g) => s.(groupBy := g, groupedData := GroupTickets(s.tickets, g))
    case DisplayChanged(d) => s.(display := d, groupedData := GroupTickets(FilterTickets(s.tickets, d), s.groupBy))
  }

  /** No tickets, no columns. */
  lemma GroupingOfNothing(r: seq<Entry>, g: GroupKey)
    requires IsGrouping(r, [], g)
    ensures r == []
  {
    if |r| > 0 {
      KeyShared(r, r, [], g, 0);
    }
  }

  /** The events in order, starting from `s`. */
  function Run(s: State, es: seq<Event>): State
    decreases |es|
  {
    if |es| == 0 then s else Run(Step(s, es[0]), es[1..])
  }

  /** Running one more event is one more step. */
  lemma {:induction false} RunSnoc(s: State, es: seq<Event>, e: Event)
    ensures Run(s, es + [e]) == Step(Run(s, es), e)
    decreases |es|
  {
    if |es| == 0 {
      assert Run(Step(s, e), []) == Step(s, e);
    } else {
      assert (es + [e])[1..] == es[1..] + [e];
      RunSnoc(Step(s, es[0]), es[1..], e);
    }
  }

  /** The tickets of the last successful fetch among `es`, or `held` if none succeeded. */
  function LatestTickets(held: seq<Ticket>, es: seq<Event>): seq<Ticket>
    decreases |es|
  {
    if |es| == 0 then held
    else if es[|es| - 1].FetchSucceeded? then Normalise(es[|es| - 1].payload)
    else LatestTickets(held, es[..|es| - 1])
  }

  /** Only a successful fetch replaces the ticket list, and the last one wins. */
  lemma {:induction false} TicketsFromLatestFetch(s: State, es: seq<Event>)
    ensures Run(s, es).tickets == LatestTickets(s.tickets, es)
    decreases |es|
  {
    if |es| > 0 {
      var pre, e := es[..|es| - 1], es[|es| - 1];
      assert es == pre + [e];
      RunSnoc(s, pre, e);
      TicketsFromLatestFetch(s, pre);
    }
  }

  /** The columns are the grouping of the held tickets under some display
      option and some key: they never hold anything else. */
  ghost predicate Derived(s: State) {
    exists d: Display, g: GroupKey :: s.groupedData == GroupTickets(FilterTickets(s.tickets, d), g)
  }

  lemma InitialDerived()
    ensures Derived(Initial)
  {
    GroupEmpty(Status);
    assert Initial.groupedData == GroupTickets(FilterTickets([], All), Status);
  }

  /** Every event keeps the columns derived from the held tickets. */
  lemma StepDerived(s: State, e: Event)
    requires Derived(s)
    ensures Derived(Step(s, e))
  {
    var s' := Step(s, e);
    match e
    case FetchSucceeded(payload) =>
      assert s'.groupedData == GroupTickets(FilterTickets(s'.tickets, All), Status);
    case FetchFailed =>
    case GroupByChanged(g) =>
      assert s'.groupedData == GroupTickets(FilterTickets(s'.tickets, All), g);
    case DisplayChanged(d) =>
      assert s'.groupedData == GroupTickets(FilterTickets(s'.tickets, d), s.groupBy);
  }

  lemma {:induction false} RunDerived(s: State, es: seq<Event>)
    requires Derived(s)
    ensures Derived(Run(s, es))
    decreases |es|
  {
    if |es| > 0 {
      StepDerived(s, es[0]);
      RunDerived(Step(s, es[0]), es[1..]);
    }
  }

  /** In every reachable state the board shows only held tickets, none more
      often than it is held. */
  lemma ReachableShowsHeldTickets(es: seq<Event>)
    ensures var s := Run(Initial, es);
      && multiset(Flatten(s.groupedData)) <= multiset(s.tickets)
      && forall t :: t in Flatten(s.groupedData) ==> t in s.tickets
  {
    InitialDerived();
    RunDerived(Initial, es);
    DerivedShowsHeldTickets(Run(Initial, es));
  }

  lemma DerivedShowsHeldTickets(s: State)
    requires Derived(s)
    ensures multiset(Flatten(s.groupedData)) <= multiset(s.tickets)
    ensures forall t :: t in Flatten(s.groupedData) ==> t in s.tickets
  {
    var d: Display, g: GroupKey :| s.groupedData == GroupTickets(FilterTickets(s.tickets, d), g);
    var shown := FilterTickets(s.tickets, d);
    assert multiset(Flatten(s.groupedData)) == multiset(shown);
    assert multiset(shown) <= multiset(s.tickets) by {
      forall t ensures multiset(shown)[t] <= multiset(s.tickets)[t] {
      }
    }
    forall t | t in Flatten(s.groupedData) ensures t in s.tickets {
      assert t in multiset(Flatten(s.groupedData));
    }
  }

  /** After a grouping change every held ticket is on the board again, even
      when the display option still says high or low priority. */
  lemma GroupChangeShowsEverything(s: State, g: GroupKey)
    ensures var s' := Step(s, GroupByChanged(g));
      && s'.display == s.display
      && multiset(Flatten(s'.groupedData)) == multiset(s.tickets)
  {
  }

  /** So a low-priority ticket can be on the board while "high priority" is selected. */
  lemma HighPrioritySelectedLowShown(s: State, g: GroupKey, t: Ticket)
    requires s.display == HighPriority && t in s.tickets && t.priority == Int(1)
    ensures var s' := Step(s, GroupByChanged(g));
      s'.display == HighPriority && !Shows(s'.display, t) && t in Flatten(s'.groupedData)
  {
    GroupChangeShowsEverything(s, g);
    PriorityComparisons(t);
    SameMultisetSameMembers(Flatten(Step(s, GroupByChanged(g)).groupedData), s.tickets, t);
  }

  lemma SameMultisetSameMembers(a: seq<Ticket>, b: seq<Ticket>, t: Ticket)
    requires multiset(a) == multiset(b) && t in b
    ensures t in a
  {
    assert t in multiset(b);
  }

  /** Choosing the same display option, or the same grouping, twice in a row
      is the same as choosing it once. */
  lemma SelectionsIdempotent(s: State, g: GroupKey, d: Display)
    ensures Step(Step(s, GroupByChanged(g)), GroupByChanged(g)) == Step(s, GroupByChanged(g))
    ensures Step(Step(s, DisplayChanged(d)), DisplayChanged(d)) == Step(s, DisplayChanged(d))
  {
  }

  /** A display change always filters the full held list, never the tickets
      already on the board: switching to high then to low priority shows
      the low-priority tickets, not nothing. */
  lemma DisplayNotCompounding(s: State, d1: Display, d2: Display)
    ensures Step(Step(s, DisplayChanged(d1)), DisplayChanged(d2)) == Step(s, DisplayChanged(d2))
  {
  }

  /** The grouping the first fetch installs is by status even when the user
      picked another key before the fetch completed. */
  lemma FetchIgnoresGroupBy(s: State, items: seq<Ticket>)
    ensures var s' := Step(s, FetchSucceeded(TicketArray(items)));
      s'.groupBy == s.groupBy && s'.groupedData == GroupTickets(items, Status)
  {
  }
}
