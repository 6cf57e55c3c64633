/** Tickets as they arrive from the ticket endpoint, and the two ways the
    board reads an attribute: as a column label (the attribute's value, or
    "Ungrouped" when it is falsy, then used as a property key) and as a
    number compared with the priority threshold. */
module Tickets {
  import opened Decimal
  import opened NumericString

  /** A ticket attribute: missing (read as `undefined`), JSON `null`, a
      string, or an integer-valued number. */
  datatype Value = Undefined | Null | Str(s: string) | Int(n: int)

  /** One ticket record. The board never modifies one. */
  datatype Ticket = Ticket(id: Value, title: Value, status: Value, priority: Value, name: Value)

  /** A JavaScript value expected to be the ticket array: either an array of
      tickets or anything else (missing, `null`, an object, ...). */
  datatype TicketList = NotAnArray | TicketArray(items: seq<Ticket>)

  /** The group-by options of the board; each names a ticket property. */
  datatype GroupKey = Status | Name | Priority

  /** The attribute the grouping key names. */
  function Get(t: Ticket, g: GroupKey): Value {
    match g
    case Status => t.status
    case Name => t.name
    case Priority => t.priority
  }

  /** ToBoolean: `undefined`, `null`, the empty string and 0 are falsy. */
  predicate Truthy(v: Value) {
    match v
    case Undefined => false
    case Null => false
    case Str(s) => s != ""
    case Int(n) => n != 0
  }

  /** ToString, which is what ToPropertyKey does to a primitive. */
  function ToPropertyKey(v: Value): string {
    match v
    case Undefined => "undefined"
    case Null => "null"
    case Str(s) => s
    case Int(n) => IntToDecimal(n)
  }

  /** The column a ticket without a usable attribute value goes to. */
  const Ungrouped: string := "Ungrouped"

  /** The property key a ticket is filed under: its attribute value, or
      "Ungrouped" when that value is falsy. It is never the empty string. */
  function Label(t: Ticket, g: GroupKey): (k: string)
    ensures |k| > 0
    ensures !Truthy(Get(t, g)) ==> k == Ungrouped
    ensures Get(t, g).Str? && Truthy(Get(t, g)) ==> k == Get(t, g).s
  {
    var v := Get(t, g);
    if Truthy(v) then ToPropertyKey(v) else Ungrouped
  }

  /** A ticket lands in the "Ungrouped" column exactly when its attribute is
      falsy or is the string "Ungrouped" itself; a number never does. */
  lemma UngroupedExactly(t: Ticket, g: GroupKey)
    ensures Label(t, g) == Ungrouped <==> !Truthy(Get(t, g)) || Get(t, g) == Str(Ungrouped)
  {
    if Get(t, g).Int? && Truthy(Get(t, g)) {
      var n := Get(t, g).n;
      var u := NatToDecimal(if n < 0 then -n else n);
      assert Label(t, g)[0] == '-' || IsDigit(u[0]);
    }
  }

  /** A non-zero integer attribute and the string of its digits share one
      column, and that column's label reads back as the integer. */
  lemma IntegerLabel(t: Ticket, u: Ticket, g: GroupKey, n: int)
    requires Get(t, g) == Int(n) && n != 0
    requires Get(u, g) == Str(IntToDecimal(n))
    ensures Label(t, g) == Label(u, g)
    ensures StringToNumber(Label(t, g)) == Finite(n as real)
  {
    IntToDecimalRoundTrip(n);
    assert IntToDecimal(n) != "";
  }

  /** ToNumber: `undefined` is NaN, `null` is 0, a string goes through StringToNumber. */
  function ToNumber(v: Value): Num {
    match v
    case Undefined => NaN
    case Null => Finite(0.0)
    case Str(s) => StringToNumber(s)
    case Int(n) => Finite(n as real)
  }

  /** Whether `v` is below the integer y, as the loose less-than operator
      decides: false when the comparison is undefined (NaN). */
  predicate LooseLess(v: Value, y: int)
    ensures LooseLess(v, y) <==>
      ToNumber(v) == NegInfinity || (ToNumber(v).Finite? && ToNumber(v).r < y as real)
  {
    NumberLessThan(ToNumber(v), y) == IsLess
  }

  /** Whether `v` is at least the integer y, as the loose at-least operator
      decides: false when the comparison is undefined (NaN). */
  predicate LooseAtLeast(v: Value, y: int)
    ensures LooseAtLeast(v, y) <==>
      ToNumber(v) == PosInfinity || (ToNumber(v).Finite? && ToNumber(v).r >= y as real)
  {
    NumberLessThan(ToNumber(v), y) == IsNotLess
  }
}
