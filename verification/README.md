# Kanban board grouping and filtering — a Dafny model

The board is a single React component (`src/App.js`). It fetches a list of
tickets once. It then shows them as columns: each column is one value of the
chosen grouping attribute (status, user name or priority). Its core is a
small amount of logic:

- `groupTickets` folds the ticket array into a plain object, one property per
  label. A label is `ticket[groupBy]`, or `'Ungrouped'` when that value is falsy.
  The function returns `Object.entries` of that object.
- The fetch handler stores the ticket array and groups it by status.
- The grouping handler regroups all held tickets by the new key.
- The display handler keeps the tickets whose priority is `>= 3`, the ones
  whose priority is `< 3`, or all of them. It then groups the result by the
  current key.

The model follows JavaScript's semantics where they decide the outcome:

- truthiness of the attribute;
- conversion of a number to its property key;
- the own-property order of `Object.entries`, as given in section 10.1.11.1 of
  ECMA-262 (2023 edition): array-index keys first in ascending numeric order,
  then the other keys in creation order;
- the loose comparisons `>=` and `<`, which convert a string priority with
  StringToNumber and treat `undefined` as NaN.

Modules, in dependency order:

| file | module | contents |
|---|---|---|
| seqs.dfy | Seqs | sequence helpers: `Filter`, `Flatten`, `IndexOf`, `FirstOccurrences`, subsequences |
| decimal.dfy | Decimal | decimal digit strings, Number::toString for integers, array-index keys |
| numeric_string.dfy | NumericString | StringToNumber (section 7.1.4.1.1 of ECMA-262) over exact reals, and the comparison with an integer |
| tickets.dfy | Tickets | ticket values, labels (`ticket[groupBy] \|\| 'Ungrouped'`), ToNumber |
| own_keys.dfy | OwnKeys | property lists and the `Object.entries` order |
| grouping.dfy | Grouping | the fold, its characterisation `IsGrouping`, uniqueness and consequences |
| display_filter.dfy | DisplayFilter | the three display options |
| as_written.dfy | AsWritten | the fold on a `{}` accumulator, which can throw (see Findings) |
| board.dfy | Board | the component's state and the four events that change it |
| scenarios.dfy | Scenarios | worked examples on three tickets |

The central definition is `Grouping.IsGrouping(r, data, g)`. It says that:

- the keys of `r` are distinct;
- they are exactly the labels of `data`;
- each key's column is the subsequence of `data` carrying that label;
- the keys are in own-property order.

`Grouping.GroupTickets` meets it. `Grouping.GroupingUnique` shows that nothing
else does. So every fact about the board's columns follows from `IsGrouping`.

Four behaviours of the code are easy to miss:

- **Column order.** Columns are not always in the order their labels first
  occur. `Object.entries` lists array-index keys first, in ascending numeric
  order. So grouping by priority puts `"3"` before `"4"` even when the
  priority-4 ticket comes first (`Scenarios.HighPriorityByPriority`).
- **Failed fetch.** A failed fetch leaves the state unchanged. The catch
  block only logs the error (`Board.Step`).
- **Grouping change.** A grouping change regroups all held tickets and
  ignores the selected display option (`Board.GroupChangeShowsEverything`).
- **Prototype keys.** The grouping throws on labels that name
  `Object.prototype` properties (see Findings).

## Model

| member | source | states |
|---|---|---|
| Tickets.Label | src/App.js:41 | a label is never empty; a falsy attribute gives "Ungrouped"; a non-empty string is its own label (UngroupedExactly states when the label is "Ungrouped"; IntegerLabel how an integer is labelled) |
| Tickets.LooseAtLeast | src/App.js:65 | the at-least comparison holds exactly when the attribute reads as +Infinity or as a finite number not below the bound; NaN compares false |
| Tickets.LooseLess | src/App.js:67 | the less-than comparison holds exactly when the attribute reads as -Infinity or as a finite number below the bound; NaN compares false |
| Tickets.UngroupedExactly | src/App.js:41 | a ticket goes to "Ungrouped" exactly when its attribute is falsy or is the string "Ungrouped"; a non-zero number never does |
| Tickets.IntegerLabel | src/App.js:41-42 | a number and the string of its digits share one property key, and that key reads back as the number |
| Decimal.NatToDecimal | src/App.js:42 | the key of a non-negative integer is a canonical digit string whose value is that integer |
| Decimal.CanonicalRoundTrip | src/App.js:42 | every canonical digit string is the key of the integer it denotes |
| Decimal.IntKeyArrayIndex | src/App.js:46 | an integer's key is an array index exactly when 0 <= n < 2^32 - 1 |
| NumericString.IntToDecimalRoundTrip | src/App.js:65 | a label produced from an integer converts back to the same number when compared with the threshold |
| NumericString.TrimStart | src/App.js:65 | StringToNumber drops exactly the leading white space and line terminators |
| NumericString.TrimEnd | src/App.js:65 | StringToNumber drops exactly the trailing white space and line terminators |
| Seqs.FirstOccurrences | src/App.js:42 | the properties the fold creates are the distinct labels in the order they first occur |
| Seqs.Filter | src/App.js:65 | `Array.prototype.filter` keeps exactly the elements satisfying the predicate, with their multiplicities, in their original order |
| Grouping.Labels | src/App.js:41 | the label list has one label per ticket, in input order |
| Grouping.BucketContents | src/App.js:42-43 | a column holds exactly the tickets carrying its label, with their multiplicities, in input order |
| Grouping.BucketIsFilter | src/App.js:42-43 | a column equals the input filtered by its label |
| Grouping.AddTicket | src/App.js:42-43 | one step appends the ticket to its label's array, or creates that label's property after all others holding just the ticket; no other property changes |
| Grouping.Reduce | src/App.js:40-45 | the fold owns exactly one property per distinct label (ReduceIsAccumulated fixes their order and contents) |
| Grouping.ReduceIsAccumulated | src/App.js:40-45 | the fold creates one property per distinct label, in first-occurrence order, each holding that label's column |
| Grouping.AddTicketPartition | src/App.js:42-43 | one step of the fold adds exactly the one ticket to the columns |
| Grouping.ReducePartition | src/App.js:40-45 | the fold's columns hold every input ticket exactly once |
| OwnKeys.SortByIndex | src/App.js:46 | array-index properties are listed in ascending numeric order, and none is lost or added |
| OwnKeys.OwnEntries | src/App.js:46 | `Object.entries` lists every property once, in own-property order |
| OwnKeys.KeyPrecedesAsymmetric | src/App.js:46 | the own-property order never puts two keys each before the other |
| Grouping.GroupingFromEntries | src/App.js:46 | listing the fold's properties in own-property order yields a grouping |
| Grouping.GroupTickets | src/App.js:38-47 | the result is a grouping of the input, and its columns together are a permutation of the input |
| Grouping.GroupValue | src/App.js:39 | a value that is not an array gives no columns; an array gives its grouping |
| Grouping.GroupingUnique | src/App.js:38-47 | two groupings of the same input by the same key are equal, so the grouping is fully determined |
| Grouping.EachTicketInOneColumn | src/App.js:40-45 | every ticket is in the column of its own label and in no other |
| Grouping.ColumnsNonEmpty | src/App.js:42-46 | every column is non-empty, a subsequence of the input, and holds only tickets with its label |
| Grouping.GroupEmpty | src/App.js:40-46 | the empty ticket array gives no columns |
| Grouping.PriorityColumnsAscending | src/App.js:41-46 | with integer priorities from 0 to 2^32 - 2, the numeric columns come in ascending order, each the decimal text of a non-zero priority that occurs; priority 0 goes to "Ungrouped", which exists exactly when some priority is 0 and is then the last column |
| DisplayFilter.Shows | src/App.js:64-68 | "all" shows every ticket; a priority option shows only tickets whose priority reads as a number, high at or above 3 and low below it |
| DisplayFilter.FilterTickets | src/App.js:63-68 | the kept tickets are exactly those the display option shows, with their multiplicities, in their original order |
| DisplayFilter.FilterTicketsSnoc | src/App.js:64-68 | filtering a list with one more ticket keeps that ticket exactly when the option shows it |
| DisplayFilter.AllIsIdentity | src/App.js:63 | "all" keeps the ticket list as it is |
| DisplayFilter.PriorityComparisons | src/App.js:65-67 | for an integer priority, "high" means >= 3 and "low" means < 3; null counts as low; a missing priority is in neither |
| DisplayFilter.StringPriority | src/App.js:65-67 | a string priority that reads as a finite number, fractional or not, is high exactly when that number is at least 3 and low exactly when it is below 3 |
| DisplayFilter.HighLowDisjoint | src/App.js:64-68 | no ticket is both high and low priority |
| DisplayFilter.HighLowCover | src/App.js:64-68 | a ticket is high or low priority exactly when its priority reads as a number |
| DisplayFilter.HighLowSplit | src/App.js:64-68 | when every priority reads as a number, the high and low lists together are a permutation of all tickets |
| DisplayFilter.FilterTwice | src/App.js:64-68 | applying a display filter twice is the same as applying it once |
| DisplayFilter.HighThenLowIsEmpty | src/App.js:64-68 | the low filter applied after the high filter keeps nothing, and so does the reverse |
| AsWritten.StepAsWritten | src/App.js:41-43 | one step on the object-literal accumulator throws exactly when the label is not yet an own property and names an inherited one, passes an earlier throw on, and otherwise performs the corrected step |
| AsWritten.ReduceAsWritten | src/App.js:40-45 | on a `{}` accumulator the fold throws a TypeError exactly when some label names an Object.prototype property, and otherwise builds the same properties as the corrected fold |
| AsWritten.GroupTicketsAsWritten | src/App.js:38-47 | the source's grouping returns no columns for a non-array, and throws exactly on prototype-named labels |
| AsWritten.AsWrittenMatchesCorrected | src/App.js:41-43 | the source's grouping equals the corrected one unless a label names an Object.prototype property, in which case it throws a TypeError |
| AsWritten.ConstructorStatusThrows | src/App.js:42-43 | a single ticket with status "constructor" makes the source throw, while the corrected grouping gives it its own column |
| AsWritten.BoardStepAsWritten | src/App.js:24-70 | with the source's grouping, an event acts as Board.Step when the regrouped tickets avoid prototype-named labels; otherwise the tickets, key and display option are updated as in Board.Step but the columns keep their old value |
| AsWritten.StaleColumnsAfterThrow | src/App.js:50-53 | grouping held "constructor"-status tickets by status switches the key but leaves the columns stale |
| Board.Normalise | src/App.js:24 | an array payload is kept as it is; anything else becomes the empty list |
| Board.Step | src/App.js:24-70 | a failed fetch changes nothing; only a fetch replaces the tickets; a fetch groups by status and keeps the selections; a group change groups all tickets; a display change groups the filtered tickets by the current key |
| Board.GroupingOfNothing | src/App.js:24-28 | a payload without a ticket array leaves the board with no tickets and no columns |
| Board.TicketsFromLatestFetch | src/App.js:27 | after any sequence of events the held tickets are those of the last successful fetch, or the original ones |
| Board.InitialDerived | src/App.js:7-10 | the initial empty columns are the grouping of the empty ticket list |
| Board.StepDerived | src/App.js:28-70 | every event keeps the columns equal to a grouping of the filtered held tickets |
| Board.RunDerived | src/App.js:28-70 | that invariant holds after any sequence of events |
| Board.ReachableShowsHeldTickets | src/App.js:7-70 | in every reachable state the board shows only held tickets, none more often than it is held |
| Board.GroupChangeShowsEverything | src/App.js:50-54 | after a grouping change every held ticket is shown, whatever display option is selected |
| Board.HighPrioritySelectedLowShown | src/App.js:50-54 | so a priority-1 ticket is shown while "high priority" is selected |
| Board.SelectionsIdempotent | src/App.js:50-70 | choosing the same grouping, or the same display option, twice in a row is the same as choosing it once |
| Board.DisplayNotCompounding | src/App.js:63-70 | a display change filters the full held list, so only the last display option matters |
| Board.FetchIgnoresGroupBy | src/App.js:28 | a successful fetch groups by status even when another key is selected |
| Scenarios.ByStatus | src/App.js:38-47 | two "Todo" tickets and one "Done" ticket give the columns "Todo" then "Done", in input order |
| Scenarios.ByName | src/App.js:41 | an empty and a missing name both land in "Ungrouped" |
| Scenarios.HighPriorityByPriority | src/App.js:46 | high-priority tickets with priorities 4 and 3 give the column "3" before "4" |
| Scenarios.EmptyStringIsZero | src/App.js:67 | an empty priority string reads as 0 |
| Scenarios.WordIsNaN | src/App.js:65-67 | a priority word that is no numeric literal reads as NaN |
| Scenarios.PaddedNumber | src/App.js:65 | surrounding white space around a priority string is ignored |
| Scenarios.HexNumber | src/App.js:65 | a hexadecimal priority string is read in base 16 |

## Left out

- Fetching: the HTTP request, `response.ok`, the JSON body and the `async`
  scheduling are not modelled. Their outcome arrives as a `Board.Event`: a
  parsed payload, or a failure.
- Logging: the console output in the fetch handler is left out. It has no
  effect on state.
- Rendering: the JSX rendering, the `'Unassigned'` fallback for a ticket
  without an assignee name, and the CSS are left out. They do not affect the state.
- React: state updates are applied in event order, one event at a time.
  React's batching and the handlers' closure over a stale `tickets` value
  are not modelled.
- Tickets.Value: attribute values are `undefined`, `null`, strings and
  integers only. Floats, booleans, arrays and objects are not modelled,
  because the ticket endpoint does not send them for these fields.
- Decimal.IntToDecimal: gives Number::toString for integers. It does not model
  the exponent form used for magnitudes of 1e21 and above, because such
  numbers do not occur as ticket attributes.
- NumericString.StringToNumber: computes with exact reals. It does not model
  binary64 rounding, so a literal whose value is not representable compares
  by its exact value.
- Non-array tickets: line 61's check that `tickets` is an array never fires in
  the model, because the held tickets are always a sequence (line 24
  guarantees it).
- Non-object elements: array elements that are not objects (`null` entries,
  which make `ticket[groupBy]` throw) are not modelled.
- Board.Step: uses the corrected grouping `Grouping.GroupTickets`. The source's
  handlers behave differently when the regrouped tickets carry a label that
  names an `Object.prototype` property. The fetch handler keeps the new
  tickets, but the columns stay stale. The grouping handler still sets the
  key, and the display handler still sets the display option, and in both
  the columns stay stale. `AsWritten.BoardStepAsWritten` states these
  partial updates. It assumes that updates queued before a handler throws
  are applied. The error itself, which escapes the two selection handlers,
  is not modelled.
- PriorityColumnsAscending: covers only priorities from 0 to 2^32 - 2. A
  negative priority, or one of 2^32 - 1 and above, gives a key that is not an
  array index. Such keys follow the numeric columns in first-occurrence
  order. `Grouping.IsGrouping` states this in general, but this lemma does
  not spell it out.

## Findings

| source | as written | input that shows it | evidently intended | confidence | as-written member | corrected member |
|---|---|---|---|---|---|---|
| src/App.js:42-43 | `acc[key] \|\| []` reads through the `{}` accumulator's prototype, so for a label such as "constructor", "toString" or "__proto__" it yields an inherited non-array and `acc[key].push(ticket)` throws a TypeError | one ticket whose status is the string "constructor", grouped by status | every label gets its own column, as an accumulator without a prototype (`Object.create(null)`) or a `Map` would give | high; not executed | AsWritten.ConstructorStatusThrows | Grouping.GroupTickets |
