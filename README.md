# Order store, queue statistics and order-item editor

A Dafny model of the three pieces of logic in a dashboard for a simulated
serverless order-processing pipeline:

- **The order store** (`lib/mock-data.ts`): a process-wide list of orders,
  seeded with eight. `getOrderById` returns the first order with that id or
  nothing; `getOrders` returns the list; `createOrder` completes the caller's
  data with an id `ORD-<n>` (n drawn from [0, 10000)) and two timestamps,
  puts the record at the front of the list and returns it. Modelled by the
  module `MockData`: the `OrderStore` class owns the list as a `seq<Order>`
  field; lookup is the function `FindFirst`; the id text comes from module
  `NumberFormat`, the decimal rendering that JavaScript's template literal
  gives an integral number.
- **Queue statistics** (`lib/queue-data.ts`): a constant list of eight queue
  messages, each with one of four statuses, and the per-status counts with
  their total. Modelled by the pure module `QueueData`.
- **The item list of the new-order form** (`app/orders/new/page.tsx`): the
  list starts with one blank item; the form appends a blank item, removes
  the item at an index, rewrites one field of an item, and shows the total
  Σ quantity × price. Modelled by module `OrderItemEditor`, whose
  `OrderEditor` class holds the `items` state that each editor replaces.

Money is in integer cents (129.99 is `12999`). The random draw and the two
clock readings of `createOrder` are parameters of `OrderStore.CreateOrder`.

Ids are not zero-padded: `ORD-` followed by one to four digits (`ORD-7` for
a draw of 7). Quantities are any `int`: the quantity input's `min="1"`
(app/orders/new/page.tsx:140) only blocks submission, and the `items` state
holds whatever the input yields.

## Model

| member | source | states |
|---|---|---|
| `NumberFormat.Decimal` | lib/mock-data.ts:140 | the rendering of a number is a non-empty string of decimal digits |
| `NumberFormat.ParseDecimalOfDecimal` | lib/mock-data.ts:140 | reading the digits of `n` back gives `n` |
| `NumberFormat.DecimalNoLeadingZero` | lib/mock-data.ts:140 | the rendering starts with '0' exactly when the number is 0: no zero padding |
| `NumberFormat.DecimalLength` | lib/mock-data.ts:140 | a number below 10^k has at most k digits, one at or above 10^(k-1) at least k |
| `MockData.FormatOrderIdShape` | lib/mock-data.ts:140 | for every draw below 10000 the id is "ORD-" plus 1 to 4 digits, unpadded, and parsing it gives back the draw |
| `MockData.FormatOrderIdInjective` | lib/mock-data.ts:140 | two draws give the same id only if they are equal |
| `MockData.Complete` | lib/mock-data.ts:137-143 | the new record carries every field the caller gave unchanged (reading them back gives the caller's data) plus the id and the two timestamps |
| `MockData.FindFirst` | lib/mock-data.ts:129-131 | a found index holds the id and no earlier record has it; nothing is found exactly when no record has the id |
| `MockData.FindFirstAfterPrepend` | lib/mock-data.ts:129-145 | after a record is put in front, lookup finds it if the id is its own, else gives the old answer shifted by one |
| `MockData.CollidingIdShadowsOlder` | lib/mock-data.ts:129-145 | no uniqueness check: when the new id is already stored, lookup returns the new record and the older one is no longer found |
| `MockData.SeedOrderIds` | lib/mock-data.ts:24-127 | the seed has eight orders with pairwise distinct ids, each of the form "ORD-" plus digits |
| `MockData.SeedTotalsMatchItems` | lib/mock-data.ts:24-127 | each seed order's total equals Σ quantity × price over its items, in cents |
| `MockData.OrderStore.constructor` | lib/mock-data.ts:24-127 | the store starts with the eight seed orders |
| `MockData.OrderStore.GetOrders` | lib/mock-data.ts:133-135 | the current collection is returned as it is, and reading it changes nothing |
| `MockData.OrderStore.GetOrderById` | lib/mock-data.ts:129-131 | a returned record has the id asked for and is the first such in the collection; None exactly when no record has the id |
| `MockData.OrderStore.CreateOrder` | lib/mock-data.ts:137-146 | the returned record is the caller's data with id "ORD-"+n and the two timestamps; the collection grows by one with it at index 0 and every old record one place later; lookup of its id returns it and lookup of every other id is unchanged |
| `MockData.SeedLookups` | lib/mock-data.ts:24-135 | a fresh store holds 8 orders, finds "ORD-2847" as Sarah Johnson's first seed order, and finds nothing for "NOPE" |
| `MockData.CreateOnSeed` | lib/mock-data.ts:24-146 | one creation on a fresh store gives nine orders: the new one first with the caller's data and a well-formed id, then the seed in order |
| `QueueData.GetQueueMessages` | lib/queue-data.ts:88-90 | returns the message collection itself, the eight seed messages, unchanged |
| `QueueData.FilterStatus` | lib/queue-data.ts:95-98 | filtering by a status keeps only messages of that status, keeps every such message, and never lengthens the list |
| `QueueData.FilterStatusMultiplicity` | lib/queue-data.ts:95-98 | the filtered list holds each message of the status exactly as often as the collection does, and no message of another status |
| `QueueData.StatsOf` | lib/queue-data.ts:92-100 | the total is the number of messages, each count is at most the total, and the four counts add up to the total |
| `QueueData.PartitionCountsSum` | lib/queue-data.ts:92-100 | every message has exactly one of the four statuses, so the four filtered lists together are as long as the whole |
| `QueueData.FilterLengthIsCount` | lib/queue-data.ts:95-98 | the length of the filtered list is the multiplicity of the status among the messages' statuses |
| `QueueData.StatsCountStatuses` | lib/queue-data.ts:92-100 | each per-status count equals the number of messages with that status |
| `QueueData.SeedStats` | lib/queue-data.ts:12-100 | on the seed the statistics are available 3, in flight 1, delayed 1, dead-letter 3, total 8 |
| `QueueData.GetQueueStats` | lib/queue-data.ts:92-100 | getQueueStats returns available 3, in flight 1, delayed 1, dead-letter 3, total 8 |
| `QueueData.SeedDeadLetters` | lib/queue-data.ts:59-85 | every dead-lettered seed message has retry count 3 and receive count 4 |
| `OrderItemEditor.DefaultItem` | app/orders/new/page.tsx:20-24 | the blank item has empty product id and name, quantity 1, price 0, so subtotal 0 |
| `OrderItemEditor.WithField` | app/orders/new/page.tsx:31-35 | the updated item has the new value in the named field and the other three fields unchanged |
| `OrderItemEditor.RemoveAt` | app/orders/new/page.tsx:27-29 | filtering out an index in range drops exactly that item and keeps the rest in order; any other index changes nothing |
| `OrderItemEditor.ReduceAddsTotal` | app/orders/new/page.tsx:37-39 | the left fold started at a sum adds Σ quantity × price to it |
| `OrderItemEditor.TotalAppend` | app/orders/new/page.tsx:37-39 | the total of a concatenation is the sum of the totals |
| `OrderItemEditor.AddItemKeepsTotal` | app/orders/new/page.tsx:23-39 | appending a blank item leaves the total unchanged |
| `OrderItemEditor.RemoveAtLowersTotal` | app/orders/new/page.tsx:27-39 | removing the item at an index in range lowers the total by exactly its subtotal |
| `OrderItemEditor.UpdateChangesTotalBySubtotal` | app/orders/new/page.tsx:31-39 | rewriting one field of one item changes the total by that item's new subtotal minus its old one |
| `OrderItemEditor.RemovalFromFormKeepsAnItem` | app/orders/new/page.tsx:159-169 | the remove control exists only with more than one item, so a removal through the form leaves at least one item |
| `OrderItemEditor.OrderEditor.constructor` | app/orders/new/page.tsx:20 | the form starts with exactly one blank item |
| `OrderItemEditor.OrderEditor.CalculateTotal` | app/orders/new/page.tsx:37-39 | the reduce over the items equals Σ quantity × price |
| `OrderItemEditor.OrderEditor.AddItem` | app/orders/new/page.tsx:23-25 | the list grows by one blank item at the end, earlier items and the total unchanged |
| `OrderItemEditor.OrderEditor.RemoveItem` | app/orders/new/page.tsx:27-29 | with an index in range the list loses that item (one shorter, others in order) and the total loses its subtotal; otherwise the list is unchanged |
| `OrderItemEditor.OrderEditor.UpdateItem` | app/orders/new/page.tsx:31-35 | the length is kept; item `index` gets the one field rewritten; every other item is unchanged; the total moves by the change in that item's subtotal |
| `OrderItemEditor.FreshFormTotals` | app/orders/new/page.tsx:20-39 | a fresh form totals 0, and after one addition has two items and still totals 0 |

## Left out

- `lib/monitoring-data.ts` (the synthetic time series): it is built from `Math.random`, `Math.sin`, the wall clock and locale time formatting; its output is floating-point noise with no exact behaviour to state.
- The randomness and the clock of `createOrder`: the draw `n` and the two `toISOString()` readings are parameters; ISO-8601 formatting is not modelled, and `n < 10000` is taken as given of `Math.floor(Math.random() * 10000)`.
- Floating-point money: prices and totals are integer cents, so the model's sums are exact where JavaScript's binary floating point may be off in the last bit.
- `MockData.OrderStore.GetOrders`: returns the list as a value; the source hands out the live array, which a caller could mutate, and `getOrderById` and `createOrder` likewise return the live record stored in it (aliasing not modelled; no caller mutates them).
- `OrderItemEditor.OrderEditor.UpdateItem`: requires the index to be in range, as every call from the form is; with an index past the end JavaScript would leave holes and a partial item, which the typed model cannot represent, and with a negative index it would set a property that is not an array element, leaving the list unchanged.
- Input parsing of the form (`Number.parseInt`, `Number.parseFloat`, which can yield NaN) and the loose `string | number` value of `updateItem`: the model's field update carries a value of the field's own type.
- The rest of the new-order form: the customer name and email inputs, `handleSubmit` (its one-second delay, the console log and navigation) and the rendering.
- The page layouts, the navigation bar, the chart wrapper and the two status badges: presentation only.
- Concurrency: the source is single-threaded; the store has no locking to model.
