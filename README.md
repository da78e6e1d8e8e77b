# Inventory and order engine of an Express inventory server, in Dafny

The server keeps four JSON collections: inventory items, replenishment orders, suppliers,
and a changelog that audits quantity changes. Each HTTP handler reads the collections it
needs, changes them in memory, and writes them back. This project models what happens
between the read and the write.

- **Inventory updates** by id and by (trimmed, case-insensitive) name merge the body into
  the item and refresh `lastUpdated`. They log an `inventory-count` entry exactly when a
  `quantity` is supplied and differs from the stored one.
- **The low-stock query** filters items by `quantity < (reorderLevel || 10)`.
- **Order creation** validates the body. It numbers the order `ORD-` plus the zero-padded
  count plus one and starts it at `low-stock`.
- **Order status updates** store the new status verbatim. Entering `order-placed` stamps
  `orderDate` and `expectedDate`. Entering `order-received` adds every line's quantity to
  the first item with the same case-insensitive name, with one `order-received` log entry
  per matched line.
- **Suppliers** are created with a `SUP-` sequence id and updated by merge.
- **The changelog read** sorts entries newest first.

Layout:

- `records.dfy` (module `Records`): the records and request bodies; `State` (the four
  collections) and `Reply` (result plus collections left behind).
- `text.dfy` (`Text`): lower-casing, `trim`, `String(n)`, `padStart`, sequence ids.
- `inventory.dfy` (`Inventory`): `findIndex`, the low-stock filter, the inventory PUTs.
- `orders.dfy` (`Orders`): order creation, the receipt loop (`ReceiveLines`) and the status
  transition.
- `suppliers.dfy` (`Suppliers`) and `changelog.dfy` (`Changelog`): the supplier handlers
  and the sorted changelog read.
- `store.dfy` (`Server`): class `Store`. Its fields `inventory`, `orders`, `suppliers` and
  `changelog` are the collections. There is one method per handler, and each method's new
  state equals the pure definition of the same handler. The receipt `forEach` is the loop
  of `Server.ReceiveOrder`.

Time is a parameter `now` (milliseconds since the epoch). A date is the UTC day number
`now / 86400000`, which is what `toISOString().split('T')[0]` denotes. Log ids
`log-<now>` and `log-<now>-<index>` are the structured `LogId(now, index)`.

Facts about server.js that the model keeps as they are:

- Nothing keeps quantities non-negative. Receipt lines may carry 0 or negative quantities.
- A zero-quantity receipt line still writes an `order-received` entry whose previous and
  new quantities are equal. Only the inventory PUTs log "iff the quantity changed".
- An empty `items` array passes order validation, because `[]` is truthy.
- The lifecycle is not forward-only. `ReceiveAgainAfterPlaced` shows an order taken from
  `order-received` back to `order-placed` and received a second time.
- A supplier body's `id` replaces the generated `SUP-` id, so supplier ids can repeat.
- There is no immediate stock-deducting order flow and no insufficient-stock error in
  server.js.

## Model

| member | source | states |
|---|---|---|
| `Text.LowerCase` | server.js:86 | `toLowerCase` keeps the length and lower-cases every character |
| `Text.TrimStart` | server.js:82 | drops exactly the leading white space; the result is a suffix that does not start with white space |
| `Text.TrimEnd` | server.js:82 | drops exactly the trailing white space; the result is a prefix that does not end with white space |
| `Text.Trim` | server.js:82 | `trim()` is a slice of the input, with only white space cut on either side and no white space at its ends |
| `Text.Decimal` | server.js:139 | `String(n)` is a non-empty string of digits with no leading zero (unless n = 0) |
| `Text.PadStart` | server.js:139 | `padStart(w, c)` has length max(w, len); the input is its suffix and every added character is the fill |
| `Text.DecimalRoundTrip` | server.js:139 | reading back the digits of `String(n)` gives n |
| `Text.LeadingZerosValue` | server.js:139 | zero padding in front of a digit string does not change its value |
| `Text.SequenceIdRoundTrip` | server.js:139 | the digits after the prefix of `ORD-`/`SUP-` + padded count read back as the count |
| `Text.SequenceIdInjective` | server.js:139 | different counts give different sequence-derived ids |
| `Inventory.FirstIndex` | server.js:54 | `findIndex` returns the first position satisfying the test, or none when no position does |
| `Inventory.FirstIndexAgree` | server.js:182 | two searches that agree position by position find the same first position |
| `Inventory.Threshold` | server.js:115 | the `reorderLevel`-or-10 fallback is never 0: the item's own level when set and non-zero, else 10 |
| `Inventory.LowStock` | server.js:113-117 | the result holds only low items of the inventory and every low item of it |
| `Inventory.LowStockAppend` | server.js:115 | the filter distributes over concatenation, so it keeps inventory order |
| `Inventory.UpdateAt` | server.js:59-75 | same length, only index i changes (to the merged item with `lastUpdated` = today), one `inventory-count` entry iff the quantity changes (id `log-<now>`, the item's id, the stored and supplied quantities, no order or supplier), else the changelog is unchanged |
| `Inventory.UpdateById` | server.js:49-78 | not found iff no item has the id, and then nothing changes; otherwise the first item with the id is updated as `UpdateAt` says |
| `Inventory.UpdateByName` | server.js:81-110 | not found iff no item's lower-cased name equals the trimmed lower-cased parameter, and then nothing changes; otherwise the first such item is updated |
| `Inventory.RepeatedUpdateById` | server.js:60-75 | repeating the same PUT by id hits the same item, leaves it as before up to `lastUpdated`, and logs nothing more |
| `Orders.CreateOrder` | server.js:129-151 | rejected iff the supplier is missing or empty or `items` is missing or not an array, with orders unchanged; otherwise exactly one order is appended with id `ORD-` + padded (count+1), status `low-stock`, today's date and `totalValue` or 0 |
| `Orders.CreateOrderKeepsNumbering` | server.js:139 | on orders numbered by position, creation keeps them numbered and the new id is unlike every earlier one |
| `Orders.ReceiveLines` | server.js:181-204 | the receipt keeps the inventory length, changes only quantities and `lastUpdated`, keeps the old changelog as a prefix, and appends only `order-received` entries carrying the order id, the supplier and the timestamp |
| `Orders.TargetStable` | server.js:182 | a line goes to the same item before and after earlier lines are received |
| `Orders.ReceiveLinesLogsMatchedLines` | server.js:184-203 | exactly one changelog entry per line whose name matches an item |
| `Orders.ReceiveLinesAddsRoutedQuantity` | server.js:185-188 | every item ends at its old quantity plus the quantities of all lines that went to it |
| `Orders.ReceiveLinesStamps` | server.js:182-189 | every item some line went to ends with `lastUpdated` = today; every item no line reached keeps its `lastUpdated` |
| `Orders.ReceiveSkipsUnmatched` | server.js:184 | unmatched lines change nothing: receiving only the matched lines gives the same result |
| `Orders.ReceiveLastEntry` | server.js:185-199 | the entry of a matched line has id `log-<now>-<item index>`, the item's id, the stored quantity plus everything earlier lines routed to the item as previous quantity, and that plus the line's quantity as new quantity |
| `Orders.ReceiveLinesAppend` | server.js:181-204 | receiving `xs` and then `ys` gives the same ledger as receiving `xs + ys` |
| `Orders.RoutedElsewhere` | server.js:182-186 | lines that go to other items or to none add nothing to what an item receives |
| `Orders.ReceiveChainsSameItem` | server.js:185-202 | for two lines naming one item, with any lines for other items between them, the earlier entry stays in place and the later entry's previous quantity is the earlier entry's new quantity |
| `Orders.Transition` | server.js:154-211 | not found iff no order has the id, and then nothing changes. The status is stored verbatim. The dates are set iff entering `order-placed`. The receipt runs iff entering `order-received`; otherwise inventory and changelog are untouched. A nameless line on a non-empty inventory fails the request and nothing is written. The update succeeds iff the order exists and no such failure happens |
| `Orders.ReceiveTwiceIsIdempotent` | server.js:176 | a second `order-received` right after a successful one changes nothing |
| `Orders.ReceiveAgainAfterPlaced` | server.js:168-176 | `order-received` → `order-placed` → `order-received` runs the receipt again on the stock of the time |
| `Suppliers.CreateSupplier` | server.js:221-230 | exactly one supplier is appended; its id is the body's `id` if given, else `SUP-` + padded (count+1); its attributes are the body's |
| `Suppliers.UpdateSupplier` | server.js:232-243 | not found iff no supplier has the id, and then nothing changes; otherwise only that supplier changes, to the body's fields over the stored ones |
| `Suppliers.CreateSupplierKeepsNumbering` | server.js:224 | on suppliers numbered by position, a body without `id` keeps them numbered and gets a fresh id |
| `Changelog.Insert` | server.js:251 | inserting adds exactly the one entry (as a multiset) |
| `Changelog.InsertNoNewerThan` | server.js:251 | inserting an entry no newer than a bound keeps every entry within the bound |
| `Changelog.InsertKeepsOrder` | server.js:251 | inserting into a newest-first sequence keeps it newest first |
| `Changelog.SortByTimestamp` | server.js:251 | the sorted changelog is a permutation of the stored one, ordered by non-increasing timestamp |
| `Changelog.InsertStamped` | server.js:251 | insertion puts the entry before every later-inserted entry with the same timestamp |
| `Changelog.SortIsStable` | server.js:251 | entries with equal timestamps keep their stored order |
| `Server.ReceiveOrder` | server.js:176-207 | the receipt loop fails iff a nameless line meets a non-empty inventory, and otherwise ends in the ledger `ReceiveLines` gives |
| `Server.Store.constructor` | server.js:44 | the store starts from the collections as read |
| `Server.Store.UpdateInventoryById` | server.js:49-78 | reply and new collections are those of `UpdateById` |
| `Server.Store.UpdateInventoryByName` | server.js:81-110 | reply and new collections are those of `UpdateByName` |
| `Server.Store.LowStockItems` | server.js:113-117 | returns only low items of the inventory and every low item, in inventory order with repeats kept (the result of `LowStock`) |
| `Server.Store.PlaceOrder` | server.js:129-151 | reply and new collections are those of `CreateOrder` |
| `Server.Store.UpdateOrderStatus` | server.js:154-211 | reply and new collections are those of `Transition` |
| `Server.Store.AddSupplier` | server.js:221-230 | reply and new collections are those of `CreateSupplier` |
| `Server.Store.EditSupplier` | server.js:232-243 | reply and new collections are those of `UpdateSupplier` |
| `Server.Store.ChangelogNewestFirst` | server.js:248-253 | a permutation of the changelog, newest first, stable among equal timestamps |

## Left out

- HTTP routing, body parsing, CORS, `app.listen` and status codes (server.js:1-11,
  255-257) are transport. Each handler becomes an operation whose reply is a `Result`:
  `NotFound` is 404, `InvalidOrder` is 400, and `Thrown` is an exception (500).
- `readData`/`writeData` and the file system (server.js:19-38) are I/O and are not
  modelled. So is their swallowing of read and parse errors (answer `[]`) and of write
  errors (log only). Collections are in memory.
- The GET handlers that return a whole collection (server.js:43-46, 123-126, 216-219)
  return the `Store` field as it is. They have no member.
- Wall-clock time is a parameter. One instant stands for all `new Date()` and `Date.now()`
  calls of a request. `expectedDate` is the day number plus 3. Daylight-saving shifts of
  local `setDate` and ISO string formatting are not modelled.
- JSON values are reduced to the fields the handlers use: ids, names and statuses are
  strings, quantities, levels and totals are integers, and price is a real. Other
  attributes are a string-to-string map, and `extra` is assumed to hold none of the known
  field names. Not modelled: `null` bodies, items without a quantity or name, non-numeric
  quantities (`+` as string concatenation), non-string suppliers, and `totalValue` of
  other types.
- `Text.LowerCase` maps only ASCII letters; JavaScript's full Unicode case mapping is not
  modelled.
- Invalid timestamps (which make the sort comparator return NaN) are not modelled.
  Timestamps are integers.
- Concurrent requests and lost updates are not modelled. Each handler is one sequential
  read-modify-write.
