/** The records the server keeps in its four JSON collections (inventory, orders,
    suppliers, changelog), the request bodies its handlers accept, and the replies. */
module Records {

  datatype Option<T> = None | Some(value: T) {
    function GetOr(default: T): T {
      if Some? then value else default
    }
  }

  /** `{...base, ...top}` for one optional field: a field present in `top` wins. */
  function Overlay<T>(base: Option<T>, top: Option<T>): Option<T> {
    if top.Some? then top else base
  }

  /** The ways a handler fails: 404, 400, or an exception thrown inside the handler
      (Express answers 500 and nothing has been written back). */
  datatype Failure = NotFound | InvalidOrder | Thrown

  datatype Result<T> = Ok(value: T) | Err(error: Failure)

  /** Milliseconds since the epoch, as `Date.now()` and `new Date(iso)` give them. */
  type Instant = int

  /** A calendar date (`toISOString().split('T')[0]`), as days since the epoch, UTC. */
  type Day = int

  const MillisPerDay: int := 86_400_000

  /** The UTC date of an instant; Dafny's `/` floors, as the calendar does before 1970 too. */
  function DayOf(t: Instant): Day {
    t / MillisPerDay
  }

  /** An inventory item. Attributes the handlers never look at are kept in `extra`. */
  datatype Item = Item(
    id: string,
    name: string,
    quantity: int,
    reorderLevel: Option<int>,
    price: Option<real>,
    lastUpdated: Option<Day>,
    extra: map<string, string>)

  /** The body of an inventory PUT: the fields it supplies; absent ones are `None`. */
  datatype Patch = Patch(
    id: Option<string>,
    name: Option<string>,
    quantity: Option<int>,
    reorderLevel: Option<int>,
    price: Option<real>,
    extra: map<string, string>)

  /** One line of an order. `itemName` is `None` when the element has no `itemName`
      (the creation handler accepts any array, a string array included). */
  datatype Line = Line(itemName: Option<string>, quantity: int)

  /** A replenishment order. `status` is `None` once a status update without a
      `status` field has erased it. */
  datatype Order = Order(
    id: string,
    supplier: string,
    items: seq<Line>,
    status: Option<string>,
    orderDate: Day,
    expectedDate: Option<Day>,
    totalValue: int)

  /** The `items` field of an order request: absent (or falsy), present but not an
      array, or an array of lines. */
  datatype ItemsField = Missing | NotAnArray | Lines(lines: seq<Line>)

  datatype OrderRequest = OrderRequest(supplier: Option<string>, items: ItemsField, totalValue: Option<int>)

  datatype Supplier = Supplier(id: string, attrs: map<string, string>)

  /** The body of a supplier POST or PUT. */
  datatype SupplierFields = SupplierFields(id: Option<string>, attrs: map<string, string>)

  /** `log-<now>` (`index == None`) or `log-<now>-<inventory index>`. */
  datatype LogId = LogId(stamp: Instant, index: Option<nat>)

  datatype EntryKind = InventoryCount | OrderReceived

  datatype LogEntry = LogEntry(
    id: LogId,
    itemId: string,
    timestamp: Instant,
    user: string,
    kind: EntryKind,
    previousQuantity: int,
    newQuantity: int,
    orderId: Option<string>,
    supplier: Option<string>)

  /** The four collections as the handlers read them at the start of a request. */
  datatype State = State(
    inventory: seq<Item>,
    orders: seq<Order>,
    suppliers: seq<Supplier>,
    changelog: seq<LogEntry>)

  /** What a handler answers, and the collections it leaves behind. */
  datatype Reply<T> = Reply(result: Result<T>, next: State)
}
