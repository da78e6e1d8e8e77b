/** The handlers of the server, over the four collections held in memory. Each method
    does what its handler does to the arrays it read (index assignment, `push`, the
    receipt `forEach`) and ends in exactly the reply and collections that the pure
    definition of the same handler gives. */
module Server {
  import opened Records
  import opened Inventory
  import opened Orders
  import opened Suppliers
  import opened Changelog

  /** The receipt loop `itemsToUpdate.forEach(...)` over local copies of the inventory
      and the changelog. `thrown` reports that a line without `itemName` met a non-empty
      inventory; the handler then stops and writes nothing back. */
  method ReceiveOrder(inventory: seq<Item>, changelog: seq<LogEntry>, lines: seq<Line>,
                      orderId: string, supplier: string, now: Instant)
    returns (thrown: bool, inv: seq<Item>, log: seq<LogEntry>)
    ensures thrown <==> Throws(inventory, lines)
    ensures !thrown ==> Ledger(inv, log) == ReceiveLines(Ledger(inventory, changelog), lines, orderId, supplier, now)
  {
    inv, log := inventory, changelog;
    var n := 0;
    while n < |lines|
      invariant 0 <= n <= |lines|
      invariant Ledger(inv, log) == ReceiveLines(Ledger(inventory, changelog), lines[..n], orderId, supplier, now)
      invariant forall m :: 0 <= m < n ==> !(|inventory| > 0 && lines[m].itemName.None?)
    {
      assert lines[..n + 1][..n] == lines[..n];
      var line := lines[n];
      if |inv| > 0 && line.itemName.None? {
        return true, inv, log;
      }
      var at := Target(inv, line);
      if at.Some? {
        var j := at.value;
        var item := inv[j];
        var after := item.quantity + line.quantity;
        inv := inv[j := item.(quantity := after, lastUpdated := Some(DayOf(now)))];
        log := log + [ReceiptEntry(item, j, after, orderId, supplier, now)];
      }
      n := n + 1;
    }
    assert lines[..n] == lines;
    thrown := false;
  }

  class Store {
    var inventory: seq<Item>
    var orders: seq<Order>
    var suppliers: seq<Supplier>
    var changelog: seq<LogEntry>

    function Snapshot(): State
      reads this
    {
      State(inventory, orders, suppliers, changelog)
    }

    constructor (initial: State)
      ensures Snapshot() == initial
    {
      inventory := initial.inventory;
      orders := initial.orders;
      suppliers := initial.suppliers;
      changelog := initial.changelog;
    }

    /** PUT /inventory/:id. */
    method UpdateInventoryById(id: string, patch: Patch, now: Instant) returns (r: Result<Item>)
      modifies this
      ensures Reply(r, Snapshot()) == UpdateById(old(Snapshot()), id, patch, now)
    {
      var found := IndexById(inventory, id);
      if found.None? {
        return Err(NotFound);
      }
      var i := found.value;
      if QuantityChanges(inventory[i], patch) {
        changelog := changelog + [CountEntry(inventory[i], patch.quantity.value, UserById, now)];
      }
      inventory := inventory[i := Merge(inventory[i], patch, DayOf(now))];
      r := Ok(inventory[i]);
    }

    /** PUT /inventory/name/:name. */
    method UpdateInventoryByName(name: string, patch: Patch, now: Instant) returns (r: Result<Item>)
      modifies this
      ensures Reply(r, Snapshot()) == UpdateByName(old(Snapshot()), name, patch, now)
    {
      var found := IndexByName(inventory, name);
      if found.None? {
        return Err(NotFound);
      }
      var i := found.value;
      if QuantityChanges(inventory[i], patch) {
        changelog := changelog + [CountEntry(inventory[i], patch.quantity.value, UserByName, now)];
      }
      inventory := inventory[i := Merge(inventory[i], patch, DayOf(now))];
      r := Ok(inventory[i]);
    }

    /** GET /inventory/low-stock. */
    method LowStockItems() returns (r: seq<Item>)
      ensures forall x :: x in r ==> x in inventory && IsLow(x)
      ensures forall j :: 0 <= j < |inventory| && IsLow(inventory[j]) ==> inventory[j] in r
      ensures r == LowStock(inventory)
    {
      r := LowStock(inventory);
    }

    /** POST /orders. */
    method PlaceOrder(req: OrderRequest, now: Instant) returns (r: Result<Order>)
      modifies this
      ensures Reply(r, Snapshot()) == CreateOrder(old(Snapshot()), req, now)
    {
      if !Truthy(req.supplier) || !req.items.Lines? {
        return Err(InvalidOrder);
      }
      var total := if req.totalValue.Some? && req.totalValue.value != 0 then req.totalValue.value else 0;
      var created := Order(OrderId(|orders| + 1), req.supplier.value, req.items.lines,
                           Some(StatusLowStock), DayOf(now), None, total);
      orders := orders + [created];
      r := Ok(created);
    }

    /** PUT /orders/:id. The receipt works on local copies of inventory and changelog,
        which are stored back only once every line is done, as the handler writes its
        files only at the end. */
    method UpdateOrderStatus(id: string, status: Option<string>, now: Instant) returns (r: Result<Order>)
      modifies this
      ensures Reply(r, Snapshot()) == Transition(old(Snapshot()), id, status, now)
    {
      var found := OrderIndex(orders, id);
      if found.None? {
        return Err(NotFound);
      }
      var k := found.value;
      var order := orders[k];
      var oldStatus := order.status;
      order := order.(status := status);
      if status == Some(StatusPlaced) && oldStatus != Some(StatusPlaced) {
        order := order.(orderDate := DayOf(now), expectedDate := Some(DayOf(now) + LeadDays));
      }
      var inv, log := inventory, changelog;
      if status == Some(StatusReceived) && oldStatus != Some(StatusReceived) {
        var thrown;
        thrown, inv, log := ReceiveOrder(inventory, changelog, order.items, id, order.supplier, now);
        if thrown {
          return Err(Thrown);
        }
      }
      orders := orders[k := order];
      inventory, changelog := inv, log;
      r := Ok(order);
    }

    /** POST /suppliers. */
    method AddSupplier(body: SupplierFields) returns (r: Result<Supplier>)
      modifies this
      ensures Reply(r, Snapshot()) == CreateSupplier(old(Snapshot()), body)
    {
      var created := Supplier(if body.id.Some? then body.id.value else SupplierId(|suppliers| + 1), body.attrs);
      suppliers := suppliers + [created];
      r := Ok(created);
    }

    /** PUT /suppliers/:id. */
    method EditSupplier(id: string, body: SupplierFields) returns (r: Result<Supplier>)
      modifies this
      ensures Reply(r, Snapshot()) == UpdateSupplier(old(Snapshot()), id, body)
    {
      var found := SupplierIndex(suppliers, id);
      if found.None? {
        return Err(NotFound);
      }
      var k := found.value;
      suppliers := suppliers[k := Supplier(body.id.GetOr(suppliers[k].id), suppliers[k].attrs + body.attrs)];
      r := Ok(suppliers[k]);
    }

    /** GET /changelog. */
    method ChangelogNewestFirst() returns (r: seq<LogEntry>)
      ensures multiset(r) == multiset(changelog)
      ensures NewestFirst(r)
      ensures forall t :: Stamped(r, t) == Stamped(changelog, t)
    {
      r := SortByTimestamp(changelog);
      forall t ensures Stamped(r, t) == Stamped(changelog, t) {
        SortIsStable(changelog, t);
      }
    }
  }
}
