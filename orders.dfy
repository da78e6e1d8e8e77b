/** The order lifecycle: POST /orders (validation, sequence-derived id, initial status)
    and PUT /orders/:id (status stored verbatim; dates set on entering `order-placed`;
    stock received, line by line, on entering `order-received`). */
module Orders {
  import opened Records
  import opened Text
  import opened Inventory

  const StatusLowStock := "low-stock"
  const StatusPlaced := "order-placed"
  const StatusReceived := "order-received"
  const ReceiptUser := "System"
  const LeadDays := 3

  /** `ORD-` + `String(n).padStart(3, '0')`. */
  function OrderId(n: nat): string {
    SequenceId("ORD-", n)
  }

  /** JavaScript truthiness of an optional string: present and not empty. */
  predicate Truthy(s: Option<string>) {
    s.Some? && s.value != ""
  }

  /** POST /orders. An empty `items` array is accepted (an empty array is truthy). */
  function CreateOrder(s: State, req: OrderRequest, now: Instant): (r: Reply<Order>)
    ensures r.result.Err? <==> !Truthy(req.supplier) || !req.items.Lines?
    ensures r.result.Err? ==> r.result.error == InvalidOrder && r.next == s
    ensures r.result.Ok? ==>
      var o := r.result.value;
      && r.next == s.(orders := s.orders + [o])
      && o.id == OrderId(|s.orders| + 1)
      && o.supplier == req.supplier.value && o.items == req.items.lines
      && o.status == Some(StatusLowStock)
      && o.orderDate == DayOf(now) && o.expectedDate == None
      && o.totalValue == req.totalValue.GetOr(0)
  {
    if !Truthy(req.supplier) || !req.items.Lines? then Reply(Err(InvalidOrder), s)
    else
      var total := if req.totalValue.Some? && req.totalValue.value != 0 then req.totalValue.value else 0;
      var o := Order(OrderId(|s.orders| + 1), req.supplier.value, req.items.lines,
                     Some(StatusLowStock), DayOf(now), None, total);
      Reply(Ok(o), s.(orders := s.orders + [o]))
  }

  /** Every order carries the id its position would give it: what a collection built
      only by this server looks like. */
  predicate Numbered(orders: seq<Order>) {
    forall k :: 0 <= k < |orders| ==> orders[k].id == OrderId(k + 1)
  }

  /** On a numbered collection, creation keeps it numbered and the new id is fresh. */
  lemma CreateOrderKeepsNumbering(s: State, req: OrderRequest, now: Instant)
    requires Numbered(s.orders)
    requires CreateOrder(s, req, now).result.Ok?
    ensures var r := CreateOrder(s, req, now);
            && Numbered(r.next.orders)
            && forall k :: 0 <= k < |s.orders| ==> s.orders[k].id != r.result.value.id
  {
    forall k | 0 <= k < |s.orders|
      ensures s.orders[k].id != OrderId(|s.orders| + 1)
    {
      SequenceIdInjective("ORD-", k + 1, |s.orders| + 1);
    }
  }

  /** Inventory and changelog: the two collections a receipt rewrites. */
  datatype Ledger = Ledger(inventory: seq<Item>, changelog: seq<LogEntry>)

  /** The inventory item a line goes to: the first whose lower-cased name equals the
      line's lower-cased `itemName`. A line without a name matches nothing here; on a
      non-empty inventory it makes the handler throw (see `Throws`). */
  function Target(inv: seq<Item>, line: Line): Option<nat> {
    if line.itemName.None? then None
    else
      var key := LowerCase(line.itemName.value);
      FirstIndex(inv, (it: Item) => LowerCase(it.name) == key)
  }

  /** The receipt loop would call `orderItem.itemName.toLowerCase()` on a line with no
      `itemName` while searching a non-empty inventory. */
  predicate Throws(inv: seq<Item>, lines: seq<Line>) {
    |inv| > 0 && exists k :: 0 <= k < |lines| && lines[k].itemName.None?
  }

  function ReceiptEntry(item: Item, j: nat, qty: int, orderId: string, supplier: string, now: Instant): LogEntry {
    LogEntry(LogId(now, Some(j)), item.id, now, ReceiptUser, OrderReceived,
             item.quantity, qty, Some(orderId), Some(supplier))
  }

  /** One turn of the receipt loop: add the line's quantity to its target and log it. */
  function ReceiveLine(l: Ledger, line: Line, orderId: string, supplier: string, now: Instant): Ledger {
    match Target(l.inventory, line)
    case None => l
    case Some(j) =>
      var item := l.inventory[j];
      var qty := item.quantity + line.quantity;
      Ledger(l.inventory[j := item.(quantity := qty, lastUpdated := Some(DayOf(now)))],
             l.changelog + [ReceiptEntry(item, j, qty, orderId, supplier, now)])
  }

  /** `b` is `a` with at most its quantity and `lastUpdated` changed. */
  predicate StockOnly(a: Item, b: Item) {
    b == a.(quantity := b.quantity, lastUpdated := b.lastUpdated)
  }

  /** Every entry from position `from` on records a receipt of this order. */
  predicate ReceiptEntriesFrom(log: seq<LogEntry>, from: nat, orderId: string, supplier: string, now: Instant) {
    forall k :: from <= k < |log| ==>
      && log[k].kind == OrderReceived && log[k].user == ReceiptUser && log[k].timestamp == now
      && log[k].orderId == Some(orderId) && log[k].supplier == Some(supplier)
  }

  /** The receipt loop over `lines`, in order. */
  function ReceiveLines(l: Ledger, lines: seq<Line>, orderId: string, supplier: string, now: Instant): (r: Ledger)
    ensures |r.inventory| == |l.inventory|
    ensures forall j :: 0 <= j < |l.inventory| ==> StockOnly(l.inventory[j], r.inventory[j])
    ensures |l.changelog| <= |r.changelog| && r.changelog[..|l.changelog|] == l.changelog
    ensures ReceiptEntriesFrom(r.changelog, |l.changelog|, orderId, supplier, now)
  {
    if lines == [] then l
    else
      var m := ReceiveLines(l, lines[..|lines| - 1], orderId, supplier, now);
      var r := ReceiveLine(m, lines[|lines| - 1], orderId, supplier, now);
      assert r.changelog[..|m.changelog|] == m.changelog;
      r
  }

  /** Receipts change no name, so every line goes to the same item all along. */
  lemma TargetStable(a: seq<Item>, b: seq<Item>, line: Line)
    requires |a| == |b|
    requires forall j :: 0 <= j < |a| ==> StockOnly(a[j], b[j])
    ensures Target(a, line) == Target(b, line)
  {
    if line.itemName.Some? {
      var key := LowerCase(line.itemName.value);
      FirstIndexAgree(a, (it: Item) => LowerCase(it.name) == key, b, (it: Item) => LowerCase(it.name) == key);
    }
  }

  /** The number of lines that go to some item. */
  function MatchedCount(inv: seq<Item>, lines: seq<Line>): nat {
    if lines == [] then 0
    else MatchedCount(inv, lines[..|lines| - 1]) + (if Target(inv, lines[|lines| - 1]).Some? then 1 else 0)
  }

  /** The total quantity of the lines that go to item `j`. */
  function Routed(inv: seq<Item>, lines: seq<Line>, j: nat): int {
    if lines == [] then 0
    else
      var last := lines[|lines| - 1];
      Routed(inv, lines[..|lines| - 1], j) + (if Target(inv, last) == Some(j) then last.quantity else 0)
  }

  /** The lines that go to some item, in order. */
  function MatchedLines(inv: seq<Item>, lines: seq<Line>): seq<Line> {
    if lines == [] then []
    else
      var last := lines[|lines| - 1];
      MatchedLines(inv, lines[..|lines| - 1]) + (if Target(inv, last).Some? then [last] else [])
  }

  /** A receipt writes exactly one changelog entry per matched line. */
  lemma {:induction false} ReceiveLinesLogsMatchedLines(l: Ledger, lines: seq<Line>, orderId: string, supplier: string, now: Instant)
    ensures |ReceiveLines(l, lines, orderId, supplier, now).changelog| == |l.changelog| + MatchedCount(l.inventory, lines)
  {
    if lines != [] {
      var init := lines[..|lines| - 1];
      ReceiveLinesLogsMatchedLines(l, init, orderId, supplier, now);
      TargetStable(l.inventory, ReceiveLines(l, init, orderId, supplier, now).inventory, lines[|lines| - 1]);
    }
  }

  /** After a receipt every item holds its old quantity plus the quantities of all the
      lines that went to it. */
  lemma {:induction false} ReceiveLinesAddsRoutedQuantity(l: Ledger, lines: seq<Line>, orderId: string, supplier: string, now: Instant, j: nat)
    requires j < |l.inventory|
    ensures ReceiveLines(l, lines, orderId, supplier, now).inventory[j].quantity
            == l.inventory[j].quantity + Routed(l.inventory, lines, j)
  {
    if lines != [] {
      var init := lines[..|lines| - 1];
      ReceiveLinesAddsRoutedQuantity(l, init, orderId, supplier, now, j);
      TargetStable(l.inventory, ReceiveLines(l, init, orderId, supplier, now).inventory, lines[|lines| - 1]);
    }
  }

  /** Some line of `lines` goes to item `j`. */
  predicate Reaches(inv: seq<Item>, lines: seq<Line>, j: nat) {
    exists k :: 0 <= k < |lines| && Target(inv, lines[k]) == Some(j)
  }

  /** After a receipt every item that some line went to is dated today; every other item
      keeps its `lastUpdated`. */
  lemma {:induction false} ReceiveLinesStamps(l: Ledger, lines: seq<Line>, orderId: string, supplier: string, now: Instant, j: nat)
    requires j < |l.inventory|
    ensures ReceiveLines(l, lines, orderId, supplier, now).inventory[j].lastUpdated
            == if Reaches(l.inventory, lines, j) then Some(DayOf(now)) else l.inventory[j].lastUpdated
  {
    if lines != [] {
      var init, last := lines[..|lines| - 1], lines[|lines| - 1];
      ReceiveLinesStamps(l, init, orderId, supplier, now, j);
      TargetStable(l.inventory, ReceiveLines(l, init, orderId, supplier, now).inventory, last);
      if Reaches(l.inventory, init, j) {
        var k :| 0 <= k < |init| && Target(l.inventory, init[k]) == Some(j);
        assert lines[k] == init[k];
      }
      if Target(l.inventory, last) == Some(j) {
        assert Target(l.inventory, lines[|lines| - 1]) == Some(j);
      }
      if Reaches(l.inventory, lines, j) && Target(l.inventory, last) != Some(j) {
        var k :| 0 <= k < |lines| && Target(l.inventory, lines[k]) == Some(j);
        assert init[k] == lines[k];
      }
    }
  }

  /** Unmatched lines are skipped: receiving only the matched lines gives the same ledger. */
  lemma {:induction false} ReceiveSkipsUnmatched(l: Ledger, lines: seq<Line>, orderId: string, supplier: string, now: Instant)
    ensures ReceiveLines(l, lines, orderId, supplier, now)
            == ReceiveLines(l, MatchedLines(l.inventory, lines), orderId, supplier, now)
  {
    if lines != [] {
      var init, last := lines[..|lines| - 1], lines[|lines| - 1];
      var matched := MatchedLines(l.inventory, init);
      ReceiveSkipsUnmatched(l, init, orderId, supplier, now);
      var m := ReceiveLines(l, init, orderId, supplier, now);
      TargetStable(l.inventory, m.inventory, last);
      if Target(l.inventory, last).Some? {
        assert MatchedLines(l.inventory, lines) == matched + [last];
        assert (matched + [last])[..|matched|] == matched;
      } else {
        assert MatchedLines(l.inventory, lines) == matched;
      }
    }
  }

  /** The entry a matched line writes: it names the target item, starts from the item's
      stored quantity plus everything the earlier lines routed to it, and ends that much
      plus the line's own quantity. */
  lemma {:induction false} ReceiveLastEntry(l: Ledger, init: seq<Line>, last: Line, orderId: string, supplier: string, now: Instant, j: nat)
    requires Target(l.inventory, last) == Some(j)
    ensures j < |l.inventory|
    ensures var r := ReceiveLines(l, init + [last], orderId, supplier, now);
            && |r.changelog| > 0
            && var e := r.changelog[|r.changelog| - 1];
               && e.id == LogId(now, Some(j))
               && e.itemId == l.inventory[j].id
               && e.previousQuantity == l.inventory[j].quantity + Routed(l.inventory, init, j)
               && e.newQuantity == e.previousQuantity + last.quantity
  {
    var lines := init + [last];
    assert lines[..|lines| - 1] == init;
    var m := ReceiveLines(l, init, orderId, supplier, now);
    TargetStable(l.inventory, m.inventory, last);
    ReceiveLinesAddsRoutedQuantity(l, init, orderId, supplier, now, j);
  }

  /** Receiving `xs` and then `ys` is receiving `xs + ys`. */
  lemma {:induction false} ReceiveLinesAppend(l: Ledger, xs: seq<Line>, ys: seq<Line>, orderId: string, supplier: string, now: Instant)
    ensures ReceiveLines(l, xs + ys, orderId, supplier, now)
            == ReceiveLines(ReceiveLines(l, xs, orderId, supplier, now), ys, orderId, supplier, now)
    decreases |ys|
  {
    if ys == [] {
      assert xs + ys == xs;
    } else {
      assert (xs + ys)[..|xs + ys| - 1] == xs + ys[..|ys| - 1];
      assert (xs + ys)[|xs + ys| - 1] == ys[|ys| - 1];
      ReceiveLinesAppend(l, xs, ys[..|ys| - 1], orderId, supplier, now);
    }
  }

  /** Lines that do not go to item `j` add nothing to what `j` receives. */
  lemma {:induction false} RoutedElsewhere(inv: seq<Item>, lines: seq<Line>, more: seq<Line>, j: nat)
    requires forall k :: 0 <= k < |more| ==> Target(inv, more[k]) != Some(j)
    ensures Routed(inv, lines + more, j) == Routed(inv, lines, j)
    decreases |more|
  {
    if more == [] {
      assert lines + more == lines;
    } else {
      assert (lines + more)[..|lines + more| - 1] == lines + more[..|more| - 1];
      assert (lines + more)[|lines + more| - 1] == more[|more| - 1];
      RoutedElsewhere(inv, lines, more[..|more| - 1], j);
    }
  }

  /** Two lines for the same item accumulate, whatever lines for other items or for no item
      come between them: the later entry starts from the quantity the earlier one ended with,
      and the earlier entry stays where it was written. */
  lemma {:induction false} ReceiveChainsSameItem(l: Ledger, init: seq<Line>, a: Line, mid: seq<Line>, b: Line,
                                                 orderId: string, supplier: string, now: Instant)
    requires Target(l.inventory, a).Some? && Target(l.inventory, a) == Target(l.inventory, b)
    requires forall k :: 0 <= k < |mid| ==> Target(l.inventory, mid[k]) != Target(l.inventory, a)
    ensures var ra := ReceiveLines(l, init + [a], orderId, supplier, now);
            var r := ReceiveLines(l, init + [a] + mid + [b], orderId, supplier, now);
            && 0 < |ra.changelog| < |r.changelog|
            && r.changelog[|ra.changelog| - 1] == ra.changelog[|ra.changelog| - 1]
            && r.changelog[|r.changelog| - 1].previousQuantity == ra.changelog[|ra.changelog| - 1].newQuantity
            && r.changelog[|r.changelog| - 1].newQuantity
               == ra.changelog[|ra.changelog| - 1].newQuantity + b.quantity
  {
    var j := Target(l.inventory, a).value;
    var pre := init + [a];
    var upto := pre + mid;
    var lines := upto + [b];
    assert lines == pre + (mid + [b]);
    ReceiveLastEntry(l, init, a, orderId, supplier, now, j);
    ReceiveLastEntry(l, upto, b, orderId, supplier, now, j);
    ReceiveLinesAppend(l, pre, mid + [b], orderId, supplier, now);
    RoutedElsewhere(l.inventory, pre, mid, j);
    assert pre[..|pre| - 1] == init;
  }

  /** `orders.findIndex(o => o.id === id)`. */
  function OrderIndex(orders: seq<Order>, id: string): Option<nat> {
    FirstIndex(orders, (o: Order) => o.id == id)
  }

  /** The guard of the `order-placed` side effect. */
  predicate PlacedEdge(before: Option<string>, after: Option<string>) {
    after == Some(StatusPlaced) && before != Some(StatusPlaced)
  }

  /** The guard of the `order-received` side effect. */
  predicate ReceivedEdge(before: Option<string>, after: Option<string>) {
    after == Some(StatusReceived) && before != Some(StatusReceived)
  }

  /** The order as the handler leaves it: new status, and fresh dates on entering `order-placed`. */
  function Restatus(o: Order, status: Option<string>, now: Instant): Order {
    if PlacedEdge(o.status, status)
    then o.(status := status, orderDate := DayOf(now), expectedDate := Some(DayOf(now) + LeadDays))
    else o.(status := status)
  }

  /** PUT /orders/:id. */
  function Transition(s: State, id: string, status: Option<string>, now: Instant): (r: Reply<Order>)
    ensures r.result.Err? ==> r.next == s
    ensures r.result.Ok? <==>
      && OrderIndex(s.orders, id).Some?
      && var o := s.orders[OrderIndex(s.orders, id).value];
         !(ReceivedEdge(o.status, status) && Throws(s.inventory, o.items))
    ensures r.result == Err(NotFound) <==> forall k :: 0 <= k < |s.orders| ==> s.orders[k].id != id
    ensures r.result == Err(Thrown) <==>
      && OrderIndex(s.orders, id).Some?
      && var o := s.orders[OrderIndex(s.orders, id).value];
         ReceivedEdge(o.status, status) && Throws(s.inventory, o.items)
    ensures r.result.Ok? ==>
      && OrderIndex(s.orders, id).Some?
      && var k := OrderIndex(s.orders, id).value;
         var o, o' := s.orders[k], r.result.value;
         && r.next.orders == s.orders[k := o'] && r.next.suppliers == s.suppliers
         && o' == o.(status := status, orderDate := o'.orderDate, expectedDate := o'.expectedDate)
         && (PlacedEdge(o.status, status) ==>
               o'.orderDate == DayOf(now) && o'.expectedDate == Some(DayOf(now) + LeadDays))
         && (!PlacedEdge(o.status, status) ==>
               o'.orderDate == o.orderDate && o'.expectedDate == o.expectedDate)
         && (ReceivedEdge(o.status, status) ==>
               Ledger(r.next.inventory, r.next.changelog)
               == ReceiveLines(Ledger(s.inventory, s.changelog), o.items, id, o.supplier, now))
         && (!ReceivedEdge(o.status, status) ==>
               r.next.inventory == s.inventory && r.next.changelog == s.changelog)
  {
    match OrderIndex(s.orders, id)
    case None => Reply(Err(NotFound), s)
    case Some(k) =>
      var o := s.orders[k];
      var o' := Restatus(o, status, now);
      if !ReceivedEdge(o.status, status) then Reply(Ok(o'), s.(orders := s.orders[k := o']))
      else if Throws(s.inventory, o.items) then Reply(Err(Thrown), s)
      else
        var l := ReceiveLines(Ledger(s.inventory, s.changelog), o.items, id, o.supplier, now);
        Reply(Ok(o'), State(l.inventory, s.orders[k := o'], s.suppliers, l.changelog))
  }

  /** Receiving an order that has just been received changes nothing at all: the guard
      makes a repeated `order-received` idempotent. */
  lemma ReceiveTwiceIsIdempotent(s: State, id: string, now: Instant, later: Instant)
    requires Transition(s, id, Some(StatusReceived), now).result.Ok?
    ensures var first := Transition(s, id, Some(StatusReceived), now);
            Transition(first.next, id, Some(StatusReceived), later) == first
  {
    var first := Transition(s, id, Some(StatusReceived), now);
    var k := OrderIndex(s.orders, id).value;
    var orders := first.next.orders;
    assert OrderIndex(orders, id) == Some(k) by {
      assert orders[k].id == id;
      forall j | 0 <= j < k ensures orders[j].id != id {
        assert orders[j] == s.orders[j];
      }
    }
  }

  /** The guards look only at the previous status, so the lifecycle is not forward-only:
      an order taken back from `order-received` to `order-placed` and received again has
      its lines received a second time. */
  lemma ReceiveAgainAfterPlaced(s: State, id: string, t1: Instant, t2: Instant)
    requires OrderIndex(s.orders, id).Some?
    requires s.orders[OrderIndex(s.orders, id).value].status == Some(StatusReceived)
    requires !Throws(s.inventory, s.orders[OrderIndex(s.orders, id).value].items)
    ensures var o := s.orders[OrderIndex(s.orders, id).value];
            var placed := Transition(s, id, Some(StatusPlaced), t1);
            var again := Transition(placed.next, id, Some(StatusReceived), t2);
            && placed.result.Ok? && again.result.Ok?
            && Ledger(again.next.inventory, again.next.changelog)
               == ReceiveLines(Ledger(s.inventory, s.changelog), o.items, id, o.supplier, t2)
  {
    var k := OrderIndex(s.orders, id).value;
    var placed := Transition(s, id, Some(StatusPlaced), t1);
    var orders := placed.next.orders;
    assert OrderIndex(orders, id) == Some(k) by {
      assert orders[k].id == id;
      forall j | 0 <= j < k ensures orders[j].id != id {
        assert orders[j] == s.orders[j];
      }
    }
  }
}
