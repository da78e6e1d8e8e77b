/** The inventory ledger: item lookup by id and by name, the low-stock query, and the
    two update handlers (PUT /inventory/:id and PUT /inventory/name/:name), which merge
    the body into the item and log an `inventory-count` entry when the quantity changes. */
module Inventory {
  import opened Records
  import opened Text

  /** `s.findIndex(p)`: the first position whose element satisfies `p`, if any. */
  function FirstIndex<T>(s: seq<T>, p: T -> bool): (r: Option<nat>)
    ensures r.Some? ==> r.value < |s| && p(s[r.value])
    ensures r.Some? ==> forall j :: 0 <= j < r.value ==> !p(s[j])
    ensures r.None? ==> forall j :: 0 <= j < |s| ==> !p(s[j])
  {
    if s == [] then None
    else if p(s[0]) then Some(0)
    else match FirstIndex(s[1..], p)
      case None => None
      case Some(k) => Some(k + 1)
  }

  /** Two searches that agree on every position find the same first position. */
  lemma FirstIndexAgree<T, U>(s: seq<T>, p: T -> bool, t: seq<U>, q: U -> bool)
    requires |s| == |t|
    requires forall j :: 0 <= j < |s| ==> p(s[j]) == q(t[j])
    ensures FirstIndex(s, p) == FirstIndex(t, q)
  {
    var a, b := FirstIndex(s, p), FirstIndex(t, q);
    if a.Some? && b.Some? {
      assert !(a.value < b.value) by { assert p(s[a.value]); }
      assert !(b.value < a.value) by { assert q(t[b.value]); }
    }
  }

  /** `inventory.findIndex(item => item.id === id)`. */
  function IndexById(inv: seq<Item>, id: string): Option<nat> {
    FirstIndex(inv, (it: Item) => it.id == id)
  }

  /** `inventory.findIndex(item => item.name.toLowerCase() === name.trim().toLowerCase())`:
      the item's own name is lower-cased but not trimmed. */
  function IndexByName(inv: seq<Item>, name: string): Option<nat> {
    var key := LowerCase(Trim(name));
    FirstIndex(inv, (it: Item) => LowerCase(it.name) == key)
  }

  const DefaultReorderLevel: int := 10

  /** `item.reorderLevel || 10`: the item's own level when it is set and not 0, else 10. */
  function Threshold(item: Item): (r: int)
    ensures r != 0
    ensures item.reorderLevel.Some? && item.reorderLevel.value != 0 ==> r == item.reorderLevel.value
    ensures item.reorderLevel.None? || item.reorderLevel.value == 0 ==> r == DefaultReorderLevel
  {
    if item.reorderLevel.Some? && item.reorderLevel.value != 0 then item.reorderLevel.value
    else DefaultReorderLevel
  }

  predicate IsLow(item: Item) {
    item.quantity < Threshold(item)
  }

  /** GET /inventory/low-stock: the items below their threshold, in inventory order. */
  function LowStock(inv: seq<Item>): (r: seq<Item>)
    ensures |r| <= |inv|
    ensures forall x :: x in r ==> x in inv && IsLow(x)
    ensures forall j :: 0 <= j < |inv| && IsLow(inv[j]) ==> inv[j] in r
  {
    if inv == [] then []
    else (if IsLow(inv[0]) then [inv[0]] else []) + LowStock(inv[1..])
  }

  /** The query distributes over concatenation; with the one-item case
      (`[x]` when `x` is low, `[]` otherwise) this pins it down as the order-keeping filter. */
  lemma {:induction false} LowStockAppend(a: seq<Item>, b: seq<Item>)
    ensures LowStock(a + b) == LowStock(a) + LowStock(b)
  {
    if a == [] {
      assert a + b == b;
    } else {
      assert (a + b)[1..] == a[1..] + b;
      LowStockAppend(a[1..], b);
    }
  }

  /** `{ ...item, ...updates, lastUpdated: today }`. */
  function Merge(item: Item, patch: Patch, today: Day): Item {
    Item(
      patch.id.GetOr(item.id),
      patch.name.GetOr(item.name),
      patch.quantity.GetOr(item.quantity),
      Overlay(item.reorderLevel, patch.reorderLevel),
      Overlay(item.price, patch.price),
      Some(today),
      item.extra + patch.extra)
  }

  /** `updates.quantity !== undefined && updates.quantity !== item.quantity`. */
  predicate QuantityChanges(item: Item, patch: Patch) {
    patch.quantity.Some? && patch.quantity.value != item.quantity
  }

  const UserById := "System/User"
  const UserByName := "System/Agent"

  function CountEntry(item: Item, newQuantity: int, user: string, now: Instant): LogEntry {
    LogEntry(LogId(now, None), item.id, now, user, InventoryCount, item.quantity, newQuantity, None, None)
  }

  /** The common body of both update handlers, once the item is found at `i`. */
  function UpdateAt(s: State, i: nat, patch: Patch, user: string, now: Instant): (r: State)
    requires i < |s.inventory|
    ensures |r.inventory| == |s.inventory|
    ensures r.inventory[i] == Merge(s.inventory[i], patch, DayOf(now))
    ensures forall j :: 0 <= j < |s.inventory| && j != i ==> r.inventory[j] == s.inventory[j]
    ensures r.orders == s.orders && r.suppliers == s.suppliers
    ensures |r.changelog| == |s.changelog| + (if QuantityChanges(s.inventory[i], patch) then 1 else 0)
    ensures r.changelog[..|s.changelog|] == s.changelog
    ensures QuantityChanges(s.inventory[i], patch) ==>
      var e := r.changelog[|s.changelog|];
      && e.id == LogId(now, None) && e.kind == InventoryCount && e.user == user && e.timestamp == now
      && e.orderId.None? && e.supplier.None?
      && e.itemId == s.inventory[i].id
      && e.previousQuantity == s.inventory[i].quantity
      && e.newQuantity == patch.quantity.value
  {
    var item := s.inventory[i];
    var log := if QuantityChanges(item, patch)
               then s.changelog + [CountEntry(item, patch.quantity.value, user, now)]
               else s.changelog;
    s.(inventory := s.inventory[i := Merge(item, patch, DayOf(now))], changelog := log)
  }

  /** PUT /inventory/:id. */
  function UpdateById(s: State, id: string, patch: Patch, now: Instant): (r: Reply<Item>)
    ensures r.result.Err? <==> forall j :: 0 <= j < |s.inventory| ==> s.inventory[j].id != id
    ensures r.result.Err? ==> r.result.error == NotFound && r.next == s
    ensures r.result.Ok? ==>
      && IndexById(s.inventory, id).Some?
      && r.next == UpdateAt(s, IndexById(s.inventory, id).value, patch, UserById, now)
      && r.result.value == r.next.inventory[IndexById(s.inventory, id).value]
  {
    match IndexById(s.inventory, id)
    case None => Reply(Err(NotFound), s)
    case Some(i) =>
      var next := UpdateAt(s, i, patch, UserById, now);
      Reply(Ok(next.inventory[i]), next)
  }

  /** PUT /inventory/name/:name. */
  function UpdateByName(s: State, name: string, patch: Patch, now: Instant): (r: Reply<Item>)
    ensures r.result.Err? <==>
      forall j :: 0 <= j < |s.inventory| ==> LowerCase(s.inventory[j].name) != LowerCase(Trim(name))
    ensures r.result.Err? ==> r.result.error == NotFound && r.next == s
    ensures r.result.Ok? ==>
      && IndexByName(s.inventory, name).Some?
      && r.next == UpdateAt(s, IndexByName(s.inventory, name).value, patch, UserByName, now)
      && r.result.value == r.next.inventory[IndexByName(s.inventory, name).value]
  {
    match IndexByName(s.inventory, name)
    case None => Reply(Err(NotFound), s)
    case Some(i) =>
      var next := UpdateAt(s, i, patch, UserByName, now);
      Reply(Ok(next.inventory[i]), next)
  }

  /** Repeating the same PUT /inventory/:id finds the same item, leaves it as the first
      call did (up to `lastUpdated`) and writes no second log entry. */
  lemma RepeatedUpdateById(s: State, id: string, patch: Patch, now: Instant, later: Instant)
    requires patch.id.None? || patch.id == Some(id)
    requires UpdateById(s, id, patch, now).result.Ok?
    ensures var first := UpdateById(s, id, patch, now);
            var second := UpdateById(first.next, id, patch, later);
            && second.result.Ok?
            && second.result.value == first.result.value.(lastUpdated := Some(DayOf(later)))
            && second.next.changelog == first.next.changelog
            && second.next.inventory == first.next.inventory[IndexById(s.inventory, id).value := second.result.value]
  {
    var first := UpdateById(s, id, patch, now);
    var i := IndexById(s.inventory, id).value;
    var inv := first.next.inventory;
    assert IndexById(inv, id) == Some(i) by {
      assert inv[i].id == id;
      forall j | 0 <= j < i ensures inv[j].id != id {
        assert inv[j] == s.inventory[j];
      }
    }
    var item := inv[i];
    assert !QuantityChanges(item, patch);
    assert (item.extra + patch.extra) == item.extra;
  }
}
