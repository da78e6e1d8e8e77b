/** The supplier directory: POST /suppliers (append with a sequence-derived id) and
    PUT /suppliers/:id (find and merge). */
module Suppliers {
  import opened Records
  import opened Text
  import opened Inventory

  /** `SUP-` + `String(n).padStart(3, '0')`. */
  function SupplierId(n: nat): string {
    SequenceId("SUP-", n)
  }

  /** POST /suppliers: `{ id: SUP-…, ...body }`, so an `id` in the body replaces the
      generated one. */
  function CreateSupplier(s: State, body: SupplierFields): (r: Reply<Supplier>)
    ensures r.result.Ok?
    ensures r.next == s.(suppliers := s.suppliers + [r.result.value])
    ensures body.id.None? ==> r.result.value.id == SupplierId(|s.suppliers| + 1)
    ensures body.id.Some? ==> r.result.value.id == body.id.value
    ensures r.result.value.attrs == body.attrs
  {
    var created := Supplier(body.id.GetOr(SupplierId(|s.suppliers| + 1)), body.attrs);
    Reply(Ok(created), s.(suppliers := s.suppliers + [created]))
  }

  /** `suppliers.findIndex(s => s.id === id)`. */
  function SupplierIndex(suppliers: seq<Supplier>, id: string): Option<nat> {
    FirstIndex(suppliers, (x: Supplier) => x.id == id)
  }

  /** PUT /suppliers/:id: `{ ...supplier, ...body }`. */
  function UpdateSupplier(s: State, id: string, body: SupplierFields): (r: Reply<Supplier>)
    ensures r.result.Err? <==> forall k :: 0 <= k < |s.suppliers| ==> s.suppliers[k].id != id
    ensures r.result.Err? ==> r.result.error == NotFound && r.next == s
    ensures r.result.Ok? ==>
      && SupplierIndex(s.suppliers, id).Some?
      && var k := SupplierIndex(s.suppliers, id).value;
         && r.next == s.(suppliers := s.suppliers[k := r.result.value])
         && r.result.value.id == body.id.GetOr(id)
         && r.result.value.attrs.Keys == s.suppliers[k].attrs.Keys + body.attrs.Keys
         && (forall a :: a in body.attrs ==> r.result.value.attrs[a] == body.attrs[a])
         && (forall a :: a in s.suppliers[k].attrs && a !in body.attrs ==>
               r.result.value.attrs[a] == s.suppliers[k].attrs[a])
  {
    match SupplierIndex(s.suppliers, id)
    case None => Reply(Err(NotFound), s)
    case Some(k) =>
      var current := s.suppliers[k];
      var updated := Supplier(body.id.GetOr(current.id), current.attrs + body.attrs);
      Reply(Ok(updated), s.(suppliers := s.suppliers[k := updated]))
  }

  /** Every supplier carries the id its position would give it. */
  predicate Numbered(suppliers: seq<Supplier>) {
    forall k :: 0 <= k < |suppliers| ==> suppliers[k].id == SupplierId(k + 1)
  }

  /** On a numbered directory, creating a supplier whose body has no `id` keeps it
      numbered and gives an id no earlier supplier has. */
  lemma CreateSupplierKeepsNumbering(s: State, body: SupplierFields)
    requires Numbered(s.suppliers)
    requires body.id.None?
    ensures var r := CreateSupplier(s, body);
            && Numbered(r.next.suppliers)
            && forall k :: 0 <= k < |s.suppliers| ==> s.suppliers[k].id != r.result.value.id
  {
    forall k | 0 <= k < |s.suppliers|
      ensures s.suppliers[k].id != SupplierId(|s.suppliers| + 1)
    {
      SequenceIdInjective("SUP-", k + 1, |s.suppliers| + 1);
    }
  }
}
