/** The purchases page (pages/Purchases.tsx): choosing the product, building
    and registering a purchase, the newest-first list and its search. */
module Purchases {
  import opened Types
  import opened Seqs
  import opened Text
  import opened Api
  import opened Sorting

  const DefaultSupplier: string := "Proveedor General"

  /** The form state, with quantity and unit cost already read as numbers. */
  datatype PurchaseForm = PurchaseForm(productId: string, quantity: real, unitCost: real, supplier: string)

  /** handleProductSelect: the id is selected, and a known product's current
      cost pre-fills the unit cost; otherwise the unit cost is left alone. */
  function SelectProduct(form: PurchaseForm, ps: seq<Product>, id: string): (r: PurchaseForm)
    ensures r.productId == id && r.quantity == form.quantity && r.supplier == form.supplier
    ensures r.unitCost == match FindProduct(ps, id)
                          case Some(p) => p.cost
                          case None => form.unitCost
  {
    var prod := FindProduct(ps, id);
    form.(productId := id, unitCost := if prod.Some? then prod.value.cost else form.unitCost)
  }

  /** handleSave's record: nothing when the selected id names no product;
      otherwise a fresh record dated now with the product's id and name, the
      quantity and unit cost entered, the total as their product, and the
      default supplier for an empty one. */
  function PurchaseFromForm(form: PurchaseForm, ps: seq<Product>, freshId: string, now: int): (r: Option<Purchase>)
    ensures r.None? <==> FindProduct(ps, form.productId).None?
    ensures r.Some? ==>
              && r.value.productId == form.productId
              && r.value.id == freshId && r.value.date == now
              && r.value.productName == FindProduct(ps, form.productId).value.name
              && r.value.quantity == form.quantity && r.value.unitCost == form.unitCost
              && r.value.totalCost == form.quantity * form.unitCost
              && r.value.supplier == Some(if form.supplier != "" then form.supplier else DefaultSupplier)
  {
    match FindProduct(ps, form.productId)
    case None => None
    case Some(prod) =>
      Some(Purchase(freshId, now, prod.id, prod.name, form.quantity, form.unitCost,
                    form.quantity * form.unitCost,
                    Some(if form.supplier != "" then form.supplier else DefaultSupplier), None))
  }

  /** Selecting a product and saving at the pre-filled cost restocks that
      product by the quantity and leaves its cost as it was (the pre-filled
      cost is its own, or it was not positive). */
  lemma SelectThenSaveRestocks(form: PurchaseForm, ps: seq<Product>, id: string, freshId: string, now: int)
    requires FindProduct(ps, id).Some?
    ensures var pu := PurchaseFromForm(SelectProduct(form, ps, id), ps, freshId, now);
            var k := ProductIndex(ps, id);
            && pu.Some?
            && ApplyPurchase(ps, pu.value)[k] == ps[k].(stock := ps[k].stock + form.quantity)
            && pu.value.totalCost == form.quantity * ps[k].cost
  {
    var pu := PurchaseFromForm(SelectProduct(form, ps, id), ps, freshId, now);
    PurchaseEffect(ps, pu.value);
  }

  /** handleSave, then the reload: the purchase is registered (stock and cost
      updated) and the list comes back newest first. With no product found
      it returns before the reload, so the list on screen stays as it is. */
  method HandleSave(store: Store, form: PurchaseForm, freshId: string, now: int, shown: seq<Purchase>)
    returns (saved: Option<Purchase>, view: seq<Purchase>)
    modifies store
    ensures saved == PurchaseFromForm(form, old(store.products), freshId, now)
    ensures saved.None? ==>
              store.purchases == old(store.purchases) && store.products == old(store.products) && view == shown
    ensures saved.Some? ==> store.purchases == [saved.value] + old(store.purchases)
                            && store.products == ApplyPurchase(old(store.products), saved.value)
    ensures saved.Some? ==> NewestFirst(view, PurchaseDate) && multiset(view) == multiset(store.purchases)
    ensures store.orders == old(store.orders) && store.customers == old(store.customers)
  {
    saved := PurchaseFromForm(form, store.products, freshId, now);
    view := shown;
    if saved.Some? {
      store.RegisterPurchase(saved.value);
      view := LoadPurchases(store);
    }
  }

  /** loadData: the fetched purchases sorted in place, newest first. */
  method LoadPurchases(store: Store) returns (view: seq<Purchase>)
    ensures NewestFirst(view, PurchaseDate)
    ensures multiset(view) == multiset(store.purchases)
  {
    var data := store.purchases;
    var a := new Purchase[|data|](i requires 0 <= i < |data| => data[i]);
    assert a[..] == data;
    SortNewestFirst(a, PurchaseDate);
    view := a[..];
  }

  /** The product name, or a non-empty supplier, contains the term, both
      compared lower-cased. */
  predicate PurchaseMatches(p: Purchase, term: string)
  {
    Contains(ToLower(p.productName), ToLower(term))
    || (Truthy(p.supplier) && Contains(ToLower(p.supplier.value), ToLower(term)))
  }

  function PurchaseMatchesBy(term: string): Purchase -> bool
  {
    (p: Purchase) => PurchaseMatches(p, term)
  }

  /** filteredPurchases. */
  function FilterPurchases(ps: seq<Purchase>, term: string): seq<Purchase>
  {
    Filter(ps, PurchaseMatchesBy(term))
  }

  /** The search keeps exactly the matching purchases, in their listed
      (newest first) order; the empty term keeps them all. */
  lemma FilterPurchasesContents(ps: seq<Purchase>, term: string)
    ensures forall p :: p in FilterPurchases(ps, term) <==> p in ps && PurchaseMatches(p, term)
    ensures IsSubseq(FilterPurchases(ps, term), ps)
    ensures forall p :: multiset(FilterPurchases(ps, term))[p] == if PurchaseMatches(p, term) then multiset(ps)[p] else 0
    ensures NewestFirst(ps, PurchaseDate) ==> NewestFirst(FilterPurchases(ps, term), PurchaseDate)
    ensures term == "" ==> FilterPurchases(ps, term) == ps
  {
    FilterIsSubseq(ps, PurchaseMatchesBy(term));
    FilterCount(ps, PurchaseMatchesBy(term));
    if NewestFirst(ps, PurchaseDate) {
      FilterKeepsNewestFirst(ps, PurchaseMatchesBy(term));
    }
    if term == "" {
      forall p: Purchase
        ensures PurchaseMatchesBy(term)(p)
      {
        ContainsEmpty(ToLower(p.productName));
      }
      FilterAll(ps, PurchaseMatchesBy(term));
    }
  }

  /** Filtering a newest-first list leaves it newest first. */
  lemma {:induction false} FilterKeepsNewestFirst(s: seq<Purchase>, keep: Purchase -> bool)
    requires NewestFirst(s, PurchaseDate)
    ensures NewestFirst(Filter(s, keep), PurchaseDate)
    decreases |s|
  {
    if |s| > 0 {
      var init := s[..|s| - 1];
      var x := s[|s| - 1];
      FilterKeepsNewestFirst(init, keep);
      var r := Filter(init, keep);
      if keep(x) {
        forall i | 0 <= i < |r|
          ensures r[i].date >= x.date
        {
          assert r[i] in init;
          var j :| 0 <= j < |init| && init[j] == r[i];
        }
      }
    }
  }
}
