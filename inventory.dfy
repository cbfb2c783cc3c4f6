/** The inventory page (pages/Inventory.tsx): the product form, saving a
    product record, the name search and the low-stock flag. */
module Inventory {
  import opened Types
  import opened Seqs
  import opened Text
  import opened Api

  /** The form state. Both ways of opening the dialog set every field but the
      name of a new product, so only the name can be missing. */
  datatype ProductForm = ProductForm(name: Option<string>, category: ProductCategory, unit: UnitType,
                                     price: real, cost: real, stock: real, minStock: real)

  /** handleOpenModal() for a new product. */
  function NewProductForm(): (f: ProductForm)
    ensures f.name.None? && f.category == Otros && f.unit == Unidad
    ensures f.stock == 0.0 && f.price == 0.0 && f.cost == 0.0 && f.minStock == 5.0
  {
    ProductForm(None, Otros, Unidad, 0.0, 0.0, 0.0, 5.0)
  }

  /** handleOpenModal(product): the form starts as the product. */
  function EditForm(p: Product): ProductForm
  {
    ProductForm(Some(p.name), p.category, p.unit, p.price, p.cost, p.stock, p.minStock)
  }

  /** handleSave's record: nothing without a name; the edited product keeps
      its id, a new one takes the fresh id; every other field, stock
      included, is the form's value. */
  function ProductFromForm(form: ProductForm, editing: Option<Product>, freshId: string): (r: Option<Product>)
    ensures r.None? <==> !Truthy(form.name)
    ensures r.Some? ==> r.value.id == (if editing.Some? then editing.value.id else freshId)
    ensures r.Some? ==>
              && r.value.name == form.name.value && r.value.category == form.category
              && r.value.unit == form.unit && r.value.price == form.price && r.value.cost == form.cost
              && r.value.stock == form.stock && r.value.minStock == form.minStock
  {
    if !Truthy(form.name) then None
    else
      Some(Product(if editing.Some? then editing.value.id else freshId, form.name.value,
                   form.category, form.unit, form.price, form.cost, form.stock, form.minStock))
  }

  /** Opening a named product and saving without changes gives it back. */
  lemma EditRoundTrip(p: Product, freshId: string)
    requires p.name != ""
    ensures ProductFromForm(EditForm(p), Some(p), freshId) == Some(p)
  {
  }

  /** A new product saved from the defaults with only a name filled in. */
  lemma NewProductDefaults(name: string, freshId: string)
    requires name != ""
    ensures ProductFromForm(NewProductForm().(name := Some(name)), None, freshId)
            == Some(Product(freshId, name, Otros, Unidad, 0.0, 0.0, 0.0, 5.0))
  {
  }

  /** handleSave then saveProduct: the stock typed in the form replaces the
      stored stock; it is not added to it. */
  method HandleSave(store: Store, form: ProductForm, editing: Option<Product>, freshId: string)
    returns (saved: Option<Product>)
    modifies store
    ensures saved == ProductFromForm(form, editing, freshId)
    ensures saved.None? ==> store.products == old(store.products)
    ensures saved.Some? ==> store.products == UpsertProduct(old(store.products), saved.value)
                            && FindProduct(store.products, saved.value.id) == saved
                            && saved.value.stock == form.stock
    ensures store.orders == old(store.orders) && store.purchases == old(store.purchases)
    ensures store.customers == old(store.customers)
  {
    saved := ProductFromForm(form, editing, freshId);
    if saved.Some? {
      store.SaveProduct(saved.value);
      SaveProductFound(old(store.products), saved.value);
    }
  }

  /** handleDelete: nothing happens unless the user confirms; otherwise every
      product with the id is removed and no other record changes. */
  method HandleDelete(store: Store, id: string, confirmed: bool)
    modifies store
    ensures !confirmed ==> store.products == old(store.products)
    ensures confirmed ==> store.products == RemoveProduct(old(store.products), id)
                          && FindProduct(store.products, id).None?
    ensures store.orders == old(store.orders) && store.purchases == old(store.purchases)
    ensures store.customers == old(store.customers)
  {
    if confirmed {
      store.DeleteProduct(id);
      DeleteProductEffect(old(store.products), id);
    }
  }

  function NameMatches(term: string): Product -> bool
  {
    (p: Product) => Contains(ToLower(p.name), ToLower(term))
  }

  /** filteredProducts. */
  function FilterProducts(ps: seq<Product>, term: string): seq<Product>
  {
    Filter(ps, NameMatches(term))
  }

  /** The search lists, in order, exactly the products whose lower-cased name
      contains the lower-cased term; the empty term lists them all. */
  lemma FilterProductsContents(ps: seq<Product>, term: string)
    ensures forall p :: p in FilterProducts(ps, term) <==> p in ps && Contains(ToLower(p.name), ToLower(term))
    ensures IsSubseq(FilterProducts(ps, term), ps)
    ensures forall p :: multiset(FilterProducts(ps, term))[p] ==
              if Contains(ToLower(p.name), ToLower(term)) then multiset(ps)[p] else 0
    ensures term == "" ==> FilterProducts(ps, term) == ps
  {
    FilterIsSubseq(ps, NameMatches(term));
    FilterCount(ps, NameMatches(term));
    if term == "" {
      forall p: Product
        ensures NameMatches(term)(p)
      {
        ContainsEmpty(ToLower(p.name));
      }
      FilterAll(ps, NameMatches(term));
    }
  }

  /** The red stock figure: at or below the minimum. */
  predicate IsLowStock(p: Product)
  {
    p.stock <= p.minStock
  }
}
