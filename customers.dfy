/** The customers page (pages/Customers.tsx): the customer form, saving a
    customer record with defaults, and the search. */
module Customers {
  import opened Types
  import opened Seqs
  import opened Text
  import opened Api

  /** The form state: any field may be missing. */
  datatype CustomerForm = CustomerForm(name: Option<string>, phone: Option<string>, address: Option<string>,
                                       notes: Option<string>, isFrequent: Option<bool>,
                                       totalPurchases: Option<real>)

  /** handleOpenModal() for a new customer. */
  function NewCustomerForm(): (f: CustomerForm)
    ensures f.name.None? && f.phone.None? && f.address.None? && f.notes.None?
    ensures f.isFrequent == Some(false) && f.totalPurchases == Some(0.0)
  {
    CustomerForm(None, None, None, None, Some(false), Some(0.0))
  }

  /** handleOpenModal(customer): the form starts as the customer. */
  function EditForm(c: Customer): CustomerForm
  {
    CustomerForm(Some(c.name), Some(c.phone), Some(c.address), c.notes, Some(c.isFrequent), Some(c.totalPurchases))
  }

  /** `x || false`. */
  function OrFalse(b: Option<bool>): bool
  {
    b.Some? && b.value
  }

  /** `x || 0`. */
  function OrZero(x: Option<real>): real
  {
    if x.Some? then x.value else 0.0
  }

  /** handleSave's record: nothing without a name; the edited customer keeps
      its id, a new one takes the fresh id; missing text becomes '', a
      missing flag false and a missing total 0. */
  function CustomerFromForm(form: CustomerForm, editing: Option<Customer>, freshId: string): (r: Option<Customer>)
    ensures r.None? <==> !Truthy(form.name)
    ensures r.Some? ==> r.value.id == (if editing.Some? then editing.value.id else freshId)
    ensures r.Some? ==> r.value.name == form.name.value
    ensures r.Some? ==> r.value.phone == (if form.phone.Some? then form.phone.value else "")
    ensures r.Some? ==> r.value.address == (if form.address.Some? then form.address.value else "")
    ensures r.Some? ==> r.value.notes == Some(if form.notes.Some? then form.notes.value else "")
    ensures r.Some? ==> (r.value.isFrequent <==> form.isFrequent == Some(true))
    ensures r.Some? ==> r.value.totalPurchases == (if form.totalPurchases.Some? then form.totalPurchases.value else 0.0)
  {
    if !Truthy(form.name) then None
    else
      Some(Customer(if editing.Some? then editing.value.id else freshId, form.name.value,
                    OrEmpty(form.phone), OrEmpty(form.address), Some(OrEmpty(form.notes)),
                    OrFalse(form.isFrequent), OrZero(form.totalPurchases)))
  }

  /** Opening a named customer and saving without changes gives it back,
      except that missing notes are stored as ''. */
  lemma EditRoundTrip(c: Customer, freshId: string)
    requires c.name != ""
    ensures CustomerFromForm(EditForm(c), Some(c), freshId) == Some(c.(notes := Some(OrEmpty(c.notes))))
    ensures c.notes.Some? ==> CustomerFromForm(EditForm(c), Some(c), freshId) == Some(c)
  {
  }

  /** A new customer saved with only a name filled in. */
  lemma NewCustomerDefaults(name: string, freshId: string)
    requires name != ""
    ensures CustomerFromForm(NewCustomerForm().(name := Some(name)), None, freshId)
            == Some(Customer(freshId, name, "", "", Some(""), false, 0.0))
  {
  }

  /** handleSave then saveCustomer. */
  method HandleSave(store: Store, form: CustomerForm, editing: Option<Customer>, freshId: string)
    returns (saved: Option<Customer>)
    modifies store
    ensures saved == CustomerFromForm(form, editing, freshId)
    ensures saved.None? ==> store.customers == old(store.customers)
    ensures saved.Some? ==> store.customers == UpsertCustomer(old(store.customers), saved.value)
    ensures store.products == old(store.products) && store.orders == old(store.orders)
    ensures store.purchases == old(store.purchases)
  {
    saved := CustomerFromForm(form, editing, freshId);
    if saved.Some? {
      store.SaveCustomer(saved.value);
    }
  }

  /** The name is compared lower-cased, the phone as typed. */
  predicate CustomerMatches(c: Customer, term: string)
  {
    Contains(ToLower(c.name), ToLower(term)) || Contains(c.phone, term)
  }

  function CustomerMatchesBy(term: string): Customer -> bool
  {
    (c: Customer) => CustomerMatches(c, term)
  }

  /** filteredCustomers. */
  function FilterCustomers(cs: seq<Customer>, term: string): seq<Customer>
  {
    Filter(cs, CustomerMatchesBy(term))
  }

  /** The search lists, in order, exactly the customers whose lower-cased
      name contains the lower-cased term or whose phone contains the term
      as typed; the empty term lists them all. */
  lemma FilterCustomersContents(cs: seq<Customer>, term: string)
    ensures forall c :: c in FilterCustomers(cs, term) <==>
              c in cs && (Contains(ToLower(c.name), ToLower(term)) || Contains(c.phone, term))
    ensures IsSubseq(FilterCustomers(cs, term), cs)
    ensures forall c :: multiset(FilterCustomers(cs, term))[c] ==
              if Contains(ToLower(c.name), ToLower(term)) || Contains(c.phone, term) then multiset(cs)[c] else 0
    ensures term == "" ==> FilterCustomers(cs, term) == cs
  {
    FilterIsSubseq(cs, CustomerMatchesBy(term));
    FilterCount(cs, CustomerMatchesBy(term));
    if term == "" {
      forall c: Customer
        ensures CustomerMatchesBy(term)(c)
      {
        ContainsEmpty(c.phone);
      }
      FilterAll(cs, CustomerMatchesBy(term));
    }
  }
}
