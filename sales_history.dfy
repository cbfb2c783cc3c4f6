/** The sales history page (pages/SalesHistory.tsx): the report's date
    windows without the 'yesterday' tab, a case-insensitive search on
    customer name and order id, the period total and the expanded row. */
module SalesHistory {
  import opened Types
  import opened Seqs
  import opened Text
  import opened Reports

  /** The history page offers every tab but YESTERDAY. */
  type HistoryFilter = f: DateFilter | !f.Yesterday? witness All

  /** The search test: the lower-cased name or id contains the lower-cased term. */
  predicate Matches(o: Order, term: string)
  {
    Contains(ToLower(o.customerName), ToLower(term)) || Contains(ToLower(o.id), ToLower(term))
  }

  function SearchBy(term: string): Order -> bool
  {
    (o: Order) => Matches(o, term)
  }

  function MissedBy(term: string): Order -> bool
  {
    (o: Order) => !Matches(o, term)
  }

  /** applyFilters: drop cancelled orders, apply the window, then search when
      the term is not empty. */
  function ApplyFilters(os: seq<Order>, f: HistoryFilter, c: Clock, term: string): seq<Order>
  {
    var result := Kept(os, f, c);
    if term != "" then Filter(result, SearchBy(term)) else result
  }

  /** The history lists exactly the non-cancelled orders in the window that
      match the search (all of them for an empty term), as a subsequence of
      the loaded orders. */
  lemma ApplyFiltersContents(os: seq<Order>, f: HistoryFilter, c: Clock, term: string)
    ensures forall o :: o in ApplyFilters(os, f, c, term) <==>
              && o in os
              && o.status != Cancelado
              && InWindow(f, c, o.date)
              && (term == "" || Matches(o, term))
    ensures IsSubseq(ApplyFilters(os, f, c, term), os)
    ensures forall o :: multiset(ApplyFilters(os, f, c, term))[o] ==
              if o.status != Cancelado && InWindow(f, c, o.date) && (term == "" || Matches(o, term))
              then multiset(os)[o] else 0
  {
    KeptContents(os, f, c);
    var kept := Kept(os, f, c);
    if term != "" {
      FilterIsSubseq(kept, SearchBy(term));
      FilterCount(kept, SearchBy(term));
      IsSubseqTrans(ApplyFilters(os, f, c, term), kept, os);
    }
  }

  /** The search ignores the case of the term, and the empty term matches
      every order, so skipping the search for it changes nothing. */
  lemma SearchIgnoresCase(o: Order, term: string)
    ensures Matches(o, ToLower(term)) <==> Matches(o, term)
    ensures Matches(o, "")
  {
    ToLowerIdempotent(term);
    ContainsEmpty(ToLower(o.customerName));
  }

  /** `filteredOrders.reduce((acc, o) => acc + o.total, 0)`. */
  function PeriodTotal(view: seq<Order>): real
  {
    Sum(view, OrderTotal)
  }

  /** Without a search the period total is the report's revenue for the same
      window; a search splits that revenue between the matching orders
      shown and the ones hidden. */
  lemma PeriodTotalSplitsRevenue(os: seq<Order>, f: HistoryFilter, c: Clock, term: string)
    ensures term == "" ==> PeriodTotal(ApplyFilters(os, f, c, term)) == Revenue(Kept(os, f, c))
    ensures term != "" ==>
              PeriodTotal(ApplyFilters(os, f, c, term)) + PeriodTotal(Filter(Kept(os, f, c), MissedBy(term)))
              == Revenue(Kept(os, f, c))
  {
    if term != "" {
      SumFilterSplit(Kept(os, f, c), SearchBy(term), MissedBy(term), OrderTotal);
    }
  }

  /** toggleExpand. */
  function ToggleExpand(expanded: Option<string>, id: string): (r: Option<string>)
    ensures r.None? <==> expanded == Some(id)
    ensures r.Some? ==> r.value == id
  {
    if expanded == Some(id) then None else Some(id)
  }

  /** Toggling the same row twice restores a collapsed or self-expanded state;
      toggling a row while another is open leaves only this one open after
      the first click. */
  lemma ToggleTwice(expanded: Option<string>, id: string)
    ensures expanded.None? || expanded == Some(id) ==> ToggleExpand(ToggleExpand(expanded, id), id) == expanded
    ensures expanded.Some? && expanded.value != id ==> ToggleExpand(expanded, id) == Some(id)
  {
  }
}
