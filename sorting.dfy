/** `data.sort((a, b) => date(b) - date(a))`: the in-place sort that the
    order and purchase pages apply to the freshly loaded array. */
module Sorting {

  /** Newest first: dates never increase along the sequence. */
  ghost predicate NewestFirst<T>(s: seq<T>, date: T -> int)
  {
    forall i, j :: 0 <= i < j < |s| ==> date(s[i]) >= date(s[j])
  }

  /** The first n elements of the array are newest first. */
  ghost predicate SortedPrefix<T>(a: array<T>, n: int, date: T -> int)
    reads a
  {
    forall p, q :: 0 <= p < q < n && q < a.Length ==> date(a[p]) >= date(a[q])
  }

  method Swap<T>(a: array<T>, k: int)
    requires 0 < k < a.Length
    modifies a
    ensures a[k - 1] == old(a[k]) && a[k] == old(a[k - 1])
    ensures forall m :: 0 <= m < a.Length && m != k - 1 && m != k ==> a[m] == old(a[m])
    ensures multiset(a[..]) == old(multiset(a[..]))
  {
    a[k - 1], a[k] := a[k], a[k - 1];
  }

  /** Sinks a[i] into the sorted prefix a[..i]. */
  method Insert<T>(a: array<T>, i: int, date: T -> int)
    requires 0 <= i < a.Length
    requires SortedPrefix(a, i, date)
    modifies a
    ensures SortedPrefix(a, i + 1, date)
    ensures multiset(a[..]) == old(multiset(a[..]))
  {
    var j := i;
    while j > 0 && date(a[j - 1]) < date(a[j])
      invariant 0 <= j <= i
      invariant forall p, q :: 0 <= p < q <= i && p != j && q != j ==> date(a[p]) >= date(a[q])
      invariant forall q :: j < q <= i ==> date(a[j]) >= date(a[q])
      invariant multiset(a[..]) == old(multiset(a[..]))
    {
      Swap(a, j);
      j := j - 1;
    }
  }

  /** Insertion sort by descending date; the result is a permutation. */
  method SortNewestFirst<T>(a: array<T>, date: T -> int)
    modifies a
    ensures NewestFirst(a[..], date)
    ensures multiset(a[..]) == old(multiset(a[..]))
  {
    var i := 0;
    while i < a.Length
      invariant 0 <= i <= a.Length
      invariant SortedPrefix(a, i, date)
      invariant multiset(a[..]) == old(multiset(a[..]))
    {
      Insert(a, i, date);
      i := i + 1;
    }
  }
}
