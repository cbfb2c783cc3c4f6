/** Generic operations on sequences that the pages and the store share:
    `reduce` sums, order-preserving `filter`, `findIndex` by key, upsert by
    key and removal by key. */
module Seqs {

  /** `s.reduce((acc, x) => acc + f(x), 0)`: a left fold. */
  function Sum<T>(s: seq<T>, f: T -> real): real
  {
    if |s| == 0 then 0.0 else Sum(s[..|s| - 1], f) + f(s[|s| - 1])
  }

  lemma SumSnoc<T>(s: seq<T>, x: T, f: T -> real)
    ensures Sum(s + [x], f) == Sum(s, f) + f(x)
  {
    assert (s + [x])[..|s|] == s;
  }

  lemma {:induction false} SumAppend<T>(a: seq<T>, b: seq<T>, f: T -> real)
    ensures Sum(a + b, f) == Sum(a, f) + Sum(b, f)
    decreases |b|
  {
    if |b| == 0 {
      assert a + b == a;
    } else {
      var b' := b[..|b| - 1];
      assert a + b == (a + b') + [b[|b| - 1]];
      SumSnoc(a + b', b[|b| - 1], f);
      SumAppend(a, b', f);
    }
  }

  /** Replacing one element changes the sum by exactly the difference. */
  lemma SumUpdate<T>(s: seq<T>, k: int, x: T, f: T -> real)
    requires 0 <= k < |s|
    ensures Sum(s[k := x], f) == Sum(s, f) - f(s[k]) + f(x)
  {
    assert s == s[..k] + [s[k]] + s[k + 1..];
    assert s[k := x] == s[..k] + [x] + s[k + 1..];
    SumAppend(s[..k] + [s[k]], s[k + 1..], f);
    SumAppend(s[..k] + [x], s[k + 1..], f);
    SumSnoc(s[..k], s[k], f);
    SumSnoc(s[..k], x, f);
  }

  /** Summing a pointwise difference is the difference of the sums. */
  lemma {:induction false} SumDifference<T>(s: seq<T>, f: T -> real, g: T -> real, h: T -> real)
    requires forall x :: h(x) == f(x) - g(x)
    ensures Sum(s, h) == Sum(s, f) - Sum(s, g)
    decreases |s|
  {
    if |s| > 0 {
      SumDifference(s[..|s| - 1], f, g, h);
    }
  }

  lemma SplitAt<T>(s: seq<T>, k: int)
    requires 0 <= k < |s|
    ensures s == (s[..k] + [s[k]]) + s[k + 1..]
  {
    assert s[..k] + [s[k]] == s[..k + 1];
  }

  /** Dropping one element lowers the sum by exactly its value. */
  lemma SumRemove<T>(s: seq<T>, k: int, f: T -> real)
    requires 0 <= k < |s|
    ensures Sum(s[..k] + s[k + 1..], f) == Sum(s, f) - f(s[k])
  {
    var a, x, b := s[..k], s[k], s[k + 1..];
    SplitAt(s, k);
    SumAppend(a + [x], b, f);
    SumAppend(a, b, f);
    SumSnoc(a, x, f);
  }

  /** `s.filter(p)`: keeps exactly the elements satisfying p, in order. */
  function Filter<T(!new)>(s: seq<T>, p: T -> bool): (r: seq<T>)
    ensures |r| <= |s|
    ensures forall x :: x in r <==> x in s && p(x)
  {
    if |s| == 0 then []
    else
      var init := s[..|s| - 1];
      var last := s[|s| - 1];
      assert s == init + [last];
      if p(last) then Filter(init, p) + [last] else Filter(init, p)
  }

  lemma FilterSnoc<T(!new)>(s: seq<T>, x: T, p: T -> bool)
    ensures Filter(s + [x], p) == if p(x) then Filter(s, p) + [x] else Filter(s, p)
  {
    assert (s + [x])[..|s|] == s;
  }

  lemma {:induction false} FilterAppend<T(!new)>(a: seq<T>, b: seq<T>, p: T -> bool)
    ensures Filter(a + b, p) == Filter(a, p) + Filter(b, p)
    decreases |b|
  {
    if |b| == 0 {
      assert a + b == a;
    } else {
      var b' := b[..|b| - 1];
      var x := b[|b| - 1];
      assert a + b == (a + b') + [x];
      assert b == b' + [x];
      FilterSnoc(a + b', x, p);
      FilterSnoc(b', x, p);
      FilterAppend(a, b', p);
    }
  }

  /** Two chained filters are one filter by the conjunction. */
  lemma {:induction false} FilterFilter<T(!new)>(s: seq<T>, p: T -> bool, q: T -> bool, r: T -> bool)
    requires forall x :: r(x) == (p(x) && q(x))
    ensures Filter(Filter(s, p), q) == Filter(s, r)
    decreases |s|
  {
    if |s| > 0 {
      var init := s[..|s| - 1];
      var x := s[|s| - 1];
      assert s == init + [x];
      FilterFilter(init, p, q, r);
      FilterSnoc(init, x, p);
      FilterSnoc(init, x, r);
      if p(x) {
        FilterSnoc(Filter(init, p), x, q);
      }
    }
  }

  /** Filters by pointwise-equivalent predicates agree. */
  lemma {:induction false} FilterSame<T(!new)>(s: seq<T>, p: T -> bool, q: T -> bool)
    requires forall x :: p(x) == q(x)
    ensures Filter(s, p) == Filter(s, q)
    decreases |s|
  {
    if |s| > 0 {
      FilterSame(s[..|s| - 1], p, q);
    }
  }

  /** A predicate that holds everywhere filters nothing out. */
  lemma {:induction false} FilterAll<T(!new)>(s: seq<T>, p: T -> bool)
    requires forall x :: p(x)
    ensures Filter(s, p) == s
    decreases |s|
  {
    if |s| > 0 {
      FilterAll(s[..|s| - 1], p);
      assert s == s[..|s| - 1] + [s[|s| - 1]];
    }
  }

  /** A sum splits between the elements a predicate keeps and those it drops. */
  lemma {:induction false} SumFilterSplit<T(!new)>(s: seq<T>, p: T -> bool, q: T -> bool, f: T -> real)
    requires forall x :: q(x) == !p(x)
    ensures Sum(s, f) == Sum(Filter(s, p), f) + Sum(Filter(s, q), f)
    decreases |s|
  {
    if |s| > 0 {
      var init := s[..|s| - 1];
      var x := s[|s| - 1];
      SumFilterSplit(init, p, q, f);
      if p(x) {
        SumSnoc(Filter(init, p), x, f);
      } else {
        SumSnoc(Filter(init, q), x, f);
      }
    }
  }

  /** Replacing an element by one the filter drops removes the old element's
      share of the filtered sum. */
  lemma SumFilterUpdateDropped<T(!new)>(s: seq<T>, k: int, x: T, p: T -> bool, g: T -> real)
    requires 0 <= k < |s| && !p(x)
    ensures Sum(Filter(s[k := x], p), g) == Sum(Filter(s, p), g) - (if p(s[k]) then g(s[k]) else 0.0)
  {
    assert s == s[..k] + [s[k]] + s[k + 1..];
    assert s[k := x] == s[..k] + [x] + s[k + 1..];
    FilterAppend(s[..k] + [s[k]], s[k + 1..], p);
    FilterAppend(s[..k] + [x], s[k + 1..], p);
    FilterSnoc(s[..k], s[k], p);
    FilterSnoc(s[..k], x, p);
    SumAppend(Filter(s[..k] + [s[k]], p), Filter(s[k + 1..], p), g);
    SumAppend(Filter(s[..k] + [x], p), Filter(s[k + 1..], p), g);
    if p(s[k]) {
      SumSnoc(Filter(s[..k], p), s[k], g);
    }
  }

  /** `a` occurs in `b` in the same order, possibly with gaps. */
  ghost predicate IsSubseq<T>(a: seq<T>, b: seq<T>)
    decreases |b|
  {
    if |a| == 0 then true
    else if |b| == 0 then false
    else (a[|a| - 1] == b[|b| - 1] && IsSubseq(a[..|a| - 1], b[..|b| - 1]))
         || IsSubseq(a, b[..|b| - 1])
  }

  /** Being a subsequence is transitive. */
  lemma {:induction false} IsSubseqTrans<T>(a: seq<T>, b: seq<T>, s: seq<T>)
    requires IsSubseq(a, b) && IsSubseq(b, s)
    ensures IsSubseq(a, s)
    decreases |s|
  {
    if |a| > 0 {
      assert |b| > 0 && |s| > 0;
      var s' := s[..|s| - 1];
      if b[|b| - 1] == s[|s| - 1] && IsSubseq(b[..|b| - 1], s') {
        if a[|a| - 1] == b[|b| - 1] && IsSubseq(a[..|a| - 1], b[..|b| - 1]) {
          IsSubseqTrans(a[..|a| - 1], b[..|b| - 1], s');
        } else {
          IsSubseqTrans(a, b[..|b| - 1], s');
        }
      } else {
        IsSubseqTrans(a, b, s');
      }
    }
  }

  lemma {:induction false} FilterIsSubseq<T(!new)>(s: seq<T>, p: T -> bool)
    ensures IsSubseq(Filter(s, p), s)
    decreases |s|
  {
    if |s| > 0 {
      var init := s[..|s| - 1];
      FilterIsSubseq(init, p);
      var r := Filter(s, p);
      if p(s[|s| - 1]) {
        assert r[..|r| - 1] == Filter(init, p);
      }
    }
  }

  /** The filter keeps every copy of a kept element and none of a dropped one. */
  lemma {:induction false} FilterCount<T(!new)>(s: seq<T>, p: T -> bool)
    ensures forall y :: multiset(Filter(s, p))[y] == if p(y) then multiset(s)[y] else 0
    decreases |s|
  {
    if |s| > 0 {
      var init := s[..|s| - 1];
      var x := s[|s| - 1];
      assert s == init + [x];
      FilterCount(init, p);
      if p(x) {
        assert Filter(s, p) == Filter(init, p) + [x];
      }
    }
  }

  /** `s.findIndex(x => key(x) === id)`: the first index with that key, or -1. */
  function IndexOf<T>(s: seq<T>, key: T -> string, id: string): (k: int)
    ensures -1 <= k < |s|
    ensures 0 <= k ==> key(s[k]) == id
    ensures forall j :: 0 <= j < |s| && (k < 0 || j < k) ==> key(s[j]) != id
  {
    if |s| == 0 then -1
    else if key(s[0]) == id then 0
    else
      var r := IndexOf(s[1..], key, id);
      assert forall j :: 1 <= j < |s| ==> s[j] == s[1..][j - 1];
      if r < 0 then -1 else r + 1
  }

  /** The first-match index depends only on the keys. */
  lemma {:induction false} IndexOfSameKeys<T>(a: seq<T>, b: seq<T>, key: T -> string, id: string)
    requires |a| == |b|
    requires forall j :: 0 <= j < |a| ==> key(a[j]) == key(b[j])
    ensures IndexOf(a, key, id) == IndexOf(b, key, id)
    decreases |a|
  {
    if |a| > 0 && key(a[0]) != id {
      assert forall j :: 0 <= j < |a| - 1 ==> a[1..][j] == a[j + 1] && b[1..][j] == b[j + 1];
      IndexOfSameKeys(a[1..], b[1..], key, id);
    }
  }

  /** Insert-or-replace by key: overwrite the first element with the same key,
      or append when there is none. */
  function Upsert<T>(s: seq<T>, key: T -> string, x: T): seq<T>
  {
    var k := IndexOf(s, key, key(x));
    if k >= 0 then s[k := x] else s + [x]
  }

  /** What an upsert does: the record is found under its key afterwards, every
      other record stays, and the length grows only when the key was new. */
  lemma UpsertEffect<T>(s: seq<T>, key: T -> string, x: T)
    ensures var r := Upsert(s, key, x);
            var k := IndexOf(s, key, key(x));
            && (k >= 0 ==>
                  |r| == |s| && r[k] == x && forall j :: 0 <= j < |s| && j != k ==> r[j] == s[j])
            && (k < 0 ==> r == s + [x])
            && 0 <= IndexOf(r, key, key(x)) && r[IndexOf(r, key, key(x))] == x
  {
    var r := Upsert(s, key, x);
    var k := IndexOf(s, key, key(x));
    var k' := IndexOf(r, key, key(x));
    if k >= 0 {
      assert key(r[k]) == key(x);
      assert k' == k;
    } else {
      assert key(r[|s|]) == key(x);
      assert k' == |s|;
    }
  }

  /** Saving the same record twice is the same as saving it once. */
  lemma UpsertIdempotent<T>(s: seq<T>, key: T -> string, x: T)
    ensures Upsert(Upsert(s, key, x), key, x) == Upsert(s, key, x)
  {
    var r := Upsert(s, key, x);
    UpsertEffect(s, key, x);
    var k' := IndexOf(r, key, key(x));
    assert r[k' := x] == r;
  }

  /** `s.filter(x => key(x) !== id)`. */
  function RemoveKey<T(!new)>(s: seq<T>, key: T -> string, id: string): (r: seq<T>)
    ensures forall x :: x in r <==> x in s && key(x) != id
  {
    if |s| == 0 then []
    else
      var init := s[..|s| - 1];
      var last := s[|s| - 1];
      assert s == init + [last];
      if key(last) != id then RemoveKey(init, key, id) + [last] else RemoveKey(init, key, id)
  }

  lemma {:induction false} RemoveKeyIsSubseq<T(!new)>(s: seq<T>, key: T -> string, id: string)
    ensures IsSubseq(RemoveKey(s, key, id), s)
    decreases |s|
  {
    if |s| > 0 {
      var init := s[..|s| - 1];
      RemoveKeyIsSubseq(init, key, id);
      var r := RemoveKey(s, key, id);
      if key(s[|s| - 1]) != id {
        assert r[..|r| - 1] == RemoveKey(init, key, id);
      }
    }
  }

  /** Removal by key keeps every copy of a record with another key and none
      with the key. */
  lemma {:induction false} RemoveKeyCount<T(!new)>(s: seq<T>, key: T -> string, id: string)
    ensures forall y :: multiset(RemoveKey(s, key, id))[y] == if key(y) != id then multiset(s)[y] else 0
    decreases |s|
  {
    if |s| > 0 {
      var init := s[..|s| - 1];
      var x := s[|s| - 1];
      assert s == init + [x];
      RemoveKeyCount(init, key, id);
      if key(x) != id {
        assert RemoveKey(s, key, id) == RemoveKey(init, key, id) + [x];
      }
    }
  }
}
