/** `sorted(all_results, key=lambda x: x['price'])` (main.py:107-108): a stable
    sort by ascending price, written as an insertion sort. Prices are `real`, so
    they are totally ordered. */
module Ranking {
  import opened Records

  /** Prices never decrease along `s`. */
  predicate Sorted(s: seq<AnnotatedResult>) {
    forall i, j :: 0 <= i < j < |s| ==> s[i].price <= s[j].price
  }

  /** The elements of `s` whose price is `p`, in their order in `s`. A sort is
      stable exactly when it leaves every such sub-sequence unchanged. */
  function WithPrice(s: seq<AnnotatedResult>, p: real): (r: seq<AnnotatedResult>)
    ensures |r| <= |s|
    ensures forall k :: 0 <= k < |r| ==> r[k] in s && r[k].price == p
  {
    if s == [] then []
    else (if s[0].price == p then [s[0]] else []) + WithPrice(s[1..], p)
  }

  /** Places `x` in front of the first element whose price is not below its own,
      so `x` goes before every element of `s` it ties with. */
  function Insert(x: AnnotatedResult, s: seq<AnnotatedResult>): (r: seq<AnnotatedResult>)
    requires Sorted(s)
    ensures Sorted(r)
    ensures multiset(r) == multiset(s) + multiset{x}
    ensures |r| == |s| + 1
    ensures r[0] == x || (s != [] && r[0] == s[0])
  {
    if s == [] || x.price <= s[0].price then
      SortedCons(x, s);
      [x] + s
    else
      var rest := Insert(x, s[1..]);
      assert s == [s[0]] + s[1..];
      SortedCons(s[0], rest);
      [s[0]] + rest
  }

  /** A sorted sequence stays sorted when an element no dearer than its head is
      put in front. */
  lemma SortedCons(y: AnnotatedResult, t: seq<AnnotatedResult>)
    requires Sorted(t)
    requires t == [] || y.price <= t[0].price
    ensures Sorted([y] + t)
  {
    forall i, j | 0 <= i < j < |[y] + t|
      ensures ([y] + t)[i].price <= ([y] + t)[j].price
    {
      if i == 0 {
        assert ([y] + t)[j] == t[j - 1];
      } else {
        assert ([y] + t)[i] == t[i - 1];
        assert ([y] + t)[j] == t[j - 1];
      }
    }
  }

  /** The results ordered by ascending price, a permutation of the input that
      keeps, for every price, the input order of the results carrying it. */
  function Rank(s: seq<AnnotatedResult>): (r: seq<AnnotatedResult>)
    ensures Sorted(r)
    ensures multiset(r) == multiset(s)
    ensures |r| == |s|
    ensures forall p :: WithPrice(r, p) == WithPrice(s, p)
  {
    if s == [] then []
    else
      assert s == [s[0]] + s[1..];
      var rest := Rank(s[1..]);
      forall p
        ensures WithPrice(Insert(s[0], rest), p) == WithPrice(s, p)
      {
        InsertWithPrice(s[0], rest, p);
      }
      Insert(s[0], rest)
  }

  /** Inserting `x` puts it in front of the elements it ties with. */
  lemma {:induction false} InsertWithPrice(x: AnnotatedResult, s: seq<AnnotatedResult>, p: real)
    requires Sorted(s)
    ensures WithPrice(Insert(x, s), p) == (if x.price == p then [x] else []) + WithPrice(s, p)
    decreases |s|
  {
    var hx := if x.price == p then [x] else [];
    if s == [] || x.price <= s[0].price {
      assert Insert(x, s) == [x] + s;
      assert ([x] + s)[0] == x;
      assert ([x] + s)[1..] == s;
    } else {
      var rest := Insert(x, s[1..]);
      var h0 := if s[0].price == p then [s[0]] else [];
      assert Insert(x, s) == [s[0]] + rest;
      assert ([s[0]] + rest)[1..] == rest;
      assert WithPrice(Insert(x, s), p) == h0 + WithPrice(rest, p);
      InsertWithPrice(x, s[1..], p);
      assert WithPrice(rest, p) == hx + WithPrice(s[1..], p);
      assert WithPrice(s, p) == h0 + WithPrice(s[1..], p);
      var w := WithPrice(s[1..], p);
      if h0 == [] {
        assert h0 + (hx + w) == hx + w;
        assert h0 + w == w;
      } else {
        assert hx == [];
        assert hx + w == w;
        assert hx + (h0 + w) == h0 + w;
      }
    }
  }

  /** An element with price `p` shows up among the elements with price `p`. */
  lemma {:induction false} InWithPrice(s: seq<AnnotatedResult>, x: AnnotatedResult)
    requires x in s
    ensures x in WithPrice(s, x.price)
    decreases |s|
  {
    if s[0] != x {
      InWithPrice(s[1..], x);
    }
  }

  /** A sorted sequence is fixed by its per-price sub-sequences: two sorted
      sequences that agree on every one of them are equal. */
  lemma {:induction false} SortedStableUnique(a: seq<AnnotatedResult>, b: seq<AnnotatedResult>)
    requires Sorted(a) && Sorted(b)
    requires forall p :: WithPrice(a, p) == WithPrice(b, p)
    ensures a == b
    decreases |a|
  {
    if a == [] || b == [] {
      if a != [] {
        InWithPrice(a, a[0]);
      } else if b != [] {
        InWithPrice(b, b[0]);
      }
    } else {
      InWithPrice(a, a[0]);
      InWithPrice(b, b[0]);
      assert a[0].price == b[0].price by {
        assert b[0] in WithPrice(a, b[0].price);
        assert a[0] in WithPrice(b, a[0].price);
      }
      var q := a[0].price;
      assert WithPrice(a, q)[0] == a[0];
      assert WithPrice(b, q)[0] == b[0];
      assert a[0] == b[0];
      forall p
        ensures WithPrice(a[1..], p) == WithPrice(b[1..], p)
      {
        var head := if q == p then [a[0]] else [];
        assert WithPrice(a, p) == head + WithPrice(a[1..], p);
        assert WithPrice(b, p) == head + WithPrice(b[1..], p);
        assert (head + WithPrice(a[1..], p))[|head|..] == WithPrice(a[1..], p);
        assert (head + WithPrice(b[1..], p))[|head|..] == WithPrice(b[1..], p);
      }
      SortedStableUnique(a[1..], b[1..]);
      assert a == [a[0]] + a[1..];
      assert b == [b[0]] + b[1..];
    }
  }

  /** `Rank` is the stable sort: any sorted arrangement of `s` that keeps the
      order among equal prices is `Rank(s)`. */
  lemma RankIsTheStableSort(s: seq<AnnotatedResult>, t: seq<AnnotatedResult>)
    requires Sorted(t)
    requires forall p :: WithPrice(t, p) == WithPrice(s, p)
    ensures t == Rank(s)
  {
    SortedStableUnique(t, Rank(s));
  }
}
