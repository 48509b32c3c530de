/** Sorting by any total order. */
module Sorting {

  ghost predicate TotalOrder<T(!new)>(le: (T, T) -> bool) {
    && (forall a, b :: le(a, b) || le(b, a))
    && (forall a, b :: le(a, b) && le(b, a) ==> a == b)
    && (forall a, b, c :: le(a, b) && le(b, c) ==> le(a, c))
  }

  ghost predicate Ordered<T>(le: (T, T) -> bool, s: seq<T>) {
    forall i, j :: 0 <= i < j < |s| ==> le(s[i], s[j])
  }

  method SortBy<T(!new)>(le: (T, T) -> bool, items: seq<T>) returns (sorted: seq<T>)
    requires TotalOrder(le)
    ensures Ordered(le, sorted) && multiset(sorted) == multiset(items)
  {
    sorted := [];
    for i := 0 to |items|
      invariant Ordered(le, sorted) && multiset(sorted) == multiset(items[..i])
    {
      var k := |sorted|;
      while 0 < k && !le(sorted[k - 1], items[i])
        invariant 0 <= k <= |sorted|
        invariant forall j :: k <= j < |sorted| ==> le(items[i], sorted[j])
      {
        k := k - 1;
      }
      InsertOrdered(le, sorted, k, items[i]);
      InsertedMultiset(sorted, k, items[i]);
      sorted := sorted[..k] + [items[i]] + sorted[k..];
      assert items[..i + 1] == items[..i] + [items[i]];
    }
    assert items[..|items|] == items;
  }

  lemma InsertOrdered<T(!new)>(le: (T, T) -> bool, s: seq<T>, k: nat, x: T)
    requires TotalOrder(le) && Ordered(le, s) && k <= |s|
    requires 0 < k ==> le(s[k - 1], x)
    requires forall m :: k <= m < |s| ==> le(x, s[m])
    ensures Ordered(le, s[..k] + [x] + s[k..])
  {
  }

  lemma InsertedMultiset<T>(s: seq<T>, k: nat, x: T)
    requires k <= |s|
    ensures multiset(s[..k] + [x] + s[k..]) == multiset(s) + multiset{x}
  {
    assert s == s[..k] + s[k..];
  }

  lemma FirstIsLeast<T(!new)>(le: (T, T) -> bool, s: seq<T>, x: T)
    requires TotalOrder(le) && Ordered(le, s) && x in multiset(s)
    ensures le(s[0], x)
  {
  }

  /** A collection has one sorted listing, whatever order it was read in. */
  lemma {:induction false} OrderedUnique<T(!new)>(le: (T, T) -> bool, a: seq<T>, b: seq<T>)
    requires TotalOrder(le) && Ordered(le, a) && Ordered(le, b) && multiset(a) == multiset(b)
    ensures a == b
    decreases |a|
  {
    assert |a| == |multiset(a)| == |multiset(b)| == |b|;
    if a != [] {
      assert a[0] in multiset(a) && b[0] in multiset(b);
      FirstIsLeast(le, a, b[0]);
      FirstIsLeast(le, b, a[0]);
      assert a == [a[0]] + a[1..] && b == [b[0]] + b[1..];
      assert multiset(a[1..]) == multiset(a) - multiset{a[0]};
      assert multiset(b[1..]) == multiset(b) - multiset{b[0]};
      OrderedUnique(le, a[1..], b[1..]);
    }
  }
}
