/**
  Sorting by a strict order, for lists whose elements are pairwise comparable.
*/
module Sorting {

  ghost predicate Transitive<T(!new)>(less: (T, T) -> bool) {
    forall x, y, z :: less(x, y) && less(y, z) ==> less(x, z)
  }

  ghost predicate Irreflexive<T(!new)>(less: (T, T) -> bool) {
    forall x :: !less(x, x)
  }

  ghost predicate Sorted<T(!new)>(less: (T, T) -> bool, list: seq<T>) {
    forall i, j | 0 <= i < j < |list| :: less(list[i], list[j])
  }

  ghost predicate Comparable<T(!new)>(less: (T, T) -> bool, list: seq<T>) {
    forall i, j | 0 <= i < j < |list| :: less(list[i], list[j]) || less(list[j], list[i])
  }

  /** Where an element goes in a sorted list. */
  function Place<T>(less: (T, T) -> bool, list: seq<T>, x: T): (k: nat)
    ensures k <= |list|
  {
    if list == [] || less(x, list[0]) then 0 else 1 + Place(less, list[1..], x)
  }

  lemma {:induction false} PlaceSplits<T(!new)>(less: (T, T) -> bool, list: seq<T>, x: T)
    requires Transitive(less) && Sorted(less, list) &&
             forall i | 0 <= i < |list| :: less(x, list[i]) || less(list[i], x)
    ensures forall i | 0 <= i < Place(less, list, x) :: less(list[i], x)
    ensures forall i | Place(less, list, x) <= i < |list| :: less(x, list[i])
  {
    if list != [] {
      var rest := list[1..];
      assert forall i | 0 <= i < |rest| :: rest[i] == list[i + 1];
      if !less(x, list[0]) {
        PlaceSplits(less, rest, x);
      }
    }
  }

  function Inserted<T>(list: seq<T>, x: T, k: nat): seq<T>
    requires k <= |list|
  {
    list[..k] + [x] + list[k..]
  }

  lemma InsertedAt<T>(list: seq<T>, x: T, k: nat, i: nat)
    requires k <= |list| && i < |list| + 1
    ensures |Inserted(list, x, k)| == |list| + 1
    ensures Inserted(list, x, k)[i] == if i < k then list[i] else if i == k then x else list[i - 1]
  {
  }

  lemma InsertedBag<T>(list: seq<T>, x: T, k: nat)
    requires k <= |list|
    ensures multiset(Inserted(list, x, k)) == multiset(list) + multiset{x}
  {
    assert list == list[..k] + list[k..];
    assert multiset(list) == multiset(list[..k]) + multiset(list[k..]);
  }

  lemma InsertKeepsSorted<T(!new)>(less: (T, T) -> bool, list: seq<T>, x: T, k: nat)
    requires Transitive(less) && Sorted(less, list) &&
             forall i | 0 <= i < |list| :: less(x, list[i]) || less(list[i], x)
    requires k == Place(less, list, x)
    ensures Sorted(less, Inserted(list, x, k))
  {
    hide Place, Transitive, Inserted;
    PlaceSplits(less, list, x);
    var out := Inserted(list, x, k);
    InsertedAt(list, x, k, 0);
    forall i, j | 0 <= i < j < |out|
      ensures less(out[i], out[j])
    {
      InsertedAt(list, x, k, i);
      InsertedAt(list, x, k, j);
    }
  }

  lemma SameElements<T>(a: seq<T>, b: seq<T>)
    requires multiset(a) == multiset(b)
    ensures |a| == |b| && (forall x :: x in a ==> x in b) && (forall x :: x in b ==> x in a)
  {
    assert |a| == |multiset(a)| == |b|;
    forall x | x in a
      ensures x in b
    {
      assert x in multiset(a);
    }
    forall x | x in b
      ensures x in a
    {
      assert x in multiset(b);
    }
  }

  lemma ComparableWithNext<T(!new)>(less: (T, T) -> bool, items: seq<T>, sorted: seq<T>, i: nat)
    requires Comparable(less, items) && i < |items| && multiset(sorted) == multiset(items[..i])
    ensures forall j | 0 <= j < |sorted| :: less(items[i], sorted[j]) || less(sorted[j], items[i])
  {
    SameElements(sorted, items[..i]);
    forall j | 0 <= j < |sorted|
      ensures less(items[i], sorted[j]) || less(sorted[j], items[i])
    {
      assert sorted[j] in items[..i];
    }
  }

  method Sort<T(!new)>(less: (T, T) -> bool, items: seq<T>) returns (sorted: seq<T>)
    requires Transitive(less) && Comparable(less, items)
    ensures Sorted(less, sorted) && multiset(sorted) == multiset(items)
  {
    sorted := [];
    for i := 0 to |items|
      invariant Sorted(less, sorted) && multiset(sorted) == multiset(items[..i])
    {
      hide Sorted, Place, Transitive, Comparable, Inserted;
      ComparableWithNext(less, items, sorted, i);
      var k := Place(less, sorted, items[i]);
      InsertKeepsSorted(less, sorted, items[i], k);
      InsertedBag(sorted, items[i], k);
      sorted := Inserted(sorted, items[i], k);
      assert items[..i + 1] == items[..i] + [items[i]];
    }
    assert items[..|items|] == items;
  }

  // ---------------------------------------------------------------- the first elements in order

  /** `p` lists the first `n` elements of a set in order, or all of them if there are fewer. */
  ghost predicate Leads<T(!new)>(less: (T, T) -> bool, all: set<T>, n: nat, p: seq<T>) {
    |p| <= n && (forall x | x in p :: x in all) && Sorted(less, p) &&
    (forall x | x in all && x !in p :: |p| == n && forall i | 0 <= i < |p| :: less(p[i], x))
  }

  lemma NextAgrees<T(!new)>(less: (T, T) -> bool, all: set<T>, n: nat, p: seq<T>, q: seq<T>, i: nat)
    requires Irreflexive(less) && Leads(less, all, n, p) && Leads(less, all, n, q) && i < |p| && i < |q| &&
             p[..i] == q[..i]
    ensures p[i] == q[i] || less(q[i], p[i])
  {
    forall j | 0 <= j < i
      ensures q[j] != p[i]
    {
      assert p[..i][j] == q[..i][j];
      assert less(p[j], p[i]);
    }
    assert p[i] in p;
    if p[i] in q {
      var m :| 0 <= m < |q| && q[m] == p[i];
    }
  }

  lemma {:induction false} PrefixesAgree<T(!new)>(less: (T, T) -> bool, all: set<T>, n: nat, p: seq<T>, q: seq<T>,
                                                  i: nat)
    requires Transitive(less) && Irreflexive(less) && Leads(less, all, n, p) && Leads(less, all, n, q) && i <= |p| &&
             i <= |q|
    ensures p[..i] == q[..i]
  {
    hide Leads;
    if i > 0 {
      PrefixesAgree(less, all, n, p, q, i - 1);
      NextAgrees(less, all, n, p, q, i - 1);
      NextAgrees(less, all, n, q, p, i - 1);
      assert p[i - 1] == q[i - 1];
      assert p[..i] == p[..i - 1] + [p[i - 1]];
      assert q[..i] == q[..i - 1] + [q[i - 1]];
    }
  }

  lemma NoShorter<T(!new)>(less: (T, T) -> bool, all: set<T>, n: nat, p: seq<T>, q: seq<T>)
    requires Transitive(less) && Irreflexive(less) && Leads(less, all, n, p) && Leads(less, all, n, q)
    ensures |p| >= |q|
  {
    if |p| < |q| {
      PrefixesAgree(less, all, n, p, q, |p|);
      var x := q[|p|];
      assert x in q;
      forall j | 0 <= j < |p|
        ensures p[j] != x
      {
        assert p[..|p|][j] == q[..|p|][j];
        assert less(q[j], x);
      }
    }
  }

  /** There is one such list only. */
  lemma LeadingIsUnique<T(!new)>(less: (T, T) -> bool, all: set<T>, n: nat, p: seq<T>, q: seq<T>)
    requires Transitive(less) && Irreflexive(less) && Leads(less, all, n, p) && Leads(less, all, n, q)
    ensures p == q
  {
    hide Leads, Transitive, Irreflexive;
    NoShorter(less, all, n, p, q);
    NoShorter(less, all, n, q, p);
    PrefixesAgree(less, all, n, p, q, |p|);
    assert p[..|p|] == p && q[..|q|] == q;
  }

  /** A sorted list of all elements, cut to length, is that list. */
  lemma CutLeads<T(!new)>(less: (T, T) -> bool, all: set<T>, n: nat, list: seq<T>)
    requires Sorted(less, list) && forall x :: x in list <==> x in all
    ensures Leads(less, all, n, if |list| <= n then list else list[..n])
  {
    var p := if |list| <= n then list else list[..n];
    forall x | x in all && x !in p
      ensures |p| == n && forall i | 0 <= i < |p| :: less(p[i], x)
    {
      assert x in list;
      var j :| 0 <= j < |list| && list[j] == x;
      assert j >= n;
    }
  }

  /** A sorted list is determined by its elements. */
  lemma SortedIsUnique<T(!new)>(less: (T, T) -> bool, a: seq<T>, b: seq<T>)
    requires Transitive(less) && Irreflexive(less) && Sorted(less, a) && Sorted(less, b) && multiset(a) == multiset(b)
    ensures a == b
  {
    hide Sorted, Transitive, Irreflexive, Leads;
    SameElements(a, b);
    var all := set x | x in a;
    CutLeads(less, all, |a|, a);
    CutLeads(less, all, |b|, b);
    LeadingIsUnique(less, all, |a|, a, b);
  }
}
