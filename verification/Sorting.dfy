/** Sorting by a strict order. The result is the only sorted arrangement, so neither the algorithm nor the order
    of the input matters. */
module Sorting {

  ghost predicate StrictOrder<T(!new)>(less: (T, T) -> bool) {
    (forall a :: !less(a, a)) && (forall a, b, c :: less(a, b) && less(b, c) ==> less(a, c))
  }

  /** Any two positions are ordered one way or the other. */
  ghost predicate Comparable<T>(s: seq<T>, less: (T, T) -> bool) {
    forall i, j :: 0 <= i < j < |s| ==> less(s[i], s[j]) || less(s[j], s[i])
  }

  ghost predicate Ascending<T>(s: seq<T>, less: (T, T) -> bool) {
    forall i, j :: 0 <= i < j < |s| ==> less(s[i], s[j])
  }

  function InsertedInOrder<T>(x: T, s: seq<T>, less: (T, T) -> bool): seq<T> {
    if s == [] || less(x, s[0]) then [x] + s else [s[0]] + InsertedInOrder(x, s[1..], less)
  }

  function Sort<T>(s: seq<T>, less: (T, T) -> bool): seq<T> {
    if s == [] then [] else InsertedInOrder(s[0], Sort(s[1..], less), less)
  }

  lemma {:induction false} InsertedKeeps<T>(x: T, s: seq<T>, less: (T, T) -> bool)
    ensures multiset(InsertedInOrder(x, s, less)) == multiset{x} + multiset(s)
  {
    if s != [] && !less(x, s[0]) {
      InsertedKeeps(x, s[1..], less);
      assert s == [s[0]] + s[1..];
    }
  }

  lemma {:induction false} InsertedIsAscending<T(!new)>(x: T, s: seq<T>, less: (T, T) -> bool)
    requires StrictOrder(less) && Ascending(s, less)
    requires forall i :: 0 <= i < |s| ==> less(x, s[i]) || less(s[i], x)
    ensures Ascending(InsertedInOrder(x, s, less), less)
  {
    if s != [] && !less(x, s[0]) {
      InsertedIsAscending(x, s[1..], less);
      InsertedKeeps(x, s[1..], less);
      var rest := InsertedInOrder(x, s[1..], less);
      forall i | 0 <= i < |rest| ensures less(s[0], rest[i]) {
        assert rest[i] in multiset(rest);
        if rest[i] != x { assert rest[i] in s[1..]; }
      }
    }
  }

  lemma {:induction false} SortIsAscending<T(!new)>(s: seq<T>, less: (T, T) -> bool)
    requires StrictOrder(less) && Comparable(s, less)
    ensures Ascending(Sort(s, less), less) && multiset(Sort(s, less)) == multiset(s)
  {
    if s != [] {
      assert s == [s[0]] + s[1..];
      SortIsAscending(s[1..], less);
      var rest := Sort(s[1..], less);
      forall i | 0 <= i < |rest| ensures less(s[0], rest[i]) || less(rest[i], s[0]) {
        assert rest[i] in multiset(s[1..]);
      }
      InsertedIsAscending(s[0], rest, less);
      InsertedKeeps(s[0], rest, less);
    }
  }

  ghost predicate SameElements<T>(a: seq<T>, b: seq<T>) {
    (forall i :: 0 <= i < |a| ==> a[i] in b) && (forall i :: 0 <= i < |b| ==> b[i] in a)
  }

  lemma {:induction false} SameHead<T(!new)>(a: seq<T>, b: seq<T>, less: (T, T) -> bool)
    requires StrictOrder(less) && Ascending(a, less) && Ascending(b, less) && SameElements(a, b) && a != []
    ensures b != [] && a[0] == b[0]
  {
    assert a[0] in b;
    assert b[0] in a;
    var i :| 0 <= i < |a| && a[i] == b[0];
    var j :| 0 <= j < |b| && b[j] == a[0];
  }

  /** Only one ascending sequence has given elements. */
  lemma {:induction false} AscendingIsUnique<T(!new)>(a: seq<T>, b: seq<T>, less: (T, T) -> bool)
    requires StrictOrder(less) && Ascending(a, less) && Ascending(b, less) && SameElements(a, b)
    ensures a == b
  {
    if a != [] {
      SameHead(a, b, less);
      TailElements(a, b, less);
      TailElements(b, a, less);
      AscendingIsUnique(a[1..], b[1..], less);
      assert a == [a[0]] + a[1..] && b == [b[0]] + b[1..];
    } else if b != [] {
      SameHead(b, a, less);
    }
  }

  lemma {:induction false} TailElements<T(!new)>(a: seq<T>, b: seq<T>, less: (T, T) -> bool)
    requires StrictOrder(less) && Ascending(a, less) && a != [] && b != [] && a[0] == b[0]
    requires forall i :: 0 <= i < |a| ==> a[i] in b
    ensures forall i :: 0 <= i < |a[1..]| ==> a[1..][i] in b[1..]
  {
    forall i | 0 <= i < |a[1..]| ensures a[1..][i] in b[1..] {
      assert less(a[0], a[i + 1]);
      assert a[i + 1] in b && a[i + 1] != b[0];
    }
  }

  lemma {:induction false} SameMembers<T>(a: seq<T>, b: seq<T>)
    requires multiset(a) == multiset(b)
    ensures SameElements(a, b)
  {
    forall i | 0 <= i < |b| ensures b[i] in a { assert b[i] in multiset(b); }
    forall i | 0 <= i < |a| ensures a[i] in b { assert a[i] in multiset(a); }
  }

  /** Whatever order the same elements are given in, they sort to the same sequence. */
  lemma {:induction false} SortForgetsOrder<T(!new)>(a: seq<T>, b: seq<T>, less: (T, T) -> bool)
    requires StrictOrder(less) && Comparable(a, less) && Comparable(b, less) && SameElements(a, b)
    ensures Sort(a, less) == Sort(b, less)
  {
    SortIsAscending(a, less);
    SortIsAscending(b, less);
    SameMembers(Sort(a, less), a);
    SameMembers(Sort(b, less), b);
    assert SameElements(Sort(a, less), Sort(b, less));
    AscendingIsUnique(Sort(a, less), Sort(b, less), less);
  }

  function Elements<T>(s: seq<T>): set<T> {
    set x | x in s
  }

  lemma {:induction false} DistinctSize<T>(s: seq<T>)
    requires forall i, j :: 0 <= i < j < |s| ==> s[i] != s[j]
    ensures |Elements(s)| == |s|
  {
    if s != [] {
      var init, last := s[..|s| - 1], s[|s| - 1];
      DistinctSize(init);
      assert s == init + [last];
      assert Elements(s) == Elements(init) + {last};
      assert last !in init;
    }
  }

  // ---------------------------------------------------------------- iterating over a map

  /** Every entry of the map, once. */
  ghost predicate IsListing<K, V>(items: seq<(K, V)>, m: map<K, V>) {
    (forall i :: 0 <= i < |items| ==> items[i].0 in m && m[items[i].0] == items[i].1) &&
    (forall k :: k in m ==> (k, m[k]) in items) &&
    (forall i, j :: 0 <= i < j < |items| ==> items[i].0 != items[j].0)
  }

  /** The entries in whatever order they come. */
  method Entries<K(==), V>(m: map<K, V>) returns (items: seq<(K, V)>)
    ensures IsListing(items, m)
  {
    items := [];
    var rest := m.Keys;
    while rest != {}
      invariant rest <= m.Keys
      invariant forall i :: 0 <= i < |items| ==> items[i].0 in m && items[i].0 !in rest && m[items[i].0] == items[i].1
      invariant forall k :: k in m && k !in rest ==> (k, m[k]) in items
      invariant forall i, j :: 0 <= i < j < |items| ==> items[i].0 != items[j].0
      decreases rest
    {
      var k :| k in rest;
      items := items + [(k, m[k])];
      rest := rest - {k};
    }
  }
}
