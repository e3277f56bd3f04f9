/** Grouping the daily records by day, week or month: the label is a string given by the day. */
module IntervalTrend {
  import opened DayMeans
  import opened DailyMetrics
  import opened Sorting
  import opened Text

  /** The five accumulators of an interval. */
  datatype Totals = Totals(cycleWeighted: real, merged: int, waitWeighted: real, waits: int, successful: int)

  datatype Bucket = Bucket(name: string, totals: Totals)

  const ZERO: Totals := Totals(0.0, 0, 0.0, 0, 0)

  function Plus(a: Totals, b: Totals): Totals {
    Totals(a.cycleWeighted + b.cycleWeighted, a.merged + b.merged, a.waitWeighted + b.waitWeighted, a.waits + b.waits,
           a.successful + b.successful)
  }

  function RowTotals(row: DailyMetric): Totals {
    Totals(Weight(row.cycle), row.cycle.count, Weight(row.reviewWait), row.reviewWait.count, row.successful)
  }

  function SumRows(rows: seq<DailyMetric>): Totals {
    if rows == [] then ZERO else Plus(SumRows(rows[..|rows| - 1]), RowTotals(rows[|rows| - 1]))
  }

  function SumLabeled(rows: seq<DailyMetric>, labelOf: int -> string, l: string): Totals {
    if rows == [] then ZERO
    else
      var before := SumLabeled(rows[..|rows| - 1], labelOf, l);
      if labelOf(rows[|rows| - 1].date) == l then Plus(before, RowTotals(rows[|rows| - 1])) else before
  }

  function SumBuckets(items: seq<Bucket>): Totals {
    if items == [] then ZERO else Plus(SumBuckets(items[..|items| - 1]), items[|items| - 1].totals)
  }

  predicate Dated(rows: seq<DailyMetric>, b: Bounds) {
    forall i :: 0 <= i < |rows| ==> b.from <= rows[i].date < b.until
  }

  /** Some day of the range has this label. */
  ghost predicate Labels(b: Bounds, labelOf: int -> string, l: string) {
    exists d :: b.from <= d < b.until && labelOf(d) == l
  }

  ghost predicate Lists(items: seq<Bucket>, l: string) {
    exists i :: 0 <= i < |items| && items[i].name == l
  }

  function ByLabel(): (Bucket, Bucket) -> bool {
    (x: Bucket, y: Bucket) => StringLess(x.name, y.name)
  }

  /** Distinct labels in ascending order, one for every day of the range and no other, each with the sum of its rows. */
  ghost predicate IsTrend(items: seq<Bucket>, b: Bounds, labelOf: int -> string, rows: seq<DailyMetric>) {
    Ascending(items, ByLabel()) &&
    (forall l :: Lists(items, l) <==> Labels(b, labelOf, l)) &&
    (forall i :: 0 <= i < |items| ==> items[i].totals == SumLabeled(rows, labelOf, items[i].name))
  }

  lemma {:induction false} OneMoreDayLabels(from: int, day: int, labelOf: int -> string)
    requires from <= day
    ensures forall l :: Labels(Bounds(from, day + 1), labelOf, l) <==> Labels(Bounds(from, day), labelOf, l) || l == labelOf(day)
  {
    forall l ensures Labels(Bounds(from, day + 1), labelOf, l) <==> Labels(Bounds(from, day), labelOf, l) || l == labelOf(day) {
      if Labels(Bounds(from, day), labelOf, l) {
        var d :| from <= d < day && labelOf(d) == l;
      }
    }
  }

  /** The first loop: an empty bucket for every label of the range. */
  method IndexLabels(b: Bounds, labelOf: int -> string) returns (index: map<string, Totals>)
    requires b.Valid()
    ensures forall l :: l in index <==> Labels(b, labelOf, l)
    ensures forall l :: l in index ==> index[l] == ZERO
  {
    index := map[];
    for day := b.from to b.until
      invariant forall l :: l in index <==> Labels(Bounds(b.from, day), labelOf, l)
      invariant forall l :: l in index ==> index[l] == ZERO
    {
      if labelOf(day) !in index {
        index := index[labelOf(day) := ZERO];
      }
      OneMoreDayLabels(b.from, day, labelOf);
    }
  }

  /** The second loop: every row is added to the bucket of its label. */
  method AddRows(index: map<string, Totals>, labelOf: int -> string, rows: seq<DailyMetric>) returns (result: map<string, Totals>)
    requires forall i :: 0 <= i < |rows| ==> labelOf(rows[i].date) in index
    requires forall l :: l in index ==> index[l] == ZERO
    ensures result.Keys == index.Keys
    ensures forall l :: l in result ==> result[l] == SumLabeled(rows, labelOf, l)
  {
    result := index;
    for i := 0 to |rows|
      invariant result.Keys == index.Keys
      invariant forall l :: l in result ==> result[l] == SumLabeled(rows[..i], labelOf, l)
    {
      var l := labelOf(rows[i].date);
      assert rows[..i + 1][..i] == rows[..i];
      result := result[l := Plus(result[l], RowTotals(rows[i]))];
    }
    assert rows[..|rows|] == rows;
  }

  // ---------------------------------------------------------------- listing and sorting the buckets

  /** One bucket for every entry. */
  ghost predicate HoldsIndex(items: seq<Bucket>, index: map<string, Totals>) {
    (forall l :: Lists(items, l) <==> l in index) &&
    (forall i :: 0 <= i < |items| ==> items[i].name in index && items[i].totals == index[items[i].name])
  }

  lemma {:induction false} ListingHoldsIndex(entries: seq<(string, Totals)>, index: map<string, Totals>, items: seq<Bucket>)
    requires IsListing(entries, index) && |items| == |entries|
    requires forall i :: 0 <= i < |entries| ==> items[i] == Bucket(entries[i].0, entries[i].1)
    ensures HoldsIndex(items, index)
  {
    forall l | l in index ensures Lists(items, l) {
      assert (l, index[l]) in entries;
      var i :| 0 <= i < |entries| && entries[i] == (l, index[l]);
      assert items[i].name == l;
    }
  }

  lemma {:induction false} ReorderedHoldsIndex(a: seq<Bucket>, c: seq<Bucket>, index: map<string, Totals>)
    requires HoldsIndex(a, index) && SameElements(a, c)
    ensures HoldsIndex(c, index)
  {
    forall l | l in index ensures Lists(c, l) {
      assert Lists(a, l);
      var i :| 0 <= i < |a| && a[i].name == l;
      assert a[i] in c;
    }
  }

  lemma {:induction false} ByLabelIsStrictOrder()
    ensures StrictOrder(ByLabel())
  {
    forall x: Bucket ensures !StringLess(x.name, x.name) { StringLessIsStrict(x.name); }
    forall x: Bucket, y: Bucket, z: Bucket | StringLess(x.name, y.name) && StringLess(y.name, z.name)
      ensures StringLess(x.name, z.name)
    {
      StringLessIsTransitive(x.name, y.name, z.name);
    }
  }

  lemma {:induction false} DistinctIsComparable(entries: seq<(string, Totals)>, items: seq<Bucket>)
    requires |items| == |entries| && forall i :: 0 <= i < |entries| ==> items[i].name == entries[i].0
    requires forall i, j :: 0 <= i < j < |entries| ==> entries[i].0 != entries[j].0
    ensures Comparable(items, ByLabel())
  {
    forall i, j | 0 <= i < j < |items| ensures StringLess(items[i].name, items[j].name) || StringLess(items[j].name, items[i].name) {
      StringLessIsTotal(items[i].name, items[j].name);
    }
  }

  /** The entries of the index, in whatever order they come, sorted by label. */
  method SortedBuckets(index: map<string, Totals>) returns (items: seq<Bucket>)
    ensures Ascending(items, ByLabel()) && HoldsIndex(items, index)
  {
    var entries := Entries(index);
    var unsorted := seq(|entries|, i requires 0 <= i < |entries| => Bucket(entries[i].0, entries[i].1));
    items := Sort(unsorted, ByLabel());
    ByLabelIsStrictOrder();
    DistinctIsComparable(entries, unsorted);
    SortIsAscending(unsorted, ByLabel());
    SameMembers(unsorted, items);
    ListingHoldsIndex(entries, index, unsorted);
    ReorderedHoldsIndex(unsorted, items, index);
  }

  method GroupMetricsByInterval(b: Bounds, labelOf: int -> string, rows: seq<DailyMetric>) returns (items: seq<Bucket>)
    requires b.Valid() && Dated(rows, b)
    ensures IsTrend(items, b, labelOf, rows)
  {
    var index := IndexLabels(b, labelOf);
    RowsAreLabeled(b, labelOf, rows);
    index := AddRows(index, labelOf, rows);
    items := SortedBuckets(index);
  }

  lemma {:induction false} RowsAreLabeled(b: Bounds, labelOf: int -> string, rows: seq<DailyMetric>)
    requires Dated(rows, b)
    ensures forall i :: 0 <= i < |rows| ==> Labels(b, labelOf, labelOf(rows[i].date))
  {
  }

  // ---------------------------------------------------------------- properties of a trend

  function Names(items: seq<Bucket>): (names: seq<string>)
    ensures |names| == |items| && forall i :: 0 <= i < |names| ==> names[i] == items[i].name
  {
    seq(|items|, i requires 0 <= i < |items| => items[i].name)
  }

  lemma {:induction false} SameNames(x: seq<Bucket>, y: seq<Bucket>)
    requires forall l :: Lists(x, l) ==> Lists(y, l)
    ensures forall i :: 0 <= i < |x| ==> Names(x)[i] in Names(y)
  {
    forall i | 0 <= i < |x| ensures Names(x)[i] in Names(y) {
      assert Lists(x, x[i].name);
      var j :| 0 <= j < |y| && y[j].name == x[i].name;
      assert Names(y)[j] == x[i].name;
    }
  }

  lemma {:induction false} StringsAreStrictlyOrdered()
    ensures StrictOrder((a: string, c: string) => StringLess(a, c))
  {
    forall a: string ensures !StringLess(a, a) { StringLessIsStrict(a); }
    forall a: string, c: string, d: string | StringLess(a, c) && StringLess(c, d) ensures StringLess(a, d) {
      StringLessIsTransitive(a, c, d);
    }
  }

  /** Ascending buckets with the same labels have them in the same places. */
  lemma {:induction false} SameAscendingLabels(x: seq<Bucket>, y: seq<Bucket>)
    requires Ascending(x, ByLabel()) && Ascending(y, ByLabel()) && forall l :: Lists(x, l) <==> Lists(y, l)
    ensures |x| == |y| && forall i :: 0 <= i < |x| ==> x[i].name == y[i].name
  {
    var less := (a: string, c: string) => StringLess(a, c);
    StringsAreStrictlyOrdered();
    SameNames(x, y);
    SameNames(y, x);
    assert Ascending(Names(x), less) by {
      forall i, j | 0 <= i < j < |x| ensures less(Names(x)[i], Names(x)[j]) { assert ByLabel()(x[i], x[j]); }
    }
    assert Ascending(Names(y), less) by {
      forall i, j | 0 <= i < j < |y| ensures less(Names(y)[i], Names(y)[j]) { assert ByLabel()(y[i], y[j]); }
    }
    AscendingIsUnique(Names(x), Names(y), less);
    forall i | 0 <= i < |x| ensures x[i].name == y[i].name {
      assert Names(x)[i] == Names(y)[i];
    }
  }

  /** There is only one trend, whatever order the map gave its entries in. */
  lemma {:induction false} TrendIsUnique(x: seq<Bucket>, y: seq<Bucket>, b: Bounds, labelOf: int -> string, rows: seq<DailyMetric>)
    requires IsTrend(x, b, labelOf, rows) && IsTrend(y, b, labelOf, rows)
    ensures x == y
  {
    assert forall l :: Lists(x, l) <==> Lists(y, l);
    SameAscendingLabels(x, y);
  }

  /** Nothing is lost or counted twice: the totals of the intervals add up to the totals of the rows. */
  lemma {:induction false} TrendConserves(items: seq<Bucket>, b: Bounds, labelOf: int -> string, rows: seq<DailyMetric>)
    requires IsTrend(items, b, labelOf, rows) && Dated(rows, b)
    ensures SumBuckets(items) == SumRows(rows)
  {
    forall k | 0 <= k < |rows| ensures Lists(items, labelOf(rows[k].date)) {
      assert Labels(b, labelOf, labelOf(rows[k].date));
    }
    forall i, j | 0 <= i < j < |items| ensures items[i].name != items[j].name {
      assert ByLabel()(items[i], items[j]);
      StringLessIsStrict(items[i].name);
    }
    SumsAgree(items, labelOf, rows);
  }

  /** The same items over fewer rows. */
  function Over(items: seq<Bucket>, labelOf: int -> string, rows: seq<DailyMetric>): (r: seq<Bucket>)
    ensures |r| == |items| && forall i :: 0 <= i < |r| ==> r[i] == Bucket(items[i].name, SumLabeled(rows, labelOf, items[i].name))
  {
    seq(|items|, i requires 0 <= i < |items| => Bucket(items[i].name, SumLabeled(rows, labelOf, items[i].name)))
  }

  lemma {:induction false} SumsAgree(items: seq<Bucket>, labelOf: int -> string, rows: seq<DailyMetric>)
    requires forall i, j :: 0 <= i < j < |items| ==> items[i].name != items[j].name
    requires forall k :: 0 <= k < |rows| ==> Lists(items, labelOf(rows[k].date))
    requires forall i :: 0 <= i < |items| ==> items[i].totals == SumLabeled(rows, labelOf, items[i].name)
    ensures SumBuckets(items) == SumRows(rows)
    decreases |rows|
  {
    if rows == [] {
      AllZero(items);
    } else {
      var init, row := rows[..|rows| - 1], rows[|rows| - 1];
      var before := Over(items, labelOf, init);
      forall k | 0 <= k < |init| ensures Lists(before, labelOf(init[k].date)) {
        assert Lists(items, labelOf(rows[k].date));
        var j :| 0 <= j < |items| && items[j].name == labelOf(rows[k].date);
        assert before[j].name == items[j].name;
      }
      SumsAgree(before, labelOf, init);
      assert Lists(items, labelOf(row.date));
      var i :| 0 <= i < |items| && items[i].name == labelOf(row.date);
      OneChanges(before, items, i, RowTotals(row));
    }
  }

  lemma {:induction false} AllZero(items: seq<Bucket>)
    requires forall i :: 0 <= i < |items| ==> items[i].totals == ZERO
    ensures SumBuckets(items) == ZERO
  {
    if items != [] {
      var init, last := items[..|items| - 1], items[|items| - 1];
      AllZero(init);
      calc { SumBuckets(items); Plus(SumBuckets(init), last.totals); Plus(ZERO, ZERO); ZERO; }
    }
  }

  lemma {:induction false} OneChanges(x: seq<Bucket>, y: seq<Bucket>, i: int, more: Totals)
    requires |x| == |y| && 0 <= i < |y| && y[i].totals == Plus(x[i].totals, more)
    requires forall j :: 0 <= j < |x| && j != i ==> y[j].totals == x[j].totals
    ensures SumBuckets(y) == Plus(SumBuckets(x), more)
  {
    var n := |x| - 1;
    if i == n {
      SameTotals(x[..n], y[..n]);
    } else {
      OneChanges(x[..n], y[..n], i, more);
    }
  }

  lemma {:induction false} SameTotals(x: seq<Bucket>, y: seq<Bucket>)
    requires |x| == |y| && forall i :: 0 <= i < |x| ==> x[i].totals == y[i].totals
    ensures SumBuckets(x) == SumBuckets(y)
  {
    if x != [] { SameTotals(x[..|x| - 1], y[..|y| - 1]); }
  }
}
