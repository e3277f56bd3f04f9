/** How much of the requested range the stored daily records cover. */
module DataCoverage {
  import opened Sql
  import opened DailyMetrics
  import opened Sorting

  datatype Coverage = Coverage(requested: int, available: int, isPartial: bool, oldest: Option<int>, newest: Option<int>)

  /** The days of the range that have a record. */
  function DaysSeen(b: Bounds, dates: seq<int>): set<int> {
    set d | d in dates && b.from <= d < b.until
  }

  lemma {:induction false} SameKeys(seen: map<int, bool>, entries: seq<(int, bool)>, days: seq<int>, sorted: seq<int>)
    requires IsListing(entries, seen) && |days| == |entries| && forall i :: 0 <= i < |days| ==> days[i] == entries[i].0
    requires multiset(sorted) == multiset(days)
    ensures forall d :: d in seen ==> d in sorted
    ensures forall i :: 0 <= i < |sorted| ==> sorted[i] in seen
  {
    forall d | d in seen ensures d in sorted {
      assert (d, seen[d]) in entries;
      var i :| 0 <= i < |entries| && entries[i] == (d, seen[d]);
      assert days[i] in multiset(days);
    }
    forall i | 0 <= i < |sorted| ensures sorted[i] in seen {
      assert sorted[i] in multiset(days);
    }
  }

  /** First and last of the sorted keys. */
  method Extremes(seen: map<int, bool>) returns (first: int, last: int)
    requires seen.Keys != {}
    ensures first in seen && last in seen && forall d :: d in seen ==> first <= d <= last
  {
    var entries := Entries(seen);
    var days := seq(|entries|, i requires 0 <= i < |entries| => entries[i].0);
    var less := (x: int, y: int) => x < y;
    var sorted := Sort(days, less);
    SortIsAscending(days, less);
    SameKeys(seen, entries, days, sorted);
    assert sorted != [] by { var d :| d in seen; }
    first, last := sorted[0], sorted[|sorted| - 1];
  }

  method Measure(b: Bounds, dates: seq<int>) returns (c: Coverage)
    requires b.Valid()
    ensures c.requested == b.until - b.from && c.available == |DaysSeen(b, dates)|
    ensures c.isPartial == (c.available < c.requested)
    ensures DaysSeen(b, dates) == {} ==> c.oldest == None && c.newest == None
    ensures DaysSeen(b, dates) != {} ==>
              c.oldest.Some? && c.oldest.value in DaysSeen(b, dates) && c.newest.Some? && c.newest.value in DaysSeen(b, dates) &&
              forall d :: d in DaysSeen(b, dates) ==> c.oldest.value <= d <= c.newest.value
  {
    var seen: map<int, bool> := map[];
    for i := 0 to |dates|
      invariant seen.Keys == DaysSeen(b, dates[..i])
    {
      if b.from <= dates[i] < b.until {
        seen := seen[dates[i] := true];
      }
      assert dates[..i + 1] == dates[..i] + [dates[i]];
    }
    assert dates[..|dates|] == dates;
    var available := |seen.Keys|;
    c := Coverage(b.until - b.from, available, available < b.until - b.from, None, None);
    if available > 0 {
      var first, last := Extremes(seen);
      c := c.(oldest := Some(first), newest := Some(last));
    }
  }

  function Range(from: int, until: int): (days: set<int>)
    ensures forall d :: d in days <==> from <= d < until
    decreases until - from
  {
    if from >= until then {} else Range(from, until - 1) + {until - 1}
  }

  lemma {:induction false} RangeSize(from: int, until: int)
    requires from <= until
    ensures |Range(from, until)| == until - from
    decreases until - from
  {
    if from < until { RangeSize(from, until - 1); }
  }

  lemma {:induction false} SmallerSubset(a: set<int>, b: set<int>)
    requires a <= b
    ensures |a| <= |b| && (|a| == |b| <==> a == b)
  {
    assert b == a + (b - a);
  }

  /** The coverage is partial exactly when some day of the range has no record. */
  lemma {:induction false} PartialIffMissing(b: Bounds, dates: seq<int>)
    requires b.Valid()
    ensures |DaysSeen(b, dates)| < b.until - b.from <==> exists d :: b.from <= d < b.until && d !in dates
  {
    RangeSize(b.from, b.until);
    SmallerSubset(DaysSeen(b, dates), Range(b.from, b.until));
    var seen, all := DaysSeen(b, dates), Range(b.from, b.until);
    if d :| b.from <= d < b.until && d !in dates {
      assert d in all && d !in seen;
    } else {
      assert forall d :: d in all ==> d in seen;
    }
  }
}
