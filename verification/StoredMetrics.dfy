/** The stored daily records: several roll-ups over different ranges write them, a summary reads any range. */
module StoredMetrics {
  import opened Sql
  import opened DayMeans
  import opened DailyMetrics
  import opened MetricsSummary

  predicate CoversDay(b: Bounds, day: int) {
    b.from <= day < b.until
  }

  // ---------------------------------------------------------------- a day's record does not depend on the range

  /** The two filters keep the same samples of the day. */
  ghost predicate AgreeOn<R(!new)>(f: R -> Option<Sample>, g: R -> Option<Sample>, day: int) {
    forall r :: (f(r).Some? && f(r).value.day == day ==> g(r) == f(r)) && (g(r).Some? && g(r).value.day == day ==> f(r) == g(r))
  }

  lemma {:induction false} SameSamplesOn<R(!new)>(rows: seq<R>, f: R -> Option<Sample>, g: R -> Option<Sample>, day: int)
    requires AgreeOn(f, g, day)
    ensures On(Samples(rows, f), day) == On(Samples(rows, g), day)
  {
    if rows != [] {
      var init, r := rows[..|rows| - 1], rows[|rows| - 1];
      SameSamplesOn(init, f, g, day);
    }
  }

  ghost predicate SameSizes(x: Selected, y: Selected, day: int) {
    On(x.sizes, day) == On(y.sizes, day) && On(x.reviewed, day) == On(y.reviewed, day) && On(x.files, day) == On(y.files, day) &&
    On(x.additions, day) == On(y.additions, day) && On(x.deletions, day) == On(y.deletions, day)
  }

  ghost predicate SameSpans(x: Selected, y: Selected, day: int) {
    On(x.cycles, day) == On(y.cycles, day) && On(x.waits, day) == On(y.waits, day) && On(x.times, day) == On(y.times, day)
  }

  ghost predicate SameStatuses(x: Selected, y: Selected, day: int) {
    On(x.successes, day) == On(y.successes, day) && On(x.failures, day) == On(y.failures, day)
  }

  /** The selections of two ranges agree on a day both cover. */
  ghost predicate SameOn(x: Selected, y: Selected, day: int) {
    SameSizes(x, y, day) && SameSpans(x, y, day) && SameStatuses(x, y, day)
  }

  lemma {:induction false} SameSizesOn(prs: seq<PullRequest>, size: PullRequest -> int, b: Bounds, c: Bounds, day: int)
    requires CoversDay(b, day) && CoversDay(c, day)
    ensures On(Samples(prs, pr => SizeSample(b, size, pr)), day) == On(Samples(prs, pr => SizeSample(c, size, pr)), day)
  {
    SameSamplesOn(prs, pr => SizeSample(b, size, pr), pr => SizeSample(c, size, pr), day);
  }

  lemma {:induction false} SameSpansOn(rows: seq<(PullRequest, Review)>, end: Review -> Option<int>, b: Bounds, c: Bounds, day: int)
    requires CoversDay(b, day) && CoversDay(c, day)
    ensures On(Samples(rows, row => SpanSample(b, end, row)), day) == On(Samples(rows, row => SpanSample(c, end, row)), day)
  {
    SameSamplesOn(rows, row => SpanSample(b, end, row), row => SpanSample(c, end, row), day);
  }

  lemma {:induction false} SameStatusesOn(ds: seq<Deployment>, status: string, b: Bounds, c: Bounds, day: int)
    requires CoversDay(b, day) && CoversDay(c, day)
    ensures On(Samples(ds, d => StatusSample(b, status, d)), day) == On(Samples(ds, d => StatusSample(c, status, d)), day)
  {
    SameSamplesOn(ds, d => StatusSample(b, status, d), d => StatusSample(c, status, d), day);
  }

  lemma {:induction false} SizesAgree(raw: Raw, b: Bounds, c: Bounds, day: int)
    requires CoversDay(b, day) && CoversDay(c, day)
    ensures SameSizes(Select(raw, b), Select(raw, c), day)
  {
    var prs := raw.pullRequests;
    SameSizesOn(prs, (p: PullRequest) => 1, b, c, day);
    SameSizesOn(prs, (p: PullRequest) => p.filesChanged, b, c, day);
    SameSizesOn(prs, (p: PullRequest) => p.additions, b, c, day);
    SameSizesOn(prs, (p: PullRequest) => p.deletions, b, c, day);
    SameSamplesOn(prs, pr => ReviewedSample(b, pr), pr => ReviewedSample(c, pr), day);
  }

  lemma {:induction false} SpansAgree(raw: Raw, b: Bounds, c: Bounds, day: int)
    requires CoversDay(b, day) && CoversDay(c, day)
    ensures SameSpans(Select(raw, b), Select(raw, c), day)
  {
    SameSamplesOn(raw.pullRequests, pr => CycleSample(b, pr), pr => CycleSample(c, pr), day);
    SameSpansOn(Joined(raw.pullRequests), (r: Review) => r.firstReviewAt, b, c, day);
    SameSpansOn(Joined(raw.pullRequests), (r: Review) => r.submittedAt, b, c, day);
  }

  lemma {:induction false} StatusesAgree(raw: Raw, b: Bounds, c: Bounds, day: int)
    requires CoversDay(b, day) && CoversDay(c, day)
    ensures SameStatuses(Select(raw, b), Select(raw, c), day)
  {
    SameStatusesOn(raw.deployments, "success", b, c, day);
    SameStatusesOn(raw.deployments, "failed", b, c, day);
  }

  lemma {:induction false} SameSizeCycle(x: Selected, y: Selected, item: DailyMetric, day: int)
    requires SameOn(x, y, day)
    ensures AssignSize(x, item, day) == AssignSize(y, item, day) && AssignCycle(x, item, day) == AssignCycle(y, item, day)
  {
  }

  lemma {:induction false} SameReviewDeployments(x: Selected, y: Selected, item: DailyMetric, day: int)
    requires SameOn(x, y, day)
    ensures AssignReview(x, item, day) == AssignReview(y, item, day) && AssignDeployments(x, item, day) == AssignDeployments(y, item, day)
  {
  }

  lemma {:induction false} SameAssigned(x: Selected, y: Selected, day: int)
    requires SameOn(x, y, day)
    ensures Assigned(x, day) == Assigned(y, day)
  {
    var sized := AssignSize(x, Blank(day), day);
    var cycled := AssignCycle(x, sized, day);
    SameSizeCycle(x, y, Blank(day), day);
    SameSizeCycle(x, y, sized, day);
    SameReviewDeployments(x, y, cycled, day);
    SameReviewDeployments(x, y, AssignReview(x, cycled, day), day);
  }

  lemma {:induction false} SelectionsAgree(raw: Raw, b: Bounds, c: Bounds, day: int)
    requires CoversDay(b, day) && CoversDay(c, day)
    ensures Assigned(Select(raw, b), day) == Assigned(Select(raw, c), day)
  {
    SizesAgree(raw, b, c, day);
    SpansAgree(raw, b, c, day);
    StatusesAgree(raw, b, c, day);
    SameAssigned(Select(raw, b), Select(raw, c), day);
  }

  lemma {:induction false} RowOf(x: Selected, b: Bounds, day: int)
    requires b.Valid() && CoversDay(b, day)
    ensures DailyRows(x, b)[day - b.from] == WithCoverage(Assigned(x, day))
  {
  }

  /** A day's record is the same in every roll-up whose range covers the day. */
  lemma {:induction false} RollUpsAgree(raw: Raw, b: Bounds, c: Bounds, day: int)
    requires b.Valid() && c.Valid() && CoversDay(b, day) && CoversDay(c, day)
    ensures DailyRows(Select(raw, b), b)[day - b.from] == DailyRows(Select(raw, c), c)[day - c.from]
  {
    SelectionsAgree(raw, b, c, day);
    RowOf(Select(raw, b), b, day);
    RowOf(Select(raw, c), c, day);
  }

  // ---------------------------------------------------------------- roll-ups that agree

  /** Roll-ups by range: one record a day, dated, and the same for every range that covers the day. */
  type RollUps = Bounds -> seq<DailyMetric>

  ghost predicate Agreeing(rollUp: RollUps) {
    (forall b: Bounds :: b.Valid() ==> |rollUp(b)| == b.until - b.from) &&
    (forall b: Bounds, day :: b.Valid() && CoversDay(b, day) ==> rollUp(b)[day - b.from].date == day) &&
    (forall b: Bounds, c: Bounds, day :: b.Valid() && c.Valid() && CoversDay(b, day) && CoversDay(c, day) ==>
       rollUp(b)[day - b.from] == rollUp(c)[day - c.from])
  }

  function RollUpsOf(raw: Raw): RollUps {
    (b: Bounds) => if b.Valid() then DailyRows(Select(raw, b), b) else []
  }

  lemma {:induction false} RawRollUpsAgree(raw: Raw)
    ensures Agreeing(RollUpsOf(raw))
  {
    forall b: Bounds, day | b.Valid() && CoversDay(b, day) ensures DailyRows(Select(raw, b), b)[day - b.from].date == day {
      assert Assigned(Select(raw, b), day).date == day;
    }
    forall b: Bounds, c: Bounds, day | b.Valid() && c.Valid() && CoversDay(b, day) && CoversDay(c, day)
      ensures DailyRows(Select(raw, b), b)[day - b.from] == DailyRows(Select(raw, c), c)[day - c.from]
    {
      RollUpsAgree(raw, b, c, day);
    }
  }

  lemma {:induction false} RollUpsAppend(rollUp: RollUps, from: int, middle: int, until: int)
    requires Agreeing(rollUp) && from < middle < until
    ensures rollUp(Bounds(from, middle)) + rollUp(Bounds(middle, until)) == rollUp(Bounds(from, until))
  {
    var a, b, c := Bounds(from, middle), Bounds(middle, until), Bounds(from, until);
    forall i | 0 <= i < until - from ensures (rollUp(a) + rollUp(b))[i] == rollUp(c)[i] {
      var day := from + i;
      assert CoversDay(c, day) && (if i < middle - from then CoversDay(a, day) else CoversDay(b, day));
      if i < middle - from {
        assert rollUp(a)[day - from] == rollUp(c)[day - from];
      } else {
        assert rollUp(b)[day - middle] == rollUp(c)[day - from];
      }
    }
  }

  /** The records of adjacent ranges are together those of the union. */
  lemma {:induction false} AdjacentRanges(raw: Raw, from: int, middle: int, until: int)
    requires from < middle < until
    ensures var a, b, c := Bounds(from, middle), Bounds(middle, until), Bounds(from, until);
            DailyRows(Select(raw, a), a) + DailyRows(Select(raw, b), b) == DailyRows(Select(raw, c), c)
  {
    RawRollUpsAgree(raw);
    RollUpsAppend(RollUpsOf(raw), from, middle, until);
  }

  // ---------------------------------------------------------------- the table

  /** The upserts of one roll-up, keyed by the day. */
  function WithRows(table: map<int, DailyMetric>, rows: seq<DailyMetric>): map<int, DailyMetric> {
    if rows == [] then table else WithRows(table, rows[..|rows| - 1])[rows[|rows| - 1].date := rows[|rows| - 1]]
  }

  /** The stored records of a range, by day. */
  function Listed(table: map<int, DailyMetric>, b: Bounds): seq<DailyMetric>
    decreases b.until - b.from
  {
    if b.from >= b.until then []
    else
      var before := Listed(table, Bounds(b.from, b.until - 1));
      if b.until - 1 in table then before + [table[b.until - 1]] else before
  }

  class MetricsTable {
    var rows: map<int, DailyMetric>

    constructor (rows: map<int, DailyMetric>)
      ensures this.rows == rows
    {
      this.rows := rows;
    }

    /** CalculateRepositoryMetrics: roll up a range, then upsert its records. */
    method Refresh(raw: Raw, b: Bounds)
      requires b.Valid()
      modifies this
      ensures rows == WithRows(old(rows), DailyRows(Select(raw, b), b))
    {
      var records := BuildDailyMetrics(raw, b);
      for i := 0 to |records|
        invariant rows == WithRows(old(rows), records[..i])
      {
        assert records[..i + 1][..i] == records[..i];
        rows := rows[records[i].date := records[i]];
      }
      assert records[..|records|] == records;
    }
  }

  /** The table after one roll-up for each of the ranges. */
  function Refreshed(table: map<int, DailyMetric>, rollUp: RollUps, bs: seq<Bounds>): map<int, DailyMetric> {
    if bs == [] then table else WithRows(Refreshed(table, rollUp, bs[..|bs| - 1]), rollUp(bs[|bs| - 1]))
  }

  lemma {:induction false} WithRowsIs(table: map<int, DailyMetric>, rows: seq<DailyMetric>, from: int, day: int)
    requires forall i :: 0 <= i < |rows| ==> rows[i].date == from + i
    ensures var t := WithRows(table, rows);
            if from <= day < from + |rows| then day in t && t[day] == rows[day - from]
            else (day in t <==> day in table) && (day in table ==> t[day] == table[day])
  {
    if rows != [] { WithRowsIs(table, rows[..|rows| - 1], from, day); }
  }

  lemma {:induction false} RollUpDated(rollUp: RollUps, b: Bounds)
    requires Agreeing(rollUp) && b.Valid()
    ensures forall i :: 0 <= i < |rollUp(b)| ==> rollUp(b)[i].date == b.from + i
  {
    forall i | 0 <= i < |rollUp(b)| ensures rollUp(b)[i].date == b.from + i {
      assert CoversDay(b, b.from + i) && rollUp(b)[(b.from + i) - b.from].date == b.from + i;
    }
  }

  predicate SomeCovers(bs: seq<Bounds>, day: int) {
    exists i :: 0 <= i < |bs| && CoversDay(bs[i], day)
  }

  /** After any sequence of roll-ups each covered day has its record, whatever was stored before. */
  lemma {:induction false} StoredDay(table: map<int, DailyMetric>, rollUp: RollUps, bs: seq<Bounds>, b: Bounds, day: int)
    requires Agreeing(rollUp) && (forall i :: 0 <= i < |bs| ==> bs[i].Valid()) && SomeCovers(bs, day)
    requires b.Valid() && CoversDay(b, day)
    ensures var t := Refreshed(table, rollUp, bs); day in t && t[day] == rollUp(b)[day - b.from]
  {
    var init, last := bs[..|bs| - 1], bs[|bs| - 1];
    RollUpDated(rollUp, last);
    WithRowsIs(Refreshed(table, rollUp, init), rollUp(last), last.from, day);
    if CoversDay(last, day) {
      assert rollUp(last)[day - last.from] == rollUp(b)[day - b.from];
    } else {
      StoredDay(table, rollUp, init, b, day);
    }
  }

  lemma {:induction false} ListedIs(table: map<int, DailyMetric>, b: Bounds, rows: seq<DailyMetric>)
    requires b.from <= b.until && |rows| == b.until - b.from
    requires forall d :: CoversDay(b, d) ==> d in table && table[d] == rows[d - b.from]
    ensures Listed(table, b) == rows
    decreases b.until - b.from
  {
    if b.from < b.until {
      var rest, init := Bounds(b.from, b.until - 1), rows[..|rows| - 1];
      forall d | CoversDay(rest, d) ensures d in table && table[d] == init[d - b.from] { assert CoversDay(b, d); }
      ListedIs(table, rest, init);
      assert CoversDay(b, b.until - 1);
      assert rows == init + [rows[|rows| - 1]];
    }
  }

  /** Whatever ranges the roll-ups had, as long as together they cover the requested one, its stored records are those of a
      single roll-up. */
  lemma {:induction false} StoredIsRollUp(table: map<int, DailyMetric>, rollUp: RollUps, bs: seq<Bounds>, b: Bounds)
    requires Agreeing(rollUp) && b.Valid() && forall i :: 0 <= i < |bs| ==> bs[i].Valid()
    requires forall d :: CoversDay(b, d) ==> SomeCovers(bs, d)
    ensures Listed(Refreshed(table, rollUp, bs), b) == rollUp(b)
  {
    var t := Refreshed(table, rollUp, bs);
    forall d | CoversDay(b, d) ensures d in t && t[d] == rollUp(b)[d - b.from] { StoredDay(table, rollUp, bs, b, d); }
    ListedIs(t, b, rollUp(b));
  }

  /** So the summary of the stored records is the direct scan of the raw rows. */
  lemma {:induction false} StoredSummaryIsDirect(table: map<int, DailyMetric>, raw: Raw, bs: seq<Bounds>, b: Bounds, dayCount: int)
    requires b.Valid() && forall i :: 0 <= i < |bs| ==> bs[i].Valid()
    requires forall d :: CoversDay(b, d) ==> SomeCovers(bs, d)
    ensures var stored := Listed(Refreshed(table, RollUpsOf(raw), bs), b);
            stored == DailyRows(Select(raw, b), b) && Summarized(stored, dayCount) == Direct(Select(raw, b), dayCount)
  {
    RawRollUpsAgree(raw);
    StoredIsRollUp(table, RollUpsOf(raw), bs, b);
    SummaryIsDirect(raw, b, dayCount);
  }
}
