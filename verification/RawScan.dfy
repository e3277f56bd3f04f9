/** The daily records and the dashboard figures, told in the fields of the raw rows: which rows count for which measure, and the
    totals the averages stand for. Times are microseconds, 86_400_000_000 a day and 60_000_000 a minute. */
module RawScan {
  import opened Sql
  import opened DayMeans
  import opened DailyMetrics
  import opened MetricsSummary
  import opened StoredMetrics

  // ---------------------------------------------------------------- which rows count, in the days from..until-1

  predicate Falls(t: int, from: int, until: int) {
    from * 86_400_000_000 <= t < until * 86_400_000_000
  }

  /** A requested range takes in everything from the beginning of its first day to the end of its last; one that ends on a day
      before it begins is refused. */
  lemma {:induction false} RangeTakesIn(from: Option<int>, end: Option<int>, t: int)
    ensures var b := NormalizeBounds(from, end);
            (b.None? <==> from.None? || end.None? || end.value / 86_400_000_000 < from.value / 86_400_000_000) &&
            (b.Some? ==> b.value.from < b.value.until &&
                         (Falls(t, b.value.from, b.value.until) <==>
                          from.value / 86_400_000_000 <= t / 86_400_000_000 <= end.value / 86_400_000_000))
  {
  }

  predicate IsCreated(pr: PullRequest, from: int, until: int) {
    !pr.isDraft && Falls(pr.createdAt, from, until)
  }

  predicate IsMerged(pr: PullRequest, from: int, until: int) {
    !pr.isDraft && pr.mergedAt.Some? && pr.createdAt <= pr.mergedAt.value && Falls(pr.mergedAt.value, from, until)
  }

  predicate HasHumanReview(pr: PullRequest) {
    exists i :: 0 <= i < |pr.reviews| && pr.reviews[i].byHuman
  }

  /** A human's review, requested not before the pull request was created, that got as far as `end` not before it was requested. */
  predicate Spans(row: (PullRequest, Review), end: Option<int>, from: int, until: int) {
    IsCreated(row.0, from, until) && row.1.byHuman && row.1.requestedAt.Some? && end.Some? &&
    row.0.createdAt <= row.1.requestedAt.value <= end.value
  }

  predicate IsDeployed(d: Deployment, status: string, from: int, until: int) {
    d.status == status && Falls(d.deployedAt, from, until)
  }

  // ---------------------------------------------------------------- counting and adding them up

  function Count<R>(rows: seq<R>, p: R -> bool): nat {
    if rows == [] then 0 else Count(rows[..|rows| - 1], p) + if p(rows[|rows| - 1]) then 1 else 0
  }

  function TotalOf<R>(rows: seq<R>, p: R -> bool, f: R -> int): int {
    if rows == [] then 0 else TotalOf(rows[..|rows| - 1], p, f) + if p(rows[|rows| - 1]) then f(rows[|rows| - 1]) else 0
  }

  function Under<T>(pr: PullRequest, f: ((PullRequest, Review)) -> T): Review -> T {
    (r: Review) => f((pr, r))
  }

  /** The same over the reviews of all pull requests. */
  function CountReviews(prs: seq<PullRequest>, p: ((PullRequest, Review)) -> bool): nat {
    if prs == [] then 0
    else
      var pr := prs[|prs| - 1];
      CountReviews(prs[..|prs| - 1], p) + Count(pr.reviews, Under(pr, p))
  }

  function TotalOfReviews(prs: seq<PullRequest>, p: ((PullRequest, Review)) -> bool, f: ((PullRequest, Review)) -> int): int {
    if prs == [] then 0
    else
      var pr := prs[|prs| - 1];
      TotalOfReviews(prs[..|prs| - 1], p, f) + TotalOf(pr.reviews, Under(pr, p), Under(pr, f))
  }

  lemma {:induction false} Append<R>(a: seq<R>, b: seq<R>, p: R -> bool, f: R -> int)
    ensures Count(a + b, p) == Count(a, p) + Count(b, p) && TotalOf(a + b, p, f) == TotalOf(a, p, f) + TotalOf(b, p, f)
  {
    if b == [] {
      assert a + b == a;
    } else {
      Append(a, b[..|b| - 1], p, f);
      assert (a + b)[..|a + b| - 1] == a + b[..|b| - 1];
    }
  }

  function Pairs(pr: PullRequest, rs: seq<Review>): (rows: seq<(PullRequest, Review)>)
    ensures |rows| == |rs| && forall i :: 0 <= i < |rs| ==> rows[i] == (pr, rs[i])
  {
    seq(|rs|, i requires 0 <= i < |rs| => (pr, rs[i]))
  }

  lemma {:induction false} OfOne(pr: PullRequest, rs: seq<Review>, p: ((PullRequest, Review)) -> bool, f: ((PullRequest, Review)) -> int)
    ensures var rows := Pairs(pr, rs);
            Count(rows, p) == Count(rs, Under(pr, p)) && TotalOf(rows, p, f) == TotalOf(rs, Under(pr, p), Under(pr, f))
  {
    if rs != [] {
      OfOne(pr, rs[..|rs| - 1], p, f);
      assert Pairs(pr, rs)[..|rs| - 1] == Pairs(pr, rs[..|rs| - 1]);
    }
  }

  lemma {:induction false} JoinedSnoc(prs: seq<PullRequest>)
    requires prs != []
    ensures var pr := prs[|prs| - 1]; Joined(prs) == Joined(prs[..|prs| - 1]) + Pairs(pr, pr.reviews)
  {
  }

  lemma {:induction false} OfJoined(prs: seq<PullRequest>, p: ((PullRequest, Review)) -> bool, f: ((PullRequest, Review)) -> int)
    ensures Count(Joined(prs), p) == CountReviews(prs, p) && TotalOf(Joined(prs), p, f) == TotalOfReviews(prs, p, f)
  {
    if prs != [] {
      var init, pr := prs[..|prs| - 1], prs[|prs| - 1];
      OfJoined(init, p, f);
      OfOne(pr, pr.reviews, p, f);
      Append(Joined(init), Pairs(pr, pr.reviews), p, f);
      JoinedSnoc(prs);
    }
  }

  // ---------------------------------------------------------------- samples are those rows

  /** The samples are `count` in number and add up to total / scale. */
  predicate AddUp(ss: seq<Sample>, count: nat, total: int, scale: real)
    requires scale > 0.0
  {
    |ss| == count && Sum(ss) == total as real / scale
  }

  lemma {:induction false} AddQuotients(a: int, b: int, scale: real)
    requires scale > 0.0
    ensures a as real / scale + b as real / scale == (a + b) as real / scale
  {
  }

  lemma {:induction false} OneMoreAddsUp(ss: seq<Sample>, s: Sample, count: nat, total: int, x: int, scale: real)
    requires scale > 0.0 && AddUp(ss, count, total, scale) && s.value == x as real / scale
    ensures AddUp(ss + [s], count + 1, total + x, scale)
  {
    AddQuotients(total, x, scale);
    assert (ss + [s])[..|ss|] == ss;
  }

  /** The query samples exactly the rows p, at f / scale each. */
  ghost predicate SamplesRows<R(!new)>(sample: R -> Option<Sample>, p: R -> bool, f: R -> int, scale: real)
    requires scale > 0.0
  {
    forall r :: (sample(r).Some? <==> p(r)) && (p(r) ==> sample(r).value.value == f(r) as real / scale)
  }

  ghost predicate SamplesRowsOn<R(!new)>(sample: R -> Option<Sample>, day: int, p: R -> bool, f: R -> int, scale: real)
    requires scale > 0.0
  {
    forall r :: (sample(r).Some? && sample(r).value.day == day <==> p(r)) && (p(r) ==> sample(r).value.value == f(r) as real / scale)
  }

  lemma {:induction false} SamplesAddUp<R(!new)>(rows: seq<R>, sample: R -> Option<Sample>, p: R -> bool, f: R -> int, scale: real)
    requires scale > 0.0 && SamplesRows(sample, p, f, scale)
    ensures AddUp(Samples(rows, sample), Count(rows, p), TotalOf(rows, p, f), scale)
  {
    if rows != [] {
      var init, r := rows[..|rows| - 1], rows[|rows| - 1];
      SamplesAddUp(init, sample, p, f, scale);
      if p(r) { OneMoreAddsUp(Samples(init, sample), sample(r).value, Count(init, p), TotalOf(init, p, f), f(r), scale); }
    }
  }

  lemma {:induction false} SamplesOnAddUp<R(!new)>(rows: seq<R>, sample: R -> Option<Sample>, day: int, p: R -> bool, f: R -> int, scale: real)
    requires scale > 0.0 && SamplesRowsOn(sample, day, p, f, scale)
    ensures AddUp(On(Samples(rows, sample), day), Count(rows, p), TotalOf(rows, p, f), scale)
  {
    if rows != [] {
      var init, r := rows[..|rows| - 1], rows[|rows| - 1];
      SamplesOnAddUp(init, sample, day, p, f, scale);
      if p(r) { OneMoreAddsUp(On(Samples(init, sample), day), sample(r).value, Count(init, p), TotalOf(init, p, f), f(r), scale); }
      if sample(r).Some? {
        assert (Samples(init, sample) + [sample(r).value])[..|Samples(init, sample)|] == Samples(init, sample);
      }
    }
  }

  /** avg is the average of `count` values that are total / scale together, and 0 when there are none. */
  predicate IsAverage(avg: real, count: nat, total: int, scale: real) {
    if count == 0 then avg == 0.0 else avg * count as real * scale == total as real
  }

  lemma {:induction false} MeanIsAverage(ss: seq<Sample>, count: nat, total: int, scale: real)
    requires scale > 0.0 && AddUp(ss, count, total, scale)
    ensures IsAverage(Mean(ss), count, total, scale)
  {
    if count > 0 {
      assert Mean(ss) * count as real == Sum(ss);
    }
  }

  // ---------------------------------------------------------------- the raw rows of some days

  function CreatedIn(from: int, until: int): PullRequest -> bool {
    (pr: PullRequest) => IsCreated(pr, from, until)
  }

  function ReviewedIn(from: int, until: int): PullRequest -> bool {
    (pr: PullRequest) => IsCreated(pr, from, until) && HasHumanReview(pr)
  }

  function MergedIn(from: int, until: int): PullRequest -> bool {
    (pr: PullRequest) => IsMerged(pr, from, until)
  }

  function DeployedIn(status: string, from: int, until: int): Deployment -> bool {
    (d: Deployment) => IsDeployed(d, status, from, until)
  }

  function SpansIn(end: Review -> Option<int>, from: int, until: int): ((PullRequest, Review)) -> bool {
    (row: (PullRequest, Review)) => Spans(row, end(row.1), from, until)
  }

  function CycleOf(pr: PullRequest): int {
    if pr.mergedAt.Some? then pr.mergedAt.value - pr.createdAt else 0
  }

  function SpanOf(end: Review -> Option<int>): ((PullRequest, Review)) -> int {
    (row: (PullRequest, Review)) =>
      if end(row.1).Some? && row.1.requestedAt.Some? then end(row.1).value - row.1.requestedAt.value else 0
  }

  function One<R>(r: R): int { 1 }

  // The samples of a range, and of one of its days, are the rows of these days.

  lemma {:induction false} SizesAddUp(raw: Raw, b: Bounds, size: PullRequest -> int)
    ensures var prs, p := raw.pullRequests, CreatedIn(b.from, b.until);
            AddUp(Samples(prs, pr => SizeSample(b, size, pr)), Count(prs, p), TotalOf(prs, p, size), 1.0)
  {
    SamplesAddUp(raw.pullRequests, pr => SizeSample(b, size, pr), CreatedIn(b.from, b.until), size, 1.0);
  }

  lemma {:induction false} SizesOnAddUp(raw: Raw, b: Bounds, day: int, size: PullRequest -> int)
    requires b.from <= day < b.until
    ensures var prs, p := raw.pullRequests, CreatedIn(day, day + 1);
            AddUp(On(Samples(prs, pr => SizeSample(b, size, pr)), day), Count(prs, p), TotalOf(prs, p, size), 1.0)
  {
    SamplesOnAddUp(raw.pullRequests, pr => SizeSample(b, size, pr), day, CreatedIn(day, day + 1), size, 1.0);
  }

  lemma {:induction false} SpanSampleIs(b: Bounds, end: Review -> Option<int>, row: (PullRequest, Review))
    ensures SpanSample(b, end, row) ==
            if Spans(row, end(row.1), b.from, b.until)
            then Some(Sample(DayOf(row.0.createdAt), SpanOf(end)(row) as real / 60_000_000.0)) else None
  {
    var (pr, rev) := row;
  }

  lemma {:induction false} SpansAddUp(raw: Raw, b: Bounds, end: Review -> Option<int>)
    ensures var prs, p := raw.pullRequests, SpansIn(end, b.from, b.until);
            AddUp(Samples(Joined(prs), row => SpanSample(b, end, row)), CountReviews(prs, p), TotalOfReviews(prs, p, SpanOf(end)), 60_000_000.0)
  {
    forall row: (PullRequest, Review) { SpanSampleIs(b, end, row); }
    SamplesAddUp(Joined(raw.pullRequests), row => SpanSample(b, end, row), SpansIn(end, b.from, b.until), SpanOf(end), 60_000_000.0);
    OfJoined(raw.pullRequests, SpansIn(end, b.from, b.until), SpanOf(end));
  }

  lemma {:induction false} SpansOnAddUp(raw: Raw, b: Bounds, day: int, end: Review -> Option<int>)
    requires b.from <= day < b.until
    ensures var prs, p := raw.pullRequests, SpansIn(end, day, day + 1);
            AddUp(On(Samples(Joined(prs), row => SpanSample(b, end, row)), day),
                  CountReviews(prs, p), TotalOfReviews(prs, p, SpanOf(end)), 60_000_000.0)
  {
    forall row: (PullRequest, Review) { SpanSampleIs(b, end, row); }
    SamplesOnAddUp(Joined(raw.pullRequests), row => SpanSample(b, end, row), day, SpansIn(end, day, day + 1), SpanOf(end), 60_000_000.0);
    OfJoined(raw.pullRequests, SpansIn(end, day, day + 1), SpanOf(end));
  }

  lemma {:induction false} CyclesAddUp(raw: Raw, b: Bounds)
    ensures var prs, p := raw.pullRequests, MergedIn(b.from, b.until);
            AddUp(Samples(prs, pr => CycleSample(b, pr)), Count(prs, p), TotalOf(prs, p, CycleOf), 60_000_000.0)
  {
    SamplesAddUp(raw.pullRequests, pr => CycleSample(b, pr), MergedIn(b.from, b.until), CycleOf, 60_000_000.0);
  }

  lemma {:induction false} CyclesOnAddUp(raw: Raw, b: Bounds, day: int)
    requires b.from <= day < b.until
    ensures var prs, p := raw.pullRequests, MergedIn(day, day + 1);
            AddUp(On(Samples(prs, pr => CycleSample(b, pr)), day), Count(prs, p), TotalOf(prs, p, CycleOf), 60_000_000.0)
  {
    SamplesOnAddUp(raw.pullRequests, pr => CycleSample(b, pr), day, MergedIn(day, day + 1), CycleOf, 60_000_000.0);
  }

  lemma {:induction false} ReviewedAddUp(raw: Raw, b: Bounds)
    ensures |Samples(raw.pullRequests, pr => ReviewedSample(b, pr))| == Count(raw.pullRequests, ReviewedIn(b.from, b.until))
  {
    SamplesAddUp(raw.pullRequests, pr => ReviewedSample(b, pr), ReviewedIn(b.from, b.until), One, 1.0);
  }

  lemma {:induction false} ReviewedOnAddUp(raw: Raw, b: Bounds, day: int)
    requires b.from <= day < b.until
    ensures |On(Samples(raw.pullRequests, pr => ReviewedSample(b, pr)), day)| == Count(raw.pullRequests, ReviewedIn(day, day + 1))
  {
    SamplesOnAddUp(raw.pullRequests, pr => ReviewedSample(b, pr), day, ReviewedIn(day, day + 1), One, 1.0);
  }

  lemma {:induction false} DeployedAddUp(raw: Raw, b: Bounds, status: string)
    ensures |Samples(raw.deployments, d => StatusSample(b, status, d))| == Count(raw.deployments, DeployedIn(status, b.from, b.until))
  {
    SamplesAddUp(raw.deployments, d => StatusSample(b, status, d), DeployedIn(status, b.from, b.until), One, 1.0);
  }

  lemma {:induction false} DeployedOnAddUp(raw: Raw, b: Bounds, day: int, status: string)
    requires b.from <= day < b.until
    ensures |On(Samples(raw.deployments, d => StatusSample(b, status, d)), day)| == Count(raw.deployments, DeployedIn(status, day, day + 1))
  {
    SamplesOnAddUp(raw.deployments, d => StatusSample(b, status, d), day, DeployedIn(status, day, day + 1), One, 1.0);
  }

  // ---------------------------------------------------------------- the dashboard and the daily records

  /** The average of some size over the pull requests created in these days. */
  predicate IsAverageSize(avg: real, prs: seq<PullRequest>, size: PullRequest -> int, from: int, until: int) {
    IsAverage(avg, Count(prs, CreatedIn(from, until)), TotalOf(prs, CreatedIn(from, until), size), 1.0)
  }

  /** The average time in minutes from creation to merge over the pull requests merged in these days. */
  predicate IsCycleTime(avg: real, prs: seq<PullRequest>, from: int, until: int) {
    IsAverage(avg, Count(prs, MergedIn(from, until)), TotalOf(prs, MergedIn(from, until), CycleOf), 60_000_000.0)
  }

  /** The average time in minutes from a review's request to its end over the reviews of pull requests created in these days. */
  predicate IsReviewTime(avg: real, prs: seq<PullRequest>, end: Review -> Option<int>, from: int, until: int) {
    IsAverage(avg, CountReviews(prs, SpansIn(end, from, until)), TotalOfReviews(prs, SpansIn(end, from, until), SpanOf(end)), 60_000_000.0)
  }

  /** part / whole, and 0 of nothing. */
  predicate IsShare(share: real, part: int, whole: int) {
    if whole > 0 then share * whole as real == part as real else share == 0.0
  }

  predicate AreShares(s: Summary, successful: int, failed: int, reviewed: int, created: int, dayCount: int) {
    IsShare(s.deploymentFrequency, successful, dayCount) &&
    IsShare(s.changeFailureRate, failed, successful + failed) &&
    IsShare(s.reviewCoverage, reviewed, created)
  }

  lemma {:induction false} CycleFromRaw(raw: Raw, b: Bounds)
    ensures IsCycleTime(Mean(Select(raw, b).cycles), raw.pullRequests, b.from, b.until)
  {
    CyclesAddUp(raw, b);
    MeanIsAverage(Select(raw, b).cycles, Count(raw.pullRequests, MergedIn(b.from, b.until)),
                  TotalOf(raw.pullRequests, MergedIn(b.from, b.until), CycleOf), 60_000_000.0);
  }

  lemma {:induction false} WaitFromRaw(raw: Raw, b: Bounds)
    ensures IsReviewTime(Mean(Select(raw, b).waits), raw.pullRequests, (r: Review) => r.firstReviewAt, b.from, b.until)
  {
    var prs, end := raw.pullRequests, (r: Review) => r.firstReviewAt;
    SpansAddUp(raw, b, end);
    MeanIsAverage(Select(raw, b).waits, CountReviews(prs, SpansIn(end, b.from, b.until)),
                  TotalOfReviews(prs, SpansIn(end, b.from, b.until), SpanOf(end)), 60_000_000.0);
  }

  lemma {:induction false} RatioIsShare(part: int, whole: int)
    ensures IsShare(Ratio(part, whole), part, whole)
  {
  }

  lemma {:induction false} SharesFromRaw(raw: Raw, b: Bounds, dayCount: int)
    ensures var s, prs, ds := Direct(Select(raw, b), dayCount), raw.pullRequests, raw.deployments;
            AreShares(s, Count(ds, DeployedIn("success", b.from, b.until)), Count(ds, DeployedIn("failed", b.from, b.until)),
                      Count(prs, ReviewedIn(b.from, b.until)), Count(prs, CreatedIn(b.from, b.until)), dayCount)
  {
    var x := Select(raw, b);
    DeployedAddUp(raw, b, "success");
    DeployedAddUp(raw, b, "failed");
    ReviewedAddUp(raw, b);
    SizesAddUp(raw, b, (p: PullRequest) => 1);
    RatioIsShare(|x.successes|, dayCount);
    RatioIsShare(|x.failures|, |x.successes| + |x.failures|);
    RatioIsShare(|x.reviewed|, |x.sizes|);
  }

  predicate IsSummaryOf(s: Summary, raw: Raw, b: Bounds, dayCount: int) {
    var prs, ds := raw.pullRequests, raw.deployments;
    IsCycleTime(s.cycleTime, prs, b.from, b.until) &&
    IsReviewTime(s.reviewWait, prs, (r: Review) => r.firstReviewAt, b.from, b.until) &&
    AreShares(s, Count(ds, DeployedIn("success", b.from, b.until)), Count(ds, DeployedIn("failed", b.from, b.until)),
              Count(prs, ReviewedIn(b.from, b.until)), Count(prs, CreatedIn(b.from, b.until)), dayCount)
  }

  /** The dashboard's five figures, as computed from daily records, in terms of the raw rows. */
  lemma {:induction false} SummaryFromRaw(raw: Raw, b: Bounds, dayCount: int)
    requires b.Valid()
    ensures IsSummaryOf(Summarized(DailyRows(Select(raw, b), b), dayCount), raw, b, dayCount)
  {
    SummaryIsDirect(raw, b, dayCount);
    CycleFromRaw(raw, b);
    WaitFromRaw(raw, b);
    SharesFromRaw(raw, b, dayCount);
  }

  /** The same when the records were stored by any roll-ups that together cover the range. */
  lemma {:induction false} StoredSummaryFromRaw(table: map<int, DailyMetric>, raw: Raw, bs: seq<Bounds>, b: Bounds, dayCount: int)
    requires b.Valid() && forall i :: 0 <= i < |bs| ==> bs[i].Valid()
    requires forall d :: CoversDay(b, d) ==> SomeCovers(bs, d)
    ensures IsSummaryOf(Summarized(Listed(Refreshed(table, RollUpsOf(raw), bs), b), dayCount), raw, b, dayCount)
  {
    StoredSummaryIsDirect(table, raw, bs, b, dayCount);
    SummaryFromRaw(raw, b, dayCount);
  }

  lemma {:induction false} SizeFromRaw(raw: Raw, b: Bounds, size: PullRequest -> int)
    ensures IsAverageSize(Mean(Samples(raw.pullRequests, pr => SizeSample(b, size, pr))), raw.pullRequests, size, b.from, b.until)
  {
    SizesAddUp(raw, b, size);
    MeanIsAverage(Samples(raw.pullRequests, pr => SizeSample(b, size, pr)), Count(raw.pullRequests, CreatedIn(b.from, b.until)),
                  TotalOf(raw.pullRequests, CreatedIn(b.from, b.until), size), 1.0);
  }

  /** And the average sizes and the review time. */
  lemma {:induction false} AveragesFromRaw(raw: Raw, b: Bounds)
    requires b.Valid()
    ensures var rows, prs := DailyRows(Select(raw, b), b), raw.pullRequests;
            IsAverageSize(Recombined(Column(rows, Files)), prs, (p: PullRequest) => p.filesChanged, b.from, b.until) &&
            IsAverageSize(Recombined(Column(rows, Additions)), prs, (p: PullRequest) => p.additions, b.from, b.until) &&
            IsAverageSize(Recombined(Column(rows, Deletions)), prs, (p: PullRequest) => p.deletions, b.from, b.until) &&
            IsReviewTime(Recombined(Column(rows, ReviewTime)), prs, (r: Review) => r.submittedAt, b.from, b.until)
  {
    var prs, end := raw.pullRequests, (r: Review) => r.submittedAt;
    AveragesAreDirect(raw, b);
    SizeFromRaw(raw, b, (p: PullRequest) => p.filesChanged);
    SizeFromRaw(raw, b, (p: PullRequest) => p.additions);
    SizeFromRaw(raw, b, (p: PullRequest) => p.deletions);
    SpansAddUp(raw, b, end);
    MeanIsAverage(Select(raw, b).times, CountReviews(prs, SpansIn(end, b.from, b.until)),
                  TotalOfReviews(prs, SpansIn(end, b.from, b.until), SpanOf(end)), 60_000_000.0);
  }

  // One day's record.

  predicate SizesOf(row: DailyMetric, prs: seq<PullRequest>, day: int) {
    row.prCount == Count(prs, CreatedIn(day, day + 1)) && row.reviewedPRCount == Count(prs, ReviewedIn(day, day + 1)) &&
    IsAverageSize(row.averageFilesChanged, prs, (p: PullRequest) => p.filesChanged, day, day + 1) &&
    IsAverageSize(row.averageAdditions, prs, (p: PullRequest) => p.additions, day, day + 1) &&
    IsAverageSize(row.averageDeletions, prs, (p: PullRequest) => p.deletions, day, day + 1) &&
    IsShare(row.reviewCoverage, row.reviewedPRCount, row.prCount)
  }

  predicate TimesOf(row: DailyMetric, prs: seq<PullRequest>, day: int) {
    row.cycle.count == Count(prs, MergedIn(day, day + 1)) && IsCycleTime(row.cycle.average, prs, day, day + 1) &&
    row.reviewWait.count == CountReviews(prs, SpansIn((r: Review) => r.firstReviewAt, day, day + 1)) &&
    IsReviewTime(row.reviewWait.average, prs, (r: Review) => r.firstReviewAt, day, day + 1) &&
    row.reviewTime.count == CountReviews(prs, SpansIn((r: Review) => r.submittedAt, day, day + 1)) &&
    IsReviewTime(row.reviewTime.average, prs, (r: Review) => r.submittedAt, day, day + 1)
  }

  predicate DeploymentsOf(row: DailyMetric, ds: seq<Deployment>, day: int) {
    row.successful == Count(ds, DeployedIn("success", day, day + 1)) && row.failed == Count(ds, DeployedIn("failed", day, day + 1)) &&
    row.deploymentFrequency == row.successful as real && IsShare(row.changeFailureRate, row.failed, row.successful + row.failed)
  }

  lemma {:induction false} SizeOnFromRaw(raw: Raw, b: Bounds, day: int, size: PullRequest -> int)
    requires b.from <= day < b.until
    ensures IsAverageSize(Mean(On(Samples(raw.pullRequests, pr => SizeSample(b, size, pr)), day)), raw.pullRequests, size, day, day + 1)
  {
    SizesOnAddUp(raw, b, day, size);
    MeanIsAverage(On(Samples(raw.pullRequests, pr => SizeSample(b, size, pr)), day), Count(raw.pullRequests, CreatedIn(day, day + 1)),
                  TotalOf(raw.pullRequests, CreatedIn(day, day + 1), size), 1.0);
  }

  lemma {:induction false} SpanOnFromRaw(raw: Raw, b: Bounds, day: int, end: Review -> Option<int>)
    requires b.from <= day < b.until
    ensures var m := MeanOn(Samples(Joined(raw.pullRequests), row => SpanSample(b, end, row)), day);
            m.count == CountReviews(raw.pullRequests, SpansIn(end, day, day + 1)) &&
            IsReviewTime(m.average, raw.pullRequests, end, day, day + 1)
  {
    var prs, p := raw.pullRequests, SpansIn(end, day, day + 1);
    SpansOnAddUp(raw, b, day, end);
    MeanIsAverage(On(Samples(Joined(prs), row => SpanSample(b, end, row)), day), CountReviews(prs, p),
                  TotalOfReviews(prs, p, SpanOf(end)), 60_000_000.0);
  }

  lemma {:induction false} CycleOnFromRaw(raw: Raw, b: Bounds, day: int)
    requires b.from <= day < b.until
    ensures var m := MeanOn(Samples(raw.pullRequests, pr => CycleSample(b, pr)), day);
            m.count == Count(raw.pullRequests, MergedIn(day, day + 1)) && IsCycleTime(m.average, raw.pullRequests, day, day + 1)
  {
    var prs, p := raw.pullRequests, MergedIn(day, day + 1);
    CyclesOnAddUp(raw, b, day);
    MeanIsAverage(On(Samples(prs, pr => CycleSample(b, pr)), day), Count(prs, p), TotalOf(prs, p, CycleOf), 60_000_000.0);
  }

  lemma {:induction false} SizesFromRaw(raw: Raw, b: Bounds, day: int)
    requires b.from <= day < b.until
    ensures SizesOf(WithCoverage(Assigned(Select(raw, b), day)), raw.pullRequests, day)
  {
    SizesOnAddUp(raw, b, day, (p: PullRequest) => 1);
    ReviewedOnAddUp(raw, b, day);
    SizeOnFromRaw(raw, b, day, (p: PullRequest) => p.filesChanged);
    SizeOnFromRaw(raw, b, day, (p: PullRequest) => p.additions);
    SizeOnFromRaw(raw, b, day, (p: PullRequest) => p.deletions);
    RatioIsShare(Assigned(Select(raw, b), day).reviewedPRCount, Assigned(Select(raw, b), day).prCount);
  }

  lemma {:induction false} TimesFromRaw(raw: Raw, b: Bounds, day: int)
    requires b.from <= day < b.until
    ensures TimesOf(WithCoverage(Assigned(Select(raw, b), day)), raw.pullRequests, day)
  {
    CycleOnFromRaw(raw, b, day);
    SpanOnFromRaw(raw, b, day, (r: Review) => r.firstReviewAt);
    SpanOnFromRaw(raw, b, day, (r: Review) => r.submittedAt);
  }

  lemma {:induction false} DeploymentsAssigned(x: Selected, item: DailyMetric, day: int)
    requires item.changeFailureRate == 0.0
    ensures var row := WithCoverage(AssignDeployments(x, item, day));
            row.successful == |On(x.successes, day)| && row.failed == |On(x.failures, day)| &&
            row.deploymentFrequency == row.successful as real && IsShare(row.changeFailureRate, row.failed, row.successful + row.failed)
  {
    RatioIsShare(|On(x.failures, day)|, |On(x.successes, day)| + |On(x.failures, day)|);
  }

  lemma {:induction false} DeploymentsOnDay(x: Selected, day: int)
    ensures var row := WithCoverage(Assigned(x, day));
            row.successful == |On(x.successes, day)| && row.failed == |On(x.failures, day)| &&
            row.deploymentFrequency == row.successful as real && IsShare(row.changeFailureRate, row.failed, row.successful + row.failed)
  {
    DeploymentsAssigned(x, AssignReview(x, AssignCycle(x, AssignSize(x, Blank(day), day), day), day), day);
  }

  lemma {:induction false} DeploymentsFromRaw(raw: Raw, b: Bounds, day: int, row: DailyMetric)
    requires b.from <= day < b.until && row == WithCoverage(Assigned(Select(raw, b), day))
    ensures DeploymentsOf(row, raw.deployments, day)
  {
    DeploymentsOnDay(Select(raw, b), day);
    DeployedOnAddUp(raw, b, day, "success");
    DeployedOnAddUp(raw, b, day, "failed");
  }

  predicate IsRecordOf(row: DailyMetric, raw: Raw, day: int) {
    row.date == day && SizesOf(row, raw.pullRequests, day) && TimesOf(row, raw.pullRequests, day) && DeploymentsOf(row, raw.deployments, day)
  }

  lemma {:induction false} AssignedDate(x: Selected, day: int)
    ensures WithCoverage(Assigned(x, day)).date == day
  {
  }

  /** Each daily record holds its day's counts and averages, and no measure another's. */
  lemma {:induction false} RowFromRaw(raw: Raw, b: Bounds, day: int, row: DailyMetric)
    requires b.Valid() && b.from <= day < b.until && row == DailyRows(Select(raw, b), b)[day - b.from]
    ensures IsRecordOf(row, raw, day)
  {
    var x := Select(raw, b);
    assert row == WithCoverage(Assigned(x, day));
    AssignedDate(x, day);
    SizesFromRaw(raw, b, day);
    TimesFromRaw(raw, b, day);
    DeploymentsFromRaw(raw, b, day, row);
  }
}
