/** The daily roll-up of raw pull requests, reviews and deployments, and the dashboard summary made from it.
    Timestamps are microseconds, days count from the epoch, averages are reals. */
module DailyMetrics {
  import opened Sql
  import opened DayMeans

  const DAY: int := 86_400_000_000
  const MINUTE: real := 60_000_000.0

  /** DATE(t AT TIME ZONE 'UTC'). */
  function DayOf(t: int): int { t / DAY }

  datatype Review = Review(requestedAt: Option<int>, firstReviewAt: Option<int>, submittedAt: Option<int>, byHuman: bool)

  datatype PullRequest = PullRequest(createdAt: int, mergedAt: Option<int>, isDraft: bool,
                                     filesChanged: int, additions: int, deletions: int, reviews: seq<Review>)

  datatype Deployment = Deployment(status: string, deployedAt: int)

  /** The days from..until-1; never empty. */
  datatype Bounds = Bounds(from: int, until: int)
  {
    predicate Valid() { from < until }

    /** t >= From AND t < ToExclusive. */
    predicate Covers(t: int) { from * DAY <= t < until * DAY }
  }

  /** The days of a requested range; None for a missing end or an empty range, which is refused. */
  function NormalizeBounds(from: Option<int>, end: Option<int>): (b: Option<Bounds>)
    ensures b.Some? ==> b.value.Valid()
  {
    if from.None? || end.None? || DayOf(end.value) < DayOf(from.value) then None
    else Some(Bounds(DayOf(from.value), DayOf(end.value) + 1))
  }

  // ---------------------------------------------------------------- the qualifying raw rows

  function Minutes(start: int, end: int): real {
    (end - start) as real / MINUTE
  }

  /** The rows a query's WHERE clause keeps, as (day, value). */
  function Samples<R>(rows: seq<R>, sample: R -> Option<Sample>): seq<Sample> {
    if rows == [] then []
    else
      match sample(rows[|rows| - 1])
      case None => Samples(rows[..|rows| - 1], sample)
      case Some(s) => Samples(rows[..|rows| - 1], sample) + [s]
  }

  function CycleSample(b: Bounds, pr: PullRequest): Option<Sample> {
    if pr.mergedAt.Some? && b.Covers(pr.mergedAt.value) && !pr.isDraft && pr.mergedAt.value >= pr.createdAt
    then Some(Sample(DayOf(pr.mergedAt.value), Minutes(pr.createdAt, pr.mergedAt.value)))
    else None
  }

  function SizeSample(b: Bounds, size: PullRequest -> int, pr: PullRequest): Option<Sample> {
    if b.Covers(pr.createdAt) && !pr.isDraft then Some(Sample(DayOf(pr.createdAt), size(pr) as real)) else None
  }

  predicate Reviewed(pr: PullRequest) {
    exists i :: 0 <= i < |pr.reviews| && pr.reviews[i].byHuman
  }

  function ReviewedSample(b: Bounds, pr: PullRequest): Option<Sample> {
    if Reviewed(pr) then SizeSample(b, (p: PullRequest) => 1, pr) else None
  }

  /** From the request of a review to `end`, for requests made after the pull request was created. */
  function SpanSample(b: Bounds, end: Review -> Option<int>, row: (PullRequest, Review)): Option<Sample> {
    var (pr, rev) := row;
    if b.Covers(pr.createdAt) && !pr.isDraft && rev.byHuman && rev.requestedAt.Some? && end(rev).Some? &&
       end(rev).value >= rev.requestedAt.value && rev.requestedAt.value >= pr.createdAt
    then Some(Sample(DayOf(pr.createdAt), Minutes(rev.requestedAt.value, end(rev).value)))
    else None
  }

  function StatusSample(b: Bounds, status: string, d: Deployment): Option<Sample> {
    if b.Covers(d.deployedAt) && d.status == status then Some(Sample(DayOf(d.deployedAt), 1.0)) else None
  }

  function Joined(prs: seq<PullRequest>): seq<(PullRequest, Review)> {
    if prs == [] then []
    else
      var pr := prs[|prs| - 1];
      Joined(prs[..|prs| - 1]) + seq(|pr.reviews|, i requires 0 <= i < |pr.reviews| => (pr, pr.reviews[i]))
  }

  datatype Raw = Raw(pullRequests: seq<PullRequest>, deployments: seq<Deployment>)

  /** What the queries select, measure by measure. */
  datatype Selected = Selected(
    sizes: seq<Sample>, reviewed: seq<Sample>, files: seq<Sample>, additions: seq<Sample>, deletions: seq<Sample>,
    cycles: seq<Sample>, waits: seq<Sample>, times: seq<Sample>, successes: seq<Sample>, failures: seq<Sample>)

  function Select(raw: Raw, b: Bounds): Selected {
    var prs, joined := raw.pullRequests, Joined(raw.pullRequests);
    Selected(
      Samples(prs, pr => SizeSample(b, (p: PullRequest) => 1, pr)),
      Samples(prs, pr => ReviewedSample(b, pr)),
      Samples(prs, pr => SizeSample(b, (p: PullRequest) => p.filesChanged, pr)),
      Samples(prs, pr => SizeSample(b, (p: PullRequest) => p.additions, pr)),
      Samples(prs, pr => SizeSample(b, (p: PullRequest) => p.deletions, pr)),
      Samples(prs, pr => CycleSample(b, pr)),
      Samples(joined, row => SpanSample(b, (r: Review) => r.firstReviewAt, row)),
      Samples(joined, row => SpanSample(b, (r: Review) => r.submittedAt, row)),
      Samples(raw.deployments, d => StatusSample(b, "success", d)),
      Samples(raw.deployments, d => StatusSample(b, "failed", d)))
  }

  lemma {:induction false} SamplesWithin<R>(b: Bounds, rows: seq<R>, sample: R -> Option<Sample>)
    requires forall r :: sample(r).Some? ==> b.from <= sample(r).value.day < b.until
    ensures forall i :: 0 <= i < |Samples(rows, sample)| ==> b.from <= Samples(rows, sample)[i].day < b.until
  {
    if rows != [] { SamplesWithin(b, rows[..|rows| - 1], sample); }
  }

  // ---------------------------------------------------------------- the roll-up

  datatype DailyMetric = DailyMetric(
    date: int, prCount: int, reviewedPRCount: int, averageFilesChanged: real, averageAdditions: real, averageDeletions: real,
    cycle: DayMean, reviewWait: DayMean, reviewTime: DayMean,
    successful: int, failed: int, deploymentFrequency: real, changeFailureRate: real, reviewCoverage: real)

  function Blank(day: int): DailyMetric {
    DailyMetric(day, 0, 0, 0.0, 0.0, 0.0, DayMean(0, 0.0), DayMean(0, 0.0), DayMean(0, 0.0), 0, 0, 0.0, 0.0, 0.0)
  }

  function Ratio(a: int, b: int): real {
    if b > 0 then a as real / b as real else 0.0
  }

  // One row of each query, assigned to the item of its day.

  function AssignSize(x: Selected, item: DailyMetric, day: int): DailyMetric {
    item.(prCount := |On(x.sizes, day)|,
          reviewedPRCount := |On(x.reviewed, day)|,
          averageFilesChanged := Mean(On(x.files, day)),
          averageAdditions := Mean(On(x.additions, day)),
          averageDeletions := Mean(On(x.deletions, day)))
  }

  function AssignCycle(x: Selected, item: DailyMetric, day: int): DailyMetric {
    item.(cycle := MeanOn(x.cycles, day))
  }

  function AssignReview(x: Selected, item: DailyMetric, day: int): DailyMetric {
    item.(reviewWait := MeanOn(x.waits, day), reviewTime := MeanOn(x.times, day))
  }

  function AssignDeployments(x: Selected, item: DailyMetric, day: int): DailyMetric {
    var successful, failed := |On(x.successes, day)|, |On(x.failures, day)|;
    item.(successful := successful, failed := failed, deploymentFrequency := successful as real,
          changeFailureRate := if successful + failed > 0 then Ratio(failed, successful + failed) else item.changeFailureRate)
  }

  function Assigned(x: Selected, day: int): DailyMetric {
    AssignDeployments(x, AssignReview(x, AssignCycle(x, AssignSize(x, Blank(day), day), day), day), day)
  }

  function WithCoverage(item: DailyMetric): DailyMetric {
    if item.prCount > 0 then item.(reviewCoverage := Ratio(item.reviewedPRCount, item.prCount)) else item
  }

  /** What the roll-up says about each day, read off the selected rows. */
  function DailyRows(x: Selected, b: Bounds): (rows: seq<DailyMetric>)
    requires b.Valid()
    ensures |rows| == b.until - b.from && forall i :: 0 <= i < |rows| ==> rows[i] == WithCoverage(Assigned(x, b.from + i))
  {
    seq(b.until - b.from, i requires 0 <= i < b.until - b.from => WithCoverage(Assigned(x, b.from + i)))
  }

  /** The days of a grouped query's rows, in order. */
  function GroupDays(present: int -> bool, b: Bounds): (days: seq<int>)
    ensures forall i :: 0 <= i < |days| ==> b.from <= days[i] < b.until && present(days[i])
    ensures forall d :: b.from <= d < b.until && present(d) ==> d in days
    ensures forall i, j :: 0 <= i < j < |days| ==> days[i] < days[j]
    decreases b.until - b.from
  {
    if b.from >= b.until then []
    else
      var before := GroupDays(present, Bounds(b.from, b.until - 1));
      if present(b.until - 1) then before + [b.until - 1] else before
  }

  /** One loop over a query's rows: they carry values for the days some raw row falls on; on the other days
      assigning would change nothing. */
  method AssignRows(metrics: map<int, DailyMetric>, b: Bounds, present: int -> bool, assign: (DailyMetric, int) -> DailyMetric)
    returns (result: map<int, DailyMetric>)
    requires forall d :: d in metrics <==> b.from <= d < b.until
    requires forall d :: b.from <= d < b.until && !present(d) ==> assign(metrics[d], d) == metrics[d]
    ensures result.Keys == metrics.Keys
    ensures forall d :: b.from <= d < b.until ==> result[d] == assign(metrics[d], d)
  {
    result := metrics;
    var days := GroupDays(present, b);
    for k := 0 to |days|
      invariant result.Keys == metrics.Keys
      invariant forall d :: b.from <= d < b.until ==> result[d] == if d in days[..k] then assign(metrics[d], d) else metrics[d]
    {
      var day := days[k];
      assert day !in days[..k];
      result := result[day := assign(result[day], day)];
    }
    assert days[..|days|] == days;
  }

  predicate CreatedOn(raw: Raw, b: Bounds, day: int) {
    exists i :: 0 <= i < |raw.pullRequests| && Counted(b, raw.pullRequests[i]) && DayOf(raw.pullRequests[i].createdAt) == day
  }

  predicate Counted(b: Bounds, pr: PullRequest) {
    b.Covers(pr.createdAt) && !pr.isDraft
  }

  predicate DeployedOn(raw: Raw, b: Bounds, day: int) {
    exists i :: 0 <= i < |raw.deployments| && b.Covers(raw.deployments[i].deployedAt) && DayOf(raw.deployments[i].deployedAt) == day
  }

  lemma {:induction false} NoneOn<R>(rows: seq<R>, sample: R -> Option<Sample>, day: int)
    requires forall i :: 0 <= i < |rows| && sample(rows[i]).Some? ==> sample(rows[i]).value.day != day
    ensures On(Samples(rows, sample), day) == []
  {
    if rows != [] { NoneOn(rows[..|rows| - 1], sample, day); }
  }

  lemma {:induction false} JoinedIs(prs: seq<PullRequest>)
    ensures forall i :: 0 <= i < |Joined(prs)| ==> Joined(prs)[i].0 in prs
  {
    if prs != [] { JoinedIs(prs[..|prs| - 1]); }
  }

  lemma {:induction false} NothingCreated(raw: Raw, b: Bounds, day: int)
    requires !CreatedOn(raw, b, day)
    ensures var x := Select(raw, b);
            On(x.sizes, day) == [] && On(x.reviewed, day) == [] && On(x.files, day) == [] && On(x.additions, day) == [] &&
            On(x.deletions, day) == [] && On(x.waits, day) == [] && On(x.times, day) == []
  {
    var prs, joined := raw.pullRequests, Joined(raw.pullRequests);
    NoneOn(prs, pr => SizeSample(b, (p: PullRequest) => 1, pr), day);
    NoneOn(prs, pr => ReviewedSample(b, pr), day);
    NoneOn(prs, pr => SizeSample(b, (p: PullRequest) => p.filesChanged, pr), day);
    NoneOn(prs, pr => SizeSample(b, (p: PullRequest) => p.additions, pr), day);
    NoneOn(prs, pr => SizeSample(b, (p: PullRequest) => p.deletions, pr), day);
    JoinedIs(prs);
    forall i | 0 <= i < |joined| && Counted(b, joined[i].0) ensures DayOf(joined[i].0.createdAt) != day {
      var k :| 0 <= k < |prs| && prs[k] == joined[i].0;
    }
    NoneOn(joined, row => SpanSample(b, (r: Review) => r.firstReviewAt, row), day);
    NoneOn(joined, row => SpanSample(b, (r: Review) => r.submittedAt, row), day);
  }

  lemma {:induction false} NothingDeployed(raw: Raw, b: Bounds, day: int)
    requires !DeployedOn(raw, b, day)
    ensures On(Select(raw, b).successes, day) == [] && On(Select(raw, b).failures, day) == []
  {
    NoneOn(raw.deployments, d => StatusSample(b, "success", d), day);
    NoneOn(raw.deployments, d => StatusSample(b, "failed", d), day);
  }

  /** Days on which a query has no row: what it selects there is nothing. */
  ghost predicate NothingElsewhere(x: Selected, created: int -> bool, deployed: int -> bool) {
    (forall d :: !created(d) ==> AssignSize(x, Blank(d), d) == Blank(d)) &&
    (forall d :: !created(d) ==> MeanOn(x.waits, d) == DayMean(0, 0.0) && MeanOn(x.times, d) == DayMean(0, 0.0)) &&
    (forall d :: !deployed(d) ==> On(x.successes, d) == [] && On(x.failures, d) == [])
  }

  lemma {:induction false} SelectsNothingElsewhere(raw: Raw, b: Bounds)
    ensures NothingElsewhere(Select(raw, b), d => CreatedOn(raw, b, d), d => DeployedOn(raw, b, d))
  {
    var x := Select(raw, b);
    forall d | !CreatedOn(raw, b, d)
      ensures AssignSize(x, Blank(d), d) == Blank(d) && MeanOn(x.waits, d) == DayMean(0, 0.0) && MeanOn(x.times, d) == DayMean(0, 0.0)
    {
      NothingCreated(raw, b, d);
    }
    forall d | !DeployedOn(raw, b, d) ensures On(x.successes, d) == [] && On(x.failures, d) == [] {
      NothingDeployed(raw, b, d);
    }
  }

  method BlankRows(b: Bounds) returns (metrics: map<int, DailyMetric>)
    requires b.Valid()
    ensures forall d :: d in metrics <==> b.from <= d < b.until
    ensures forall d :: d in metrics ==> metrics[d] == Blank(d)
  {
    metrics := map[];
    for day := b.from to b.until
      invariant forall d :: d in metrics <==> b.from <= d < day
      invariant forall d :: d in metrics ==> metrics[d] == Blank(d)
    {
      metrics := metrics[day := Blank(day)];
    }
  }

  method ListRows(b: Bounds, metrics: map<int, DailyMetric>) returns (rows: seq<DailyMetric>)
    requires b.Valid() && forall d :: d in metrics <==> b.from <= d < b.until
    ensures |rows| == b.until - b.from && forall i :: 0 <= i < |rows| ==> rows[i] == WithCoverage(metrics[b.from + i])
  {
    rows := [];
    for day := b.from to b.until
      invariant |rows| == day - b.from
      invariant forall i :: 0 <= i < |rows| ==> rows[i] == WithCoverage(metrics[b.from + i])
    {
      rows := rows + [WithCoverage(metrics[day])];
    }
  }

  method FillMetrics(x: Selected, b: Bounds, created: int -> bool, deployed: int -> bool) returns (metrics: map<int, DailyMetric>)
    requires b.Valid() && NothingElsewhere(x, created, deployed)
    ensures forall d :: d in metrics <==> b.from <= d < b.until
    ensures forall d :: d in metrics ==> metrics[d] == Assigned(x, d)
  {
    metrics := BlankRows(b);
    metrics := AssignRows(metrics, b, created, (item, d) => AssignSize(x, item, d));
    metrics := AssignRows(metrics, b, d => On(x.cycles, d) != [], (item, d) => AssignCycle(x, item, d));
    metrics := AssignRows(metrics, b, created, (item, d) => AssignReview(x, item, d));
    metrics := AssignRows(metrics, b, deployed, (item, d) => AssignDeployments(x, item, d));
  }

  /** The roll-up of raw rows into one record a day. */
  method BuildDailyMetrics(raw: Raw, b: Bounds) returns (rows: seq<DailyMetric>)
    requires b.Valid()
    ensures rows == DailyRows(Select(raw, b), b)
  {
    SelectsNothingElsewhere(raw, b);
    var x := Select(raw, b);
    var metrics := FillMetrics(x, b, d => CreatedOn(raw, b, d), d => DeployedOn(raw, b, d));
    rows := ListRows(b, metrics);
  }
}
