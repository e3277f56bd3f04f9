/** The dashboard summary and the pull request averages: computed from daily averages, equal to a direct scan. */
module MetricsSummary {
  import opened DayMeans
  import opened DailyMetrics

  // ---------------------------------------------------------------- day counts

  /** 1970-01-01 was a Thursday; 0 is Sunday. */
  function Weekday(day: int): int { (day + 4) % 7 }

  predicate IsBusinessDay(day: int) { Weekday(day) != 6 && Weekday(day) != 0 }

  function BusinessDays(from: int, until: int): nat
    decreases until - from
  {
    if from >= until then 0 else BusinessDays(from, until - 1) + if IsBusinessDay(until - 1) then 1 else 0
  }

  method DayCount(b: Bounds, business: bool) returns (count: int)
    requires b.Valid()
    ensures count == if business then BusinessDays(b.from, b.until) else b.until - b.from
  {
    if business {
      count := 0;
      for day := b.from to b.until
        invariant count == BusinessDays(b.from, day)
      {
        if IsBusinessDay(day) { count := count + 1; }
      }
    } else {
      count := b.until - b.from;
    }
  }

  /** 1970-01-03, day 2, was a Saturday. */
  lemma {:induction false} WeekendIs(day: int)
    ensures BusinessDays(day, day) == 0 && BusinessDays(day, day + 1) == if day % 7 == 2 || day % 7 == 3 then 0 else 1
  {
  }

  lemma {:induction false} OneDayMore(from: int, until: int)
    requires from <= until
    ensures BusinessDays(from, until + 1) == BusinessDays(from, until) + if IsBusinessDay(until) then 1 else 0
  {
  }

  /** Seven days more are five business days more, whatever the range starts with. */
  lemma {:induction false} WeekHasFive(from: int, until: int)
    requires from <= until
    ensures BusinessDays(from, until + 7) == BusinessDays(from, until) + 5
  {
    OneDayMore(from, until);
    OneDayMore(from, until + 1);
    OneDayMore(from, until + 2);
    OneDayMore(from, until + 3);
    OneDayMore(from, until + 4);
    OneDayMore(from, until + 5);
    OneDayMore(from, until + 6);
  }

  // ---------------------------------------------------------------- the summary

  datatype Summary = Summary(cycleTime: real, reviewWait: real, deploymentFrequency: real, changeFailureRate: real, reviewCoverage: real)

  function Column(rows: seq<DailyMetric>, f: DailyMetric -> DayMean): (ms: seq<DayMean>)
    ensures |ms| == |rows| && forall i :: 0 <= i < |ms| ==> ms[i] == f(rows[i])
  {
    seq(|rows|, i requires 0 <= i < |rows| => f(rows[i]))
  }

  function Cycle(row: DailyMetric): DayMean { row.cycle }
  function Wait(row: DailyMetric): DayMean { row.reviewWait }
  function ReviewTime(row: DailyMetric): DayMean { row.reviewTime }
  function Files(row: DailyMetric): DayMean { DayMean(row.prCount, row.averageFilesChanged) }
  function Additions(row: DailyMetric): DayMean { DayMean(row.prCount, row.averageAdditions) }
  function Deletions(row: DailyMetric): DayMean { DayMean(row.prCount, row.averageDeletions) }
  function Successes(row: DailyMetric): DayMean { DayMean(row.successful, 0.0) }
  function Failures(row: DailyMetric): DayMean { DayMean(row.failed, 0.0) }
  function ReviewedOnes(row: DailyMetric): DayMean { DayMean(row.reviewedPRCount, 0.0) }

  function Total(rows: seq<DailyMetric>, f: DailyMetric -> DayMean): int {
    CountTotal(Column(rows, f))
  }

  function SummaryOf(cycleTime: real, reviewWait: real, successful: int, failed: int, reviewed: int, pullRequests: int, dayCount: int): Summary {
    Summary(cycleTime, reviewWait, Ratio(successful, dayCount), Ratio(failed, successful + failed), Ratio(reviewed, pullRequests))
  }

  function Summarized(rows: seq<DailyMetric>, dayCount: int): Summary {
    SummaryOf(Recombined(Column(rows, Cycle)), Recombined(Column(rows, Wait)), Total(rows, Successes), Total(rows, Failures),
              Total(rows, ReviewedOnes), Total(rows, Files), dayCount)
  }

  lemma {:induction false} ColumnSnoc(rows: seq<DailyMetric>, i: nat, f: DailyMetric -> DayMean)
    requires i < |rows|
    ensures WeightedTotal(Column(rows[..i + 1], f)) == WeightedTotal(Column(rows[..i], f)) + Weight(f(rows[i]))
    ensures CountTotal(Column(rows[..i + 1], f)) == CountTotal(Column(rows[..i], f)) + f(rows[i]).count
  {
    assert Column(rows[..i + 1], f) == Column(rows[..i], f) + [f(rows[i])];
  }

  /** One accumulator pair of the loops: the weighted total and the count of a column. */
  method Accumulate(rows: seq<DailyMetric>, f: DailyMetric -> DayMean) returns (weighted: real, count: int)
    ensures weighted == WeightedTotal(Column(rows, f)) && count == CountTotal(Column(rows, f))
  {
    weighted, count := 0.0, 0;
    for i := 0 to |rows|
      invariant weighted == WeightedTotal(Column(rows[..i], f)) && count == CountTotal(Column(rows[..i], f))
    {
      ColumnSnoc(rows, i, f);
      weighted := weighted + Weight(f(rows[i]));
      count := count + f(rows[i]).count;
    }
    assert rows[..|rows|] == rows;
  }

  method AggregateSummary(rows: seq<DailyMetric>, dayCount: int) returns (summary: Summary)
    ensures summary == Summarized(rows, dayCount)
  {
    var cycleWeighted, merged := Accumulate(rows, Cycle);
    var waitWeighted, waits := Accumulate(rows, Wait);
    var _, successful := Accumulate(rows, Successes);
    var _, failed := Accumulate(rows, Failures);
    var _, reviewed := Accumulate(rows, ReviewedOnes);
    var _, pullRequests := Accumulate(rows, Files);
    summary := Summary(if merged > 0 then cycleWeighted / merged as real else 0.0,
                       if waits > 0 then waitWeighted / waits as real else 0.0,
                       Ratio(successful, dayCount), Ratio(failed, successful + failed), Ratio(reviewed, pullRequests));
  }

  // ---------------------------------------------------------------- equal to a direct scan

  predicate InRange(ss: seq<Sample>, b: Bounds) {
    forall i :: 0 <= i < |ss| ==> b.from <= ss[i].day < b.until
  }

  predicate AllInRange(x: Selected, b: Bounds) {
    InRange(x.sizes, b) && InRange(x.reviewed, b) && InRange(x.files, b) && InRange(x.additions, b) && InRange(x.deletions, b) &&
    InRange(x.cycles, b) && InRange(x.waits, b) && InRange(x.times, b) && InRange(x.successes, b) && InRange(x.failures, b)
  }

  lemma {:induction false} SelectedInRange(raw: Raw, b: Bounds)
    ensures AllInRange(Select(raw, b), b)
  {
    var prs, joined := raw.pullRequests, Joined(raw.pullRequests);
    SamplesWithin(b, prs, pr => SizeSample(b, (p: PullRequest) => 1, pr));
    SamplesWithin(b, prs, pr => ReviewedSample(b, pr));
    SamplesWithin(b, prs, pr => SizeSample(b, (p: PullRequest) => p.filesChanged, pr));
    SamplesWithin(b, prs, pr => SizeSample(b, (p: PullRequest) => p.additions, pr));
    SamplesWithin(b, prs, pr => SizeSample(b, (p: PullRequest) => p.deletions, pr));
    SamplesWithin(b, prs, pr => CycleSample(b, pr));
    SamplesWithin(b, joined, row => SpanSample(b, (r: Review) => r.firstReviewAt, row));
    SamplesWithin(b, joined, row => SpanSample(b, (r: Review) => r.submittedAt, row));
    SamplesWithin(b, raw.deployments, d => StatusSample(b, "success", d));
    SamplesWithin(b, raw.deployments, d => StatusSample(b, "failed", d));
  }

  /** A column that holds the daily means of some samples recombines to their mean. */
  lemma {:induction false} ColumnIsMean(rows: seq<DailyMetric>, f: DailyMetric -> DayMean, ss: seq<Sample>, b: Bounds)
    requires b.Valid() && InRange(ss, b) && |rows| == b.until - b.from
    requires forall i :: 0 <= i < |rows| ==> f(rows[i]) == MeanOn(ss, b.from + i)
    ensures Recombined(Column(rows, f)) == Mean(ss) && Total(rows, f) == |ss|
  {
    assert Column(rows, f) == ByDay(ss, b.from, b.until);
    RecombinedIsMean(ss, b.from, b.until);
  }

  lemma {:induction false} SameCount(a: seq<DayMean>, c: seq<DayMean>)
    requires |a| == |c| && forall i :: 0 <= i < |a| ==> a[i].count == c[i].count
    ensures CountTotal(a) == CountTotal(c)
  {
    if a != [] { SameCount(a[..|a| - 1], c[..|c| - 1]); }
  }

  /** A column that counts the samples of each day sums to their number. */
  lemma {:induction false} ColumnIsCount(rows: seq<DailyMetric>, f: DailyMetric -> DayMean, ss: seq<Sample>, b: Bounds)
    requires b.Valid() && InRange(ss, b) && |rows| == b.until - b.from
    requires forall i :: 0 <= i < |rows| ==> f(rows[i]).count == |On(ss, b.from + i)|
    ensures Total(rows, f) == |ss|
  {
    SameCount(Column(rows, f), ByDay(ss, b.from, b.until));
    RecombinedIsMean(ss, b.from, b.until);
  }

  /** What a direct scan of the selected rows gives. */
  function Direct(x: Selected, dayCount: int): Summary {
    SummaryOf(Mean(x.cycles), Mean(x.waits), |x.successes|, |x.failures|, |x.reviewed|, |x.sizes|, dayCount)
  }

  /** A roll-up record holds the day's share of every measure. */
  predicate RowIs(row: DailyMetric, x: Selected, day: int) {
    row.date == day && row.cycle == MeanOn(x.cycles, day) && row.reviewWait == MeanOn(x.waits, day) && row.reviewTime == MeanOn(x.times, day) &&
    row.prCount == |On(x.sizes, day)| && row.reviewedPRCount == |On(x.reviewed, day)| &&
    row.averageFilesChanged == Mean(On(x.files, day)) && row.averageAdditions == Mean(On(x.additions, day)) &&
    row.averageDeletions == Mean(On(x.deletions, day)) &&
    row.successful == |On(x.successes, day)| && row.failed == |On(x.failures, day)|
  }

  predicate IsRollUp(rows: seq<DailyMetric>, x: Selected, b: Bounds) {
    b.Valid() && |rows| == b.until - b.from && forall i :: 0 <= i < |rows| ==> RowIs(rows[i], x, b.from + i)
  }

  /** Each size measure has one sample per counted pull request. */
  ghost predicate SizesAlign(x: Selected) {
    forall day :: |On(x.files, day)| == |On(x.sizes, day)| && |On(x.additions, day)| == |On(x.sizes, day)| &&
                  |On(x.deletions, day)| == |On(x.sizes, day)|
  }

  lemma {:induction false} CycleMean(rows: seq<DailyMetric>, x: Selected, b: Bounds)
    requires IsRollUp(rows, x, b) && InRange(x.cycles, b)
    ensures Recombined(Column(rows, Cycle)) == Mean(x.cycles)
  {
    ColumnIsMean(rows, Cycle, x.cycles, b);
  }

  lemma {:induction false} WaitMean(rows: seq<DailyMetric>, x: Selected, b: Bounds)
    requires IsRollUp(rows, x, b) && InRange(x.waits, b)
    ensures Recombined(Column(rows, Wait)) == Mean(x.waits)
  {
    ColumnIsMean(rows, Wait, x.waits, b);
  }

  lemma {:induction false} ReviewTimeMean(rows: seq<DailyMetric>, x: Selected, b: Bounds)
    requires IsRollUp(rows, x, b) && InRange(x.times, b)
    ensures Recombined(Column(rows, ReviewTime)) == Mean(x.times)
  {
    ColumnIsMean(rows, ReviewTime, x.times, b);
  }

  lemma {:induction false} FilesMean(rows: seq<DailyMetric>, x: Selected, b: Bounds)
    requires IsRollUp(rows, x, b) && InRange(x.files, b) && SizesAlign(x)
    ensures Recombined(Column(rows, Files)) == Mean(x.files)
  {
    ColumnIsMean(rows, Files, x.files, b);
  }

  lemma {:induction false} AdditionsMean(rows: seq<DailyMetric>, x: Selected, b: Bounds)
    requires IsRollUp(rows, x, b) && InRange(x.additions, b) && SizesAlign(x)
    ensures Recombined(Column(rows, Additions)) == Mean(x.additions)
  {
    ColumnIsMean(rows, Additions, x.additions, b);
  }

  lemma {:induction false} DeletionsMean(rows: seq<DailyMetric>, x: Selected, b: Bounds)
    requires IsRollUp(rows, x, b) && InRange(x.deletions, b) && SizesAlign(x)
    ensures Recombined(Column(rows, Deletions)) == Mean(x.deletions)
  {
    ColumnIsMean(rows, Deletions, x.deletions, b);
  }

  lemma {:induction false} SuccessesCount(rows: seq<DailyMetric>, x: Selected, b: Bounds)
    requires IsRollUp(rows, x, b) && InRange(x.successes, b)
    ensures Total(rows, Successes) == |x.successes|
  {
    ColumnIsCount(rows, Successes, x.successes, b);
  }

  lemma {:induction false} FailuresCount(rows: seq<DailyMetric>, x: Selected, b: Bounds)
    requires IsRollUp(rows, x, b) && InRange(x.failures, b)
    ensures Total(rows, Failures) == |x.failures|
  {
    ColumnIsCount(rows, Failures, x.failures, b);
  }

  lemma {:induction false} ReviewedOnesCount(rows: seq<DailyMetric>, x: Selected, b: Bounds)
    requires IsRollUp(rows, x, b) && InRange(x.reviewed, b)
    ensures Total(rows, ReviewedOnes) == |x.reviewed|
  {
    ColumnIsCount(rows, ReviewedOnes, x.reviewed, b);
  }

  lemma {:induction false} FilesCount(rows: seq<DailyMetric>, x: Selected, b: Bounds)
    requires IsRollUp(rows, x, b) && InRange(x.sizes, b)
    ensures Total(rows, Files) == |x.sizes|
  {
    ColumnIsCount(rows, Files, x.sizes, b);
  }

  lemma {:induction false} RollUpSummary(rows: seq<DailyMetric>, x: Selected, b: Bounds, dayCount: int)
    requires IsRollUp(rows, x, b) && AllInRange(x, b)
    ensures Summarized(rows, dayCount) == Direct(x, dayCount)
  {
    CycleMean(rows, x, b);
    WaitMean(rows, x, b);
    SuccessesCount(rows, x, b);
    FailuresCount(rows, x, b);
    ReviewedOnesCount(rows, x, b);
    FilesCount(rows, x, b);
  }

  /** The summary's cycle time, review wait, deployment frequency, change failure rate and review coverage are those of a
      direct scan over all qualifying raw rows, for every set of rows and every range. */
  lemma {:induction false} SummaryIsDirect(raw: Raw, b: Bounds, dayCount: int)
    requires b.Valid()
    ensures Summarized(DailyRows(Select(raw, b), b), dayCount) == Direct(Select(raw, b), dayCount)
  {
    SelectedInRange(raw, b);
    RollUpSummary(DailyRows(Select(raw, b), b), Select(raw, b), b, dayCount);
  }

  lemma {:induction false} SameDays(prs: seq<PullRequest>, b: Bounds, f: PullRequest -> int, g: PullRequest -> int, day: int)
    ensures |On(Samples(prs, pr => SizeSample(b, f, pr)), day)| == |On(Samples(prs, pr => SizeSample(b, g, pr)), day)|
  {
    if prs != [] { SameDays(prs[..|prs| - 1], b, f, g, day); }
  }

  lemma {:induction false} SelectedSizesAlign(raw: Raw, b: Bounds)
    ensures SizesAlign(Select(raw, b))
  {
    var x := Select(raw, b);
    forall day
      ensures |On(x.files, day)| == |On(x.sizes, day)| && |On(x.additions, day)| == |On(x.sizes, day)| &&
              |On(x.deletions, day)| == |On(x.sizes, day)|
    {
      SameDays(raw.pullRequests, b, (p: PullRequest) => p.filesChanged, (p: PullRequest) => 1, day);
      SameDays(raw.pullRequests, b, (p: PullRequest) => p.additions, (p: PullRequest) => 1, day);
      SameDays(raw.pullRequests, b, (p: PullRequest) => p.deletions, (p: PullRequest) => 1, day);
    }
  }

  lemma {:induction false} RollUpAverages(rows: seq<DailyMetric>, x: Selected, b: Bounds)
    requires IsRollUp(rows, x, b) && AllInRange(x, b) && SizesAlign(x)
    ensures Recombined(Column(rows, Files)) == Mean(x.files) && Recombined(Column(rows, Additions)) == Mean(x.additions) &&
            Recombined(Column(rows, Deletions)) == Mean(x.deletions) && Recombined(Column(rows, ReviewTime)) == Mean(x.times)
  {
    FilesMean(rows, x, b);
    AdditionsMean(rows, x, b);
    DeletionsMean(rows, x, b);
    ReviewTimeMean(rows, x, b);
  }

  /** The same for the size averages, which are weighted by the number of pull requests, and the review time. */
  lemma {:induction false} AveragesAreDirect(raw: Raw, b: Bounds)
    requires b.Valid()
    ensures var x, rows := Select(raw, b), DailyRows(Select(raw, b), b);
            Recombined(Column(rows, Files)) == Mean(x.files) && Recombined(Column(rows, Additions)) == Mean(x.additions) &&
            Recombined(Column(rows, Deletions)) == Mean(x.deletions) && Recombined(Column(rows, ReviewTime)) == Mean(x.times)
  {
    SelectedInRange(raw, b);
    SelectedSizesAlign(raw, b);
    RollUpAverages(DailyRows(Select(raw, b), b), Select(raw, b), b);
  }
}
