/** The trend of an interval, told in the fields of the raw rows: the totals of a label are those of the raw rows whose day has it. */
module TrendScan {
  import opened Sql
  import opened DayMeans
  import opened DailyMetrics
  import opened MetricsSummary
  import opened IntervalTrend
  import opened DeploymentPaths
  import opened RawScan

  // ---------------------------------------------------------------- records of a label and samples of a label

  function LabeledSum(rows: seq<DailyMetric>, labelOf: int -> string, l: string, f: DailyMetric -> DayMean): (real, int) {
    if rows == [] then (0.0, 0)
    else
      var before, row := LabeledSum(rows[..|rows| - 1], labelOf, l, f), rows[|rows| - 1];
      if labelOf(row.date) == l then (before.0 + Weight(f(row)), before.1 + f(row).count) else before
  }

  lemma {:induction false} LabeledTotals(rows: seq<DailyMetric>, labelOf: int -> string, l: string)
    ensures var t := SumLabeled(rows, labelOf, l);
            (t.cycleWeighted, t.merged) == LabeledSum(rows, labelOf, l, Cycle) &&
            (t.waitWeighted, t.waits) == LabeledSum(rows, labelOf, l, Wait) &&
            t.successful == LabeledSum(rows, labelOf, l, Successes).1
  {
    if rows != [] { LabeledTotals(rows[..|rows| - 1], labelOf, l); }
  }

  /** The samples of the days from..until-1 that have a label. */
  function Labeled(ss: seq<Sample>, from: int, until: int, labelOf: int -> string, l: string): seq<Sample> {
    if ss == [] then []
    else
      var before, s := Labeled(ss[..|ss| - 1], from, until, labelOf, l), ss[|ss| - 1];
      if from <= s.day < until && labelOf(s.day) == l then before + [s] else before
  }

  /** Number and sum of some samples. */
  function Amount(ss: seq<Sample>): (real, int) { (Sum(ss), |ss|) }

  function Add(a: (real, int), b: (real, int)): (real, int) { (a.0 + b.0, a.1 + b.1) }

  lemma {:induction false} LabeledDay(ss: seq<Sample>, from: int, until: int, labelOf: int -> string, l: string)
    requires from <= until
    ensures Amount(Labeled(ss, from, until + 1, labelOf, l)) ==
            Add(Amount(Labeled(ss, from, until, labelOf, l)), if labelOf(until) == l then Amount(On(ss, until)) else (0.0, 0))
  {
    if ss != [] { LabeledDay(ss[..|ss| - 1], from, until, labelOf, l); }
  }

  lemma {:induction false} NoneLabeled(ss: seq<Sample>, from: int, labelOf: int -> string, l: string)
    ensures Labeled(ss, from, from, labelOf, l) == []
  {
    if ss != [] { NoneLabeled(ss[..|ss| - 1], from, labelOf, l); }
  }

  /** Day by day over from..until-1. */
  function DaySum(ss: seq<Sample>, from: int, until: int, labelOf: int -> string, l: string): (real, int)
    decreases until - from
  {
    if from >= until then (0.0, 0)
    else Add(DaySum(ss, from, until - 1, labelOf, l), if labelOf(until - 1) == l then Amount(On(ss, until - 1)) else (0.0, 0))
  }

  lemma {:induction false} DaySumIs(ss: seq<Sample>, from: int, until: int, labelOf: int -> string, l: string)
    requires from <= until
    ensures DaySum(ss, from, until, labelOf, l) == Amount(Labeled(ss, from, until, labelOf, l))
    decreases until - from
  {
    if from == until {
      NoneLabeled(ss, from, labelOf, l);
    } else {
      DaySumIs(ss, from, until - 1, labelOf, l);
      LabeledDay(ss, from, until - 1, labelOf, l);
    }
  }

  /** The record of a day counts the day's samples, and weighs as much as they do, if it is to carry their mean. */
  predicate Carries(m: DayMean, day: seq<Sample>, mean: bool) {
    m.count == |day| && (mean ==> Weight(m) == Sum(day))
  }

  /** So do the records of a label, taken together. */
  lemma {:induction false} LabeledColumn(rows: seq<DailyMetric>, f: DailyMetric -> DayMean, mean: bool, ss: seq<Sample>, from: int,
                                         labelOf: int -> string, l: string)
    requires forall i :: 0 <= i < |rows| ==> rows[i].date == from + i && Carries(f(rows[i]), On(ss, from + i), mean)
    ensures LabeledSum(rows, labelOf, l, f).1 == DaySum(ss, from, from + |rows|, labelOf, l).1
    ensures mean ==> LabeledSum(rows, labelOf, l, f).0 == DaySum(ss, from, from + |rows|, labelOf, l).0
  {
    if rows != [] {
      LabeledColumn(rows[..|rows| - 1], f, mean, ss, from, labelOf, l);
      assert Carries(f(rows[|rows| - 1]), On(ss, from + |rows| - 1), mean);
    }
  }

  // ---------------------------------------------------------------- samples of a label and raw rows

  /** The query samples exactly the rows p on the days of the range with the label, at f / scale each. */
  ghost predicate SamplesLabeled<R(!new)>(sample: R -> Option<Sample>, b: Bounds, labelOf: int -> string, l: string,
                                          p: R -> bool, f: R -> int, scale: real)
    requires scale > 0.0
  {
    forall r :: (sample(r).Some? && b.from <= sample(r).value.day < b.until && labelOf(sample(r).value.day) == l <==> p(r)) &&
                (p(r) ==> sample(r).value.value == f(r) as real / scale)
  }

  lemma {:induction false} LabeledAddUp<R(!new)>(rows: seq<R>, sample: R -> Option<Sample>, b: Bounds, labelOf: int -> string, l: string,
                                                 p: R -> bool, f: R -> int, scale: real)
    requires scale > 0.0 && SamplesLabeled(sample, b, labelOf, l, p, f, scale)
    ensures AddUp(Labeled(Samples(rows, sample), b.from, b.until, labelOf, l), Count(rows, p), TotalOf(rows, p, f), scale)
  {
    if rows != [] {
      var init, r := rows[..|rows| - 1], rows[|rows| - 1];
      var before := Labeled(Samples(init, sample), b.from, b.until, labelOf, l);
      LabeledAddUp(init, sample, b, labelOf, l, p, f, scale);
      if p(r) { OneMoreAddsUp(before, sample(r).value, Count(init, p), TotalOf(init, p, f), f(r), scale); }
      if sample(r).Some? {
        assert (Samples(init, sample) + [sample(r).value])[..|Samples(init, sample)|] == Samples(init, sample);
      }
    }
  }

  function MergedUnder(b: Bounds, labelOf: int -> string, l: string): PullRequest -> bool {
    (pr: PullRequest) => IsMerged(pr, b.from, b.until) && labelOf(pr.mergedAt.value / 86_400_000_000) == l
  }

  function SpansUnder(b: Bounds, labelOf: int -> string, l: string, end: Review -> Option<int>): ((PullRequest, Review)) -> bool {
    (row: (PullRequest, Review)) => Spans(row, end(row.1), b.from, b.until) && labelOf(row.0.createdAt / 86_400_000_000) == l
  }

  function DeployedUnder(b: Bounds, labelOf: int -> string, l: string): Deployment -> bool {
    (d: Deployment) => IsDeployed(d, "success", b.from, b.until) && labelOf(d.deployedAt / 86_400_000_000) == l
  }

  // ---------------------------------------------------------------- the trend

  lemma {:induction false} RowRollsUp(x: Selected, day: int)
    ensures RowIs(WithCoverage(Assigned(x, day)), x, day)
  {
  }

  lemma {:induction false} RollsUp(x: Selected, b: Bounds)
    requires b.Valid()
    ensures IsRollUp(DailyRows(x, b), x, b)
  {
    forall day { RowRollsUp(x, day); }
  }

  lemma {:induction false} MeanCarries(ss: seq<Sample>, day: int)
    ensures Carries(MeanOn(ss, day), On(ss, day), true)
  {
    WeightOn(ss, day);
  }

  /** A column of a roll-up that carries some samples. */
  ghost predicate ColumnCarries(rows: seq<DailyMetric>, b: Bounds, f: DailyMetric -> DayMean, mean: bool, ss: seq<Sample>) {
    |rows| == b.until - b.from &&
    forall i :: 0 <= i < |rows| ==> rows[i].date == b.from + i && Carries(f(rows[i]), On(ss, b.from + i), mean)
  }

  lemma {:induction false} ColumnUnder(rows: seq<DailyMetric>, b: Bounds, f: DailyMetric -> DayMean, mean: bool, ss: seq<Sample>,
                                       labelOf: int -> string, l: string)
    requires b.Valid() && ColumnCarries(rows, b, f, mean, ss)
    ensures var sum, labeled := LabeledSum(rows, labelOf, l, f), Labeled(ss, b.from, b.until, labelOf, l);
            sum.1 == |labeled| && (mean ==> sum.0 == Sum(labeled))
  {
    LabeledColumn(rows, f, mean, ss, b.from, labelOf, l);
    DaySumIs(ss, b.from, b.until, labelOf, l);
  }

  lemma {:induction false} MeansCarry(rows: seq<DailyMetric>, b: Bounds, f: DailyMetric -> DayMean, ss: seq<Sample>)
    requires |rows| == b.until - b.from
    requires forall i :: 0 <= i < |rows| ==> rows[i].date == b.from + i && f(rows[i]) == MeanOn(ss, b.from + i)
    ensures ColumnCarries(rows, b, f, true, ss)
  {
    forall day { MeanCarries(ss, day); }
  }

  lemma {:induction false} CycleCarries(rows: seq<DailyMetric>, x: Selected, b: Bounds)
    requires IsRollUp(rows, x, b)
    ensures ColumnCarries(rows, b, Cycle, true, x.cycles)
  {
    MeansCarry(rows, b, Cycle, x.cycles);
  }

  lemma {:induction false} WaitCarries(rows: seq<DailyMetric>, x: Selected, b: Bounds)
    requires IsRollUp(rows, x, b)
    ensures ColumnCarries(rows, b, Wait, true, x.waits)
  {
    MeansCarry(rows, b, Wait, x.waits);
  }

  lemma {:induction false} CycleSampleIs(b: Bounds, pr: PullRequest)
    ensures CycleSample(b, pr) == if IsMerged(pr, b.from, b.until)
                                  then Some(Sample(pr.mergedAt.value / 86_400_000_000, CycleOf(pr) as real / 60_000_000.0)) else None
    ensures IsMerged(pr, b.from, b.until) ==> b.from <= pr.mergedAt.value / 86_400_000_000 < b.until
  {
  }

  lemma {:induction false} SuccessSampleIs(b: Bounds, d: Deployment)
    ensures StatusSample(b, "success", d) == if IsDeployed(d, "success", b.from, b.until)
                                             then Some(Sample(d.deployedAt / 86_400_000_000, 1.0)) else None
    ensures IsDeployed(d, "success", b.from, b.until) ==> b.from <= d.deployedAt / 86_400_000_000 < b.until
  {
  }

  lemma {:induction false} CyclesUnder(raw: Raw, b: Bounds, labelOf: int -> string, l: string)
    ensures var prs, p := raw.pullRequests, MergedUnder(b, labelOf, l);
            AddUp(Labeled(Samples(prs, pr => CycleSample(b, pr)), b.from, b.until, labelOf, l), Count(prs, p), TotalOf(prs, p, CycleOf), 60_000_000.0)
  {
    forall pr { CycleSampleIs(b, pr); }
    LabeledAddUp(raw.pullRequests, pr => CycleSample(b, pr), b, labelOf, l, MergedUnder(b, labelOf, l), CycleOf, 60_000_000.0);
  }

  lemma {:induction false} WaitsUnder(raw: Raw, b: Bounds, labelOf: int -> string, l: string, end: Review -> Option<int>)
    ensures var prs, p := raw.pullRequests, SpansUnder(b, labelOf, l, end);
            AddUp(Labeled(Samples(Joined(prs), row => SpanSample(b, end, row)), b.from, b.until, labelOf, l),
                  CountReviews(prs, p), TotalOfReviews(prs, p, SpanOf(end)), 60_000_000.0)
  {
    var p := SpansUnder(b, labelOf, l, end);
    forall row: (PullRequest, Review) { SpanSampleIs(b, end, row); }
    LabeledAddUp(Joined(raw.pullRequests), row => SpanSample(b, end, row), b, labelOf, l, p, SpanOf(end), 60_000_000.0);
    OfJoined(raw.pullRequests, p, SpanOf(end));
  }

  lemma {:induction false} SuccessesUnder(raw: Raw, b: Bounds, labelOf: int -> string, l: string)
    ensures |Labeled(Samples(raw.deployments, d => StatusSample(b, "success", d)), b.from, b.until, labelOf, l)| ==
            Count(raw.deployments, DeployedUnder(b, labelOf, l))
  {
    forall d { SuccessSampleIs(b, d); }
    LabeledAddUp(raw.deployments, d => StatusSample(b, "success", d), b, labelOf, l, DeployedUnder(b, labelOf, l), One, 1.0);
  }

  /** The totals of the raw rows whose day has the label. */
  predicate IsTotals(t: Totals, raw: Raw, b: Bounds, labelOf: int -> string, l: string) {
    var prs, end := raw.pullRequests, (r: Review) => r.firstReviewAt;
    var merged, waited := MergedUnder(b, labelOf, l), SpansUnder(b, labelOf, l, end);
    t.merged == Count(prs, merged) && t.cycleWeighted == TotalOf(prs, merged, CycleOf) as real / 60_000_000.0 &&
    t.waits == CountReviews(prs, waited) && t.waitWeighted == TotalOfReviews(prs, waited, SpanOf(end)) as real / 60_000_000.0 &&
    t.successful == Count(raw.deployments, DeployedUnder(b, labelOf, l))
  }

  lemma {:induction false} LabelFromRaw(rows: seq<DailyMetric>, raw: Raw, b: Bounds, labelOf: int -> string, l: string)
    requires IsRollUp(rows, Select(raw, b), b)
    ensures IsTotals(SumLabeled(rows, labelOf, l), raw, b, labelOf, l)
  {
    var x := Select(raw, b);
    LabeledTotals(rows, labelOf, l);
    CycleCarries(rows, x, b);
    WaitCarries(rows, x, b);
    ColumnUnder(rows, b, Cycle, true, x.cycles, labelOf, l);
    ColumnUnder(rows, b, Wait, true, x.waits, labelOf, l);
    ColumnUnder(rows, b, Successes, false, x.successes, labelOf, l);
    CyclesUnder(raw, b, labelOf, l);
    WaitsUnder(raw, b, labelOf, l, (r: Review) => r.firstReviewAt);
    SuccessesUnder(raw, b, labelOf, l);
  }

  /** The totals of each interval are those of the raw rows whose day has its label. */
  lemma {:induction false} TrendFromRaw(raw: Raw, b: Bounds, labelOf: int -> string, items: seq<Bucket>, i: nat)
    requires b.Valid() && IsTrend(items, b, labelOf, DailyRows(Select(raw, b), b)) && i < |items|
    ensures IsTotals(items[i].totals, raw, b, labelOf, items[i].name)
  {
    RollsUp(Select(raw, b), b);
    LabelFromRaw(DailyRows(Select(raw, b), b), raw, b, labelOf, items[i].name);
  }

  // ---------------------------------------------------------------- the deployment metrics

  /** Deployments whose status is the word in any case, in these days. */
  function SpelledIn(word: string, from: int, until: int): Deployment -> bool {
    (d: Deployment) => EqualFold(d.status, word) && Falls(d.deployedAt, from, until)
  }

  lemma {:induction false} FoldedAddUp(ds: seq<Deployment>, b: Bounds, word: string)
    ensures |Folded(b, word, ds)| == Count(ds, SpelledIn(word, b.from, b.until))
  {
    SamplesAddUp(ds, d => FoldSample(b, word, d), SpelledIn(word, b.from, b.until), One, 1.0);
  }

  predicate AreDeploymentShares(m: DeploymentMetrics, successful: int, failed: int, dayCount: int) {
    m.count == successful && IsShare(m.frequency, successful, dayCount) && IsShare(m.changeFailureRate, failed, successful + failed)
  }

  lemma {:induction false} DeploymentShares(m: DeploymentMetrics, rows: seq<DailyMetric>, b: Bounds, dayCount: int, labelOf: int -> string,
                                            s: seq<Sample>, f: seq<Sample>)
    requires HasCounts(rows, b, s, f) && InRange(s, b) && InRange(f, b) && IsMetrics(m, rows, b, dayCount, labelOf)
    ensures AreDeploymentShares(m, |s|, |f|, dayCount)
  {
    MetricsAre(m, rows, b, dayCount, labelOf, s, f);
    RatioIsShare(|s|, dayCount);
    RatioIsShare(|f|, |s| + |f|);
  }

  /** The deployment metrics in terms of the raw deployments: on the path through the stored records by their exact status, and
      each point of the trend counts the successful ones of its label; ... */
  lemma {:induction false} RolledFromRaw(m: DeploymentMetrics, raw: Raw, b: Bounds, dayCount: int, labelOf: int -> string, i: nat)
    requires b.Valid() && IsMetrics(m, DailyRows(Select(raw, b), b), b, dayCount, labelOf) && i < |m.trend|
    ensures var ds := raw.deployments;
            AreDeploymentShares(m, Count(ds, DeployedIn("success", b.from, b.until)), Count(ds, DeployedIn("failed", b.from, b.until)), dayCount) &&
            m.trend[i].1 == Count(ds, DeployedUnder(b, labelOf, m.trend[i].0))
  {
    var rows, ds := DailyRows(Select(raw, b), b), raw.deployments;
    StoredRowsHaveCounts(raw, b);
    AllInBounds(b, ds, SUCCESS);
    AllInBounds(b, ds, FAILED);
    DeploymentShares(m, rows, b, dayCount, labelOf, Exact(b, SUCCESS, ds), Exact(b, FAILED, ds));
    DeployedAddUp(raw, b, SUCCESS);
    DeployedAddUp(raw, b, FAILED);
    var items :| IsTrend(items, b, labelOf, rows) && m.trend == Points(items);
    TrendFromRaw(raw, b, labelOf, items, i);
  }

  /** ... and on the path through the raw rows by their status in any spelling. */
  lemma {:induction false} FoldedFromRaw(m: DeploymentMetrics, rows: seq<DailyMetric>, ds: seq<Deployment>, b: Bounds, dayCount: int,
                                         labelOf: int -> string)
    requires HasCounts(rows, b, Folded(b, SUCCESS, ds), Folded(b, FAILED, ds)) && IsMetrics(m, rows, b, dayCount, labelOf)
    ensures AreDeploymentShares(m, Count(ds, SpelledIn("success", b.from, b.until)), Count(ds, SpelledIn("failed", b.from, b.until)), dayCount)
  {
    AllInBounds(b, ds, SUCCESS);
    AllInBounds(b, ds, FAILED);
    DeploymentShares(m, rows, b, dayCount, labelOf, Folded(b, SUCCESS, ds), Folded(b, FAILED, ds));
    FoldedAddUp(ds, b, SUCCESS);
    FoldedAddUp(ds, b, FAILED);
  }
}
