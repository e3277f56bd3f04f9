/** Deployment metrics are computed on two paths: from the stored daily records, or, when one environment is asked for,
    from the raw deployments. The first compares statuses exactly, the second under case folding. */
module DeploymentPaths {
  import opened Sql
  import opened DayMeans
  import opened DailyMetrics
  import opened MetricsSummary
  import opened IntervalTrend

  // ---------------------------------------------------------------- the raw path

  const SUCCESS: string := "success"
  const FAILED: string := "failed"

  /** c folds to the lower-case ASCII letter l; beside the capital, s and k have one more variant each. */
  predicate FoldsTo(c: char, l: char) {
    c == l || ('a' <= l <= 'z' && c as int == l as int - 32) || (l == 's' && c == '\U{017F}') || (l == 'k' && c == '\U{212A}')
  }

  /** strings.EqualFold with a lower-case ASCII word. */
  predicate EqualFold(s: string, word: string) {
    |s| == |word| && forall i :: 0 <= i < |s| ==> FoldsTo(s[i], word[i])
  }

  /** What is taken for "success" and for "failed": any mix of cases, and a long s. */
  lemma {:induction false} FoldsToWord(s: string)
    ensures EqualFold(s, SUCCESS) <==>
            |s| == 7 && s[0] in "sS\U{017F}" && s[1] in "uU" && s[2] in "cC" && s[3] in "cC" && s[4] in "eE" &&
            s[5] in "sS\U{017F}" && s[6] in "sS\U{017F}"
    ensures EqualFold(s, FAILED) <==>
            |s| == 6 && s[0] in "fF" && s[1] in "aA" && s[2] in "iI" && s[3] in "lL" && s[4] in "eE" && s[5] in "dD"
  {
  }

  function FoldSample(b: Bounds, word: string, d: Deployment): Option<Sample> {
    if b.Covers(d.deployedAt) && EqualFold(d.status, word) then Some(Sample(DayOf(d.deployedAt), 1.0)) else None
  }

  function Folded(b: Bounds, word: string, ds: seq<Deployment>): seq<Sample> {
    Samples(ds, d => FoldSample(b, word, d))
  }

  function Exact(b: Bounds, word: string, ds: seq<Deployment>): seq<Sample> {
    Samples(ds, d => StatusSample(b, word, d))
  }

  /** Daily records in order, with these numbers of successful and failed deployments. */
  predicate HasCounts(rows: seq<DailyMetric>, b: Bounds, successes: seq<Sample>, failures: seq<Sample>) {
    b.Valid() && |rows| == b.until - b.from &&
    forall i :: 0 <= i < |rows| ==>
      rows[i].date == b.from + i && rows[i].successful == |On(successes, b.from + i)| && rows[i].failed == |On(failures, b.from + i)|
  }

  predicate AllCovered(ds: seq<Deployment>, b: Bounds) {
    forall i :: 0 <= i < |ds| ==> b.Covers(ds[i].deployedAt)
  }

  lemma {:induction false} OneMoreDeployment(b: Bounds, word: string, ds: seq<Deployment>, d: Deployment)
    requires b.Covers(d.deployedAt)
    ensures forall day :: |On(Folded(b, word, ds + [d]), day)| ==
              |On(Folded(b, word, ds), day)| + if EqualFold(d.status, word) && DayOf(d.deployedAt) == day then 1 else 0
  {
    assert (ds + [d])[..|ds|] == ds;
    var folded, s := Folded(b, word, ds), Sample(DayOf(d.deployedAt), 1.0);
    assert (folded + [s])[..|folded|] == folded;
    assert Folded(b, word, ds + [d]) == if EqualFold(d.status, word) then folded + [s] else folded;
  }

  /** Every day of the range has an item, which counts the folded statuses of the day. */
  ghost predicate CountsOf(metrics: map<int, DailyMetric>, b: Bounds, ds: seq<Deployment>) {
    (forall d :: d in metrics <==> b.from <= d < b.until) &&
    forall d :: d in metrics ==>
      metrics[d] == Blank(d).(successful := |On(Folded(b, SUCCESS, ds), d)|, failed := |On(Folded(b, FAILED, ds), d)|)
  }

  method CountOne(metrics: map<int, DailyMetric>, b: Bounds, ghost before: seq<Deployment>, d: Deployment)
    returns (result: map<int, DailyMetric>)
    requires b.Covers(d.deployedAt) && CountsOf(metrics, b, before)
    ensures CountsOf(result, b, before + [d])
  {
    OneMoreDeployment(b, SUCCESS, before, d);
    OneMoreDeployment(b, FAILED, before, d);
    var item := metrics[DayOf(d.deployedAt)];
    if EqualFold(d.status, SUCCESS) { item := item.(successful := item.successful + 1); }
    if EqualFold(d.status, FAILED) { item := item.(failed := item.failed + 1); }
    result := metrics[DayOf(d.deployedAt) := item];
  }

  /** The loop that counts raw deployments into the items of their days. */
  method CountByDay(b: Bounds, ds: seq<Deployment>) returns (metrics: map<int, DailyMetric>)
    requires b.Valid() && AllCovered(ds, b)
    ensures CountsOf(metrics, b, ds)
  {
    metrics := BlankRows(b);
    for i := 0 to |ds|
      invariant CountsOf(metrics, b, ds[..i])
    {
      metrics := CountOne(metrics, b, ds[..i], ds[i]);
      assert ds[..i + 1] == ds[..i] + [ds[i]];
    }
    assert ds[..|ds|] == ds;
  }

  method DailyFromRaw(b: Bounds, ds: seq<Deployment>) returns (rows: seq<DailyMetric>)
    requires b.Valid() && AllCovered(ds, b)
    ensures HasCounts(rows, b, Folded(b, SUCCESS, ds), Folded(b, FAILED, ds))
  {
    var metrics := CountByDay(b, ds);
    rows := [];
    for day := b.from to b.until
      invariant |rows| == day - b.from
      invariant forall i :: 0 <= i < |rows| ==> rows[i] == metrics[b.from + i]
    {
      rows := rows + [metrics[day]];
    }
  }

  // ---------------------------------------------------------------- the metrics

  datatype DeploymentMetrics = DeploymentMetrics(count: int, frequency: real, changeFailureRate: real, trend: seq<(string, int)>)

  function Points(items: seq<Bucket>): (ps: seq<(string, int)>)
    ensures |ps| == |items| && forall i :: 0 <= i < |ps| ==> ps[i] == (items[i].name, items[i].totals.successful)
  {
    seq(|items|, i requires 0 <= i < |items| => (items[i].name, items[i].totals.successful))
  }

  /** The points are those of the trend of the records. */
  ghost predicate IsPoints(ps: seq<(string, int)>, b: Bounds, labelOf: int -> string, rows: seq<DailyMetric>) {
    exists items :: IsTrend(items, b, labelOf, rows) && ps == Points(items)
  }

  ghost predicate IsMetrics(m: DeploymentMetrics, rows: seq<DailyMetric>, b: Bounds, dayCount: int, labelOf: int -> string) {
    m.count == Total(rows, Successes) &&
    m.frequency == Ratio(m.count, dayCount) &&
    m.changeFailureRate == Ratio(Total(rows, Failures), m.count + Total(rows, Failures)) &&
    IsPoints(m.trend, b, labelOf, rows)
  }

  method AggregateDeploymentMetrics(rows: seq<DailyMetric>, b: Bounds, dayCount: int, labelOf: int -> string)
    returns (m: DeploymentMetrics)
    requires b.Valid() && Dated(rows, b)
    ensures IsMetrics(m, rows, b, dayCount, labelOf)
  {
    var _, successful := Accumulate(rows, Successes);
    var _, failed := Accumulate(rows, Failures);
    var trends := GroupMetricsByInterval(b, labelOf, rows);
    var points: seq<(string, int)> := [];
    for i := 0 to |trends|
      invariant points == Points(trends[..i])
    {
      points := points + [(trends[i].name, trends[i].totals.successful)];
    }
    assert trends[..|trends|] == trends;
    assert IsPoints(points, b, labelOf, rows);
    m := DeploymentMetrics(successful, Ratio(successful, dayCount), Ratio(failed, successful + failed), points);
  }

  function SumPoints(ps: seq<(string, int)>): int {
    if ps == [] then 0 else SumPoints(ps[..|ps| - 1]) + ps[|ps| - 1].1
  }

  lemma {:induction false} SumPointsIs(items: seq<Bucket>)
    ensures SumPoints(Points(items)) == SumBuckets(items).successful
  {
    if items != [] {
      SumPointsIs(items[..|items| - 1]);
      assert Points(items)[..|items| - 1] == Points(items[..|items| - 1]);
    }
  }

  lemma {:induction false} SumRowsIs(rows: seq<DailyMetric>)
    ensures SumRows(rows).successful == Total(rows, Successes)
  {
    if rows != [] {
      SumRowsIs(rows[..|rows| - 1]);
      assert Column(rows, Successes)[..|rows| - 1] == Column(rows[..|rows| - 1], Successes);
    }
  }

  /** For day, week and month alike, the trend values sum to the deployment count. */
  lemma {:induction false} TrendSumsToCount(m: DeploymentMetrics, rows: seq<DailyMetric>, b: Bounds, dayCount: int, labelOf: int -> string)
    requires IsMetrics(m, rows, b, dayCount, labelOf) && Dated(rows, b)
    ensures SumPoints(m.trend) == m.count
  {
    var items :| IsTrend(items, b, labelOf, rows) && m.trend == Points(items);
    TrendConserves(items, b, labelOf, rows);
    SumPointsIs(items);
    SumRowsIs(rows);
  }

  // ---------------------------------------------------------------- when the two paths agree

  /** Every status that folds to the word is the word. */
  predicate NoVariant(ds: seq<Deployment>, word: string) {
    forall i :: 0 <= i < |ds| && EqualFold(ds[i].status, word) ==> ds[i].status == word
  }

  predicate Has(ds: seq<Deployment>, word: string) {
    exists i :: 0 <= i < |ds| && ds[i].status == word
  }

  lemma {:induction false} ExactWithinFolded(b: Bounds, word: string, ds: seq<Deployment>)
    requires AllCovered(ds, b)
    ensures |Exact(b, word, ds)| <= |Folded(b, word, ds)|
    ensures |Exact(b, word, ds)| == |Folded(b, word, ds)| <==> NoVariant(ds, word)
    ensures NoVariant(ds, word) ==> Exact(b, word, ds) == Folded(b, word, ds)
    ensures |Exact(b, word, ds)| > 0 <==> Has(ds, word)
  {
    if ds != [] {
      var init, d := ds[..|ds| - 1], ds[|ds| - 1];
      ExactWithinFolded(b, word, init);
      assert ds == init + [d];
      assert NoVariant(ds, word) <==> NoVariant(init, word) && (EqualFold(d.status, word) ==> d.status == word);
      assert Has(ds, word) <==> Has(init, word) || d.status == word;
    }
  }

  /** The share f/(s+f) grows strictly with f, unless there is no success to share with. */
  lemma {:induction false} ShareIsStrict(s: int, f: int, f': int)
    requires s >= 0 && 0 <= f < f'
    ensures Ratio(f, s + f) == Ratio(f', s + f') <==> s == 0 && f > 0
  {
    if s + f > 0 {
      var (x, y) := (s + f, s + f');
      if Ratio(f, x) == Ratio(f', y) {
        assert f as real / x as real * (x as real * y as real) == f as real * y as real;
        assert f' as real / y as real * (x as real * y as real) == f' as real * x as real;
        assert (f * y) as real == (f' * x) as real;
        assert f * (s + f') == f' * (s + f);
        assert (f' - f) * s == 0;
      }
    }
  }

  lemma {:induction false} SameSuccessesSamePoints(ps: seq<(string, int)>, ps': seq<(string, int)>, b: Bounds, labelOf: int -> string,
                                                   rows: seq<DailyMetric>, rows': seq<DailyMetric>)
    requires IsPoints(ps, b, labelOf, rows) && IsPoints(ps', b, labelOf, rows')
    requires |rows| == |rows'| && forall i :: 0 <= i < |rows| ==> rows[i].date == rows'[i].date && rows[i].successful == rows'[i].successful
    ensures ps == ps'
  {
    var x :| IsTrend(x, b, labelOf, rows) && ps == Points(x);
    var y :| IsTrend(y, b, labelOf, rows') && ps' == Points(y);
    assert forall l :: Lists(x, l) <==> Lists(y, l);
    SameAscendingLabels(x, y);
    forall l ensures SumLabeled(rows, labelOf, l).successful == SumLabeled(rows', labelOf, l).successful {
      SameSums(rows, rows', labelOf, l);
    }
  }

  lemma {:induction false} SameSums(rows: seq<DailyMetric>, rows': seq<DailyMetric>, labelOf: int -> string, l: string)
    requires |rows| == |rows'| && forall i :: 0 <= i < |rows| ==> rows[i].date == rows'[i].date && rows[i].successful == rows'[i].successful
    ensures SumLabeled(rows, labelOf, l).successful == SumLabeled(rows', labelOf, l).successful
  {
    if rows != [] { SameSums(rows[..|rows| - 1], rows'[..|rows'| - 1], labelOf, l); }
  }

  lemma {:induction false} MetricsAre(m: DeploymentMetrics, rows: seq<DailyMetric>, b: Bounds, dayCount: int, labelOf: int -> string,
                                      s: seq<Sample>, f: seq<Sample>)
    requires HasCounts(rows, b, s, f) && InRange(s, b) && InRange(f, b) && IsMetrics(m, rows, b, dayCount, labelOf)
    ensures m.count == |s| && m.frequency == Ratio(|s|, dayCount) && m.changeFailureRate == Ratio(|f|, |s| + |f|)
  {
    ColumnIsCount(rows, Successes, s, b);
    ColumnIsCount(rows, Failures, f, b);
  }

  lemma {:induction false} AllInBounds(b: Bounds, ds: seq<Deployment>, word: string)
    ensures InRange(Exact(b, word, ds), b) && InRange(Folded(b, word, ds), b)
  {
    SamplesWithin(b, ds, d => StatusSample(b, word, d));
    SamplesWithin(b, ds, d => FoldSample(b, word, d));
  }

  /** With at least as many successes and failures on one side, two results are equal exactly when the successes are, and the
      failures too or nothing but failures counts. */
  lemma {:induction false} SameNumbersIff(m: DeploymentMetrics, m': DeploymentMetrics, s: int, f: int, s': int, f': int, dayCount: int)
    requires 0 <= s <= s' && 0 <= f <= f' && (s == s' ==> m.trend == m'.trend)
    requires m.count == s && m.frequency == Ratio(s, dayCount) && m.changeFailureRate == Ratio(f, s + f)
    requires m'.count == s' && m'.frequency == Ratio(s', dayCount) && m'.changeFailureRate == Ratio(f', s' + f')
    ensures m == m' <==> s == s' && (f == f' || (s == 0 && f > 0))
  {
    if f < f' { ShareIsStrict(s, f, f'); }
  }

  /** On the same deployments the two paths give the same count, frequency, failure rate and trend exactly when no status
      is another spelling of success, and none of failed either, unless nothing succeeded and something did fail as
      "failed": then the failure rate is 1 anyway. In particular they agree when statuses are in lower case. */
  lemma {:induction false} PathsAgreeIff(ds: seq<Deployment>, b: Bounds, dayCount: int, labelOf: int -> string,
                                         rolled: seq<DailyMetric>, m: DeploymentMetrics, raw: seq<DailyMetric>, m': DeploymentMetrics)
    requires AllCovered(ds, b)
    requires HasCounts(rolled, b, Exact(b, SUCCESS, ds), Exact(b, FAILED, ds))
    requires HasCounts(raw, b, Folded(b, SUCCESS, ds), Folded(b, FAILED, ds))
    requires IsMetrics(m, rolled, b, dayCount, labelOf) && IsMetrics(m', raw, b, dayCount, labelOf)
    ensures m == m' <==> NoVariant(ds, SUCCESS) && (NoVariant(ds, FAILED) || (!Has(ds, SUCCESS) && Has(ds, FAILED)))
  {
    AllInBounds(b, ds, SUCCESS);
    AllInBounds(b, ds, FAILED);
    MetricsAre(m, rolled, b, dayCount, labelOf, Exact(b, SUCCESS, ds), Exact(b, FAILED, ds));
    MetricsAre(m', raw, b, dayCount, labelOf, Folded(b, SUCCESS, ds), Folded(b, FAILED, ds));
    ExactWithinFolded(b, SUCCESS, ds);
    ExactWithinFolded(b, FAILED, ds);
    if NoVariant(ds, SUCCESS) {
      SamePoints(ds, b, dayCount, labelOf, rolled, m, raw, m');
    }
    SameNumbersIff(m, m', |Exact(b, SUCCESS, ds)|, |Exact(b, FAILED, ds)|, |Folded(b, SUCCESS, ds)|, |Folded(b, FAILED, ds)|, dayCount);
  }

  lemma {:induction false} SamePoints(ds: seq<Deployment>, b: Bounds, dayCount: int, labelOf: int -> string,
                                      rolled: seq<DailyMetric>, m: DeploymentMetrics, raw: seq<DailyMetric>, m': DeploymentMetrics)
    requires AllCovered(ds, b) && NoVariant(ds, SUCCESS)
    requires HasCounts(rolled, b, Exact(b, SUCCESS, ds), Exact(b, FAILED, ds))
    requires HasCounts(raw, b, Folded(b, SUCCESS, ds), Folded(b, FAILED, ds))
    requires IsMetrics(m, rolled, b, dayCount, labelOf) && IsMetrics(m', raw, b, dayCount, labelOf)
    ensures m.trend == m'.trend
  {
    ExactWithinFolded(b, SUCCESS, ds);
    SameSuccessesSamePoints(m.trend, m'.trend, b, labelOf, rolled, raw);
  }

  /** Words of lower-case letters have no variants among each other. */
  lemma {:induction false} LowerCaseHasNoVariant(ds: seq<Deployment>, word: string)
    requires forall i, k :: 0 <= i < |ds| && 0 <= k < |ds[i].status| ==> 'a' <= ds[i].status[k] <= 'z'
    ensures NoVariant(ds, word)
  {
    forall i | 0 <= i < |ds| && EqualFold(ds[i].status, word) ensures ds[i].status == word {
      forall k | 0 <= k < |word| ensures ds[i].status[k] == word[k] {
        assert FoldsTo(ds[i].status[k], word[k]);
      }
    }
  }

  /** The stored daily records are such a roll-up. */
  lemma {:induction false} StoredRowsHaveCounts(raw: Raw, b: Bounds)
    requires b.Valid()
    ensures HasCounts(DailyRows(Select(raw, b), b), b, Exact(b, SUCCESS, raw.deployments), Exact(b, FAILED, raw.deployments))
  {
  }
}
