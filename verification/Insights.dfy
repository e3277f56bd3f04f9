/** Insights: one per fingerprint, and a stored status per key that can be reopened by a newer detection. */
module Insights {
  import opened Sql

  datatype Severity = Critical | High | Medium | Low | Unknown

  function SeverityRank(s: Severity): int {
    match s case Critical => 4 case High => 3 case Medium => 2 case Low => 1 case Unknown => 0
  }

  /** From `least` upwards. */
  predicate AtLeast(s: Severity, least: Severity) {
    match least
    case Critical => s == Critical
    case High => s == Critical || s == High
    case Medium => s == Critical || s == High || s == Medium
    case Low => s != Unknown
    case Unknown => true
  }

  datatype Status = Open | Reviewed | Dismissed

  datatype StatusRow = StatusRow(status: Status, reviewedBy: Option<string>, reviewedAt: Option<int>,
                                 dismissedAt: Option<int>, reopenedAt: Option<int>)

  const OPEN_ROW: StatusRow := StatusRow(Open, None, None, None, None)

  /** A generated insight, and the status it is shown with. */
  datatype Insight = Insight(key: string, fingerprint: string, severity: Severity, detectedAt: int, row: StatusRow)

  // ---------------------------------------------------------------- deduplication

  /** shouldReplaceInsight. */
  predicate Outranks(candidate: Insight, existing: Insight) {
    if SeverityRank(candidate.severity) != SeverityRank(existing.severity)
    then SeverityRank(candidate.severity) > SeverityRank(existing.severity)
    else candidate.detectedAt > existing.detectedAt
  }

  /** Fingerprints in the order of their first occurrence. */
  function Fingerprints(items: seq<Insight>): seq<string> {
    if items == [] then []
    else
      var before, f := Fingerprints(items[..|items| - 1]), items[|items| - 1].fingerprint;
      if f in before then before else before + [f]
  }

  /** The insight kept for a fingerprint. */
  function Kept(items: seq<Insight>, f: string): Option<Insight> {
    if items == [] then None
    else
      var existing, item := Kept(items[..|items| - 1], f), items[|items| - 1];
      if item.fingerprint == f && (existing.None? || Outranks(item, existing.value)) then Some(item) else existing
  }

  predicate Seen(items: seq<Insight>, f: string) {
    exists i :: 0 <= i < |items| && items[i].fingerprint == f
  }

  lemma {:induction false} FingerprintsAre(items: seq<Insight>, f: string)
    ensures f in Fingerprints(items) <==> Seen(items, f)
    ensures f in Fingerprints(items) <==> Kept(items, f).Some?
  {
    if items != [] {
      var init := items[..|items| - 1];
      FingerprintsAre(init, f);
      if Seen(init, f) {
        var i :| 0 <= i < |init| && init[i].fingerprint == f;
        assert items[i].fingerprint == f;
      }
    }
  }

  lemma {:induction false} FingerprintsDistinct(items: seq<Insight>)
    ensures forall i, j :: 0 <= i < j < |Fingerprints(items)| ==> Fingerprints(items)[i] != Fingerprints(items)[j]
  {
    if items != [] { FingerprintsDistinct(items[..|items| - 1]); }
  }

  function FirstIndex(items: seq<Insight>, f: string): (i: nat)
    requires Seen(items, f)
    ensures i < |items| && items[i].fingerprint == f && forall j :: 0 <= j < i ==> items[j].fingerprint != f
  {
    if Seen(items[..|items| - 1], f) then FirstIndex(items[..|items| - 1], f)
    else
      assert forall j :: 0 <= j < |items| - 1 ==> items[..|items| - 1][j] == items[j];
      |items| - 1
  }

  /** The kept insights come in the order in which their fingerprints first occurred. */
  lemma {:induction false} FirstOccurrenceOrder(items: seq<Insight>, a: nat, b: nat)
    requires a < b < |Fingerprints(items)|
    ensures var fs := Fingerprints(items);
            Seen(items, fs[a]) && Seen(items, fs[b]) && FirstIndex(items, fs[a]) < FirstIndex(items, fs[b])
  {
    var init, fs := items[..|items| - 1], Fingerprints(items);
    FingerprintsAre(items, fs[a]);
    FingerprintsAre(items, fs[b]);
    FingerprintsAre(init, fs[a]);
    FingerprintsAre(init, fs[b]);
    FingerprintsDistinct(items);
    if b < |Fingerprints(init)| { FirstOccurrenceOrder(init, a, b); }
  }

  /** The kept insight is the first of the greatest by severity, then detection time. */
  lemma {:induction false} KeptIsFirstGreatest(items: seq<Insight>, f: string) returns (k: nat)
    requires Seen(items, f)
    ensures k < |items| && items[k].fingerprint == f && Kept(items, f) == Some(items[k])
    ensures forall j :: 0 <= j < |items| && items[j].fingerprint == f ==>
              AtLeast(items[k].severity, items[j].severity) &&
              (items[j].severity == items[k].severity ==> items[j].detectedAt <= items[k].detectedAt)
    ensures forall j :: 0 <= j < k && items[j].fingerprint == f && items[j].severity == items[k].severity ==>
              items[j].detectedAt < items[k].detectedAt
  {
    var init, last := items[..|items| - 1], |items| - 1;
    FingerprintsAre(init, f);
    k := last;
    if Seen(init, f) {
      var i := KeptIsFirstGreatest(init, f);
      assert forall j :: 0 <= j < |init| ==> init[j] == items[j];
      if items[last].fingerprint != f || !Outranks(items[last], items[i]) { k := i; }
    }
  }

  function KeptAll(items: seq<Insight>, fs: seq<string>): (r: seq<Insight>)
    requires forall i :: 0 <= i < |fs| ==> Kept(items, fs[i]).Some?
    ensures |r| == |fs| && forall i :: 0 <= i < |r| ==> r[i] == Kept(items, fs[i]).value
  {
    seq(|fs|, i requires 0 <= i < |fs| => Kept(items, fs[i]).value)
  }

  lemma {:induction false} AllKept(items: seq<Insight>)
    ensures forall i :: 0 <= i < |Fingerprints(items)| ==> Kept(items, Fingerprints(items)[i]).Some?
  {
    forall i | 0 <= i < |Fingerprints(items)| ensures Kept(items, Fingerprints(items)[i]).Some? {
      FingerprintsAre(items, Fingerprints(items)[i]);
    }
  }

  function Deduplicated(items: seq<Insight>, enabled: bool): seq<Insight> {
    if !enabled || |items| < 2 then items
    else
      AllKept(items);
      KeptAll(items, Fingerprints(items))
  }

  method DeduplicateInsights(items: seq<Insight>, enabled: bool) returns (deduped: seq<Insight>)
    ensures deduped == Deduplicated(items, enabled)
  {
    if !enabled || |items| < 2 {
      return items;
    }
    var seen: map<string, Insight> := map[];
    var order: seq<string> := [];
    for i := 0 to |items|
      invariant order == Fingerprints(items[..i])
      invariant forall f :: f in seen <==> Kept(items[..i], f).Some?
      invariant forall f :: f in seen ==> Kept(items[..i], f) == Some(seen[f])
    {
      var item := items[i];
      assert items[..i + 1][..i] == items[..i];
      FingerprintsAre(items[..i], item.fingerprint);
      if item.fingerprint in seen {
        if Outranks(item, seen[item.fingerprint]) {
          seen := seen[item.fingerprint := item];
        }
      } else {
        seen := seen[item.fingerprint := item];
        order := order + [item.fingerprint];
      }
    }
    assert items[..|items|] == items;
    AllKept(items);
    deduped := [];
    for i := 0 to |order|
      invariant deduped == KeptAll(items, order)[..i]
    {
      deduped := deduped + [seen[order[i]]];
    }
  }

  lemma {:induction false} DistinctAreKept(items: seq<Insight>)
    requires forall i, j :: 0 <= i < j < |items| ==> items[i].fingerprint != items[j].fingerprint
    ensures |Fingerprints(items)| == |items| && forall i :: 0 <= i < |items| ==> Fingerprints(items)[i] == items[i].fingerprint
    ensures forall i :: 0 <= i < |items| ==> Kept(items, items[i].fingerprint) == Some(items[i])
  {
    if items != [] {
      var init, last := items[..|items| - 1], items[|items| - 1];
      DistinctAreKept(init);
      FingerprintsAre(init, last.fingerprint);
      assert forall i :: 0 <= i < |init| ==> init[i] == items[i];
    }
  }

  lemma {:induction false} DeduplicatedTwice(items: seq<Insight>, enabled: bool)
    ensures Deduplicated(Deduplicated(items, enabled), enabled) == Deduplicated(items, enabled)
  {
    if enabled && |items| >= 2 {
      var once := Deduplicated(items, enabled);
      AllKept(items);
      FingerprintsDistinct(items);
      forall i | 0 <= i < |once| ensures once[i].fingerprint == Fingerprints(items)[i] {
        FingerprintsAre(items, Fingerprints(items)[i]);
        var k := KeptIsFirstGreatest(items, Fingerprints(items)[i]);
      }
      DistinctAreKept(once);
      AllKept(once);
    }
  }

  // ---------------------------------------------------------------- reopening

  datatype Rules = Rules(deduplicate: bool, minimumSeverity: Severity, onReviewed: bool, onDismissed: bool)

  function Later(a: Option<int>, b: Option<int>): Option<int> {
    if b.Some? && (a.None? || b.value > a.value) then b else a
  }

  function LatestTime(row: StatusRow): Option<int> {
    Later(Later(Later(None, row.reviewedAt), row.dismissedAt), row.reopenedAt)
  }

  predicate ShouldReopen(row: StatusRow, item: Insight, rules: Rules) {
    row.status != Open &&
    SeverityRank(item.severity) >= SeverityRank(rules.minimumSeverity) &&
    (row.status == Reviewed ==> rules.onReviewed) &&
    (row.status == Dismissed ==> rules.onDismissed) &&
    (LatestTime(row).Some? ==> item.detectedAt > LatestTime(row).value)
  }

  predicate After(time: int, recorded: Option<int>) {
    recorded.Some? ==> time > recorded.value
  }

  /** A reviewed row has its review time, a dismissed one its dismissal time. */
  predicate Timed(row: StatusRow) {
    (row.status == Reviewed ==> row.reviewedAt.Some?) && (row.status == Dismissed ==> row.dismissedAt.Some?)
  }

  /** A row written by the service reopens exactly when the rules allow it and the insight was detected strictly after
      every time the row has recorded, of which there is at least one. */
  lemma {:induction false} ReopensIff(row: StatusRow, item: Insight, rules: Rules)
    requires Timed(row)
    ensures ShouldReopen(row, item, rules) <==>
            ((row.status == Reviewed && rules.onReviewed && row.reviewedAt.Some?) ||
             (row.status == Dismissed && rules.onDismissed && row.dismissedAt.Some?)) &&
            AtLeast(item.severity, rules.minimumSeverity) &&
            After(item.detectedAt, row.reviewedAt) && After(item.detectedAt, row.dismissedAt) && After(item.detectedAt, row.reopenedAt)
  {
  }

  type Rows = map<string, StatusRow>

  function Reopened(row: StatusRow, at: int): StatusRow {
    StatusRow(Open, row.reviewedBy, row.reviewedAt, None, Some(at))
  }

  /** What loading shows for an item, given the rows read before. */
  function Shown(rows: Rows, item: Insight, rules: Rules, at: int): Insight {
    if item.key !in rows then item.(row := OPEN_ROW)
    else if ShouldReopen(rows[item.key], item, rules) then item.(row := Reopened(rows[item.key], at))
    else item.(row := rows[item.key])
  }

  function ShownAll(rows: Rows, items: seq<Insight>, rules: Rules, at: int): (shown: seq<Insight>)
    ensures |shown| == |items| && forall i :: 0 <= i < |shown| ==> shown[i] == Shown(rows, items[i], rules, at)
  {
    seq(|items|, i requires 0 <= i < |items| => Shown(rows, items[i], rules, at))
  }

  /** The keys loading writes, in order. */
  function ReopenedKeys(rows: Rows, items: seq<Insight>, rules: Rules): seq<string> {
    if items == [] then []
    else
      var before, item := ReopenedKeys(rows, items[..|items| - 1], rules), items[|items| - 1];
      if item.key in rows && ShouldReopen(rows[item.key], item, rules) then before + [item.key] else before
  }

  function RowsAfter(rows: Rows, keys: seq<string>, at: int): Rows
  {
    map k | k in rows :: if k in keys then Reopened(rows[k], at) else rows[k]
  }

  /** Loading these items, given the rows read before, has written these keys and left these rows. */
  predicate Loaded(statuses: Rows, items: seq<Insight>, rules: Rules, at: int, keys: seq<string>, rows: Rows) {
    keys == ReopenedKeys(statuses, items, rules) && rows == RowsAfter(statuses, keys, at)
  }

  predicate Reopens(statuses: Rows, item: Insight, rules: Rules) {
    item.key in statuses && ShouldReopen(statuses[item.key], item, rules)
  }

  lemma {:induction false} OneMoreLoaded(statuses: Rows, items: seq<Insight>, i: nat, rules: Rules, at: int, keys: seq<string>, rows: Rows)
    requires i < |items| && Loaded(statuses, items[..i], rules, at, keys, rows)
    ensures if Reopens(statuses, items[i], rules)
            then Loaded(statuses, items[..i + 1], rules, at, keys + [items[i].key], rows[items[i].key := Reopened(statuses[items[i].key], at)])
            else Loaded(statuses, items[..i + 1], rules, at, keys, rows)
  {
    assert items[..i + 1][..i] == items[..i];
  }

  function LoadedRows(rows: Rows, generated: seq<Insight>, rules: Rules, at: int): Rows {
    RowsAfter(rows, ReopenedKeys(rows, Deduplicated(generated, rules.deduplicate), rules), at)
  }

  function WithOpen(rows: Rows, items: seq<Insight>): Rows {
    if items == [] then rows
    else
      var before, item := WithOpen(rows, items[..|items| - 1]), items[|items| - 1];
      if item.row.status == Open then before[item.key := item.row.(dismissedAt := None)] else before
  }

  function RefreshedRows(rows: Rows, generated: seq<Insight>, rules: Rules, at: int): Rows {
    WithOpen(LoadedRows(rows, generated, rules, at), ShownAll(rows, Deduplicated(generated, rules.deduplicate), rules, at))
  }

  class Store {
    var rows: Rows
    ghost var written: seq<string>

    constructor (rows: Rows)
      ensures this.rows == rows && written == []
    {
      this.rows, written := rows, [];
    }

    method UpsertStatus(key: string, row: StatusRow)
      modifies this
      ensures rows == old(rows)[key := row] && written == old(written) + [key]
    {
      rows := rows[key := row];
      written := written + [key];
    }

    /** One round of loading: show the stored status, and reopen the row if it is due. */
    method LoadInsight(statuses: Rows, insight: Insight, rules: Rules, at: int) returns (item: Insight)
      modifies this
      ensures item == Shown(statuses, insight, rules, at)
      ensures if Reopens(statuses, insight, rules)
              then rows == old(rows)[insight.key := Reopened(statuses[insight.key], at)] && written == old(written) + [insight.key]
              else rows == old(rows) && written == old(written)
    {
      item := insight.(row := OPEN_ROW);
      if item.key in statuses {
        item := item.(row := statuses[item.key]);
        if ShouldReopen(statuses[item.key], item, rules) {
          UpsertStatus(item.key, Reopened(statuses[item.key], at));
          item := item.(row := Reopened(statuses[item.key], at));
        }
      }
    }

    /** The loop over the deduplicated insights, with the statuses read before it. */
    method LoadAll(deduped: seq<Insight>, rules: Rules, at: int) returns (items: seq<Insight>, ghost keys: seq<string>)
      modifies this
      ensures items == ShownAll(old(rows), deduped, rules, at)
      ensures written == old(written) + keys && Loaded(old(rows), deduped, rules, at, keys, rows)
    {
      var statuses := rows;
      items, keys := [], [];
      for i := 0 to |deduped|
        invariant items == ShownAll(statuses, deduped, rules, at)[..i]
        invariant written == old(written) + keys
        invariant Loaded(statuses, deduped[..i], rules, at, keys, rows)
      {
        OneMoreLoaded(statuses, deduped, i, rules, at, keys, rows);
        var item := LoadInsight(statuses, deduped[i], rules, at);
        items := items + [item];
        keys := if Reopens(statuses, deduped[i], rules) then keys + [deduped[i].key] else keys;
      }
      assert deduped[..|deduped|] == deduped;
    }

    method LoadInsights(generated: seq<Insight>, rules: Rules, at: int) returns (items: seq<Insight>)
      modifies this
      ensures var deduped := Deduplicated(generated, rules.deduplicate);
              items == ShownAll(old(rows), deduped, rules, at) &&
              written == old(written) + ReopenedKeys(old(rows), deduped, rules) &&
              rows == RowsAfter(old(rows), ReopenedKeys(old(rows), deduped, rules), at)
    {
      var deduped := DeduplicateInsights(generated, rules.deduplicate);
      ghost var keys;
      items, keys := LoadAll(deduped, rules, at);
    }

    /** Review, Dismiss and Reopen: the row is rewritten as a whole. */
    method Review(key: string, reviewer: Option<string>, at: int)
      modifies this
      ensures rows == old(rows)[key := StatusRow(Reviewed, reviewer, Some(at), None, None)]
    {
      UpsertStatus(key, StatusRow(Reviewed, reviewer, Some(at), None, None));
    }

    method Dismiss(key: string, at: int)
      modifies this
      ensures rows == old(rows)[key := StatusRow(Dismissed, None, None, Some(at), None)]
    {
      UpsertStatus(key, StatusRow(Dismissed, None, None, Some(at), None));
    }

    method Reopen(key: string, at: int)
      modifies this
      ensures rows == old(rows)[key := StatusRow(Open, None, None, None, Some(at))]
    {
      UpsertStatus(key, StatusRow(Open, None, None, None, Some(at)));
    }

    /** RefreshRepository: load, then store every insight that is open. */
    method Refresh(generated: seq<Insight>, rules: Rules, at: int)
      modifies this
      ensures rows == RefreshedRows(old(rows), generated, rules, at)
    {
      var items := LoadInsights(generated, rules, at);
      ghost var loaded := rows;
      for i := 0 to |items|
        invariant rows == WithOpen(loaded, items[..i])
      {
        assert items[..i + 1][..i] == items[..i];
        if items[i].row.status == Open {
          UpsertStatus(items[i].key, items[i].row.(dismissedAt := None));
        }
      }
      assert items[..|items|] == items;
    }
  }

  // ---------------------------------------------------------------- loading twice

  lemma {:induction false} ReopenedKeysAre(rows: Rows, items: seq<Insight>, rules: Rules, k: string)
    ensures k in ReopenedKeys(rows, items, rules) <==>
            k in rows && exists i :: 0 <= i < |items| && items[i].key == k && ShouldReopen(rows[k], items[i], rules)
  {
    if items != [] {
      var init := items[..|items| - 1];
      ReopenedKeysAre(rows, init, rules, k);
      if i :| 0 <= i < |init| && init[i].key == k && k in rows && ShouldReopen(rows[k], init[i], rules) {
        assert items[i].key == k;
      }
    }
  }

  lemma {:induction false} NoneReopened(rows: Rows, items: seq<Insight>, rules: Rules)
    requires forall i :: 0 <= i < |items| && items[i].key in rows ==> !ShouldReopen(rows[items[i].key], items[i], rules)
    ensures ReopenedKeys(rows, items, rules) == []
  {
    if items != [] { NoneReopened(rows, items[..|items| - 1], rules); }
  }

  /** Loading the same generated insights again writes nothing, at whatever time. */
  lemma {:induction false} LoadingTwiceWritesOnce(rows: Rows, generated: seq<Insight>, rules: Rules, at: int)
    ensures ReopenedKeys(LoadedRows(rows, generated, rules, at), Deduplicated(generated, rules.deduplicate), rules) == []
  {
    var items := Deduplicated(generated, rules.deduplicate);
    var keys := ReopenedKeys(rows, items, rules);
    var loaded := RowsAfter(rows, keys, at);
    forall i | 0 <= i < |items| && items[i].key in loaded ensures !ShouldReopen(loaded[items[i].key], items[i], rules) {
      ReopenedKeysAre(rows, items, rules, items[i].key);
    }
    NoneReopened(loaded, items, rules);
  }

  // ---------------------------------------------------------------- what is shown and what is stored

  predicate DistinctKeys(items: seq<Insight>) {
    forall i, j :: 0 <= i < j < |items| ==> items[i].key != items[j].key
  }

  /** Open, with whoever reviewed it before, and reopened now. */
  predicate IsReopened(row: StatusRow, before: StatusRow, at: int) {
    row.status == Open && row.reviewedBy == before.reviewedBy && row.reviewedAt == before.reviewedAt &&
    row.dismissedAt == None && row.reopenedAt == Some(at)
  }

  /** Loading reopens the rows of exactly the insights that are due, and leaves the others as they are. */
  lemma {:induction false} LoadedRowIs(rows: Rows, generated: seq<Insight>, rules: Rules, at: int, k: string)
    ensures var items, loaded := Deduplicated(generated, rules.deduplicate), LoadedRows(rows, generated, rules, at);
            (k in loaded <==> k in rows) &&
            (k in rows ==> if exists i :: 0 <= i < |items| && items[i].key == k && ShouldReopen(rows[k], items[i], rules)
                           then IsReopened(loaded[k], rows[k], at) else loaded[k] == rows[k])
  {
    ReopenedKeysAre(rows, Deduplicated(generated, rules.deduplicate), rules, k);
  }

  /** What loading shows of an insight is its stored row, or an open one without any time if there is none. */
  lemma {:induction false} ShownIsStored(rows: Rows, generated: seq<Insight>, rules: Rules, at: int, i: nat)
    requires var items := Deduplicated(generated, rules.deduplicate); i < |items| && DistinctKeys(items)
    ensures var items, loaded := Deduplicated(generated, rules.deduplicate), LoadedRows(rows, generated, rules, at);
            var shown := ShownAll(rows, items, rules, at)[i];
            shown.key == items[i].key && shown.fingerprint == items[i].fingerprint &&
            shown.severity == items[i].severity && shown.detectedAt == items[i].detectedAt &&
            shown.row == if shown.key in loaded then loaded[shown.key] else StatusRow(Open, None, None, None, None)
  {
    ReopenedKeysAre(rows, Deduplicated(generated, rules.deduplicate), rules, Deduplicated(generated, rules.deduplicate)[i].key);
  }

  lemma {:induction false} WithOpenIs(rows: Rows, items: seq<Insight>, k: string)
    requires DistinctKeys(items)
    ensures var stored := WithOpen(rows, items);
            if exists i :: 0 <= i < |items| && items[i].key == k && items[i].row.status == Open
            then k in stored && forall i :: 0 <= i < |items| && items[i].key == k ==> stored[k] == items[i].row.(dismissedAt := None)
            else (k in stored <==> k in rows) && (k in rows ==> stored[k] == rows[k])
  {
    if items != [] {
      var init := items[..|items| - 1];
      assert forall i :: 0 <= i < |init| ==> init[i] == items[i];
      WithOpenIs(rows, init, k);
    }
  }

  /** After a refresh every insight shown open has a stored row, the same up to a dismissal time, and every other row is as
      loading left it. */
  lemma {:induction false} RefreshedRowIs(rows: Rows, generated: seq<Insight>, rules: Rules, at: int, k: string)
    requires DistinctKeys(Deduplicated(generated, rules.deduplicate))
    ensures var shown := ShownAll(rows, Deduplicated(generated, rules.deduplicate), rules, at);
            var loaded, refreshed := LoadedRows(rows, generated, rules, at), RefreshedRows(rows, generated, rules, at);
            if exists i :: 0 <= i < |shown| && shown[i].key == k && shown[i].row.status == Open
            then k in refreshed &&
                 forall i :: 0 <= i < |shown| && shown[i].key == k ==> refreshed[k] == shown[i].row.(dismissedAt := None)
            else (k in refreshed <==> k in loaded) && (k in loaded ==> refreshed[k] == loaded[k])
  {
    WithOpenIs(LoadedRows(rows, generated, rules, at), ShownAll(rows, Deduplicated(generated, rules.deduplicate), rules, at), k);
  }

  // ---------------------------------------------------------------- rows the service writes

  datatype Op =
    | Reviewing(key: string, reviewer: Option<string>, at: int)
    | Dismissing(key: string, at: int)
    | Reopening(key: string, at: int)
    | Loading(generated: seq<Insight>, rules: Rules, at: int)
    | Refreshing(generated: seq<Insight>, rules: Rules, at: int)

  function Performed(rows: Rows, op: Op): Rows {
    match op
    case Reviewing(key, reviewer, at) => rows[key := StatusRow(Reviewed, reviewer, Some(at), None, None)]
    case Dismissing(key, at) => rows[key := StatusRow(Dismissed, None, None, Some(at), None)]
    case Reopening(key, at) => rows[key := StatusRow(Open, None, None, None, Some(at))]
    case Loading(generated, rules, at) => LoadedRows(rows, generated, rules, at)
    case Refreshing(generated, rules, at) => RefreshedRows(rows, generated, rules, at)
  }

  function PerformedAll(ops: seq<Op>): Rows {
    if ops == [] then map[] else Performed(PerformedAll(ops[..|ops| - 1]), ops[|ops| - 1])
  }

  predicate AllTimed(rows: Rows) {
    forall k :: k in rows ==> Timed(rows[k])
  }

  lemma {:induction false} WithOpenStaysTimed(rows: Rows, items: seq<Insight>)
    requires AllTimed(rows)
    ensures AllTimed(WithOpen(rows, items))
  {
    if items != [] { WithOpenStaysTimed(rows, items[..|items| - 1]); }
  }

  /** In every run of the service's operations each row that is not open carries its time, so ReopensIff applies. */
  lemma {:induction false} EveryRowTimed(ops: seq<Op>)
    ensures AllTimed(PerformedAll(ops))
  {
    if ops != [] {
      var before, op := PerformedAll(ops[..|ops| - 1]), ops[|ops| - 1];
      EveryRowTimed(ops[..|ops| - 1]);
      if op.Refreshing? {
        WithOpenStaysTimed(LoadedRows(before, op.generated, op.rules, op.at),
                           ShownAll(before, Deduplicated(op.generated, op.rules.deduplicate), op.rules, op.at));
      }
    }
  }
}
