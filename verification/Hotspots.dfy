/** File hotspots: totals by file, a weighted score, a ranking and its pages. */
module Hotspots {
  import opened Sql
  import opened Text
  import opened Sorting
  import opened Grouping
  import opened DailyMetrics

  datatype Row = Row(path: string, additions: int, deletions: int, commits: int)

  datatype Weights = Weights(commits: real, additions: real, deletions: real)

  datatype File = File(path: string, additions: int, deletions: int, commits: int, score: real)

  function PathOf(r: Row): string { r.path }
  function AdditionsOf(r: Row): int { r.additions }
  function DeletionsOf(r: Row): int { r.deletions }
  function CommitsOf(r: Row): int { r.commits }

  function Score(w: Weights, additions: int, deletions: int, commits: int): real {
    commits as real * w.commits + additions as real * w.additions + deletions as real * w.deletions
  }

  /** A file with its totals over all rows, and the score of those totals. */
  function FileOf(rows: seq<Row>, w: Weights, path: string): File {
    var additions, deletions, commits :=
      SumOf(rows, PathOf, AdditionsOf, path), SumOf(rows, PathOf, DeletionsOf, path), SumOf(rows, PathOf, CommitsOf, path);
    File(path, additions, deletions, commits, Score(w, additions, deletions, commits))
  }

  function Paths(files: seq<File>): (ps: seq<string>)
    ensures |ps| == |files| && forall i :: 0 <= i < |ps| ==> ps[i] == files[i].path
  {
    seq(|files|, i requires 0 <= i < |files| => files[i].path)
  }

  /** One file for every path that occurs, in any order. */
  ghost predicate IsAggregate(files: seq<File>, rows: seq<Row>, w: Weights) {
    Distinct(Paths(files)) &&
    (forall i :: 0 <= i < |files| ==> files[i] == FileOf(rows, w, files[i].path) && exists j :: 0 <= j < |rows| && rows[j].path == files[i].path) &&
    (forall j :: 0 <= j < |rows| ==> rows[j].path in Paths(files))
  }

  /** The items of the paths seen so far. */
  ghost predicate IsIndex(byFile: map<string, File>, rows: seq<Row>, w: Weights) {
    (forall j :: 0 <= j < |rows| ==> rows[j].path in byFile) &&
    (forall p :: p in byFile ==> byFile[p] == FileOf(rows, w, p) && exists j :: 0 <= j < |rows| && rows[j].path == p)
  }

  method AddRow(byFile: map<string, File>, ghost rows: seq<Row>, r: Row, w: Weights) returns (result: map<string, File>)
    requires IsIndex(byFile, rows, w)
    ensures IsIndex(result, rows + [r], w)
  {
    var item := if r.path in byFile then byFile[r.path] else File(r.path, 0, 0, 0, 0.0);
    var additions, deletions, commits := item.additions + r.additions, item.deletions + r.deletions, item.commits + r.commits;
    item := File(r.path, additions, deletions, commits, Score(w, additions, deletions, commits));
    result := byFile[r.path := item];
    ghost var more := rows + [r];
    if r.path !in byFile { AbsentPath(rows, r.path); }
    forall p | p in result ensures result[p] == FileOf(more, w, p) && exists j :: 0 <= j < |more| && more[j].path == p {
      if p == r.path {
        assert more[|rows|].path == p;
      } else {
        var j :| 0 <= j < |rows| && rows[j].path == p;
        assert more[j] == rows[j];
      }
    }
  }

  lemma {:induction false} AbsentPath(rows: seq<Row>, path: string)
    requires forall j :: 0 <= j < |rows| ==> rows[j].path != path
    ensures SumOf(rows, PathOf, AdditionsOf, path) == 0 && SumOf(rows, PathOf, DeletionsOf, path) == 0 && SumOf(rows, PathOf, CommitsOf, path) == 0
  {
    if rows != [] { AbsentPath(rows[..|rows| - 1], path); }
  }

  lemma {:induction false} ListingIsAggregate(entries: seq<(string, File)>, byFile: map<string, File>, files: seq<File>, rows: seq<Row>, w: Weights)
    requires IsIndex(byFile, rows, w) && IsListing(entries, byFile)
    requires |files| == |entries| && forall i :: 0 <= i < |files| ==> files[i] == entries[i].1
    ensures IsAggregate(files, rows, w)
  {
    forall i | 0 <= i < |files| ensures files[i] == FileOf(rows, w, files[i].path) && files[i].path == entries[i].0 {
      assert entries[i].0 in byFile;
    }
    forall i | 0 <= i < |files| ensures exists j :: 0 <= j < |rows| && rows[j].path == files[i].path {
      assert entries[i].0 in byFile;
    }
    forall j | 0 <= j < |rows| ensures rows[j].path in Paths(files) {
      var p := rows[j].path;
      assert (p, byFile[p]) in entries;
      var i :| 0 <= i < |entries| && entries[i] == (p, byFile[p]);
      assert Paths(files)[i] == p;
    }
  }

  method FilesOf(byFile: map<string, File>, ghost rows: seq<Row>, w: Weights) returns (files: seq<File>)
    requires IsIndex(byFile, rows, w)
    ensures IsAggregate(files, rows, w)
  {
    var entries := Entries(byFile);
    files := seq(|entries|, i requires 0 <= i < |entries| => entries[i].1);
    ListingIsAggregate(entries, byFile, files, rows, w);
  }

  method AggregateHotspots(rows: seq<Row>, w: Weights) returns (files: seq<File>)
    ensures IsAggregate(files, rows, w)
  {
    var byFile: map<string, File> := map[];
    for i := 0 to |rows|
      invariant IsIndex(byFile, rows[..i], w)
    {
      byFile := AddRow(byFile, rows[..i], rows[i], w);
      assert rows[..i + 1] == rows[..i] + [rows[i]];
    }
    assert rows[..|rows|] == rows;
    files := FilesOf(byFile, rows, w);
  }

  function FileAdditions(f: File): int { f.additions }
  function FileDeletions(f: File): int { f.deletions }
  function FileCommits(f: File): int { f.commits }

  lemma {:induction false} SumFiles(files: seq<File>, rows: seq<Row>, g: File -> int, f: Row -> int)
    requires forall i :: 0 <= i < |files| ==> g(files[i]) == SumOf(rows, PathOf, f, files[i].path)
    ensures Sum(files, g) == SumOfAll(rows, PathOf, f, Paths(files))
  {
    if files != [] {
      SumFiles(files[..|files| - 1], rows, g, f);
      assert Paths(files)[..|files| - 1] == Paths(files[..|files| - 1]);
    }
  }

  /** Totals are conserved: the files' additions, deletions and commits add up to those of the rows. */
  lemma {:induction false} TotalsConserved(files: seq<File>, rows: seq<Row>, w: Weights)
    requires IsAggregate(files, rows, w)
    ensures Sum(files, FileAdditions) == Sum(rows, AdditionsOf)
    ensures Sum(files, FileDeletions) == Sum(rows, DeletionsOf)
    ensures Sum(files, FileCommits) == Sum(rows, CommitsOf)
  {
    SumFiles(files, rows, FileAdditions, AdditionsOf);
    SumFiles(files, rows, FileDeletions, DeletionsOf);
    SumFiles(files, rows, FileCommits, CommitsOf);
    SumsConserved(rows, PathOf, AdditionsOf, Paths(files));
    SumsConserved(rows, PathOf, DeletionsOf, Paths(files));
    SumsConserved(rows, PathOf, CommitsOf, Paths(files));
  }

  /** Additions, deletions and commits of the rows of one path. */
  function TotalsOf(rows: seq<Row>, path: string): (int, int, int) {
    if rows == [] then (0, 0, 0)
    else
      var before, r := TotalsOf(rows[..|rows| - 1], path), rows[|rows| - 1];
      if r.path != path then before else (before.0 + r.additions, before.1 + r.deletions, before.2 + r.commits)
  }

  lemma {:induction false} SumsAreTotals(rows: seq<Row>, path: string)
    ensures TotalsOf(rows, path) ==
            (SumOf(rows, PathOf, AdditionsOf, path), SumOf(rows, PathOf, DeletionsOf, path), SumOf(rows, PathOf, CommitsOf, path))
  {
    if rows != [] { SumsAreTotals(rows[..|rows| - 1], path); }
  }

  /** A file carries the totals of its own path, and each of them is weighted by its own weight. */
  lemma {:induction false} FileIs(files: seq<File>, rows: seq<Row>, w: Weights, i: nat)
    requires IsAggregate(files, rows, w) && i < |files|
    ensures var f := files[i];
            (f.additions, f.deletions, f.commits) == TotalsOf(rows, f.path) &&
            f.score == f.commits as real * w.commits + f.additions as real * w.additions + f.deletions as real * w.deletions
  {
    SumsAreTotals(rows, files[i].path);
  }

  // ---------------------------------------------------------------- ranking

  predicate RanksBefore(x: File, y: File, ascending: bool) {
    if x.score == y.score then StringLess(x.path, y.path)
    else if ascending then x.score < y.score
    else x.score > y.score
  }

  function Rank(ascending: bool): (File, File) -> bool {
    (x: File, y: File) => RanksBefore(x, y, ascending)
  }

  lemma {:induction false} RankIsStrictOrder(ascending: bool)
    ensures StrictOrder(Rank(ascending))
  {
    forall x: File ensures !RanksBefore(x, x, ascending) { StringLessIsStrict(x.path); }
    forall x: File, y: File, z: File | RanksBefore(x, y, ascending) && RanksBefore(y, z, ascending)
      ensures RanksBefore(x, z, ascending)
    {
      if x.score == y.score == z.score { StringLessIsTransitive(x.path, y.path, z.path); }
    }
  }

  lemma {:induction false} AggregateIsComparable(files: seq<File>, rows: seq<Row>, w: Weights, ascending: bool)
    requires IsAggregate(files, rows, w)
    ensures Comparable(files, Rank(ascending))
  {
    forall i, j | 0 <= i < j < |files| ensures RanksBefore(files[i], files[j], ascending) || RanksBefore(files[j], files[i], ascending) {
      assert Paths(files)[i] != Paths(files)[j];
      StringLessIsTotal(files[i].path, files[j].path);
    }
  }

  /** The ranking holds the files, highest score first (or lowest, when ascending), and equal scores by path. */
  lemma {:induction false} RankedByScore(files: seq<File>, rows: seq<Row>, w: Weights, ascending: bool, i: nat, j: nat)
    requires IsAggregate(files, rows, w) && i < j < |files|
    ensures var ranking := Sort(files, Rank(ascending));
            multiset(ranking) == multiset(files) && |ranking| == |files| &&
            (if ascending then ranking[i].score <= ranking[j].score else ranking[i].score >= ranking[j].score) &&
            (ranking[i].score == ranking[j].score ==> exists k :: FirstDifference(ranking[i].path, ranking[j].path, k))
  {
    var ranking := Sort(files, Rank(ascending));
    RankIsStrictOrder(ascending);
    AggregateIsComparable(files, rows, w, ascending);
    SortIsAscending(files, Rank(ascending));
    assert |multiset(ranking)| == |multiset(files)|;
    StringLessIff(ranking[i].path, ranking[j].path);
  }

  lemma {:induction false} SameFiles(a: seq<File>, b: seq<File>, rows: seq<Row>, rows': seq<Row>, w: Weights)
    requires IsAggregate(a, rows, w) && IsAggregate(b, rows', w) && multiset(rows) == multiset(rows')
    ensures forall i :: 0 <= i < |a| ==> a[i] in b
  {
    forall i | 0 <= i < |a| ensures a[i] in b {
      var path := a[i].path;
      SumForgetsOrder(rows, rows', PathOf, AdditionsOf, path);
      SumForgetsOrder(rows, rows', PathOf, DeletionsOf, path);
      SumForgetsOrder(rows, rows', PathOf, CommitsOf, path);
      var j :| 0 <= j < |rows| && rows[j].path == path;
      assert rows[j] in multiset(rows');
      var j' :| 0 <= j' < |rows'| && rows'[j'] == rows[j];
      assert rows'[j'].path in Paths(b);
      var k :| 0 <= k < |b| && Paths(b)[k] == path;
      assert b[k] == a[i];
    }
  }

  /** The ranking is one and the same for every order of the input rows and every order the map is iterated in. */
  lemma {:induction false} RankingIsUnique(a: seq<File>, b: seq<File>, rows: seq<Row>, rows': seq<Row>, w: Weights, ascending: bool)
    requires IsAggregate(a, rows, w) && IsAggregate(b, rows', w) && multiset(rows) == multiset(rows')
    ensures Sort(a, Rank(ascending)) == Sort(b, Rank(ascending))
  {
    RankIsStrictOrder(ascending);
    AggregateIsComparable(a, rows, w, ascending);
    AggregateIsComparable(b, rows', w, ascending);
    SameFiles(a, b, rows, rows', w);
    SameFiles(b, a, rows', rows, w);
    SortForgetsOrder(a, b, Rank(ascending));
  }

  // ---------------------------------------------------------------- pages

  function PageOf(files: seq<File>, page: int, pageSize: int): seq<File>
    requires page >= 1 && pageSize >= 1
  {
    var start := (page - 1) * pageSize;
    if start >= |files| then []
    else files[start..if start + pageSize > |files| then |files| else start + pageSize]
  }

  /** Some(true) for ascending, None for an unknown order. */
  function ParseOrder(sortOrder: string): Option<bool> {
    var order := Lower(Trim(sortOrder));
    if order == "" || order == "desc" then Some(false) else if order == "asc" then Some(true) else None
  }

  /** A stored file change and the times of its pull request. */
  datatype Change = Change(row: Row, createdAt: int, mergedAt: Option<int>)

  /** The pull request was created before the end of the range, and created or merged since its start, or not merged. */
  predicate Touches(b: Bounds, c: Change) {
    c.createdAt < b.until * DAY && (c.mergedAt.None? || c.mergedAt.value >= b.from * DAY || c.createdAt >= b.from * DAY)
  }

  function RowsIn(b: Bounds, changes: seq<Change>): seq<Row> {
    if changes == [] then []
    else RowsIn(b, changes[..|changes| - 1]) + if Touches(b, changes[|changes| - 1]) then [changes[|changes| - 1].row] else []
  }

  /** A change is left out when its pull request was created after the range, or was created and merged before it. */
  predicate Misses(c: Change, b: Bounds) {
    c.createdAt >= b.until * 86_400_000_000 ||
    (c.mergedAt.Some? && c.mergedAt.value < b.from * 86_400_000_000 && c.createdAt < b.from * 86_400_000_000)
  }

  /** The others are taken, once each and in order. */
  lemma {:induction false} RowsInRange(b: Bounds, changes: seq<Change>, c: Change)
    ensures RowsIn(b, []) == []
    ensures RowsIn(b, changes + [c]) == RowsIn(b, changes) + if Misses(c, b) then [] else [c.row]
  {
    assert (changes + [c])[..|changes|] == changes;
  }

  datatype Result = Invalid | Found(items: seq<File>, totalItems: int)

  /** The page of the ranking, which is the same for every aggregation of the rows, and the number of files. */
  ghost predicate IsPage(r: Result, rows: seq<Row>, w: Weights, ascending: bool, page: int, pageSize: int)
    requires page >= 1 && pageSize >= 1
  {
    exists files :: IsAggregate(files, rows, w) && r == Found(PageOf(Sort(files, Rank(ascending)), page, pageSize), |files|)
  }

  method GetHotspots(changes: seq<Change>, w: Weights, from: Option<int>, end: Option<int>, sortOrder: string, page: int, pageSize: int)
    returns (r: Result)
    ensures r.Invalid? <==> NormalizeBounds(from, end).None? || ParseOrder(sortOrder).None? || page < 1 || pageSize < 1
    ensures r.Found? ==> IsPage(r, RowsIn(NormalizeBounds(from, end).value, changes), w, ParseOrder(sortOrder).value, page, pageSize)
  {
    var b := NormalizeBounds(from, end);
    if b.None? {
      return Invalid;
    }
    var order := Lower(Trim(sortOrder));
    if order == "" {
      order := "desc";
    }
    if order != "asc" && order != "desc" {
      return Invalid;
    }
    if page < 1 || pageSize < 1 {
      return Invalid;
    }
    var ascending := order == "asc";
    var rows := RowsIn(b.value, changes);
    var files := AggregateHotspots(rows, w);
    r := Found(PageOf(Sort(files, Rank(ascending)), page, pageSize), |files|);
    assert IsPage(r, rows, w, ascending, page, pageSize);
  }

  /** Pages 1 to n, one after another. */
  function FirstPages(files: seq<File>, n: nat, pageSize: int): seq<File>
    requires pageSize >= 1
  {
    if n == 0 then [] else FirstPages(files, n - 1, pageSize) + PageOf(files, n, pageSize)
  }

  /** The pages partition the ranking: the first n pages are its first n * pageSize files. */
  lemma {:induction false} PagesPartition(files: seq<File>, n: nat, pageSize: int)
    requires pageSize >= 1
    ensures n * pageSize >= 0
    ensures FirstPages(files, n, pageSize) == if n * pageSize >= |files| then files else files[..n * pageSize]
  {
    if n > 0 {
      PagesPartition(files, n - 1, pageSize);
      assert n * pageSize == (n - 1) * pageSize + pageSize;
    }
  }
}
