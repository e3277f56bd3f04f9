/** A sync and webhooks write the same tables. Here an attempt's statements, its checkpoints, its death and the webhooks'
    upserts are single steps in any order; one attempt is under way at a time. */
module SharedTables {
  import opened Sql
  import opened Upserts
  import opened Text
  import opened PagedSync
  import opened EventTables
  import opened OutcomeTables
  import opened RemoteItems
  import opened JobResume

  /** at: the page an attempt works on and how many statements of its batch it has executed. applied and webhooks list the
      upserts so far, finished tells whether some attempt has got to the end of the listing. */
  datatype World<K, R, E> = World(rows: map<K, R>, checkpoint: Option<Checkpoint>, at: Option<(int, int)>,
                                  applied: seq<(K, E)>, webhooks: seq<(K, E)>, finished: bool)

  datatype Step<K, E> =
    | Begin
    | Statement
    | Record(ok: bool, stored: bool)    // the checkpoint call; one that fails may still have taken effect
    | Die
    | Webhook(e: (K, E))

  function WithUpsert<Item, K, R, E>(res: Resource<Item, K, R, E>, w: World<K, R, E>, e: (K, E)): World<K, R, E> {
    w.(rows := w.rows[e.0 := res.merge(Lookup(w.rows, e.0), e.1)], applied := w.applied + [e])
  }

  function Next<Item, K, R, E>(res: Resource<Item, K, R, E>, w: World<K, R, E>, step: Step<K, E>): World<K, R, E> {
    match step
    case Webhook(e) => WithUpsert(res, w.(webhooks := w.webhooks + [e]), e)
    case Begin => if w.at.Some? then w else w.(at := Some((ResumePage(w.checkpoint), 0)))
    case Die => w.(at := None)
    case Statement =>
      if w.at.None? || !(0 <= w.at.value.1 < |Batch(res, w.at.value.0)|) then w
      else WithUpsert(res, w, Batch(res, w.at.value.0)[w.at.value.1]).(at := Some((w.at.value.0, w.at.value.1 + 1)))
    case Record(ok, stored) =>
      if w.at.None? || w.at.value.1 != |Batch(res, w.at.value.0)| then w
      else
        var next := res.NextPage(w.at.value.0);
        w.(checkpoint := if ok || stored then Some(CheckpointFor(next)) else w.checkpoint,
           at := if ok && next != 0 then Some((next, 0)) else None,
           finished := w.finished || (ok && next == 0))
  }

  function RunFrom<Item, K, R, E>(res: Resource<Item, K, R, E>, w: World<K, R, E>, steps: seq<Step<K, E>>): World<K, R, E> {
    if steps == [] then w else Next(res, RunFrom(res, w, steps[..|steps| - 1]), steps[|steps| - 1])
  }

  function Start<K, R, E>(rows: map<K, R>): World<K, R, E> {
    World(rows, None, None, [], [], false)
  }

  // ---------------------------------------------------------------- an attempt that nothing disturbs

  function Statements<K, E>(n: nat): seq<Step<K, E>> {
    seq(n, _ => Statement)
  }

  lemma {:induction false} UndisturbedStatements<Item, K, R, E>(res: Resource<Item, K, R, E>, w: World<K, R, E>, page: int, n: nat)
    requires w.at == Some((page, 0)) && n <= |Batch(res, page)|
    ensures RunFrom(res, w, Statements(n)) ==
            w.(rows := Upserted(res.merge, w.rows, Batch(res, page)[..n]), applied := w.applied + Batch(res, page)[..n], at := Some((page, n)))
  {
    if n > 0 {
      UndisturbedStatements(res, w, page, n - 1);
      assert Statements<K, E>(n)[..n - 1] == Statements<K, E>(n - 1);
      assert Batch(res, page)[..n][..n - 1] == Batch(res, page)[..n - 1];
      assert w.applied + Batch(res, page)[..n - 1] + [Batch(res, page)[n - 1]] == w.applied + Batch(res, page)[..n];
    }
  }

  /** The steps of an attempt, one after another, are the walk of PagedSync: it begins at the checkpoint's page, ... */
  lemma {:induction false} BeginsAtCheckpoint<Item, K, R, E>(res: Resource<Item, K, R, E>, w: World<K, R, E>)
    requires w.at.None?
    ensures Next(res, w, Begin) == w.(at := Some((ResumePage(w.checkpoint), 0)))
  {
  }

  /** ... and the statements of a page and its checkpoint call do what a whole page does there, recorded or not. */
  lemma {:induction false} UndisturbedPage<Item, K, R, E>(res: Resource<Item, K, R, E>, w: World<K, R, E>, page: int, ok: bool, stored: bool)
    requires w.at == Some((page, 0))
    ensures var w' := RunFrom(res, w, Statements(|Batch(res, page)|) + [Record(ok, stored)]);
            Store(w'.rows, w'.checkpoint) == AfterPage(res, Store(w.rows, w.checkpoint), page, ok || stored) &&
            w'.at == (if ok && res.NextPage(page) != 0 then Some((res.NextPage(page), 0)) else None) &&
            w'.finished == (w.finished || (ok && res.NextPage(page) == 0)) && w'.webhooks == w.webhooks
  {
    var n := |Batch(res, page)|;
    UndisturbedStatements(res, w, page, n);
    assert Batch(res, page)[..n] == Batch(res, page);
    assert (Statements<K, E>(n) + [Record(ok, stored)])[..n] == Statements<K, E>(n);
  }

  // ---------------------------------------------------------------- what every step keeps

  ghost predicate RowsAre<Item, K, R, E>(res: Resource<Item, K, R, E>, start: map<K, R>, w: World<K, R, E>) {
    w.rows == Upserted(res.merge, start, w.applied)
  }

  ghost predicate DoneBefore<Item, K, R, E>(res: Resource<Item, K, R, E>, applied: seq<(K, E)>, page: int) {
    forall p, i :: 1 <= p < page && 0 <= i < |Batch(res, p)| ==> Batch(res, p)[i] in applied
  }

  ghost predicate DonePart<Item, K, R, E>(res: Resource<Item, K, R, E>, applied: seq<(K, E)>, page: int, n: int) {
    0 <= n <= |Batch(res, page)| && forall i :: 0 <= i < n ==> Batch(res, page)[i] in applied
  }

  /** Everything before the checkpoint, and the executed part of the page under way, has been applied. */
  ghost predicate Progress<Item, K, R, E>(res: Resource<Item, K, R, E>, w: World<K, R, E>) {
    DoneBefore(res, w.applied, ResumePage(w.checkpoint)) &&
    (w.at.Some? ==> w.at.value.0 == ResumePage(w.checkpoint) && DonePart(res, w.applied, w.at.value.0, w.at.value.1))
  }

  ghost predicate AllApplied<Item, K, R, E>(res: Resource<Item, K, R, E>, w: World<K, R, E>) {
    DoneBefore(res, w.applied, |res.pages| + 1)
  }

  /** Nothing has been applied but listed items and webhooks. */
  ghost predicate Sources<Item, K, R, E>(res: Resource<Item, K, R, E>, w: World<K, R, E>) {
    (forall i :: 0 <= i < |w.webhooks| ==> w.webhooks[i] in w.applied) &&
    (forall i :: 0 <= i < |w.applied| ==> w.applied[i] in w.webhooks || exists page :: IsListed(res, page, w.applied[i]))
  }

  ghost predicate IsListed<Item, K, R, E>(res: Resource<Item, K, R, E>, page: int, e: (K, E)) {
    1 <= page <= |res.pages| && e in Batch(res, page)
  }

  lemma {:induction false} StepKeepsRows<Item, K, R, E>(res: Resource<Item, K, R, E>, start: map<K, R>, w: World<K, R, E>, step: Step<K, E>)
    requires RowsAre(res, start, w)
    ensures RowsAre(res, start, Next(res, w, step))
  {
  }

  lemma {:induction false} MoreApplied<Item, K, R, E>(res: Resource<Item, K, R, E>, applied: seq<(K, E)>, e: (K, E), page: int, n: int)
    ensures DoneBefore(res, applied, page) ==> DoneBefore(res, applied + [e], page)
    ensures DonePart(res, applied, page, n) ==> DonePart(res, applied + [e], page, n)
  {
  }

  lemma {:induction false} PageDone<Item, K, R, E>(res: Resource<Item, K, R, E>, applied: seq<(K, E)>, page: int)
    requires DoneBefore(res, applied, page) && DonePart(res, applied, page, |Batch(res, page)|)
    ensures DoneBefore(res, applied, page + 1)
  {
  }

  lemma {:induction false} StepKeepsProgress<Item, K, R, E>(res: Resource<Item, K, R, E>, w: World<K, R, E>, step: Step<K, E>)
    requires |res.pages| <= MAX_INT64 && Progress(res, w)
    ensures Progress(res, Next(res, w, step))
  {
    match step
    case Webhook(e) =>
      var (page, n) := if w.at.Some? then w.at.value else (0, 0);
      MoreApplied(res, w.applied, e, ResumePage(w.checkpoint), n);
    case Statement =>
      if w.at.Some? && w.at.value.1 < |Batch(res, w.at.value.0)| {
        var (page, n) := w.at.value;
        MoreApplied(res, w.applied, Batch(res, page)[n], page, n);
      }
    case Record(_, _) =>
      if w.at.Some? && w.at.value.1 == |Batch(res, w.at.value.0)| {
        PageDone(res, w.applied, w.at.value.0);
        CheckpointRoundTrip(res.NextPage(w.at.value.0));
      }
    case _ =>
  }

  lemma {:induction false} LastPageFinishes<Item, K, R, E>(res: Resource<Item, K, R, E>, w: World<K, R, E>)
    requires Progress(res, w) && w.at.Some? && w.at.value.1 == |Batch(res, w.at.value.0)| && res.NextPage(w.at.value.0) == 0
    ensures AllApplied(res, w)
  {
    PageDone(res, w.applied, w.at.value.0);
  }

  lemma {:induction false} StepKeepsFinished<Item, K, R, E>(res: Resource<Item, K, R, E>, w: World<K, R, E>, step: Step<K, E>)
    requires Progress(res, w) && (w.finished ==> AllApplied(res, w))
    ensures Next(res, w, step).finished ==> AllApplied(res, Next(res, w, step))
  {
    match step
    case Webhook(e) => MoreApplied(res, w.applied, e, |res.pages| + 1, 0);
    case Statement =>
      if w.at.Some? && 0 <= w.at.value.1 < |Batch(res, w.at.value.0)| {
        MoreApplied(res, w.applied, Batch(res, w.at.value.0)[w.at.value.1], |res.pages| + 1, 0);
      }
    case Record(_, _) =>
      if w.at.Some? && w.at.value.1 == |Batch(res, w.at.value.0)| && res.NextPage(w.at.value.0) == 0 {
        LastPageFinishes(res, w);
      }
    case _ =>
  }

  lemma {:induction false} StepKeepsSources<Item, K, R, E>(res: Resource<Item, K, R, E>, w: World<K, R, E>, step: Step<K, E>)
    requires Sources(res, w) && Progress(res, w)
    ensures Sources(res, Next(res, w, step))
  {
    var w' := Next(res, w, step);
    forall i | 0 <= i < |w'.applied|
      ensures w'.applied[i] in w'.webhooks || exists page :: IsListed(res, page, w'.applied[i])
    {
      if i < |w.applied| {
        assert w'.applied[i] == w.applied[i];
      } else if step.Statement? {
        assert IsListed(res, w.at.value.0, w'.applied[i]);
      }
    }
  }

  ghost predicate Good<Item, K, R, E>(res: Resource<Item, K, R, E>, start: map<K, R>, w: World<K, R, E>) {
    RowsAre(res, start, w) && Progress(res, w) && Sources(res, w) && (w.finished ==> AllApplied(res, w))
  }

  lemma {:induction false} EveryRunIsGood<Item, K, R, E>(res: Resource<Item, K, R, E>, start: map<K, R>, steps: seq<Step<K, E>>)
    requires |res.pages| <= MAX_INT64
    ensures Good(res, start, RunFrom(res, Start(start), steps))
  {
    if steps != [] {
      var w, step := RunFrom(res, Start(start), steps[..|steps| - 1]), steps[|steps| - 1];
      EveryRunIsGood(res, start, steps[..|steps| - 1]);
      StepKeepsRows(res, start, w, step);
      StepKeepsProgress(res, w, step);
      StepKeepsSources(res, w, step);
      StepKeepsFinished(res, w, step);
    }
  }

  // ---------------------------------------------------------------- what a finished attempt settles

  /** The upserts a clean sync and the webhooks make, one after the other. */
  function AllUpserts<Item, K, R, E>(res: Resource<Item, K, R, E>, w: World<K, R, E>): seq<(K, E)> {
    BatchesFrom(res, 1) + w.webhooks
  }

  lemma {:induction false} SameUpserts<Item, K, R, E>(res: Resource<Item, K, R, E>, start: map<K, R>, w: World<K, R, E>, e: (K, E))
    requires Good(res, start, w) && w.finished
    ensures e in w.applied <==> e in AllUpserts(res, w)
  {
    BatchesAre(res, 1, e);
    if e in w.applied {
      var i :| 0 <= i < |w.applied| && w.applied[i] == e;
      if e !in w.webhooks {
        var page :| IsListed(res, page, w.applied[i]);
      }
    }
    if e in BatchesFrom(res, 1) {
      var page :| 1 <= page <= |res.pages| && e in Batch(res, page);
      var i :| 0 <= i < |Batch(res, page)| && Batch(res, page)[i] == e;
    }
  }

  /** All events of one row: what it was at the start, then the upserts that hit it. */
  function RowEvents<K, E>(start: map<K, E>, es: seq<(K, E)>, k: K): seq<E> {
    History(Lookup(start, k), Values(Only(KeyOf, k, es)))
  }

  lemma {:induction false} InValues<K, E>(es: seq<(K, E)>, k: K, x: E)
    ensures x in Values(Only(KeyOf, k, es)) <==> (k, x) in es
  {
    var only := Only(KeyOf, k, es);
    OnlyAre(KeyOf, k, es, (k, x));
    if x in Values(only) {
      var i :| 0 <= i < |only| && only[i].1 == x;
      OnlyAre(KeyOf, k, es, only[i]);
    }
    if (k, x) in only {
      var i :| 0 <= i < |only| && only[i] == (k, x);
      assert Values(only)[i] == x;
    }
  }

  lemma {:induction false} SameRowEvents<Item, K, E>(res: Resource<Item, K, E, E>, start: map<K, E>, w: World<K, E, E>, k: K)
    requires Good(res, start, w) && w.finished
    ensures SameEvents(RowEvents(start, w.applied, k), RowEvents(start, AllUpserts(res, w), k))
  {
    var xs, ys := Values(Only(KeyOf, k, w.applied)), Values(Only(KeyOf, k, AllUpserts(res, w)));
    forall i | 0 <= i < |xs| ensures xs[i] in ys {
      InValues(w.applied, k, xs[i]);
      InValues(AllUpserts(res, w), k, xs[i]);
      SameUpserts(res, start, w, (k, xs[i]));
    }
    forall i | 0 <= i < |ys| ensures ys[i] in xs {
      InValues(w.applied, k, ys[i]);
      InValues(AllUpserts(res, w), k, ys[i]);
      SameUpserts(res, start, w, (k, ys[i]));
    }
  }

  lemma {:induction false} RowAfter<K, E(!new)>(merge: Merge<E, E>, start: map<K, E>, es: seq<(K, E)>, k: K)
    requires forall e :: merge(None, e) == e
    ensures Lookup(Upserted(merge, start, es), k) == Fold(merge, None, RowEvents(start, es, k))
  {
    ApplyPerKey(KeyOf, OnRow(merge), start, es, k);
    FoldOnRow(merge, Lookup(start, k), Only(KeyOf, k, es));
    FromHistory(merge, Lookup(start, k), Values(Only(KeyOf, k, es)));
  }

  /** The rows of one clean sync followed by the webhooks of the run. */
  function Reference<Item, K, R, E>(res: Resource<Item, K, R, E>, start: map<K, R>, w: World<K, R, E>): map<K, R> {
    Upserted(res.merge, Clean(res, start), w.webhooks)
  }

  /** Once an attempt has finished, whatever failed and however webhooks came in between: every row is the fold of a sequence of
      events with the same members as those of a clean sync followed by the webhooks. */
  lemma {:induction false} SettledByTheSameEvents<Item, K(!new), E(!new)>(
    res: Resource<Item, K, E, E>, start: map<K, E>, steps: seq<Step<K, E>>, k: K)
    requires |res.pages| <= MAX_INT64 && (forall e :: res.merge(None, e) == e)
    requires RunFrom(res, Start(start), steps).finished
    ensures var w := RunFrom(res, Start(start), steps);
            var xs, ys := RowEvents(start, w.applied, k), RowEvents(start, AllUpserts(res, w), k);
            Lookup(w.rows, k) == Fold(res.merge, None, xs) && Lookup(Reference(res, start, w), k) == Fold(res.merge, None, ys) &&
            SameEvents(xs, ys)
  {
    var w := RunFrom(res, Start(start), steps);
    EveryRunIsGood(res, start, steps);
    SameRowEvents(res, start, w, k);
    RowAfter(res.merge, start, w.applied, k);
    RowAfter(res.merge, start, AllUpserts(res, w), k);
    ApplyAppend(KeyOf, OnRow(res.merge), start, BatchesFrom(res, 1), w.webhooks);
  }

  // ---------------------------------------------------------------- the tables that converge

  predicate SameLifecycle(a: PullRequest, b: PullRequest) {
    a.state == b.state && a.createdAt == b.createdAt && a.mergedAt == b.mergedAt && a.closedAt == b.closedAt
  }

  /** Pull requests end up as after a clean sync followed by the webhooks. */
  lemma {:induction false} PullRequestsSettle(pages: seq<seq<GoodPullItem>>, cutoff: Option<int>, start: map<int, GoodPullRequest>,
                                              steps: seq<Step<int, GoodPullRequest>>, k: int)
    requires |pages| <= MAX_INT64 && RunFrom(Pulls(pages, cutoff), Start(start), steps).finished
    ensures var res := Pulls(pages, cutoff);
            var w := RunFrom(res, Start(start), steps);
            var a, b := Lookup(w.rows, k), Lookup(Reference(res, start, w), k);
            (a.None? <==> b.None?) && (a.Some? ==> SameLifecycle(a.value, b.value))
  {
    var res := Pulls(pages, cutoff);
    var w := RunFrom(res, Start(start), steps);
    SettledByTheSameEvents(res, start, steps, k);
    var xs, ys := RowEvents(start, w.applied, k), RowEvents(start, AllUpserts(res, w), k);
    FoldGood(None, xs);
    FoldGood(None, ys);
    EmptyTogether(xs, ys);
    if xs != [] { PullRequestsConverge(xs, ys); }
  }

  lemma {:induction false} EmptyTogether<E>(xs: seq<E>, ys: seq<E>)
    requires SameEvents(xs, ys)
    ensures xs == [] <==> ys == []
  {
    if xs != [] { assert xs[0] in ys; }
    if ys != [] { assert ys[0] in xs; }
  }

  /** So do deployments, when equal times carry equal statuses. */
  lemma {:induction false} DeploymentsSettle(pages: seq<seq<DeploymentItem>>, cutoff: Option<int>, start: map<int, Deployment>,
                                             steps: seq<Step<int, Deployment>>, k: int)
    requires |pages| <= MAX_INT64 && RunFrom(Deployments(pages, cutoff), Start(start), steps).finished
    requires var xs := RowEvents(start, RunFrom(Deployments(pages, cutoff), Start(start), steps).applied, k);
             forall d, e :: d in xs && e in xs && d.deployedAt == e.deployedAt ==> d.status == e.status
    ensures var res := Deployments(pages, cutoff);
            var w := RunFrom(res, Start(start), steps);
            var a, b := Lookup(w.rows, k), Lookup(Reference(res, start, w), k);
            (a.None? <==> b.None?) && (a.Some? ==> a.value.status == b.value.status && a.value.deployedAt == b.value.deployedAt)
  {
    var res := Deployments(pages, cutoff);
    var w := RunFrom(res, Start(start), steps);
    SettledByTheSameEvents(res, start, steps, k);
    var xs, ys := RowEvents(start, w.applied, k), RowEvents(start, AllUpserts(res, w), k);
    EmptyTogether(xs, ys);
    if xs != [] { DeploymentsConverge(xs, ys); }
  }

  /** And workflow runs once completed, when their events are orderly. */
  lemma {:induction false} WorkflowRunsSettle(pages: seq<seq<WorkflowItem>>, cutoff: Option<int>, start: map<int, WorkflowRun>,
                                              steps: seq<Step<int, WorkflowRun>>, k: int)
    requires |pages| <= MAX_INT64 && RunFrom(WorkflowRuns(pages, cutoff), Start(start), steps).finished
    requires var xs := RowEvents(start, RunFrom(WorkflowRuns(pages, cutoff), Start(start), steps).applied, k);
             OrderlyRuns(xs) && exists e :: e in xs && e.completedAt.Some?
    ensures var res := WorkflowRuns(pages, cutoff);
            var w := RunFrom(res, Start(start), steps);
            var a, b := Lookup(w.rows, k), Lookup(Reference(res, start, w), k);
            a.Some? && b.Some? && a.value.(name := "") == b.value.(name := "")
  {
    var res := WorkflowRuns(pages, cutoff);
    var w := RunFrom(res, Start(start), steps);
    SettledByTheSameEvents(res, start, steps, k);
    WorkflowRunsConverge(RowEvents(start, w.applied, k), RowEvents(start, AllUpserts(res, w), k));
  }
}
