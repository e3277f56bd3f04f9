/** One run of a sync job: nested paging loops over GitHub and the store, while a Cancel can land at any moment and
    any call can fail. The run works on the four tables of JobResume with their page checkpoints; of the reviews and
    files below a pull request only the number of pages matters here. */
module SyncRun {
  import opened Sql
  import opened Upserts
  import opened SyncJobs
  import opened PagedSync
  import opened JobResume
  import opened RemoteItems
  import opened OutcomeTables

  datatype Kind = PullRequests | ChangedFiles | Reviews | Commits | Workflows | Deployments

  /** checkpoint_key "pull_<number>" of the lists below one pull request. */
  datatype ListKey = OfPull(kind: Kind, number: int)

  datatype CompletedEvent = CompletedEvent(occurredAt: int, from: Option<int>, to: int)

  // ---------------------------------------------------------------- what a run did, seen from outside

  datatype Action = Started | Checked | CancelLanded | Wrote(kind: Option<Kind>)

  function Init(log: seq<Action>): (r: seq<Action>)
    requires log != []
    ensures |r| < |log|
  {
    log[..|log| - 1]
  }

  /** A Cancel has landed since the job was started. */
  predicate CancelPending(log: seq<Action>) {
    log != [] && !log[|log| - 1].Started? && (log[|log| - 1].CancelLanded? || CancelPending(Init(log)))
  }

  /** Resource writes since that Cancel. */
  function WritesAfterCancel(log: seq<Action>): nat {
    if log == [] || log[|log| - 1].Started? then 0
    else WritesAfterCancel(Init(log)) + if log[|log| - 1].Wrote? && CancelPending(Init(log)) then 1 else 0
  }

  /** No resource write since a cancellation check last passed. */
  predicate Fresh(log: seq<Action>) {
    log != [] && !log[|log| - 1].Wrote? && (log[|log| - 1].Checked? || Fresh(Init(log)))
  }

  lemma {:induction false} OneMore(log: seq<Action>, a: Action)
    ensures Init(log + [a]) == log && (log + [a])[|log|] == a
    ensures CancelPending(log + [a]) <==> !a.Started? && (a.CancelLanded? || CancelPending(log))
    ensures WritesAfterCancel(log + [a]) ==
            if a.Started? then 0 else WritesAfterCancel(log) + if a.Wrote? && CancelPending(log) then 1 else 0
    ensures Fresh(log + [a]) <==> !a.Wrote? && (a.Checked? || Fresh(log))
  {
    assert (log + [a])[..|log|] == log;
  }

  /** What has to hold of the log and the status while the run goes on: the row is running until a Cancel lands and
      canceled from then on, and at most one resource was written under a Cancel: none while the last check is fresh. */
  predicate Orderly(log: seq<Action>, status: Status) {
    status == (if CancelPending(log) then Canceled else Running) &&
    WritesAfterCancel(log) <= 1 &&
    (Fresh(log) || !CancelPending(log) ==> WritesAfterCancel(log) == 0)
  }

  lemma {:induction false} CancelKeepsOrderly(log: seq<Action>, status: Status)
    requires Orderly(log, status)
    ensures Orderly(log + [CancelLanded], Canceled) && (Fresh(log) ==> Fresh(log + [CancelLanded]))
  {
    OneMore(log, CancelLanded);
  }

  lemma {:induction false} CheckKeepsOrderly(log: seq<Action>, status: Status)
    requires Orderly(log, status) && status != Canceled
    ensures Orderly(log + [Checked], status) && Fresh(log + [Checked])
  {
    OneMore(log, Checked);
  }

  lemma {:induction false} WriteKeepsOrderly(log: seq<Action>, status: Status, kind: Option<Kind>)
    requires Orderly(log, status) && Fresh(log)
    ensures Orderly(log + [Wrote(kind)], status)
  {
    OneMore(log, Wrote(kind));
  }

  datatype Check = Pass | IsCanceled | ReadFailed

  // ---------------------------------------------------------------- how a store moves while a page is worked on

  lemma {:induction false} PayloadPrefix<Item, K, E>(build: Item -> Option<(K, E)>, items: seq<Item>, i: nat)
    requires i <= |items|
    ensures Payload(build, items[..i]) <= Payload(build, items)
  {
    if i < |items| {
      PayloadPrefix(build, items[..|items| - 1], i);
      assert items[..|items| - 1][..i] == items[..i];
    } else {
      assert items[..i] == items;
    }
  }

  /** One more item is at most one more upsert. */
  lemma {:induction false} OneMoreItem<Item, K, R, E>(res: Resource<Item, K, R, E>, s: Store<K, R>, items: seq<Item>, i: nat)
    requires i < |items|
    ensures var before, after, built := Payload(res.build, items[..i]), Payload(res.build, items[..i + 1]), res.build(items[i]);
            var rows := WithPart(res, s, before).rows;
            (built.None? ==> after == before) &&
            (built.Some? ==>
               after == before + [built.value] &&
               WithPart(res, s, after).rows ==
               rows[built.value.0 := res.merge(Lookup(rows, built.value.0), built.value.1)])
  {
    assert items[..i + 1][..i] == items[..i];
    var before := Payload(res.build, items[..i]);
    if res.build(items[i]).Some? {
      assert (before + [res.build(items[i]).value])[..|before|] == before;
    }
  }

  function UpsertsBehind<Item, K, R, E>(res: Resource<Item, K, R, E>, page: int): nat {
    if res.NextPage(page) == 0 then 0 else |BatchesFrom(res, res.NextPage(page))|
  }

  lemma {:induction false} UpsertsLeft<Item, K, R, E>(res: Resource<Item, K, R, E>, page: int)
    requires page >= 1
    ensures |BatchesFrom(res, page)| == |Batch(res, page)| + UpsertsBehind(res, page)
  {
  }

  /** The checkpoint leads on from this page, or the walk is finished. */
  ghost predicate IsNext<Item, K, R, E>(res: Resource<Item, K, R, E>, start: map<K, R>, s: Store<K, R>, page: int) {
    if res.NextPage(page) == 0 then Finished(res, start, s) else ResumePage(s.checkpoint) == res.NextPage(page)
  }

  /** Finishing the walks from the stored checkpoints would leave the tables of one clean job on `start`. */
  ghost predicate Resumable(r: Remote, cutoff: Option<int>, start: Tables, t: Tables) {
    Pageable(r) && JobRecoverable(r, cutoff, start, t)
  }

  ghost predicate FirstDone(r: Remote, cutoff: Option<int>, start: Tables, t: Tables) {
    Finished(Pulls(r.pulls, cutoff), start.pulls.rows, t.pulls) &&
    Finished(RemoteItems.Commits(r.commits, cutoff), start.commits.rows, t.commits)
  }

  ghost predicate LastDone(r: Remote, cutoff: Option<int>, start: Tables, t: Tables) {
    Finished(WorkflowRuns(r.workflows, cutoff), start.workflows.rows, t.workflows) &&
    Finished(RemoteItems.Deployments(r.deployments, cutoff), start.deployments.rows, t.deployments)
  }

  /** The rows of one clean job, and completed page checkpoints. */
  ghost predicate AllDone(r: Remote, cutoff: Option<int>, start: Tables, t: Tables) {
    JobClean(r, cutoff, start, t) && PagesCompleted(t)
  }

  predicate PagesCompleted(t: Tables) {
    var completed := Some(CheckpointFor(0));
    t.pulls.checkpoint == completed && t.commits.checkpoint == completed && t.workflows.checkpoint == completed &&
    t.deployments.checkpoint == completed
  }

  lemma {:induction false} BothDone(r: Remote, cutoff: Option<int>, start: Tables, t: Tables)
    requires FirstDone(r, cutoff, start, t) && LastDone(r, cutoff, start, t)
    ensures AllDone(r, cutoff, start, t)
  {
  }

  lemma {:induction false} FirstAttemptIsResumable(r: Remote, cutoff: Option<int>, t: Tables)
    requires Pageable(r) && FirstAttempt(t)
    ensures Resumable(r, cutoff, t, t)
  {
  }

  class Run {
    const remote: Remote
    const reviewPages: int -> nat
    const filePages: int -> nat
    const publishers: nat
    const cutoff: Option<int>

    var job: Job
    var tables: Tables
    var lists: map<ListKey, Checkpoint>
    var lastSyncedAt: Option<int>
    /** What each publisher accepted last. */
    var accepted: map<nat, CompletedEvent>

    ghost var log: seq<Action>
    /** The resource writes of the run, in order. */
    ghost var written: seq<Option<Kind>>
    /** A call of any kind failed. */
    ghost var callFailed: bool
    /** The last statement on the job's own row failed, perhaps after it took effect. */
    ghost var rowCallFailed: bool

    constructor (remote: Remote, reviewPages: int -> nat, filePages: int -> nat, publishers: nat, cutoff: Option<int>,
                 job: Job, tables: Tables, lists: map<ListKey, Checkpoint>, lastSyncedAt: Option<int>)
      ensures this.remote == remote && this.publishers == publishers && this.cutoff == cutoff
      ensures this.job == job && this.tables == tables && this.lists == lists && this.lastSyncedAt == lastSyncedAt
      ensures log == [] && written == [] && accepted == map[] && !callFailed && !rowCallFailed
    {
      this.remote, this.reviewPages, this.filePages := remote, reviewPages, filePages;
      this.publishers, this.cutoff := publishers, cutoff;
      this.job, this.tables, this.lists, this.lastSyncedAt := job, tables, lists, lastSyncedAt;
      accepted, log, written, callFailed, rowCallFailed := map[], [], [], false, false;
    }

    ghost predicate Valid()
      reads this
    {
      Orderly(log, job.status) && (rowCallFailed ==> callFailed)
    }

    /** So far no call has failed. */
    ghost predicate Going()
      reads this
    {
      Valid() && !callFailed
    }

    /** A call has failed, or a Cancel has landed. */
    ghost predicate Disturbed()
      reads this
    {
      callFailed || CancelPending(log)
    }

    /** How part of the run ends: well, or for one of these two reasons. */
    ghost predicate Ends(ok: bool)
      reads this
    {
      Valid() && if ok then !callFailed else Disturbed()
    }

    /** Other people's Cancel calls. */
    method Tick()
      requires Valid()
      modifies this`job, this`log
      ensures Valid() && (Fresh(old(log)) ==> Fresh(log)) && (CancelPending(old(log)) ==> CancelPending(log))
    {
      var lands: bool, at: int := *, *;
      if lands {
        CancelKeepsOrderly(log, job.status);
        job := Updated(job, Cancel(at));
        log := log + [CancelLanded];
      }
    }

    /** A call that changes nothing here: GitHub, throttling, reading a checkpoint or the repository. */
    method Call() returns (ok: bool)
      requires Valid()
      modifies this`job, this`log, this`callFailed
      ensures Valid() && (Fresh(old(log)) ==> Fresh(log)) && (CancelPending(old(log)) ==> CancelPending(log))
      ensures callFailed == (old(callFailed) || !ok)
    {
      Tick();
      ok := *;
      callFailed := callFailed || !ok;
    }

    /** The outcome of a write call: one that fails may still have taken effect. */
    method StoreCall() returns (ok: bool, stored: bool)
      requires Valid()
      modifies this`job, this`log, this`callFailed
      ensures Valid() && (Fresh(old(log)) ==> Fresh(log)) && (CancelPending(old(log)) ==> CancelPending(log))
      ensures callFailed == (old(callFailed) || !ok) && (ok ==> stored)
    {
      ok := Call();
      stored := *;
      stored := ok || stored;
    }

    method EnsureNotCanceled() returns (check: Check)
      requires Going()
      modifies this`job, this`log, this`callFailed, this`rowCallFailed
      ensures Ends(check.Pass?) && (check.Pass? ==> Fresh(log))
      ensures check.IsCanceled? <==> !callFailed && job.status == Canceled
      ensures check.ReadFailed? <==> rowCallFailed
    {
      Tick();
      var readFails: bool := *;
      if readFails {
        callFailed, rowCallFailed := true, true;
        return ReadFailed;
      }
      if job.status == Canceled {
        return IsCanceled;
      }
      CheckKeepsOrderly(log, job.status);
      log := log + [Checked];
      return Pass;
    }

    /** A resource write; a failed one may still have taken effect, so it is counted too. */
    method Write(kind: Option<Kind>) returns (ok: bool)
      requires Going() && Fresh(log)
      modifies this`job, this`log, this`written, this`callFailed
      ensures Ends(ok) && written == old(written) + [kind]
    {
      Tick();
      WriteKeepsOrderly(log, job.status, kind);
      log, written := log + [Wrote(kind)], written + [kind];
      ok := *;
      callFailed := callFailed || !ok;
    }

    // -------------------------------------------------------------- the paging loops

    /** The calls before a page's items are worked on: cancellation check, listing, throttling. */
    method ListPage() returns (ok: bool)
      requires Going()
      modifies this`job, this`log, this`callFailed, this`rowCallFailed
      ensures Ends(ok) && (ok ==> Fresh(log))
    {
      var check := EnsureNotCanceled();
      if !check.Pass? { return false; }
      ok := Call();
      if !ok { return; }
      ok := Call();
    }

    /** syncReviews and syncPullRequestFiles: collect the pages, write nothing but checkpoints. */
    method CollectPages(key: ListKey, pages: nat) returns (ok: bool)
      requires Going()
      modifies this`job, this`log, this`callFailed, this`lists, this`rowCallFailed
      ensures Ends(ok) && (ok ==> Fresh(log))
      ensures ok ==> lists == old(lists)[key := CheckpointFor(0)]
    {
      ok := Call();
      if !ok { return; }
      var page := ResumePage(if key in lists then Some(lists[key]) else None);
      while true
        invariant Going() && page >= 1
        invariant lists == old(lists) || (key in lists && lists == old(lists)[key := lists[key]])
        decreases pages - page
      {
        ok := ListPage();
        if !ok { return; }
        var nextPage, stored := PageAfter(page, pages), false;
        ok, stored := StoreCall();
        if stored { lists := lists[key := CheckpointFor(nextPage)]; }
        if !ok || nextPage == 0 { return; }
        page := nextPage;
      }
    }

    /** Details, reviews and bundle of an included pull request; stored tells whether its bundle was upserted. */
    method SyncBundle(number: int) returns (ok: bool, stored: bool)
      requires Going()
      modifies this`job, this`log, this`written, this`callFailed, this`lists, this`rowCallFailed
      ensures Ends(ok) && (ok ==> stored && written == old(written) + [Some(PullRequests)])
      ensures ok ==> lists == old(lists)[OfPull(Reviews, number) := CheckpointFor(0)]
    {
      stored := false;
      ok := Call();
      if !ok { return; }
      ok := CollectPages(OfPull(Reviews, number), reviewPages(number));
      if !ok { return; }
      ok := Write(Some(PullRequests));
      stored := *;
      stored := ok || stored;
    }

    method SyncFiles(number: int) returns (ok: bool)
      requires Going()
      modifies this`job, this`log, this`written, this`callFailed, this`lists, this`rowCallFailed
      ensures Ends(ok) && (ok ==> written == old(written) + [Some(ChangedFiles)])
      ensures ok ==> lists == old(lists)[OfPull(ChangedFiles, number) := CheckpointFor(0)]
    {
      ok := CollectPages(OfPull(ChangedFiles, number), filePages(number));
      if !ok { return; }
      ok := Write(Some(ChangedFiles));
    }

    /** One listed pull request. */
    method SyncPullRequest(item: GoodPullItem) returns (ok: bool, stored: bool)
      requires Going()
      modifies this`job, this`log, this`written, this`callFailed, this`lists, this`rowCallFailed
      ensures Ends(ok) && (ok ==> stored == BuildPull(item, cutoff).Some?) && (stored ==> BuildPull(item, cutoff).Some?)
      ensures ok ==> written == old(written) + if stored then [Some(PullRequests), Some(ChangedFiles)] else []
      ensures ok && stored ==>
              var number := PullInput(item).1.details.number;
              lists == old(lists)[OfPull(Reviews, number) := CheckpointFor(0)][OfPull(ChangedFiles, number) := CheckpointFor(0)]
    {
      var number := PullInput(item).1.details.number;
      var check := EnsureNotCanceled();
      if !check.Pass? { return false, false; }
      if BuildPull(item, cutoff).None? { return true, false; }
      ok, stored := SyncBundle(number);
      if !ok { return; }
      ok := SyncFiles(number);
    }

    /** The next pull request of a page, stored before the one after it is fetched. */
    method SyncNextPullRequest(s: Store<int, GoodPullRequest>, items: seq<GoodPullItem>, i: nat, rows: map<int, GoodPullRequest>)
      returns (ok: bool, stored: bool, rows': map<int, GoodPullRequest>)
      requires Going() && i < |items|
      requires var res := Pulls(remote.pulls, cutoff); rows == WithPart(res, s, Payload(res.build, items[..i])).rows
      modifies this`job, this`log, this`written, this`callFailed, this`lists, this`rowCallFailed
      ensures Ends(ok)
      ensures var res := Pulls(remote.pulls, cutoff);
              var n := if ok || stored then i + 1 else i;
              rows' == WithPart(res, s, Payload(res.build, items[..n])).rows &&
              (ok ==> |Payload(res.build, items[..n])| == |Payload(res.build, items[..i])| + if stored then 1 else 0)
    {
      ghost var res := Pulls(remote.pulls, cutoff);
      ok, stored := SyncPullRequest(items[i]);
      OneMoreItem(res, s, items, i);
      rows' := rows;
      if stored {
        var (id, e) := BuildPull(items[i], cutoff).value;
        rows' := rows[id := MergeGood(Lookup(rows, id), e)];
      }
    }

    /** The pull requests of one page. */
    method SyncPullRequestItems(s: Store<int, GoodPullRequest>, items: seq<GoodPullItem>)
      returns (ok: bool, included: nat, rows: map<int, GoodPullRequest>, ghost part: seq<(int, GoodPullRequest)>)
      requires Going()
      modifies this`job, this`log, this`written, this`callFailed, this`lists, this`rowCallFailed
      ensures Ends(ok)
      ensures var res := Pulls(remote.pulls, cutoff);
              part <= Payload(res.build, items) && rows == WithPart(res, s, part).rows && (ok ==> part == Payload(res.build, items))
      ensures ok ==> included == |part|
    {
      ghost var res := Pulls(remote.pulls, cutoff);
      ok, included, rows, part := true, 0, s.rows, [];
      for i := 0 to |items|
        invariant Going() && ok
        invariant part == Payload(res.build, items[..i]) && rows == WithPart(res, s, part).rows
        invariant included == |part|
      {
        var stored: bool;
        ok, stored, rows := SyncNextPullRequest(s, items, i, rows);
        var n := if ok || stored then i + 1 else i;
        PayloadPrefix(res.build, items, n);
        part := Payload(res.build, items[..n]);
        included := included + if stored then 1 else 0;
        if !ok { return; }
      }
      assert items[..|items|] == items;
    }

    /** One page: its pull requests, then the checkpoint. */
    method SyncPullRequestPage(ghost start: map<int, GoodPullRequest>, s: Store<int, GoodPullRequest>, page: int)
      returns (ok: bool, included: nat, s': Store<int, GoodPullRequest>)
      requires Going() && Walkable(Pulls(remote.pulls, cutoff)) && Recoverable(Pulls(remote.pulls, cutoff), start, s)
      requires page == ResumePage(s.checkpoint)
      modifies this`job, this`log, this`written, this`callFailed, this`lists, this`rowCallFailed
      ensures Ends(ok) && Recoverable(Pulls(remote.pulls, cutoff), start, s')
      ensures ok ==> IsNext(Pulls(remote.pulls, cutoff), start, s', page) &&
                     included == |BatchesFrom(Pulls(remote.pulls, cutoff), page)| - UpsertsBehind(Pulls(remote.pulls, cutoff), page)
    {
      var res := Pulls(remote.pulls, cutoff);
      included, s' := 0, s;
      ok := ListPage();
      if !ok { return; }
      var rows;
      ghost var part;
      ok, included, rows, part := SyncPullRequestItems(s, res.Items(page));
      if !ok {
        PartOfPage(res, start, s, part);
        s' := s.(rows := rows);
        return;
      }
      var stored: bool;
      ok, stored := StoreCall();
      PageKeepsRecoverable(res, start, s, page, stored);
      s' := Store(rows, if stored then Some(CheckpointFor(res.NextPage(page))) else s.checkpoint);
      UpsertsLeft(res, page);
    }

    method SyncPullRequests(ghost start: map<int, GoodPullRequest>, s: Store<int, GoodPullRequest>)
      returns (ok: bool, total: nat, s': Store<int, GoodPullRequest>)
      requires Going() && Walkable(Pulls(remote.pulls, cutoff)) && Recoverable(Pulls(remote.pulls, cutoff), start, s)
      modifies this`job, this`log, this`written, this`callFailed, this`lists, this`rowCallFailed
      ensures Ends(ok) && Recoverable(Pulls(remote.pulls, cutoff), start, s')
      ensures ok ==> Finished(Pulls(remote.pulls, cutoff), start, s')
      ensures ok ==> total == |BatchesFrom(Pulls(remote.pulls, cutoff), ResumePage(s.checkpoint))|
    {
      var res := Pulls(remote.pulls, cutoff);
      total, s' := 0, s;
      ok := Call();
      if !ok { return; }
      var page := ResumePage(s'.checkpoint);
      ghost var all := |BatchesFrom(res, page)|;
      ghost var left := all;
      while true
        invariant Going() && Recoverable(res, start, s') && page == ResumePage(s'.checkpoint)
        invariant total + left == all && left == |BatchesFrom(res, page)|
        decreases |res.pages| - page
      {
        var included;
        ok, included, s' := SyncPullRequestPage(start, s', page);
        if !ok { return; }
        left := UpsertsBehind(res, page);
        total := total + included;
        if res.NextPage(page) == 0 { return; }
        page := res.NextPage(page);
      }
    }

    /** Fetching the statuses of the included deployments, each call followed by throttling. */
    method LookUp<Item>(items: seq<Item>, needed: Item -> bool) returns (ok: bool)
      requires Going() && Fresh(log)
      modifies this`job, this`log, this`callFailed
      ensures Ends(ok) && Fresh(log)
    {
      ok := true;
      for i := 0 to |items|
        invariant Going() && Fresh(log)
      {
        if needed(items[i]) {
          ok := Call();
          if !ok { return; }
          ok := Call();
          if !ok { return; }
        }
      }
    }

    /** One page: its lookups, one batch, then the checkpoint. */
    method SyncBatchPage<Item, K(==,!new), R(!new), E(!new)>(
      kind: Kind, res: Resource<Item, K, R, E>, needed: Item -> bool, ghost start: map<K, R>, s: Store<K, R>, page: int)
      returns (ok: bool, s': Store<K, R>)
      requires Going() && Walkable(res) && Recoverable(res, start, s) && page == ResumePage(s.checkpoint)
      modifies this`job, this`log, this`written, this`callFailed, this`rowCallFailed
      ensures Ends(ok) && Recoverable(res, start, s')
      ensures ok ==> IsNext(res, start, s', page) && written == old(written) + [Some(kind)]
    {
      s' := s;
      ok := ListPage();
      if !ok { return; }
      ok := LookUp(res.Items(page), needed);
      if !ok { return; }
      ok := Write(Some(kind));
      if !ok {
        var statements: nat := *;
        PartOfPage(res, start, s, Prefix(Batch(res, page), statements));
        s' := WithPart(res, s, Prefix(Batch(res, page), statements));
        return;
      }
      var stored: bool;
      ok, stored := StoreCall();
      PageKeepsRecoverable(res, start, s, page, stored);
      s' := AfterPage(res, s, page, stored);
    }

    /** syncCommits, syncWorkflowRuns and syncDeployments. */
    method SyncBatches<Item, K(==,!new), R(!new), E(!new)>(
      kind: Kind, res: Resource<Item, K, R, E>, needed: Item -> bool, ghost start: map<K, R>, s: Store<K, R>)
      returns (ok: bool, s': Store<K, R>)
      requires Going() && Walkable(res) && Recoverable(res, start, s)
      modifies this`job, this`log, this`written, this`callFailed, this`rowCallFailed
      ensures Ends(ok) && Recoverable(res, start, s')
      ensures ok ==> Finished(res, start, s')
    {
      s' := s;
      ok := Call();
      if !ok { return; }
      var page := ResumePage(s'.checkpoint);
      while true
        invariant Going() && Recoverable(res, start, s') && page == ResumePage(s'.checkpoint)
        decreases |res.pages| - page
      {
        ok, s' := SyncBatchPage(kind, res, needed, start, s', page);
        if !ok { return; }
        if res.NextPage(page) == 0 { return; }
        page := res.NextPage(page);
      }
    }

    // -------------------------------------------------------------- the job

    method UpdateProgressTo(progress: int) returns (ok: bool)
      requires Going()
      modifies this`job, this`log, this`callFailed, this`rowCallFailed
      ensures Ends(ok) && (Fresh(old(log)) ==> Fresh(log))
      ensures rowCallFailed == !ok && (ok ==> job.progress == progress)
    {
      var stored: bool, at: int := false, *;
      ok, stored := StoreCall();
      if stored {
        job := Updated(job, UpdateProgress(progress, at));
      }
      rowCallFailed := !ok;
    }

    /** The run is over, its job not completed: for one of the two reasons, and failed unless the row itself could not be
        written or a Cancel is pending. */
    ghost predicate Stopped()
      reads this
    {
      WritesAfterCancel(log) <= 1 && Disturbed() && job.status != Completed && (rowCallFailed || Terminal(job.status)) &&
      (rowCallFailed || CancelPending(log) || job.status == Failed) && (rowCallFailed ==> callFailed)
    }

    /** failJob: MarkFailed reads the job, updates its row, then the repository's. */
    method FailJob(message: string)
      requires Valid() && Disturbed()
      modifies this`job, this`log, this`callFailed, this`rowCallFailed
      ensures Stopped() && (rowCallFailed || job.status == Failed) && (old(callFailed) ==> callFailed)
    {
      var ok, stored := StoreCall();
      var at: int := *;
      if stored {
        job := Updated(job, MarkFailed(message, at));
      }
      rowCallFailed := !ok;
    }

    method Publish(event: CompletedEvent) returns (ok: bool)
      requires Going()
      modifies this`job, this`log, this`callFailed, this`accepted
      ensures Ends(ok) && (callFailed <==> !ok)
      ensures ok ==> forall i :: 0 <= i < publishers ==> i in accepted && accepted[i] == event
    {
      for i := 0 to publishers
        invariant Going()
        invariant forall j :: 0 <= j < i ==> j in accepted && accepted[j] == event
      {
        ok := Call();
        if !ok { return; }
        accepted := accepted[i := event];
      }
      ok := true;
    }

    /** Everything a completed job stands for. */
    ghost predicate FullySynced(start: Tables)
      reads this
    {
      AllDone(remote, cutoff, start, tables) &&
      lastSyncedAt.Some? && job.finishedAt == lastSyncedAt &&
      forall i :: 0 <= i < publishers ==>
        i in accepted && accepted[i] == CompletedEvent(lastSyncedAt.value, cutoff, lastSyncedAt.value)
    }

    /** The first cancellation check and MarkRunning. */
    method Begin() returns (started: bool)
      requires job.status == Pending && log == [] && written == [] && !callFailed && !rowCallFailed
      modifies this`job, this`log, this`callFailed, this`rowCallFailed
      ensures if started then Going() && written == [] else Stopped()
    {
      var canceledBefore: bool, startFails: bool, stored: bool, at: int := *, *, *, *;
      if canceledBefore {
        job, log := Updated(job, Cancel(at)), [CancelLanded];
        return false;
      }
      if startFails {
        callFailed, rowCallFailed := true, true;
        if stored { job := Updated(job, MarkRunning(5, at)); }
        return false;
      }
      job, log := Updated(job, MarkRunning(5, at)), [Started];
      return true;
    }

    method SyncMetadata() returns (ok: bool)
      requires Going()
      modifies this`job, this`log, this`written, this`callFailed, this`rowCallFailed
      ensures if ok then Going() && written == old(written) + [None] && job.progress == 25 else Stopped()
    {
      ok := Call();
      if !ok { FailJob("target"); return; }
      var check := EnsureNotCanceled();
      if !check.Pass? { return false; }
      ok := Call();
      if !ok { FailJob("sync repository metadata"); return; }
      ok := Write(None);
      if !ok { FailJob("sync repository metadata"); return; }
      ok := UpdateProgressTo(25);
    }

    method SyncPullRequestStage(ghost start: Tables) returns (ok: bool)
      requires Going() && Resumable(remote, cutoff, start, tables)
      modifies this`job, this`log, this`written, this`callFailed, this`tables, this`lists, this`rowCallFailed
      ensures Resumable(remote, cutoff, start, tables) && tables == old(tables).(pulls := tables.pulls)
      ensures ok ==> var included := |BatchesFrom(Pulls(remote.pulls, cutoff), ResumePage(old(tables).pulls.checkpoint))|;
                     job.progress == if included > 0 then 75 else 60
      ensures if ok then Going() && Finished(Pulls(remote.pulls, cutoff), start.pulls.rows, tables.pulls) else Stopped()
    {
      PullRequestsAbsorb();
      var check := EnsureNotCanceled();
      if !check.Pass? { return false; }
      var count, pulls := 0, tables.pulls;
      ok, count, pulls := SyncPullRequests(start.pulls.rows, tables.pulls);
      tables := tables.(pulls := pulls);
      if !ok { FailJob("pull requests"); return; }
      ok := UpdateProgressTo(if count > 0 then 75 else 60);
    }

    method SyncCommitStage(ghost start: Tables) returns (ok: bool)
      requires Going() && Resumable(remote, cutoff, start, tables)
      modifies this`job, this`log, this`written, this`callFailed, this`tables, this`rowCallFailed
      ensures Resumable(remote, cutoff, start, tables) && tables == old(tables).(commits := tables.commits)
      ensures ok ==> job.progress == 85
      ensures if ok then Going() && Finished(RemoteItems.Commits(remote.commits, cutoff), start.commits.rows, tables.commits) else Stopped()
    {
      EventTablesAbsorb();
      var check := EnsureNotCanceled();
      if !check.Pass? { return false; }
      var commits := tables.commits;
      ok, commits := SyncBatches(Commits, RemoteItems.Commits(remote.commits, cutoff), _ => false, start.commits.rows, tables.commits);
      tables := tables.(commits := commits);
      if !ok { FailJob("commits"); return; }
      ok := UpdateProgressTo(85);
    }

    method SyncFirstStages(ghost start: Tables) returns (ok: bool)
      requires Going() && Resumable(remote, cutoff, start, tables)
      modifies this`job, this`log, this`written, this`callFailed, this`tables, this`lists, this`rowCallFailed
      ensures Resumable(remote, cutoff, start, tables)
      ensures tables.workflows == old(tables).workflows && tables.deployments == old(tables).deployments
      ensures if ok then Going() && FirstDone(remote, cutoff, start, tables) else Stopped()
    {
      ok := SyncPullRequestStage(start);
      if !ok { return; }
      ok := SyncCommitStage(start);
    }

    method SyncWorkflowStage(ghost start: Tables) returns (ok: bool)
      requires Going() && Resumable(remote, cutoff, start, tables)
      modifies this`job, this`log, this`written, this`callFailed, this`tables, this`rowCallFailed
      ensures Resumable(remote, cutoff, start, tables) && tables == old(tables).(workflows := tables.workflows)
      ensures ok ==> job.progress == 92
      ensures if ok then Going() && Finished(WorkflowRuns(remote.workflows, cutoff), start.workflows.rows, tables.workflows) else Stopped()
    {
      EventTablesAbsorb();
      var workflows := tables.workflows;
      ok, workflows := SyncBatches(Workflows, WorkflowRuns(remote.workflows, cutoff), _ => false,
                                   start.workflows.rows, tables.workflows);
      tables := tables.(workflows := workflows);
      if !ok { FailJob("workflow runs"); return; }
      ok := UpdateProgressTo(92);
    }

    method SyncDeploymentStage(ghost start: Tables) returns (ok: bool)
      requires Going() && Resumable(remote, cutoff, start, tables)
      modifies this`job, this`log, this`written, this`callFailed, this`tables, this`rowCallFailed
      ensures Resumable(remote, cutoff, start, tables) && tables == old(tables).(deployments := tables.deployments)
      ensures if ok then Going() && Finished(RemoteItems.Deployments(remote.deployments, cutoff), start.deployments.rows, tables.deployments)
              else Stopped()
    {
      EventTablesAbsorb();
      var deployments := tables.deployments;
      ok, deployments := SyncBatches(Deployments, RemoteItems.Deployments(remote.deployments, cutoff), d => IsIncluded(d, cutoff),
                                     start.deployments.rows, tables.deployments);
      tables := tables.(deployments := deployments);
      if !ok { FailJob("deployments"); }
    }

    method SyncLastStages(ghost start: Tables) returns (ok: bool)
      requires Going() && Resumable(remote, cutoff, start, tables) && FirstDone(remote, cutoff, start, tables)
      modifies this`job, this`log, this`written, this`callFailed, this`tables, this`rowCallFailed
      ensures Resumable(remote, cutoff, start, tables)
      ensures if ok then Going() && FirstDone(remote, cutoff, start, tables) && LastDone(remote, cutoff, start, tables) else Stopped()
    {
      ok := SyncWorkflowStage(start);
      if !ok { return; }
      ok := SyncDeploymentStage(start);
    }

    method SyncStages(ghost start: Tables) returns (ok: bool)
      requires Going() && Resumable(remote, cutoff, start, tables)
      modifies this`job, this`log, this`written, this`callFailed, this`tables, this`lists, this`rowCallFailed
      ensures Resumable(remote, cutoff, start, tables)
      ensures if ok then Going() && AllDone(remote, cutoff, start, tables) else Stopped()
    {
      ok := SyncFirstStages(start);
      if !ok { return; }
      ok := SyncLastStages(start);
      if ok { BothDone(remote, cutoff, start, tables); }
    }

    method SyncAll(ghost start: Tables) returns (ok: bool)
      requires Going() && Resumable(remote, cutoff, start, tables) && written == []
      modifies this`job, this`log, this`written, this`callFailed, this`tables, this`lists, this`rowCallFailed
      ensures Resumable(remote, cutoff, start, tables)
      ensures if ok then Going() && AllDone(remote, cutoff, start, tables) else Stopped()
    {
      ok := SyncMetadata();
      if !ok { return; }
      ok := SyncStages(start);
    }

    /** Publish, then complete the job and stamp the repository in one transaction: when no call fails the job ends completed,
        also if a Cancel has landed meanwhile. */
    method Finish(ghost start: Tables)
      requires Going() && AllDone(remote, cutoff, start, tables)
      modifies this`job, this`log, this`callFailed, this`accepted, this`lastSyncedAt, this`rowCallFailed
      ensures WritesAfterCancel(log) <= 1 && (rowCallFailed ==> callFailed)
      ensures job.status == Completed ==> FullySynced(start)
      ensures rowCallFailed || job.status == if callFailed then Failed else Completed
    {
      var completedAt: int := *;
      if publishers > 0 {
        var ok := Call();
        if !ok { FailJob("load repository organization"); return; }
        ok := Publish(CompletedEvent(completedAt, cutoff, completedAt));
        if !ok { FailJob("trigger metrics calculation"); return; }
      }
      var ok, committed := StoreCall();
      if committed {
        job, lastSyncedAt := Updated(job, Complete(completedAt)), Some(completedAt);
      }
      rowCallFailed := !ok;
    }

    /** How a run ends: completed exactly when no call failed and no Cancel stood in the way, up to a Cancel that lands after
        the last check, and failed otherwise. Only a failing statement on its own row leaves the job as it is. */
    ghost predicate Ended()
      reads this
    {
      (rowCallFailed ==> callFailed) &&
      (rowCallFailed || Terminal(job.status)) &&
      (Disturbed() || job.status == Completed) &&
      (rowCallFailed || CancelPending(log) || job.status == if callFailed then Failed else Completed)
    }

    /** Whatever fails and whenever a Cancel lands: after a Cancel at most one more resource is written, and the tables can be
        resumed. The job is completed only fully synced, with the rows of one clean job in all four tables. */
    method Execute(ghost start: Tables)
      requires job.status == Pending && log == [] && written == [] && !callFailed && !rowCallFailed && Resumable(remote, cutoff, start, tables)
      modifies this
      ensures WritesAfterCancel(log) <= 1 && Resumable(remote, cutoff, start, tables)
      ensures job.status == Completed ==> FullySynced(start)
      ensures Ended()
    {
      var ok := Begin();
      if !ok { return; }
      ok := SyncAll(start);
      if !ok { return; }
      Finish(start);
    }

    /** Retry puts a failed job back, and its next run starts from the checkpoints of the last. */
    method ExecuteAgain(ghost start: Tables)
      requires job.status == Failed && Resumable(remote, cutoff, start, tables)
      modifies this
      ensures Resumable(remote, cutoff, start, tables) && (job.status == Completed ==> FullySynced(start))
      ensures Ended()
    {
      var at: int := *;
      job, log, written, callFailed, rowCallFailed := Updated(job, Retry(at)), [], [], false, false;
      Execute(start);
    }

    /** A job and its retries: each attempt after a failed one starts from the checkpoints of the last. However many it
        takes, a completed job leaves the tables of one uninterrupted run; and it is completed once an attempt goes through
        without a failing call or a Cancel. */
    method ExecuteWithRetries(retries: nat)
      requires job.status == Pending && log == [] && written == [] && !callFailed && !rowCallFailed && Pageable(remote) && FirstAttempt(tables)
      modifies this
      ensures job.status == Completed ==> FullySynced(old(tables))
      ensures Ended()
    {
      ghost var start := tables;
      FirstAttemptIsResumable(remote, cutoff, tables);
      Execute(start);
      for i := 0 to retries
        invariant Resumable(remote, cutoff, start, tables) && (job.status == Completed ==> FullySynced(start))
        invariant Ended()
      {
        if job.status != Failed { return; }
        ExecuteAgain(start);
      }
    }
  }
}
