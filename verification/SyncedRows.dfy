/** What one uninterrupted sync stores, told in the fields of the listed items: which items a cutoff includes, and whose values a
    row holds. Through JobResumesClean this is also what a resumed job stores. */
module SyncedRows {
  import opened Sql
  import opened Text
  import opened Upserts
  import opened EventTables
  import opened PagedSync
  import opened RemoteItems
  import opened JobResume
  import opened CollectedLists
  import opened PullRequestReviews

  /** Since the cutoff, if there is one. */
  predicate Since(time: int, cutoff: Option<int>) {
    match cutoff
    case None => true
    case Some(c) => c <= time
  }

  predicate IsListed<Item>(pages: seq<seq<Item>>, page: int, i: int) {
    0 <= page < |pages| && 0 <= i < |pages[page]|
  }

  // ---------------------------------------------------------------- which keys are stored

  /** The builder makes an upsert of exactly the wanted items, with these keys. */
  ghost predicate Selects<Item(!new), K, R, E>(res: Resource<Item, K, R, E>, wanted: Item -> bool, key: Item -> K) {
    forall item :: (res.build(item).Some? <==> wanted(item)) && (wanted(item) ==> res.build(item).value.0 == key(item))
  }

  /** A clean walk adds the keys of exactly the wanted items. */
  lemma {:induction false} StoresWanted<Item(!new), K, R, E>(
    res: Resource<Item, K, R, E>, rows: map<K, R>, k: K, wanted: Item -> bool, key: Item -> K)
    requires Selects(res, wanted, key)
    ensures k in Clean(res, rows) <==>
            k in rows || exists page, i :: IsListed(res.pages, page, i) && wanted(res.pages[page][i]) && key(res.pages[page][i]) == k
  {
    CleanStores(res, rows, k);
    if page, i :| PagedSync.Included(res, k, page, i) {
      assert IsListed(res.pages, page - 1, i);
    }
    if page, i :| IsListed(res.pages, page, i) && wanted(res.pages[page][i]) && key(res.pages[page][i]) == k {
      assert PagedSync.Included(res, k, page + 1, i);
    }
  }

  ghost predicate ListsCommit(pages: seq<seq<CommitItem>>, cutoff: Option<int>, sha: string) {
    exists page, i :: IsListed(pages, page, i) && Since(pages[page][i].date, cutoff) && Trim(pages[page][i].sha) == sha
  }

  /** Commits are included by their author date. */
  lemma {:induction false} CommitsStored(pages: seq<seq<CommitItem>>, cutoff: Option<int>, rows: map<string, Commit>, sha: string)
    ensures sha in Clean(Commits(pages, cutoff), rows) <==> sha in rows || ListsCommit(pages, cutoff, sha)
  {
    StoresWanted(Commits(pages, cutoff), rows, sha, (c: CommitItem) => Since(c.date, cutoff), (c: CommitItem) => Trim(c.sha));
  }

  function PullId(p: PullItem): int {
    if p.detail.id != 0 then p.detail.id else p.listed.id
  }

  ghost predicate ListsPull(pages: seq<seq<GoodPullItem>>, cutoff: Option<int>, id: int) {
    exists page, i :: IsListed(pages, page, i) && Since(pages[page][i].listed.updatedAt, cutoff) && PullId(pages[page][i]) == id
  }

  /** Pull requests by the update time they are listed with. */
  lemma {:induction false} PullsStored(pages: seq<seq<GoodPullItem>>, cutoff: Option<int>, rows: map<int, GoodPullRequest>, id: int)
    ensures id in Clean(Pulls(pages, cutoff), rows) <==> id in rows || ListsPull(pages, cutoff, id)
  {
    StoresWanted(Pulls(pages, cutoff), rows, id, (p: GoodPullItem) => Since(p.listed.updatedAt, cutoff), (p: GoodPullItem) => PullId(p));
  }

  function RunTime(w: WorkflowItem): int {
    if w.updatedAt == 0 then w.createdAt else w.updatedAt
  }

  ghost predicate ListsWorkflowRun(pages: seq<seq<WorkflowItem>>, cutoff: Option<int>, id: int) {
    exists page, i :: IsListed(pages, page, i) && Since(RunTime(pages[page][i]), cutoff) && pages[page][i].id == id
  }

  /** Workflow runs by their update time, or their creation time if they have none. */
  lemma {:induction false} WorkflowRunsStored(pages: seq<seq<WorkflowItem>>, cutoff: Option<int>, rows: map<int, WorkflowRun>, id: int)
    ensures id in Clean(WorkflowRuns(pages, cutoff), rows) <==> id in rows || ListsWorkflowRun(pages, cutoff, id)
  {
    StoresWanted(WorkflowRuns(pages, cutoff), rows, id, (w: WorkflowItem) => Since(RunTime(w), cutoff), (w: WorkflowItem) => w.id);
  }

  function DeploymentTime(d: DeploymentItem): int {
    if d.updatedAt == 0 then d.createdAt else d.updatedAt
  }

  lemma {:induction false} LatestExists()
    ensures forall d: DeploymentItem :: LatestStatus(d.statuses).Some? <==> d.statuses != []
  {
    forall d: DeploymentItem ensures LatestStatus(d.statuses).Some? <==> d.statuses != [] {
      if d.statuses != [] { var k := LatestStatusIs(d.statuses); }
    }
  }

  ghost predicate ListsDeployment(pages: seq<seq<DeploymentItem>>, cutoff: Option<int>, id: int) {
    exists page, i :: IsListed(pages, page, i) && Since(DeploymentTime(pages[page][i]), cutoff) &&
                      pages[page][i].statuses != [] && pages[page][i].id == id
  }

  /** Deployments the same way, and only with a status. */
  lemma {:induction false} DeploymentsStored(pages: seq<seq<DeploymentItem>>, cutoff: Option<int>, rows: map<int, Deployment>, id: int)
    ensures id in Clean(Deployments(pages, cutoff), rows) <==> id in rows || ListsDeployment(pages, cutoff, id)
  {
    LatestExists();
    StoresWanted(Deployments(pages, cutoff), rows, id,
                 (d: DeploymentItem) => Since(DeploymentTime(d), cutoff) && d.statuses != [], (d: DeploymentItem) => d.id);
  }

  /** A clean job, and so a completed one however often it was resumed, has added the keys of exactly the included items. */
  lemma {:induction false} JobStores(r: Remote, cutoff: Option<int>, start: Tables, t: Tables)
    requires JobClean(r, cutoff, start, t)
    ensures forall id :: id in t.pulls.rows <==> id in start.pulls.rows || ListsPull(r.pulls, cutoff, id)
    ensures forall sha :: sha in t.commits.rows <==> sha in start.commits.rows || ListsCommit(r.commits, cutoff, sha)
    ensures forall id :: id in t.workflows.rows <==> id in start.workflows.rows || ListsWorkflowRun(r.workflows, cutoff, id)
    ensures forall id :: id in t.deployments.rows <==> id in start.deployments.rows || ListsDeployment(r.deployments, cutoff, id)
  {
    forall id ensures id in t.pulls.rows <==> id in start.pulls.rows || ListsPull(r.pulls, cutoff, id) {
      PullsStored(r.pulls, cutoff, start.pulls.rows, id);
    }
    forall sha ensures sha in t.commits.rows <==> sha in start.commits.rows || ListsCommit(r.commits, cutoff, sha) {
      CommitsStored(r.commits, cutoff, start.commits.rows, sha);
    }
    forall id ensures id in t.workflows.rows <==> id in start.workflows.rows || ListsWorkflowRun(r.workflows, cutoff, id) {
      WorkflowRunsStored(r.workflows, cutoff, start.workflows.rows, id);
    }
    forall id ensures id in t.deployments.rows <==> id in start.deployments.rows || ListsDeployment(r.deployments, cutoff, id) {
      DeploymentsStored(r.deployments, cutoff, start.deployments.rows, id);
    }
  }

  /** A review is collected unless it was submitted before the cutoff. */
  predicate Wanted(r: ReviewItem, cutoff: Option<int>) {
    r.submittedAt.Some? ==> Since(r.submittedAt.value, cutoff)
  }

  /** Collecting a pull request's reviews keeps their order and drops exactly the unwanted ones. */
  lemma {:induction false} ReviewsCollected(items: seq<ReviewItem>, more: seq<ReviewItem>, cutoff: Option<int>, r: ReviewItem)
    ensures PullRequestReviews.Included([r], cutoff) == if Wanted(r, cutoff) then [r] else []
    ensures PullRequestReviews.Included(items + more, cutoff) ==
            PullRequestReviews.Included(items, cutoff) + PullRequestReviews.Included(more, cutoff)
  {
    IncludedAppend(items, more, cutoff);
    assert [r][..0] == [];
  }

  /** The bundle of a whole collection adds exactly the wanted reviews. */
  lemma {:induction false} ReviewsStored(pages: seq<seq<ReviewItem>>, cutoff: Option<int>, rows: map<int, EventTables.Review>, pull: int, id: int)
    ensures id in StoredFrom(rows, pages, 1, cutoff, pull) <==>
            id in rows || exists page, i :: IsListed(pages, page, i) && Wanted(pages[page][i], cutoff) && pages[page][i].id == id
  {
    var items := PullRequestReviews.Included(ItemsFrom(pages, 1), cutoff);
    StoredKeys(rows, items, pull, id);
    if k :| 0 <= k < |items| && items[k].id == id {
      IncludedAre(ItemsFrom(pages, 1), cutoff, items[k]);
      ListedFrom(pages, 1, items[k]);
      var page, i :| IsListed(pages, page, i) && page >= 0 && pages[page][i] == items[k];
      assert Wanted(pages[page][i], cutoff);
    }
    if page, i :| IsListed(pages, page, i) && Wanted(pages[page][i], cutoff) && pages[page][i].id == id {
      ListedFrom(pages, 1, pages[page][i]);
      IncludedAre(ItemsFrom(pages, 1), cutoff, pages[page][i]);
      var k :| 0 <= k < |items| && items[k] == pages[page][i];
    }
  }

  lemma {:induction false} ListedFrom<T>(pages: seq<seq<T>>, page: int, x: T)
    requires page >= 1
    ensures x in ItemsFrom(pages, page) <==> exists p, i :: IsListed(pages, p, i) && p >= page - 1 && pages[p][i] == x
    decreases |pages| - page
  {
    if page <= |pages| {
      ListedFrom(pages, page + 1, x);
      assert ItemsFrom(pages, page) == pages[page - 1] + ItemsFrom(pages, page + 1);
      if x in pages[page - 1] {
        var i :| 0 <= i < |pages[page - 1]| && pages[page - 1][i] == x;
        assert IsListed(pages, page - 1, i);
      }
    }
  }

  // ---------------------------------------------------------------- which values a row holds

  ghost predicate LaterListing<Item, K, R, E>(res: Resource<Item, K, R, E>, k: K, page: int, i: int) {
    exists p, j :: (p > page || (p == page && j > i)) && PagedSync.Included(res, k, p, j)
  }

  ghost predicate EarlierListing<Item, K, R, E>(res: Resource<Item, K, R, E>, k: K, page: int, i: int) {
    exists p, j :: (p < page || (p == page && j < i)) && PagedSync.Included(res, k, p, j)
  }

  lemma {:induction false} OnlyAppend<K, E>(key: E -> K, k: K, a: seq<E>, b: seq<E>)
    ensures Only(key, k, a + b) == Only(key, k, a) + Only(key, k, b)
  {
    if b == [] {
      assert a + b == a;
    } else {
      OnlyAppend(key, k, a, b[..|b| - 1]);
      assert (a + b)[..|a + b| - 1] == a + b[..|b| - 1];
    }
  }

  predicate EndsWith<E(==)>(es: seq<E>, e: E) {
    es != [] && es[|es| - 1] == e
  }

  predicate Hits<Item, K(==), E>(build: Item -> Option<(K, E)>, item: Item, k: K) {
    build(item).Some? && build(item).value.0 == k
  }

  /** A page's upserts of a key end with that of the last item built with the key, and hold no other if it is the only one. */
  lemma {:induction false} LastOfItems<Item, K, E>(build: Item -> Option<(K, E)>, items: seq<Item>, k: K, i: int)
    requires -1 <= i < |items| && (i >= 0 ==> Hits(build, items[i], k)) && forall j :: i < j < |items| ==> !Hits(build, items[j], k)
    ensures var only := Only(KeyOf, k, Payload(build, items));
            (i < 0 ==> only == []) && (i >= 0 ==> EndsWith(only, build(items[i]).value)) &&
            (i >= 0 && (forall j :: 0 <= j < i ==> !Hits(build, items[j], k)) ==> |only| == 1)
  {
    if items != [] {
      var init, last := items[..|items| - 1], items[|items| - 1];
      if i < |init| {
        LastOfItems(build, init, k, i);
      } else if forall j :: 0 <= j < i ==> !Hits(build, items[j], k) {
        LastOfItems(build, init, k, -1);
      }
      if build(last).Some? {
        assert (Payload(build, init) + [build(last).value])[..|Payload(build, init)|] == Payload(build, init);
      }
    }
  }

  lemma {:induction false} NothingFrom<Item, K, R, E>(res: Resource<Item, K, R, E>, k: K, page: int)
    requires page >= 1 && forall p, j :: p >= page ==> !PagedSync.Included(res, k, p, j)
    ensures Only(KeyOf, k, BatchesFrom(res, page)) == []
  {
    var only := Only(KeyOf, k, BatchesFrom(res, page));
    if only != [] {
      var e := only[0];
      OnlyAre(KeyOf, k, BatchesFrom(res, page), e);
      BatchesAre(res, page, e);
      var p :| page <= p <= |res.pages| && e in Batch(res, p);
      PayloadIs(res.build, res.Items(p), e);
      var j :| 0 <= j < |res.Items(p)| && res.build(res.Items(p)[j]) == Some(e);
      assert PagedSync.Included(res, k, p, j);
    }
  }

  lemma {:induction false} OnlyOfPages<Item, K, R, E>(res: Resource<Item, K, R, E>, k: K, page: int)
    requires page >= 1
    ensures Only(KeyOf, k, BatchesFrom(res, page)) == Only(KeyOf, k, Batch(res, page)) + Only(KeyOf, k, BatchesFrom(res, page + 1))
  {
    OnlyAppend(KeyOf, k, Batch(res, page), BatchesFrom(res, page + 1));
  }

  lemma {:induction false} EarlierPage<Item, K, R, E>(res: Resource<Item, K, R, E>, k: K, page: int, i: int, earlier: int)
    requires !EarlierListing(res, k, page, i) && earlier < page
    ensures Only(KeyOf, k, Batch(res, earlier)) == []
  {
    forall j | 0 <= j < |res.Items(earlier)| ensures !Hits(res.build, res.Items(earlier)[j], k) {
      assert !PagedSync.Included(res, k, earlier, j);
    }
    LastOfItems(res.build, res.Items(earlier), k, -1);
  }

  lemma {:induction false} PageWithHit<Item, K, R, E>(res: Resource<Item, K, R, E>, k: K, page: int, i: int)
    requires PagedSync.Included(res, k, page, i) && !LaterListing(res, k, page, i)
    ensures var only := Only(KeyOf, k, Batch(res, page));
            EndsWith(only, res.build(res.Items(page)[i]).value) && (!EarlierListing(res, k, page, i) ==> |only| == 1)
  {
    var items := res.Items(page);
    forall j | 0 <= j < |items| && Hits(res.build, items[j], k)
      ensures j > i ==> LaterListing(res, k, page, i)
      ensures j < i ==> EarlierListing(res, k, page, i)
    {
      assert PagedSync.Included(res, k, page, j);
    }
    LastOfItems(res.build, items, k, i);
  }

  /** The upserts of the key end with e, and e is the only one if it was not listed before. */
  ghost predicate Ending<Item, K, R, E>(res: Resource<Item, K, R, E>, k: K, page: int, i: int, only: seq<(K, E)>, e: (K, E)) {
    EndsWith(only, e) && (!EarlierListing(res, k, page, i) ==> |only| == 1)
  }

  lemma {:induction false} EndingHere<Item, K, R, E>(res: Resource<Item, K, R, E>, k: K, page: int, i: int)
    requires page >= 1 && PagedSync.Included(res, k, page, i) && !LaterListing(res, k, page, i)
    ensures Ending(res, k, page, i, Only(KeyOf, k, BatchesFrom(res, page)), res.build(res.Items(page)[i]).value)
  {
    OnlyOfPages(res, k, page);
    PageWithHit(res, k, page, i);
    NothingFrom(res, k, page + 1);
  }

  lemma {:induction false} EndingLater<Item, K, R, E>(res: Resource<Item, K, R, E>, k: K, page: int, i: int, a: seq<(K, E)>, b: seq<(K, E)>, e: (K, E))
    requires Ending(res, k, page, i, b, e) && (!EarlierListing(res, k, page, i) ==> a == [])
    ensures Ending(res, k, page, i, a + b, e)
  {
  }

  lemma {:induction false} LastOfPages<Item, K, R, E>(res: Resource<Item, K, R, E>, k: K, from: int, page: int, i: int)
    requires 1 <= from <= page && PagedSync.Included(res, k, page, i) && !LaterListing(res, k, page, i)
    ensures Ending(res, k, page, i, Only(KeyOf, k, BatchesFrom(res, from)), res.build(res.Items(page)[i]).value)
    decreases page - from
  {
    if from < page {
      LastOfPages(res, k, from + 1, page, i);
      if !EarlierListing(res, k, page, i) { EarlierPage(res, k, page, i, from); }
      OnlyOfPages(res, k, from);
      EndingLater(res, k, page, i, Only(KeyOf, k, Batch(res, from)), Only(KeyOf, k, BatchesFrom(res, from + 1)), res.build(res.Items(page)[i]).value);
    } else {
      EndingHere(res, k, page, i);
    }
  }

  /** After a clean walk a row is the merge of its last included listing into something; into nothing, if the key was neither
      stored nor listed before. */
  lemma {:induction false} LastListingMerged<Item, K, R, E>(res: Resource<Item, K, R, E>, rows: map<K, R>, k: K, page: int, i: int)
    returns (before: Option<R>)
    requires PagedSync.Included(res, k, page, i) && !LaterListing(res, k, page, i)
    ensures Lookup(Clean(res, rows), k) == Some(res.merge(before, res.build(res.Items(page)[i]).value.1))
    ensures k !in rows && !EarlierListing(res, k, page, i) ==> before == None
  {
    var es := Only(KeyOf, k, BatchesFrom(res, 1));
    LastOfPages(res, k, 1, page, i);
    ApplyPerKey(KeyOf, OnRow(res.merge), rows, BatchesFrom(res, 1), k);
    before := Fold(OnRow(res.merge), Lookup(rows, k), es[..|es| - 1]);
  }

  /** No wanted item with the same key is listed later, and none earlier. */
  ghost predicate IsLast<Item, K>(pages: seq<seq<Item>>, page: int, i: int, wanted: Item -> bool, key: Item -> K)
    requires IsListed(pages, page, i)
  {
    forall p, j :: IsListed(pages, p, j) && (p > page || (p == page && j > i)) && wanted(pages[p][j]) ==> key(pages[p][j]) != key(pages[page][i])
  }

  ghost predicate IsFirst<Item, K>(pages: seq<seq<Item>>, page: int, i: int, wanted: Item -> bool, key: Item -> K)
    requires IsListed(pages, page, i)
  {
    forall p, j :: IsListed(pages, p, j) && (p < page || (p == page && j < i)) && wanted(pages[p][j]) ==> key(pages[p][j]) != key(pages[page][i])
  }

  lemma {:induction false} LastWanted<Item(!new), K, R, E>(
    res: Resource<Item, K, R, E>, rows: map<K, R>, page: int, i: int, wanted: Item -> bool, key: Item -> K) returns (before: Option<R>)
    requires Selects(res, wanted, key) && IsListed(res.pages, page, i) && wanted(res.pages[page][i])
    requires IsLast(res.pages, page, i, wanted, key)
    ensures var item := res.pages[page][i];
            Lookup(Clean(res, rows), key(item)) == Some(res.merge(before, res.build(item).value.1)) &&
            (key(item) !in rows && IsFirst(res.pages, page, i, wanted, key) ==> before == None)
  {
    var k := key(res.pages[page][i]);
    forall p, j | PagedSync.Included(res, k, p, j)
      ensures IsListed(res.pages, p - 1, j) && wanted(res.pages[p - 1][j]) && key(res.pages[p - 1][j]) == k
    {
    }
    assert PagedSync.Included(res, k, page + 1, i);
    before := LastListingMerged(res, rows, k, page + 1, i);
  }

  /** After a clean walk a commit's row holds the values of its last included listing, whatever was stored before. */
  lemma {:induction false} CommitRowIs(pages: seq<seq<CommitItem>>, cutoff: Option<int>, rows: map<string, Commit>, page: int, i: int)
    requires IsListed(pages, page, i) && Since(pages[page][i].date, cutoff)
    requires IsLast(pages, page, i, (c: CommitItem) => Since(c.date, cutoff), (c: CommitItem) => Trim(c.sha))
    ensures var item, stored := pages[page][i], Clean(Commits(pages, cutoff), rows);
            Trim(item.sha) in stored &&
            var row := stored[Trim(item.sha)];
            row.author == Trim(if Trim(item.authorName) == "" && item.login.Some? then item.login.value else item.authorName) &&
            row.authorEmail == (if Trim(item.email) == "" then None else Some(Trim(item.email))) &&
            row.message == Trim(item.message) && row.authoredAt == item.date
  {
    var before := LastWanted(Commits(pages, cutoff), rows, page, i, (c: CommitItem) => Since(c.date, cutoff), (c: CommitItem) => Trim(c.sha));
    TrimIdempotent(pages[page][i].email);
  }

  /** The values a sync takes for a pull request: the fetched ones, where they are set. */
  predicate Describes(item: PullItem, d: Details) {
    d.number == (if item.detail.number != 0 then item.detail.number else item.listed.number) &&
    d.title == (if Trim(item.detail.title) != "" then item.detail.title else item.listed.title) &&
    d.author == (if Trim(item.detail.author) != "" then item.detail.author else item.listed.author) &&
    d.additions == item.detail.additions && d.deletions == item.detail.deletions && d.filesChanged == item.detail.changedFiles &&
    d.isDraft == (item.detail.draft || item.listed.draft)
  }

  predicate Times(item: PullItem, row: PullRequest) {
    row.state == (if Trim(item.detail.state) != "" then item.detail.state else item.listed.state) &&
    row.createdAt == (if item.detail.createdAt != 0 then item.detail.createdAt else item.listed.createdAt) &&
    row.mergedAt == (if item.detail.mergedAt.Some? then item.detail.mergedAt else item.listed.mergedAt) &&
    row.closedAt == (if item.detail.closedAt.Some? then item.detail.closedAt else item.listed.closedAt)
  }

  lemma {:induction false} InputIs(item: PullItem)
    ensures PullInput(item).0 == PullId(item) && Describes(item, PullInput(item).1.details) && Times(item, PullInput(item).1)
  {
  }

  /** After a clean walk a pull request is described by its last included listing; and one not stored and not listed before has
      its times and state too. */
  lemma {:induction false} PullRowIs(pages: seq<seq<GoodPullItem>>, cutoff: Option<int>, rows: map<int, GoodPullRequest>, page: int, i: int)
    requires IsListed(pages, page, i) && Since(pages[page][i].listed.updatedAt, cutoff)
    requires IsLast(pages, page, i, (p: GoodPullItem) => Since(p.listed.updatedAt, cutoff), (p: GoodPullItem) => PullId(p))
    ensures var item, stored := pages[page][i], Clean(Pulls(pages, cutoff), rows);
            PullId(item) in stored && Describes(item, stored[PullId(item)].details) &&
            (PullId(item) !in rows &&
             IsFirst(pages, page, i, (p: GoodPullItem) => Since(p.listed.updatedAt, cutoff), (p: GoodPullItem) => PullId(p)) ==>
             Times(item, stored[PullId(item)]))
  {
    InputIs(pages[page][i]);
    var before := LastWanted(Pulls(pages, cutoff), rows, page, i,
                             (p: GoodPullItem) => Since(p.listed.updatedAt, cutoff), (p: GoodPullItem) => PullId(p));
  }

  /** A workflow run has the name of its last included listing; one not stored and not listed before has its outcome and times
      too, completed at the update time if it has a conclusion. */
  lemma {:induction false} WorkflowRowIs(pages: seq<seq<WorkflowItem>>, cutoff: Option<int>, rows: map<int, WorkflowRun>, page: int, i: int)
    requires IsListed(pages, page, i) && Since(RunTime(pages[page][i]), cutoff)
    requires IsLast(pages, page, i, (w: WorkflowItem) => Since(RunTime(w), cutoff), (w: WorkflowItem) => w.id)
    ensures var item, stored := pages[page][i], Clean(WorkflowRuns(pages, cutoff), rows);
            item.id in stored && stored[item.id].name == item.name &&
            (item.id !in rows && IsFirst(pages, page, i, (w: WorkflowItem) => Since(RunTime(w), cutoff), (w: WorkflowItem) => w.id) ==>
             var row := stored[item.id];
             row.status == item.status && row.startedAt == item.runStartedAt &&
             row.conclusion == (if Trim(item.conclusion) == "" then None else Some(Trim(item.conclusion))) &&
             row.completedAt == (if item.conclusion != "" && item.updatedAt != 0 then Some(item.updatedAt) else None))
  {
    var before := LastWanted(WorkflowRuns(pages, cutoff), rows, page, i, (w: WorkflowItem) => Since(RunTime(w), cutoff), (w: WorkflowItem) => w.id);
  }

  function StatusDate(s: DeploymentStatus): int {
    if s.updatedAt == 0 then s.createdAt else s.updatedAt
  }

  /** A deployment has the environment of its last included listing; one not stored and not listed before has the state of its
      latest status, deployed at the first of the four times that is set. */
  lemma {:induction false} DeploymentRowIs(pages: seq<seq<DeploymentItem>>, cutoff: Option<int>, rows: map<int, Deployment>, page: int, i: int)
    returns (k: nat)
    requires IsListed(pages, page, i) && Since(DeploymentTime(pages[page][i]), cutoff) && pages[page][i].statuses != []
    requires IsLast(pages, page, i, (d: DeploymentItem) => Since(DeploymentTime(d), cutoff) && d.statuses != [], (d: DeploymentItem) => d.id)
    ensures var item, stored := pages[page][i], Clean(Deployments(pages, cutoff), rows);
            item.id in stored && stored[item.id].environment == item.environment &&
            k < |item.statuses| && (forall j :: 0 <= j < |item.statuses| ==> StatusDate(item.statuses[j]) <= StatusDate(item.statuses[k])) &&
            (item.id !in rows &&
             IsFirst(pages, page, i, (d: DeploymentItem) => Since(DeploymentTime(d), cutoff) && d.statuses != [], (d: DeploymentItem) => d.id) ==>
             stored[item.id].status == item.statuses[k].state &&
             stored[item.id].deployedAt == (if StatusDate(item.statuses[k]) != 0 then StatusDate(item.statuses[k]) else DeploymentTime(item)))
  {
    LatestExists();
    k := LatestStatusIs(pages[page][i].statuses);
    var before := LastWanted(Deployments(pages, cutoff), rows, page, i,
                             (d: DeploymentItem) => Since(DeploymentTime(d), cutoff) && d.statuses != [], (d: DeploymentItem) => d.id);
  }

  /** t is the least of the submission times. */
  predicate FirstSubmission(t: int, items: seq<ReviewItem>) {
    (exists j :: 0 <= j < |items| && items[j].submittedAt == Some(t)) &&
    forall j :: 0 <= j < |items| && items[j].submittedAt.Some? ==> t <= items[j].submittedAt.value
  }

  lemma {:induction false} EarliestIsFirst(items: seq<ReviewItem>)
    ensures Earliest(items).None? ==> forall j :: 0 <= j < |items| ==> items[j].submittedAt.None?
    ensures Earliest(items).Some? ==> FirstSubmission(Earliest(items).value, items)
  {
    if items != [] {
      var init, last := items[..|items| - 1], items[|items| - 1];
      EarliestIsFirst(init);
      assert forall j :: 0 <= j < |init| ==> init[j] == items[j];
      if Earliest(init).Some? {
        var j :| 0 <= j < |init| && init[j].submittedAt == Earliest(init);
        assert items[j].submittedAt == Earliest(init);
      }
    }
  }

  /** A collected review that was not stored has its reviewer, state and submission afterwards, no request, and as its first review
      the first submission of all that were collected with it. */
  lemma {:induction false} ReviewRowIs(rows: map<int, Review>, items: seq<ReviewItem>, pull: int, k: nat)
    requires k < |items| && DistinctIds(items) && items[k].id !in rows
    ensures var item, stored := items[k], Stored(rows, items, pull);
            item.id in stored &&
            var row := stored[item.id];
            row.pullRequest == pull && row.reviewer == item.user && row.state == item.state && row.submittedAt == item.submittedAt &&
            row.requestedAt == None &&
            (row.firstReviewAt.None? ==> forall j :: 0 <= j < |items| ==> items[j].submittedAt.None?) &&
            (row.firstReviewAt.Some? ==> FirstSubmission(row.firstReviewAt.value, items))
  {
    var inputs, id := Inputs(items, pull), items[k].id;
    EarliestIsFirst(items);
    ApplyPerKey(KeyOf, OnRow(MergeReview), rows, inputs, id);
    OnlyOne(inputs, k);
    assert Fold(OnRow<int, Review, Review>(MergeReview), None, [inputs[k]]) == Some(MergeReview(None, inputs[k].1)) by {
      assert [inputs[k]][..0] == [];
    }
  }

  lemma {:induction false} OnlyOne<K, E>(es: seq<(K, E)>, k: nat)
    requires k < |es| && forall j :: 0 <= j < |es| && j != k ==> es[j].0 != es[k].0
    ensures Only(KeyOf, es[k].0, es) == [es[k]]
  {
    var init := es[..|es| - 1];
    if k < |init| { OnlyOne(init, k); } else { OnlyNone(init, es[k].0); }
  }

  lemma {:induction false} OnlyNone<K, E>(es: seq<(K, E)>, k: K)
    requires forall j :: 0 <= j < |es| ==> es[j].0 != k
    ensures Only(KeyOf, k, es) == []
  {
    if es != [] { OnlyNone(es[..|es| - 1], k); }
  }

  // ---------------------------------------------------------------- what a webhook stores

  /** The given text without the spaces around it, or the replacement where there is none; never empty or padded. */
  predicate Fills(stored: string, given: string, replacement: string) {
    Kept(stored) && (Trim(given) != "" ==> stored == Trim(given)) && (Trim(given) == "" ==> stored == replacement)
  }

  lemma {:induction false} FallbackFills(given: string, replacement: string)
    requires Kept(replacement)
    ensures Fills(FallbackString(Trim(given), replacement), given, replacement)
    ensures Trim(given) != "" ==> Fills(Trim(given), given, replacement)
  {
    TrimIdempotent(given);
  }

  /** A webhook fills in what is missing, by default the time it arrives. */
  lemma {:induction false} WebhookPull(pull: GitHubPull, now: int)
    ensures ProjectPullRequest(pull, now).Some? <==> pull.id >= 1
    ensures pull.id >= 1 ==>
              var (id, row) := ProjectPullRequest(pull, now).value;
              var d := row.details;
              id == pull.id && Fills(row.state, pull.state, "open") && Fills(d.author, pull.author, "unknown") &&
              Fills(d.title, pull.title, "PR #" + FormatInt(pull.number)) &&
              row.createdAt == (if pull.createdAt == 0 then now else pull.createdAt) &&
              row.mergedAt == pull.mergedAt && row.closedAt == pull.closedAt && d.number == pull.number &&
              d.additions == pull.additions && d.deletions == pull.deletions && d.filesChanged == pull.changedFiles &&
              d.isDraft == pull.draft
  {
    FormatShape(pull.number);
    EndsSolid("PR #" + FormatInt(pull.number));
    EndsSolid("open");
    EndsSolid("unknown");
    FallbackFills(pull.state, "open");
    FallbackFills(pull.author, "unknown");
    FallbackFills(pull.title, "PR #" + FormatInt(pull.number));
  }

  lemma {:induction false} WebhookCommit(item: CommitItem, now: int)
    ensures ProjectPushCommit(item, now).Some? <==> Trim(item.sha) != ""
    ensures Trim(item.sha) != "" ==>
              var (sha, row) := ProjectPushCommit(item, now).value;
              sha == Trim(item.sha) && Fills(row.message, item.message, sha) &&
              Fills(row.author, if Trim(item.authorName) == "" && item.login.Some? then item.login.value else item.authorName, "unknown") &&
              row.authorEmail == (if Trim(item.email) == "" then None else Some(Trim(item.email))) &&
              row.authoredAt == (if item.date == 0 then now else item.date)
  {
    TrimIdempotent(item.sha);
    TrimIdempotent(item.email);
    TrimIdempotent(item.authorName);
    if item.login.Some? { TrimIdempotent(item.login.value); }
    EndsSolid("unknown");
    if Trim(item.sha) != "" { FallbackFills(item.message, Trim(item.sha)); }
  }

  lemma {:induction false} WebhookRun(item: WorkflowItem)
    ensures ProjectWorkflowRun(item).Some? <==> item.id >= 1
    ensures item.id >= 1 ==>
              var (id, row) := ProjectWorkflowRun(item).value;
              id == item.id && Fills(row.name, item.name, "workflow-" + FormatInt(item.id)) && Fills(row.status, item.status, "queued") &&
              row.conclusion == (if Trim(item.conclusion) == "" then None else Some(Trim(item.conclusion))) &&
              row.startedAt == item.runStartedAt &&
              row.completedAt == (if row.conclusion.Some? && item.updatedAt != 0 then Some(item.updatedAt) else None)
  {
    FormatShape(item.id);
    EndsSolid("workflow-" + FormatInt(item.id));
    EndsSolid("queued");
    TrimIdempotent(item.conclusion);
    FallbackFills(item.name, "workflow-" + FormatInt(item.id));
    FallbackFills(item.status, "queued");
  }

  lemma {:induction false} WebhookDeployment(item: DeploymentItem, status: DeploymentStatus, action: string, now: int)
    ensures ProjectDeployment(item, status, action, now).Some? <==> item.id >= 1
    ensures item.id >= 1 ==>
              var (id, row) := ProjectDeployment(item, status, action, now).value;
              id == item.id && Fills(row.environment, item.environment, "production") &&
              Fills(row.status, if Trim(status.state) == "" then action else status.state, "pending") &&
              row.deployedAt == (if StatusDate(status) != 0 then StatusDate(status)
                                 else if DeploymentTime(item) != 0 then DeploymentTime(item) else now)
  {
    EndsSolid("production");
    EndsSolid("pending");
    TrimIdempotent(action);
    TrimIdempotent(status.state);
    FallbackFills(item.environment, "production");
  }

  lemma {:induction false} WebhookReview(item: ReviewItem, pull: int)
    ensures ProjectReview(item, pull).Some? <==> item.id >= 1
    ensures item.id >= 1 ==>
              var (id, row) := ProjectReview(item, pull).value;
              id == item.id && row.pullRequest == pull && Fills(row.reviewer, item.user, "unknown") &&
              Fills(row.state, item.state, "commented") && row.requestedAt == None &&
              row.firstReviewAt == item.submittedAt && row.submittedAt == item.submittedAt
  {
    EndsSolid("unknown");
    EndsSolid("commented");
    FallbackFills(item.user, "unknown");
    FallbackFills(item.state, "commented");
  }
}
