/** The four tables of a sync job together: pull requests, commits, workflow runs, deployments, in that order.
    A job attempt stops at the first stage that fails; the next one starts over, each stage at its own checkpoint. */
module JobResume {
  import opened Sql
  import opened Upserts
  import opened Text
  import opened EventTables
  import opened OutcomeTables
  import opened PagedSync
  import opened RemoteItems

  // ---------------------------------------------------------------- pull requests

  const SOME_DETAILS := Details(0, "", "", 0, 0, 0, false)
  const SOME_PULL := GitHubPull(0, 0, "", "", "open", false, 0, 0, None, None, 0, 0, 0)

  /** Pull requests as GitHub reports them. */
  type GoodPullRequest = e: PullRequest | WellFormed(e) witness PullRequest("open", 0, None, None, SOME_DETAILS)
  type GoodPullItem = i: PullItem | WellFormed(PullInput(i).1) witness PullItem(SOME_PULL, SOME_PULL)

  function MergeGood(stored: Option<GoodPullRequest>, e: GoodPullRequest): GoodPullRequest {
    MergePullRequest(stored, e)
  }

  function BuildPull(item: GoodPullItem, cutoff: Option<int>): Option<(int, GoodPullRequest)> {
    if !NotBefore(item.listed.updatedAt, cutoff) then None else Some((PullInput(item).0, PullInput(item).1))
  }

  lemma {:induction false} FoldGood(start: Option<GoodPullRequest>, es: seq<GoodPullRequest>)
    ensures Fold<GoodPullRequest, GoodPullRequest>(MergeGood, start, es) == Fold<PullRequest, PullRequest>(MergePullRequest, start, es)
  {
    if es != [] {
      FoldGood(start, es[..|es| - 1]);
    }
  }

  /** A history followed by events it already ends with settles the same way. */
  lemma {:induction false} RepeatedEnd(h: seq<PullRequest>, es: seq<PullRequest>)
    requires AllWellFormed(h) && es != [] && |h| >= |es| && h[|h| - |es|..] == es
    ensures Fold(MergePullRequest, None, h + es) == Fold(MergePullRequest, None, h)
  {
    assert forall i :: 0 <= i < |es| ==> es[i] == h[|h| - |es| + i];
    assert AllWellFormed(h + es) && SameEvents(h, h + es);
    PullRequestsConverge(h, h + es);
    PullRequestSettles(h);
    PullRequestSettles(h + es);
    assert (h + es)[|h + es| - 1] == es[|es| - 1] == h[|h| - 1];
  }

  lemma {:induction false} HistoryEnds(start: Option<PullRequest>, es: seq<PullRequest>)
    ensures var h := History(start, es);
            |h| >= |es| && h[|h| - |es|..] == es && History(start, es + es) == h + es
  {
  }

  lemma {:induction false} ReplayedPullRequest(start: Option<PullRequest>, es: seq<PullRequest>)
    requires AllWellFormed(History(start, es))
    ensures Fold(MergePullRequest, Fold(MergePullRequest, start, es), es) == Fold(MergePullRequest, start, es)
  {
    if es != [] {
      FoldAppend(MergePullRequest, start, es, es);
      FromHistory(MergePullRequest, start, es);
      FromHistory(MergePullRequest, start, es + es);
      HistoryEnds(start, es);
      RepeatedEnd(History(start, es), es);
    }
  }

  lemma {:induction false} ReplayedGood(start: Option<GoodPullRequest>, es: seq<GoodPullRequest>)
    ensures Fold<GoodPullRequest, GoodPullRequest>(MergeGood, Fold<GoodPullRequest, GoodPullRequest>(MergeGood, start, es), es)
            == Fold<GoodPullRequest, GoodPullRequest>(MergeGood, start, es)
  {
    FoldGood(start, es);
    FoldGood(Fold(MergeGood, start, es), es);
    ReplayedPullRequest(start, es);
  }

  /** Replaying well-formed pull requests on the row they produced changes nothing. */
  lemma {:induction false} PullRequestsAbsorb()
    ensures Absorbing<GoodPullRequest, GoodPullRequest>(MergeGood)
  {
    forall start: Option<GoodPullRequest>, es: seq<GoodPullRequest>
      ensures Fold<GoodPullRequest, GoodPullRequest>(MergeGood, Fold<GoodPullRequest, GoodPullRequest>(MergeGood, start, es), es)
              == Fold<GoodPullRequest, GoodPullRequest>(MergeGood, start, es)
    {
      ReplayedGood(start, es);
    }
  }

  // ---------------------------------------------------------------- the whole job

  datatype Remote = Remote(pulls: seq<seq<GoodPullItem>>, commits: seq<seq<CommitItem>>,
                           workflows: seq<seq<WorkflowItem>>, deployments: seq<seq<DeploymentItem>>)

  datatype Tables = Tables(pulls: Store<int, GoodPullRequest>, commits: Store<string, Commit>,
                           workflows: Store<int, WorkflowRun>, deployments: Store<int, Deployment>)

  /** What goes wrong in each stage of one attempt. A failure between two stages is a failure to read the next
      stage's checkpoint. */
  datatype JobPlan = JobPlan(pulls: Plan, commits: Plan, workflows: Plan, deployments: Plan)

  function Pulls(pages: seq<seq<GoodPullItem>>, cutoff: Option<int>): Resource<GoodPullItem, int, GoodPullRequest, GoodPullRequest> {
    Resource(pages, (item: GoodPullItem) => BuildPull(item, cutoff), MergeGood)
  }

  function JobAttempt(r: Remote, cutoff: Option<int>, t: Tables, plan: JobPlan): (Tables, bool) {
    var (pulls, ok1) := Attempt(Pulls(r.pulls, cutoff), t.pulls, plan.pulls);
    if !ok1 then (t.(pulls := pulls), false) else
    var (commits, ok2) := Attempt(Commits(r.commits, cutoff), t.commits, plan.commits);
    if !ok2 then (t.(pulls := pulls, commits := commits), false) else
    var (workflows, ok3) := Attempt(WorkflowRuns(r.workflows, cutoff), t.workflows, plan.workflows);
    if !ok3 then (t.(pulls := pulls, commits := commits, workflows := workflows), false) else
    var (deployments, ok4) := Attempt(Deployments(r.deployments, cutoff), t.deployments, plan.deployments);
    (Tables(pulls, commits, workflows, deployments), ok4)
  }

  function JobAttempts(r: Remote, cutoff: Option<int>, t: Tables, plans: seq<JobPlan>): Tables {
    if plans == [] then t else JobAttempt(r, cutoff, JobAttempts(r, cutoff, t, plans[..|plans| - 1]), plans[|plans| - 1]).0
  }

  predicate FirstAttempt(t: Tables) {
    ResumePage(t.pulls.checkpoint) == 1 && ResumePage(t.commits.checkpoint) == 1 &&
    ResumePage(t.workflows.checkpoint) == 1 && ResumePage(t.deployments.checkpoint) == 1
  }

  predicate Pageable(r: Remote) {
    |r.pulls| <= MAX_INT64 && |r.commits| <= MAX_INT64 && |r.workflows| <= MAX_INT64 && |r.deployments| <= MAX_INT64
  }

  ghost predicate JobRecoverable(r: Remote, cutoff: Option<int>, start: Tables, t: Tables) {
    Recoverable(Pulls(r.pulls, cutoff), start.pulls.rows, t.pulls) &&
    Recoverable(Commits(r.commits, cutoff), start.commits.rows, t.commits) &&
    Recoverable(WorkflowRuns(r.workflows, cutoff), start.workflows.rows, t.workflows) &&
    Recoverable(Deployments(r.deployments, cutoff), start.deployments.rows, t.deployments)
  }

  lemma {:induction false} AttemptStaysRecoverable<Item, K(!new), R(!new), E(!new)>(
    res: Resource<Item, K, R, E>, start: map<K, R>, s: Store<K, R>, plan: Plan)
    requires Walkable(res) && Recoverable(res, start, s)
    ensures var (s', finished) := Attempt(res, s, plan);
            Recoverable(res, start, s') && (finished ==> Finished(res, start, s'))
  {
    WalkStaysRecoverable(res, start, s, ResumePage(s.checkpoint), plan.at);
  }

  /** Every table holds the rows of one uninterrupted walk. */
  ghost predicate JobClean(r: Remote, cutoff: Option<int>, start: Tables, t: Tables) {
    t.pulls.rows == Clean(Pulls(r.pulls, cutoff), start.pulls.rows) &&
    t.commits.rows == Clean(Commits(r.commits, cutoff), start.commits.rows) &&
    t.workflows.rows == Clean(WorkflowRuns(r.workflows, cutoff), start.workflows.rows) &&
    t.deployments.rows == Clean(Deployments(r.deployments, cutoff), start.deployments.rows)
  }

  lemma {:induction false} JobStaysRecoverable(r: Remote, cutoff: Option<int>, start: Tables, t: Tables, plan: JobPlan)
    requires Pageable(r) && JobRecoverable(r, cutoff, start, t)
    ensures var (t', finished) := JobAttempt(r, cutoff, t, plan);
            JobRecoverable(r, cutoff, start, t') && (finished ==> JobClean(r, cutoff, start, t'))
  {
    EventTablesAbsorb();
    PullRequestsAbsorb();
    AttemptStaysRecoverable(Pulls(r.pulls, cutoff), start.pulls.rows, t.pulls, plan.pulls);
    AttemptStaysRecoverable(Commits(r.commits, cutoff), start.commits.rows, t.commits, plan.commits);
    AttemptStaysRecoverable(WorkflowRuns(r.workflows, cutoff), start.workflows.rows, t.workflows, plan.workflows);
    AttemptStaysRecoverable(Deployments(r.deployments, cutoff), start.deployments.rows, t.deployments, plan.deployments);
  }

  lemma {:induction false} JobAttemptsStayRecoverable(r: Remote, cutoff: Option<int>, t: Tables, plans: seq<JobPlan>)
    requires Pageable(r) && FirstAttempt(t)
    ensures JobRecoverable(r, cutoff, t, JobAttempts(r, cutoff, t, plans))
  {
    if plans != [] {
      var before := plans[..|plans| - 1];
      JobAttemptsStayRecoverable(r, cutoff, t, before);
      JobStaysRecoverable(r, cutoff, t, JobAttempts(r, cutoff, t, before), plans[|plans| - 1]);
    }
  }

  /** Whatever stages and pages earlier attempts failed in, and also when one of them had walked everything, an
      attempt that gets through all four stages leaves every table as one clean job would have. */
  lemma {:induction false} JobResumesClean(r: Remote, cutoff: Option<int>, t: Tables, failed: seq<JobPlan>, last: JobPlan)
    requires Pageable(r) && FirstAttempt(t)
    ensures var (t', finished) := JobAttempt(r, cutoff, JobAttempts(r, cutoff, t, failed), last);
            finished ==> JobClean(r, cutoff, t, t')
  {
    JobAttemptsStayRecoverable(r, cutoff, t, failed);
    JobStaysRecoverable(r, cutoff, t, JobAttempts(r, cutoff, t, failed), last);
  }
}
