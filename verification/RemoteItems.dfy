/** What GitHub lists, which items a sync includes, and the upserts it builds from them; and the three sync loops as
    instances of the paged sync. Times count from Go's zero time, so NEVER is what IsZero tests for. */
module RemoteItems {
  import opened Sql
  import opened Text
  import opened EventTables
  import opened OutcomeTables
  import opened PagedSync

  const NEVER: int := 0

  predicate NotBefore(time: int, cutoff: Option<int>) {
    cutoff.None? || time >= cutoff.value
  }

  function FirstSet(a: int, b: int): int {
    if a != NEVER then a else b
  }

  function NullableString(s: string): Option<string> {
    if Trim(s) == "" then None else Some(Trim(s))
  }

  // ---------------------------------------------------------------- pull requests

  datatype GitHubPull = GitHubPull(id: int, number: int, title: string, author: string, state: string, draft: bool,
                                   createdAt: int, updatedAt: int, mergedAt: Option<int>, closedAt: Option<int>,
                                   additions: int, deletions: int, changedFiles: int)

  /** A pull request as listed, and as fetched on its own. */
  datatype PullItem = PullItem(listed: GitHubPull, detail: GitHubPull)

  function Filled(value: string, fallback: string): string {
    if Trim(value) == "" then fallback else value
  }

  function FallbackInt(value: int, fallback: int): int {
    if value == 0 then fallback else value
  }

  function PullInput(item: PullItem): (int, PullRequest) {
    var PullItem(listed, detail) := item;
    (FallbackInt(detail.id, listed.id),
     PullRequest(Filled(detail.state, listed.state), FirstSet(detail.createdAt, listed.createdAt),
                 Coalesce(detail.mergedAt, listed.mergedAt), Coalesce(detail.closedAt, listed.closedAt),
                 Details(FallbackInt(detail.number, listed.number), Filled(detail.title, listed.title),
                         Filled(detail.author, listed.author), detail.additions, detail.deletions, detail.changedFiles,
                         detail.draft || listed.draft)))
  }

  /** A pull request arriving in a webhook at time now. */
  function ProjectPullRequest(pull: GitHubPull, now: int): Option<(int, PullRequest)> {
    if pull.id < 1 then None
    else
      Some((pull.id,
            PullRequest(FallbackString(Trim(pull.state), "open"), FirstSet(pull.createdAt, now), pull.mergedAt, pull.closedAt,
                        Details(pull.number, FallbackString(Trim(pull.title), "PR #" + FormatInt(pull.number)),
                                FallbackString(Trim(pull.author), "unknown"), pull.additions, pull.deletions,
                                pull.changedFiles, pull.draft))))
  }

  /** The value is what the webhook stores for it: trimmed and not empty. */
  predicate Kept(value: string) {
    value == Trim(value) && value != ""
  }

  /** A full sync and a webhook write the same values for a pull request exactly when its title, author and state are
      trimmed and not empty and its creation time is set. */
  lemma {:induction false} PullRequestPathsAgreeIff(pull: GitHubPull, now: int)
    requires pull.id >= 1 && now != NEVER
    ensures Some(PullInput(PullItem(pull, pull))) == ProjectPullRequest(pull, now) <==>
            Kept(pull.title) && Kept(pull.author) && Kept(pull.state) && pull.createdAt != NEVER
  {
    FormatShape(pull.number);
    EndsSolid("PR #" + FormatInt(pull.number));
    EndsSolid("unknown");
    EndsSolid("open");
    FallbackIs(pull.title, "PR #" + FormatInt(pull.number));
    FallbackIs(pull.author, "unknown");
    FallbackIs(pull.state, "open");
    assert forall v: string :: Filled(v, v) == v;
  }

  /** A text that starts and ends without a space is trimmed. */
  lemma {:induction false} EndsSolid(s: string)
    requires s != "" && !IsSpace(s[0]) && !IsSpace(s[|s| - 1])
    ensures Kept(s)
  {
  }

  /** Falling back to a text that needs no trimming gives back the value exactly when it is kept. */
  lemma {:induction false} FallbackIs(value: string, fallback: string)
    requires Kept(fallback)
    ensures FallbackString(Trim(value), fallback) == value <==> Kept(value)
  {
    TrimIdempotent(value);
  }

  // ---------------------------------------------------------------- commits

  datatype CommitItem = CommitItem(sha: string, authorName: string, login: Option<string>, email: string,
                                   message: string, date: int)

  function BuildCommit(item: CommitItem, cutoff: Option<int>): Option<(string, Commit)> {
    if !NotBefore(item.date, cutoff) then None
    else
      var author := if Trim(item.authorName) == "" && item.login.Some? then item.login.value else item.authorName;
      Some((Trim(item.sha), Commit(Trim(author), NullableString(Trim(item.email)), Trim(item.message), item.date)))
  }

  /** The same commit pushed in a webhook at time now; login is the username, if there is one. */
  function ProjectPushCommit(item: CommitItem, now: int): Option<(string, Commit)> {
    if Trim(item.sha) == "" then None
    else
      var username := if item.login.Some? then Trim(item.login.value) else "";
      var author := if Trim(item.authorName) != "" then Trim(item.authorName) else if username != "" then username else "unknown";
      Some((Trim(item.sha), Commit(author, NullableString(Trim(item.email)), FallbackString(Trim(item.message), Trim(item.sha)),
                                   FirstSet(item.date, now))))
  }

  /** A full sync and a webhook write the same values for a commit exactly when it has an author name or login, a message,
      a date and a hash: the sync stores what is missing as it is, the webhook fills it in. */
  lemma {:induction false} CommitPathsAgreeIff(item: CommitItem, now: int)
    requires now != NEVER
    ensures BuildCommit(item, None) == ProjectPushCommit(item, now) <==>
            Trim(item.sha) != "" && Trim(item.message) != "" && item.date != NEVER &&
            (Trim(item.authorName) != "" || (item.login.Some? && Trim(item.login.value) != ""))
  {
    TrimIdempotent(item.message);
  }

  // ---------------------------------------------------------------- workflow runs

  datatype WorkflowItem = WorkflowItem(id: int, name: string, status: string, conclusion: string,
                                       runStartedAt: Option<int>, createdAt: int, updatedAt: int)

  function BuildWorkflowRun(item: WorkflowItem, cutoff: Option<int>): Option<(int, WorkflowRun)> {
    if !NotBefore(FirstSet(item.updatedAt, item.createdAt), cutoff) then None
    else
      var completedAt := if item.conclusion == "" || item.updatedAt == NEVER then None else Some(item.updatedAt);
      Some((item.id, WorkflowRun(item.name, item.status, NullableString(item.conclusion), item.runStartedAt, completedAt)))
  }

  function FallbackString(value: string, fallback: string): string {
    if Trim(value) != "" then Trim(value) else fallback
  }

  /** The same run arriving in a webhook. */
  function ProjectWorkflowRun(item: WorkflowItem): Option<(int, WorkflowRun)> {
    if item.id < 1 then None
    else
      var completedAt := if Trim(item.conclusion) == "" || item.updatedAt == NEVER then None else Some(item.updatedAt);
      Some((item.id, WorkflowRun(FallbackString(Trim(item.name), "workflow-" + FormatInt(item.id)),
                                 FallbackString(Trim(item.status), "queued"),
                                 NullableString(Trim(item.conclusion)), item.runStartedAt, completedAt)))
  }

  lemma {:induction false} TrimIdempotent(s: string)
    ensures Trim(Trim(s)) == Trim(s)
  {
    TrimLeftSolid(s);
    TrimRightSolid(TrimLeft(s));
  }

  lemma {:induction false} TrimLeftSolid(s: string)
    ensures TrimLeft(s) == "" || !IsSpace(TrimLeft(s)[0])
  {
    if s != "" && IsSpace(s[0]) { TrimLeftSolid(s[1..]); }
  }

  lemma {:induction false} TrimRightSolid(s: string)
    ensures TrimRight(s) == "" || (!IsSpace(TrimRight(s)[|TrimRight(s)| - 1]) && TrimRight(s)[0] == s[0])
  {
    if s != "" && IsSpace(s[|s| - 1]) { TrimRightSolid(s[..|s| - 1]); }
  }

  /** A full sync and a webhook write the same values for a run exactly when its name and status are trimmed and not
      empty, and its conclusion is not made of spaces only, unless it has no update time. */
  lemma {:induction false} WorkflowPathsAgreeIff(item: WorkflowItem)
    requires item.id >= 1
    ensures BuildWorkflowRun(item, None) == ProjectWorkflowRun(item) <==>
            Kept(item.name) && Kept(item.status) &&
            (Trim(item.conclusion) == "" ==> item.conclusion == "" || item.updatedAt == NEVER)
  {
    TrimIdempotent(item.conclusion);
    FormatShape(item.id);
    EndsSolid("workflow-" + FormatInt(item.id));
    EndsSolid("queued");
    FallbackIs(item.name, "workflow-" + FormatInt(item.id));
    FallbackIs(item.status, "queued");
  }

  // ---------------------------------------------------------------- deployments

  datatype DeploymentStatus = DeploymentStatus(state: string, createdAt: int, updatedAt: int)

  /** A listed deployment with the statuses GitHub returns for it. */
  datatype DeploymentItem = DeploymentItem(id: int, environment: string, createdAt: int, updatedAt: int,
                                           statuses: seq<DeploymentStatus>)

  function StatusTime(s: DeploymentStatus): int {
    FirstSet(s.updatedAt, s.createdAt)
  }

  function LatestStatus(items: seq<DeploymentStatus>): Option<DeploymentStatus> {
    if items == [] then None
    else
      var latest, candidate := LatestStatus(items[..|items| - 1]), items[|items| - 1];
      if latest.None? || StatusTime(candidate) > StatusTime(latest.value) then Some(candidate) else latest
  }

  method LatestDeploymentStatus(items: seq<DeploymentStatus>) returns (latest: Option<DeploymentStatus>)
    ensures latest == LatestStatus(items)
  {
    latest := None;
    for i := 0 to |items|
      invariant latest == LatestStatus(items[..i])
    {
      var candidate := items[i];
      assert items[..i + 1][..i] == items[..i];
      if latest.None? || StatusTime(candidate) > StatusTime(latest.value) {
        latest := Some(candidate);
      }
    }
    assert items[..|items|] == items;
  }

  /** The first of the statuses with the greatest time. */
  lemma {:induction false} LatestStatusIs(items: seq<DeploymentStatus>) returns (k: nat)
    requires items != []
    ensures k < |items| && LatestStatus(items) == Some(items[k])
    ensures forall i :: 0 <= i < |items| ==> StatusTime(items[i]) <= StatusTime(items[k])
    ensures forall i :: 0 <= i < k ==> StatusTime(items[i]) < StatusTime(items[k])
  {
    var init := items[..|items| - 1];
    k := |items| - 1;
    if init != [] {
      var j := LatestStatusIs(init);
      if LatestStatus(items) == Some(items[j]) && StatusTime(items[k]) <= StatusTime(items[j]) { k := j; }
    }
  }

  predicate IsIncluded(item: DeploymentItem, cutoff: Option<int>) {
    NotBefore(FirstSet(item.updatedAt, item.createdAt), cutoff)
  }

  function BuildDeployment(item: DeploymentItem, cutoff: Option<int>): Option<(int, Deployment)> {
    if !IsIncluded(item, cutoff) then None
    else
      match LatestStatus(item.statuses)
      case None => None
      case Some(status) =>
        var deployedAt := FirstSet(status.updatedAt, FirstSet(status.createdAt, FirstSet(item.updatedAt, item.createdAt)));
        Some((item.id, Deployment(item.environment, status.state, deployedAt)))
  }

  /** A deployment with one status arriving in a webhook at time now. */
  function ProjectDeployment(item: DeploymentItem, status: DeploymentStatus, action: string, now: int): Option<(int, Deployment)> {
    if item.id < 1 then None
    else
      var deployedAt := FirstSet(status.updatedAt, FirstSet(status.createdAt, FirstSet(item.updatedAt, FirstSet(item.createdAt, now))));
      var state := if Trim(status.state) != "" then Trim(status.state) else if Trim(action) != "" then Trim(action) else "pending";
      Some((item.id, Deployment(FallbackString(Trim(item.environment), "production"), state, deployedAt)))
  }

  /** A full sync and a webhook write the same values for a deployment exactly when state and environment are trimmed and
      not empty, and one of the four times is set. */
  lemma {:induction false} DeploymentPathsAgreeIff(item: DeploymentItem, status: DeploymentStatus, action: string, now: int)
    requires item.id >= 1 && now != NEVER && LatestStatus(item.statuses) == Some(status)
    ensures BuildDeployment(item, None) == ProjectDeployment(item, status, action, now) <==>
            Kept(status.state) && Kept(item.environment) &&
            (status.updatedAt != NEVER || status.createdAt != NEVER || item.updatedAt != NEVER || item.createdAt != NEVER)
  {
    EndsSolid("production");
    EndsSolid("pending");
    FallbackIs(item.environment, "production");
    TrimIdempotent(action);
    TrimIdempotent(status.state);
  }

  // ---------------------------------------------------------------- the three sync loops

  function Commits(pages: seq<seq<CommitItem>>, cutoff: Option<int>): Resource<CommitItem, string, Commit, Commit> {
    Resource(pages, (item: CommitItem) => BuildCommit(item, cutoff), MergeCommit)
  }

  function WorkflowRuns(pages: seq<seq<WorkflowItem>>, cutoff: Option<int>): Resource<WorkflowItem, int, WorkflowRun, WorkflowRun> {
    Resource(pages, (item: WorkflowItem) => BuildWorkflowRun(item, cutoff), MergeWorkflowRun)
  }

  function Deployments(pages: seq<seq<DeploymentItem>>, cutoff: Option<int>): Resource<DeploymentItem, int, Deployment, Deployment> {
    Resource(pages, (item: DeploymentItem) => BuildDeployment(item, cutoff), MergeDeployment)
  }

  lemma {:induction false} CommitsResume(pages: seq<seq<CommitItem>>, cutoff: Option<int>, s: Store<string, Commit>,
                                         failed: seq<Plan>, last: Plan)
    requires |pages| <= MAX_INT64 && ResumePage(s.checkpoint) == 1
    requires var res := Commits(pages, cutoff); Attempt(res, Attempts(res, s, failed), last).1
    ensures var res := Commits(pages, cutoff); Attempt(res, Attempts(res, s, failed), last).0.rows == Clean(res, s.rows)
  {
    EventTablesAbsorb();
    ResumedEqualsClean(Commits(pages, cutoff), s, failed, last);
  }

  lemma {:induction false} WorkflowRunsResume(pages: seq<seq<WorkflowItem>>, cutoff: Option<int>, s: Store<int, WorkflowRun>,
                                              failed: seq<Plan>, last: Plan)
    requires |pages| <= MAX_INT64 && ResumePage(s.checkpoint) == 1
    requires var res := WorkflowRuns(pages, cutoff); Attempt(res, Attempts(res, s, failed), last).1
    ensures var res := WorkflowRuns(pages, cutoff); Attempt(res, Attempts(res, s, failed), last).0.rows == Clean(res, s.rows)
  {
    EventTablesAbsorb();
    ResumedEqualsClean(WorkflowRuns(pages, cutoff), s, failed, last);
  }

  lemma {:induction false} DeploymentsResume(pages: seq<seq<DeploymentItem>>, cutoff: Option<int>, s: Store<int, Deployment>,
                                             failed: seq<Plan>, last: Plan)
    requires |pages| <= MAX_INT64 && ResumePage(s.checkpoint) == 1
    requires var res := Deployments(pages, cutoff); Attempt(res, Attempts(res, s, failed), last).1
    ensures var res := Deployments(pages, cutoff); Attempt(res, Attempts(res, s, failed), last).0.rows == Clean(res, s.rows)
  {
    EventTablesAbsorb();
    ResumedEqualsClean(Deployments(pages, cutoff), s, failed, last);
  }
}
