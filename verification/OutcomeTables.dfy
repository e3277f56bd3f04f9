/** Reviews, workflow runs, deployments and commits: which event provides the stored outcome, when that does not
    depend on the order of arrival, and that replaying events never changes a row. */
module OutcomeTables {
  import opened Sql
  import opened Upserts
  import opened StampedRows
  import opened EventTables

  // ---------------------------------------------------------------- the tables as stamped rows

  function ReviewCell(r: Review): Cell<string, int> {
    Cell(r.state, r.pullRequest, None, r.submittedAt)
  }
  function ReviewEvent(e: Review): Event<string, int> {
    Event(e.state, e.pullRequest, None, Stamp(e.submittedAt, e.submittedAt, e.submittedAt.None?))
  }

  function WorkflowCell(r: WorkflowRun): Cell<(string, Option<string>), string> {
    Cell((r.status, r.conclusion), r.name, r.startedAt, r.completedAt)
  }
  function WorkflowEvent(e: WorkflowRun): Event<(string, Option<string>), string> {
    Event((e.status, e.conclusion), e.name, e.startedAt,
          Stamp(e.completedAt, Coalesce(e.completedAt, e.startedAt), false))
  }

  function DeploymentCell(r: Deployment): Cell<string, string> {
    Cell(r.status, r.environment, None, Some(r.deployedAt))
  }
  function DeploymentEvent(e: Deployment): Event<string, string> {
    Event(e.status, e.environment, None, Stamp(Some(e.deployedAt), Some(e.deployedAt), false))
  }

  function CommitCell(r: Commit): Cell<(), Commit> { Cell((), r, None, None) }
  function CommitEvent(e: Commit): Event<(), Commit> { Event((), e, None, Stamp(None, None, false)) }

  function MapOption<A, B>(f: A -> B, a: Option<A>): Option<B> {
    if a.None? then None else Some(f(a.value))
  }

  function Events<E, P, L>(event: E -> Event<P, L>, es: seq<E>): (r: seq<Event<P, L>>)
    ensures |r| == |es| && forall i :: 0 <= i < |es| ==> r[i] == event(es[i])
  {
    seq(|es|, i requires 0 <= i < |es| => event(es[i]))
  }

  ghost predicate Simulates<R(!new), E(!new), P, L>(merge: Merge<R, E>, cell: R -> Cell<P, L>, event: E -> Event<P, L>) {
    (forall row: Option<R>, e: E :: cell(merge(row, e)) == MergeCell(MapOption(cell, row), event(e))) &&
    (forall e: E :: Coherent(event(e).stamp))
  }

  lemma {:induction false} FoldSimulates<R(!new), E(!new), P, L>(
    merge: Merge<R, E>, cell: R -> Cell<P, L>, event: E -> Event<P, L>, row: Option<R>, es: seq<E>)
    requires Simulates(merge, cell, event)
    ensures MapOption(cell, Fold(merge, row, es)) == Fold(MergeCell, MapOption(cell, row), Events(event, es))
    ensures AllCoherent(Stamps(Events(event, es)))
  {
    if es != [] {
      FoldSimulates(merge, cell, event, row, es[..|es| - 1]);
      assert Events(event, es)[..|es| - 1] == Events(event, es[..|es| - 1]);
    }
  }

  /** What a view shows is unchanged by a replay. */
  lemma {:induction false} ViewAbsorbs<R(!new), E(!new), P, L>(
    merge: Merge<R, E>, cell: R -> Cell<P, L>, event: E -> Event<P, L>, row: Option<R>, es: seq<E>)
    requires Simulates(merge, cell, event)
    ensures MapOption(cell, Fold(merge, Fold(merge, row, es), es)) == MapOption(cell, Fold(merge, row, es))
  {
    FoldSimulates(merge, cell, event, row, es);
    FoldSimulates(merge, cell, event, Fold(merge, row, es), es);
    CellAbsorbs(MapOption(cell, row), Events(event, es));
  }

  lemma {:induction false} InstanceAbsorbs<R(!new), E(!new), P, L>(merge: Merge<R, E>, cell: R -> Cell<P, L>, event: E -> Event<P, L>)
    requires Simulates(merge, cell, event)
    requires forall a: R, b: R :: cell(a) == cell(b) ==> a == b
    ensures Absorbing(merge)
  {
    forall row: Option<R>, es: seq<E>
      ensures Fold(merge, Fold(merge, row, es), es) == Fold(merge, row, es)
    {
      ViewAbsorbs(merge, cell, event, row, es);
    }
  }

  /** Replaying commits, workflow runs or deployments on the rows they produced changes nothing. */
  lemma {:induction false} EventTablesAbsorb()
    ensures Absorbing(MergeCommit) && Absorbing(MergeWorkflowRun) && Absorbing(MergeDeployment)
  {
    InstanceAbsorbs(MergeCommit, CommitCell, CommitEvent);
    InstanceAbsorbs(MergeWorkflowRun, WorkflowCell, WorkflowEvent);
    InstanceAbsorbs(MergeDeployment, DeploymentCell, DeploymentEvent);
  }

  // A review has two least times, so two views of it are needed.

  function RequestedCell(r: Review): Cell<string, (int, string)> {
    Cell(r.state, (r.pullRequest, r.reviewer), r.requestedAt, r.submittedAt)
  }
  function RequestedEvent(e: Review): Event<string, (int, string)> {
    Event(e.state, (e.pullRequest, e.reviewer), e.requestedAt, Stamp(e.submittedAt, e.submittedAt, e.submittedAt.None?))
  }

  function FirstReviewCell(r: Review): Cell<string, (int, string)> {
    Cell(r.state, (r.pullRequest, r.reviewer), r.firstReviewAt, r.submittedAt)
  }
  function FirstReviewEvent(e: Review): Event<string, (int, string)> {
    Event(e.state, (e.pullRequest, e.reviewer), e.firstReviewAt, Stamp(e.submittedAt, e.submittedAt, e.submittedAt.None?))
  }

  /** Replaying reviews on the row they produced changes nothing. */
  lemma {:induction false} ReviewsAbsorb()
    ensures Absorbing(MergeReview)
  {
    assert Simulates(MergeReview, RequestedCell, RequestedEvent);
    assert Simulates(MergeReview, FirstReviewCell, FirstReviewEvent);
    forall row: Option<Review>, es: seq<Review>
      ensures Fold(MergeReview, Fold(MergeReview, row, es), es) == Fold(MergeReview, row, es)
    {
      ViewAbsorbs(MergeReview, RequestedCell, RequestedEvent, row, es);
      ViewAbsorbs(MergeReview, FirstReviewCell, FirstReviewEvent, row, es);
    }
  }

  /** What a row says beside its outcome and times is what the last event says, whatever was stored before; of a commit that is
      everything, so the last write wins. */
  lemma {:induction false} LastEventDescribes()
    ensures forall row: Option<Commit>, es: seq<Commit> :: es != [] ==> Fold(MergeCommit, row, es) == Some(es[|es| - 1])
    ensures forall row: Option<WorkflowRun>, es: seq<WorkflowRun> :: es != [] ==>
              Fold(MergeWorkflowRun, row, es).value.name == es[|es| - 1].name
    ensures forall row: Option<Deployment>, es: seq<Deployment> :: es != [] ==>
              Fold(MergeDeployment, row, es).value.environment == es[|es| - 1].environment
    ensures forall row: Option<Review>, es: seq<Review> :: es != [] ==>
              Fold(MergeReview, row, es).value.pullRequest == es[|es| - 1].pullRequest &&
              Fold(MergeReview, row, es).value.reviewer == es[|es| - 1].reviewer
    ensures forall row: Option<PullRequest>, es: seq<PullRequest> :: es != [] ==>
              Fold(MergePullRequest, row, es).value.details == es[|es| - 1].details
  {
  }

  // ---------------------------------------------------------------- whose outcome is stored

  function Completions(es: seq<WorkflowRun>): (ts: seq<Option<int>>)
    ensures |ts| == |es| && forall i :: 0 <= i < |es| ==> ts[i] == es[i].completedAt
  {
    seq(|es|, i requires 0 <= i < |es| => es[i].completedAt)
  }

  /** Index of the event whose status and conclusion the row ends up with. */
  function WorkflowAuthor(es: seq<WorkflowRun>): (i: int)
    ensures es != [] ==> 0 <= i < |es|
  {
    Chosen(Absent, Stamps(Events(WorkflowEvent, es)))
  }

  lemma {:induction false} WorkflowAuthorWrites(es: seq<WorkflowRun>)
    requires es != []
    ensures var r := Fold(MergeWorkflowRun, None, es).value;
            r.status == es[WorkflowAuthor(es)].status && r.conclusion == es[WorkflowAuthor(es)].conclusion
  {
    FoldSimulates(MergeWorkflowRun, WorkflowCell, WorkflowEvent, None, es);
    FoldCell<(string, Option<string>), string>(None, Events(WorkflowEvent, es));
  }

  /** The last-arriving completion with the greatest completed_at decides the outcome exactly when every unfinished
      event arriving after it has a start, and one before that completion: a NULL start always overwrites. */
  lemma {:induction false} WorkflowOutcomeIff(es: seq<WorkflowRun>, newest: int)
    requires IsNewest(Completions(es), newest)
    ensures WorkflowAuthor(es) == newest <==>
            forall j :: newest < j < |es| && es[j].completedAt.None? ==> StartsBefore(es[j], es[newest].completedAt.value)
  {
    var ss := Stamps(Events(WorkflowEvent, es));
    assert Bumps(ss) == Completions(es);
    assert AllCoherent(ss);
    NewestIsChosenIff(ss, newest);
    forall j | newest < j < |es| { LaterEventOverwritesIff(es, newest, j); }
  }

  predicate StartsBefore(e: WorkflowRun, end: int) {
    e.startedAt.Some? && e.startedAt.value < end
  }

  lemma {:induction false} LaterEventOverwritesIff(es: seq<WorkflowRun>, newest: int, j: int)
    requires IsNewest(Completions(es), newest) && newest < j < |es|
    ensures var ss := Stamps(Events(WorkflowEvent, es));
            Accepts(ss[j], At(ss[newest].bump)) <==>
            es[j].completedAt.None? && !StartsBefore(es[j], es[newest].completedAt.value)
  {
    assert Completions(es)[j] != Completions(es)[newest];
    assert Completions(es)[j].Some? ==> Completions(es)[j].value <= Completions(es)[newest].value;
  }

  /** When every unfinished event starts before every completion, the newest completion wins wherever
      the unfinished events fall. */
  lemma {:induction false} NewestCompletionWins(es: seq<WorkflowRun>, newest: int)
    requires IsNewest(Completions(es), newest)
    requires forall i, j :: 0 <= i < |es| && 0 <= j < |es| && es[i].completedAt.None? && es[j].completedAt.Some? ==>
               StartsBefore(es[i], es[j].completedAt.value)
    ensures var r := Fold(MergeWorkflowRun, None, es).value;
            r.status == es[newest].status && r.conclusion == es[newest].conclusion
  {
    assert es[newest].completedAt.Some? by { assert Completions(es)[newest] == es[newest].completedAt; }
    WorkflowOutcomeIff(es, newest);
    WorkflowAuthorWrites(es);
  }

  function Submissions(es: seq<Review>): (ts: seq<Option<int>>)
    ensures |ts| == |es| && forall i :: 0 <= i < |es| ==> ts[i] == es[i].submittedAt
  {
    seq(|es|, i requires 0 <= i < |es| => es[i].submittedAt)
  }

  /** A review's state is that of the greatest submission time, the latest arrival among equals; before any
      submission it is that of the first arrival. */
  lemma {:induction false} ReviewStateIs(es: seq<Review>) returns (i: int)
    requires es != []
    ensures 0 <= i < |es|
    ensures var r := Fold(MergeReview, None, es).value;
            r.state == es[i].state && r.submittedAt == es[i].submittedAt
    ensures if forall j :: 0 <= j < |es| ==> es[j].submittedAt.None? then i == 0 else IsNewest(Submissions(es), i)
  {
    var events := Events(ReviewEvent, es);
    FoldSimulates(MergeReview, ReviewCell, ReviewEvent, None, es);
    if forall j :: 0 <= j < |es| ==> es[j].submittedAt.None? {
      i := 0;
      SilentKeepsFirst(events);
    } else {
      i := NewestReview(es);
      NewestProvidesPayload(events, i);
    }
  }

  lemma {:induction false} NewestReview(es: seq<Review>) returns (i: int)
    requires exists j :: 0 <= j < |es| && es[j].submittedAt.Some?
    ensures IsNewest(Submissions(es), i)
    ensures var events := Events(ReviewEvent, es);
            AllCoherent(Stamps(events)) && IsNewest(Bumps(Stamps(events)), i) &&
            forall j :: i < j < |es| ==> !Accepts(events[j].stamp, At(events[i].stamp.bump))
  {
    var events := Events(ReviewEvent, es);
    i := MarkIsNewest(Stamps(events));
    var k :| 0 <= k < |es| && es[k].submittedAt.Some?;
    assert Stamps(events)[k].bump.Some?;
    assert Bumps(Stamps(events)) == Submissions(es);
    forall j | i < j < |es| ensures !Accepts(events[j].stamp, At(events[i].stamp.bump)) {
      assert Submissions(es)[j] != Submissions(es)[i];
    }
  }

  function DeployTimes(es: seq<Deployment>): (ts: seq<Option<int>>)
    ensures |ts| == |es| && forall i :: 0 <= i < |es| ==> ts[i] == Some(es[i].deployedAt)
  {
    seq(|es|, i requires 0 <= i < |es| => Some(es[i].deployedAt))
  }

  /** A deployment's status is that of the greatest deployed_at, the latest arrival among equals. */
  lemma {:induction false} DeploymentStatusIs(es: seq<Deployment>) returns (i: int)
    requires es != []
    ensures IsNewest(DeployTimes(es), i)
    ensures var r := Fold(MergeDeployment, None, es).value;
            r.status == es[i].status && r.deployedAt == es[i].deployedAt
  {
    i := NewestDeployment(es);
    NewestProvidesPayload(Events(DeploymentEvent, es), i);
    FoldSimulates(MergeDeployment, DeploymentCell, DeploymentEvent, None, es);
  }

  lemma {:induction false} NewestDeployment(es: seq<Deployment>) returns (i: int)
    requires es != []
    ensures IsNewest(DeployTimes(es), i)
    ensures var events := Events(DeploymentEvent, es);
            AllCoherent(Stamps(events)) && IsNewest(Bumps(Stamps(events)), i) &&
            forall j :: i < j < |es| ==> !Accepts(events[j].stamp, At(events[i].stamp.bump))
  {
    var events := Events(DeploymentEvent, es);
    i := MarkIsNewest(Stamps(events));
    assert Stamps(events)[0].bump.Some?;
    assert Bumps(Stamps(events)) == DeployTimes(es);
    forall j | i < j < |es| ensures !Accepts(events[j].stamp, At(events[i].stamp.bump)) {
      assert DeployTimes(es)[j] != DeployTimes(es)[i];
    }
  }

  // ---------------------------------------------------------------- order independence

  /** With equal times carrying equal statuses, the deployment row's status and time depend only on the events. */
  lemma {:induction false} DeploymentsConverge(xs: seq<Deployment>, ys: seq<Deployment>)
    requires xs != [] && SameEvents(xs, ys)
    requires forall d, e :: d in xs && e in xs && d.deployedAt == e.deployedAt ==> d.status == e.status
    ensures ys != []
    ensures var a, b := Fold(MergeDeployment, None, xs).value, Fold(MergeDeployment, None, ys).value;
            a.status == b.status && a.deployedAt == b.deployedAt
  {
    assert xs[0] in ys;
    var i := DeploymentStatusIs(xs);
    var j := DeploymentStatusIs(ys);
    var i' :| 0 <= i' < |xs| && xs[i'] == ys[j];
    var j' :| 0 <= j' < |ys| && ys[j'] == xs[i];
    assert DeployTimes(xs)[i'].value <= DeployTimes(xs)[i].value;
    assert DeployTimes(ys)[j'].value <= DeployTimes(ys)[j].value;
  }

  /** The same for reviews, once one of the events was submitted. */
  lemma {:induction false} ReviewsConverge(xs: seq<Review>, ys: seq<Review>)
    requires SameEvents(xs, ys) && exists e :: e in xs && e.submittedAt.Some?
    requires forall d, e :: d in xs && e in xs && d.submittedAt.Some? && d.submittedAt == e.submittedAt ==> d.state == e.state
    ensures xs != [] && ys != []
    ensures var a, b := Fold(MergeReview, None, xs).value, Fold(MergeReview, None, ys).value;
            a.state == b.state && a.submittedAt == b.submittedAt
  {
    var e :| e in xs && e.submittedAt.Some?;
    var k :| 0 <= k < |xs| && xs[k] == e;
    assert xs[k] in ys;
    var k' :| 0 <= k' < |ys| && ys[k'] == e;
    var i := ReviewStateIs(xs);
    var j := ReviewStateIs(ys);
    NewestReviewsAgree(xs, ys, i, j);
  }

  lemma {:induction false} NewestReviewsAgree(xs: seq<Review>, ys: seq<Review>, i: int, j: int)
    requires SameEvents(xs, ys) && IsNewest(Submissions(xs), i) && IsNewest(Submissions(ys), j)
    ensures ys[j] in xs && xs[i].submittedAt.Some? && xs[i].submittedAt == ys[j].submittedAt
  {
    assert xs[i] in ys && ys[j] in xs;
    var i' :| 0 <= i' < |xs| && xs[i'] == ys[j];
    var j' :| 0 <= j' < |ys| && ys[j'] == xs[i];
    assert Submissions(xs)[i'] == Submissions(ys)[j] && Submissions(ys)[j'] == Submissions(xs)[i];
    assert Submissions(xs)[i'].value <= Submissions(xs)[i].value;
    assert Submissions(ys)[j'].value <= Submissions(ys)[j].value;
  }

  // ---------------------------------------------------------------- times

  function Negated(t: Option<int>): Option<int> {
    if t.None? then None else Some(-t.value)
  }

  /** m is the least of the non-NULL times f takes on es, and NULL when there is none. */
  ghost predicate IsLeast<E>(m: Option<int>, es: seq<E>, f: E -> Option<int>) {
    IsGreatest(Negated(m), es, e => Negated(f(e)))
  }

  lemma {:induction false} LeastOfMore<E>(m: Option<int>, init: seq<E>, e: E, f: E -> Option<int>)
    requires IsLeast(m, init, f)
    ensures IsLeast(Least(m, f(e)), init + [e], f)
  {
    GreatestOfMore(Negated(m), init, e, x => Negated(f(x)));
    assert Negated(Least(m, f(e))) == Greatest(Negated(m), Negated(f(e)));
  }

  lemma {:induction false} LeastOfSameEvents<E>(a: Option<int>, b: Option<int>, xs: seq<E>, ys: seq<E>, f: E -> Option<int>)
    requires IsLeast(a, xs, f) && IsLeast(b, ys, f) && SameEvents(xs, ys)
    ensures a == b
  {
    GreatestOfSameEvents(Negated(a), Negated(b), xs, ys, e => Negated(f(e)));
    assert a == Negated(Negated(a)) && b == Negated(Negated(b));
  }

  ghost predicate RunTimesSettled(r: WorkflowRun, es: seq<WorkflowRun>) {
    es != [] && r.name == es[|es| - 1].name &&
    IsLeast(r.startedAt, es, (e: WorkflowRun) => e.startedAt) &&
    IsGreatest(r.completedAt, es, (e: WorkflowRun) => e.completedAt)
  }

  lemma {:induction false} OneMoreRunTime(r: WorkflowRun, init: seq<WorkflowRun>, e: WorkflowRun)
    requires RunTimesSettled(r, init)
    ensures RunTimesSettled(MergeWorkflowRun(Some(r), e), init + [e])
  {
    LeastOfMore(r.startedAt, init, e, (x: WorkflowRun) => x.startedAt);
    GreatestOfMore(r.completedAt, init, e, (x: WorkflowRun) => x.completedAt);
  }

  lemma {:induction false} FirstRunTime(e: WorkflowRun)
    ensures RunTimesSettled(e, [e])
  {
    assert [e][0] == e;
  }

  /** A run's row keeps the earliest start and the latest completion of all events, and the last name. */
  lemma {:induction false} WorkflowTimesSettle(es: seq<WorkflowRun>)
    requires es != []
    ensures RunTimesSettled(Fold(MergeWorkflowRun, None, es).value, es)
  {
    var init, e := es[..|es| - 1], es[|es| - 1];
    assert es == init + [e];
    if init != [] {
      WorkflowTimesSettle(init);
      OneMoreRunTime(Fold(MergeWorkflowRun, None, init).value, init, e);
    } else {
      FirstRunTime(e);
      assert Fold(MergeWorkflowRun, None, init) == None && es == [e];
    }
  }

  ghost predicate ReviewTimesSettled(r: Review, es: seq<Review>) {
    es != [] && r.pullRequest == es[|es| - 1].pullRequest && r.reviewer == es[|es| - 1].reviewer &&
    IsLeast(r.requestedAt, es, (e: Review) => e.requestedAt) &&
    IsLeast(r.firstReviewAt, es, (e: Review) => e.firstReviewAt) &&
    IsGreatest(r.submittedAt, es, (e: Review) => e.submittedAt)
  }

  lemma {:induction false} OneMoreReviewTime(r: Review, init: seq<Review>, e: Review)
    requires ReviewTimesSettled(r, init)
    ensures ReviewTimesSettled(MergeReview(Some(r), e), init + [e])
  {
    LeastOfMore(r.requestedAt, init, e, (x: Review) => x.requestedAt);
    LeastOfMore(r.firstReviewAt, init, e, (x: Review) => x.firstReviewAt);
    GreatestOfMore(r.submittedAt, init, e, (x: Review) => x.submittedAt);
  }

  lemma {:induction false} FirstReviewTime(e: Review)
    ensures ReviewTimesSettled(e, [e])
  {
    assert [e][0] == e;
  }

  /** A review's row keeps the earliest request and first review and the latest submission. */
  lemma {:induction false} ReviewTimesSettle(es: seq<Review>)
    requires es != []
    ensures ReviewTimesSettled(Fold(MergeReview, None, es).value, es)
  {
    var init, e := es[..|es| - 1], es[|es| - 1];
    assert es == init + [e];
    if init != [] {
      ReviewTimesSettle(init);
      OneMoreReviewTime(Fold(MergeReview, None, init).value, init, e);
    } else {
      FirstReviewTime(e);
      assert Fold(MergeReview, None, init) == None && es == [e];
    }
  }

  lemma {:induction false} NewestCompletion(es: seq<WorkflowRun>) returns (newest: int)
    requires exists e :: e in es && e.completedAt.Some?
    ensures IsNewest(Completions(es), newest)
  {
    var ss := Stamps(Events(WorkflowEvent, es));
    newest := MarkIsNewest(ss);
    assert Bumps(ss) == Completions(es);
    var e :| e in es && e.completedAt.Some?;
    var k :| 0 <= k < |es| && es[k] == e;
    assert ss[k].bump.Some?;
  }

  lemma {:induction false} NewestIsGreatest(es: seq<WorkflowRun>, newest: int, m: Option<int>)
    requires IsNewest(Completions(es), newest) && IsGreatest(m, es, (e: WorkflowRun) => e.completedAt)
    ensures es[newest].completedAt == m
  {
    var f := (e: WorkflowRun) => e.completedAt;
    assert f(es[newest]) == Completions(es)[newest];
    assert m.Some?;
    var i :| 0 <= i < |es| && f(es[i]) == m;
    assert Completions(es)[i] == m;
  }

  /** Every unfinished event starts before every completion, and equal completion times carry equal outcomes. */
  ghost predicate OrderlyRuns(es: seq<WorkflowRun>) {
    (forall d, e :: d in es && e in es && d.completedAt.None? && e.completedAt.Some? ==> StartsBefore(d, e.completedAt.value)) &&
    (forall d, e :: d in es && e in es && d.completedAt.Some? && d.completedAt == e.completedAt ==>
       d.status == e.status && d.conclusion == e.conclusion)
  }

  lemma {:induction false} OutcomesAgree(xs: seq<WorkflowRun>, ys: seq<WorkflowRun>, i: int, j: int)
    requires SameEvents(xs, ys) && OrderlyRuns(xs)
    requires IsNewest(Completions(xs), i) && IsNewest(Completions(ys), j) && xs[i].completedAt == ys[j].completedAt
    ensures var a, b := Fold(MergeWorkflowRun, None, xs).value, Fold(MergeWorkflowRun, None, ys).value;
            a.status == b.status && a.conclusion == b.conclusion
  {
    assert forall n :: 0 <= n < |ys| ==> ys[n] in xs;
    NewestCompletionWins(xs, i);
    NewestCompletionWins(ys, j);
    assert xs[i] in xs && ys[j] in xs && Completions(xs)[i] == xs[i].completedAt;
  }

  /** Once a completion is among orderly events, all of a run's lifecycle depends only on the set of events. */
  lemma {:induction false} WorkflowRunsConverge(xs: seq<WorkflowRun>, ys: seq<WorkflowRun>)
    requires SameEvents(xs, ys) && OrderlyRuns(xs) && exists e :: e in xs && e.completedAt.Some?
    ensures xs != [] && ys != []
    ensures var a, b := Fold(MergeWorkflowRun, None, xs).value, Fold(MergeWorkflowRun, None, ys).value;
            a.(name := "") == b.(name := "")
  {
    var e :| e in xs && e.completedAt.Some?;
    var k :| 0 <= k < |xs| && xs[k] == e;
    assert xs[k] in ys;
    WorkflowTimesSettle(xs);
    WorkflowTimesSettle(ys);
    var a, b := Fold(MergeWorkflowRun, None, xs).value, Fold(MergeWorkflowRun, None, ys).value;
    LeastOfSameEvents(a.startedAt, b.startedAt, xs, ys, (x: WorkflowRun) => x.startedAt);
    GreatestOfSameEvents(a.completedAt, b.completedAt, xs, ys, (x: WorkflowRun) => x.completedAt);
    var i := NewestCompletion(xs);
    var j := NewestCompletion(ys);
    NewestIsGreatest(xs, i, a.completedAt);
    NewestIsGreatest(ys, j, b.completedAt);
    OutcomesAgree(xs, ys, i, j);
  }
}
