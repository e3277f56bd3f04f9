/** The upsert statements of the event tables, and what any sequence of them leaves behind.
    Times are integers; every statement gets the stored row (None when absent) and EXCLUDED. */
module EventTables {
  import opened Sql
  import opened Upserts

  // ---------------------------------------------------------------- the statements

  datatype Details = Details(number: int, title: string, author: string, additions: int, deletions: int,
                             filesChanged: int, isDraft: bool)

  datatype PullRequest = PullRequest(state: string, createdAt: int, mergedAt: Option<int>, closedAt: Option<int>,
                                     details: Details)

  function MergePullRequest(stored: Option<PullRequest>, e: PullRequest): PullRequest {
    match stored
    case None => e
    case Some(r) =>
      PullRequest(
        if r.mergedAt.Some? && e.mergedAt.None? then r.state
        else if r.closedAt.Some? && e.closedAt.None? && e.state == "open" then r.state
        else e.state,
        if r.createdAt <= e.createdAt then r.createdAt else e.createdAt,
        Coalesce(Greatest(r.mergedAt, e.mergedAt), Coalesce(r.mergedAt, e.mergedAt)),
        Coalesce(Greatest(r.closedAt, e.closedAt), Coalesce(r.closedAt, e.closedAt)),
        e.details)
  }

  datatype Review = Review(pullRequest: int, reviewer: string, requestedAt: Option<int>, firstReviewAt: Option<int>,
                           submittedAt: Option<int>, state: string)

  function MergeReview(stored: Option<Review>, e: Review): Review {
    match stored
    case None => e
    case Some(r) =>
      Review(
        e.pullRequest,
        e.reviewer,
        Coalesce(Least(r.requestedAt, e.requestedAt), Coalesce(r.requestedAt, e.requestedAt)),
        Coalesce(Least(r.firstReviewAt, e.firstReviewAt), Coalesce(r.firstReviewAt, e.firstReviewAt)),
        Coalesce(Greatest(r.submittedAt, e.submittedAt), Coalesce(r.submittedAt, e.submittedAt)),
        if e.submittedAt.Some? && (r.submittedAt.None? || e.submittedAt.value >= r.submittedAt.value) then e.state
        else r.state)
  }

  datatype WorkflowRun = WorkflowRun(name: string, status: string, conclusion: Option<string>,
                                     startedAt: Option<int>, completedAt: Option<int>)

  /** The condition shared by the status and the conclusion CASE. */
  predicate KeepsOutcome(r: WorkflowRun, e: WorkflowRun) {
    r.completedAt.Some? &&
    Holds(Less(Coalesce(e.completedAt, e.startedAt), Coalesce(r.completedAt, r.startedAt)))
  }

  function MergeWorkflowRun(stored: Option<WorkflowRun>, e: WorkflowRun): WorkflowRun {
    match stored
    case None => e
    case Some(r) =>
      WorkflowRun(
        e.name,
        if KeepsOutcome(r, e) then r.status else e.status,
        if KeepsOutcome(r, e) then r.conclusion else e.conclusion,
        Coalesce(Least(r.startedAt, e.startedAt), Coalesce(r.startedAt, e.startedAt)),
        Coalesce(Greatest(r.completedAt, e.completedAt), Coalesce(r.completedAt, e.completedAt)))
  }

  datatype Deployment = Deployment(environment: string, status: string, deployedAt: int)

  function MergeDeployment(stored: Option<Deployment>, e: Deployment): Deployment {
    match stored
    case None => e
    case Some(r) =>
      Deployment(
        e.environment,
        if e.deployedAt >= r.deployedAt then e.status else r.status,
        if r.deployedAt >= e.deployedAt then r.deployedAt else e.deployedAt)
  }

  datatype Commit = Commit(author: string, authorEmail: Option<string>, message: string, authoredAt: int)

  function MergeCommit(stored: Option<Commit>, e: Commit): Commit {
    e
  }

  // ---------------------------------------------------------------- the tables

  class PullRequestTables {
    var pullRequests: map<int, PullRequest>
    var reviews: map<int, Review>

    constructor ()
      ensures pullRequests == map[] && reviews == map[]
    {
      pullRequests, reviews := map[], map[];
    }

    /** One transaction: the pull request, then its reviews in listing order. */
    method UpsertPullRequestBundle(id: int, pullRequest: PullRequest, bundle: seq<(int, Review)>)
      modifies this
      ensures pullRequests == Apply(KeyOf, OnRow(MergePullRequest), old(pullRequests), [(id, pullRequest)])
      ensures reviews == Apply(KeyOf, OnRow(MergeReview), old(reviews), bundle)
    {
      pullRequests := pullRequests[id := MergePullRequest(Lookup(pullRequests, id), pullRequest)];
      for i := 0 to |bundle|
        invariant reviews == Apply(KeyOf, OnRow(MergeReview), old(reviews), bundle[..i])
        invariant pullRequests == old(pullRequests)[id := MergePullRequest(Lookup(old(pullRequests), id), pullRequest)]
      {
        var (reviewId, review) := bundle[i];
        reviews := reviews[reviewId := MergeReview(Lookup(reviews, reviewId), review)];
        assert bundle[..i + 1][..i] == bundle[..i];
      }
      assert bundle[..|bundle|] == bundle;
      assert [(id, pullRequest)][..0] == [];
    }
  }

  // ---------------------------------------------------------------- pull requests

  /** GitHub's own rule: closed exactly when closed_at is set, and merged only when closed. */
  predicate WellFormed(e: PullRequest) {
    (e.state == "open" || e.state == "closed") &&
    (e.state == "closed" <==> e.closedAt.Some?) &&
    (e.mergedAt.Some? ==> e.closedAt.Some?)
  }

  predicate AllWellFormed(es: seq<PullRequest>) {
    forall i :: 0 <= i < |es| ==> WellFormed(es[i])
  }

  /** m is the greatest of the non-NULL times f takes on es, and NULL when there is none. */
  ghost predicate IsGreatest<E>(m: Option<int>, es: seq<E>, f: E -> Option<int>) {
    (m.None? ==> forall i :: 0 <= i < |es| ==> f(es[i]).None?) &&
    (m.Some? ==> (exists i :: 0 <= i < |es| && f(es[i]) == m) &&
                 forall i :: 0 <= i < |es| && f(es[i]).Some? ==> f(es[i]).value <= m.value)
  }

  ghost predicate SameEvents<E>(xs: seq<E>, ys: seq<E>) {
    (forall i :: 0 <= i < |xs| ==> xs[i] in ys) && (forall i :: 0 <= i < |ys| ==> ys[i] in xs)
  }

  lemma {:induction false} GreatestOfSameEvents<E>(a: Option<int>, b: Option<int>, xs: seq<E>, ys: seq<E>, f: E -> Option<int>)
    requires IsGreatest(a, xs, f) && IsGreatest(b, ys, f) && SameEvents(xs, ys)
    ensures a == b
  {
    if a.Some? {
      var i :| 0 <= i < |xs| && f(xs[i]) == a;
      assert xs[i] in ys;
    }
    if b.Some? {
      var i :| 0 <= i < |ys| && f(ys[i]) == b;
      assert ys[i] in xs;
    }
  }

  lemma {:induction false} GreatestOfMore<E>(m: Option<int>, init: seq<E>, e: E, f: E -> Option<int>)
    requires IsGreatest(m, init, f)
    ensures IsGreatest(Greatest(m, f(e)), init + [e], f)
  {
    var es := init + [e];
    assert es[|init|] == e && forall i :: 0 <= i < |init| ==> es[i] == init[i];
    if m.Some? {
      var i :| 0 <= i < |init| && f(init[i]) == m;
      assert f(es[i]) == m;
    }
    assert f(es[|init|]) == f(e);
  }

  /** What the row says after any non-empty sequence of well-formed events, in any order, with repetitions. */
  ghost predicate Settled(r: PullRequest, es: seq<PullRequest>) {
    WellFormed(r) &&
    es != [] && r.details == es[|es| - 1].details &&
    (r.state == "closed" <==> exists i :: 0 <= i < |es| && es[i].state == "closed") &&
    (exists i :: 0 <= i < |es| && es[i].createdAt == r.createdAt) &&
    (forall i :: 0 <= i < |es| ==> r.createdAt <= es[i].createdAt) &&
    IsGreatest(r.mergedAt, es, (e: PullRequest) => e.mergedAt) &&
    IsGreatest(r.closedAt, es, (e: PullRequest) => e.closedAt)
  }

  lemma {:induction false} OneMoreSettles(r: PullRequest, init: seq<PullRequest>, e: PullRequest)
    requires Settled(r, init) && WellFormed(e)
    ensures Settled(MergePullRequest(Some(r), e), init + [e])
  {
    var es, r' := init + [e], MergePullRequest(Some(r), e);
    assert es[|init|] == e;
    assert forall i :: 0 <= i < |init| ==> es[i] == init[i];
    GreatestOfMore(r.mergedAt, init, e, (e: PullRequest) => e.mergedAt);
    GreatestOfMore(r.closedAt, init, e, (e: PullRequest) => e.closedAt);
    if r.createdAt <= e.createdAt {
      var i :| 0 <= i < |init| && init[i].createdAt == r.createdAt;
      assert es[i].createdAt == r'.createdAt;
    }
  }

  lemma {:induction false} PullRequestSettles(es: seq<PullRequest>)
    requires es != [] && AllWellFormed(es)
    ensures Settled(Fold(MergePullRequest, None, es).value, es)
  {
    var init, e := es[..|es| - 1], es[|es| - 1];
    assert es == init + [e];
    if init != [] {
      assert AllWellFormed(init) by { assert forall i :: 0 <= i < |init| ==> init[i] == es[i]; }
      PullRequestSettles(init);
      OneMoreSettles(Fold(MergePullRequest, None, init).value, init, e);
    } else {
      assert Fold(MergePullRequest, None, es[..0]) == None;
      assert es[0] == e;
    }
  }

  /** Two histories with the same events, however ordered and repeated, leave the same lifecycle. */
  lemma {:induction false} PullRequestsConverge(xs: seq<PullRequest>, ys: seq<PullRequest>)
    requires xs != [] && AllWellFormed(xs) && AllWellFormed(ys) && SameEvents(xs, ys)
    ensures ys != []
    ensures var a, b := Fold(MergePullRequest, None, xs).value, Fold(MergePullRequest, None, ys).value;
            a.state == b.state && a.createdAt == b.createdAt && a.mergedAt == b.mergedAt && a.closedAt == b.closedAt
  {
    assert xs[0] in ys;
    PullRequestSettles(xs);
    PullRequestSettles(ys);
    var a, b := Fold(MergePullRequest, None, xs).value, Fold(MergePullRequest, None, ys).value;
    GreatestOfSameEvents(a.mergedAt, b.mergedAt, xs, ys, (e: PullRequest) => e.mergedAt);
    GreatestOfSameEvents(a.closedAt, b.closedAt, xs, ys, (e: PullRequest) => e.closedAt);
    var i :| 0 <= i < |xs| && xs[i].createdAt == a.createdAt;
    var j :| 0 <= j < |ys| && ys[j].createdAt == b.createdAt;
    assert xs[i] in ys && ys[j] in xs;
  }

  /** A merged pull request stays merged and closed whatever well-formed events still arrive;
      so an event that reports it open again is never reflected. */
  lemma {:induction false} MergedStaysClosed(es: seq<PullRequest>, more: seq<PullRequest>)
    requires AllWellFormed(es) && AllWellFormed(more) && es != []
    requires Fold(MergePullRequest, None, es).value.mergedAt.Some?
    ensures var r := Fold(MergePullRequest, None, es + more).value;
            r.state == "closed" && r.mergedAt.Some? && r.closedAt.Some?
  {
    PullRequestSettles(es);
    assert AllWellFormed(es + more);
    PullRequestSettles(es + more);
    var i :| 0 <= i < |es| && es[i].mergedAt.Some?;
    assert (es + more)[i] == es[i];
    var r := Fold(MergePullRequest, None, es + more).value;
    assert IsGreatest(r.mergedAt, es + more, (e: PullRequest) => e.mergedAt);
    assert ((e: PullRequest) => e.mergedAt)((es + more)[i]).Some?;
  }

  /** A row with r's times keeps its state when e arrives. */
  predicate Refuses(r: PullRequest, e: PullRequest) {
    (r.mergedAt.Some? && e.mergedAt.None?) || (r.closedAt.Some? && e.closedAt.None? && e.state == "open")
  }

  /** Of any two events, well-formed or not, the order does not matter to the state exactly when they say the same or just
      one of them stands against the other. */
  lemma {:induction false} PairOrderIff(x: PullRequest, y: PullRequest)
    ensures Fold(MergePullRequest, None, [x, y]).value.state == Fold(MergePullRequest, None, [y, x]).value.state <==>
            x.state == y.state || Refuses(x, y) != Refuses(y, x)
  {
    FoldPair(MergePullRequest, x, y);
    FoldPair(MergePullRequest, y, x);
  }

  /** So a closed event without times never converges with an open one that has none either. */
  lemma {:induction false} OrderMattersWithoutClosedAt(closed: PullRequest, open: PullRequest)
    requires closed.state == "closed" && closed.closedAt.None? && closed.mergedAt.None?
    requires open.state == "open" && open.closedAt.None? && open.mergedAt.None?
    ensures Fold(MergePullRequest, None, [closed, open]).value.state != Fold(MergePullRequest, None, [open, closed]).value.state
  {
    PairOrderIff(closed, open);
    assert closed.state[0] != open.state[0];
  }

  lemma {:induction false} FoldPair<R, E>(merge: Merge<R, E>, x: E, y: E)
    ensures Fold(merge, None, [x, y]) == Some(merge(Some(merge(None, x)), y))
  {
    assert [x, y][..1] == [x] && [x][..0] == [];
    assert Fold(merge, None, [x]) == Some(merge(Fold(merge, None, [x][..0]), x));
  }

  // ---------------------------------------------------------------- replaying arbitrary pull request events

  /** The row's times leave nothing for the events to change. */
  predicate Saturated(r: PullRequest, es: seq<PullRequest>) {
    forall i :: 0 <= i < |es| ==> TakesNothing(r, es[i])
  }

  predicate TakesNothing(r: PullRequest, e: PullRequest) {
    Greatest(r.mergedAt, e.mergedAt) == r.mergedAt && Greatest(r.closedAt, e.closedAt) == r.closedAt && r.createdAt <= e.createdAt
  }

  lemma {:induction false} FoldSaturates(start: Option<PullRequest>, es: seq<PullRequest>)
    requires es != []
    ensures Saturated(Fold(MergePullRequest, start, es).value, es)
  {
    var init, e := es[..|es| - 1], es[|es| - 1];
    if init != [] {
      FoldSaturates(start, init);
      var q := Fold(MergePullRequest, start, init).value;
      forall i | 0 <= i < |init| ensures TakesNothing(MergePullRequest(Some(q), e), init[i]) { }
    }
  }

  /** Last event the row does not refuse, -1 if it refuses all. */
  function LastTaken(r: PullRequest, es: seq<PullRequest>): (i: int)
    ensures -1 <= i < |es|
  {
    if es == [] then -1
    else if !Refuses(r, es[|es| - 1]) then |es| - 1
    else LastTaken(r, es[..|es| - 1])
  }

  lemma {:induction false} FoldOnSaturated(r: PullRequest, es: seq<PullRequest>)
    requires Saturated(r, es)
    ensures Fold(MergePullRequest, Some(r), es) ==
            Some(r.(state := if LastTaken(r, es) < 0 then r.state else es[LastTaken(r, es)].state,
                    details := if es == [] then r.details else es[|es| - 1].details))
  {
    if es != [] {
      var init, e := es[..|es| - 1], es[|es| - 1];
      FoldOnSaturated(r, init);
      assert TakesNothing(r, e);
    }
  }

  /** Replaying any events on the row they produced changes nothing exactly when the last of them the row does not refuse has the
      row's state, or it refuses all. */
  lemma {:induction false} PullRequestReplayIff(start: Option<PullRequest>, es: seq<PullRequest>)
    requires es != []
    ensures var r := Fold(MergePullRequest, start, es).value;
            Fold(MergePullRequest, Some(r), es) == Some(r) <==> LastTaken(r, es) < 0 || es[LastTaken(r, es)].state == r.state
  {
    FoldSaturates(start, es);
    FoldOnSaturated(Fold(MergePullRequest, start, es).value, es);
  }
}
