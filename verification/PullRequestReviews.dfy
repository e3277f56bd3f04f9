/** The reviews of one pull request: collected in memory page by page, turned into upserts, and stored with the pull
    request. Unlike files they are merged into what is stored, not put in its place. */
module PullRequestReviews {
  import opened Sql
  import opened Upserts
  import opened Text
  import opened EventTables
  import opened OutcomeTables
  import opened RemoteItems
  import opened CollectedLists
  import PagedSync

  datatype ReviewItem = ReviewItem(id: int, user: string, state: string, submittedAt: Option<int>)

  predicate IncludesReview(item: ReviewItem, cutoff: Option<int>) {
    item.submittedAt.None? || NotBefore(item.submittedAt.value, cutoff)
  }

  /** The included reviews, in listing order. */
  function Included(items: seq<ReviewItem>, cutoff: Option<int>): seq<ReviewItem> {
    if items == [] then []
    else Included(items[..|items| - 1], cutoff) +
         if IncludesReview(items[|items| - 1], cutoff) then [items[|items| - 1]] else []
  }

  lemma {:induction false} IncludedAppend(a: seq<ReviewItem>, b: seq<ReviewItem>, cutoff: Option<int>)
    ensures Included(a + b, cutoff) == Included(a, cutoff) + Included(b, cutoff)
  {
    if b == [] {
      assert a + b == a;
    } else {
      IncludedAppend(a, b[..|b| - 1], cutoff);
      assert (a + b)[..|a + b| - 1] == a + b[..|b| - 1];
    }
  }

  lemma {:induction false} IncludedAre(items: seq<ReviewItem>, cutoff: Option<int>, x: ReviewItem)
    ensures x in Included(items, cutoff) <==> x in items && IncludesReview(x, cutoff)
  {
    if items != [] {
      IncludedAre(items[..|items| - 1], cutoff, x);
      assert items == items[..|items| - 1] + [items[|items| - 1]];
    }
  }

  // ---------------------------------------------------------------- the upserts

  function Earliest(items: seq<ReviewItem>): Option<int> {
    if items == [] then None else Least(Earliest(items[..|items| - 1]), items[|items| - 1].submittedAt)
  }

  method EarliestSubmittedAt(items: seq<ReviewItem>) returns (earliest: Option<int>)
    ensures earliest == Earliest(items)
  {
    earliest := None;
    for i := 0 to |items|
      invariant earliest == Earliest(items[..i])
    {
      assert items[..i + 1][..i] == items[..i];
      if items[i].submittedAt.Some? {
        var candidate := items[i].submittedAt.value;
        if earliest.None? || candidate < earliest.value {
          earliest := Some(candidate);
        }
      }
    }
    assert items[..|items|] == items;
  }

  /** NULL when no review is submitted, else the least submission time. */
  lemma {:induction false} EarliestIsLeast(items: seq<ReviewItem>)
    ensures IsLeast(Earliest(items), items, (i: ReviewItem) => i.submittedAt)
  {
    if items != [] {
      EarliestIsLeast(items[..|items| - 1]);
      LeastOfMore(Earliest(items[..|items| - 1]), items[..|items| - 1], items[|items| - 1], (i: ReviewItem) => i.submittedAt);
      assert items == items[..|items| - 1] + [items[|items| - 1]];
    }
  }

  /** Every review of the pull request gets the earliest submission among them as its first review. */
  function Input(item: ReviewItem, pull: int, earliest: Option<int>): (int, Review) {
    (item.id, Review(pull, item.user, None, earliest, item.submittedAt, item.state))
  }

  function Inputs(items: seq<ReviewItem>, pull: int): (inputs: seq<(int, Review)>)
    ensures |inputs| == |items| && forall i :: 0 <= i < |items| ==> inputs[i] == Input(items[i], pull, Earliest(items))
  {
    seq(|items|, i requires 0 <= i < |items| => Input(items[i], pull, Earliest(items)))
  }

  method BuildReviewInputs(items: seq<ReviewItem>, pull: int) returns (inputs: seq<(int, Review)>)
    ensures inputs == Inputs(items, pull)
  {
    var firstReviewAt := EarliestSubmittedAt(items);
    inputs := [];
    for i := 0 to |items|
      invariant inputs == Inputs(items, pull)[..i]
    {
      inputs := inputs + [Input(items[i], pull, firstReviewAt)];
    }
  }

  /** The same review arriving in a webhook of its pull request. */
  function ProjectReview(item: ReviewItem, pull: int): Option<(int, Review)> {
    if item.id < 1 then None
    else
      Some((item.id, Review(pull, FallbackString(Trim(item.user), "unknown"), None, item.submittedAt, item.submittedAt,
                            FallbackString(Trim(item.state), "commented"))))
  }

  /** No review of the list was submitted before this one. */
  predicate SubmittedFirst(items: seq<ReviewItem>, k: nat)
    requires k < |items|
  {
    forall j :: 0 <= j < |items| && items[j].submittedAt.Some? ==>
      items[k].submittedAt.Some? && items[k].submittedAt.value <= items[j].submittedAt.value
  }

  lemma {:induction false} SubmittedFirstIff(items: seq<ReviewItem>, k: nat)
    requires k < |items|
    ensures items[k].submittedAt == Earliest(items) <==> SubmittedFirst(items, k)
  {
    EarliestIsLeast(items);
    var f, m := (i: ReviewItem) => i.submittedAt, Earliest(items);
    var g := (i: ReviewItem) => Negated(f(i));
    assert IsGreatest(Negated(m), items, e => Negated(f(e)));
    forall j | 0 <= j < |items| && items[j].submittedAt.Some? ensures m.Some? && m.value <= items[j].submittedAt.value {
      assert g(items[j]) == Negated(items[j].submittedAt);
    }
    if m.Some? {
      var j :| 0 <= j < |items| && g(items[j]) == Negated(m);
      assert g(items[j]) == Negated(items[j].submittedAt) && Negated(Negated(m)) == m;
      assert Negated(Negated(items[j].submittedAt)) == items[j].submittedAt;
    }
  }

  /** A sync and a webhook write the same values for a review exactly when user and state are trimmed and not empty and no
      collected review of the pull request was submitted earlier. */
  lemma {:induction false} ReviewPathsAgreeIff(items: seq<ReviewItem>, k: nat, pull: int)
    requires k < |items| && items[k].id >= 1
    ensures Some(Inputs(items, pull)[k]) == ProjectReview(items[k], pull) <==>
            Kept(items[k].user) && Kept(items[k].state) && SubmittedFirst(items, k)
  {
    SubmittedFirstIff(items, k);
    EndsSolid("unknown");
    EndsSolid("commented");
    FallbackIs(items[k].user, "unknown");
    FallbackIs(items[k].state, "commented");
  }

  // ---------------------------------------------------------------- collecting and storing

  /** What is collected from a page on, and after the last page nothing more. */
  lemma {:induction false} NextIncluded(pages: seq<seq<ReviewItem>>, page: int, cutoff: Option<int>, items: seq<ReviewItem>)
    requires page >= 1
    ensures items + Included(ItemsFrom(pages, page), cutoff) ==
            items + Included(PageItems(pages, page), cutoff) + Included(ItemsFrom(pages, page + 1), cutoff)
    ensures page >= |pages| ==> Included(ItemsFrom(pages, page + 1), cutoff) == []
  {
    if page <= |pages| { IncludedAppend(pages[page - 1], ItemsFrom(pages, page + 1), cutoff); }
  }

  function Stored(rows: map<int, Review>, items: seq<ReviewItem>, pull: int): map<int, Review> {
    Apply(KeyOf, OnRow(MergeReview), rows, Inputs(items, pull))
  }

  class ReviewSync {
    var checkpoint: Option<PagedSync.Checkpoint>
    var reviews: map<int, Review>

    constructor (checkpoint: Option<PagedSync.Checkpoint>, reviews: map<int, Review>)
      ensures this.checkpoint == checkpoint && this.reviews == reviews
    {
      this.checkpoint, this.reviews := checkpoint, reviews;
    }

    /** The work on one page: listing, filtering, recording the next page. */
    method SyncPage(pages: seq<seq<ReviewItem>>, cutoff: Option<int>, page: int, fault: PagedSync.Fault)
      returns (ok: bool, included: seq<ReviewItem>)
      requires page >= 1
      modifies this`checkpoint
      ensures ok == fault.NoFault? && (ok ==> included == Included(PageItems(pages, page), cutoff))
      ensures checkpoint == if Recorded(fault) then Some(PagedSync.CheckpointFor(PagedSync.PageAfter(page, |pages|))) else old(checkpoint)
    {
      if fault.BeforeStorage? || fault.DuringStorage? { return false, []; }
      included := FilterPage(PageItems(pages, page), cutoff);
      if fault.NoFault? || fault.stored {
        checkpoint := Some(PagedSync.CheckpointFor(PagedSync.PageAfter(page, |pages|)));
      }
      ok := fault.NoFault?;
    }

    /** syncReviews: a finished collection holds the included reviews from the checkpoint's page on. */
    method SyncReviews(pages: seq<seq<ReviewItem>>, cutoff: Option<int>, plan: PagedSync.Plan)
      returns (finished: bool, items: seq<ReviewItem>)
      modifies this`checkpoint
      ensures finished ==> items == Included(ItemsFrom(pages, PagedSync.ResumePage(old(checkpoint))), cutoff)
      ensures (checkpoint, finished) == if plan.readFails then (old(checkpoint), false)
              else Collected(|pages|, PagedSync.ResumePage(old(checkpoint)), plan.at, old(checkpoint))
    {
      finished, items := false, [];
      if plan.readFails { return; }
      var page := PagedSync.ResumePage(checkpoint);
      while true
        invariant page >= 1
        invariant Collected(|pages|, page, plan.at, checkpoint) ==
                  Collected(|pages|, PagedSync.ResumePage(old(checkpoint)), plan.at, old(checkpoint))
        invariant items + Included(ItemsFrom(pages, page), cutoff) ==
                  Included(ItemsFrom(pages, PagedSync.ResumePage(old(checkpoint))), cutoff)
        decreases |pages| - page
      {
        var ok, included := SyncPage(pages, cutoff, page, plan.at(page));
        if !ok { return; }
        NextIncluded(pages, page, cutoff, items);
        items := items + included;
        if PagedSync.PageAfter(page, |pages|) == 0 {
          finished := true;
          return;
        }
        page := page + 1;
      }
    }

    /** The inner loop over one page. */
    method FilterPage(listed: seq<ReviewItem>, cutoff: Option<int>) returns (included: seq<ReviewItem>)
      ensures included == Included(listed, cutoff)
    {
      included := [];
      for i := 0 to |listed|
        invariant included == Included(listed[..i], cutoff)
      {
        assert listed[..i + 1][..i] == listed[..i];
        if IncludesReview(listed[i], cutoff) {
          included := included + [listed[i]];
        }
      }
      assert listed[..|listed|] == listed;
    }

    /** The review statements of UpsertPullRequestBundle. */
    method StoreReviews(items: seq<ReviewItem>, pull: int)
      modifies this`reviews
      ensures reviews == Stored(old(reviews), items, pull)
    {
      var inputs := BuildReviewInputs(items, pull);
      for i := 0 to |inputs|
        invariant reviews == Apply(KeyOf, OnRow(MergeReview), old(reviews), inputs[..i])
      {
        var (id, review) := inputs[i];
        reviews := reviews[id := MergeReview(Lookup(reviews, id), review)];
        assert inputs[..i + 1][..i] == inputs[..i];
      }
      assert inputs[..|inputs|] == inputs;
    }
  }

  /** The review table after the bundle of a collection that started at this page. */
  function StoredFrom(rows: map<int, Review>, pages: seq<seq<ReviewItem>>, page: int, cutoff: Option<int>, pull: int): map<int, Review>
    requires page >= 1
  {
    Stored(rows, Included(ItemsFrom(pages, page), cutoff), pull)
  }

  // ---------------------------------------------------------------- what a resumed collection loses

  /** The items of the pages before this one. */
  function ItemsBefore<T>(pages: seq<seq<T>>, page: int): seq<T>
    requires page >= 1
  {
    if page == 1 then []
    else ItemsBefore(pages, page - 1) + if page - 1 <= |pages| then pages[page - 2] else []
  }

  lemma {:induction false} AllItems<T>(pages: seq<seq<T>>, page: int)
    requires page >= 1
    ensures ItemsFrom(pages, 1) == ItemsBefore(pages, page) + ItemsFrom(pages, page)
  {
    if page > 1 {
      AllItems(pages, page - 1);
      if page - 1 <= |pages| {
        assert ItemsFrom(pages, page - 1) == pages[page - 2] + ItemsFrom(pages, page);
        assert ItemsBefore(pages, page) + ItemsFrom(pages, page) ==
               ItemsBefore(pages, page - 1) + (pages[page - 2] + ItemsFrom(pages, page));
      }
    }
  }

  predicate NoneOf(items: seq<ReviewItem>, cutoff: Option<int>) {
    forall i :: 0 <= i < |items| ==> !IncludesReview(items[i], cutoff)
  }

  predicate NoneIncluded(pages: seq<seq<ReviewItem>>, page: int, cutoff: Option<int>) {
    1 <= page <= |pages| ==> NoneOf(pages[page - 1], cutoff)
  }

  lemma {:induction false} NoneBefore(pages: seq<seq<ReviewItem>>, page: int, cutoff: Option<int>)
    requires page >= 1
    ensures Included(ItemsBefore(pages, page), cutoff) == [] <==> forall p :: 1 <= p < page ==> NoneIncluded(pages, p, cutoff)
  {
    if page > 1 {
      NoneBefore(pages, page - 1, cutoff);
      var last := if page - 1 <= |pages| then pages[page - 2] else [];
      IncludedAppend(ItemsBefore(pages, page - 1), last, cutoff);
      NoneOnPage(last, cutoff);
      assert NoneIncluded(pages, page - 1, cutoff) <==> Included(last, cutoff) == [];
    }
  }

  lemma {:induction false} NoneOnPage(items: seq<ReviewItem>, cutoff: Option<int>)
    ensures Included(items, cutoff) == [] <==> NoneOf(items, cutoff)
  {
    if items != [] {
      NoneOnPage(items[..|items| - 1], cutoff);
      assert forall i :: 0 <= i < |items| - 1 ==> items[..|items| - 1][i] == items[i];
    }
  }

  /** A listing names each review once. */
  predicate DistinctIds(items: seq<ReviewItem>) {
    forall i, j :: 0 <= i < j < |items| ==> items[i].id != items[j].id
  }

  lemma {:induction false} StoredKeys(rows: map<int, Review>, items: seq<ReviewItem>, pull: int, id: int)
    ensures id in Stored(rows, items, pull) <==> id in rows || exists i :: 0 <= i < |items| && items[i].id == id
  {
    var inputs := Inputs(items, pull);
    ApplyKeys(KeyOf, OnRow(MergeReview), rows, inputs);
    if i :| 0 <= i < |items| && items[i].id == id {
      assert inputs[i] in inputs && KeyOf(inputs[i]) == id;
    }
    if e :| e in inputs && KeyOf(e) == id {
      var i :| 0 <= i < |inputs| && inputs[i] == e;
      assert items[i].id == id;
    }
  }

  lemma {:induction false} IsStored(rows: map<int, Review>, items: seq<ReviewItem>, pull: int, x: ReviewItem)
    requires x in items
    ensures x.id in Stored(rows, items, pull)
  {
    var i :| 0 <= i < |items| && items[i] == x;
    StoredKeys(rows, items, pull, x.id);
  }

  lemma {:induction false} IsNotStored(rows: map<int, Review>, items: seq<ReviewItem>, pull: int, x: ReviewItem)
    requires x.id !in rows && forall i :: 0 <= i < |items| ==> items[i].id != x.id
    ensures x.id !in Stored(rows, items, pull)
  {
    StoredKeys(rows, items, pull, x.id);
  }

  lemma {:induction false} NotAmongLater(before: seq<ReviewItem>, after: seq<ReviewItem>, cutoff: Option<int>, x: ReviewItem)
    requires DistinctIds(before + after) && x in before
    ensures forall k :: 0 <= k < |Included(after, cutoff)| ==> Included(after, cutoff)[k].id != x.id
  {
    var i :| 0 <= i < |before| && before[i] == x;
    forall k | 0 <= k < |Included(after, cutoff)| ensures Included(after, cutoff)[k].id != x.id {
      var y := Included(after, cutoff)[k];
      IncludedAre(after, cutoff, y);
      var j :| 0 <= j < |after| && after[j] == y;
      assert (before + after)[i] == x && (before + after)[|before| + j] == y;
    }
  }

  /** An included review before the checkpoint is not stored by the resumed collection. */
  lemma {:induction false} LostReview(rows: map<int, Review>, before: seq<ReviewItem>, after: seq<ReviewItem>,
                                      cutoff: Option<int>, pull: int)
    requires DistinctIds(before + after) && Included(before, cutoff) != []
    requires forall i :: 0 <= i < |before| ==> before[i].id !in rows
    ensures Stored(rows, Included(before, cutoff) + Included(after, cutoff), pull) != Stored(rows, Included(after, cutoff), pull)
  {
    var lost := Included(before, cutoff)[0];
    IncludedAre(before, cutoff, lost);
    NotAmongLater(before, after, cutoff, lost);
    IsStored(rows, Included(before, cutoff) + Included(after, cutoff), pull, lost);
    IsNotStored(rows, Included(after, cutoff), pull, lost);
  }

  /** For a table without the pull request's reviews, the bundle of a resumed collection leaves what the bundle of a whole one
      would exactly when no page before the checkpoint holds an included review. */
  lemma {:induction false} ResumedReviewsWholeIff(rows: map<int, Review>, pages: seq<seq<ReviewItem>>, page: int, cutoff: Option<int>, pull: int)
    requires page >= 1 && DistinctIds(ItemsFrom(pages, 1))
    requires forall i :: 0 <= i < |ItemsFrom(pages, 1)| ==> ItemsFrom(pages, 1)[i].id !in rows
    ensures StoredFrom(rows, pages, page, cutoff, pull) == StoredFrom(rows, pages, 1, cutoff, pull) <==>
            forall p :: 1 <= p < page ==> NoneIncluded(pages, p, cutoff)
  {
    var before, after := ItemsBefore(pages, page), ItemsFrom(pages, page);
    AllItems(pages, page);
    NoneBefore(pages, page, cutoff);
    IncludedAppend(before, after, cutoff);
    if Included(before, cutoff) != [] {
      forall i | 0 <= i < |before| ensures before[i].id !in rows { assert (before + after)[i] == before[i]; }
      LostReview(rows, before, after, cutoff, pull);
    } else {
      assert Included(before + after, cutoff) == Included(after, cutoff);
    }
  }
}
