/** The files and the reviews of one pull request are collected page by page in memory, and only then stored. The
    checkpoint survives a crash, the collected items do not. */
module CollectedLists {
  import opened Sql
  import PagedSync

  /** All items from a page (1, 2, ...) to the end of the listing. */
  function ItemsFrom<T>(pages: seq<seq<T>>, page: int): seq<T>
    requires page >= 1
    decreases |pages| - page
  {
    if page > |pages| then [] else pages[page - 1] + ItemsFrom(pages, page + 1)
  }

  function PageItems<T>(pages: seq<seq<T>>, page: int): seq<T> {
    if 1 <= page <= |pages| then pages[page - 1] else []
  }

  lemma {:induction false} NextItems<T>(pages: seq<seq<T>>, page: int, items: seq<T>)
    requires page >= 1
    ensures items + ItemsFrom(pages, page) == items + PageItems(pages, page) + ItemsFrom(pages, page + 1)
    ensures page >= |pages| ==> ItemsFrom(pages, page + 1) == []
  {
  }

  /** A page's checkpoint has been written: the call went through, or failed after its write. */
  predicate Recorded(fault: PagedSync.Fault) {
    fault.NoFault? || (fault.AtCheckpoint? && fault.stored)
  }

  /** The checkpoint a collection from this page leaves, and whether it got to the end. */
  function Collected(pages: nat, page: int, at: int -> PagedSync.Fault, checkpoint: Option<PagedSync.Checkpoint>)
    : (Option<PagedSync.Checkpoint>, bool)
    decreases pages - page
  {
    var next := PagedSync.PageAfter(page, pages);
    var after := if Recorded(at(page)) then Some(PagedSync.CheckpointFor(next)) else checkpoint;
    if !at(page).NoFault? || next == 0 then (after, at(page).NoFault?) else Collected(pages, page + 1, at, after)
  }

  /** It gets to the end exactly when nothing fails from this page to the last, and otherwise stops at the first page p where
      something does: the next collection then starts behind p if p was recorded, at p if an earlier page was, and else where this
      one did. */
  lemma {:induction false} CollectsIff(pages: nat, page: int, at: int -> PagedSync.Fault, checkpoint: Option<PagedSync.Checkpoint>)
    returns (p: int)
    requires page >= 1
    ensures Collected(pages, page, at, checkpoint).1 <==> PagedSync.ClearFrom(at, page, pages)
    ensures Collected(pages, page, at, checkpoint).1 ==> Collected(pages, page, at, checkpoint).0 == Some(PagedSync.CheckpointFor(0))
    ensures !Collected(pages, page, at, checkpoint).1 ==>
              p >= page && !at(p).NoFault? && (forall q :: page <= q < p ==> at(q).NoFault?) &&
              Collected(pages, page, at, checkpoint).0 ==
              if Recorded(at(p)) then Some(PagedSync.CheckpointFor(PagedSync.PageAfter(p, pages)))
              else if p > page then Some(PagedSync.CheckpointFor(p)) else checkpoint
    decreases pages - page
  {
    p := page;
    var next := PagedSync.PageAfter(page, pages);
    if at(page).NoFault? && next != 0 {
      p := CollectsIff(pages, page + 1, at, Some(PagedSync.CheckpointFor(next)));
      PagedSync.ClearFromNext(at, page, pages);
    }
  }

  class Collector<T> {
    var checkpoint: Option<PagedSync.Checkpoint>
    /** What is stored for the pull request: its file_changes rows. */
    var stored: seq<T>

    constructor (checkpoint: Option<PagedSync.Checkpoint>, stored: seq<T>)
      ensures this.checkpoint == checkpoint && this.stored == stored
    {
      this.checkpoint, this.stored := checkpoint, stored;
    }

    /** The work on one page: listing it, recording the next. */
    method CollectPage(pages: seq<seq<T>>, page: int, fault: PagedSync.Fault) returns (ok: bool)
      modifies this`checkpoint
      ensures ok == fault.NoFault?
      ensures checkpoint == if Recorded(fault) then Some(PagedSync.CheckpointFor(PagedSync.PageAfter(page, |pages|))) else old(checkpoint)
    {
      if fault.NoFault? || (fault.AtCheckpoint? && fault.stored) {
        checkpoint := Some(PagedSync.CheckpointFor(PagedSync.PageAfter(page, |pages|)));
      }
      ok := fault.NoFault?;
    }

    /** syncPullRequestFiles: a finished collection holds the pages from the checkpoint on, whatever came before. */
    method Collect(pages: seq<seq<T>>, plan: PagedSync.Plan) returns (finished: bool, items: seq<T>)
      modifies this`checkpoint
      ensures finished ==> items == ItemsFrom(pages, PagedSync.ResumePage(old(checkpoint)))
      ensures (checkpoint, finished) == if plan.readFails then (old(checkpoint), false)
              else Collected(|pages|, PagedSync.ResumePage(old(checkpoint)), plan.at, old(checkpoint))
    {
      finished, items := false, [];
      if plan.readFails { return; }
      var page := PagedSync.ResumePage(checkpoint);
      while true
        invariant page >= 1
        invariant items + ItemsFrom(pages, page) == ItemsFrom(pages, PagedSync.ResumePage(old(checkpoint)))
        invariant Collected(|pages|, page, plan.at, checkpoint) ==
                  Collected(|pages|, PagedSync.ResumePage(old(checkpoint)), plan.at, old(checkpoint))
        decreases |pages| - page
      {
        var ok := CollectPage(pages, page, plan.at(page));
        if !ok { return; }
        NextItems(pages, page, items);
        items := items + PageItems(pages, page);
        if PagedSync.PageAfter(page, |pages|) == 0 {
          finished := true;
          return;
        }
        page := page + 1;
      }
    }

    /** ReplacePullRequestFiles: delete what is stored, copy the collected items. */
    method Replace(items: seq<T>)
      modifies this`stored
      ensures stored == items
    {
      stored := items;
    }

    method SyncFiles(pages: seq<seq<T>>, plan: PagedSync.Plan) returns (finished: bool)
      modifies this
      ensures finished <==> !plan.readFails && PagedSync.ClearFrom(plan.at, PagedSync.ResumePage(old(checkpoint)), |pages|)
      ensures stored == if finished then ItemsFrom(pages, PagedSync.ResumePage(old(checkpoint))) else old(stored)
    {
      ghost var p := CollectsIff(|pages|, PagedSync.ResumePage(checkpoint), plan.at, checkpoint);
      var items;
      finished, items := Collect(pages, plan);
      if finished { Replace(items); }
    }
  }

  predicate EmptyPage<T>(pages: seq<seq<T>>, page: int) {
    1 <= page <= |pages| ==> pages[page - 1] == []
  }

  /** A resumed collection is the whole list exactly when every page before the checkpoint is empty:
      after a crash behind a page with files, the file set is replaced by what the later pages hold. */
  lemma {:induction false} ResumedIsWholeIff<T>(pages: seq<seq<T>>, page: int)
    requires page >= 1
    ensures ItemsFrom(pages, page) == ItemsFrom(pages, 1) <==> forall p :: 1 <= p < page ==> EmptyPage(pages, p)
  {
    SuffixLength(pages, 1, page);
  }

  lemma {:induction false} SuffixLength<T>(pages: seq<seq<T>>, from: int, page: int)
    requires 1 <= from <= page
    ensures |ItemsFrom(pages, page)| <= |ItemsFrom(pages, from)|
    ensures if forall p :: from <= p < page ==> EmptyPage(pages, p) then ItemsFrom(pages, page) == ItemsFrom(pages, from)
            else |ItemsFrom(pages, page)| < |ItemsFrom(pages, from)|
    decreases page - from
  {
    if from < page {
      SuffixLength(pages, from + 1, page);
      if EmptyPage(pages, from) {
        assert ItemsFrom(pages, from) == ItemsFrom(pages, from + 1);
      } else {
        assert !forall p :: from <= p < page ==> EmptyPage(pages, p);
      }
    }
  }
}
