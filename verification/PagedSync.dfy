/** Resumable paged sync: walk the remote pages, upsert each page, store the next page as a checkpoint. An attempt
    can fail at any call and the next one resumes from the checkpoint. syncCommits, syncWorkflowRuns and
    syncDeployments are instances (see RemoteItems). */
module PagedSync {
  import opened Sql
  import opened Upserts
  import opened Text

  /** What one sync loop is about: the remote listing, which items become which upserts, and the table's merge. */
  datatype Resource<!Item, !K, !R, !E> = Resource(
    pages: seq<seq<Item>>,
    build: Item -> Option<(K, E)>,
    merge: Merge<R, E>)
  {
    /** Page numbers start at 1; a page beyond the listing is empty. */
    function Items(page: int): seq<Item> {
      if 1 <= page <= |pages| then pages[page - 1] else []
    }

    function NextPage(page: int): int {
      PageAfter(page, |pages|)
    }
  }

  /** The next page the remote names, 0 after the last. */
  function PageAfter(page: int, pages: int): int {
    if 1 <= page < pages then page + 1 else 0
  }

  datatype Checkpoint = Checkpoint(value: Option<string>, status: string)

  /** A job's checkpoint row for the resource, None when absent, and the table the resource is written to. */
  datatype Store<K, R> = Store(rows: map<K, R>, checkpoint: Option<Checkpoint>)

  /** How the work on one page can go wrong. */
  datatype Fault =
    | NoFault
    | BeforeStorage                    // cancellation check, listing, throttling or status lookup failed
    | DuringStorage(statements: nat)   // the batch failed after this many of its statements took effect
    | AtCheckpoint(stored: bool)       // the checkpoint call failed, its write may have taken effect

  /** What goes wrong in one attempt: reading the checkpoint, or the work on some page. */
  datatype Plan = Plan(readFails: bool, at: int -> Fault)

  // ---------------------------------------------------------------- specification

  function Payload<Item, K, E>(build: Item -> Option<(K, E)>, items: seq<Item>): seq<(K, E)> {
    if items == [] then []
    else
      var before := Payload(build, items[..|items| - 1]);
      match build(items[|items| - 1])
      case None => before
      case Some(e) => before + [e]
  }

  function Batch<Item, K, R, E>(res: Resource<Item, K, R, E>, page: int): seq<(K, E)> {
    Payload(res.build, res.Items(page))
  }

  /** The upserts of every page from this one on. */
  function BatchesFrom<Item, K, R, E>(res: Resource<Item, K, R, E>, page: int): seq<(K, E)>
    decreases |res.pages| - page
  {
    if page > |res.pages| then [] else Batch(res, page) + BatchesFrom(res, page + 1)
  }

  function Upserted<K, R, E>(merge: Merge<R, E>, rows: map<K, R>, es: seq<(K, E)>): map<K, R> {
    Apply(KeyOf, OnRow(merge), rows, es)
  }

  /** Rows after one uninterrupted walk of the whole listing. */
  function Clean<Item, K, R, E>(res: Resource<Item, K, R, E>, rows: map<K, R>): map<K, R> {
    Upserted(res.merge, rows, BatchesFrom(res, 1))
  }

  function ResumePage(checkpoint: Option<Checkpoint>): (page: int)
    ensures page >= 1
  {
    if checkpoint.None? || checkpoint.value.value.None? || Trim(checkpoint.value.value.value) == "" then 1
    else
      match ParseInt(Trim(checkpoint.value.value.value))
      case None => 1
      case Some(page) => if page < 1 then 1 else page
  }

  function CheckpointFor(nextPage: int): Checkpoint {
    if nextPage == 0 then Checkpoint(None, "completed") else Checkpoint(Some(FormatInt(nextPage)), "running")
  }

  function Prefix<T>(s: seq<T>, n: nat): (p: seq<T>)
    ensures p <= s
  {
    if n <= |s| then s[..n] else s
  }

  /** The store after part of a page's batch. */
  function WithPart<Item, K, R, E>(res: Resource<Item, K, R, E>, s: Store<K, R>, part: seq<(K, E)>): Store<K, R> {
    s.(rows := Upserted(res.merge, s.rows, part))
  }

  /** The store after a whole page, its checkpoint recorded or not. */
  function AfterPage<Item, K, R, E>(res: Resource<Item, K, R, E>, s: Store<K, R>, page: int, recorded: bool): Store<K, R> {
    Store(Upserted(res.merge, s.rows, Batch(res, page)),
          if recorded then Some(CheckpointFor(res.NextPage(page))) else s.checkpoint)
  }

  /** The walk from a given page: the store it leaves, and whether it got to the end. */
  function WalkFrom<Item, K, R, E>(res: Resource<Item, K, R, E>, s: Store<K, R>, page: int, at: int -> Fault): (Store<K, R>, bool)
    decreases |res.pages| - page
  {
    match at(page)
    case BeforeStorage => (s, false)
    case DuringStorage(n) => (WithPart(res, s, Prefix(Batch(res, page), n)), false)
    case AtCheckpoint(stored) => (AfterPage(res, s, page, stored), false)
    case NoFault =>
      if res.NextPage(page) == 0 then (AfterPage(res, s, page, true), true)
      else WalkFrom(res, AfterPage(res, s, page, true), page + 1, at)
  }

  function Attempt<Item, K, R, E>(res: Resource<Item, K, R, E>, s: Store<K, R>, plan: Plan): (Store<K, R>, bool) {
    if plan.readFails then (s, false) else WalkFrom(res, s, ResumePage(s.checkpoint), plan.at)
  }

  // ---------------------------------------------------------------- the loops

  class Table<K(==), R> {
    var rows: map<K, R>
    var checkpoint: Option<Checkpoint>

    constructor (rows: map<K, R>, checkpoint: Option<Checkpoint>)
      ensures this.rows == rows && this.checkpoint == checkpoint
    {
      this.rows, this.checkpoint := rows, checkpoint;
    }

    function Contents(): Store<K, R>
      reads this
    {
      Store(rows, checkpoint)
    }

    /** Runs the statements of a batch in order, up to the given number of them. */
    method ExecBatch<E>(merge: Merge<R, E>, batch: seq<(K, E)>)
      modifies this`rows
      ensures rows == Upserted(merge, old(rows), batch)
    {
      for i := 0 to |batch|
        invariant rows == Upserted(merge, old(rows), batch[..i])
      {
        var (k, e) := batch[i];
        rows := rows[k := merge(Lookup(rows, k), e)];
        assert batch[..i + 1][..i] == batch[..i];
      }
      assert batch[..|batch|] == batch;
    }

    method BuildPayload<Item, E>(res: Resource<Item, K, R, E>, page: int) returns (payload: seq<(K, E)>)
      ensures payload == Batch(res, page)
    {
      payload := [];
      var items := res.Items(page);
      for i := 0 to |items|
        invariant payload == Payload(res.build, items[..i])
      {
        assert items[..i + 1][..i] == items[..i];
        match res.build(items[i])
        case None =>
        case Some(e) => payload := payload + [e];
      }
      assert items[..|items|] == items;
    }

    /** One run of the sync loop under a plan of faults; total counts the upserts of a run that finished. */
    method SyncPages<Item, E>(res: Resource<Item, K, R, E>, plan: Plan) returns (finished: bool, total: nat)
      modifies this
      ensures (Contents(), finished) == Attempt(res, old(Contents()), plan)
      ensures finished ==> total == |BatchesFrom(res, ResumePage(old(checkpoint)))|
    {
      total := 0;
      if plan.readFails {
        return false, 0;
      }
      var page := ResumePage(checkpoint);
      while true
        invariant page >= 1
        invariant WalkFrom(res, Contents(), page, plan.at) == Attempt(res, old(Contents()), plan)
        invariant total + |BatchesFrom(res, page)| == |BatchesFrom(res, ResumePage(old(checkpoint)))|
        decreases |res.pages| - page
      {
        var fault := plan.at(page);
        if fault.BeforeStorage? {
          return false, 0;
        }
        var payload := BuildPayload(res, page);
        if fault.DuringStorage? {
          ExecBatch(res.merge, Prefix(payload, fault.statements));
          return false, 0;
        }
        total := total + |payload|;
        ExecBatch(res.merge, payload);

        var nextPage := res.NextPage(page);
        if fault.NoFault? || fault.stored {
          checkpoint := Some(CheckpointFor(nextPage));
        }
        if fault.AtCheckpoint? {
          return false, 0;
        }
        if nextPage == 0 {
          assert page >= |res.pages| ==> BatchesFrom(res, page + 1) == [];
          return true, total;
        }
        page := nextPage;
      }
    }
  }

  // ---------------------------------------------------------------- crash and resume

  lemma {:induction false} CheckpointRoundTrip(nextPage: int)
    requires 0 <= nextPage <= MAX_INT64
    ensures ResumePage(Some(CheckpointFor(nextPage))) == if nextPage == 0 then 1 else nextPage
    ensures CheckpointFor(nextPage).status == if nextPage == 0 then "completed" else "running"
    ensures CheckpointFor(nextPage).value.None? <==> nextPage == 0
  {
    if nextPage > 0 {
      FormatShape(nextPage);
      var s := FormatInt(nextPage);
      assert !IsSpace(s[0]) && !IsSpace(s[|s| - 1]) by { assert s[0] in s && s[|s| - 1] in s; }
      assert Trim(s) == s;
      ParseFormat(nextPage);
    }
  }

  /** Without a checkpoint, or with one that holds no page number, the walk starts at the first page. */
  lemma {:induction false} ResumesAtFirst(checkpoint: Option<Checkpoint>)
    ensures ResumePage(checkpoint) ==
            if checkpoint.None? || checkpoint.value.value.None? then 1
            else
              var parsed := ParseInt(Trim(checkpoint.value.value.value));
              if parsed.Some? && parsed.value > 1 then parsed.value else 1
  {
  }

  /** Finishing the walk from the checkpoint would leave the rows of the clean walk from `start`. */
  ghost predicate Recoverable<Item, K, R, E>(res: Resource<Item, K, R, E>, start: map<K, R>, s: Store<K, R>) {
    Upserted(res.merge, s.rows, BatchesFrom(res, ResumePage(s.checkpoint))) == Clean(res, start)
  }

  /** Everything on the pages before the checkpoint is stored. */
  ghost predicate Covered<Item, K, R, E>(res: Resource<Item, K, R, E>, s: Store<K, R>) {
    forall page, i :: 1 <= page < ResumePage(s.checkpoint) && 0 <= i < |Batch(res, page)| ==> Batch(res, page)[i].0 in s.rows
  }

  ghost predicate Walkable<Item, K, R(!new), E(!new)>(res: Resource<Item, K, R, E>) {
    |res.pages| <= MAX_INT64 && Absorbing(res.merge)
  }

  /** Storing some of a page's batch can always be repeated in full. */
  lemma {:induction false} PartOfPage<Item, K(!new), R(!new), E(!new)>(
    res: Resource<Item, K, R, E>, start: map<K, R>, s: Store<K, R>, part: seq<(K, E)>)
    requires Walkable(res) && Recoverable(res, start, s)
    requires part <= Batch(res, ResumePage(s.checkpoint))
    ensures Recoverable(res, start, WithPart(res, s, part))
  {
    OnRowAbsorbs<K, R, E>(res.merge);
    ReplayAfterPrefix(KeyOf, OnRow(res.merge), s.rows, part, BatchesFrom(res, ResumePage(s.checkpoint)));
  }

  /** After a page the pages behind it still lead to the clean rows. */
  lemma {:induction false} RestOfWalk<Item, K, R, E>(res: Resource<Item, K, R, E>, start: map<K, R>, s: Store<K, R>, page: int)
    requires Recoverable(res, start, s) && page == ResumePage(s.checkpoint)
    ensures Upserted(res.merge, Upserted(res.merge, s.rows, Batch(res, page)), BatchesFrom(res, page + 1)) == Clean(res, start)
  {
    ApplyAppend(KeyOf, OnRow(res.merge), s.rows, Batch(res, page), BatchesFrom(res, page + 1));
  }

  lemma {:induction false} CleanIsStable<Item, K(!new), R(!new), E(!new)>(res: Resource<Item, K, R, E>, start: map<K, R>)
    requires Walkable(res)
    ensures Clean(res, Clean(res, start)) == Clean(res, start)
  {
    OnRowAbsorbs<K, R, E>(res.merge);
    ReplayAfterPrefix(KeyOf, OnRow(res.merge), start, BatchesFrom(res, 1), BatchesFrom(res, 1));
  }

  /** The rows of a clean walk, and a completed page checkpoint. */
  ghost predicate Finished<Item, K, R, E>(res: Resource<Item, K, R, E>, start: map<K, R>, s: Store<K, R>) {
    s.rows == Clean(res, start) && s.checkpoint == Some(CheckpointFor(0))
  }

  /** Storing a page and recording the next one; after the last page the checkpoint points to the first page again,
      and the whole listing can be replayed. */
  lemma {:induction false} PageKeepsRecoverable<Item, K(!new), R(!new), E(!new)>(
    res: Resource<Item, K, R, E>, start: map<K, R>, s: Store<K, R>, page: int, recorded: bool)
    requires Walkable(res) && Recoverable(res, start, s) && page == ResumePage(s.checkpoint)
    ensures var s' := AfterPage(res, s, page, recorded);
            Recoverable(res, start, s') &&
            (recorded ==> ResumePage(s'.checkpoint) == if res.NextPage(page) == 0 then 1 else res.NextPage(page)) &&
            (recorded && res.NextPage(page) == 0 ==> Finished(res, start, s'))
  {
    if !recorded {
      PartOfPage(res, start, s, Batch(res, page));
    } else {
      RestOfWalk(res, start, s, page);
      CheckpointRoundTrip(res.NextPage(page));
      if res.NextPage(page) == 0 {
        assert BatchesFrom(res, page + 1) == [];
        CleanIsStable(res, start);
      }
    }
  }

  lemma {:induction false} WalkStaysRecoverable<Item, K(!new), R(!new), E(!new)>(
    res: Resource<Item, K, R, E>, start: map<K, R>, s: Store<K, R>, page: int, at: int -> Fault)
    requires Walkable(res) && page == ResumePage(s.checkpoint) && Recoverable(res, start, s)
    ensures var (s', finished) := WalkFrom(res, s, page, at);
            Recoverable(res, start, s') && (finished ==> Finished(res, start, s'))
    decreases |res.pages| - page
  {
    match at(page)
    case BeforeStorage =>
    case DuringStorage(n) => PartOfPage(res, start, s, Prefix(Batch(res, page), n));
    case AtCheckpoint(stored) => PageKeepsRecoverable(res, start, s, page, stored);
    case NoFault =>
      PageKeepsRecoverable(res, start, s, page, true);
      if res.NextPage(page) != 0 {
        WalkStaysRecoverable(res, start, AfterPage(res, s, page, true), page + 1, at);
      }
  }

  function Attempts<Item, K, R, E>(res: Resource<Item, K, R, E>, s: Store<K, R>, plans: seq<Plan>): Store<K, R> {
    if plans == [] then s else Attempt(res, Attempts(res, s, plans[..|plans| - 1]), plans[|plans| - 1]).0
  }

  lemma {:induction false} AttemptsStayRecoverable<Item, K(!new), R(!new), E(!new)>(
    res: Resource<Item, K, R, E>, s: Store<K, R>, plans: seq<Plan>)
    requires Walkable(res) && ResumePage(s.checkpoint) == 1
    ensures Recoverable(res, s.rows, Attempts(res, s, plans))
  {
    if plans != [] {
      var before := Attempts(res, s, plans[..|plans| - 1]);
      AttemptsStayRecoverable(res, s, plans[..|plans| - 1]);
      WalkStaysRecoverable(res, s.rows, before, ResumePage(before.checkpoint), plans[|plans| - 1].at);
    }
  }

  /** Crash and resume equals one clean run: any number of attempts that fail anywhere, followed by one that
      finishes, leave the rows of a single uninterrupted walk. */
  lemma {:induction false} ResumedEqualsClean<Item, K(!new), R(!new), E(!new)>(
    res: Resource<Item, K, R, E>, s: Store<K, R>, failed: seq<Plan>, last: Plan)
    requires Walkable(res) && ResumePage(s.checkpoint) == 1
    requires Attempt(res, Attempts(res, s, failed), last).1
    ensures Finished(res, s.rows, Attempt(res, Attempts(res, s, failed), last).0)
  {
    var before := Attempts(res, s, failed);
    AttemptsStayRecoverable(res, s, failed);
    WalkStaysRecoverable(res, s.rows, before, ResumePage(before.checkpoint), last.at);
  }

  predicate ClearFrom(at: int -> Fault, page: int, last: int) {
    at(page).NoFault? && forall p :: page < p <= last ==> at(p).NoFault?
  }

  lemma {:induction false} ClearFromNext(at: int -> Fault, page: int, last: int)
    requires page < last
    ensures ClearFrom(at, page, last) <==> at(page).NoFault? && ClearFrom(at, page + 1, last)
  {
  }

  /** An attempt finishes exactly when nothing fails between the resumed page and the last. */
  lemma {:induction false} FinishesIff<Item, K, R, E>(res: Resource<Item, K, R, E>, s: Store<K, R>, page: int, at: int -> Fault)
    requires page >= 1
    ensures WalkFrom(res, s, page, at).1 <==> ClearFrom(at, page, |res.pages|)
    decreases |res.pages| - page
  {
    match at(page)
    case NoFault =>
      if res.NextPage(page) != 0 {
        FinishesIff(res, AfterPage(res, s, page, true), page + 1, at);
        ClearFromNext(at, page, |res.pages|);
      }
    case _ =>
  }

  lemma {:induction false} PartStaysCovered<Item, K, R, E>(res: Resource<Item, K, R, E>, s: Store<K, R>, part: seq<(K, E)>)
    requires Covered(res, s)
    ensures Covered(res, WithPart(res, s, part))
  {
    ApplyKeys(KeyOf, OnRow<K, R, E>(res.merge), s.rows, part);
  }

  lemma {:induction false} PageStaysCovered<Item, K, R, E>(res: Resource<Item, K, R, E>, s: Store<K, R>, page: int)
    requires |res.pages| <= MAX_INT64 && page == ResumePage(s.checkpoint) && Covered(res, s)
    ensures Covered(res, AfterPage(res, s, page, true))
  {
    var batch, s' := Batch(res, page), AfterPage(res, s, page, true);
    CheckpointRoundTrip(res.NextPage(page));
    ApplyKeys(KeyOf, OnRow<K, R, E>(res.merge), s.rows, batch);
    forall p, i | 1 <= p < ResumePage(s'.checkpoint) && 0 <= i < |Batch(res, p)| ensures Batch(res, p)[i].0 in s'.rows {
      if p == page { assert KeyOf(batch[i]) in s'.rows.Keys; }
    }
  }

  lemma {:induction false} WalkStaysCovered<Item, K, R, E>(res: Resource<Item, K, R, E>, s: Store<K, R>, page: int, at: int -> Fault)
    requires |res.pages| <= MAX_INT64 && page == ResumePage(s.checkpoint) && Covered(res, s)
    ensures Covered(res, WalkFrom(res, s, page, at).0)
    decreases |res.pages| - page
  {
    PageStaysCovered(res, s, page);
    match at(page)
    case BeforeStorage =>
    case DuringStorage(n) => PartStaysCovered(res, s, Prefix(Batch(res, page), n));
    case AtCheckpoint(stored) =>
      if !stored { PartStaysCovered(res, s, Batch(res, page)); }
    case NoFault =>
      if res.NextPage(page) != 0 {
        CheckpointRoundTrip(page + 1);
        WalkStaysCovered(res, AfterPage(res, s, page, true), page + 1, at);
      }
  }

  /** At every point, whatever failed so far, all items of the pages before the checkpoint are stored. */
  lemma {:induction false} AlwaysCovered<Item, K, R, E>(res: Resource<Item, K, R, E>, s: Store<K, R>, plans: seq<Plan>)
    requires |res.pages| <= MAX_INT64 && ResumePage(s.checkpoint) == 1
    ensures Covered(res, Attempts(res, s, plans))
  {
    if plans != [] {
      var before := Attempts(res, s, plans[..|plans| - 1]);
      AlwaysCovered(res, s, plans[..|plans| - 1]);
      WalkStaysCovered(res, before, ResumePage(before.checkpoint), plans[|plans| - 1].at);
    }
  }

  // ---------------------------------------------------------------- what a clean walk stores

  lemma {:induction false} PayloadIs<Item, K, E>(build: Item -> Option<(K, E)>, items: seq<Item>, e: (K, E))
    ensures e in Payload(build, items) <==> exists i :: 0 <= i < |items| && build(items[i]) == Some(e)
  {
    if items != [] {
      var init := items[..|items| - 1];
      PayloadIs(build, init, e);
      assert forall i :: 0 <= i < |init| ==> init[i] == items[i];
    }
  }

  lemma {:induction false} BatchesAre<Item, K, R, E>(res: Resource<Item, K, R, E>, page: int, e: (K, E))
    requires page >= 1
    ensures e in BatchesFrom(res, page) <==> exists p :: page <= p <= |res.pages| && e in Batch(res, p)
    decreases |res.pages| - page
  {
    if page <= |res.pages| { BatchesAre(res, page + 1, e); }
  }

  ghost predicate Included<Item, K, R, E>(res: Resource<Item, K, R, E>, k: K, page: int, i: int) {
    1 <= page <= |res.pages| && 0 <= i < |res.Items(page)| &&
    res.build(res.Items(page)[i]).Some? && res.build(res.Items(page)[i]).value.0 == k
  }

  /** A clean walk stores every included item of every page, and no other new row. */
  lemma {:induction false} CleanStores<Item, K, R, E>(res: Resource<Item, K, R, E>, rows: map<K, R>, k: K)
    ensures k in Clean(res, rows) <==> k in rows || exists page, i :: Included(res, k, page, i)
  {
    var es := BatchesFrom(res, 1);
    ApplyKeys(KeyOf, OnRow<K, R, E>(res.merge), rows, es);
    if j :| 0 <= j < |es| && KeyOf(es[j]) == k {
      OnSomePage(res, es[j]);
    }
    if page, i :| Included(res, k, page, i) {
      InBatches(res, page, i);
      assert KeyOf(res.build(res.Items(page)[i]).value) == k;
    }
  }

  lemma {:induction false} OnSomePage<Item, K, R, E>(res: Resource<Item, K, R, E>, e: (K, E))
    requires e in BatchesFrom(res, 1)
    ensures exists page, i :: Included(res, e.0, page, i)
  {
    BatchesAre(res, 1, e);
    var page :| 1 <= page <= |res.pages| && e in Batch(res, page);
    PayloadIs(res.build, res.Items(page), e);
    var i :| 0 <= i < |res.Items(page)| && res.build(res.Items(page)[i]) == Some(e);
    assert Included(res, e.0, page, i);
  }

  lemma {:induction false} InBatches<Item, K, R, E>(res: Resource<Item, K, R, E>, page: int, i: int)
    requires 1 <= page <= |res.pages| && 0 <= i < |res.Items(page)| && res.build(res.Items(page)[i]).Some?
    ensures res.build(res.Items(page)[i]).value in BatchesFrom(res, 1)
  {
    var e := res.build(res.Items(page)[i]).value;
    PayloadIs(res.build, res.Items(page), e);
    assert e in Batch(res, page);
    BatchesAre(res, 1, e);
  }
}
