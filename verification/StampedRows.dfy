/** Rows that merge events arriving out of order: an event's payload replaces the stored one unless the row
    has already seen something newer. Every event table of the repository is an instance. */
module StampedRows {
  import opened Sql
  import opened Upserts

  /** How an event competes: `bump` raises the row's high-water mark, `rank` is compared with it,
      and a silent event never replaces a stored payload. */
  datatype Stamp = Stamp(bump: Option<int>, rank: Option<int>, silent: bool)

  /** An event that can raise the mark competes with the value it raises it to. */
  predicate Coherent(s: Stamp) {
    s.bump.Some? ==> s.rank == s.bump && !s.silent
  }

  predicate AllCoherent(ss: seq<Stamp>) {
    forall i :: 0 <= i < |ss| ==> Coherent(ss[i])
  }

  /** No row yet, or a row with this high-water mark. */
  datatype Level = Absent | At(top: Option<int>)

  function Raise(l: Level, s: Stamp): Level {
    if l.Absent? then At(s.bump) else At(Greatest(l.top, s.bump))
  }

  predicate Accepts(s: Stamp, l: Level) {
    l.Absent? || (!s.silent && !Holds(if l.top.Some? then Less(s.rank, l.top) else None))
  }

  function LevelAfter(l: Level, ss: seq<Stamp>): Level {
    if ss == [] then l else Raise(LevelAfter(l, ss[..|ss| - 1]), ss[|ss| - 1])
  }

  /** Index of the event whose payload the row ends up with; -1 if the payload it started with survives. */
  function Chosen(l: Level, ss: seq<Stamp>): (i: int)
    ensures -1 <= i < |ss|
    ensures l.Absent? && ss != [] ==> 0 <= i
  {
    if ss == [] then -1
    else if Accepts(ss[|ss| - 1], LevelAfter(l, ss[..|ss| - 1])) then |ss| - 1
    else Chosen(l, ss[..|ss| - 1])
  }

  /** Last event that a row whose mark stays at l would accept. */
  function LastAt(l: Level, ss: seq<Stamp>): (i: int)
    ensures -1 <= i < |ss|
  {
    if ss == [] then -1
    else if Accepts(ss[|ss| - 1], l) then |ss| - 1
    else LastAt(l, ss[..|ss| - 1])
  }

  predicate Below(a: Option<int>, b: Option<int>) {
    Greatest(b, a) == b
  }

  lemma {:induction false} MarkDominates(l: Level, ss: seq<Stamp>, i: int)
    requires 0 <= i < |ss|
    ensures LevelAfter(l, ss).At? && Below(ss[i].bump, LevelAfter(l, ss).top)
    ensures l.At? ==> Below(l.top, LevelAfter(l, ss).top)
  {
    var init := ss[..|ss| - 1];
    if init != [] {
      MarkDominates(l, init, if i < |init| then i else 0);
    }
  }

  /** Replaying events on a row whose mark already dominates them leaves the mark alone. */
  lemma {:induction false} Saturated(m: Level, ss: seq<Stamp>)
    requires m.At? && forall i :: 0 <= i < |ss| ==> Below(ss[i].bump, m.top)
    ensures LevelAfter(m, ss) == m && Chosen(m, ss) == LastAt(m, ss)
  {
    if ss != [] {
      var init := ss[..|ss| - 1];
      assert forall i :: 0 <= i < |init| ==> init[i] == ss[i];
      Saturated(m, init);
    }
  }

  /** Whatever a replay picks is what the first pass had picked. */
  lemma {:induction false} ReplayPicksSame(l: Level, ss: seq<Stamp>)
    requires AllCoherent(ss)
    ensures LastAt(LevelAfter(l, ss), ss) in {-1, Chosen(l, ss)}
  {
    if ss != [] {
      var init, s := ss[..|ss| - 1], ss[|ss| - 1];
      assert AllCoherent(init) by { assert forall i :: 0 <= i < |init| ==> init[i] == ss[i]; }
      ReplayPicksSame(l, init);
    }
  }

  /** times[i] is the greatest non-NULL time, and the last one to carry it. */
  predicate IsNewest(times: seq<Option<int>>, i: int) {
    0 <= i < |times| && times[i].Some? &&
    (forall j :: 0 <= j < |times| && times[j].Some? ==> times[j].value <= times[i].value) &&
    (forall j :: i < j < |times| ==> times[j] != times[i])
  }

  function Bumps(ss: seq<Stamp>): (bs: seq<Option<int>>)
    ensures |bs| == |ss| && forall i :: 0 <= i < |ss| ==> bs[i] == ss[i].bump
  {
    seq(|ss|, i requires 0 <= i < |ss| => ss[i].bump)
  }

  /** The mark of a row is NULL when no event carried a time, and the newest event's time otherwise. */
  lemma {:induction false} MarkIsNewest(ss: seq<Stamp>) returns (i: int)
    requires ss != []
    ensures LevelAfter(Absent, ss).At?
    ensures LevelAfter(Absent, ss).top.None? ==> forall j :: 0 <= j < |ss| ==> ss[j].bump.None?
    ensures LevelAfter(Absent, ss).top.Some? ==> IsNewest(Bumps(ss), i) && ss[i].bump == LevelAfter(Absent, ss).top
  {
    var init, s := ss[..|ss| - 1], ss[|ss| - 1];
    i := |ss| - 1;
    if init != [] {
      var k := MarkIsNewest(init);
      assert forall j :: 0 <= j < |init| ==> init[j] == ss[j] && Bumps(init)[j] == Bumps(ss)[j];
      if s.bump != LevelAfter(Absent, ss).top {
        i := k;
      }
    }
  }

  /** The event that set the final mark, last among equals, provides the payload exactly when
      nothing after it is accepted against that mark. */
  lemma {:induction false} NewestIsChosenIff(ss: seq<Stamp>, newest: int)
    requires AllCoherent(ss) && IsNewest(Bumps(ss), newest)
    ensures Chosen(Absent, ss) == newest <==>
            forall j :: newest < j < |ss| ==> !Accepts(ss[j], At(ss[newest].bump))
  {
    var init, s := ss[..|ss| - 1], ss[|ss| - 1];
    assert AllCoherent(init) by { assert forall i :: 0 <= i < |init| ==> init[i] == ss[i]; }
    if newest < |ss| - 1 {
      assert IsNewest(Bumps(init), newest) by { assert forall i :: 0 <= i < |init| ==> Bumps(init)[i] == Bumps(ss)[i]; }
      NewestIsChosenIff(init, newest);
      MarkIs(init, newest);
      assert forall j :: 0 <= j < |init| ==> init[j] == ss[j];
    } else if init != [] {
      var k := MarkIsNewest(init);
      assert LevelAfter(Absent, init).top.Some? ==> Bumps(ss)[k] == LevelAfter(Absent, init).top;
    }
  }

  /** A row: the payload picked by competition, a tag written by every event, a lowest and a highest time. */
  datatype Cell<P, L> = Cell(payload: P, tag: L, low: Option<int>, top: Option<int>)

  datatype Event<P, L> = Event(payload: P, tag: L, start: Option<int>, stamp: Stamp)

  function LevelOf<P, L>(row: Option<Cell<P, L>>): Level {
    if row.None? then Absent else At(row.value.top)
  }

  function MergeCell<P, L>(row: Option<Cell<P, L>>, e: Event<P, L>): Cell<P, L> {
    if row.None? then Cell(e.payload, e.tag, e.start, e.stamp.bump)
    else
      Cell(if Accepts(e.stamp, LevelOf(row)) then e.payload else row.value.payload,
           e.tag,
           Least(row.value.low, e.start),
           Greatest(row.value.top, e.stamp.bump))
  }

  function Stamps<P, L>(es: seq<Event<P, L>>): (ss: seq<Stamp>)
    ensures |ss| == |es| && forall i :: 0 <= i < |es| ==> ss[i] == es[i].stamp
  {
    seq(|es|, i requires 0 <= i < |es| => es[i].stamp)
  }

  function LeastAfter<P, L>(low: Option<int>, es: seq<Event<P, L>>): Option<int> {
    if es == [] then low else Least(LeastAfter(low, es[..|es| - 1]), es[|es| - 1].start)
  }

  /** The row after a sequence of events, field by field. */
  lemma {:induction false} FoldCell<P, L>(row: Option<Cell<P, L>>, es: seq<Event<P, L>>)
    requires es != []
    ensures var ss, low := Stamps(es), if row.None? then None else row.value.low;
            var i := Chosen(LevelOf(row), ss);
            (i == -1 ==> row.Some?) &&
            Fold(MergeCell, row, es) ==
            Some(Cell(if i == -1 then row.value.payload else es[i].payload, es[|es| - 1].tag,
                      LeastAfter(low, es), LevelAfter(LevelOf(row), ss).top))
  {
    var init := es[..|es| - 1];
    assert Stamps(es)[..|es| - 1] == Stamps(init);
    if init != [] {
      FoldCell(row, init);
      MarkDominates(LevelOf(row), Stamps(init), 0);
    }
  }

  /** The newest event provides the payload when nothing after it is accepted against its time. */
  lemma {:induction false} NewestProvidesPayload<P, L>(es: seq<Event<P, L>>, newest: int)
    requires AllCoherent(Stamps(es)) && IsNewest(Bumps(Stamps(es)), newest)
    requires forall j :: newest < j < |es| ==> !Accepts(es[j].stamp, At(es[newest].stamp.bump))
    ensures var r := Fold(MergeCell, None, es);
            r.Some? && r.value.payload == es[newest].payload && r.value.top == es[newest].stamp.bump
  {
    var ss := Stamps(es);
    NewestIsChosenIff(ss, newest);
    FoldCell<P, L>(None, es);
    MarkIs(ss, newest);
  }

  lemma {:induction false} MarkIs(ss: seq<Stamp>, newest: int)
    requires IsNewest(Bumps(ss), newest)
    ensures LevelAfter(Absent, ss) == At(ss[newest].bump)
  {
    var k := MarkIsNewest(ss);
    assert LevelAfter(Absent, ss).top.Some? by { assert Bumps(ss)[newest] == ss[newest].bump; }
  }

  /** When no event competes, the first arrival keeps the row. */
  lemma {:induction false} SilentKeepsFirst<P, L>(es: seq<Event<P, L>>)
    requires es != [] && AllCoherent(Stamps(es)) && forall j :: 0 <= j < |es| ==> es[j].stamp.silent
    ensures var r := Fold(MergeCell, None, es); r.Some? && r.value.payload == es[0].payload && r.value.top.None?
  {
    var init := es[..|es| - 1];
    assert Coherent(Stamps(es)[|es| - 1]);
    if init != [] {
      assert forall i :: 0 <= i < |init| ==> Stamps(init)[i] == Stamps(es)[i];
      SilentKeepsFirst(init);
    }
  }

  lemma {:induction false} LeastReplay<P, L>(start: Option<int>, es: seq<Event<P, L>>, low: Option<int>)
    requires Least(low, LeastAfter(start, es)) == low
    ensures LeastAfter(low, es) == low
  {
    if es != [] {
      LeastReplay(start, es[..|es| - 1], low);
    }
  }

  /** Replaying coherent events on the row they produced changes nothing. */
  lemma {:induction false} CellAbsorbs<P, L>(row: Option<Cell<P, L>>, es: seq<Event<P, L>>)
    requires AllCoherent(Stamps(es))
    ensures Fold(MergeCell, Fold(MergeCell, row, es), es) == Fold(MergeCell, row, es)
  {
    if es != [] {
      var ss, once := Stamps(es), Fold(MergeCell, row, es);
      FoldCell(row, es);
      FoldCell(once, es);
      var m := LevelAfter(LevelOf(row), ss);
      forall i | 0 <= i < |ss| ensures m.At? && Below(ss[i].bump, m.top) { MarkDominates(LevelOf(row), ss, i); }
      assert m.At? by { MarkDominates(LevelOf(row), ss, 0); }
      Saturated(m, ss);
      ReplayPicksSame(LevelOf(row), ss);
      LeastReplay(if row.None? then None else row.value.low, es, once.value.low);
    }
  }
}
