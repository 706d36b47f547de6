/**
 Any number of scans over one `PartitionFilter`, in any overlap: each scan starts from the
 filter's cursor at that moment, and each one that is drained to null writes its own back.
*/
module Pagination {
  import opened Streaming

  /**
   `cell` is the cursor inside the shared `PartitionFilter`; `log` lists what `next()` has
   returned or thrown, over all pages, in order.
  */
  datatype World = World(sizes: seq<nat>, cell: Cursor, pages: seq<Page>, log: seq<Item>)

  datatype WorldAction = Scan(capacity: nat, quota: nat) | On(page: nat, a: Action)

  predicate WorldEnabled(w: World, a: WorldAction) {
    a.Scan? || (a.page < |w.pages| && Enabled(w.pages[a.page], a.a))
  }

  function WorldFire(w: World, a: WorldAction): World
    requires WorldEnabled(w, a)
  {
    match a
    case Scan(capacity, quota) =>
      w.(pages := w.pages + [Opened(w.sizes, capacity, quota, w.cell)])
    case On(i, x) =>
      var p := w.pages[i];
      w.(pages := w.pages[i := Fire(p, x)],
         cell := if x == Php(Write) then p.o.pc.cursor else w.cell,
         log := if OutcomeOf(p, x).Returned? then w.log + [OutcomeOf(p, x).item] else w.log)
  }

  predicate WorldRuns(w: World, acts: seq<WorldAction>)
    decreases |acts|
  {
    acts == [] || (WorldEnabled(w, acts[0]) && WorldRuns(WorldFire(w, acts[0]), acts[1..]))
  }

  function WorldRun(w: World, acts: seq<WorldAction>): World
    requires WorldRuns(w, acts)
    decreases |acts|
  {
    if acts == [] then w else WorldRun(WorldFire(w, acts[0]), acts[1..])
  }

  /** A new filter over partitions holding `sizes` records, before any scan. */
  function Fresh(sizes: seq<nat>): World {
    World(sizes, seq(|sizes|, _ => 0), [], [])
  }

  // ---------------------------------------------------------------------------------------
  //  Nothing before the cursor was skipped, under any overlap of scans
  // ---------------------------------------------------------------------------------------

  /** Record `i` of partition `part` has been returned to the caller by some page. */
  predicate Returned(w: World, part: nat, i: nat) {
    exists k :: 0 <= k < |w.pages| && Found(Record(part, i)) in w.pages[k].o.consumed
  }

  ghost predicate Covered(w: World, c: Cursor) {
    && |c| == |w.sizes|
    && forall part, i :: 0 <= part < |c| && 0 <= i < c[part] ==> Returned(w, part, i)
  }

  ghost predicate WorldInv(w: World) {
    && Covered(w, w.cell)
    && forall k :: 0 <= k < |w.pages| ==> Inv(w.pages[k]) && Covered(w, w.pages[k].start)
  }

  lemma {:induction false} OfHasItem(items: seq<Item>, part: nat, i: nat)
    requires i in PositionsOf(items, part)
    ensures Found(Record(part, i)) in items
    decreases |items|
  {
    var n := |items| - 1;
    if i in PositionsOf(items[..n], part) {
      OfHasItem(items[..n], part, i);
    }
  }

  lemma StepShape(p: Page, a: Action)
    requires Enabled(p, a)
    ensures Fire(p, a).start == p.start
    ensures p.o.consumed <= Fire(p, a).o.consumed
    ensures Fire(p, a).o.consumed
         == p.o.consumed + if OutcomeOf(p, a).Returned? then [OutcomeOf(p, a).item] else []
  {}

  /** Returned records stay returned. */
  lemma CoveredGrows(w: World, w': World, c: Cursor)
    requires Covered(w, c) && w'.sizes == w.sizes && |w.pages| <= |w'.pages|
    requires forall k :: 0 <= k < |w.pages| ==> w.pages[k].o.consumed <= w'.pages[k].o.consumed
    ensures Covered(w', c)
  {
    forall part, i | 0 <= part < |c| && 0 <= i < c[part]
      ensures Returned(w', part, i)
    {
      assert Returned(w, part, i);
      var k :| 0 <= k < |w.pages| && Found(Record(part, i)) in w.pages[k].o.consumed;
      assert Found(Record(part, i)) in w'.pages[k].o.consumed;
    }
  }

  /** The cursor a page is about to write is covered: by earlier pages, then by itself. */
  lemma WrittenIsCovered(w: World, k: nat)
    requires WorldInv(w) && k < |w.pages| && w.pages[k].o.pc.Writing?
    ensures Covered(w, w.pages[k].o.pc.cursor)
  {
    var p := w.pages[k];
    var c := p.o.pc.cursor;
    forall part, i | 0 <= part < |c| && 0 <= i < c[part]
      ensures Returned(w, part, i)
    {
      if i >= p.start[part] {
        DrainedExactly(p, part);
        assert Range(p.start[part], c[part])[i - p.start[part]] == i;
        OfHasItem(p.o.consumed, part, i);
      }
    }
  }

  lemma DrainedExactly(p: Page, part: nat)
    requires Inv(p) && (p.s.taken || p.o.pc.Writing?) && p.s.handle && part < |p.start|
    ensures PositionsOf(p.o.consumed, part) == Range(p.start[part], p.s.tracker[part])
  {
    assert !Ahead(p.s, part);
    assert p.s.delivered == p.o.consumed;
  }

  lemma WorldStepKeeps(w: World, a: WorldAction)
    requires WorldInv(w) && WorldEnabled(w, a)
    ensures WorldInv(WorldFire(w, a))
  {
    var w' := WorldFire(w, a);
    match a {
      case Scan(capacity, quota) => OpenedInv(w.sizes, capacity, quota, w.cell);
      case On(i, x) =>
        StepKeeps(w.pages[i], x);
        StepShape(w.pages[i], x);
        if x == Php(Write) {
          WrittenIsCovered(w, i);
        }
    }
    CoveredGrows(w, w', w'.cell);
    forall k | 0 <= k < |w'.pages|
      ensures Inv(w'.pages[k]) && Covered(w', w'.pages[k].start)
    {
      CoveredGrows(w, w', w'.pages[k].start);
    }
  }

  lemma {:induction false} WorldRunKeeps(w: World, acts: seq<WorldAction>)
    requires WorldInv(w) && WorldRuns(w, acts)
    ensures WorldInv(WorldRun(w, acts))
    decreases |acts|
  {
    if acts == [] {
    } else {
      WorldStepKeeps(w, acts[0]);
      WorldRunKeeps(WorldFire(w, acts[0]), acts[1..]);
    }
  }

  /**
   Over every run of scans on one filter (drained, closed early, dropped or overlapping),
   everything before the filter's cursor has been returned to the caller by some page.
  */
  lemma NothingBeforeTheCursorIsSkipped(sizes: seq<nat>, acts: seq<WorldAction>, part: nat, i: nat)
    requires WorldRuns(Fresh(sizes), acts)
    requires part < |sizes|
    ensures var w := WorldRun(Fresh(sizes), acts);
            |w.cell| == |sizes| && (i < w.cell[part] ==> Returned(w, part, i))
  {
    WorldRunKeeps(Fresh(sizes), acts);
    RunSizes(Fresh(sizes), acts);
  }

  lemma {:induction false} RunSizes(w: World, acts: seq<WorldAction>)
    requires WorldRuns(w, acts)
    ensures WorldRun(w, acts).sizes == w.sizes
    decreases |acts|
  {
    if acts == [] {
    } else {
      RunSizes(WorldFire(w, acts[0]), acts[1..]);
    }
  }

  // ---------------------------------------------------------------------------------------
  //  Page after page, each drained to null
  // ---------------------------------------------------------------------------------------

  /** Every page so far has answered null and written its cursor back. */
  predicate AllDrained(w: World) {
    forall k :: 0 <= k < |w.pages| ==> w.pages[k].o.synced
  }

  /** A run in which a scan starts only when all pages before it have been drained to null. */
  predicate PagewiseRuns(w: World, acts: seq<WorldAction>)
    decreases |acts|
  {
    acts == [] ||
    (&& WorldEnabled(w, acts[0])
     && (acts[0].Scan? ==> AllDrained(w))
     && PagewiseRuns(WorldFire(w, acts[0]), acts[1..]))
  }

  predicate LastIsOpen(w: World) {
    w.pages != [] && !w.pages[|w.pages| - 1].o.synced
  }

  /** The positions of `part` that the page in progress has returned. */
  function OpenPart(w: World, part: nat): seq<nat> {
    if LastIsOpen(w) then PositionsOf(w.pages[|w.pages| - 1].o.consumed, part) else []
  }

  /** The records the caller has received: all before the cursor, then the open page's own. */
  ghost predicate LogOk(w: World) {
    && |w.cell| == |w.sizes|
    && (forall k :: 0 <= k < |w.pages| ==> Inv(w.pages[k]))
    && (forall k :: 0 <= k < |w.pages| - 1 ==> w.pages[k].o.synced)
    && (LastIsOpen(w) ==> w.pages[|w.pages| - 1].start == w.cell)
    && forall part :: 0 <= part < |w.cell| ==>
         PositionsOf(w.log, part) == Range(0, w.cell[part]) + OpenPart(w, part)
  }

  lemma DrainedPageIsStill(p: Page, a: Action)
    requires Inv(p) && p.o.synced && Enabled(p, a)
    ensures Fire(p, a).o.synced && !OutcomeOf(p, a).Returned? && a != Php(Write)
  {}

  function Logged(log: seq<Item>, p: Page, x: Action): seq<Item> {
    if OutcomeOf(p, x).Returned? then log + [OutcomeOf(p, x).item] else log
  }

  lemma LogFollowsPage(p: Page, x: Action, log: seq<Item>, before: seq<nat>, part: nat)
    requires Enabled(p, x) && PositionsOf(log, part) == before + PositionsOf(p.o.consumed, part)
    ensures PositionsOf(Logged(log, p, x), part) == before + PositionsOf(Fire(p, x).o.consumed, part)
  {
    var returned := if OutcomeOf(p, x).Returned? then [OutcomeOf(p, x).item] else [];
    StepShape(p, x);
    assert Logged(log, p, x) == log + returned && Fire(p, x).o.consumed == p.o.consumed + returned;
    BothAppend(log, p.o.consumed, returned, before, part);
  }

  /** What is appended to log and page alike leaves them in line. */
  lemma BothAppend(log: seq<Item>, consumed: seq<Item>, returned: seq<Item>, before: seq<nat>, part: nat)
    requires |returned| <= 1 && PositionsOf(log, part) == before + PositionsOf(consumed, part)
    ensures PositionsOf(log + returned, part) == before + PositionsOf(consumed + returned, part)
  {
    if returned == [] {
      assert log + returned == log && consumed + returned == consumed;
    } else {
      assert returned == [returned[0]];
      PositionsAppend(log, returned[0], part);
      PositionsAppend(consumed, returned[0], part);
    }
  }

  /** Only the write-back ends an open page. */
  lemma OpenUntilWrite(p: Page, x: Action)
    requires Inv(p) && !p.o.synced && Enabled(p, x)
    ensures Fire(p, x).o.synced <==> x == Php(Write)
  {}

  lemma OpenPagePart(w: World, x: Action, part: nat)
    requires LogOk(w) && LastIsOpen(w) && Enabled(w.pages[|w.pages| - 1], x) && part < |w.cell|
    ensures var w' := WorldFire(w, On(|w.pages| - 1, x));
            |w'.cell| == |w.cell| && PositionsOf(w'.log, part) == Range(0, w'.cell[part]) + OpenPart(w', part)
  {
    var p := w.pages[|w.pages| - 1];
    OpenFire(w, x);
    if x == Php(Write) {
      WrittenPart(w, part);
    } else {
      assert PositionsOf(w.log, part) == Range(0, w.cell[part]) + PositionsOf(p.o.consumed, part);
      LogFollowsPage(p, x, w.log, Range(0, w.cell[part]), part);
      OpenUntilWrite(p, x);
    }
  }

  /** What a step of the last page does to the world. */
  lemma OpenFire(w: World, x: Action)
    requires w.pages != [] && Enabled(w.pages[|w.pages| - 1], x)
    ensures var p, w' := w.pages[|w.pages| - 1], WorldFire(w, On(|w.pages| - 1, x));
      && |w'.pages| == |w.pages| && w'.pages[|w'.pages| - 1] == Fire(p, x) && w'.log == Logged(w.log, p, x)
      && (x == Php(Write) ==> w'.log == w.log) && (x != Php(Write) ==> w'.cell == w.cell)
  {}

  /** The write-back moves the cursor over what the page has returned. */
  lemma WrittenPart(w: World, part: nat)
    requires LogOk(w) && LastIsOpen(w) && Enabled(w.pages[|w.pages| - 1], Php(Write)) && part < |w.cell|
    ensures var w' := WorldFire(w, On(|w.pages| - 1, Php(Write)));
            |w'.cell| == |w.cell| && PositionsOf(w.log, part) == Range(0, w'.cell[part]) && !LastIsOpen(w')
  {
    var p := w.pages[|w.pages| - 1];
    WriteMovesCell(w);
    CursorIsDrained(p, part);
    RangeJoin(0, w.cell[part], p.o.pc.cursor[part]);
  }

  lemma WriteMovesCell(w: World)
    requires w.pages != [] && Enabled(w.pages[|w.pages| - 1], Php(Write))
    ensures var w' := WorldFire(w, On(|w.pages| - 1, Php(Write)));
            w'.cell == w.pages[|w.pages| - 1].o.pc.cursor && !LastIsOpen(w')
  {}

  lemma CursorIsDrained(p: Page, part: nat)
    requires Inv(p) && p.o.pc.Writing? && part < |p.start|
    ensures |p.o.pc.cursor| == |p.start| && p.start[part] <= p.o.pc.cursor[part]
    ensures PositionsOf(p.o.consumed, part) == Range(p.start[part], p.o.pc.cursor[part])
  {
    DrainedExactly(p, part);
  }

  lemma RangeJoin(lo: nat, mid: nat, hi: nat)
    requires lo <= mid <= hi
    ensures Range(lo, mid) + Range(mid, hi) == Range(lo, hi)
  {}

  lemma OpenPageStep(w: World, x: Action)
    requires LogOk(w) && LastIsOpen(w) && Enabled(w.pages[|w.pages| - 1], x)
    ensures LogOk(WorldFire(w, On(|w.pages| - 1, x)))
  {
    var k := |w.pages| - 1;
    var w' := WorldFire(w, On(k, x));
    StepKeeps(w.pages[k], x);
    StepShape(w.pages[k], x);
    assert w'.pages[k] == Fire(w.pages[k], x);
    if x == Php(Write) {
      assert !LastIsOpen(w');
    }
    forall part | 0 <= part < |w.cell|
      ensures |w'.cell| == |w.cell| && PositionsOf(w'.log, part) == Range(0, w'.cell[part]) + OpenPart(w', part)
    {
      OpenPagePart(w, x, part);
    }
  }

  lemma PagewiseStepKeeps(w: World, a: WorldAction)
    requires LogOk(w) && WorldEnabled(w, a) && (a.Scan? ==> AllDrained(w))
    ensures LogOk(WorldFire(w, a))
  {
    match a {
      case Scan(capacity, quota) => ScanKeepsLog(w, capacity, quota);
      case On(i, x) =>
        if w.pages[i].o.synced {
          DrainedPageStep(w, i, x);
        } else {
          OpenPageStep(w, x);
        }
    }
  }

  lemma ScanKeepsLog(w: World, capacity: nat, quota: nat)
    requires LogOk(w) && AllDrained(w)
    ensures LogOk(WorldFire(w, Scan(capacity, quota)))
  {
    OpenedInv(w.sizes, capacity, quota, w.cell);
  }

  lemma DrainedPageStep(w: World, i: nat, x: Action)
    requires LogOk(w) && i < |w.pages| && w.pages[i].o.synced && Enabled(w.pages[i], x)
    ensures LogOk(WorldFire(w, On(i, x)))
  {
    StepKeeps(w.pages[i], x);
    DrainedPageIsStill(w.pages[i], x);
    StillPageChangesNothing(w, i, x, Fire(w.pages[i], x));
  }

  lemma StillPageChangesNothing(w: World, i: nat, x: Action, p': Page)
    requires LogOk(w) && i < |w.pages| && w.pages[i].o.synced && p'.o.synced && Inv(p')
    ensures LogOk(w.(pages := w.pages[i := p']))
  {
    var w' := w.(pages := w.pages[i := p']);
    StillPageIsNotOpen(w, i, p');
    forall part | 0 <= part < |w'.cell|
      ensures PositionsOf(w'.log, part) == Range(0, w'.cell[part]) + OpenPart(w', part)
    {
      assert OpenPart(w', part) == OpenPart(w, part);
    }
  }

  lemma StillPageIsNotOpen(w: World, i: nat, p': Page)
    requires i < |w.pages| && w.pages[i].o.synced && p'.o.synced
    ensures var w' := w.(pages := w.pages[i := p']);
      LastIsOpen(w') == LastIsOpen(w) && (LastIsOpen(w) ==> w'.pages[|w.pages| - 1] == w.pages[|w.pages| - 1])
  {}

  lemma {:induction false} PagewiseRunKeeps(w: World, acts: seq<WorldAction>)
    requires LogOk(w) && PagewiseRuns(w, acts)
    ensures WorldRuns(w, acts) && LogOk(WorldRun(w, acts))
    decreases |acts|
  {
    if acts == [] {
    } else {
      PagewiseStepKeeps(w, acts[0]);
      PagewiseRunKeeps(WorldFire(w, acts[0]), acts[1..]);
    }
  }

  lemma {:induction false} PositionsPrefix(xs: seq<Item>, ys: seq<Item>, part: nat)
    ensures PositionsOf(xs, part) <= PositionsOf(xs + ys, part)
    decreases |ys|
  {
    if ys == [] {
      assert xs + ys == xs;
    } else {
      PositionsPrefix(xs, ys[..|ys| - 1], part);
      assert (xs + ys)[..|xs + ys| - 1] == xs + ys[..|ys| - 1];
    }
  }

  lemma GaplessJoin(c: nat, t: nat, xs: seq<nat>)
    requires xs <= Range(c, t)
    ensures Range(0, c) + xs == Range(0, c + |xs|)
  {}

  lemma OpenPartIsPrefix(w: World, part: nat)
    requires LogOk(w) && LastIsOpen(w) && part < |w.cell|
    ensures exists t: nat :: OpenPart(w, part) <= Range(w.cell[part], t)
  {
    var p := w.pages[|w.pages| - 1];
    ConsumedIsPrefix(p, part);
    assert OpenPart(w, part) == PositionsOf(p.o.consumed, part) && p.start == w.cell;
  }

  lemma ConsumedIsPrefix(p: Page, part: nat)
    requires Inv(p) && part < |p.start|
    ensures exists t: nat :: PositionsOf(p.o.consumed, part) <= Range(p.start[part], t)
  {
    PositionsPrefix(p.o.consumed, p.s.discarded + p.s.queue, part);
    assert p.s.delivered == p.o.consumed + (p.s.discarded + p.s.queue);
    var t := p.s.tracker[part] + AsNat(Ahead(p.s, part));
    assert PositionsOf(p.o.consumed, part) <= Range(p.start[part], t);
  }

  /**
   When pages run one after another and each is drained to null, the concatenated pages hold
   every record of each partition exactly once, in order and without a gap, up to the cursor;
   and in the middle of a page they are still a gapless, duplicate-free stretch.
  */
  lemma PagesReturnEachRecordOnce(sizes: seq<nat>, acts: seq<WorldAction>, part: nat)
    requires PagewiseRuns(Fresh(sizes), acts) && part < |sizes|
    ensures WorldRuns(Fresh(sizes), acts)
    ensures var w := WorldRun(Fresh(sizes), acts);
            && |w.cell| == |sizes|
            && PositionsOf(w.log, part) == Range(0, |PositionsOf(w.log, part)|)
            && (AllDrained(w) ==> PositionsOf(w.log, part) == Range(0, w.cell[part]))
  {
    PagewiseRunKeeps(Fresh(sizes), acts);
    RunSizes(Fresh(sizes), acts);
    var w := WorldRun(Fresh(sizes), acts);
    if LastIsOpen(w) {
      OpenPartIsPrefix(w, part);
      var t: nat :| OpenPart(w, part) <= Range(w.cell[part], t);
      GaplessJoin(w.cell[part], t, OpenPart(w, part));
    }
  }
}
