/**
 The PHP class `Recordset`, statement by statement. Between any two atomic operations of a
 method the background tasks may take steps; the `Turn`s of a call list them. Every method
 keeps the object at a state that the step system of module `Streaming` reaches, so what is
 proved there for all runs holds of these methods.
*/
module RecordsetObject {
  import opened Polling
  import opened Streaming
  import opened Wrappers

  /** `Arc<Mutex<aero::PartitionFilter>>`, shared by every scan that uses the filter. */
  class FilterCell {
    var cursor: Cursor

    constructor (c: Cursor)
      ensures cursor == c
    {
      cursor := c;
    }
  }

  /** The stream shared by the PHP object and the background tasks (`aero::Recordset`). */
  class Upstream {
    var s: Stream

    constructor (s0: Stream)
      ensures s == s0
    {
      s := s0;
    }

    /** `next_record`: takes the front of the queue, if there is one. */
    method NextRecord() returns (item: Option<Item>)
      modifies this
      ensures old(s.queue) == [] ==> item == None && s == old(s)
      ensures old(s.queue) != [] ==> item == Some(old(s.queue)[0]) && s == old(s).(queue := old(s.queue)[1..])
    {
      if s.queue == [] {
        item := None;
      } else {
        item := Some(s.queue[0]);
        s := s.(queue := s.queue[1..]);
      }
    }

    /** `partition_filter`: the tracker yields its filter once. */
    method PartitionFilter() returns (c: Option<Cursor>)
      modifies this
      ensures c == if old(s).taken then None else Some(old(s).tracker)
      ensures s == old(s).(taken := true)
    {
      c := if s.taken then None else Some(s.tracker);
      s := s.(taken := true);
    }
  }

  /** `Pending`: the call is still polling when the given turns are used up. */
  datatype NextResult = Item(item: Item) | End | Failure | Pending

  lemma PhpFrame(p: Page, a: PhpAction)
    requires PhpEnabled(p, a)
    ensures PhpFire(p, a).start == p.start && Origin(PhpFire(p, a)) == Origin(p)
  {}

  /** Taking the front of the queue, or finding it empty. */
  lemma ReceiveFrame(p: Page, popped: PhpAction, empty: PhpAction)
    requires (p.o.pc == Poll && popped == PollPop && empty == PollEmpty) || (p.o.pc == LastPoll && popped == LastPop && empty == LastEmpty)
    ensures p.s.queue != [] ==>
              && PhpEnabled(p, popped)
              && var o := Object(Idle, p.o.synced, p.o.consumed + [p.s.queue[0]]);
                 PhpFire(p, popped) == Page(p.start, p.s.(queue := p.s.queue[1..]), o)
    ensures p.s.queue == [] ==>
              && PhpEnabled(p, empty)
              && var o := Object(if p.o.pc == Poll then CheckActive else Sync, p.o.synced, p.o.consumed);
                 PhpFire(p, empty) == Page(p.start, p.s, o)
  {}

  lemma EndTest(p: Page, trace: seq<Action>)
    requires Reached(Origin(p), trace, p) && p.s.handle
    ensures ReadersFinished(p.s) <==> Ended(p.s)
  {
    CountTestIsExact(p);
  }

  /** Before the cursor is read the stream has ended and everything delivered was received. */
  lemma AtEndOf(p: Page)
    requires Reachable(p) && p.o.pc == Sync && p.s.handle
    ensures Ended(p.s) && p.o.consumed == p.s.delivered
  {
    ReachableInv(p);
    Conservation(p);
    assert p.o.consumed + p.s.queue == p.o.consumed;
  }

  /** What was received is, in order, what was delivered so far or the first part of it. */
  lemma ReceivedInOrder(p: Page)
    requires Reachable(p) && p.s.handle
    ensures p.o.consumed <= p.s.delivered
  {
    Conservation(p);
  }

  /** A stream without a driver is closed. */
  predicate ClosedWithDriver(s: Stream) {
    s.driver || !s.active
  }

  lemma {:induction false} ClosedStays(p: Page, acts: seq<Action>)
    requires Runs(p, acts) && ClosedWithDriver(p.s)
    ensures ClosedWithDriver(Run(p, acts).s)
    decreases |acts|
  {
    if acts == [] {
    } else {
      ClosedStep(p, acts[0]);
      ClosedStays(Fire(p, acts[0]), acts[1..]);
    }
  }

  lemma ClosedStep(p: Page, a: Action)
    requires Enabled(p, a) && ClosedWithDriver(p.s)
    ensures ClosedWithDriver(Fire(p, a).s)
  {
    match a
    case Task(t) => ClosedTask(p.s, t);
    case Php(c) =>
      PhpLeavesTasks(p, c);
      PhpOpensNothing(p, c);
  }

  lemma PhpOpensNothing(p: Page, a: PhpAction)
    requires PhpEnabled(p, a)
    ensures PhpFire(p, a).s.active ==> p.s.active
  {}

  lemma ClosedTask(s: Stream, t: TaskAction)
    requires TaskEnabled(s, t) && ClosedWithDriver(s)
    ensures ClosedWithDriver(TaskFire(s, t))
  {}

  /** Once the last task has gone, the first round finds an item or the end. */
  lemma GoneIsFound(p: Page, turns: seq<Turn>)
    requires Reachable(p) && p.s.handle
    ensures Ended(p.s) && turns != [] ==> !Rounds(p.s, turns).NotYet?
  {
    if Ended(p.s) && turns != [] {
      var trace :| Reached(Origin(p), trace, p);
      ClosedStays(Origin(p), trace);
      ReachableInv(p);
      GoneIsDecided(p.s, turns);
    }
  }

  /** The cursor about to be written is the consumed position of every partition. */
  lemma CursorIsExact(p: Page)
    requires Reachable(p) && p.o.pc.Writing?
    ensures |p.o.pc.cursor| == |p.start|
    ensures forall part :: 0 <= part < |p.start| ==> PositionsOf(p.o.consumed, part) == Range(p.start[part], p.o.pc.cursor[part])
  {
    ReachableInv(p);
    forall part | 0 <= part < |p.start|
      ensures PositionsOf(p.o.consumed, part) == Range(p.start[part], p.o.pc.cursor[part])
    {
      WriteIsExact(p, part);
    }
  }

  class Recordset {
    const upstream: Upstream
    const maxRecords: nat
    const filter: FilterCell
    var attached: bool  // `_as` is `Some`
    var synced: bool    // `pf_synced`

    ghost const start: Cursor
    ghost var pc: Pc
    ghost var consumed: seq<Item>
    ghost var trace: seq<Action>

    /** The state of the step system that this object and its stream stand for. */
    ghost function View(): Page
      reads this, upstream
    {
      Page(start, upstream.s, Object(pc, synced, consumed))
    }

    ghost predicate Valid()
      reads this, upstream
    {
      && attached == upstream.s.handle
      && maxRecords == upstream.s.quota
      && Reached(Origin(View()), trace, View())
    }

    /** `Client::scan`: the filter's cursor is copied into the new stream. */
    constructor Scan(cell: FilterCell, sizes: seq<nat>, capacity: nat, quota: nat)
      ensures Valid() && pc == Idle && attached && !synced && consumed == [] && trace == []
      ensures filter == cell && start == cell.cursor && maxRecords == quota && fresh(upstream)
    {
      var page := Opened(sizes, capacity, quota, cell.cursor);
      upstream := new Upstream(page.s);
      maxRecords := quota;
      filter := cell;
      attached, synced := true, false;
      start, pc, consumed, trace := cell.cursor, Idle, [], [];
    }

    /** A background task takes one step, if it can. */
    method BackgroundStep(a: TaskAction)
      requires Valid()
      modifies upstream, `trace
      ensures Valid() && old(trace) <= trace
      ensures upstream.s == if TaskEnabled(old(upstream.s), a) then TaskFire(old(upstream.s), a) else old(upstream.s)
    {
      if TaskEnabled(upstream.s, a) {
        TaskFrame(upstream.s, a);
        ReachedStep(Origin(View()), trace, View(), Task(a));
        upstream.s := TaskFire(upstream.s, a);
        trace := trace + [Task(a)];
      }
    }

    /** The background tasks take those of the given steps that are enabled, in order. */
    method Background(steps: seq<TaskAction>)
      requires Valid()
      modifies upstream, `trace
      ensures Valid() && old(trace) <= trace
      ensures upstream.s == After(old(upstream.s), steps)
    {
      for i := 0 to |steps|
        invariant Valid() && old(trace) <= trace
        invariant After(upstream.s, steps[i..]) == After(old(upstream.s), steps)
      {
        assert steps[i..][1..] == steps[i + 1..];
        BackgroundStep(steps[i]);
      }
    }

    /** Ghost bookkeeping for a statement that changed the state as `a` does. */
    ghost method Did(before: Page, a: PhpAction)
      requires Reached(Origin(before), trace, before) && PhpEnabled(before, a)
      requires View().s == PhpFire(before, a).s && synced == PhpFire(before, a).o.synced
      requires before.start == start && attached == upstream.s.handle && maxRecords == upstream.s.quota
      modifies `pc, `consumed, `trace
      ensures Valid() && View() == PhpFire(before, a) && trace == old(trace) + [Php(a)]
    {
      ghost var after := PhpFire(before, a);
      ReachedStep(Origin(before), trace, before, Php(a));
      PhpFrame(before, a);
      pc := after.o.pc;
      consumed := after.o.consumed;
      trace := trace + [Php(a)];
      assert View() == after && Origin(View()) == Origin(before);
    }

    /**
     `next()`. `turns` is the interleaving with the background tasks, `runtimeUp` and `syncUp`
     say whether `tokio_rt()` succeeds for the poll and for reading the cursor.
    */
    method Next(turns: seq<Turn>, runtimeUp: bool, syncUp: bool) returns (r: NextResult)
      requires Valid() && pc == Idle
      modifies this, upstream, filter
      ensures Valid() && (pc == Idle <==> r != Pending) && attached == old(attached)
      // The next item in the order of delivery, if the rounds find one.
      ensures r.Item? ==> consumed == old(consumed) + [r.item] && consumed <= upstream.s.delivered
      ensures !r.Item? ==> consumed == old(consumed)
      ensures r.Item? <==> old(attached) && runtimeUp && Rounds(old(upstream.s), turns).Got?
      ensures r.Item? ==> Rounds(old(upstream.s), turns) == Got(r.item, upstream.s)
      // Still polling exactly when no round found anything; never once all tasks are gone.
      ensures r.Pending? <==> old(attached) && runtimeUp && Rounds(old(upstream.s), turns).NotYet?
      ensures r.Pending? ==> upstream.s == Rounds(old(upstream.s), turns).s
      ensures r.Pending? && turns != [] ==> !Ended(old(upstream.s))
      // An exception exactly when one of the two runtime calls it makes fails.
      ensures r == Failure
          <==> old(attached) && (!runtimeUp || (Rounds(old(upstream.s), turns).AtEnd? && !old(synced) && !syncUp))
      // A detached recordset, or a failing runtime, changes nothing.
      ensures !old(attached) || !runtimeUp ==>
                synced == old(synced) && filter.cursor == old(filter.cursor) && upstream.s == old(upstream.s)
      // Null on an attached recordset: nothing is left to receive, now or later, and the
      // cursor has been written back, once, at exactly the consumed position.
      ensures r == End && attached ==> Ended(upstream.s) && consumed == upstream.s.delivered && synced
      ensures r == End && attached && !old(synced) ==>
                |filter.cursor| == |start| &&
                forall part :: 0 <= part < |start| ==>
                  PositionsOf(consumed, part) == Range(start[part], filter.cursor[part])
      // In every other case the filter is left alone; a failed attempt is retried later.
      ensures r != End || old(synced) ==> filter.cursor == old(filter.cursor) && synced == old(synced)
    {
      ghost var before := View();
      if !attached {
        Did(before, NextDetached);
        return End;
      }
      if !runtimeUp {
        return Failure;
      }
      Did(before, NextCall);
      GoneIsFound(before, turns);
      var rec, atEnd := PollLoop(turns);
      if rec.Some? {
        ReceivedInOrder(View());
        return Item(rec.value);
      }
      if atEnd {
        var ok := SyncPartitionFilterBack(syncUp);
        return if ok then End else Failure;
      }
      r := Pending;
    }

    /** The poll loop, for as many rounds as there are turns. */
    method PollLoop(turns: seq<Turn>) returns (rec: Option<Item>, atEnd: bool)
      requires Valid() && pc == Poll && attached
      modifies upstream, `pc, `consumed, `trace
      ensures Valid()
      ensures Rounds(old(upstream.s), turns) ==
                if rec.Some? then Got(rec.value, upstream.s) else if atEnd then AtEnd(upstream.s) else NotYet(upstream.s)
      ensures rec.Some? ==> !atEnd && pc == Idle && consumed == old(consumed) + [rec.value]
      ensures rec.None? ==> pc == (if atEnd then Sync else Poll) && consumed == old(consumed)
    {
      var turn := 0;
      assert turns[..0] == [];
      while turn < |turns|
        invariant turn <= |turns| && Valid() && pc == Poll && attached && consumed == old(consumed)
        invariant Rounds(old(upstream.s), turns[..turn]) == NotYet(upstream.s)
      {
        RoundsSnoc(old(upstream.s), turns, turn);
        rec, atEnd := PollRound(turns[turn]);
        if rec.Some? || atEnd {
          return;
        }
        turn := turn + 1;
      }
      assert turns[..turn] == turns;
      rec, atEnd := None, false;
    }

    /** One round of the poll loop: an item, the end of the stream, or neither yet. */
    method PollRound(turn: Turn) returns (rec: Option<Item>, atEnd: bool)
      requires Valid() && pc == Poll && attached
      modifies upstream, `pc, `consumed, `trace
      ensures Valid()
      ensures Round(old(upstream.s), turn) ==
                if rec.Some? then Got(rec.value, upstream.s) else if atEnd then AtEnd(upstream.s) else NotYet(upstream.s)
      ensures rec.Some? ==> !atEnd && pc == Idle && consumed == old(consumed) + [rec.value]
      ensures rec.None? ==> pc == (if atEnd then Sync else Poll) && consumed == old(consumed)
      // Without an answer the round ended at the flag or at the count.
      ensures rec.None? && !atEnd ==> |trace| > |old(trace)| && trace[|trace| - 1] in {Php(SeeActive), Php(CountBusy)}
    {
      atEnd := false;
      Background(turn.poll);
      rec := TryReceive(PollPop, PollEmpty);
      if rec.None? {
        rec, atEnd := LookForTheEnd(turn);
      }
    }

    /** The queue was empty: is the stream still active, do others hold it, and if not, is it still empty? */
    method LookForTheEnd(turn: Turn) returns (rec: Option<Item>, atEnd: bool)
      requires Valid() && pc == CheckActive && attached
      modifies upstream, `pc, `consumed, `trace
      ensures Valid()
      ensures EndRound(old(upstream.s), turn) ==
                if rec.Some? then Got(rec.value, upstream.s) else if atEnd then AtEnd(upstream.s) else NotYet(upstream.s)
      ensures rec.Some? ==> !atEnd && pc == Idle && consumed == old(consumed) + [rec.value]
      ensures rec.None? ==> pc == (if atEnd then Sync else Poll) && consumed == old(consumed)
      ensures rec.None? && !atEnd ==> |trace| > |old(trace)| && trace[|trace| - 1] in {Php(SeeActive), Php(CountBusy)}
    {
      rec, atEnd := None, false;
      var active := LoadActive(turn.active);
      if active {
        return;
      }
      var finished := RecordsetReadersFinished(turn.count);
      if !finished {
        return;
      }
      rec, atEnd := LastLook(turn.last);
    }

    /** All tasks are gone: what is in the queue now is all there will be. */
    method LastLook(steps: seq<TaskAction>) returns (rec: Option<Item>, atEnd: bool)
      requires Valid() && pc == LastPoll && attached
      modifies upstream, `pc, `consumed, `trace
      ensures Valid() && atEnd == rec.None?
      ensures var last := After(old(upstream.s), steps);
        if rec.Some? then last.queue != [] && Front(last) == Got(rec.value, upstream.s) else last.queue == [] && last == upstream.s
      ensures rec.Some? ==> pc == Idle && consumed == old(consumed) + [rec.value]
      ensures rec.None? ==> pc == Sync && consumed == old(consumed)
    {
      Background(steps);
      rec := TryReceive(LastPop, LastEmpty);
      atEnd := rec.None?;
    }

    /** Reads the stream's `active` flag. */
    method LoadActive(steps: seq<TaskAction>) returns (active: bool)
      requires Valid() && pc == CheckActive && attached
      modifies upstream, `pc, `consumed, `trace
      ensures Valid() && consumed == old(consumed)
      ensures upstream.s == After(old(upstream.s), steps) && active == upstream.s.active
      ensures pc == if active then Poll else CheckCount
      ensures |trace| > |old(trace)| && trace[|trace| - 1] == Php(if active then SeeActive else SeeClosed)
    {
      Background(steps);
      active := upstream.s.active;
      Did(View(), if active then SeeActive else SeeClosed);
    }

    /** `recordset_readers_finished`: only this object still holds the stream, so all tasks are gone. */
    method RecordsetReadersFinished(steps: seq<TaskAction>) returns (finished: bool)
      requires Valid() && pc == CheckCount && attached
      modifies upstream, `pc, `consumed, `trace
      ensures Valid() && consumed == old(consumed)
      ensures upstream.s == After(old(upstream.s), steps) && finished == Ended(upstream.s)
      ensures pc == if finished then LastPoll else Poll
      ensures |trace| > |old(trace)| && trace[|trace| - 1] == Php(if finished then CountAlone else CountBusy)
    {
      Background(steps);
      finished := ReadersFinished(upstream.s);
      EndTest(View(), trace);
      Did(View(), if finished then CountAlone else CountBusy);
    }

    method TryReceive(ghost popped: PhpAction, ghost empty: PhpAction) returns (rec: Option<Item>)
      requires Valid()
      requires (pc == Poll && popped == PollPop && empty == PollEmpty) || (pc == LastPoll && popped == LastPop && empty == LastEmpty)
      modifies upstream, `pc, `consumed, `trace
      ensures Valid() && old(trace) <= trace
      ensures rec == if old(upstream.s.queue) == [] then None else Some(old(upstream.s.queue)[0])
      ensures rec.Some? ==> upstream.s == old(upstream.s).(queue := old(upstream.s).queue[1..])
      ensures rec.None? ==> upstream.s == old(upstream.s)
      ensures rec.Some? ==> pc == Idle && consumed == old(consumed) + [rec.value]
      ensures rec.None? ==> pc == (if old(pc) == Poll then CheckActive else Sync) && consumed == old(consumed)
    {
      ghost var before := View();
      rec := upstream.NextRecord();
      ReceiveFrame(before, popped, empty);
      Did(before, if rec.Some? then popped else empty);
    }

    /** `sync_partition_filter_back`: copies the cursor into the filter, once. */
    method SyncPartitionFilterBack(syncUp: bool) returns (ok: bool)
      requires Valid() && pc == Sync && attached
      modifies this, upstream, filter
      ensures Valid() && pc == Idle && attached && consumed == old(consumed)
      ensures ok <==> old(synced) || syncUp
      ensures synced <==> ok
      ensures Ended(upstream.s) && consumed == upstream.s.delivered
      ensures ok && !old(synced) ==>
                |filter.cursor| == |start| &&
                forall part :: 0 <= part < |start| ==>
                  PositionsOf(consumed, part) == Range(start[part], filter.cursor[part])
      ensures old(synced) || !ok ==> filter.cursor == old(filter.cursor)
    {
      ghost var before := View();
      AtEndOf(before);
      if synced {
        Did(before, SyncAgain);
        return true;
      }
      if !syncUp {
        Did(before, SyncFails);
        return false;
      }
      ExtractionNeverBlocks(before);
      var updated := upstream.PartitionFilter();
      Did(before, Extract);
      if updated.Some? {
        before := View();
        CursorIsExact(before);
        filter.cursor := updated.value;
      }
      synced := true;
      Did(before, Write);
      ok := true;
    }

    /** Clears the stream's `active` flag. */
    method Deactivate(ghost call: PhpAction)
      requires Valid() && pc == Idle && attached && call in {CloseCall, DropCall}
      modifies upstream, `pc, `consumed, `trace
      ensures Valid() && pc == (if call == CloseCall then CloseCheck else Dropping) && consumed == old(consumed)
      ensures upstream.s == old(upstream.s).(active := false)
    {
      ghost var before := View();
      upstream.s := upstream.s.(active := false);
      Did(before, call);
    }

    /** `close()`; `steps` is what the tasks do between the flag and the count test. */
    method Close(steps: seq<TaskAction>)
      requires Valid() && pc == Idle
      modifies this, upstream
      ensures Valid() && pc == Idle && consumed == old(consumed) && synced == old(synced)
      ensures !old(attached) ==> upstream.s == old(upstream.s)
      ensures old(attached) ==>
                var left := After(old(upstream.s).(active := false), steps);
                upstream.s == if attached then left else left.(handle := false, drain := true)
      // Bounded, or no task left: the object stays attached and can be drained to null.
      ensures attached <==> old(attached) && (maxRecords > 0 || Ended(upstream.s))
    {
      if !attached {
        return;
      }
      Deactivate(CloseCall);
      Background(steps);
      ghost var before := View();
      EndTest(before, trace);
      if maxRecords == 0 && !ReadersFinished(upstream.s) {
        Detach(CloseDetach);
      } else {
        Did(before, CloseKeep);
      }
    }

    /** `drain_recordset`: the object's only `Arc` moves to the drain task. */
    method DrainRecordset()
      modifies upstream
      ensures upstream.s == old(upstream.s).(handle := false, drain := true)
    {
      upstream.s := upstream.s.(handle := false, drain := true);
    }

    /** The object lets go of the stream and leaves it to the drain task. */
    method Detach(ghost action: PhpAction)
      requires Valid() && attached
      requires (action == CloseDetach && pc == CloseCheck && maxRecords == 0 && !ReadersFinished(upstream.s)) ||
               (action == DropHandOver && pc == Dropping)
      modifies this, upstream
      ensures Valid() && !attached && pc == (if action == CloseDetach then Idle else Gone)
      ensures consumed == old(consumed) && synced == old(synced)
      ensures upstream.s == old(upstream.s).(handle := false, drain := true)
    {
      ghost var before := View();
      attached := false;
      DrainRecordset();
      Did(before, action);
    }

    /** `Drop`: the cursor is never written, so an abandoned page starts over. */
    method Drop(steps: seq<TaskAction>)
      requires Valid() && pc == Idle
      modifies this, upstream
      ensures Valid() && pc == Gone && !attached && consumed == old(consumed) && synced == old(synced)
      ensures upstream.s == if !old(attached) then old(upstream.s)
                            else After(old(upstream.s).(active := false), steps).(handle := false, drain := true)
    {
      ghost var before := View();
      if !attached {
        Did(before, DropDetached);
        return;
      }
      Deactivate(DropCall);
      Background(steps);
      Detach(DropHandOver);
    }
  }
}
