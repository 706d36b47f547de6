/**
 The life of one `Recordset`: background reader tasks fill a bounded queue, the PHP object
 polls it, and a drain task empties it once the object has let go.

 Every atomic step of every participant is an `Action`. A run is any sequence of enabled
 actions, so a statement about all runs is a statement about all interleavings.
*/
module Streaming {
  import opened Wrappers

  /** A record is named by its partition and its position in that partition. */
  datatype Record = Record(partition: nat, index: nat)

  /** What a reader puts on the queue: a record, or the error that `next()` will throw. */
  datatype Item = Found(rec: Record) | Failed(code: int)

  /** For every partition of the filter, the position of the next record to read. */
  type Cursor = seq<nat>

  /**
   Where a reader stands with one record. It takes the tracker lock, blocks in `push().await`
   while the queue is full, and only then records the digest and lets the lock go.
  */
  datatype Phase = Free | Locked(partition: nat) | Pushed(partition: nat)

  /** A reader task and the next record of each partition it streams. */
  datatype Reader = Reader(next: map<nat, nat>, phase: Phase)

  /**
   `aero::Recordset`. `handle`, `driver`, `drain` and every reader hold one `Arc` each.
   `taken` says that the partition filter has been extracted from the tracker; `quota` is the
   policy's `max_records` (0 = unbounded). `delivered` and `discarded` are histories: all that
   was ever pushed, and what the drain task threw away.
  */
  datatype Stream = Stream(
    sizes: seq<nat>, capacity: nat, quota: nat,
    queue: seq<Item>, active: bool,
    tracker: Cursor, taken: bool, lock: Option<nat>,
    readers: map<nat, Reader>, driver: bool, handle: bool, drain: bool,
    panicked: bool,
    delivered: seq<Item>, discarded: seq<Item>)

  /** Program points of the PHP object's methods. */
  datatype Pc =
    | Idle | Poll | CheckActive | CheckCount | LastPoll | Sync | Writing(cursor: Cursor)
    | CloseCheck | Dropping | Gone

  /** The PHP side: `consumed` is the history of what `next()` returned or threw. */
  datatype Object = Object(pc: Pc, synced: bool, consumed: seq<Item>)

  /** One scan: the cursor it started from, the shared stream and the PHP object. */
  datatype Page = Page(start: Cursor, s: Stream, o: Object)

  datatype TaskAction =
    | Spawn(reader: nat, parts: set<nat>)
    | Lock(reader: nat, partition: nat)
    | Push(reader: nat)
    | Digest(reader: nat)
    | PushError(reader: nat, code: int)
    | Exit(reader: nat)
    | Complete
    | DriverExit
    | DrainPop
    | DrainDone
    | DrainGiveUp

  datatype PhpAction =
    | NextCall | NextDetached
    | PollPop | PollEmpty | SeeActive | SeeClosed | CountBusy | CountAlone | LastPop | LastEmpty
    | SyncAgain | SyncFails | ExtractNothing | Extract | Write
    | CloseCall | CloseDetach | CloseKeep
    | DropCall | DropDetached | DropHandOver

  datatype Action = Task(t: TaskAction) | Php(c: PhpAction)

  datatype Outcome = Nothing | Returned(item: Item) | Null | Threw

  // ---------------------------------------------------------------------------------------
  //  Background tasks
  // ---------------------------------------------------------------------------------------

  function AsNat(b: bool): nat {
    if b then 1 else 0
  }

  /** `Arc::strong_count` of the recordset. */
  function StrongCount(s: Stream): nat {
    |s.readers| + AsNat(s.driver) + AsNat(s.handle) + AsNat(s.drain)
  }

  /** `recordset_readers_finished`. */
  predicate ReadersFinished(s: Stream) {
    StrongCount(s) == 1
  }

  /** Reader `r` streams partition `part`. */
  predicate Owns(s: Stream, r: nat, part: nat) {
    r in s.readers && part in s.readers[r].next
  }

  function FoundCount(items: seq<Item>): nat {
    if items == [] then 0 else FoundCount(items[..|items| - 1]) + AsNat(items[|items| - 1].Found?)
  }

  predicate TaskEnabled(s: Stream, a: TaskAction) {
    match a
    case Spawn(r, parts) =>
      && s.driver && r !in s.readers && s.lock == None
      && (forall p <- parts :: p < |s.tracker|)
      && (forall q <- s.readers, p <- parts :: !Owns(s, q, p))
    case Lock(r, p) =>
      && r in s.readers && s.lock == None && p in s.readers[r].next
      && p < |s.sizes| && s.readers[r].next[p] < s.sizes[p]
      && (s.quota == 0 || FoundCount(s.delivered) < s.quota)
    case Push(r) =>
      r in s.readers && s.readers[r].phase.Locked? && |s.queue| < s.capacity
      && s.readers[r].phase.partition in s.readers[r].next
    case Digest(r) =>
      r in s.readers && s.readers[r].phase.Pushed?
      && s.readers[r].phase.partition in s.readers[r].next
      && s.readers[r].phase.partition < |s.tracker|
    case PushError(r, _) => r in s.readers && s.readers[r].phase.Free? && |s.queue| < s.capacity
    case Exit(r) => r in s.readers && s.readers[r].phase.Free?
    case Complete => s.driver
    case DriverExit => s.driver
    case DrainPop => s.drain && s.queue != []
    case DrainDone => s.drain && ReadersFinished(s)
    case DrainGiveUp => s.drain
  }

  function TaskFire(s: Stream, a: TaskAction): Stream
    requires TaskEnabled(s, a)
  {
    match a
    case Spawn(r, parts) =>
      if s.taken then s.(panicked := true)
      else s.(readers := s.readers[r := Reader(map p | p in parts :: s.tracker[p], Free)])
    case Lock(r, p) =>
      s.(readers := s.readers[r := s.readers[r].(phase := Locked(p))], lock := Some(r))
    case Push(r) =>
      var p := s.readers[r].phase.partition;
      var item := Found(Record(p, s.readers[r].next[p]));
      s.(queue := s.queue + [item], delivered := s.delivered + [item],
         readers := s.readers[r := s.readers[r].(phase := Pushed(p))])
    case Digest(r) =>
      // `set_digest` on a tracker whose filter was taken panics inside the task.
      if s.taken then s.(panicked := true)
      else
        var p := s.readers[r].phase.partition;
        var n := s.readers[r].next[p] + 1;
        s.(tracker := s.tracker[p := n], lock := None,
           readers := s.readers[r := Reader(s.readers[r].next[p := n], Free)])
    case PushError(r, code) =>
      s.(queue := s.queue + [Failed(code)], delivered := s.delivered + [Failed(code)])
    case Exit(r) => s.(readers := s.readers - {r})
    case Complete => s.(active := false)
    case DriverExit => s.(active := false, driver := false)
    case DrainPop => s.(queue := s.queue[1..], discarded := s.discarded + [s.queue[0]])
    case DrainDone => s.(drain := false)
    case DrainGiveUp => s.(drain := false)
  }

  // ---------------------------------------------------------------------------------------
  //  The PHP object
  // ---------------------------------------------------------------------------------------

  predicate PhpEnabled(p: Page, a: PhpAction) {
    match a
    case NextCall => p.o.pc == Idle && p.s.handle
    case NextDetached => p.o.pc == Idle && !p.s.handle
    case PollPop => p.o.pc == Poll && p.s.queue != []
    case PollEmpty => p.o.pc == Poll && p.s.queue == []
    case SeeActive => p.o.pc == CheckActive && p.s.active
    case SeeClosed => p.o.pc == CheckActive && !p.s.active
    case CountBusy => p.o.pc == CheckCount && !ReadersFinished(p.s)
    case CountAlone => p.o.pc == CheckCount && ReadersFinished(p.s)
    case LastPop => p.o.pc == LastPoll && p.s.queue != []
    case LastEmpty => p.o.pc == LastPoll && p.s.queue == []
    case SyncAgain => p.o.pc == Sync && p.o.synced
    case SyncFails => p.o.pc == Sync && !p.o.synced
    case ExtractNothing => p.o.pc == Sync && !p.o.synced && p.s.taken && p.s.lock == None
    case Extract => p.o.pc == Sync && !p.o.synced && !p.s.taken && p.s.lock == None
    case Write => p.o.pc.Writing?
    case CloseCall => p.o.pc == Idle && p.s.handle
    case CloseDetach => p.o.pc == CloseCheck && p.s.quota == 0 && !ReadersFinished(p.s)
    case CloseKeep => p.o.pc == CloseCheck && !(p.s.quota == 0 && !ReadersFinished(p.s))
    case DropCall => p.o.pc == Idle && p.s.handle
    case DropDetached => p.o.pc == Idle && !p.s.handle
    case DropHandOver => p.o.pc == Dropping
  }

  /** Pops the queue and hands the record (or its error) to the caller. */
  function Consume(p: Page): Page
    requires p.s.queue != []
  {
    p.(s := p.s.(queue := p.s.queue[1..]),
       o := p.o.(pc := Idle, consumed := p.o.consumed + [p.s.queue[0]]))
  }

  function At(p: Page, pc: Pc): Page {
    p.(o := p.o.(pc := pc))
  }

  function PhpFire(p: Page, a: PhpAction): Page
    requires PhpEnabled(p, a)
  {
    match a
    case NextCall => At(p, Poll)
    case NextDetached => p
    case PollPop => Consume(p)
    case PollEmpty => At(p, CheckActive)
    case SeeActive => At(p, Poll)
    case SeeClosed => At(p, CheckCount)
    case CountBusy => At(p, Poll)
    case CountAlone => At(p, LastPoll)
    case LastPop => Consume(p)
    case LastEmpty => At(p, Sync)
    case SyncAgain => At(p, Idle)
    case SyncFails => At(p, Idle)
    case ExtractNothing => p.(o := p.o.(pc := Idle, synced := true))
    case Extract => At(p.(s := p.s.(taken := true)), Writing(p.s.tracker))
    case Write => p.(o := p.o.(pc := Idle, synced := true))
    case CloseCall => At(p.(s := p.s.(active := false)), CloseCheck)
    case CloseDetach => At(p.(s := p.s.(handle := false, drain := true)), Idle)
    case CloseKeep => At(p, Idle)
    case DropCall => At(p.(s := p.s.(active := false)), Dropping)
    case DropDetached => At(p, Gone)
    case DropHandOver => At(p.(s := p.s.(handle := false, drain := true)), Gone)
  }

  /** What the caller of the running method sees when the action is taken. */
  function OutcomeOf(p: Page, a: Action): Outcome {
    if a.Task? then Nothing
    else match a.c
      case PollPop => if p.s.queue == [] then Nothing else Returned(p.s.queue[0])
      case LastPop => if p.s.queue == [] then Nothing else Returned(p.s.queue[0])
      case NextDetached => Null
      case SyncAgain => Null
      case ExtractNothing => Null
      case Write => Null
      case SyncFails => Threw
      case _ => Nothing
  }

  predicate Enabled(p: Page, a: Action) {
    match a
    case Task(t) => TaskEnabled(p.s, t)
    case Php(c) => PhpEnabled(p, c)
  }

  function Fire(p: Page, a: Action): Page
    requires Enabled(p, a)
  {
    match a
    case Task(t) => p.(s := TaskFire(p.s, t))
    case Php(c) => PhpFire(p, c)
  }

  /** `acts` can be taken one after the other from `p`. */
  predicate Runs(p: Page, acts: seq<Action>)
    decreases |acts|
  {
    acts == [] || (Enabled(p, acts[0]) && Runs(Fire(p, acts[0]), acts[1..]))
  }

  function Run(p: Page, acts: seq<Action>): Page
    requires Runs(p, acts)
    decreases |acts|
  {
    if acts == [] then p else Run(Fire(p, acts[0]), acts[1..])
  }

  /** A page as `Client::scan` hands it out: only the driver task and the PHP object hold it. */
  function Opened(sizes: seq<nat>, capacity: nat, quota: nat, start: Cursor): Page {
    Page(start,
         Stream(sizes, capacity, quota, [], true, start, false, None, map[], true, true, false,
                false, [], []),
         Object(Idle, false, []))
  }

  // ---------------------------------------------------------------------------------------
  //  The invariant
  // ---------------------------------------------------------------------------------------

  /** The positions of `part` that appear in `items`, in order. */
  function PositionsOf(items: seq<Item>, part: nat): seq<nat> {
    if items == [] then []
    else
      var last := items[|items| - 1];
      PositionsOf(items[..|items| - 1], part) +
      (if last.Found? && last.rec.partition == part then [last.rec.index] else [])
  }

  function Range(lo: nat, hi: nat): seq<nat>
    ensures |Range(lo, hi)| == if lo <= hi then hi - lo else 0
    ensures forall i :: 0 <= i < |Range(lo, hi)| ==> Range(lo, hi)[i] == lo + i
  {
    if lo <= hi then seq(hi - lo, i => lo + i) else []
  }

  /** Nothing can push another record or touch the tracker again. */
  predicate Quiet(s: Stream) {
    s.readers == map[] && !s.driver && !s.drain
  }

  /** A record of `part` has been pushed and its digest is not recorded yet. */
  predicate Ahead(s: Stream, part: nat) {
    match s.lock
    case None => false
    case Some(r) => r in s.readers && s.readers[r].phase == Pushed(part)
  }

  predicate Busy(s: Stream, r: nat) {
    r in s.readers && !s.readers[r].phase.Free?
  }

  /** A reader stands where the tracker says in each of its partitions. */
  ghost predicate InStep(s: Stream) {
    forall r: nat, p: nat :: Owns(s, r, p) ==> p < |s.tracker| && s.readers[r].next[p] == s.tracker[p]
  }

  ghost predicate Disjoint(s: Stream) {
    forall q: nat, r: nat, p: nat :: Owns(s, q, p) && Owns(s, r, p) ==> q == r
  }

  /** Exactly the reader in the middle of a record holds the tracker lock. */
  ghost predicate LockOk(s: Stream) {
    && (forall r: nat :: Busy(s, r) ==> s.lock == Some(r) && s.readers[r].phase.partition in s.readers[r].next)
    && (s.lock.Some? ==> Busy(s, s.lock.value))
  }

  /** The readers own disjoint partitions, stand where the tracker says, and share one lock. */
  ghost predicate ReadersOk(s: Stream) {
    InStep(s) && Disjoint(s) && LockOk(s)
  }

  /** Per partition, what was pushed is exactly the stretch from the start to the tracker. */
  ghost predicate TrackerOk(p: Page) {
    && |p.s.tracker| == |p.start|
    && forall part :: 0 <= part < |p.start| ==>
         && p.start[part] <= p.s.tracker[part]
         && PositionsOf(p.s.delivered, part) == Range(p.start[part], p.s.tracker[part] + AsNat(Ahead(p.s, part)))
  }

  /** Every item pushed was consumed, was thrown away by the drain task, or is queued. */
  predicate LedgerOk(p: Page) {
    && p.s.delivered == p.o.consumed + p.s.discarded + p.s.queue
    && (p.s.discarded != [] ==> !p.s.handle)
  }

  /** Which program points imply that the stream has ended, and when the filter was taken. */
  predicate EndOk(p: Page) {
    && (p.s.taken <==> p.o.synced || p.o.pc.Writing?)
    && ((p.o.pc.LastPoll? || p.o.pc.Sync?) || p.o.pc.Writing? || p.s.taken ==>
          p.s.readers == map[] && !p.s.driver && !p.s.active)
    && (p.o.pc == Sync || p.s.taken ==> p.s.queue == [])
    && (p.o.pc.Writing? ==> p.o.pc.cursor == p.s.tracker && !p.o.synced)
    && (!(p.o.pc.Idle? || p.o.pc.Gone?) ==> p.s.handle) && (p.o.pc.Gone? ==> !p.s.handle)
    && ((p.o.pc.CloseCheck? || p.o.pc.Dropping? || p.o.pc.CheckCount?) ==> !p.s.active)
    && !(p.s.handle && p.s.drain)
    && !p.s.panicked
  }

  ghost predicate Inv(p: Page) {
    ReadersOk(p.s) && TrackerOk(p) && LedgerOk(p) && EndOk(p)
  }

  lemma OpenedInv(sizes: seq<nat>, capacity: nat, quota: nat, start: Cursor)
    ensures Inv(Opened(sizes, capacity, quota, start))
  {}

  lemma PositionsAppend(items: seq<Item>, item: Item, part: nat)
    ensures PositionsOf(items + [item], part)
         == PositionsOf(items, part) + (if item.Found? && item.rec.partition == part then [item.rec.index] else [])
  {}

  /** A strong count of one, held by the PHP object, rules out readers, driver and drain. */
  lemma CountIsExact(s: Stream)
    requires s.handle
    ensures ReadersFinished(s) <==> Quiet(s)
  {}

  lemma SameReaders(s: Stream, s': Stream)
    requires ReadersOk(s)
    requires s'.readers == s.readers && s'.tracker == s.tracker && s'.lock == s.lock
    ensures ReadersOk(s')
    ensures forall part: nat :: Ahead(s', part) == Ahead(s, part)
  {
    forall r: nat, p: nat | Owns(s', r, p) ensures Owns(s, r, p) {}
    forall r: nat | Busy(s', r) ensures Busy(s, r) {}
  }

  lemma SpawnKeepsReaders(s: Stream, r: nat, parts: set<nat>)
    requires ReadersOk(s) && TaskEnabled(s, Spawn(r, parts))
    ensures ReadersOk(TaskFire(s, Spawn(r, parts)))
  {
    var s' := TaskFire(s, Spawn(r, parts));
    if s.taken {
      SameReaders(s, s');
    } else {
      forall q: nat, p: nat | Owns(s', q, p) ensures if q == r then p in parts else Owns(s, q, p) {}
      forall q: nat, k: nat, p: nat | Owns(s', q, p) && Owns(s', k, p) ensures q == k {
        assert q != r ==> Owns(s, q, p);
        assert k != r ==> Owns(s, k, p);
      }
      forall q: nat | Busy(s', q) ensures Busy(s, q) {}
    }
  }

  lemma DigestKeepsReaders(s: Stream, r: nat)
    requires ReadersOk(s) && TaskEnabled(s, Digest(r))
    ensures ReadersOk(TaskFire(s, Digest(r)))
  {
    var s' := TaskFire(s, Digest(r));
    var part := s.readers[r].phase.partition;
    assert Busy(s, r) && Owns(s, r, part);
    forall q: nat, p: nat | Owns(s', q, p)
      ensures Owns(s, q, p) && p < |s'.tracker| && s'.readers[q].next[p] == s'.tracker[p]
    {
      assert Owns(s, q, p);
      if p == part {
        assert q == r;
      }
    }
    forall q: nat | Busy(s', q) ensures s'.taken || false {
      assert Busy(s, q);
    }
  }

  lemma TaskKeepsReaders(s: Stream, a: TaskAction)
    requires ReadersOk(s) && TaskEnabled(s, a)
    ensures ReadersOk(TaskFire(s, a))
  {
    var s' := TaskFire(s, a);
    match a {
      case Spawn(r, parts) => SpawnKeepsReaders(s, r, parts);
      case Digest(r) => DigestKeepsReaders(s, r);
      case _ =>
        forall q: nat, p: nat | Owns(s', q, p) ensures Owns(s, q, p) {}
    }
  }

  /** Per partition, what is delivered reaches as far as the tracker and the record in progress. */
  ghost predicate PartOk(p: Page, s': Stream, part: nat)
    requires part < |p.start|
  {
    && |s'.tracker| == |p.start| && p.start[part] <= s'.tracker[part]
    && PositionsOf(s'.delivered, part) == Range(p.start[part], s'.tracker[part] + AsNat(Ahead(s', part)))
  }

  /** Nothing is delivered, the tracker stands still, and nobody gets ahead or falls back. */
  lemma SameDelivered(p: Page, s': Stream, part: nat)
    requires TrackerOk(p) && part < |p.start|
    requires s'.delivered == p.s.delivered && s'.tracker == p.s.tracker && Ahead(s', part) == Ahead(p.s, part)
    ensures PartOk(p, s', part)
  {}

  lemma PushKeepsTracker(p: Page, r: nat, part: nat)
    requires Inv(p) && TaskEnabled(p.s, Push(r)) && part < |p.start|
    ensures PartOk(p, TaskFire(p.s, Push(r)), part)
  {
    PushFrame(p.s, r, part);
    OneMoreDelivered(p, TaskFire(p.s, Push(r)), p.s.readers[r].phase.partition, part);
  }

  /** The record at which the tracker stands is delivered, and its partition gets ahead. */
  lemma OneMoreDelivered(p: Page, s': Stream, q: nat, part: nat)
    requires TrackerOk(p) && part < |p.start| && q < |p.start| && s'.tracker == p.s.tracker
    requires s'.delivered == p.s.delivered + [Found(Record(q, p.s.tracker[q]))]
    requires !Ahead(p.s, part) && Ahead(s', part) == (part == q)
    ensures PartOk(p, s', part)
  {
    PositionsAppend(p.s.delivered, Found(Record(q, p.s.tracker[q])), part);
    RangeGrows(p.start[part], p.s.tracker[part]);
  }

  lemma RangeGrows(lo: nat, hi: nat)
    requires lo <= hi
    ensures Range(lo, hi) + [hi] == Range(lo, hi + 1)
  {}

  /** A push delivers the record at which the tracker stands, and puts its partition ahead. */
  lemma PushFrame(s: Stream, r: nat, part: nat)
    requires ReadersOk(s) && TaskEnabled(s, Push(r))
    ensures var q, s' := s.readers[r].phase.partition, TaskFire(s, Push(r));
      && q < |s.tracker| && s'.tracker == s.tracker && s'.delivered == s.delivered + [Found(Record(q, s.tracker[q]))]
      && !Ahead(s, part) && Ahead(s', part) == (part == q)
  {
    assert Busy(s, r) && Owns(s, r, s.readers[r].phase.partition);
  }

  lemma DigestKeepsTracker(p: Page, r: nat, part: nat)
    requires Inv(p) && TaskEnabled(p.s, Digest(r)) && part < |p.start|
    ensures PartOk(p, TaskFire(p.s, Digest(r)), part)
  {
    assert Busy(p.s, r) && Owns(p.s, r, p.s.readers[r].phase.partition);
  }

  lemma SpawnKeepsTracker(p: Page, r: nat, parts: set<nat>, part: nat)
    requires Inv(p) && TaskEnabled(p.s, Spawn(r, parts)) && part < |p.start|
    ensures PartOk(p, TaskFire(p.s, Spawn(r, parts)), part)
  {
    SameDelivered(p, TaskFire(p.s, Spawn(r, parts)), part);
  }

  lemma LockKeepsTracker(p: Page, r: nat, q: nat, part: nat)
    requires Inv(p) && TaskEnabled(p.s, Lock(r, q)) && part < |p.start|
    ensures PartOk(p, TaskFire(p.s, Lock(r, q)), part)
  {
    assert !Ahead(TaskFire(p.s, Lock(r, q)), part) && !Ahead(p.s, part);
    SameDelivered(p, TaskFire(p.s, Lock(r, q)), part);
  }

  lemma ErrorKeepsTracker(p: Page, r: nat, code: int, part: nat)
    requires Inv(p) && TaskEnabled(p.s, PushError(r, code)) && part < |p.start|
    ensures PartOk(p, TaskFire(p.s, PushError(r, code)), part)
  {
    PositionsAppend(p.s.delivered, Failed(code), part);
    assert Ahead(TaskFire(p.s, PushError(r, code)), part) == Ahead(p.s, part);
  }

  lemma ExitKeepsTracker(p: Page, r: nat, part: nat)
    requires Inv(p) && TaskEnabled(p.s, Exit(r)) && part < |p.start|
    ensures PartOk(p, TaskFire(p.s, Exit(r)), part)
  {
    assert p.s.lock.Some? ==> Busy(p.s, p.s.lock.value);
    SameDelivered(p, TaskFire(p.s, Exit(r)), part);
  }

  lemma TaskKeepsPart(p: Page, a: TaskAction, part: nat)
    requires Inv(p) && TaskEnabled(p.s, a) && part < |p.start|
    ensures PartOk(p, TaskFire(p.s, a), part)
  {
    match a {
      case Push(r) => PushKeepsTracker(p, r, part);
      case Digest(r) => DigestKeepsTracker(p, r, part);
      case PushError(r, code) => ErrorKeepsTracker(p, r, code, part);
      case Spawn(r, parts) => SpawnKeepsTracker(p, r, parts, part);
      case Lock(r, q) => LockKeepsTracker(p, r, q, part);
      case Exit(r) => ExitKeepsTracker(p, r, part);
      case _ => SameDelivered(p, TaskFire(p.s, a), part);
    }
  }

  lemma TaskKeepsTracker(p: Page, a: TaskAction)
    requires Inv(p) && TaskEnabled(p.s, a)
    ensures TrackerOk(p.(s := TaskFire(p.s, a)))
  {
    TaskLeavesFilter(p.s, a);
    forall part: nat | part < |p.start| ensures PartOk(p, TaskFire(p.s, a), part) {
      TaskKeepsPart(p, a, part);
    }
    PartsMakeTracker(p, TaskFire(p.s, a));
  }

  lemma PartsMakeTracker(p: Page, s': Stream)
    requires |s'.tracker| == |p.start| && forall part: nat :: part < |p.start| ==> PartOk(p, s', part)
    ensures TrackerOk(p.(s := s'))
  {
    forall part | 0 <= part < |p.start|
      ensures p.start[part] <= s'.tracker[part]
      ensures PositionsOf(s'.delivered, part) == Range(p.start[part], s'.tracker[part] + AsNat(Ahead(s', part)))
    {
      assert PartOk(p, s', part);
    }
  }

  /** No task takes the filter, and none but a reader that records a digest moves the tracker. */
  lemma TaskLeavesFilter(s: Stream, a: TaskAction)
    requires TaskEnabled(s, a)
    ensures TaskFire(s, a).taken == s.taken && |TaskFire(s, a).tracker| == |s.tracker|
  {
    match a
    case Spawn(_, _) =>
    case Lock(_, _) =>
    case Push(_) =>
    case Digest(_) =>
    case PushError(_, _) =>
    case Exit(_) =>
    case Complete =>
    case DriverExit =>
    case DrainPop =>
    case DrainDone =>
    case DrainGiveUp =>
  }

  lemma TaskKeepsLedger(p: Page, a: TaskAction)
    requires Inv(p) && TaskEnabled(p.s, a)
    ensures LedgerOk(p.(s := TaskFire(p.s, a)))
  {}

  lemma TaskKeepsEnd(p: Page, a: TaskAction)
    requires Inv(p) && TaskEnabled(p.s, a)
    ensures EndOk(p.(s := TaskFire(p.s, a)))
  {}

  /** `next()` up to the end of the stream. */
  predicate Polls(a: PhpAction) {
    || a.NextCall? || a.NextDetached? || a.PollPop? || a.PollEmpty? || a.SeeActive? || a.SeeClosed?
    || a.CountBusy? || a.CountAlone? || a.LastPop? || a.LastEmpty?
  }

  /** Readers, tracker, lock and history of the stream are left alone. */
  predicate SameTasks(s: Stream, s': Stream) {
    && s'.readers == s.readers && s'.driver == s.driver && s'.tracker == s.tracker && s'.lock == s.lock
    && s'.delivered == s.delivered && s'.discarded == s.discarded
  }

  lemma PollsLeaveTasks(p: Page, a: PhpAction)
    requires PhpEnabled(p, a) && Polls(a)
    ensures SameTasks(p.s, PhpFire(p, a).s) && PhpFire(p, a).start == p.start
  {}

  lemma OthersLeaveTasks(p: Page, a: PhpAction)
    requires PhpEnabled(p, a) && !Polls(a)
    ensures SameTasks(p.s, PhpFire(p, a).s) && PhpFire(p, a).start == p.start
  {}

  /** The object's steps are no business of the tasks. */
  lemma PhpLeavesTasks(p: Page, a: PhpAction)
    requires PhpEnabled(p, a)
    ensures SameTasks(p.s, PhpFire(p, a).s) && PhpFire(p, a).start == p.start
  {
    if Polls(a) {
      PollsLeaveTasks(p, a);
    } else {
      OthersLeaveTasks(p, a);
    }
  }

  lemma PhpKeepsTracker(p: Page, a: PhpAction)
    requires Inv(p) && PhpEnabled(p, a)
    ensures ReadersOk(PhpFire(p, a).s) && TrackerOk(PhpFire(p, a))
  {
    PhpLeavesTasks(p, a);
    SameReaders(p.s, PhpFire(p, a).s);
    forall part | 0 <= part < |p.start| ensures PartOk(p, PhpFire(p, a).s, part) {
      SameDelivered(p, PhpFire(p, a).s, part);
    }
  }

  lemma PhpKeepsLedger(p: Page, a: PhpAction)
    requires Inv(p) && PhpEnabled(p, a)
    ensures LedgerOk(PhpFire(p, a))
  {}

  lemma PollsKeepEnd(p: Page, a: PhpAction)
    requires EndOk(p) && PhpEnabled(p, a) && Polls(a)
    ensures EndOk(PhpFire(p, a))
  {
    if p.s.handle { CountIsExact(p.s); }
  }

  /** The write-back, `close()` and the destructor. */
  lemma OthersKeepEnd(p: Page, a: PhpAction)
    requires EndOk(p) && PhpEnabled(p, a) && !Polls(a)
    ensures EndOk(PhpFire(p, a))
  {
    if p.s.handle { CountIsExact(p.s); }
  }

  lemma PhpKeeps(p: Page, a: PhpAction)
    requires Inv(p) && PhpEnabled(p, a)
    ensures Inv(PhpFire(p, a))
  {
    PhpKeepsTracker(p, a);
    PhpKeepsLedger(p, a);
    if Polls(a) {
      PollsKeepEnd(p, a);
    } else {
      OthersKeepEnd(p, a);
    }
  }

  lemma StepKeeps(p: Page, a: Action)
    requires Inv(p) && Enabled(p, a)
    ensures Inv(Fire(p, a))
  {
    match a {
      case Task(t) =>
        TaskKeepsReaders(p.s, t);
        TaskKeepsTracker(p, t);
        TaskKeepsLedger(p, t);
        TaskKeepsEnd(p, t);
      case Php(c) => PhpKeeps(p, c);
    }
  }

  lemma {:induction false} RunKeeps(p: Page, acts: seq<Action>)
    requires Inv(p) && Runs(p, acts)
    ensures Inv(Run(p, acts))
    decreases |acts|
  {
    if acts == [] {
    } else {
      StepKeeps(p, acts[0]);
      RunKeeps(Fire(p, acts[0]), acts[1..]);
    }
  }

  // ---------------------------------------------------------------------------------------
  //  What holds in every run
  // ---------------------------------------------------------------------------------------

  /** `p` is reached from `origin` by the actions of `trace`. */
  ghost predicate Reached(origin: Page, trace: seq<Action>, p: Page) {
    Runs(origin, trace) && Run(origin, trace) == p
  }

  lemma {:induction false} RunSnoc(p: Page, acts: seq<Action>, a: Action)
    requires Runs(p, acts) && Enabled(Run(p, acts), a)
    ensures Runs(p, acts + [a]) && Run(p, acts + [a]) == Fire(Run(p, acts), a)
    decreases |acts|
  {
    if acts == [] {
      assert acts + [a] == [a] && [a][1..] == [];
      assert Runs(Fire(p, a), []) && Run(Fire(p, a), []) == Fire(p, a);
    } else {
      RunSnoc(Fire(p, acts[0]), acts[1..], a);
      assert (acts + [a])[1..] == acts[1..] + [a];
    }
  }

  lemma ReachedStep(origin: Page, trace: seq<Action>, p: Page, a: Action)
    requires Reached(origin, trace, p) && Enabled(p, a)
    ensures Reached(origin, trace + [a], Fire(p, a))
  {
    RunSnoc(origin, trace, a);
  }

  /** The state in which the scan of `p` was opened. */
  function Origin(p: Page): Page {
    Opened(p.s.sizes, p.s.capacity, p.s.quota, p.start)
  }

  /** `p` is a state of some scan, under some interleaving of all its participants. */
  ghost predicate Reachable(p: Page) {
    exists trace :: Reached(Origin(p), trace, p)
  }

  lemma ReachableInv(p: Page)
    requires Reachable(p)
    ensures Inv(p)
  {
    var trace :| Reached(Origin(p), trace, p);
    OpenedInv(p.s.sizes, p.s.capacity, p.s.quota, p.start);
    RunKeeps(Origin(p), trace);
  }

  /** No item is lost or invented: while the object is attached, consumed ++ queue == delivered. */
  lemma Conservation(p: Page)
    requires Reachable(p)
    ensures p.s.delivered == p.o.consumed + p.s.discarded + p.s.queue
    ensures p.s.handle ==> p.s.delivered == p.o.consumed + p.s.queue
  {
    ReachableInv(p);
    assert p.s.handle ==> p.o.consumed + [] + p.s.queue == p.o.consumed + p.s.queue;
  }

  /** The count test is exact for the PHP object and for the drain task. */
  lemma CountTestIsExact(p: Page)
    requires Reachable(p)
    ensures p.s.handle ==> (ReadersFinished(p.s) <==> p.s.readers == map[] && !p.s.driver)
    ensures p.s.drain ==> (ReadersFinished(p.s) <==> p.s.readers == map[] && !p.s.driver)
  {
    ReachableInv(p);
  }

  /** No task ever runs into the taken filter, and nobody extracts it under a live task. */
  lemma NoTaskPanics(p: Page)
    requires Reachable(p)
    ensures !p.s.panicked
    ensures p.s.taken ==> p.s.readers == map[] && !p.s.driver
  {
    ReachableInv(p);
  }

  /**
   What the caller sees is what the step does: an item exactly when one is taken off the queue, an
   exception exactly when a call ends at the sync point without having synced, and null exactly
   when it ends there synced, or on a detached object.
  */
  lemma OutcomeIsTheEffect(p: Page, c: PhpAction)
    requires PhpEnabled(p, c)
    ensures var r, p' := OutcomeOf(p, Php(c)), PhpFire(p, c);
      && (r.Returned? <==> p'.o.consumed != p.o.consumed)
      && (r.Returned? ==> p'.o.consumed == p.o.consumed + [r.item] && [r.item] + p'.s.queue == p.s.queue)
      && (r == Threw <==> p.o.pc == Sync && p'.o.pc == Idle && !p'.o.synced)
      && (r == Null <==> c == NextDetached || ((p.o.pc == Sync || p.o.pc.Writing?) && p'.o.pc == Idle && p'.o.synced))
  {}

  /**
   Once the object has seen the end, extracting the cursor cannot block on the tracker lock,
   and the "already handed out" answer of the crate never occurs.
  */
  lemma ExtractionNeverBlocks(p: Page)
    requires Reachable(p) && p.o.pc == Sync
    ensures p.s.lock == None
    ensures !p.o.synced ==> Enabled(p, Php(Extract)) && !Enabled(p, Php(ExtractNothing))
  {
    ReachableInv(p);
    assert p.s.lock.Some? ==> Busy(p.s, p.s.lock.value);
  }

  predicate Ended(s: Stream) {
    s.readers == map[] && !s.driver
  }

  lemma EndedStep(p: Page, a: Action)
    requires Ended(p.s) && Enabled(p, a)
    ensures var q := Fire(p, a); Ended(q.s) && q.s.delivered == p.s.delivered && q.s.tracker == p.s.tracker
  {
    match a
    case Task(t) => EndedTask(p.s, t);
    case Php(c) => PhpLeavesTasks(p, c);
  }

  /** Once readers and driver are gone, only the drain task is left. */
  lemma EndedTask(s: Stream, t: TaskAction)
    requires Ended(s) && TaskEnabled(s, t)
    ensures t.DrainPop? || t.DrainDone? || t.DrainGiveUp?
    ensures Ended(TaskFire(s, t)) && TaskFire(s, t).delivered == s.delivered && TaskFire(s, t).tracker == s.tracker
  {}

  /** After the last task has gone nothing is delivered and the tracker stands still. */
  lemma {:induction false} EndedStays(p: Page, acts: seq<Action>)
    requires Ended(p.s) && Runs(p, acts)
    ensures var q := Run(p, acts);
            Ended(q.s) && q.s.delivered == p.s.delivered && q.s.tracker == p.s.tracker
    decreases |acts|
  {
    if acts == [] {
    } else {
      EndedStep(p, acts[0]);
      EndedStays(Fire(p, acts[0]), acts[1..]);
    }
  }

  /**
   `next()` on an attached recordset answers null only when no task is left and the caller
   has received everything that was ever delivered, now and in every continuation.
  */
  lemma NullMeansEverythingReceived(p: Page, a: Action, later: seq<Action>)
    requires Reachable(p) && Enabled(p, a) && OutcomeOf(p, a) == Null && p.s.handle
    requires Runs(Fire(p, a), later)
    ensures Ended(p.s) && p.o.consumed == p.s.delivered
    ensures Run(Fire(p, a), later).s.delivered == p.o.consumed
  {
    ReachableInv(p);
    Conservation(p);
    EndedStays(Fire(p, a), later);
  }

  /** What is written back into the filter is exactly the consumed position, per partition. */
  lemma WriteIsExact(p: Page, part: nat)
    requires Reachable(p) && Enabled(p, Php(Write)) && part < |p.start|
    ensures |p.o.pc.cursor| == |p.start| && p.start[part] <= p.o.pc.cursor[part]
    ensures PositionsOf(p.o.consumed, part) == Range(p.start[part], p.o.pc.cursor[part])
  {
    ReachableInv(p);
    Conservation(p);
    assert !Ahead(p.s, part);
    assert p.o.consumed + p.s.queue == p.o.consumed;
  }

  /** `sync_partition_filter_back` asks the crate for the partition filter. */
  predicate AsksForFilter(a: Action) {
    a == Php(Extract) || a == Php(ExtractNothing)
  }

  /** How often a run asks for the partition filter. */
  function Attempts(acts: seq<Action>): nat {
    if acts == [] then 0 else AsNat(AsksForFilter(acts[0])) + Attempts(acts[1..])
  }

  /** Whenever the run asks for the filter, the stream has ended. */
  predicate AsksAtTheEnd(p: Page, acts: seq<Action>)
    requires Runs(p, acts)
    decreases |acts|
  {
    acts == [] || ((AsksForFilter(acts[0]) ==> Ended(p.s)) && AsksAtTheEnd(Fire(p, acts[0]), acts[1..]))
  }

  lemma OneAttempt(p: Page, a: Action)
    requires Inv(p) && Enabled(p, a) && AsksForFilter(a)
    ensures Ended(p.s) && !p.s.taken && Fire(p, a).s.taken
  {}

  lemma TakenStays(p: Page, a: Action)
    requires Enabled(p, a) && p.s.taken
    ensures Fire(p, a).s.taken
  {
    match a
    case Task(t) => TaskLeavesFilter(p.s, t);
    case Php(c) => PhpKeepsTaken(p, c);
  }

  lemma PhpKeepsTaken(p: Page, c: PhpAction)
    requires PhpEnabled(p, c) && p.s.taken
    ensures PhpFire(p, c).s.taken
  {}

  lemma {:induction false} AttemptsFrom(p: Page, acts: seq<Action>)
    requires Inv(p) && Runs(p, acts)
    ensures Attempts(acts) + AsNat(p.s.taken) <= 1 && AsksAtTheEnd(p, acts)
    decreases |acts|
  {
    if acts == [] {
    } else {
      var a := acts[0];
      StepKeeps(p, a);
      AttemptsFrom(Fire(p, a), acts[1..]);
      if AsksForFilter(a) {
        OneAttempt(p, a);
      } else if p.s.taken {
        TakenStays(p, a);
      }
    }
  }

  /**
   In the whole life of a recordset the filter is asked for at most once, successful or not, and
   only after the stream has ended: the synced mark stops every second attempt.
  */
  lemma AskedAtMostOnce(p: Page, acts: seq<Action>)
    requires Reachable(p) && Runs(p, acts)
    ensures Attempts(acts) + AsNat(p.s.taken) <= 1 && AsksAtTheEnd(p, acts)
  {
    ReachableInv(p);
    AttemptsFrom(p, acts);
  }

  /**
   `close()` on an unbounded stream with a task still running detaches the object. From then
   on the only thing it can do is answer null or be dropped: it consumes nothing more, never
   extracts the cursor and never writes the filter.
  */
  lemma {:induction false} DetachedForever(p: Page, acts: seq<Action>)
    requires !p.s.handle && (p.o.pc.Idle? || p.o.pc.Gone?) && Runs(p, acts)
    ensures forall a <- acts :: a.Task? || a.c in {NextDetached, DropDetached}
    ensures !Run(p, acts).s.handle && Run(p, acts).o.consumed == p.o.consumed
    decreases |acts|
  {
    if acts == [] {
    } else {
      DetachedForever(Fire(p, acts[0]), acts[1..]);
      assert acts == [acts[0]] + acts[1..];
    }
  }

  lemma CloseEndsUnbounded(p: Page, later: seq<Action>)
    requires Reachable(p) && p.o.pc == CloseCheck && p.s.quota == 0 && !Ended(p.s)
    ensures Enabled(p, Php(CloseDetach)) && !Enabled(p, Php(CloseKeep))
    ensures Runs(Fire(p, Php(CloseDetach)), later) ==>
              Php(Write) !in later && Php(Extract) !in later &&
              Run(Fire(p, Php(CloseDetach)), later).o.consumed == p.o.consumed
  {
    UnboundedDetaches(p);
    var q := Fire(p, Php(CloseDetach));
    if Runs(q, later) {
      DetachedForever(q, later);
    }
  }

  lemma UnboundedDetaches(p: Page)
    requires Reachable(p) && p.o.pc == CloseCheck && p.s.quota == 0 && !Ended(p.s)
    ensures Enabled(p, Php(CloseDetach)) && !Enabled(p, Php(CloseKeep))
    ensures var q := Fire(p, Php(CloseDetach)); q.o.pc == Idle && !q.s.handle && q.o.consumed == p.o.consumed
  {
    ReachableInv(p);
    CountTestIsExact(p);
  }

  /** A bounded stream stays attached across `close()`, so it can still be drained to null. */
  lemma CloseKeepsBounded(p: Page)
    requires Reachable(p) && p.o.pc == CloseCheck && (p.s.quota > 0 || Ended(p.s))
    ensures Enabled(p, Php(CloseKeep)) && !Enabled(p, Php(CloseDetach))
    ensures Fire(p, Php(CloseKeep)).s.handle
  {
    ReachableInv(p);
    CountTestIsExact(p);
  }

  /** A reader holds the lock for a record that it has not pushed yet. */
  predicate Claimed(s: Stream) {
    s.lock.Some? && s.lock.value in s.readers && s.readers[s.lock.value].phase.Locked?
  }

  /** The lock admits one reader at a time past the quota test, so a page never exceeds it. */
  ghost predicate QuotaOk(s: Stream) {
    s.quota > 0 ==> FoundCount(s.delivered) + AsNat(Claimed(s)) <= s.quota
  }

  lemma QuotaTask(s: Stream, a: TaskAction)
    requires ReadersOk(s) && QuotaOk(s) && TaskEnabled(s, a)
    ensures QuotaOk(TaskFire(s, a))
  {}

  lemma QuotaStep(p: Page, a: Action)
    requires Inv(p) && QuotaOk(p.s) && Enabled(p, a)
    ensures QuotaOk(Fire(p, a).s)
  {
    if a.Task? {
      QuotaTask(p.s, a.t);
    }
  }

  lemma {:induction false} QuotaRun(p: Page, acts: seq<Action>)
    requires Inv(p) && QuotaOk(p.s) && Runs(p, acts)
    ensures QuotaOk(Run(p, acts).s)
    decreases |acts|
  {
    if acts == [] {
    } else {
      StepKeeps(p, acts[0]);
      QuotaStep(p, acts[0]);
      QuotaRun(Fire(p, acts[0]), acts[1..]);
    }
  }

  lemma {:induction false} FoundCountPrefix(xs: seq<Item>, ys: seq<Item>)
    ensures FoundCount(xs) <= FoundCount(xs + ys)
    decreases |ys|
  {
    if ys == [] {
      assert xs + ys == xs;
    } else {
      FoundCountPrefix(xs, ys[..|ys| - 1]);
      assert (xs + ys)[..|xs + ys| - 1] == xs + ys[..|ys| - 1];
    }
  }

  /** A bounded page returns at most `max_records` records, closed early or not. */
  lemma PageWithinQuota(p: Page)
    requires Reachable(p) && p.s.quota > 0
    ensures FoundCount(p.o.consumed) <= p.s.quota
  {
    var trace :| Reached(Origin(p), trace, p);
    OpenedInv(p.s.sizes, p.s.capacity, p.s.quota, p.start);
    QuotaRun(Origin(p), trace);
    Conservation(p);
    assert p.s.delivered == p.o.consumed + (p.s.discarded + p.s.queue);
    FoundCountPrefix(p.o.consumed, p.s.discarded + p.s.queue);
  }

  lemma Take(origin: Page, trace: seq<Action>, p: Page, a: Action) returns (trace': seq<Action>, p': Page)
    requires Reached(origin, trace, p) && Enabled(p, a)
    ensures p' == Fire(p, a) && trace' == trace + [a] && Reached(origin, trace', p')
  {
    ReachedStep(origin, trace, p, a);
    trace', p' := trace + [a], Fire(p, a);
  }

  /** A one-record scan whose reader holds the lock while `next()` is about to count. */
  const LASTING: Page :=
    Page([0],
         Stream([1], 1, 0, [], false, [0], false, Some(0),
                map[0 := Reader(map[0 := 0], Locked(0))], true, true, false, false, [], []),
         Object(CheckCount, false, []))

  lemma LastingReached() returns (trace: seq<Action>)
    ensures Reached(Opened([1], 1, 0, [0]), trace, LASTING)
  {
    var origin := Opened([1], 1, 0, [0]);
    var q;
    trace, q := Take(origin, [], origin, Task(Spawn(0, {0})));
    assert q.s.readers[0].next == map[0 := 0];
    trace, q := Take(origin, trace, q, Php(NextCall));
    trace, q := Take(origin, trace, q, Php(PollEmpty));
    trace, q := Take(origin, trace, q, Task(Complete));
    trace, q := Take(origin, trace, q, Php(SeeClosed));
    trace, q := Take(origin, trace, q, Task(Lock(0, 0)));
    assert q.s.readers == LASTING.s.readers;
  }

  /**
   Why `next()` polls once more after the count test: a reader may push its last record and
   leave between the first poll and the count, so the queue can be non-empty at that point.
  */
  lemma LastPollCanFindARecord() returns (p: Page)
    ensures Reachable(p) && p.o.pc == LastPoll && p.s.queue != []
  {
    var trace := LastingReached();
    var origin := Opened([1], 1, 0, [0]);
    trace, p := Take(origin, trace, LASTING, Task(Push(0)));
    trace, p := Take(origin, trace, p, Task(Digest(0)));
    trace, p := Take(origin, trace, p, Task(Exit(0)));
    assert p.s.readers == map[];
    trace, p := Take(origin, trace, p, Task(DriverExit));
    trace, p := Take(origin, trace, p, Php(CountAlone));
    assert Origin(p) == origin;
  }
}
