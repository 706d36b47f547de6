/**
 Why a detached stream needs its drain task. A reader that finds the queue full waits in
 `push().await` with the tracker lock in its hands, and every other reader waits for that lock.
*/
module StreamProgress {
  import opened Streaming
  import opened Wrappers

  // ---------------------------------------------------------------------------------------
  //  Somebody can move
  // ---------------------------------------------------------------------------------------

  /** Steps of tasks that finish what they are at, and the pops that make room for them. */
  predicate WindsDown(a: Action) {
    match a
    case Task(t) => t.Push? || t.Digest? || t.Exit? || t.DriverExit? || t.DrainPop?
    case Php(c) => c.PollPop?
  }

  /** What the holder of the tracker lock has left to do with its record. */
  function LockWeight(s: Stream): nat {
    match s.lock
    case None => 0
    case Some(r) => if r in s.readers then PhaseWeight(s.readers[r].phase) else 0
  }

  function PhaseWeight(phase: Phase): nat {
    match phase
    case Free => 0
    case Locked(_) => 3
    case Pushed(_) => 1
  }

  /** Tasks to end, the record in progress, and queued items. */
  function Burden(s: Stream): nat {
    |s.readers| + AsNat(s.driver) + LockWeight(s) + |s.queue|
  }

  /** Such a step lowers the burden, whoever takes it. */
  lemma WindingDownLightens(p: Page, a: Action)
    requires Inv(p) && Enabled(p, a) && WindsDown(a)
    ensures Burden(Fire(p, a).s) < Burden(p.s)
  {
    match a {
      case Task(t) =>
        if !t.DrainPop? {
          TasksAreThere(p, t);
          TaskLightens(p.s, t);
        }
      case Php(_) =>
    }
  }

  /** A task that winds down is there to do so, so the filter has not been taken. */
  lemma TasksAreThere(p: Page, t: TaskAction)
    requires Inv(p) && TaskEnabled(p.s, t) && (t.Push? || t.Digest? || t.Exit? || t.DriverExit?)
    ensures !p.s.taken
  {}

  lemma TaskLightens(s: Stream, t: TaskAction)
    requires ReadersOk(s) && !s.taken && TaskEnabled(s, t) && WindsDown(Task(t))
    ensures Burden(TaskFire(s, t)) < Burden(s)
  {
    match t {
      case Push(r) => assert Busy(s, r);
      case Digest(r) => assert Busy(s, r);
      case Exit(r) => ExitLightens(s, r);
      case _ =>
    }
  }

  lemma ExitLightens(s: Stream, r: nat)
    requires ReadersOk(s) && TaskEnabled(s, Exit(r))
    ensures Burden(TaskFire(s, Exit(r))) < Burden(s)
  {
    var s' := TaskFire(s, Exit(r));
    assert s.lock.Some? ==> Busy(s, s.lock.value) && s.lock.value != r;
    assert s'.readers.Keys == s.readers.Keys - {r};
  }

  /**
   While tasks are left and somebody pops, be it the drain task or `next()`, some task can finish
   a bit more of what it is at, or the popping side makes room for it.
  */
  lemma SomeoneWindsDown(p: Page) returns (a: Action)
    requires Reachable(p) && p.s.capacity > 0 && !Ended(p.s) && (p.s.drain || p.o.pc == Poll)
    ensures Enabled(p, a) && WindsDown(a) && Burden(Fire(p, a).s) < Burden(p.s)
  {
    ReachableInv(p);
    a := WindDown(p);
    WindingDownLightens(p, a);
  }

  lemma WindDown(p: Page) returns (a: Action)
    requires Inv(p) && p.s.capacity > 0 && !Ended(p.s) && (p.s.drain || p.o.pc == Poll)
    ensures Enabled(p, a) && WindsDown(a)
  {
    if p.s.lock.Some? {
      a := HolderMoves(p, p.s.lock.value);
    } else if p.s.readers != map[] {
      var r :| r in p.s.readers;
      assert !Busy(p.s, r);
      a := Task(Exit(r));
    } else {
      a := Task(DriverExit);
    }
  }

  /** The reader with the tracker lock moves, or the queue it waits for is popped. */
  lemma HolderMoves(p: Page, r: nat) returns (a: Action)
    requires Inv(p) && p.s.capacity > 0 && p.s.lock == Some(r) && (p.s.drain || p.o.pc == Poll)
    ensures Enabled(p, a) && WindsDown(a)
  {
    assert Busy(p.s, r) && Owns(p.s, r, p.s.readers[r].phase.partition);
    if p.s.readers[r].phase.Pushed? {
      a := Task(Digest(r));
    } else if |p.s.queue| < p.s.capacity {
      a := Task(Push(r));
    } else if p.s.drain {
      a := Task(DrainPop);
    } else {
      a := Php(PollPop);
    }
  }

  predicate OnlyTasks(acts: seq<Action>) {
    forall i :: 0 <= i < |acts| ==> acts[i].Task? && WindsDown(acts[i])
  }

  /** A task's step keeps the drain task on duty. */
  lemma DrainStays(p: Page, a: Action)
    requires Enabled(p, a) && a.Task? && WindsDown(a)
    ensures Fire(p, a).s.drain == p.s.drain && Fire(p, a).s.capacity == p.s.capacity
  {
    match a.t
    case Push(_) =>
    case Digest(_) =>
    case Exit(_) =>
    case DriverExit =>
    case DrainPop =>
  }

  lemma {:induction false} TasksEnd(p: Page) returns (acts: seq<Action>)
    requires Inv(p) && p.s.capacity > 0 && p.s.drain
    ensures Runs(p, acts) && OnlyTasks(acts) && Ended(Run(p, acts).s)
    decreases Burden(p.s)
  {
    if Ended(p.s) {
      acts := [];
    } else {
      var a := WindDown(p);
      assert a.Task?;
      WindingDownLightens(p, a);
      DrainStays(p, a);
      StepKeeps(p, a);
      var more := TasksEnd(Fire(p, a));
      acts := [a] + more;
      assert acts[1..] == more;
    }
  }

  /** With the drain task on duty, all tasks of a detached stream can come to their end. */
  lemma DrainLetsTasksEnd(p: Page) returns (acts: seq<Action>)
    requires Reachable(p) && p.s.capacity > 0 && p.s.drain
    ensures Runs(p, acts) && OnlyTasks(acts) && Ended(Run(p, acts).s)
  {
    ReachableInv(p);
    acts := TasksEnd(p);
  }

  // ---------------------------------------------------------------------------------------
  //  A reader parked on a full queue
  // ---------------------------------------------------------------------------------------

  /** Reader `r` waits in `push().await`, with the tracker lock. */
  predicate Parked(s: Stream, r: nat) {
    r in s.readers && s.readers[r].phase.Locked? && |s.queue| >= s.capacity
  }

  /** Parked, and neither a drain task nor the object is there to pop. */
  ghost predicate ParkedAlone(p: Page, r: nat) {
    Inv(p) && Parked(p.s, r) && !p.s.drain && !p.s.handle
  }

  lemma ParkedTaskStays(p: Page, t: TaskAction, r: nat)
    requires ParkedAlone(p, r) && TaskEnabled(p.s, t)
    ensures var s' := TaskFire(p.s, t); Parked(s', r) && !s'.drain && !s'.handle
  {
    assert Busy(p.s, r);
    assert forall q: nat :: Busy(p.s, q) ==> q == r;
  }

  lemma ParkedPhpStays(p: Page, c: PhpAction, r: nat)
    requires ParkedAlone(p, r) && PhpEnabled(p, c)
    ensures var s' := PhpFire(p, c).s; Parked(s', r) && !s'.drain && !s'.handle
  {
    assert p.o.pc.Idle? || p.o.pc.Gone?;
  }

  lemma ParkedStays(p: Page, a: Action, r: nat)
    requires ParkedAlone(p, r) && Enabled(p, a)
    ensures ParkedAlone(Fire(p, a), r)
  {
    StepKeeps(p, a);
    match a {
      case Task(t) => ParkedTaskStays(p, t, r);
      case Php(c) => ParkedPhpStays(p, c, r);
    }
  }

  lemma {:induction false} ParkedForGood(p: Page, acts: seq<Action>, r: nat)
    requires ParkedAlone(p, r) && Runs(p, acts)
    ensures Parked(Run(p, acts).s, r)
    decreases |acts|
  {
    if acts == [] {
    } else {
      ParkedStays(p, acts[0], r);
      ParkedForGood(Fire(p, acts[0]), acts[1..], r);
    }
  }

  /** How far the object is from its next pop. */
  function StepsToPoll(pc: Pc): nat {
    match pc
    case Poll => 0
    case Idle => 1
    case CheckCount => 1
    case CheckActive => 2
    case CloseCheck => 2
    case _ => 3
  }

  /** The step towards the next pop: of the drain task, or of the object, which may be called again. */
  function Popping(p: Page): Action {
    if p.s.drain then Task(DrainPop)
    else match p.o.pc
      case Poll => Php(PollPop)
      case Idle => Php(NextCall)
      case CheckActive => Php(if p.s.active then SeeActive else SeeClosed)
      case CheckCount => Php(CountBusy)
      case CloseCheck => Php(if p.s.quota == 0 && !ReadersFinished(p.s) then CloseDetach else CloseKeep)
      case _ => Php(DropHandOver)
  }

  lemma PoppingIsEnabled(p: Page, r: nat)
    requires Inv(p) && Parked(p.s, r) && p.s.capacity > 0 && (p.s.drain || p.s.handle)
    ensures Enabled(p, Popping(p))
  {
    assert !Quiet(p.s);
    if p.s.handle {
      CountIsExact(p.s);
    }
  }

  lemma PoppingGoesOn(p: Page, r: nat)
    requires Inv(p) && Parked(p.s, r) && (p.s.drain || p.s.handle) && Enabled(p, Popping(p))
    ensures var q := Fire(p, Popping(p));
      && (q.s.drain || q.s.handle) && q.s.capacity == p.s.capacity && q.s.readers == p.s.readers
      && (|q.s.queue| < |p.s.queue| ||
            (q.s.queue == p.s.queue && q.s.drain && !p.s.drain) ||
            (q.s.queue == p.s.queue && q.s.drain == p.s.drain && StepsToPoll(q.o.pc) < StepsToPoll(p.o.pc)))
  {}

  lemma {:induction false} PopsFree(p: Page, r: nat) returns (acts: seq<Action>)
    requires Inv(p) && Parked(p.s, r) && p.s.capacity > 0 && (p.s.drain || p.s.handle)
    ensures Runs(p, acts) && !Parked(Run(p, acts).s, r)
    decreases |p.s.queue|, AsNat(!p.s.drain), StepsToPoll(p.o.pc)
  {
    PoppingIsEnabled(p, r);
    PoppingGoesOn(p, r);
    var a, q := Popping(p), Fire(p, Popping(p));
    if Parked(q.s, r) {
      StepKeeps(p, a);
      var more := PopsFree(q, r);
      acts := [a] + more;
      assert acts[1..] == more;
    } else {
      acts := [a];
      assert acts[1..] == [] && Runs(q, []) && Run(q, []) == q;
    }
  }

  /**
   A reader parked on the full queue gets free in some continuation if and only if a drain task
   or the object is there to pop: without the drain task a detached stream holds its lock for ever.
  */
  lemma ParkedIsFreedExactly(p: Page, r: nat)
    requires Reachable(p) && p.s.capacity > 0 && Parked(p.s, r)
    ensures (exists acts :: Runs(p, acts) && !Parked(Run(p, acts).s, r)) <==> p.s.drain || p.s.handle
  {
    ReachableInv(p);
    if p.s.drain || p.s.handle {
      var acts := PopsFree(p, r);
    } else {
      forall acts | Runs(p, acts) ensures Parked(Run(p, acts).s, r) {
        ParkedForGood(p, acts, r);
      }
    }
  }
}
