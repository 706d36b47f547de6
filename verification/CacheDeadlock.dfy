/**
 Deadlock: some unfinished call can always go on, unless a fork has lost a mutex; and a mutex
 lost to a fork is lost for good. The guards are forgotten in the child, the three process-wide
 mutexes are not.
*/
module CacheDeadlock {
  import opened CacheContents
  import opened CacheInvariant
  import opened CacheLocks
  import opened CacheProtocol
  import opened CacheSpec
  import opened Wrappers

  ghost predicate CanMove(w: World, t: nat) {
    t in w.threads && exists ch :: CanProgress(w, t, ch)
  }

  /** The owner of mutex `m` is not a thread of this process. */
  predicate Lost(w: World, m: Mutex) {
    m in w.owners && w.owners[m] !in w.threads
  }

  predicate NoMutexLost(w: World) {
    forall m <- w.owners :: !Lost(w, m)
  }

  /** Thread `t` cannot go on before it gets mutex `m`; `tokio_rt` asks for none when a runtime is there. */
  predicate WaitsFor(w: World, t: nat, m: Mutex) {
    && t in w.threads && Asks(w.threads[t].pc).Some? && Asks(w.threads[t].pc).value.0 == m
    && (w.threads[t].pc.WantRt? ==> w.rtPid != w.pid)
  }

  // ---------------------------------------------------------------------------------------
  //  Some thread can move
  // ---------------------------------------------------------------------------------------

  lemma {:induction false} LeastRecent(before: map<Key, Entry>, keys: set<Key>) returns (k: Key)
    requires keys != {} && keys <= before.Keys
    ensures k in keys && forall l <- keys :: before[k].lastUsed <= before[l].lastUsed
    decreases |keys|
  {
    k :| k in keys;
    if keys == {k} {
    } else {
      var l := LeastRecent(before, keys - {k});
      if before[l].lastUsed < before[k].lastUsed {
        k := l;
      }
    }
  }

  /** A sweep can always take its next step. */
  lemma SweepMoves(w: World, t: nat)
    requires Inv(w) && t in w.threads && Sweeping(w.threads[t].pc) && !w.threads[t].pc.Storing?
    ensures CanMove(w, t)
  {
    assert SweepOk(w, t);
    var s := w.threads[t].sweep;
    if w.threads[t].pc.Scanning? && s.todo != {} {
      var k :| k in s.todo;
      assert CanProgress(w, t, Look(k));
    } else if w.threads[t].pc.Evicting? && !SweepDone(w, s) {
      var k := LeastRecent(s.before, Left(s));
      assert CanProgress(w, t, Take(k));
    } else {
      assert CanProgress(w, t, Go);
    }
  }

  /** A thread inside a mutex waits for nothing. */
  lemma InsideMoves(w: World, t: nat)
    requires Inv(w) && t in w.threads && Inside(w.threads[t].pc).Some?
    ensures CanMove(w, t)
  {
    assert Shape(w, t);
    var pc := w.threads[t].pc;
    if pc.Scanning? || pc.Evicting? {
      SweepMoves(w, t);
    } else {
      var ch := if pc.InLookup? || pc.Storing? then Hand(None) else if pc.InInsert? then Cap(0) else Go;
      assert CanProgress(w, t, ch);
    }
  }

  /** A thread that is neither idle nor waiting for a lock can always take its next step. */
  lemma OnlyLocksBlock(w: World, t: nat)
    requires Inv(w) && t in w.threads && !w.threads[t].pc.Idle? && !w.threads[t].pc.WantKey?
    requires Asks(w.threads[t].pc) == None
    ensures CanMove(w, t)
  {
    if Inside(w.threads[t].pc).Some? {
      InsideMoves(w, t);
    } else {
      assert Shape(w, t) && ThreadOk(w, t) && EvictedOk(w, t);
      var pc := w.threads[t].pc;
      var ch := if pc.Building? then Fail
                else if pc.Closing? || (pc.CloseEvicted? && w.threads[t].evicted != []) then Tried(Closed)
                else Go;
      assert CanProgress(w, t, ch);
    }
  }

  /** A thread that asks for a mutex moves, or the owner of that mutex does. */
  lemma MutexWaitEnds(w: World, t: nat)
    requires Inv(w) && NoMutexLost(w) && t in w.threads && Asks(w.threads[t].pc).Some?
    ensures exists u :: CanMove(w, u)
  {
    var m := Asks(w.threads[t].pc).value.0;
    if m in w.owners {
      assert !Lost(w, m) && Owns(w, w.owners[m]);
      InsideMoves(w, w.owners[m]);
    } else {
      assert CanProgress(w, t, Go);
      assert CanMove(w, t);
    }
  }

  /** A thread in a key section waits at most for a mutex. */
  lemma SectionMoves(w: World, t: nat)
    requires Inv(w) && NoMutexLost(w) && t in w.threads && InSection(w.threads[t].pc)
    ensures exists u :: CanMove(w, u)
  {
    if Asks(w.threads[t].pc).Some? {
      MutexWaitEnds(w, t);
    } else {
      OnlyLocksBlock(w, t);
    }
  }

  /** A thread that waits for the guard of its key moves, or the thread that has it locked does. */
  lemma KeyWaitEnds(w: World, t: nat)
    requires Inv(w) && NoMutexLost(w) && t in w.threads && w.threads[t].pc.WantKey?
    ensures exists u :: CanMove(w, u)
  {
    assert Shape(w, t) && GuardOk(w, t);
    var g := w.threads[t].guard.value;
    if g in w.keyOwner {
      assert TableOk(w, w.threads[t].key);
      SectionMoves(w, w.keyOwner[g]);
    } else {
      assert CanProgress(w, t, Go);
      assert CanMove(w, t);
    }
  }

  lemma SomeThreadMoves(w: World, t: nat)
    requires Inv(w) && NoMutexLost(w) && t in w.threads && !w.threads[t].pc.Idle?
    ensures exists u :: CanMove(w, u)
  {
    if w.threads[t].pc.WantKey? {
      KeyWaitEnds(w, t);
    } else if Asks(w.threads[t].pc).Some? {
      MutexWaitEnds(w, t);
    } else {
      OnlyLocksBlock(w, t);
    }
  }

  /** No deadlock: as long as some call is unfinished and no mutex is lost, some thread can move. */
  lemma SomeThreadCanMove(w: World, t: nat)
    requires Reachable(w) && NoMutexLost(w) && t in w.threads && !w.threads[t].pc.Idle?
    ensures exists u :: CanMove(w, u)
  {
    ReachableInv(w);
    SomeThreadMoves(w, t);
  }

  /** No thread asks for one of the three process-wide mutexes while it holds one. */
  lemma OneMutexAtATime(w: World, t: nat)
    requires Reachable(w) && t in w.threads
    ensures forall m, n :: m in w.owners && w.owners[m] == t && n in w.owners && w.owners[n] == t ==> m == n
    ensures Asks(w.threads[t].pc).Some? ==> forall m <- w.owners :: w.owners[m] != t
  {
    ReachableInv(w);
    assert Owns(w, t);
  }

  // ---------------------------------------------------------------------------------------
  //  A lost mutex
  // ---------------------------------------------------------------------------------------

  /** A thread leaves the mutexes of others alone. */
  lemma OthersKeepTheirs(w: World, w': World, t: nat, m: Mutex)
    requires t in w.threads && Owns(w, t) && Moved(w, w', t) && m in w.owners && w.owners[m] != t
    ensures m in w'.owners && w'.owners[m] == w.owners[m] && w'.threads.Keys == w.threads.Keys
  {}

  lemma LostStays(w: World, a: Action, m: Mutex)
    requires Inv(w) && Lost(w, m) && Can(w, a)
    ensures Lost(Do(w, a), m)
  {
    if a.Progress? {
      ProgressAdvances(w, a.thread, a.choice);
      assert Owns(w, a.thread);
      OthersKeepTheirs(w, Do(w, a), a.thread, m);
    }
  }

  /** A thread that waits for a lost mutex stays where it is, or is left behind by another fork. */
  lemma StuckStays(w: World, a: Action, m: Mutex, t: nat)
    requires Inv(w) && Lost(w, m) && WaitsFor(w, t, m) && Can(w, a)
    ensures var w' := Do(w, a);
      (WaitsFor(w', t, m) && w'.threads[t] == w.threads[t]) || (t !in w'.threads && t in w'.ever)
  {
    if a.Progress? {
      OthersLeaveItStuck(w, a.thread, a.choice, m, t);
    } else {
      assert t in w.ever;
    }
  }

  lemma MovedLeavesStuck(w: World, w': World, u: nat, m: Mutex, t: nat)
    requires u in w.threads && Moved(w, w', u) && WaitsFor(w, t, m) && u != t
    requires m.RuntimeMutex? ==> w'.rtPid == w.rtPid
    ensures WaitsFor(w', t, m) && w'.threads[t] == w.threads[t]
  {}

  /** Nobody is inside a lost mutex; in particular nobody builds a runtime while its mutex is lost. */
  lemma NobodyInside(w: World, m: Mutex, u: nat)
    requires LocksOk(w) && Lost(w, m) && u in w.threads
    ensures Inside(w.threads[u].pc) != Some(m)
  {
    assert Owns(w, u);
  }

  lemma OthersLeaveItStuck(w: World, u: nat, ch: Choice, m: Mutex, t: nat)
    requires LocksOk(w) && Lost(w, m) && WaitsFor(w, t, m) && u in w.threads && CanProgress(w, u, ch)
    ensures var w' := DoProgress(w, u, ch); WaitsFor(w', t, m) && w'.threads[t] == w.threads[t]
  {
    assert u != t;
    ProgressAdvances(w, u, ch);
    NobodyInside(w, m, u);
    MovedLeavesStuck(w, DoProgress(w, u, ch), u, m, t);
  }

  /** A thread that a fork left behind is never seen again in the child. */
  lemma GoneStays(w: World, a: Action, t: nat)
    requires t !in w.threads && t in w.ever && Can(w, a)
    ensures t !in Do(w, a).threads && t in Do(w, a).ever
  {
    if a.Progress? {
      ProgressAdvances(w, a.thread, a.choice);
    }
  }

  lemma {:induction false} GoneForGood(w: World, acts: seq<Action>, t: nat)
    requires t !in w.threads && t in w.ever && Runs(w, acts)
    ensures t !in Run(w, acts).threads
    decreases |acts|
  {
    if acts == [] {
    } else {
      GoneStays(w, acts[0], t);
      GoneForGood(Do(w, acts[0]), acts[1..], t);
    }
  }

  /** A mutex whose owner is gone is never freed, in whatever way the run goes on. */
  lemma {:induction false} LostForGood(w: World, m: Mutex, acts: seq<Action>)
    requires Inv(w) && Lost(w, m) && Runs(w, acts)
    ensures Lost(Run(w, acts), m)
    decreases |acts|
  {
    if acts == [] {
    } else {
      LostStays(w, acts[0], m);
      StepKeeps(w, acts[0]);
      LostForGood(Do(w, acts[0]), m, acts[1..]);
    }
  }

  /**
   A thread that waits for a lost mutex, whichever of the three it is, waits for ever: in every
   continuation of the run it is where it was, or a further fork has left it behind.
  */
  lemma {:induction false} LostMutexBlocksForGood(w: World, m: Mutex, t: nat, acts: seq<Action>)
    requires Inv(w) && Lost(w, m) && WaitsFor(w, t, m) && Runs(w, acts)
    ensures t in Run(w, acts).threads ==> Run(w, acts).threads[t] == w.threads[t]
    decreases |acts|
  {
    if acts == [] {
    } else {
      StuckStays(w, acts[0], m, t);
      LostStays(w, acts[0], m);
      StepKeeps(w, acts[0]);
      if t in Do(w, acts[0]).threads {
        LostMutexBlocksForGood(Do(w, acts[0]), m, t, acts[1..]);
      } else {
        GoneForGood(Do(w, acts[0]), acts[1..], t);
      }
    }
  }

  /**
   A mutex is lost only by a fork while another thread is inside it; every other step, and
   every fork at which the mutexes are free, loses none.
  */
  lemma MutexLostOnlyByFork(w: World, a: Action)
    requires Inv(w) && NoMutexLost(w) && Can(w, a)
    ensures NoMutexLost(Do(w, a)) <==> (a.Fork? ==> w.owners == map[])
  {
    if a.Progress? {
      ProgressAdvances(w, a.thread, a.choice);
      ProgressLosesNone(w, Do(w, a), a.thread);
    } else if a.Fork? {
      OwnersAreLeftBehind(w, a.thread, a.child);
      if w.owners != map[] {
        var m :| m in w.owners;
        assert Lost(Do(w, a), m);
      }
    }
  }

  lemma ProgressLosesNone(w: World, w': World, t: nat)
    requires NoMutexLost(w) && t in w.threads && Moved(w, w', t)
    ensures NoMutexLost(w')
  {
    forall m <- w'.owners ensures !Lost(w', m) {
      assert m in w.owners ==> !Lost(w, m);
    }
  }

  /** The forking thread is outside all mutexes, so every owned mutex is lost in the child. */
  lemma OwnersAreLeftBehind(w: World, t: nat, child: nat)
    requires Inv(w) && Can(w, Fork(t, child))
    ensures Do(w, Fork(t, child)).owners == w.owners
    ensures forall m <- w.owners :: Lost(Do(w, Fork(t, child)), m)
  {
    assert Owns(w, t);
  }
}
