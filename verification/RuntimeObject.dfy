/**
 `tokio_rt` and `take_tokio_rt`, statement by statement, on the shared slot. Between any two
 atomic operations the other threads of the process may take steps.
*/
module RuntimeObject {
  import opened RuntimeSlot
  import opened Wrappers

  datatype RtResult = Got(rt: nat) | Error | Blocked

  /** Steps of other threads, given as (thread, choice); those not enabled are skipped. */
  type Schedule = seq<(nat, Choice)>

  /** Once the slot holds this process's runtime, no step of a thread changes it. */
  predicate Settled(s: State, s': State) {
    s.slotPid == s.pid ==> s'.slotPid == s.slotPid && s'.ptr == s.ptr
  }

  lemma MoveSettled(s: State, t: nat, ch: Choice)
    requires Inv(s) && t in s.threads && CanMove(s, t, ch)
    ensures Settled(s, DoMove(s, t, ch)) && DoMove(s, t, ch).pid == s.pid
  {}

  /** The other threads take those of the steps that are enabled, in order. */
  function AfterOthers(s: State, t: nat, schedule: Schedule): State
    decreases |schedule|
  {
    if schedule == [] then s
    else
      var (u, ch) := schedule[0];
      AfterOthers(if u != t && u in s.threads && CanMove(s, u, ch) then DoMove(s, u, ch) else s, t, schedule[1..])
  }

  class Slot {
    var s: State

    ghost predicate Valid()
      reads this
    {
      Inv(s)
    }

    constructor (pid: nat)
      requires pid > 0
      ensures Valid() && s == Start(pid)
    {
      s := Start(pid);
    }

    method Others(t: nat, schedule: Schedule)
      requires Valid() && t in s.threads
      modifies this
      ensures Valid() && t in s.threads && s.threads[t] == old(s.threads[t]) && s.pid == old(s.pid)
      ensures Settled(old(s), s) && s == AfterOthers(old(s), t, schedule)
    {
      for i := 0 to |schedule|
        invariant Valid() && t in s.threads && s.threads[t] == old(s.threads[t]) && s.pid == old(s.pid)
        invariant Settled(old(s), s) && AfterOthers(s, t, schedule[i..]) == AfterOthers(old(s), t, schedule)
      {
        var (u, ch) := schedule[i];
        assert schedule[i..][0] == schedule[i] && schedule[i..][1..] == schedule[i + 1..];
        if u != t && u in s.threads && CanMove(s, u, ch) {
          StepKeeps(s, Move(u, ch));
          MoveSettled(s, u, ch);
          s := DoMove(s, u, ch);
        }
      }
    }

    /** One atomic operation of thread `t`. */
    method Step(t: nat, ch: Choice)
      requires Valid() && t in s.threads && CanMove(s, t, ch)
      modifies this
      ensures Valid() && s == DoMove(old(s), t, ch) && Settled(old(s), s)
    {
      StepKeeps(s, Move(t, ch));
      MoveSettled(s, t, ch);
      s := DoMove(s, t, ch);
    }

    /**
     `tokio_rt` called by thread `t`; `around` is what other threads do before each operation,
     `built` the id of the new runtime if building it succeeds. A call that finds the init mutex
     taken is `Blocked` there. Otherwise it returns this process's one live runtime, which is
     then in the slot, or an error when the slow path cannot build one.
    */
    method TokioRt(t: nat, around: seq<Schedule>, built: Option<nat>) returns (r: RtResult)
      requires Valid() && t in s.threads && s.threads[t].pc.Idle? && !s.shut && |around| == 6
      modifies this
      ensures Valid() && t in s.threads && s.pid == old(s.pid)
      ensures r.Got? ==> s.slotPid == s.pid && s.ptr == Some(r.rt) && Fresh(s, r.rt)
      ensures r.Blocked? <==> s.threads[t].pc.WantInit?
      ensures r.Blocked? ==> s.initOwner.Some? && s.initOwner.value != t
      ensures r.Error? ==> s.slotPid != s.pid
      ensures !r.Blocked? ==> s.threads[t].pc.Idle?
      ensures r.Error? ==> built.None? || built.value in s.runtimes
      // The fast path: a process that has its runtime never blocks, fails or builds another.
      ensures old(s).slotPid == s.pid ==> r == Got(old(s).ptr.value)
    {
      StepKeeps(s, Call(t));
      s := Do(s, Call(t));
      Others(t, around[0]);
      var fast := s.slotPid == s.threads[t].pid;
      Step(t, Go);
      Others(t, around[1]);
      if fast {
        r := ReturnPointer(t);
        return;
      }
      if s.initOwner != None {
        return Blocked;
      }
      Step(t, Go);
      Others(t, around[2]);
      var alreadyBuilt := s.slotPid == s.threads[t].pid;
      Step(t, Go);
      Others(t, around[3]);
      if alreadyBuilt {
        r := ReturnPointer(t);
        return;
      }
      if built.None? || built.value in s.runtimes {
        Step(t, Fail);
        return Error;
      }
      Step(t, Made(built.value));
      Others(t, around[4]);
      Step(t, Go);
      Others(t, around[5]);
      Step(t, Go);
      r := Got(built.value);
    }

    method ReturnPointer(t: nat) returns (r: RtResult)
      requires Valid() && t in s.threads && (s.threads[t].pc.LoadPtr? || s.threads[t].pc.RecheckPtr?)
      modifies this
      ensures Valid() && t in s.threads && s.threads[t].pc.Idle?
      ensures r.Got? && s.slotPid == s.pid && s.ptr == Some(r.rt) && Fresh(s, r.rt)
      ensures s.pid == old(s.pid) && s.ptr == old(s.ptr)
    {
      assert ThreadOk(s, t);
      r := Got(s.ptr.value);
      Step(t, Go);
    }

    /** `take_tokio_rt`, at MSHUTDOWN: hands over this process's runtime, at most once. */
    method TakeTokioRt() returns (r: Option<nat>)
      requires Valid() && Can(s, Shutdown)
      modifies this
      ensures Valid() && s == Do(old(s), Shutdown)
      ensures r.Some? ==> Fresh(old(s), r.value) && s.runtimes[r.value].freed == 1
      ensures r == None ==> s.runtimes == old(s).runtimes
    {
      StepKeeps(s, Shutdown);
      r := Taken(s);
      s := Do(s, Shutdown);
    }
  }
}
