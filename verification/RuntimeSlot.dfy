/**
 The process-wide Tokio runtime: a (pointer, pid) pair read without a lock on the fast path,
 rebuilt under a mutex after `fork()`, and freed once at module shutdown.

 A run follows one line of processes: at a fork it may go on in the parent (no step) or in the
 child. Atomics are sequentially consistent and pids are distinct along the line.
*/
module RuntimeSlot {
  import opened Wrappers

  /** A runtime ever built on this line: the process that built it and how often it was freed. */
  datatype Runtime = Runtime(builder: nat, freed: nat)

  /** Program points of `tokio_rt`; `rt` is the runtime that has been built. */
  datatype Pc =
    | Idle | LoadPid | LoadPtr | WantInit | Recheck | RecheckPtr | Build | StorePtr(rt: nat) | StorePid(rt: nat)

  /** A thread and the pid it read on entry. */
  datatype Thread = Thread(pc: Pc, pid: nat)

  /** `slotPid` and `ptr` are the two atomics; `pids` are all pids used so far, with 0 for none. */
  datatype State = State(
    pid: nat, pids: set<nat>, slotPid: nat, ptr: Option<nat>, initOwner: Option<nat>,
    threads: map<nat, Thread>, ever: set<nat>, runtimes: map<nat, Runtime>, shut: bool)

  datatype Choice = Go | Made(rt: nat) | Fail

  datatype Action = Join(t: nat) | Call(t: nat) | Move(t: nat, ch: Choice) | Fork(t: nat, child: nat) | Shutdown

  function At(s: State, t: nat, pc: Pc): State
    requires t in s.threads
  {
    s.(threads := s.threads[t := s.threads[t].(pc := pc)])
  }

  predicate CanMove(s: State, t: nat, ch: Choice)
    requires t in s.threads
  {
    match s.threads[t].pc
    case Idle => false
    case WantInit => ch == Go && s.initOwner == None
    case Build => ch == Fail || (ch.Made? && ch.rt !in s.runtimes)
    case _ => ch == Go
  }

  function DoMove(s: State, t: nat, ch: Choice): State
    requires t in s.threads && CanMove(s, t, ch)
  {
    var th := s.threads[t];
    match th.pc
    case Idle => s
    case LoadPid => At(s, t, if s.slotPid == th.pid then LoadPtr else WantInit)
    case LoadPtr => At(s, t, Idle)
    case WantInit => At(s.(initOwner := Some(t)), t, Recheck)
    case Recheck => At(s, t, if s.slotPid == th.pid then RecheckPtr else Build)
    case RecheckPtr => At(s.(initOwner := None), t, Idle)
    case Build =>
      if ch == Fail then At(s.(initOwner := None), t, Idle)
      else At(s.(runtimes := s.runtimes[ch.rt := Runtime(th.pid, 0)]), t, StorePtr(ch.rt))
    case StorePtr(r) => At(s.(ptr := Some(r)), t, StorePid(r))
    case StorePid(r) => At(s.(slotPid := th.pid, initOwner := None), t, Idle)
  }

  /** What `tokio_rt` returns when the step is its last: a dereferenced pointer, or an error. */
  datatype Outcome = Running | Returned(ptr: Option<nat>) | Errored

  function OutcomeOf(s: State, t: nat, ch: Choice): Outcome
    requires t in s.threads
  {
    match s.threads[t].pc
    case LoadPtr => Returned(s.ptr)
    case RecheckPtr => Returned(s.ptr)
    case StorePid(r) => Returned(Some(r))
    case Build => if ch == Fail then Errored else Running
    case _ => Running
  }

  /** What `take_tokio_rt` takes out of the slot: nothing unless this process built it. */
  function Taken(s: State): Option<nat> {
    if s.slotPid == s.pid then s.ptr else None
  }

  function Freed(rts: map<nat, Runtime>, r: Option<nat>): map<nat, Runtime> {
    if r.Some? && r.value in rts then rts[r.value := rts[r.value].(freed := rts[r.value].freed + 1)] else rts
  }

  /** PHP enters no extension code during or after MSHUTDOWN, and forks only outside of it. */
  predicate Can(s: State, a: Action) {
    match a
    case Join(t) => t !in s.ever && !s.shut
    case Call(t) => t in s.threads && s.threads[t].pc.Idle? && !s.shut
    case Move(t, ch) => t in s.threads && CanMove(s, t, ch)
    case Fork(t, child) => t in s.threads && s.threads[t].pc.Idle? && child !in s.pids && !s.shut
    case Shutdown => !s.shut && forall t <- s.threads :: s.threads[t].pc.Idle?
  }

  function Do(s: State, a: Action): State
    requires Can(s, a)
  {
    match a
    case Join(t) => s.(threads := s.threads[t := Thread(Idle, 0)], ever := s.ever + {t})
    case Call(t) => s.(threads := s.threads[t := Thread(LoadPid, s.pid)])
    case Move(t, ch) => DoMove(s, t, ch)
    case Fork(t, child) => s.(pid := child, pids := s.pids + {child}, threads := map[t := s.threads[t]])
    case Shutdown =>
      if s.slotPid == s.pid then
        s.(shut := true, slotPid := 0, ptr := None, runtimes := Freed(s.runtimes, Taken(s)))
      else s.(shut := true)
  }

  function Start(pid: nat): State {
    State(pid, {0, pid}, 0, None, None, map[], {}, map[], false)
  }

  predicate Runs(s: State, acts: seq<Action>)
    decreases |acts|
  {
    acts == [] || (Can(s, acts[0]) && Runs(Do(s, acts[0]), acts[1..]))
  }

  function Run(s: State, acts: seq<Action>): State
    requires Runs(s, acts)
    decreases |acts|
  {
    if acts == [] then s else Run(Do(s, acts[0]), acts[1..])
  }

  ghost predicate Reachable(s: State) {
    exists pid: nat, acts :: pid > 0 && Runs(Start(pid), acts) && Run(Start(pid), acts) == s
  }

  // ---------------------------------------------------------------------------------------
  //  The invariant
  // ---------------------------------------------------------------------------------------

  predicate InInit(pc: Pc) {
    pc.Recheck? || pc.RecheckPtr? || pc.Build? || pc.StorePtr? || pc.StorePid?
  }

  /** Built by the current process and never freed. */
  predicate Fresh(s: State, r: nat) {
    r in s.runtimes && s.runtimes[r] == Runtime(s.pid, 0)
  }

  predicate ThreadOk(s: State, t: nat)
    requires t in s.threads
  {
    var th := s.threads[t];
    && (!th.pc.Idle? ==> th.pid == s.pid && !s.shut)
    && (InInit(th.pc) <==> s.initOwner == Some(t))
    && (th.pc.LoadPtr? || th.pc.RecheckPtr? ==> s.slotPid == s.pid)
    && (th.pc.Build? || th.pc.StorePtr? || th.pc.StorePid? ==> s.slotPid != s.pid)
    && (th.pc.StorePtr? || th.pc.StorePid? ==> Fresh(s, th.pc.rt))
    && (th.pc.StorePid? ==> s.ptr == Some(th.pc.rt))
  }

  /** The one runtime of this process is published in the slot, or about to be. */
  predicate Published(s: State, r: nat) {
    || s.shut
    || (s.slotPid == s.pid && s.ptr == Some(r))
    || (s.initOwner.Some? && s.initOwner.value in s.threads &&
        var pc := s.threads[s.initOwner.value].pc; (pc.StorePtr? || pc.StorePid?) && pc.rt == r)
  }

  ghost predicate Inv(s: State) {
    && {0, s.pid, s.slotPid} <= s.pids && s.pid > 0
    && s.threads.Keys <= s.ever && (s.initOwner.Some? ==> s.initOwner.value in s.ever)
    && (s.slotPid == s.pid ==> s.ptr.Some? && Fresh(s, s.ptr.value))
    && (forall t <- s.threads :: ThreadOk(s, t))
    && (forall r <- s.runtimes :: s.runtimes[r].builder in s.pids && s.runtimes[r].freed <= 1)
    && (forall r <- s.runtimes :: s.runtimes[r].builder == s.pid ==> Published(s, r))
    && (forall r <- s.runtimes :: s.runtimes[r].freed > 0 ==> s.shut && s.runtimes[r].builder == s.pid)
    && OnePerProcess(s)
  }

  ghost predicate OnePerProcess(s: State) {
    forall q, r :: q in s.runtimes && r in s.runtimes && s.runtimes[q].builder == s.runtimes[r].builder ==> q == r
  }

  lemma MoveKeeps(s: State, t: nat, ch: Choice)
    requires Inv(s) && t in s.threads && CanMove(s, t, ch) && !s.threads[t].pc.Build?
    ensures Inv(DoMove(s, t, ch))
  {
    var s' := DoMove(s, t, ch);
    assert ThreadOk(s, t);
    forall u <- s'.threads ensures ThreadOk(s', u) {
      assert ThreadOk(s, u);
    }
    forall r <- s'.runtimes | s'.runtimes[r].builder == s'.pid ensures Published(s', r) {
      assert Published(s, r);
    }
  }

  lemma BuildKeeps(s: State, t: nat, ch: Choice)
    requires Inv(s) && t in s.threads && CanMove(s, t, ch) && s.threads[t].pc.Build?
    ensures Inv(DoMove(s, t, ch))
  {
    var s' := DoMove(s, t, ch);
    assert ThreadOk(s, t);
    // Nothing built by this process is published while the slot holds another pid.
    forall r <- s.runtimes ensures s.runtimes[r].builder != s.pid {
      assert s.runtimes[r].builder == s.pid ==> Published(s, r);
    }
    forall u <- s'.threads ensures ThreadOk(s', u) {
      assert ThreadOk(s, u);
    }
  }

  lemma StepKeeps(s: State, a: Action)
    requires Inv(s) && Can(s, a)
    ensures Inv(Do(s, a))
  {
    var s' := Do(s, a);
    match a {
      case Move(t, ch) =>
        if s.threads[t].pc.Build? { BuildKeeps(s, t, ch); } else { MoveKeeps(s, t, ch); }
      case Shutdown =>
        forall u <- s'.threads ensures ThreadOk(s', u) { assert ThreadOk(s, u); }
      case Join(t) =>
        forall u <- s'.threads ensures ThreadOk(s', u) { assert u in s.threads ==> ThreadOk(s, u); }
        forall r <- s'.runtimes | s'.runtimes[r].builder == s'.pid ensures Published(s', r) { assert Published(s, r); }
      case Call(t) =>
        forall u <- s'.threads ensures ThreadOk(s', u) { assert ThreadOk(s, u); }
        forall r <- s'.runtimes | s'.runtimes[r].builder == s'.pid ensures Published(s', r) { assert Published(s, r); }
      case Fork(t, child) =>
        assert ThreadOk(s, t);
    }
  }

  lemma {:induction false} RunKeeps(s: State, acts: seq<Action>)
    requires Inv(s) && Runs(s, acts)
    ensures Inv(Run(s, acts))
    decreases |acts|
  {
    if acts == [] {
    } else {
      StepKeeps(s, acts[0]);
      RunKeeps(Do(s, acts[0]), acts[1..]);
    }
  }

  lemma ReachableInv(s: State)
    requires Reachable(s)
    ensures Inv(s)
  {
    var pid: nat, acts :| pid > 0 && Runs(Start(pid), acts) && Run(Start(pid), acts) == s;
    RunKeeps(Start(pid), acts);
  }

  // ---------------------------------------------------------------------------------------
  //  What holds in every run
  // ---------------------------------------------------------------------------------------

  /** Whenever the stored pid is the current one, the pointer is this process's own live runtime. */
  lemma MatchingPidMeansLiveRuntime(s: State)
    requires Reachable(s) && s.slotPid == s.pid
    ensures s.ptr.Some? && Fresh(s, s.ptr.value)
  {
    ReachableInv(s);
  }

  /**
   Whatever race a call runs through, `tokio_rt` never dereferences null and returns the
   unfreed runtime that the current process built.
  */
  lemma ReturnsOwnLiveRuntime(s: State, t: nat, ch: Choice)
    requires Reachable(s) && t in s.threads && CanMove(s, t, ch) && OutcomeOf(s, t, ch).Returned?
    ensures OutcomeOf(s, t, ch).ptr.Some? && Fresh(s, OutcomeOf(s, t, ch).ptr.value)
  {
    ReachableInv(s);
    assert ThreadOk(s, t);
  }

  /** A call ends with an answer, by the step that ends it: the pointer then in the slot, or a failure to build. */
  lemma OutcomeEndsTheCall(s: State, t: nat, ch: Choice)
    requires Reachable(s) && t in s.threads && CanMove(s, t, ch)
    ensures OutcomeOf(s, t, ch).Running? <==> !DoMove(s, t, ch).threads[t].pc.Idle?
    ensures OutcomeOf(s, t, ch).Returned? ==> OutcomeOf(s, t, ch).ptr == DoMove(s, t, ch).ptr
    ensures OutcomeOf(s, t, ch).Errored? <==> ch == Fail
  {
    ReachableInv(s);
    assert ThreadOk(s, t);
  }

  /** Every process builds at most one runtime, under any race through the double check. */
  lemma OneRuntimePerProcess(s: State, q: nat, r: nat)
    requires Reachable(s) && q in s.runtimes && r in s.runtimes && s.runtimes[q].builder == s.runtimes[r].builder
    ensures q == r
  {
    ReachableInv(s);
  }

  /**
   Shutdown frees this process's runtime if it has one and nothing else; an inherited runtime
   is left alone, and no runtime is ever freed twice.
  */
  lemma FreedOnceByItsBuilder(s: State, r: nat)
    requires Reachable(s) && Can(s, Shutdown) && r in s.runtimes
    ensures Do(s, Shutdown).runtimes[r].freed == if s.runtimes[r].builder == s.pid then 1 else 0
  {
    ReachableInv(s);
    if s.runtimes[r].builder == s.pid {
      assert Published(s, r);
      assert s.initOwner.Some? && s.initOwner.value in s.threads ==> ThreadOk(s, s.initOwner.value);
    }
  }

  /** Calls of one process that return, now and any number of steps later, return one runtime. */
  lemma CallsAgree(s: State, t: nat, ch: Choice, acts: seq<Action>, u: nat, dh: Choice)
    requires Reachable(s) && t in s.threads && CanMove(s, t, ch) && OutcomeOf(s, t, ch).Returned?
    requires Runs(s, acts) && Run(s, acts).pid == s.pid
    requires var z := Run(s, acts); u in z.threads && CanMove(z, u, dh) && OutcomeOf(z, u, dh).Returned?
    ensures OutcomeOf(Run(s, acts), u, dh) == OutcomeOf(s, t, ch)
  {
    var z := Run(s, acts);
    ReachableInv(s);
    RunKeeps(s, acts);
    assert ThreadOk(s, t) && ThreadOk(z, u);
    RuntimesGrow(s, acts);
    var q, r := OutcomeOf(s, t, ch).ptr.value, OutcomeOf(z, u, dh).ptr.value;
    assert z.runtimes[q].builder == z.runtimes[r].builder;
  }

  lemma {:induction false} RuntimesGrow(s: State, acts: seq<Action>)
    requires Runs(s, acts)
    ensures forall r <- s.runtimes :: r in Run(s, acts).runtimes && Run(s, acts).runtimes[r].builder == s.runtimes[r].builder
    decreases |acts|
  {
    if acts == [] {
    } else {
      RuntimesGrow(Do(s, acts[0]), acts[1..]);
    }
  }
}
