/**
 Every call ends: each step of a call brings it nearer to its end, whatever the environment
 decides, and as long as no mutex is lost some unfinished call has a step to take. After a fork
 this holds in the child if and only if no thread was inside a mutex.
*/
module CacheLiveness {
  import opened CacheDeadlock
  import opened CacheInvariant
  import opened CacheLocks
  import opened CacheProtocol
  import opened CacheSpec
  import opened CacheTheorems
  import opened Wrappers

  // ---------------------------------------------------------------------------------------
  //  How far a call is from its end
  // ---------------------------------------------------------------------------------------

  function Rank(pc: Pc): nat {
    match pc
    case WantGuards => 22
    case InGuards => 21
    case WantKey => 20
    case WantLookup => 19
    case InLookup => 18
    case WantRt => 17
    case InRt => 16
    case Building => 15
    case WantInsert => 14
    case InInsert => 13
    case Scanning => 12
    case Evicting => 11
    case Storing => 10
    case Closing => 9
    case WantRemove => 8
    case InRemove => 7
    case Unlock => 6
    case DropGuard => 5
    case WantRelease => 4
    case InRelease => 3
    case Forgetting => 2
    case CloseEvicted => 1
    case Idle => 0
  }

  function RankOf(th: Thread): nat {
    Rank(th.pc)
  }

  /** What is left to look at, to take out and to close. */
  function Load(th: Thread): nat {
    3 * |th.sweep.todo| + 2 * |Left(th.sweep)| + |th.evicted|
  }

  predicate Nearer(th: Thread, th': Thread) {
    Rank(th'.pc) < Rank(th.pc) || (Rank(th'.pc) == Rank(th.pc) && Load(th') < Load(th))
  }

  lemma LookIsNearer(w: World, t: nat, k: Key)
    requires t in w.threads && w.threads[t].pc.Scanning? && k in w.threads[t].sweep.todo
    ensures Nearer(w.threads[t], DoLook(w, t, k).threads[t])
  {
    LookFrame(w, t, k);
    var s, s' := w.threads[t].sweep, DoLook(w, t, k).threads[t].sweep;
    assert |s'.todo| == |s.todo| - 1;
    assert Left(s') == Left(s) || Left(s') == Left(s) + {k};
    assert DoLook(w, t, k).threads[t].evicted == w.threads[t].evicted;
  }

  lemma TakeIsNearer(w: World, t: nat, k: Key)
    requires t in w.threads && w.threads[t].pc.Evicting? && k in Left(w.threads[t].sweep)
    ensures Nearer(w.threads[t], DoTake(w, t, k).threads[t])
  {
    TakeFrame(w, t, k);
    var s, s' := w.threads[t].sweep, DoTake(w, t, k).threads[t].sweep;
    assert s' == s.(keys := s.keys + [k]);
    assert Left(s') == Left(s) - {k};
  }

  lemma StartIsNearer(w: World, t: nat, cap: nat)
    requires t in w.threads && w.threads[t].pc.InInsert?
    ensures Nearer(w.threads[t], DoStart(w, t, cap).threads[t])
  {}

  lemma PhaseIsNearer(w: World, t: nat)
    requires t in w.threads && (w.threads[t].pc.Scanning? || w.threads[t].pc.Evicting?)
    ensures Nearer(w.threads[t], DoSweep(w, t, Go).threads[t])
  {}

  lemma SweepIsNearer(w: World, t: nat, ch: Choice)
    requires t in w.threads && CanProgress(w, t, ch) && SweepsOn(w.threads[t].pc)
    ensures Nearer(w.threads[t], DoSweep(w, t, ch).threads[t])
  {
    match ch
    case Cap(cap) => StartIsNearer(w, t, cap);
    case Look(k) => LookIsNearer(w, t, k);
    case Take(k) => TakeIsNearer(w, t, k);
    case Go => PhaseIsNearer(w, t);
  }

  lemma KeyIsNearer(w: World, t: nat)
    requires t in w.threads && (w.threads[t].pc.WantKey? || w.threads[t].pc.Unlock? || w.threads[t].pc.DropGuard?)
    requires !w.threads[t].pc.DropGuard? ==> w.threads[t].guard.Some?
    ensures t in DoKey(w, t).threads && Nearer(w.threads[t], DoKey(w, t).threads[t])
  {
    KeyFrame(w, t);
  }

  lemma ReleaseIsNearer(w: World, t: nat)
    requires t in w.threads && (w.threads[t].pc.InRelease? || w.threads[t].pc.Forgetting?)
    ensures t in DoRelease(w, t).threads && Nearer(w.threads[t], DoRelease(w, t).threads[t])
  {
    ReleaseFrame(w, t);
  }

  lemma StageIsNearer(w: World, t: nat, ch: Choice)
    requires t in w.threads && CanProgress(w, t, ch) && PassesStage(w.threads[t].pc)
    ensures t in DoProgress(w, t, ch).threads && Nearer(w.threads[t], DoProgress(w, t, ch).threads[t])
  {
    match w.threads[t].pc
    case InGuards =>
    case InRelease => ReleaseIsNearer(w, t);
    case Forgetting => ReleaseIsNearer(w, t);
    case _ => KeyIsNearer(w, t);
  }

  lemma StoreIsNearer(w: World, t: nat, obj: Option<nat>)
    requires t in w.threads && w.threads[t].pc.Storing? && w.threads[t].built.Some?
    ensures t in DoStore(w, t, obj).threads && Nearer(w.threads[t], DoStore(w, t, obj).threads[t])
  {}

  lemma RemoveIsNearer(w: World, t: nat)
    requires t in w.threads && w.threads[t].pc.InRemove? && w.threads[t].op.Close? && w.threads[t].op.obj in w.objects
    ensures t in DoRemove(w, t).threads && Nearer(w.threads[t], DoRemove(w, t).threads[t])
  {}

  lemma LookupIsNearer(w: World, t: nat, obj: Option<nat>)
    requires t in w.threads && w.threads[t].pc.InLookup?
    ensures t in DoLookup(w, t, obj).threads && Nearer(w.threads[t], DoLookup(w, t, obj).threads[t])
  {
    LookupFrame(w, t, obj);
  }

  lemma SweepingIsNearer(w: World, t: nat, ch: Choice)
    requires t in w.threads && CanProgress(w, t, ch) && SweepsOn(w.threads[t].pc)
    ensures t in DoProgress(w, t, ch).threads && Nearer(w.threads[t], DoProgress(w, t, ch).threads[t])
  {
    SweepStepIsDo(w, t, ch);
    SweepIsNearer(w, t, ch);
  }

  lemma ClientsIsNearer(w: World, t: nat, ch: Choice)
    requires t in w.threads && CanProgress(w, t, ch) && InClients(w.threads[t].pc)
    ensures t in DoProgress(w, t, ch).threads && Nearer(w.threads[t], DoProgress(w, t, ch).threads[t])
  {
    match w.threads[t].pc
    case InLookup => LookupIsNearer(w, t, ch.obj);
    case Storing => StoreIsNearer(w, t, ch.obj);
    case InRemove => RemoveIsNearer(w, t);
    case _ => SweepingIsNearer(w, t, ch);
  }

  lemma EnterIsNearer(w: World, t: nat)
    requires t in w.threads && Asks(w.threads[t].pc).Some?
    ensures Nearer(w.threads[t], DoEnter(w, t).threads[t])
  {}

  lemma RuntimeIsNearer(w: World, t: nat, ch: Choice)
    requires t in w.threads && (w.threads[t].pc.WantRt? || w.threads[t].pc.InRt?)
    ensures Nearer(w.threads[t], DoRuntime(w, t, ch).threads[t])
  {
    if w.threads[t].pc.WantRt? && w.rtPid != w.pid {
      EnterIsNearer(w, t);
    } else {
      RuntimeFrame(w, t, ch);
    }
  }

  lemma AttemptIsNearer(w: World, t: nat, c: nat, a: Attempt)
    requires t in w.threads && c in w.clients
    requires w.threads[t].pc.Closing? || (w.threads[t].pc.CloseEvicted? && w.threads[t].evicted != [])
    ensures Nearer(w.threads[t], DoAttempt(w, t, c, a).threads[t])
  {}

  lemma CallIsNearer(w: World, t: nat, ch: Choice)
    requires t in w.threads && CanProgress(w, t, ch) && !PassesStage(w.threads[t].pc) && !InClients(w.threads[t].pc)
    ensures t in DoProgress(w, t, ch).threads && Nearer(w.threads[t], DoProgress(w, t, ch).threads[t])
  {
    match w.threads[t].pc
    case WantRt => RuntimeIsNearer(w, t, ch);
    case InRt => RuntimeIsNearer(w, t, ch);
    case Building =>
    case Closing => AttemptIsNearer(w, t, Target(w, t), ch.attempt);
    case CloseEvicted =>
      if w.threads[t].evicted != [] {
        AttemptIsNearer(w, t, w.threads[t].evicted[0], ch.attempt);
      }
    case _ => EnterIsNearer(w, t);
  }

  /** Every step of a call brings it nearer to its end. */
  lemma ProgressIsNearer(w: World, t: nat, ch: Choice)
    requires t in w.threads && CanProgress(w, t, ch)
    ensures t in DoProgress(w, t, ch).threads && Nearer(w.threads[t], DoProgress(w, t, ch).threads[t])
  {
    if PassesStage(w.threads[t].pc) {
      StageIsNearer(w, t, ch);
    } else if InClients(w.threads[t].pc) {
      ClientsIsNearer(w, t, ch);
    } else {
      CallIsNearer(w, t, ch);
    }
  }

  // ---------------------------------------------------------------------------------------
  //  All calls together
  // ---------------------------------------------------------------------------------------

  ghost function Sum(f: Thread -> nat, threads: map<nat, Thread>): nat
    decreases |threads|
  {
    if threads == map[] then 0
    else
      var t :| t in threads;
      f(threads[t]) + Sum(f, threads - {t})
  }

  lemma {:induction false} SumOf(f: Thread -> nat, threads: map<nat, Thread>, t: nat)
    requires t in threads
    ensures Sum(f, threads) == f(threads[t]) + Sum(f, threads - {t})
    decreases |threads|
  {
    var u :| u in threads && Sum(f, threads) == f(threads[u]) + Sum(f, threads - {u});
    if u == t {
    } else {
      SumOf(f, threads - {u}, t);
      SumOf(f, threads - {t}, u);
      assert threads - {u} - {t} == threads - {t} - {u};
    }
  }

  ghost function Ranks(w: World): nat {
    Sum(RankOf, w.threads)
  }

  ghost function Loads(w: World): nat {
    Sum(Load, w.threads)
  }

  lemma SumMoves(f: Thread -> nat, before: map<nat, Thread>, after: map<nat, Thread>, t: nat)
    requires t in before && after.Keys == before.Keys && forall u <- before :: u != t ==> after[u] == before[u]
    ensures Sum(f, after) - f(after[t]) == Sum(f, before) - f(before[t])
  {
    SumOf(f, before, t);
    SumOf(f, after, t);
    assert after - {t} == before - {t};
  }

  /**
   Every step of any thread, whatever the environment decides, makes the pair of the two sums
   smaller in the lexicographic order: no schedule of the calls in progress goes on for ever.
  */
  lemma StepsRunOut(w: World, t: nat, ch: Choice)
    requires t in w.threads && CanProgress(w, t, ch)
    ensures var w' := DoProgress(w, t, ch);
      Ranks(w') < Ranks(w) || (Ranks(w') == Ranks(w) && Loads(w') < Loads(w))
  {
    var w' := DoProgress(w, t, ch);
    ProgressAdvances(w, t, ch);
    ProgressIsNearer(w, t, ch);
    SumMoves(RankOf, w.threads, w'.threads, t);
    SumMoves(Load, w.threads, w'.threads, t);
  }

  predicate OnlyProgress(acts: seq<Action>) {
    forall i :: 0 <= i < |acts| ==> acts[i].Progress?
  }

  /** The calls in progress can all be brought to their end by steps of their own. */
  ghost predicate CanFinish(w: World) {
    exists acts :: Runs(w, acts) && OnlyProgress(acts) && Quiescent(Run(w, acts))
  }

  lemma RunCons(w: World, a: Action, acts: seq<Action>)
    requires Can(w, a) && Runs(Do(w, a), acts)
    ensures Runs(w, [a] + acts) && Run(w, [a] + acts) == Run(Do(w, a), acts)
  {
    assert ([a] + acts)[1..] == acts;
  }

  lemma FinishFirst(w: World, a: Action)
    requires Can(w, a) && a.Progress? && CanFinish(Do(w, a))
    ensures CanFinish(w)
  {
    var acts :| Runs(Do(w, a), acts) && OnlyProgress(acts) && Quiescent(Run(Do(w, a), acts));
    RunCons(w, a, acts);
    assert OnlyProgress([a] + acts);
  }

  /** Any schedule that steps a thread that can move, as long as there is one, ends all calls. */
  lemma {:induction false} AllCallsFinish(w: World)
    requires Inv(w) && NoMutexLost(w)
    ensures CanFinish(w)
    decreases Ranks(w), Loads(w)
  {
    if Quiescent(w) {
      assert Runs(w, []) && OnlyProgress([]) && Run(w, []) == w;
    } else {
      var t :| t in w.threads && !w.threads[t].pc.Idle?;
      SomeThreadMoves(w, t);
      var u :| CanMove(w, u);
      var ch :| CanProgress(w, u, ch);
      StepsRunOut(w, u, ch);
      MutexLostOnlyByFork(w, Progress(u, ch));
      StepKeeps(w, Progress(u, ch));
      AllCallsFinish(DoProgress(w, u, ch));
      FinishFirst(w, Progress(u, ch));
    }
  }

  // ---------------------------------------------------------------------------------------
  //  When a fork is safe
  // ---------------------------------------------------------------------------------------

  predicate NoFork(acts: seq<Action>) {
    forall i :: 0 <= i < |acts| ==> !acts[i].Fork?
  }

  /** However this process goes on, the calls in progress can be finished. */
  ghost predicate CallsAlwaysFinish(w: World) {
    forall acts :: Runs(w, acts) && NoFork(acts) ==> CanFinish(Run(w, acts))
  }

  lemma {:induction false} NoneLostLater(w: World, acts: seq<Action>)
    requires Inv(w) && NoMutexLost(w) && Runs(w, acts) && NoFork(acts)
    ensures Inv(Run(w, acts)) && NoMutexLost(Run(w, acts))
    decreases |acts|
  {
    if acts == [] {
    } else {
      MutexLostOnlyByFork(w, acts[0]);
      StepKeeps(w, acts[0]);
      NoneLostLater(Do(w, acts[0]), acts[1..]);
    }
  }

  lemma NoneLostAlwaysFinish(w: World)
    requires Inv(w) && NoMutexLost(w)
    ensures CallsAlwaysFinish(w)
  {
    forall acts | Runs(w, acts) && NoFork(acts)
      ensures CanFinish(Run(w, acts))
    {
      NoneLostLater(w, acts);
      AllCallsFinish(Run(w, acts));
    }
  }

  /** `acts` lead from `w` to `v` without a fork. */
  ghost predicate LeadsTo(w: World, acts: seq<Action>, v: World) {
    Runs(w, acts) && NoFork(acts) && Run(w, acts) == v
  }

  lemma LeadOn(w: World, acts: seq<Action>, v: World, a: Action) returns (more: seq<Action>, v': World)
    requires LeadsTo(w, acts, v) && Can(v, a) && !a.Fork?
    ensures v' == Do(v, a) && LeadsTo(w, more, v')
  {
    RunSnoc(w, acts, a);
    more, v' := acts + [a], Do(v, a);
  }

  /** The only thread of a child process, at `pc` of its first `connect()`; `lost` are the mutexes lost. */
  predicate FirstCall(v: World, t: nat, pc: Pc, lost: map<Mutex, nat>) {
    && v.threads.Keys == {t} && v.threads[t].pc == pc && v.threads[t].op.Connect?
    && v.owners == lost && Cached(v) == map[] && v.rtPid != v.pid
  }

  lemma FirstBegins(v: World, t: nat)
    requires v.threads.Keys == {t} && v.threads[t].pc.Idle? && Cached(v) == map[] && v.rtPid != v.pid
    ensures Can(v, BeginConnect(t, "k")) && FirstCall(Do(v, BeginConnect(t, "k")), t, WantGuards, v.owners)
  {}

  lemma GuardIsFree(v: World, t: nat, lost: map<Mutex, nat>)
    requires Inv(v) && FirstCall(v, t, WantKey, lost)
    ensures CanProgress(v, t, Go)
  {
    assert Shape(v, t) && GuardOk(v, t) && TableOk(v, v.threads[t].key);
  }

  lemma Entered(v: World, t: nat, pc: Pc, lost: map<Mutex, nat>)
    requires FirstCall(v, t, pc, lost) && (pc.WantGuards? || pc.WantLookup?) && Asks(pc).value.0 !in lost
    ensures CanProgress(v, t, Go)
    ensures FirstCall(DoProgress(v, t, Go), t, Asks(pc).value.1, lost[Asks(pc).value.0 := t])
  {}

  lemma Guarded(v: World, t: nat, lost: map<Mutex, nat>)
    requires FirstCall(v, t, InGuards, lost[GuardsMutex := t]) && GuardsMutex !in lost
    ensures CanProgress(v, t, Go) && FirstCall(DoProgress(v, t, Go), t, WantKey, lost)
  {
    assert lost[GuardsMutex := t] - {GuardsMutex} == lost;
  }

  lemma KeyTaken(v: World, t: nat, lost: map<Mutex, nat>)
    requires FirstCall(v, t, WantKey, lost) && CanProgress(v, t, Go)
    ensures FirstCall(DoProgress(v, t, Go), t, WantLookup, lost)
  {}

  lemma LookedUp(v: World, t: nat, lost: map<Mutex, nat>)
    requires FirstCall(v, t, InLookup, lost[ClientsMutex := t]) && ClientsMutex !in lost
    ensures CanProgress(v, t, Hand(None)) && FirstCall(DoProgress(v, t, Hand(None)), t, WantRt, lost)
  {
    LookupFrame(v, t, None);
    assert lost[ClientsMutex := t] - {ClientsMutex} == lost;
  }

  lemma NothingMoves(v: World, t: nat, pc: Pc, lost: map<Mutex, nat>, a: Action)
    requires FirstCall(v, t, pc, lost) && Asks(pc).Some? && Asks(pc).value.0 in lost && a.Progress?
    ensures !Can(v, a)
  {}

  /** A lone thread that waits for a lost mutex never finishes its call. */
  lemma WaitingIsStuck(v: World, t: nat, pc: Pc, lost: map<Mutex, nat>)
    requires FirstCall(v, t, pc, lost) && Asks(pc).Some? && Asks(pc).value.0 in lost
    ensures !CanFinish(v)
  {
    forall acts: seq<Action> | Runs(v, acts) && OnlyProgress(acts)
      ensures acts == []
    {
      if acts != [] {
        NothingMoves(v, t, pc, lost, acts[0]);
      }
    }
  }

  lemma PassGuards(w: World, before: seq<Action>, u: World, t: nat, lost: map<Mutex, nat>) returns (acts: seq<Action>, v: World)
    requires LeadsTo(w, before, u) && Inv(u) && FirstCall(u, t, WantGuards, lost) && GuardsMutex !in lost
    ensures LeadsTo(w, acts, v) && FirstCall(v, t, WantLookup, lost)
  {
    Entered(u, t, WantGuards, lost);
    acts, v := LeadOn(w, before, u, Progress(t, Go));
    StepKeeps(u, Progress(t, Go));
    Guarded(v, t, lost);
    StepKeeps(v, Progress(t, Go));
    acts, v := LeadOn(w, acts, v, Progress(t, Go));
    GuardIsFree(v, t, lost);
    KeyTaken(v, t, lost);
    acts, v := LeadOn(w, acts, v, Progress(t, Go));
  }

  lemma PassLookup(w: World, before: seq<Action>, u: World, t: nat, lost: map<Mutex, nat>) returns (acts: seq<Action>, v: World)
    requires LeadsTo(w, before, u) && FirstCall(u, t, WantLookup, lost) && ClientsMutex !in lost
    ensures LeadsTo(w, acts, v) && FirstCall(v, t, WantRt, lost)
  {
    Entered(u, t, WantLookup, lost);
    acts, v := LeadOn(w, before, u, Progress(t, Go));
    LookedUp(v, t, lost);
    acts, v := LeadOn(w, acts, v, Progress(t, Hand(None)));
  }

  /** The first `connect()` of the child gets as far as the first lost mutex it asks for. */
  lemma GetsAsFar(w: World, before: seq<Action>, u: World, t: nat, lost: map<Mutex, nat>) returns (acts: seq<Action>, v: World)
    requires LeadsTo(w, before, u) && Inv(u) && FirstCall(u, t, WantGuards, lost) && lost != map[]
    ensures LeadsTo(w, acts, v) && !CanFinish(v)
  {
    if GuardsMutex in lost {
      acts, v := before, u;
      WaitingIsStuck(v, t, WantGuards, lost);
    } else {
      acts, v := PassGuards(w, before, u, t, lost);
      acts, v := GetsPastGuards(w, acts, v, t, lost);
    }
  }

  lemma GetsPastGuards(w: World, before: seq<Action>, u: World, t: nat, lost: map<Mutex, nat>) returns (acts: seq<Action>, v: World)
    requires LeadsTo(w, before, u) && FirstCall(u, t, WantLookup, lost) && lost != map[] && GuardsMutex !in lost
    ensures LeadsTo(w, acts, v) && !CanFinish(v)
  {
    if ClientsMutex in lost {
      acts, v := before, u;
      WaitingIsStuck(v, t, WantLookup, lost);
    } else {
      acts, v := PassLookup(w, before, u, t, lost);
      SomeMutex(lost);
      WaitingIsStuck(v, t, WantRt, lost);
    }
  }

  lemma SomeMutex(lost: map<Mutex, nat>)
    requires lost != map[] && GuardsMutex !in lost && ClientsMutex !in lost
    ensures RuntimeMutex in lost
  {
    var m :| m in lost;
    assert !m.GuardsMutex? && !m.ClientsMutex?;
  }

  lemma ConnectGetsStuck(w: World, t: nat)
    requires Inv(w) && w.threads.Keys == {t} && w.threads[t].pc.Idle? && w.owners != map[]
    requires Cached(w) == map[] && w.rtPid != w.pid
    ensures !CallsAlwaysFinish(w)
  {
    FirstBegins(w, t);
    assert LeadsTo(w, [], w);
    var acts, v := LeadOn(w, [], w, BeginConnect(t, "k"));
    StepKeeps(w, BeginConnect(t, "k"));
    acts, v := GetsAsFar(w, acts, v, t, w.owners);
  }

  /**
   After a fork, all calls of the child can be finished at every moment of every schedule if and
   only if no thread of the parent was inside any of the three mutexes when it forked.
  */
  lemma ForkIsSafeExactly(w: World, t: nat, child: nat)
    requires Reachable(w) && Can(w, Fork(t, child))
    ensures CallsAlwaysFinish(Do(w, Fork(t, child))) <==> w.owners == map[]
  {
    ReachableInv(w);
    StepKeeps(w, Fork(t, child));
    if w.owners == map[] {
      NoneLostAlwaysFinish(Do(w, Fork(t, child)));
    } else {
      ForkedCache(w, t, child);
      ConnectGetsStuck(Do(w, Fork(t, child)), t);
    }
  }

  lemma ForkedCache(w: World, t: nat, child: nat)
    requires Inv(w) && Can(w, Fork(t, child))
    ensures var v := Do(w, Fork(t, child));
      v.threads.Keys == {t} && v.threads[t].pc.Idle? && v.owners == w.owners && Cached(v) == map[] && v.rtPid != v.pid
  {}

  // ---------------------------------------------------------------------------------------
  //  When the shutdown hook returns
  // ---------------------------------------------------------------------------------------

  lemma MovedKeepsOwner(w: World, w': World, t: nat, m: Mutex)
    requires t in w.threads && Moved(w, w', t) && !Lost(w, m)
    ensures !Lost(w', m)
  {}

  lemma NotLostStep(w: World, a: Action, m: Mutex)
    requires !Lost(w, m) && Can(w, a) && !a.Fork?
    ensures !Lost(Do(w, a), m)
  {
    if a.Progress? {
      ProgressAdvances(w, a.thread, a.choice);
      MovedKeepsOwner(w, Do(w, a), a.thread, m);
    }
  }

  lemma {:induction false} NotLostLater(w: World, m: Mutex, acts: seq<Action>)
    requires Inv(w) && !Lost(w, m) && Runs(w, acts) && NoFork(acts)
    ensures Inv(Run(w, acts)) && !Lost(Run(w, acts), m)
    decreases |acts|
  {
    if acts == [] {
    } else {
      NotLostStep(w, acts[0], m);
      StepKeeps(w, acts[0]);
      NotLostLater(Do(w, acts[0]), m, acts[1..]);
    }
  }

  /** A step of the owner leaves the mutex or keeps it. */
  lemma OwnerStep(w: World, w': World, m: Mutex)
    requires m in w.owners && w.owners[m] in w.threads && Owns(w, w.owners[m]) && Moved(w, w', w.owners[m])
    ensures m in w'.owners ==> w'.owners[m] == w.owners[m] && w.owners[m] in w'.threads
  {}

  predicate OwnedBy(w: World, m: Mutex, u: nat) {
    m in w.owners && w.owners[m] == u && u in w.threads
  }

  /** The owner of a mutex can step, and is out of the mutex or nearer to its end then. */
  lemma OwnerSteps(w: World, m: Mutex, u: nat) returns (a: Action, v: World)
    requires Inv(w) && OwnedBy(w, m, u)
    ensures a.Progress? && Can(w, a) && v == Do(w, a) && Inv(v)
    ensures m in v.owners ==> OwnedBy(v, m, u) && Nearer(w.threads[u], v.threads[u])
  {
    assert Owns(w, u);
    InsideMoves(w, u);
    var ch :| CanProgress(w, u, ch);
    a, v := Progress(u, ch), DoProgress(w, u, ch);
    ProgressAdvances(w, u, ch);
    ProgressIsNearer(w, u, ch);
    OwnerStep(w, v, m);
    StepKeeps(w, a);
  }

  lemma RunOfOne(w: World, a: Action)
    requires Can(w, a)
    ensures Runs(w, [a]) && Run(w, [a]) == Do(w, a)
  {
    assert [a][1..] == [] && Runs(Do(w, a), []) && Run(Do(w, a), []) == Do(w, a);
  }

  /** The owner of a mutex leaves it by steps of its own, whatever other mutexes are lost. */
  lemma {:induction false} OwnerLeaves(w: World, m: Mutex, u: nat) returns (acts: seq<Action>)
    requires Inv(w) && OwnedBy(w, m, u)
    ensures Runs(w, acts) && OnlyProgress(acts) && m !in Run(w, acts).owners
    decreases Rank(w.threads[u].pc), Load(w.threads[u])
  {
    var a, v := OwnerSteps(w, m, u);
    if m in v.owners {
      acts := OwnerLeaves(v, m, u);
      RunCons(w, a, acts);
      acts := [a] + acts;
    } else {
      RunOfOne(w, a);
      acts := [a];
    }
  }

  /**
   `aerospike_php_shutdown`, called in state `w`, gets the cache mutex at some moment of some
   continuation of this process. Nothing it does afterwards waits.
  */
  ghost predicate HookReturns(w: World) {
    exists acts :: Runs(w, acts) && NoFork(acts) && ClientsMutex !in Run(w, acts).owners
  }

  lemma HookReturnsUnlessLost(w: World)
    requires Inv(w)
    ensures HookReturns(w) <==> !Lost(w, ClientsMutex)
  {
    if Lost(w, ClientsMutex) {
      forall acts | Runs(w, acts) && NoFork(acts) ensures ClientsMutex in Run(w, acts).owners {
        LostForGood(w, ClientsMutex, acts);
      }
    } else if ClientsMutex in w.owners {
      var acts := OwnerLeaves(w, ClientsMutex, w.owners[ClientsMutex]);
      assert NoFork(acts);
    } else {
      assert Runs(w, []) && Run(w, []) == w && NoFork([]);
    }
  }

  /**
   After a fork the shutdown hook of the child returns, whenever it is called, if and only if no
   thread of the parent was inside the cache mutex when it forked.
  */
  lemma ShutdownReturnsExactly(w: World, t: nat, child: nat, acts: seq<Action>)
    requires Reachable(w) && Can(w, Fork(t, child)) && Runs(Do(w, Fork(t, child)), acts) && NoFork(acts)
    ensures HookReturns(Run(Do(w, Fork(t, child)), acts)) <==> ClientsMutex !in w.owners
  {
    ReachableInv(w);
    StepKeeps(w, Fork(t, child));
    RunKeeps(Do(w, Fork(t, child)), acts);
    LostInChild(w, t, child, acts);
    HookReturnsUnlessLost(Run(Do(w, Fork(t, child)), acts));
  }

  lemma LostInChild(w: World, t: nat, child: nat, acts: seq<Action>)
    requires Inv(w) && Can(w, Fork(t, child)) && Inv(Do(w, Fork(t, child)))
    requires Runs(Do(w, Fork(t, child)), acts) && NoFork(acts)
    ensures Lost(Run(Do(w, Fork(t, child)), acts), ClientsMutex) <==> ClientsMutex in w.owners
  {
    OwnersAreLeftBehind(w, t, child);
    if ClientsMutex in w.owners {
      LostForGood(Do(w, Fork(t, child)), ClientsMutex, acts);
    } else {
      NotLostLater(Do(w, Fork(t, child)), ClientsMutex, acts);
    }
  }

  /** Once all calls are over, the hook returns if and only if the cache mutex is free. */
  lemma QuiescentHookReturnsExactly(w: World)
    requires Reachable(w) && Quiescent(w)
    ensures HookReturns(w) <==> ClientsMutex !in w.owners
  {
    ReachableInv(w);
    HookReturnsUnlessLost(w);
    forall t <- w.threads ensures ClientsMutex in w.owners ==> w.owners[ClientsMutex] != t {
      assert Owns(w, t);
    }
  }
}
