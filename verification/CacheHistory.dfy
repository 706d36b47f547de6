/**
 What the state remembers of the run that led to it: when each cached key was last connected to,
 and how the attempts to close each client ended. So eviction by last use is eviction of the keys
 that were connected to longest ago.
*/
module CacheHistory {
  import opened CacheCap
  import opened CacheContents
  import opened CacheEffects
  import opened CacheInvariant
  import opened CacheLocks
  import opened CacheProtocol
  import opened CacheSpec
  import opened CacheTheorems
  import opened Wrappers

  // ---------------------------------------------------------------------------------------
  //  When a key was last connected to
  // ---------------------------------------------------------------------------------------

  lemma ClockStep(w: World, a: Action)
    requires Can(w, a)
    ensures Do(w, a).clock == w.clock + if a.Tick? then 1 else 0
  {
    if a.Progress? {
      ProgressKeepsClock(w, a.thread, a.choice);
    }
  }

  lemma ProgressKeepsClock(w: World, t: nat, ch: Choice)
    requires t in w.threads && CanProgress(w, t, ch)
    ensures DoProgress(w, t, ch).clock == w.clock
  {
    if PassesStage(w.threads[t].pc) {
      StageKeepsClock(w, t, ch);
    } else if InClients(w.threads[t].pc) {
      ClientsKeepsClock(w, t, ch);
    }
  }

  lemma StageKeepsClock(w: World, t: nat, ch: Choice)
    requires t in w.threads && CanProgress(w, t, ch) && PassesStage(w.threads[t].pc)
    ensures DoProgress(w, t, ch).clock == w.clock
  {}

  lemma ClientsKeepsClock(w: World, t: nat, ch: Choice)
    requires t in w.threads && CanProgress(w, t, ch) && InClients(w.threads[t].pc)
    ensures DoProgress(w, t, ch).clock == w.clock
  {
    if SweepsOn(w.threads[t].pc) {
      SweepStepIsDo(w, t, ch);
      SweepKeepsClock(w, t, ch);
    }
  }

  lemma SweepKeepsClock(w: World, t: nat, ch: Choice)
    requires t in w.threads
    ensures DoSweep(w, t, ch).clock == w.clock
  {}

  /** The step is the one in which a `connect()` finds key `k` cached, or stores a new client under it. */
  ghost predicate ConnectsTo(v: World, a: Action, k: Key) {
    && a.Progress? && a.thread in v.threads && v.threads[a.thread].key == k
    && ((v.threads[a.thread].pc.InLookup? && k in Cached(v)) || v.threads[a.thread].pc.Storing?)
  }

  /** The time at which a `connect()` last found or stored key `k`. */
  ghost function LastConnect(w: World, acts: seq<Action>, k: Key): nat
    requires Runs(w, acts)
    decreases |acts|
  {
    if acts == [] then 0
    else
      var n := |acts| - 1;
      RunSplit(w, acts);
      if ConnectsTo(Run(w, acts[..n]), acts[n], k) then Run(w, acts[..n]).clock else LastConnect(w, acts[..n], k)
  }

  /** An entry after a step: as it was, or used just now. */
  ghost predicate EntryMoves(v: World, a: Action, w: World, k: Key) {
    k in Cached(w) ==>
      if ConnectsTo(v, a, k) then Cached(w)[k].lastUsed == v.clock
      else k in Cached(v) && Cached(w)[k] == Cached(v)[k]
  }

  lemma LookupMoves(v: World, t: nat, obj: Option<nat>, k: Key)
    requires t in v.threads && v.threads[t].pc.InLookup?
    ensures EntryMoves(v, Progress(t, Hand(obj)), DoLookup(v, t, obj), k)
  {}

  lemma SweepMoves(v: World, t: nat, ch: Choice, k: Key)
    requires t in v.threads && SweepsOn(v.threads[t].pc)
    ensures EntryMoves(v, Progress(t, ch), DoSweep(v, t, ch), k)
  {}

  lemma StoreMoves(v: World, t: nat, obj: Option<nat>, k: Key)
    requires ContentsOk(v) && t in v.threads && v.threads[t].pc.Storing? && v.threads[t].built.Some? && FreshObject(v, obj)
    ensures EntryMoves(v, Progress(t, Hand(obj)), DoStore(v, t, obj), k)
  {
    StoreStores(v, t, obj);
    StoreFacts(v, DoStore(v, t, obj), t);
  }

  lemma RemoveMoves(v: World, t: nat, ch: Choice, k: Key)
    requires Inv(v) && t in v.threads && CanProgress(v, t, ch) && v.threads[t].pc.InRemove?
    ensures EntryMoves(v, Progress(t, ch), DoProgress(v, t, ch), k)
  {
    RemoveRemoves(v, t);
    RemoveFacts(v, DoRemove(v, t), t);
  }

  lemma ProgressMoves(v: World, t: nat, ch: Choice, k: Key)
    requires Inv(v) && t in v.threads && CanProgress(v, t, ch)
    ensures EntryMoves(v, Progress(t, ch), DoProgress(v, t, ch), k)
  {
    if !InClients(v.threads[t].pc) {
      ProgressAdvances(v, t, ch);
    } else if SweepsOn(v.threads[t].pc) {
      SweepStepIsDo(v, t, ch);
      SweepMoves(v, t, ch, k);
    } else if v.threads[t].pc.Storing? {
      StoreMoves(v, t, ch.obj, k);
    } else if v.threads[t].pc.InRemove? {
      RemoveMoves(v, t, ch, k);
    } else {
      LookupMoves(v, t, ch.obj, k);
    }
  }

  /** Every step leaves an entry as it was, unless a `connect()` finds or stores it. */
  lemma StepMoves(v: World, a: Action, k: Key)
    requires Inv(v) && Can(v, a)
    ensures EntryMoves(v, a, Do(v, a), k)
  {
    if a.Progress? {
      ProgressMoves(v, a.thread, a.choice, k);
    }
  }

  /**
   The time kept with a cached key is the time of the last step in which a `connect()` found that
   key cached or stored a client under it.
  */
  lemma {:induction false} LastUsedIsLastConnect(pid: nat, acts: seq<Action>, k: Key)
    requires pid > 0 && Runs(Start(pid), acts) && k in Cached(Run(Start(pid), acts))
    ensures Cached(Run(Start(pid), acts))[k].lastUsed == LastConnect(Start(pid), acts, k)
    decreases |acts|
  {
    if acts == [] {
    } else {
      var n := |acts| - 1;
      RunSplit(Start(pid), acts);
      RunIsReachable(pid, acts[..n]);
      var v := Run(Start(pid), acts[..n]);
      ReachableInv(v);
      StepMoves(v, acts[n], k);
      if !ConnectsTo(v, acts[n], k) {
        LastUsedIsLastConnect(pid, acts[..n], k);
      }
    }
  }

  /** During a sweep no `connect()` finds or stores anything. */
  lemma NoConnectInSweep(v: World, a: Action, t: nat, k: Key)
    requires Inv(v) && Can(v, a) && t in v.threads && Sweeping(v.threads[t].pc)
    requires t in Do(v, a).threads && Sweeping(Do(v, a).threads[t].pc)
    ensures !ConnectsTo(v, a, k)
  {
    if ConnectsTo(v, a, k) {
      ConnectorEndsSweep(v, a.thread, a.choice, t);
    }
  }

  lemma ConnectorEndsSweep(v: World, u: nat, ch: Choice, t: nat)
    requires LocksOk(v) && t in v.threads && Sweeping(v.threads[t].pc) && u in v.threads && CanProgress(v, u, ch)
    requires v.threads[u].pc.InLookup? || v.threads[u].pc.Storing?
    ensures t in DoProgress(v, u, ch).threads && !Sweeping(DoProgress(v, u, ch).threads[t].pc)
  {
    if u != t {
      SweepsAlone(v, t, u);
    }
    OutsideSweep(v, t, ch);
  }

  /** What the last step did to the keys that the sweep has removed. */
  lemma TakenBefore(v: World, a: Action, t: nat, k: Key)
    requires Inv(v) && Can(v, a) && t in Do(v, a).threads && Sweeping(Do(v, a).threads[t].pc)
    requires k in Do(v, a).threads[t].sweep.keys
    ensures t in v.threads && Sweeping(v.threads[t].pc) && v.threads[t].sweep.before == Do(v, a).threads[t].sweep.before
    ensures k in v.threads[t].sweep.keys || (k in Cached(v) && k in v.threads[t].sweep.before && Cached(v)[k] == v.threads[t].sweep.before[k])
  {
    if a.Progress? && a.thread == t {
      if SweepsOn(v.threads[t].pc) {
        SweepStepIsDo(v, t, a.choice);
        TakenNow(v, t, a.choice, DoSweep(v, t, a.choice), k);
      } else {
        OutsideSweep(v, t, a.choice);
      }
    } else if a.Progress? {
      ProgressAdvances(v, a.thread, a.choice);
    } else {
      SweepsGoOn(v, a, t);
    }
  }

  lemma TakenNow(v: World, t: nat, ch: Choice, w: World, k: Key)
    requires Inv(v) && t in v.threads && CanProgress(v, t, ch) && SweepsOn(v.threads[t].pc)
    requires w == DoSweep(v, t, ch) && t in w.threads && k in w.threads[t].sweep.keys
    ensures Sweeping(v.threads[t].pc) && v.threads[t].sweep.before == w.threads[t].sweep.before
    ensures k in v.threads[t].sweep.keys || (k in Cached(v) && k in v.threads[t].sweep.before && Cached(v)[k] == v.threads[t].sweep.before[k])
  {
    match ch {
      case Cap(cap) => StartTakesNothing(v, t, cap);
      case Look(l) => LookFrame(v, t, l);
      case Take(l) =>
        TakeSweep(v, t, l);
        TakenIsAsBefore(v, t, ch);
      case Go =>
    }
  }

  lemma StartTakesNothing(v: World, t: nat, cap: nat)
    requires t in v.threads
    ensures DoStart(v, t, cap).threads[t].sweep.keys == []
  {}

  /** The entry that the removal loop takes is the one the sweep began with. */
  lemma TakenIsAsBefore(v: World, t: nat, ch: Choice)
    requires Inv(v) && t in v.threads && CanProgress(v, t, ch) && v.threads[t].pc.Evicting? && ch.Take?
    ensures var s := v.threads[t].sweep; ch.key in Cached(v) && ch.key in s.before && Cached(v)[ch.key] == s.before[ch.key]
  {
    assert SweepOk(v, t);
    TakenIsAlone(v, t, ch);
  }

  lemma {:induction false} TakenAtLastConnect(pid: nat, acts: seq<Action>, t: nat, k: Key)
    requires pid > 0 && Runs(Start(pid), acts) && t in Run(Start(pid), acts).threads
    requires Sweeping(Run(Start(pid), acts).threads[t].pc) && k in Run(Start(pid), acts).threads[t].sweep.keys
    ensures var s := Run(Start(pid), acts).threads[t].sweep;
      k in s.before && s.before[k].lastUsed == LastConnect(Start(pid), acts, k)
    decreases |acts|
  {
    if acts == [] {
    } else {
      var n := |acts| - 1;
      RunSplit(Start(pid), acts);
      RunIsReachable(pid, acts[..n]);
      var v := Run(Start(pid), acts[..n]);
      ReachableInv(v);
      TakenBefore(v, acts[n], t, k);
      NoConnectInSweep(v, acts[n], t, k);
      if k in v.threads[t].sweep.keys {
        TakenAtLastConnect(pid, acts[..n], t, k);
      } else {
        LastUsedIsLastConnect(pid, acts[..n], k);
      }
    }
  }

  /**
   Eviction takes the keys connected to longest ago: when the sweep is done, no key it took was
   connected to later than an idle key it left.
  */
  lemma EvictsLongestAgo(pid: nat, acts: seq<Action>, t: nat, taken: Key, left: Key)
    requires pid > 0 && Runs(Start(pid), acts)
    requires t in Run(Start(pid), acts).threads && Run(Start(pid), acts).threads[t].pc.Storing?
    requires var s := Run(Start(pid), acts).threads[t].sweep; taken in s.keys && left in s.idle && left !in s.keys
    ensures LastConnect(Start(pid), acts, taken) <= LastConnect(Start(pid), acts, left)
  {
    var w := Run(Start(pid), acts);
    RunIsReachable(pid, acts);
    ReachableInv(w);
    assert SweepOk(w, t);
    var s := w.threads[t].sweep;
    assert left in Left(s);
    SeenIdleStaysIdle(w, t, left);
    LastUsedIsLastConnect(pid, acts, left);
    TakenAtLastConnect(pid, acts, t, taken);
    SweepIsEviction(w, t);
  }

  /** Later in the run is later in time. */
  lemma {:induction false} LastConnectIsPast(w: World, acts: seq<Action>, k: Key)
    requires Runs(w, acts)
    ensures LastConnect(w, acts, k) <= Run(w, acts).clock
    decreases |acts|
  {
    if acts == [] {
    } else {
      var n := |acts| - 1;
      RunSplit(w, acts);
      ClockStep(Run(w, acts[..n]), acts[n]);
      LastConnectIsPast(w, acts[..n], k);
    }
  }

  /** After the first `n` steps of the run, a `connect()` found or stored key `k`. */
  ghost predicate ConnectedAfter(w: World, acts: seq<Action>, n: nat, k: Key)
    requires Runs(w, acts)
    decreases |acts|
  {
    |acts| > n &&
    var last := |acts| - 1;
    RunSplit(w, acts);
    ConnectsTo(Run(w, acts[..last]), acts[last], k) || ConnectedAfter(w, acts[..last], n, k)
  }

  lemma {:induction false} RunsUpTo(w: World, acts: seq<Action>, n: nat)
    requires Runs(w, acts) && n <= |acts|
    ensures Runs(w, acts[..n]) && Run(w, acts[..n]).clock <= Run(w, acts).clock
    decreases |acts|
  {
    if n == |acts| {
      assert acts[..n] == acts;
    } else {
      var last := |acts| - 1;
      RunSplit(w, acts);
      ClockStep(Run(w, acts[..last]), acts[last]);
      RunsUpTo(w, acts[..last], n);
      assert acts[..last][..n] == acts[..n];
    }
  }

  /** What the last connect to `k` tells about the time after `n` steps. */
  lemma {:induction false} LastConnectSince(w: World, acts: seq<Action>, n: nat, k: Key)
    requires Runs(w, acts) && n <= |acts| && Runs(w, acts[..n])
    ensures ConnectedAfter(w, acts, n, k) ==> Run(w, acts[..n]).clock <= LastConnect(w, acts, k)
    ensures !ConnectedAfter(w, acts, n, k) ==> LastConnect(w, acts, k) == LastConnect(w, acts[..n], k)
    decreases |acts|
  {
    if n == |acts| {
      assert acts[..n] == acts;
    } else {
      var last := |acts| - 1;
      RunSplit(w, acts);
      assert acts[..last][..n] == acts[..n];
      LastConnectSince(w, acts[..last], n, k);
      RunsUpTo(w, acts[..last], n);
    }
  }

  /**
   In the order of the run: a key that was connected to after some moment at which time passed is
   not evicted while an idle key stays that was last connected to before it.
  */
  lemma RecentOutlivesIdle(pid: nat, acts: seq<Action>, t: nat, n: nat, recent: Key, idle: Key)
    requires pid > 0 && Runs(Start(pid), acts) && n < |acts| && acts[n].Tick?
    requires t in Run(Start(pid), acts).threads && Run(Start(pid), acts).threads[t].pc.Storing?
    requires ConnectedAfter(Start(pid), acts, n + 1, recent) && !ConnectedAfter(Start(pid), acts, n, idle)
    requires var s := Run(Start(pid), acts).threads[t].sweep; idle in s.idle && idle !in s.keys
    ensures recent !in Run(Start(pid), acts).threads[t].sweep.keys
  {
    var w := Start(pid);
    RunsUpTo(w, acts, n);
    RunsUpTo(w, acts, n + 1);
    LastConnectSince(w, acts, n, idle);
    LastConnectSince(w, acts, n + 1, recent);
    LastConnectIsPast(w, acts[..n], idle);
    TickAt(w, acts, n);
    if recent in Run(w, acts).threads[t].sweep.keys {
      EvictsLongestAgo(pid, acts, t, recent, idle);
    }
  }

  lemma TickAt(w: World, acts: seq<Action>, n: nat)
    requires Runs(w, acts) && n < |acts| && acts[n].Tick? && Runs(w, acts[..n]) && Runs(w, acts[..n + 1])
    ensures Run(w, acts[..n]).clock < Run(w, acts[..n + 1]).clock
  {
    RunSplit(w, acts[..n + 1]);
    assert acts[..n + 1][..n] == acts[..n];
    ClockStep(Run(w, acts[..n]), acts[n]);
  }

  // ---------------------------------------------------------------------------------------
  //  How the attempts to close a client ended
  // ---------------------------------------------------------------------------------------

  /** The step is an attempt to close client `c`, by `close()` or after an eviction, and ends in `at`. */
  ghost predicate Tries(v: World, a: Action, c: nat, at: Attempt) {
    ByClose(v, a, c, at) || AfterEviction(v, a, c, at)
  }

  ghost predicate ByClose(v: World, a: Action, c: nat, at: Attempt) {
    && a.Progress? && a.choice == Tried(at) && a.thread in v.threads && v.threads[a.thread].pc.Closing?
    && v.threads[a.thread].op.Close? && v.threads[a.thread].op.obj in v.objects && Target(v, a.thread) == c
  }

  ghost predicate AfterEviction(v: World, a: Action, c: nat, at: Attempt) {
    && a.Progress? && a.choice == Tried(at) && a.thread in v.threads && v.threads[a.thread].pc.CloseEvicted?
    && v.threads[a.thread].evicted != [] && v.threads[a.thread].evicted[0] == c
  }

  /** Some attempt to close `c` ended in `at`. */
  ghost predicate Ended(w: World, acts: seq<Action>, c: nat, at: Attempt)
    requires Runs(w, acts)
    decreases |acts|
  {
    acts != [] &&
    var n := |acts| - 1;
    RunSplit(w, acts);
    Tries(Run(w, acts[..n]), acts[n], c, at) || Ended(w, acts[..n], c, at)
  }

  /** Some attempt to close `c` followed its eviction. */
  ghost predicate Disposed(w: World, acts: seq<Action>, c: nat)
    requires Runs(w, acts)
    decreases |acts|
  {
    acts != [] &&
    var n := |acts| - 1;
    RunSplit(w, acts);
    DisposesOf(Run(w, acts[..n]), acts[n], c) || Disposed(w, acts[..n], c)
  }

  /** What a step does to what is kept of client `c`. */
  ghost predicate Remembers(v: World, a: Action, w: World, c: nat) {
    c in v.clients ==>
      && c in w.clients && w.clients[c].key == v.clients[c].key && w.clients[c].pid == v.clients[c].pid
      && (w.clients[c].open <==> v.clients[c].open && !Tries(v, a, c, Closed))
      && (w.clients[c].returned <==> v.clients[c].returned || Tries(v, a, c, Closed) || Tries(v, a, c, Refused))
      && (w.clients[c].disposed <==> v.clients[c].disposed || DisposesOf(v, a, c))
  }

  ghost predicate DisposesOf(v: World, a: Action, c: nat) {
    exists at :: AfterEviction(v, a, c, at)
  }

  /** A new client is open, and nothing has been tried on it. */
  ghost predicate StartsOpen(v: World, w: World, c: nat) {
    c in w.clients && c !in v.clients ==> w.clients[c].open && !w.clients[c].returned && !w.clients[c].disposed
  }

  lemma SameClientsRemember(v: World, a: Action, w: World, c: nat)
    requires w.clients == v.clients && forall at :: !Tries(v, a, c, at)
    ensures Remembers(v, a, w, c) && StartsOpen(v, w, c)
  {
    if DisposesOf(v, a, c) {
      var at :| AfterEviction(v, a, c, at);
      assert Tries(v, a, c, at);
    }
  }

  lemma AttemptRemembers(v: World, t: nat, at: Attempt, w: World, d: nat, evicting: bool, c: nat)
    requires t in v.threads && Attempts(v, w, t, d, at, evicting)
    ensures Remembers(v, Progress(t, Tried(at)), w, c) && StartsOpen(v, w, c)
  {
    var a := Progress(t, Tried(at));
    forall x: nat, y: Attempt ensures Tries(v, a, x, y) <==> x == d && y == at {}
    forall x: nat ensures DisposesOf(v, a, x) <==> x == d && evicting {
      assert x == d && evicting ==> AfterEviction(v, a, x, at);
    }
  }

  lemma BuildRemembers(v: World, t: nat, ch: Choice, c: nat)
    requires t in v.threads && CanProgress(v, t, ch) && v.threads[t].pc.Building? && ch.Made?
    ensures Remembers(v, Progress(t, ch), DoBuild(v, t, ch), c) && StartsOpen(v, DoBuild(v, t, ch), c)
  {}

  /** Steps that try nothing and build nothing. */
  lemma IdleOnClients(v: World, t: nat, ch: Choice)
    requires Inv(v) && t in v.threads && CanProgress(v, t, ch)
    requires !v.threads[t].pc.Closing? && !(v.threads[t].pc.CloseEvicted? && v.threads[t].evicted != [])
    requires !(v.threads[t].pc.Building? && ch.Made?)
    ensures DoProgress(v, t, ch).clients == v.clients
  {
    if !Loud(v.threads[t], ch) {
      assert Shape(v, t) && ThreadOk(v, t);
      ProgressIsQuiet(v, t, ch);
    } else if v.threads[t].pc.Evicting? {
      TakenIsAlone(v, t, ch);
      TakingIsTake(v, t, ch);
      TakeEjects(v, t, ch.key);
    } else if v.threads[t].pc.Storing? {
      StoreStores(v, t, ch.obj);
    } else {
      RemoveRemoves(v, t);
    }
  }

  lemma AttemptStepRemembers(v: World, t: nat, ch: Choice, c: nat)
    requires t in v.threads && CanProgress(v, t, ch)
    requires v.threads[t].pc.Closing? || (v.threads[t].pc.CloseEvicted? && v.threads[t].evicted != [])
    ensures Remembers(v, Progress(t, ch), DoProgress(v, t, ch), c) && StartsOpen(v, DoProgress(v, t, ch), c)
  {
    var evicting := v.threads[t].pc.CloseEvicted?;
    var d := if evicting then v.threads[t].evicted[0] else Target(v, t);
    AttemptAttempts(v, t, d, ch.attempt);
    AttemptRemembers(v, t, ch.attempt, DoAttempt(v, t, d, ch.attempt), d, evicting, c);
  }

  lemma ProgressRemembers(v: World, t: nat, ch: Choice, c: nat)
    requires Inv(v) && t in v.threads && CanProgress(v, t, ch)
    ensures Remembers(v, Progress(t, ch), DoProgress(v, t, ch), c) && StartsOpen(v, DoProgress(v, t, ch), c)
  {
    var th := v.threads[t];
    if th.pc.Closing? || (th.pc.CloseEvicted? && th.evicted != []) {
      AttemptStepRemembers(v, t, ch, c);
    } else if th.pc.Building? && ch.Made? {
      BuildRemembers(v, t, ch, c);
    } else {
      IdleStepRemembers(v, t, ch, c);
    }
  }

  lemma IdleStepRemembers(v: World, t: nat, ch: Choice, c: nat)
    requires Inv(v) && t in v.threads && CanProgress(v, t, ch)
    requires !v.threads[t].pc.Closing? && !(v.threads[t].pc.CloseEvicted? && v.threads[t].evicted != [])
    requires !(v.threads[t].pc.Building? && ch.Made?)
    ensures Remembers(v, Progress(t, ch), DoProgress(v, t, ch), c) && StartsOpen(v, DoProgress(v, t, ch), c)
  {
    IdleOnClients(v, t, ch);
    IdleTriesNothing(v, t, ch, DoProgress(v, t, ch), c);
  }

  lemma IdleTriesNothing(v: World, t: nat, ch: Choice, w: World, c: nat)
    requires t in v.threads && w.clients == v.clients
    requires !v.threads[t].pc.Closing? && !(v.threads[t].pc.CloseEvicted? && v.threads[t].evicted != [])
    ensures Remembers(v, Progress(t, ch), w, c) && StartsOpen(v, w, c)
  {
    forall at ensures !Tries(v, Progress(t, ch), c, at) {}
    SameClientsRemember(v, Progress(t, ch), w, c);
  }

  lemma StepRemembers(v: World, a: Action, c: nat)
    requires Inv(v) && Can(v, a)
    ensures Remembers(v, a, Do(v, a), c) && StartsOpen(v, Do(v, a), c)
  {
    if a.Progress? {
      ProgressRemembers(v, a.thread, a.choice, c);
    } else {
      SameClientsRemember(v, a, Do(v, a), c);
    }
  }

  /** An attempt is made on a client that is there. */
  lemma UnknownIsUntried(v: World, a: Action, c: nat)
    requires Can(v, a) && c !in v.clients
    ensures forall at :: !Tries(v, a, c, at)
    ensures !DisposesOf(v, a, c)
  {
    forall at ensures !Tries(v, a, c, at) {}
  }

  lemma {:induction false} EndedIsKnown(pid: nat, acts: seq<Action>, c: nat, at: Attempt)
    requires pid > 0 && Runs(Start(pid), acts)
    ensures Ended(Start(pid), acts, c, at) || Disposed(Start(pid), acts, c) ==> c in Run(Start(pid), acts).clients
    decreases |acts|
  {
    if acts == [] {
    } else {
      var n := |acts| - 1;
      RunSplit(Start(pid), acts);
      RunIsReachable(pid, acts[..n]);
      var v := Run(Start(pid), acts[..n]);
      ReachableInv(v);
      StepRemembers(v, acts[n], c);
      EndedIsKnown(pid, acts[..n], c, at);
      if c !in v.clients {
        UnknownIsUntried(v, acts[n], c);
      }
    }
  }

  /**
   A client is open until an attempt to close it succeeds; one of its attempts returned iff one
   succeeded or was refused; and it was disposed of iff an attempt followed its eviction.
  */
  lemma {:induction false} ClientsRememberAttempts(pid: nat, acts: seq<Action>, c: nat)
    requires pid > 0 && Runs(Start(pid), acts) && c in Run(Start(pid), acts).clients
    ensures var client := Run(Start(pid), acts).clients[c];
      && (client.open <==> !Ended(Start(pid), acts, c, Closed))
      && (client.returned <==> Ended(Start(pid), acts, c, Closed) || Ended(Start(pid), acts, c, Refused))
      && (client.disposed <==> Disposed(Start(pid), acts, c))
    decreases |acts|
  {
    if acts == [] {
    } else {
      var n := |acts| - 1;
      RunSplit(Start(pid), acts);
      RunIsReachable(pid, acts[..n]);
      var v := Run(Start(pid), acts[..n]);
      ReachableInv(v);
      StepRemembers(v, acts[n], c);
      if c in v.clients {
        ClientsRememberAttempts(pid, acts[..n], c);
      } else {
        NothingTriedYet(pid, acts, c, Closed);
        NothingTriedYet(pid, acts, c, Refused);
      }
    }
  }

  lemma NothingTriedYet(pid: nat, acts: seq<Action>, c: nat, at: Attempt)
    requires pid > 0 && acts != [] && Runs(Start(pid), acts) && Runs(Start(pid), acts[..|acts| - 1])
    requires c !in Run(Start(pid), acts[..|acts| - 1]).clients
    ensures !Ended(Start(pid), acts, c, at) && !Disposed(Start(pid), acts, c)
  {
    var n := |acts| - 1;
    RunSplit(Start(pid), acts);
    EndedIsKnown(pid, acts[..n], c, at);
    UnknownIsUntried(Run(Start(pid), acts[..n]), acts[n], c);
  }

  // ---------------------------------------------------------------------------------------
  //  What a call is about
  // ---------------------------------------------------------------------------------------

  /** The call that thread `t` made last, and the cache key it is about. */
  ghost function LastCall(w: World, acts: seq<Action>, t: nat): Option<(Op, Key)>
    requires Runs(w, acts)
    decreases |acts|
  {
    if acts == [] then None
    else
      var n := |acts| - 1;
      RunSplit(w, acts);
      var v := Run(w, acts[..n]);
      match acts[n]
      case BeginConnect(u, key) => if u == t then Some((Connect, key)) else LastCall(w, acts[..n], t)
      case BeginClose(u, o) =>
        if u == t then Some((Close(o), v.clients[v.objects[o]].key)) else LastCall(w, acts[..n], t)
      case _ => LastCall(w, acts[..n], t)
  }

  /** Only the start of a call changes what a thread is about. */
  lemma CallStays(v: World, a: Action, t: nat)
    requires Inv(v) && Can(v, a) && t in Do(v, a).threads && !Do(v, a).threads[t].pc.Idle?
    requires !(a.BeginConnect? && a.thread == t) && !(a.BeginClose? && a.thread == t)
    ensures t in v.threads && !v.threads[t].pc.Idle?
    ensures v.threads[t].op == Do(v, a).threads[t].op && v.threads[t].key == Do(v, a).threads[t].key
  {
    if a.Progress? {
      ProgressAdvances(v, a.thread, a.choice);
    }
  }

  /** A thread in the middle of a call works for the call it made last, under the key of that call. */
  lemma {:induction false} CallIsTheLast(pid: nat, acts: seq<Action>, t: nat)
    requires pid > 0 && Runs(Start(pid), acts)
    requires t in Run(Start(pid), acts).threads && !Run(Start(pid), acts).threads[t].pc.Idle?
    ensures var th := Run(Start(pid), acts).threads[t]; LastCall(Start(pid), acts, t) == Some((th.op, th.key))
    decreases |acts|
  {
    if acts == [] {
    } else {
      var n := |acts| - 1;
      RunSplit(Start(pid), acts);
      RunIsReachable(pid, acts[..n]);
      var v := Run(Start(pid), acts[..n]);
      ReachableInv(v);
      if !(acts[n].BeginConnect? && acts[n].thread == t) && !(acts[n].BeginClose? && acts[n].thread == t) {
        CallStays(v, acts[n], t);
        CallIsTheLast(pid, acts[..n], t);
      }
    }
  }

  /** So what `connect(key)` hands out is an open client of that very key. */
  lemma ConnectHandsOutItsKey(pid: nat, acts: seq<Action>, t: nat, ch: Choice)
    requires pid > 0 && Runs(Start(pid), acts) && t in Run(Start(pid), acts).threads
    requires CanProgress(Run(Start(pid), acts), t, ch) && HandedOut(Run(Start(pid), acts), t, ch).Some?
    ensures var w := Run(Start(pid), acts); var c := HandedOut(w, t, ch).value;
      c in w.clients && w.clients[c].open && LastCall(Start(pid), acts, t) == Some((Connect, w.clients[c].key))
  {
    var w := Run(Start(pid), acts);
    RunIsReachable(pid, acts);
    ReachableInv(w);
    assert Shape(w, t);
    CallIsTheLast(pid, acts, t);
    ConnectHandsOutLiveClients(w, t, ch);
  }
}
