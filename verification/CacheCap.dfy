/**
 The cap on cached clients, over whole runs. The sweep looks at one entry after the other while
 other threads drop their handles, so what holds when the new client is stored depends on what
 each entry's strong count was when it was looked at.
*/
module CacheCap {
  import opened CacheContents
  import opened CacheEffects
  import opened CacheInvariant
  import opened CacheLocks
  import opened CacheProtocol
  import opened CacheSpec
  import opened CacheTheorems
  import opened Wrappers

  /** The look at `k`, in state `v`, at which its client turned out to be in use. */
  ghost predicate FoundInUse(v: World, a: Action, t: nat, k: Key, c: nat) {
    a == Progress(t, Look(k)) && k in Cached(v) && Cached(v)[k].client == c && |Holders(v, c)| > 1
  }

  /**
   In the sweep that thread `t` is in at the end of the run, it looked at key `k` when that held
   client `c` and something else than the cache kept `c`.
  */
  ghost predicate SeenInUse(w: World, acts: seq<Action>, t: nat, k: Key, c: nat)
    requires Runs(w, acts)
    decreases |acts|
  {
    acts != [] &&
    var n := |acts| - 1;
    RunSplit(w, acts);
    var v := Run(w, acts[..n]);
    && t in v.threads && Sweeping(v.threads[t].pc)
    && (FoundInUse(v, acts[n], t, k, c) || SeenInUse(w, acts[..n], t, k, c))
  }

  /** During the sweep that thread `t` is in, the last handle of client `c` was dropped. */
  ghost predicate LastDropSince(w: World, acts: seq<Action>, t: nat, c: nat)
    requires Runs(w, acts)
    decreases |acts|
  {
    acts != [] &&
    var n := |acts| - 1;
    RunSplit(w, acts);
    var v := Run(w, acts[..n]);
    && t in v.threads && Sweeping(v.threads[t].pc)
    && (DropsLast(v, acts[n], c) || LastDropSince(w, acts[..n], t, c))
  }

  /** Taken in state `v`, the action drops the last handle of client `c`. */
  ghost predicate DropsLast(v: World, a: Action, c: nat) {
    a.DropHandle? && Can(v, a) && IsHeld(v, c) && !IsHeld(Do(v, a), c)
  }

  /** No handle was dropped since thread `t` took the cache lock for its present sweep. */
  ghost predicate NoDropSince(w: World, acts: seq<Action>, t: nat)
    requires Runs(w, acts)
    decreases |acts|
  {
    acts != [] &&
    var n := |acts| - 1;
    RunSplit(w, acts);
    var v := Run(w, acts[..n]);
    t in v.threads && Sweeping(v.threads[t].pc) ==> !acts[n].DropHandle? && NoDropSince(w, acts[..n], t)
  }

  /** Looked at, and neither idle nor still to come. */
  predicate LookedPast(s: Sweep, k: Key) {
    k in s.before && k !in s.todo && k !in s.idle && |s.before| >= s.cap
  }

  /** Only its own steps change a sweep. */
  lemma SweepIsOwn(w: World, a: Action, t: nat)
    requires Can(w, a) && !(a.Progress? && a.thread == t)
    requires t in Do(w, a).threads && Sweeping(Do(w, a).threads[t].pc)
    ensures t in w.threads && w.threads[t] == Do(w, a).threads[t]
  {
    if a.Progress? {
      ProgressAdvances(w, a.thread, a.choice);
    }
  }

  lemma LookInUse(w: World, t: nat, k: Key)
    requires t in w.threads && w.threads[t].pc.Scanning? && SweepCache(w, w.threads[t].sweep) && w.threads[t].sweep.keys == []
    requires LookedPast(DoLook(w, t, k).threads[t].sweep, k)
    ensures FoundInUse(w, Progress(t, Look(k)), t, k, w.threads[t].sweep.before[k].client)
  {
    assert Cached(w) == w.threads[t].sweep.before;
    var holders := Holders(w, Cached(w)[k].client);
    assert InCache(k) in holders;
  }

  lemma OtherLook(w: World, t: nat, l: Key, k: Key)
    requires t in w.threads && w.threads[t].pc.Scanning? && l != k
    ensures LookedPast(DoLook(w, t, l).threads[t].sweep, k) == LookedPast(w.threads[t].sweep, k)
  {
    LookFrame(w, t, l);
  }

  lemma StartLooksAtNone(w: World, t: nat, cap: nat, k: Key)
    requires t in w.threads
    ensures !LookedPast(DoStart(w, t, cap).threads[t].sweep, k)
  {}

  lemma TakeSweep(w: World, t: nat, k: Key)
    requires t in w.threads
    ensures var s := w.threads[t].sweep; DoTake(w, t, k).threads[t].sweep == s.(keys := s.keys + [k])
  {}

  lemma TakeLooksAtNone(w: World, t: nat, l: Key, k: Key)
    requires t in w.threads
    ensures LookedPast(DoTake(w, t, l).threads[t].sweep, k) == LookedPast(w.threads[t].sweep, k)
    ensures DoTake(w, t, l).threads[t].sweep.before == w.threads[t].sweep.before
  {
    TakeSweep(w, t, l);
  }

  /** How a sweep's own step moves what it has looked at. */
  lemma OwnLook(w: World, w': World, t: nat, ch: Choice, k: Key)
    requires SweepsOk(w) && t in w.threads && CanProgress(w, t, ch) && SweepsOn(w.threads[t].pc)
    requires w' == DoSweep(w, t, ch) && t in w'.threads && LookedPast(w'.threads[t].sweep, k)
    ensures Sweeping(w.threads[t].pc) && w'.threads[t].sweep.before == w.threads[t].sweep.before
    ensures || LookedPast(w.threads[t].sweep, k)
            || FoundInUse(w, Progress(t, ch), t, k, w'.threads[t].sweep.before[k].client)
  {
    assert SweepOk(w, t);
    match ch {
      case Cap(cap) => StartLooksAtNone(w, t, cap, k);
      case Look(l) => if l == k { LookInUse(w, t, k); } else { OtherLook(w, t, l, k); }
      case Take(l) => TakeLooksAtNone(w, t, l, k);
      case Go =>
    }
  }

  /** A key looked at and passed over was so before the last step, or that step found it in use. */
  lemma LookedPastStep(v: World, a: Action, t: nat, k: Key)
    requires Reachable(v) && Can(v, a) && t in Do(v, a).threads && Sweeping(Do(v, a).threads[t].pc)
    requires LookedPast(Do(v, a).threads[t].sweep, k)
    ensures t in v.threads && Sweeping(v.threads[t].pc) && v.threads[t].sweep.before == Do(v, a).threads[t].sweep.before
    ensures LookedPast(v.threads[t].sweep, k) || FoundInUse(v, a, t, k, Do(v, a).threads[t].sweep.before[k].client)
  {
    if a.Progress? && a.thread == t {
      ReachableInv(v);
      if !SweepsOn(v.threads[t].pc) {
        OutsideSweep(v, t, a.choice);
      } else {
        SweepStepIsDo(v, t, a.choice);
        OwnLook(v, DoSweep(v, t, a.choice), t, a.choice, k);
      }
    } else {
      SweepIsOwn(v, a, t);
    }
  }

  lemma {:induction false} LookedPastWasInUse(pid: nat, acts: seq<Action>, t: nat, k: Key)
    requires pid > 0 && Runs(Start(pid), acts) && t in Run(Start(pid), acts).threads
    requires Sweeping(Run(Start(pid), acts).threads[t].pc) && LookedPast(Run(Start(pid), acts).threads[t].sweep, k)
    ensures SeenInUse(Start(pid), acts, t, k, Run(Start(pid), acts).threads[t].sweep.before[k].client)
    decreases |acts|
  {
    if acts == [] {
    } else {
      var n := |acts| - 1;
      RunSplit(Start(pid), acts);
      RunIsReachable(pid, acts[..n]);
      var v := Run(Start(pid), acts[..n]);
      LookedPastStep(v, acts[n], t, k);
      if LookedPast(v.threads[t].sweep, k) {
        LookedPastWasInUse(pid, acts[..n], t, k);
      }
    }
  }

  /** At the end of the sweep, beyond the cap, what is left was looked at and is not idle. */
  lemma LeftIsLookedPast(w: World, s: Sweep, k: Key)
    requires SweepCache(w, s) && Eviction(s.before, s.idle, s.cap, s.keys) && s.todo == {}
    requires k in Cached(w) && |Cached(w)| >= s.cap
    ensures LookedPast(s, k) && Cached(w)[k] == s.before[k]
  {
    SizeInSweep(w, s);
  }

  /** The cache after the insertion, and what the sweep left over. */
  lemma StoredBeyondCap(w: World, t: nat, ch: Choice, k: Key)
    requires Reachable(w) && t in w.threads && CanProgress(w, t, ch) && w.threads[t].pc.Storing?
    requires |Cached(DoProgress(w, t, ch))| > w.threads[t].sweep.cap
    requires k in Cached(DoProgress(w, t, ch)) && k != w.threads[t].key
    ensures LookedPast(w.threads[t].sweep, k) && k in Cached(w)
    ensures Cached(DoProgress(w, t, ch))[k] == w.threads[t].sweep.before[k]
  {
    InsertFindsKeyVacant(w, t, ch);
    assert Cached(DoProgress(w, t, ch)).Keys == Cached(w).Keys + {w.threads[t].key};
    SweptCache(w, t);
    LeftIsLookedPast(w, w.threads[t].sweep, k);
  }

  lemma SweptCache(w: World, t: nat)
    requires Reachable(w) && t in w.threads && w.threads[t].pc.Storing?
    ensures var s := w.threads[t].sweep;
      SweepCache(w, s) && Eviction(s.before, s.idle, s.cap, s.keys) && s.todo == {}
  {
    ReachableInv(w);
    assert SweepOk(w, t);
  }

  /**
   When the new client is stored, the cache is within the cap, or every other entry was in use
   when this sweep looked at it.
  */
  lemma CapOrAllSeenInUse(pid: nat, acts: seq<Action>, t: nat, ch: Choice)
    requires pid > 0 && Runs(Start(pid), acts)
    requires t in Run(Start(pid), acts).threads && Run(Start(pid), acts).threads[t].pc.Storing?
    requires CanProgress(Run(Start(pid), acts), t, ch)
    ensures var w := Run(Start(pid), acts); var w' := DoProgress(w, t, ch);
      || |Cached(w')| <= w.threads[t].sweep.cap
      || forall k :: k in Cached(w') && k != w.threads[t].key ==> SeenInUse(Start(pid), acts, t, k, Cached(w')[k].client)
  {
    var w := Run(Start(pid), acts);
    var w' := DoProgress(w, t, ch);
    RunIsReachable(pid, acts);
    if |Cached(w')| > w.threads[t].sweep.cap {
      forall k | k in Cached(w') && k != w.threads[t].key
        ensures SeenInUse(Start(pid), acts, t, k, Cached(w')[k].client)
      {
        StoredBeyondCap(w, t, ch, k);
        LookedPastWasInUse(pid, acts, t, k);
      }
    }
  }

  /** Besides the cache, only PHP objects keep a cached client. */
  lemma InUseMeansHeld(w: World, k: Key)
    requires Inv(w) && k in Cached(w) && w.cache.pid == w.pid && |Holders(w, Cached(w)[k].client)| > 1
    ensures IsHeld(w, Cached(w)[k].client)
  {
    var c := Cached(w)[k].client;
    if !IsHeld(w, c) {
      assert IsCached(w, c) && EntryOk(w, k);
      forall t <- w.threads ensures w.threads[t].built != Some(c) && c !in w.threads[t].evicted {
        assert Shape(w, t) && ThreadOk(w, t) && EvictedOk(w, t);
      }
      forall l <- Cached(w) | Cached(w)[l].client == c ensures l == k { assert EntryOk(w, l); }
      AloneMeansCountOfOne(w, k);
    }
  }

  lemma HeldUnlessDropped(w: World, a: Action, c: nat)
    requires Can(w, a) && !a.DropHandle? && IsHeld(w, c)
    ensures IsHeld(Do(w, a), c)
  {
    var o :| o in w.objects && w.objects[o] == c;
    if a.Progress? {
      ProgressAdvances(w, a.thread, a.choice);
    }
    assert o in Do(w, a).objects && Do(w, a).objects[o] == c;
  }

  lemma FoundInUseIsHeld(v: World, a: Action, t: nat, k: Key, c: nat)
    requires Reachable(v) && t in v.threads && Sweeping(v.threads[t].pc) && FoundInUse(v, a, t, k, c)
    ensures IsHeld(v, c)
  {
    ReachableInv(v);
    assert SweepOk(v, t);
    InUseMeansHeld(v, k);
  }

  /** An entry in use when looked at is held for as long as its last handle is not dropped. */
  lemma {:induction false} SeenInUseStaysHeld(pid: nat, acts: seq<Action>, t: nat, k: Key, c: nat)
    requires pid > 0 && Runs(Start(pid), acts) && SeenInUse(Start(pid), acts, t, k, c)
    requires !LastDropSince(Start(pid), acts, t, c)
    ensures IsHeld(Run(Start(pid), acts), c)
    decreases |acts|
  {
    var n := |acts| - 1;
    RunSplit(Start(pid), acts);
    RunIsReachable(pid, acts[..n]);
    var v := Run(Start(pid), acts[..n]);
    if SeenInUse(Start(pid), acts[..n], t, k, c) {
      SeenInUseStaysHeld(pid, acts[..n], t, k, c);
    } else {
      FoundInUseIsHeld(v, acts[n], t, k, c);
    }
    if !acts[n].DropHandle? {
      HeldUnlessDropped(v, acts[n], c);
    }
  }

  /** A thread that sweeps, and goes on sweeping, makes no handle; nor does any other thread. */
  lemma SweepMakesNoHandle(v: World, u: nat, ch: Choice, t: nat)
    requires Inv(v) && t in v.threads && Sweeping(v.threads[t].pc) && u in v.threads && CanProgress(v, u, ch)
    requires t in DoProgress(v, u, ch).threads && Sweeping(DoProgress(v, u, ch).threads[t].pc)
    ensures forall o <- DoProgress(v, u, ch).objects :: o in v.objects && DoProgress(v, u, ch).objects[o] == v.objects[o]
  {
    ProgressAdvances(v, u, ch);
    if u != t {
      SweepsAlone(v, t, u);
    } else if v.threads[t].pc.Storing? {
      OutsideSweep(v, t, ch);
    }
  }

  /** During a sweep a client without a handle gets none. */
  lemma UnheldStays(v: World, a: Action, t: nat, c: nat)
    requires Inv(v) && Can(v, a) && t in v.threads && Sweeping(v.threads[t].pc) && !IsHeld(v, c)
    requires t in Do(v, a).threads && Sweeping(Do(v, a).threads[t].pc)
    ensures !IsHeld(Do(v, a), c)
  {
    var w := Do(v, a);
    if a.Progress? {
      SweepMakesNoHandle(v, a.thread, a.choice, t);
    }
    forall o <- w.objects ensures w.objects[o] != c {
      assert o in v.objects ==> v.objects[o] != c;
    }
  }

  lemma {:induction false} DroppedStaysUnheld(pid: nat, acts: seq<Action>, t: nat, c: nat)
    requires pid > 0 && Runs(Start(pid), acts) && LastDropSince(Start(pid), acts, t, c)
    requires t in Run(Start(pid), acts).threads && Sweeping(Run(Start(pid), acts).threads[t].pc)
    ensures !IsHeld(Run(Start(pid), acts), c)
    decreases |acts|
  {
    var n := |acts| - 1;
    RunSplit(Start(pid), acts);
    RunIsReachable(pid, acts[..n]);
    var v := Run(Start(pid), acts[..n]);
    if LastDropSince(Start(pid), acts[..n], t, c) {
      DroppedStaysUnheld(pid, acts[..n], t, c);
      ReachableInv(v);
      UnheldStays(v, acts[n], t, c);
    }
  }

  /** Storing the fresh client changes nothing about who holds the others. */
  lemma StoringKeepsHandles(w: World, t: nat, ch: Choice, k: Key)
    requires Reachable(w) && t in w.threads && CanProgress(w, t, ch) && w.threads[t].pc.Storing?
    requires k in Cached(DoProgress(w, t, ch)) && k != w.threads[t].key
    ensures IsHeld(DoProgress(w, t, ch), Cached(DoProgress(w, t, ch))[k].client) <==> IsHeld(w, Cached(DoProgress(w, t, ch))[k].client)
  {
    var w' := DoProgress(w, t, ch);
    InsertFindsKeyVacant(w, t, ch);
    var c := Cached(w')[k].client;
    assert k in Cached(w) && Cached(w)[k].client == c;
    StoringHandsOutItsOwn(w, t, ch, c);
    if IsHeld(w, c) {
      HeldUnlessDropped(w, Progress(t, ch), c);
    }
  }

  lemma StoringHandsOutItsOwn(w: World, t: nat, ch: Choice, c: nat)
    requires Reachable(w) && t in w.threads && CanProgress(w, t, ch) && w.threads[t].pc.Storing? && IsCached(w, c)
    ensures IsHeld(DoProgress(w, t, ch), c) ==> IsHeld(w, c)
  {
    ReachableInv(w);
    StoreStores(w, t, ch.obj);
    StoreStanding(w, DoStore(w, t, ch.obj), t, c);
    StoreFacts(w, DoStore(w, t, ch.obj), t);
  }

  /**
   Beyond the cap, another entry is in use when the new client is stored iff its last handle was
   not dropped during the sweep.
  */
  lemma BeyondCapHeldExactly(pid: nat, acts: seq<Action>, t: nat, ch: Choice, k: Key)
    requires pid > 0 && Runs(Start(pid), acts)
    requires t in Run(Start(pid), acts).threads && Run(Start(pid), acts).threads[t].pc.Storing?
    requires CanProgress(Run(Start(pid), acts), t, ch)
    requires var w := Run(Start(pid), acts); var w' := DoProgress(w, t, ch);
      |Cached(w')| > w.threads[t].sweep.cap && k in Cached(w') && k != w.threads[t].key
    ensures var w' := DoProgress(Run(Start(pid), acts), t, ch);
      IsHeld(w', Cached(w')[k].client) <==> !LastDropSince(Start(pid), acts, t, Cached(w')[k].client)
  {
    var w := Run(Start(pid), acts);
    var c := Cached(DoProgress(w, t, ch))[k].client;
    RunIsReachable(pid, acts);
    CapOrAllSeenInUse(pid, acts, t, ch);
    StoringKeepsHandles(w, t, ch, k);
    if LastDropSince(Start(pid), acts, t, c) {
      DroppedStaysUnheld(pid, acts, t, c);
    } else {
      SeenInUseStaysHeld(pid, acts, t, k, c);
    }
  }

  /** The cache is within the cap, or every entry but that of `key` is in use. */
  ghost predicate CapMetOrAllHeld(w: World, cap: nat, key: Key) {
    |Cached(w)| <= cap || forall k :: k in Cached(w) && k != key ==> IsHeld(w, Cached(w)[k].client)
  }

  /**
   When the new client is stored the cache is within the cap or every other entry is in use, iff
   it is within the cap or the last handle of no other remaining entry was dropped during the
   sweep. Handles of clients that were evicted, and handles beside another, may come and go.
  */
  lemma CapOrAllHeldExactly(pid: nat, acts: seq<Action>, t: nat, ch: Choice)
    requires pid > 0 && Runs(Start(pid), acts)
    requires t in Run(Start(pid), acts).threads && Run(Start(pid), acts).threads[t].pc.Storing?
    requires CanProgress(Run(Start(pid), acts), t, ch)
    ensures var w := Run(Start(pid), acts); var w' := DoProgress(w, t, ch); var th := w.threads[t];
      CapMetOrAllHeld(w', th.sweep.cap, th.key) <==>
        || |Cached(w')| <= th.sweep.cap
        || forall k :: k in Cached(w') && k != th.key ==> !LastDropSince(Start(pid), acts, t, Cached(w')[k].client)
  {
    var w := Run(Start(pid), acts);
    var w' := DoProgress(w, t, ch);
    if |Cached(w')| > w.threads[t].sweep.cap {
      forall k | k in Cached(w') && k != w.threads[t].key
        ensures IsHeld(w', Cached(w')[k].client) <==> !LastDropSince(Start(pid), acts, t, Cached(w')[k].client)
      {
        BeyondCapHeldExactly(pid, acts, t, ch, k);
      }
    }
  }

  lemma {:induction false} NoDropNoLastDrop(w: World, acts: seq<Action>, t: nat, c: nat)
    requires Runs(w, acts) && NoDropSince(w, acts, t)
    ensures !LastDropSince(w, acts, t, c)
    decreases |acts|
  {
    var n := |acts| - 1;
    RunSplit(w, acts);
    var v := Run(w, acts[..n]);
    if t in v.threads && Sweeping(v.threads[t].pc) {
      NoDropNoLastDrop(w, acts[..n], t, c);
    }
  }

  /** In particular so it is when no handle at all is dropped during the sweep. */
  lemma CapOrAllHeld(pid: nat, acts: seq<Action>, t: nat, ch: Choice)
    requires pid > 0 && Runs(Start(pid), acts) && NoDropSince(Start(pid), acts, t)
    requires t in Run(Start(pid), acts).threads && Run(Start(pid), acts).threads[t].pc.Storing?
    requires CanProgress(Run(Start(pid), acts), t, ch)
    ensures var w := Run(Start(pid), acts);
      CapMetOrAllHeld(DoProgress(w, t, ch), w.threads[t].sweep.cap, w.threads[t].key)
  {
    forall c ensures !LastDropSince(Start(pid), acts, t, c) {
      NoDropNoLastDrop(Start(pid), acts, t, c);
    }
    CapOrAllHeldExactly(pid, acts, t, ch);
  }
}
