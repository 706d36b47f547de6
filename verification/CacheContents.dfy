/**
 What the client cache holds: which clients are cached, held by PHP objects, carried by a thread,
 or closed; what a strong count of one means; and the steps that leave all that alone.
*/
module CacheContents {
  import opened CacheLocks
  import opened CacheProtocol
  import opened CacheSpec
  import opened Counting
  import opened Wrappers

  predicate IsCached(w: World, c: nat) {
    exists k :: k in Cached(w) && Cached(w)[k].client == c
  }

  predicate IsHeld(w: World, c: nat) {
    exists o :: o in w.objects && w.objects[o] == c
  }

  predicate IsBuilt(w: World, c: nat) {
    exists t :: t in w.threads && w.threads[t].built == Some(c)
  }

  /** On a thread's list of evicted clients that it has yet to close. */
  predicate IsEvicted(w: World, c: nat) {
    exists t :: t in w.threads && c in w.threads[t].evicted
  }

  /** Built by the current process, with no close attempt that returned and none after eviction. */
  predicate Untouched(w: World, c: nat) {
    c in w.clients && w.clients[c].pid == w.pid && !w.clients[c].returned && !w.clients[c].disposed
  }

  predicate EntryOk(w: World, k: Key)
    requires k in Cached(w)
  {
    var c := Cached(w)[k].client;
    c in w.clients && w.clients[c].key == k && w.clients[c].pid == w.pid && !w.clients[c].disposed
  }

  /** A client of this process that PHP holds stays cached until a close attempt returns. */
  predicate HeldOk(w: World, o: nat)
    requires o in w.objects
  {
    var c := w.objects[o];
    && c in w.clients
    && (!w.clients[c].returned && w.clients[c].pid == w.pid ==>
          w.clients[c].key in Cached(w) && Cached(w)[w.clients[c].key].client == c)
  }

  /** The connecting thread has missed the cache, and its key has stayed vacant since. */
  predicate Missed(th: Thread) {
    (th.op.Connect? && (th.pc.WantRt? || th.pc.InRt? || th.pc.Building?)) || th.pc.WantInsert? || Inserting(th.pc)
  }

  /** Between `tokio_rt` and the use of the runtime. */
  predicate NeedsRuntime(pc: Pc) {
    pc.Building? || pc.WantInsert? || pc.Closing? || Inserting(pc)
  }

  /** A client under construction is known to its thread only. */
  predicate BuiltOk(w: World, t: nat)
    requires t in w.threads
  {
    var th := w.threads[t];
    th.built.Some? ==>
      && Untouched(w, th.built.value) && w.clients[th.built.value].key == th.key
      && !IsHeld(w, th.built.value) && !IsEvicted(w, th.built.value)
  }

  predicate VacantOk(w: World, t: nat)
    requires t in w.threads
  {
    Missed(w.threads[t]) ==> w.threads[t].key !in Cached(w)
  }

  predicate Removing(pc: Pc) {
    pc.WantRemove? || pc.InRemove?
  }

  predicate RemovingOk(w: World, t: nat)
    requires t in w.threads
  {
    var th := w.threads[t];
    Removing(th.pc) ==>
      th.op.Close? && th.op.obj in w.objects && Target(w, t) in w.clients && w.clients[Target(w, t)].returned
  }

  /** Nothing but the evicting thread's list keeps an evicted client. */
  predicate EvictedOk(w: World, t: nat)
    requires t in w.threads
  {
    forall c <- w.threads[t].evicted ::
      c in w.clients && w.clients[c].pid == w.pid && !IsCached(w, c) && !IsHeld(w, c)
  }

  predicate ThreadOk(w: World, t: nat)
    requires t in w.threads
  {
    && BuiltOk(w, t) && VacantOk(w, t) && RemovingOk(w, t) && EvictedOk(w, t)
    && (NeedsRuntime(w.threads[t].pc) ==> w.rtPid == w.pid)
  }

  /** No client of this process is lost track of before an attempt to close it. */
  predicate ClientOk(w: World, c: nat)
    requires c in w.clients
  {
    && w.clients[c].pid in w.pids
    && (w.clients[c].pid == w.pid ==> w.rtPid == w.pid)
    && (!w.clients[c].open ==> w.clients[c].returned)
    && (Untouched(w, c) ==> IsCached(w, c) || IsBuilt(w, c) || IsEvicted(w, c))
  }

  /** A cached client whose close returned is about to be removed by the closing thread. */
  predicate ClosingOk(w: World, k: Key)
    requires k in Cached(w)
  {
    var c := Cached(w)[k].client;
    c in w.clients && w.clients[c].returned ==>
      exists t :: t in w.threads && Removing(w.threads[t].pc) &&
                  w.threads[t].op.Close? && w.threads[t].op.obj in w.objects && Target(w, t) == c
  }

  ghost predicate ContentsOk(w: World) {
    && (forall k <- Cached(w) :: EntryOk(w, k) && ClosingOk(w, k))
    && (forall o <- w.objects :: HeldOk(w, o))
    && (forall t <- w.threads :: ThreadOk(w, t))
    && (forall c <- w.clients :: ClientOk(w, c))
    && {0, w.pid, w.cache.pid, w.rtPid} <= w.pids && w.pid > 0
  }

  // ---------------------------------------------------------------------------------------
  //  Idle means unheld
  // ---------------------------------------------------------------------------------------

  lemma TwoHolders(w: World, c: nat, x: Holder, y: Holder)
    requires x in Holders(w, c) && y in Holders(w, c) && x != y
    ensures |Holders(w, c)| >= 2
  {
    assert {x, y} <= Holders(w, c);
    SubsetSize({x, y}, Holders(w, c));
  }

  /** The cache entry of `k` is the only place that keeps its client. */
  predicate Alone(w: World, k: Key)
    requires k in Cached(w)
  {
    var c := Cached(w)[k].client;
    && !IsHeld(w, c) && !IsBuilt(w, c) && !IsEvicted(w, c)
    && forall l <- Cached(w) :: Cached(w)[l].client == c ==> l == k
  }

  /**
   Reading a strong count of one under the cache lock: no PHP object, no thread and no other
   entry keeps the client.
  */
  lemma CountOfOneMeansAlone(w: World, k: Key)
    requires k in Cached(w) && w.cache.pid == w.pid && |Holders(w, Cached(w)[k].client)| == 1
    ensures Alone(w, k)
  {
    var c := Cached(w)[k].client;
    assert InCache(k) in Holders(w, c);
    if o :| o in w.objects && w.objects[o] == c {
      TwoHolders(w, c, InCache(k), InObject(o));
    }
    if t :| t in w.threads && w.threads[t].built == Some(c) {
      TwoHolders(w, c, InCache(k), InThread(t));
    }
    if t :| t in w.threads && c in w.threads[t].evicted {
      var i :| 0 <= i < |w.threads[t].evicted| && w.threads[t].evicted[i] == c;
      TwoHolders(w, c, InCache(k), InEvicted(t, i));
    }
    forall l | l in Cached(w) && Cached(w)[l].client == c ensures l == k {
      if l != k {
        TwoHolders(w, c, InCache(k), InCache(l));
      }
    }
  }

  lemma NoOtherHolder(w: World, c: nat, h: Holder)
    requires h in Holders(w, c) && !IsHeld(w, c) && !IsBuilt(w, c) && !IsEvicted(w, c)
    ensures h.InCache? && h.key in w.cache.entries && w.cache.entries[h.key].client == c
  {}

  /** And the other way round: the strong count of an entry that is alone is one. */
  lemma AloneMeansCountOfOne(w: World, k: Key)
    requires k in Cached(w) && w.cache.pid == w.pid && Alone(w, k)
    ensures Holders(w, Cached(w)[k].client) == {InCache(k)}
  {
    var c := Cached(w)[k].client;
    assert InCache(k) in Holders(w, c);
    forall h | h in Holders(w, c) ensures h == InCache(k) {
      NoOtherHolder(w, c, h);
      assert h.InCache? ==> h.key in Cached(w);
    }
  }

  // ---------------------------------------------------------------------------------------
  //  Steps that change no client, no entry's client and no thread's load
  // ---------------------------------------------------------------------------------------

  ghost predicate SameEntries(w: World, w': World) {
    && (forall k :: k in Cached(w) <==> k in Cached(w'))
    && (forall k :: k in Cached(w) && k in Cached(w') ==> Cached(w')[k].client == Cached(w)[k].client)
  }

  predicate Unloaded(th: Thread) {
    th.built == None && th.evicted == [] && (th.pc.Idle? || th.pc.WantGuards?)
  }

  /** `th` becomes `th'` without a change of what it carries. */
  predicate SameLoad(w: World, th: Thread, th': Thread) {
    && th'.built == th.built && th'.evicted == th.evicted && th'.key == th.key && th'.op == th.op
    && (Missed(th') ==> Missed(th) || th.key !in Cached(w))
    && (Removing(th'.pc) <==> Removing(th.pc))
    && (NeedsRuntime(th'.pc) ==> NeedsRuntime(th.pc) || w.rtPid == w.pid)
  }

  /** Every PHP object of `w'` holds what it held, or a client that was cached or held before. */
  predicate HandlesFrom(w: World, w': World) {
    forall o <- w'.objects ::
      (o in w.objects && w'.objects[o] == w.objects[o]) || IsCached(w, w'.objects[o]) || IsHeld(w, w'.objects[o])
  }

  ghost predicate LoadsFrom(w: World, w': World) {
    && (forall u <- w.threads :: u in w'.threads)
    && (forall u <- w'.threads ::
          (u in w.threads && SameLoad(w', w.threads[u], w'.threads[u])) ||
          (Unloaded(w'.threads[u]) && (u in w.threads ==> Unloaded(w.threads[u]))))
    && (forall u <- w.threads :: Removing(w.threads[u].pc) && w.threads[u].op.Close? && w.threads[u].op.obj in w.objects ==>
          w.threads[u].op.obj in w'.objects && w'.objects[w.threads[u].op.obj] == w.objects[w.threads[u].op.obj])
  }

  ghost predicate Quietly(w: World, w': World) {
    && w'.pid == w.pid && w'.pids == w.pids && w'.clients == w.clients && w'.cache.pid in w'.pids
    && (w'.rtPid == w.rtPid || w'.rtPid == w'.pid)
    && SameEntries(w, w') && HandlesFrom(w, w') && LoadsFrom(w, w')
  }

  lemma QuietFacts(w: World, w': World, c: nat)
    requires Quietly(w, w')
    ensures IsCached(w', c) <==> IsCached(w, c)
    ensures IsBuilt(w', c) <==> IsBuilt(w, c)
    ensures IsEvicted(w', c) <==> IsEvicted(w, c)
    ensures IsHeld(w', c) ==> IsHeld(w, c) || IsCached(w, c)
    ensures Untouched(w', c) <==> Untouched(w, c)
  {}

  /** A client that is carried by a thread is not cached. */
  lemma BuiltIsNotCached(w: World, t: nat)
    requires ContentsOk(w) && t in w.threads && w.threads[t].built.Some? && Missed(w.threads[t])
    ensures !IsCached(w, w.threads[t].built.value)
  {}

  lemma QuietEntry(w: World, w': World, k: Key)
    requires Quietly(w, w') && k in Cached(w) && k in Cached(w') && EntryOk(w, k)
    ensures EntryOk(w', k)
  {}

  lemma QuietClosing(w: World, w': World, k: Key)
    requires Quietly(w, w') && k in Cached(w) && k in Cached(w') && ClosingOk(w, k)
    ensures ClosingOk(w', k)
  {
    var c := Cached(w)[k].client;
    if c in w.clients && w.clients[c].returned {
      var t :| t in w.threads && Removing(w.threads[t].pc) &&
               w.threads[t].op.Close? && w.threads[t].op.obj in w.objects && Target(w, t) == c;
      assert t in w'.threads && SameLoad(w', w.threads[t], w'.threads[t]);
      assert Target(w', t) == c;
    }
  }

  lemma QuietHandles(w: World, w': World, o: nat)
    requires ContentsOk(w) && Quietly(w, w') && o in w'.objects
    ensures HeldOk(w', o)
  {}

  lemma QuietBuilt(w: World, w': World, t: nat)
    requires ContentsOk(w) && Quietly(w, w') && t in w.threads && t in w'.threads && Fit(w.threads[t])
    requires SameLoad(w', w.threads[t], w'.threads[t])
    ensures BuiltOk(w', t)
  {
    assert ThreadOk(w, t);
    if w.threads[t].built.Some? {
      QuietFacts(w, w', w.threads[t].built.value);
      BuiltIsNotCached(w, t);
    }
  }

  lemma QuietEvicted(w: World, w': World, t: nat)
    requires Quietly(w, w') && t in w.threads && t in w'.threads && EvictedOk(w, t)
    requires SameLoad(w', w.threads[t], w'.threads[t])
    ensures EvictedOk(w', t)
  {
    forall c <- w.threads[t].evicted ensures !IsCached(w', c) && !IsHeld(w', c) {
      QuietFacts(w, w', c);
    }
  }

  lemma QuietRemoving(w: World, w': World, t: nat)
    requires Quietly(w, w') && t in w.threads && t in w'.threads && RemovingOk(w, t) && VacantOk(w, t)
    requires SameLoad(w', w.threads[t], w'.threads[t])
    ensures RemovingOk(w', t) && VacantOk(w', t)
  {}

  lemma QuietThreads(w: World, w': World, t: nat)
    requires ContentsOk(w) && LocksOk(w) && Quietly(w, w') && t in w'.threads
    ensures ThreadOk(w', t)
  {
    if t in w.threads && SameLoad(w', w.threads[t], w'.threads[t]) {
      assert ThreadOk(w, t) && Shape(w, t);
      QuietBuilt(w, w', t);
      QuietEvicted(w, w', t);
      QuietRemoving(w, w', t);
    } else {
      assert Unloaded(w'.threads[t]);
    }
  }

  lemma QuietlyKeeps(w: World, w': World)
    requires ContentsOk(w) && LocksOk(w) && Quietly(w, w')
    ensures ContentsOk(w')
  {
    forall k <- Cached(w') ensures EntryOk(w', k) && ClosingOk(w', k) {
      assert EntryOk(w, k) && ClosingOk(w, k);
      QuietEntry(w, w', k);
      QuietClosing(w, w', k);
    }
    forall o <- w'.objects ensures HeldOk(w', o) { QuietHandles(w, w', o); }
    forall t <- w'.threads ensures ThreadOk(w', t) { QuietThreads(w, w', t); }
    forall c <- w'.clients ensures ClientOk(w', c) {
      assert ClientOk(w, c);
      QuietFacts(w, w', c);
    }
  }

  /** A step of `t` that changes no client, no entry's client and no load. */
  ghost predicate QuietStep(w: World, w': World, t: nat)
    requires t in w.threads
  {
    && w'.clients == w.clients && (w'.rtPid == w.rtPid || w'.rtPid == w.pid)
    && SameEntries(w, w') && w'.cache.pid in w.pids
    && t in w'.threads && SameLoad(w', w.threads[t], w'.threads[t])
  }

  predicate ThreadIn(w: World, t: nat) {
    t in w.threads && Shape(w, t) && ThreadOk(w, t) && w.cache.pid in w.pids && w.pid in w.pids
  }

  lemma EnterIsQuiet(w: World, t: nat)
    requires ThreadIn(w, t) && Asks(w.threads[t].pc).Some?
    requires !w.threads[t].pc.WantRt? || w.rtPid != w.pid
    ensures QuietStep(w, DoEnter(w, t), t)
  {}

  lemma KeyIsQuiet(w: World, t: nat)
    requires ThreadIn(w, t) && (w.threads[t].pc.WantKey? || w.threads[t].pc.Unlock? || w.threads[t].pc.DropGuard?)
    ensures QuietStep(w, DoKey(w, t), t)
  {
    KeyFrame(w, t);
  }

  lemma GuardIsQuiet(w: World, t: nat)
    requires ThreadIn(w, t) && w.threads[t].pc.InGuards?
    ensures QuietStep(w, DoGuard(w, t), t)
  {}

  lemma ReleaseIsQuiet(w: World, t: nat)
    requires ThreadIn(w, t) && (w.threads[t].pc.InRelease? || w.threads[t].pc.Forgetting?)
    ensures QuietStep(w, DoRelease(w, t), t)
  {
    ReleaseFrame(w, t);
  }

  lemma RuntimeIsQuiet(w: World, t: nat, ch: Choice)
    requires ThreadIn(w, t) && (w.threads[t].pc.WantRt? || w.threads[t].pc.InRt?)
    ensures QuietStep(w, DoRuntime(w, t, ch), t)
  {
    if w.threads[t].pc.WantRt? && w.rtPid != w.pid {
      EnterIsQuiet(w, t);
    } else {
      RuntimeFrame(w, t, ch);
    }
  }

  lemma FailedBuildIsQuiet(w: World, t: nat)
    requires ThreadIn(w, t) && w.threads[t].pc.Building?
    ensures QuietStep(w, DoBuild(w, t, Fail), t)
  {}

  lemma LookupIsQuiet(w: World, t: nat, obj: Option<nat>)
    requires ThreadIn(w, t) && w.threads[t].pc.InLookup?
    ensures QuietStep(w, DoLookup(w, t, obj), t)
  {
    LookupFrame(w, t, obj);
    LookedUpEntries(w, t, obj);
  }

  lemma LookedUpEntries(w: World, t: nat, obj: Option<nat>)
    requires t in w.threads
    ensures SameEntries(w, DoLookup(w, t, obj)) && DoLookup(w, t, obj).cache.pid == w.pid
  {}

  lemma StartIsQuiet(w: World, t: nat, cap: nat)
    requires ThreadIn(w, t) && w.threads[t].pc.InInsert?
    ensures QuietStep(w, DoStart(w, t, cap), t)
  {}

  lemma LookIsQuiet(w: World, t: nat, k: Key)
    requires ThreadIn(w, t) && w.threads[t].pc.Scanning?
    ensures QuietStep(w, DoLook(w, t, k), t)
  {}

  lemma PhaseIsQuiet(w: World, t: nat)
    requires ThreadIn(w, t) && (w.threads[t].pc.Scanning? || w.threads[t].pc.Evicting?)
    ensures QuietStep(w, DoSweep(w, t, Go), t)
  {}

  /** The steps that are not quiet: building, closing, removing, ejecting and storing a client. */
  predicate Loud(th: Thread, ch: Choice) {
    match th.pc
    case Building => ch.Made?
    case Evicting => ch.Take?
    case Storing => true
    case Closing => true
    case InRemove => true
    case CloseEvicted => th.evicted != []
    case _ => false
  }

  lemma StageIsQuiet(w: World, t: nat, ch: Choice)
    requires ThreadIn(w, t) && CanProgress(w, t, ch) && PassesStage(w.threads[t].pc)
    ensures QuietStep(w, DoProgress(w, t, ch), t)
  {
    match w.threads[t].pc
    case InGuards => GuardIsQuiet(w, t);
    case InRelease => ReleaseIsQuiet(w, t);
    case Forgetting => ReleaseIsQuiet(w, t);
    case _ => KeyIsQuiet(w, t);
  }

  lemma ClientsIsQuiet(w: World, t: nat, ch: Choice)
    requires ThreadIn(w, t) && CanProgress(w, t, ch) && InClients(w.threads[t].pc) && !Loud(w.threads[t], ch)
    ensures QuietStep(w, DoProgress(w, t, ch), t)
  {
    match w.threads[t].pc
    case InLookup => LookupIsQuiet(w, t, ch.obj);
    case InInsert => StartIsQuiet(w, t, ch.cap);
    case Scanning => if w.threads[t].sweep.todo == {} { PhaseIsQuiet(w, t); } else { LookIsQuiet(w, t, ch.key); }
    case Evicting => PhaseIsQuiet(w, t);
  }

  lemma CallIsQuiet(w: World, t: nat, ch: Choice)
    requires ThreadIn(w, t) && CanProgress(w, t, ch) && !Loud(w.threads[t], ch)
    requires !PassesStage(w.threads[t].pc) && !InClients(w.threads[t].pc)
    ensures QuietStep(w, DoProgress(w, t, ch), t)
  {
    match w.threads[t].pc
    case WantRt => RuntimeIsQuiet(w, t, ch);
    case InRt => RuntimeIsQuiet(w, t, ch);
    case Building => FailedBuildIsQuiet(w, t);
    case CloseEvicted =>
    case _ => EnterIsQuiet(w, t);
  }

  lemma ProgressIsQuiet(w: World, t: nat, ch: Choice)
    requires ThreadIn(w, t) && CanProgress(w, t, ch) && !Loud(w.threads[t], ch)
    ensures QuietStep(w, DoProgress(w, t, ch), t)
  {
    if PassesStage(w.threads[t].pc) {
      StageIsQuiet(w, t, ch);
    } else if InClients(w.threads[t].pc) {
      ClientsIsQuiet(w, t, ch);
    } else {
      CallIsQuiet(w, t, ch);
    }
  }

  lemma QuietStepLoads(w: World, w': World, t: nat)
    requires ContentsOk(w) && t in w.threads && Moved(w, w', t) && QuietStep(w, w', t)
    ensures LoadsFrom(w, w')
  {
    forall u <- w'.threads ensures u in w.threads && SameLoad(w', w.threads[u], w'.threads[u]) {
      assert ThreadOk(w, u);
    }
  }

  /** What a thread does quietly leaves the world quiet. */
  lemma QuietStepIsQuiet(w: World, w': World, t: nat)
    requires ContentsOk(w) && t in w.threads && Advances(w, w', t) && QuietStep(w, w', t)
    requires !w.threads[t].pc.Storing?
    ensures Quietly(w, w')
  {
    QuietStepLoads(w, w', t);
    forall o <- w'.objects ensures (o in w.objects && w'.objects[o] == w.objects[o]) || IsCached(w, w'.objects[o]) {
      assert !(o in w.objects && w'.objects[o] == w.objects[o]) ==>
               w.threads[t].key in Cached(w) && Cached(w)[w.threads[t].key].client == w'.objects[o];
    }
  }

  lemma BeginIsQuiet(w: World, a: Action)
    requires ContentsOk(w) && LocksOk(w) && Can(w, a) && (a.Join? || a.BeginConnect? || a.BeginClose?)
    ensures Quietly(w, Do(w, a))
  {
    assert a.thread in w.threads ==> a.thread in w.ever && Shape(w, a.thread);
    StartOverIsQuiet(w, Do(w, a), a.thread);
  }

  /** A thread that carries nothing is added, or starts over. */
  lemma StartOverIsQuiet(w: World, w': World, t: nat)
    requires ContentsOk(w) && w' == w.(threads := w'.threads, ever := w'.ever)
    requires t in w'.threads && w'.threads == w.threads[t := w'.threads[t]]
    requires Unloaded(w'.threads[t]) && (t in w.threads ==> Unloaded(w.threads[t]))
    ensures Quietly(w, w')
  {
    forall u <- w'.threads
      ensures u == t || (u in w.threads && SameLoad(w', w.threads[u], w'.threads[u]))
    {
      assert u in w.threads ==> ThreadOk(w, u);
    }
  }

  lemma HandlesAreQuiet(w: World, a: Action)
    requires ContentsOk(w) && LocksOk(w) && Can(w, a) && (a.CopyHandle? || a.DropHandle? || a.Tick?)
    ensures Quietly(w, Do(w, a))
  {
    var w' := Do(w, a);
    SameThreadsAreQuiet(w, w');
    HandlesCome(w, a);
    HandlesInUseStay(w, a);
  }

  lemma SameThreadsAreQuiet(w: World, w': World)
    requires ContentsOk(w) && w' == w.(objects := w'.objects, clock := w'.clock)
    ensures forall u <- w.threads :: SameLoad(w', w.threads[u], w'.threads[u])
  {
    forall u <- w'.threads ensures SameLoad(w', w.threads[u], w'.threads[u]) {
      assert ThreadOk(w, u);
    }
  }

  lemma HandlesCome(w: World, a: Action)
    requires Can(w, a) && (a.CopyHandle? || a.DropHandle? || a.Tick?)
    ensures HandlesFrom(w, Do(w, a))
  {
    assert a.CopyHandle? ==> IsHeld(w, w.objects[a.obj]);
  }

  lemma HandlesInUseStay(w: World, a: Action)
    requires Can(w, a) && (a.CopyHandle? || a.DropHandle? || a.Tick?)
    ensures var w' := Do(w, a);
      forall u <- w.threads :: Removing(w.threads[u].pc) && w.threads[u].op.Close? && w.threads[u].op.obj in w.objects ==>
        w.threads[u].op.obj in w'.objects && w'.objects[w.threads[u].op.obj] == w.objects[w.threads[u].op.obj]
  {}
}
