/**
 Concrete runs for what the cache does not promise: a refused close leaves an open client that
 nothing leads to, and a second open client of the key beside it; the cap can be exceeded by an
 entry that is idle by then; and a fork can leave the child with a mutex nobody will ever free.
*/
module CacheWitness {
  import opened CacheContents
  import opened CacheDeadlock
  import opened CacheInvariant
  import opened CacheProtocol
  import opened CacheSpec
  import opened CacheTheorems
  import opened Wrappers

  /** `r` holds at the start and of everything one action away from where it holds. */
  ghost predicate Closed(r: World -> bool) {
    r(Start(1)) && forall w, a :: r(w) && Can(w, a) ==> r(Do(w, a))
  }

  lemma Next(r: World -> bool, w: World, a: Action) returns (w': World)
    requires Closed(r) && r(w) && Can(w, a)
    ensures w' == Do(w, a) && r(w')
  {
    w' := Do(w, a);
  }

  /** What the sweep of the first insertion leaves in the thread. */
  const SWEPT := Sweep(8, map[], {}, {}, [])

  /** The one thread of the run, at `pc`, with its guard while it holds one. */
  function Lone(pc: Pc, op: Op, guard: Option<nat>, built: Option<nat>, sweep: Sweep): map<nat, Thread> {
    map[0 := Thread(pc, op, "k", guard, built, [], sweep)]
  }

  function Scene(threads: map<nat, Thread>, byKey: map<Key, nat>, next: nat, keyOwner: map<nat, nat>, rtPid: nat,
                 cache: map<Key, Entry>, clients: map<nat, Client>, objects: map<nat, nat>): World {
    World(1, {0, 1}, Cache(1, cache), Guards(1, byKey, next), keyOwner, map[], rtPid,
          clients, objects, threads, {0}, 0)
  }

  const FIVE := Client("k", 1, true, false, false)

  const FIVE_REFUSED := Client("k", 1, true, true, false)

  lemma ReachConnecting(r: World -> bool) returns (w: World)
    requires Closed(r)
    ensures r(w)
    ensures w == Scene(Lone(WantLookup, Connect, Some(0), None, NO_SWEEP), map["k" := 0], 1, map[0 := 0], 0, map[], map[], map[])
  {
    w := Start(1);
    w := Next(r, w, Join(0));
    w := Next(r, w, BeginConnect(0, "k"));
    w := Next(r, w, Progress(0, Go));
    w := Next(r, w, Progress(0, Go));
    w := Next(r, w, Progress(0, Go));
    assert w.threads == Lone(WantLookup, Connect, Some(0), None, NO_SWEEP) && w.keyOwner == map[0 := 0] && w.owners == map[];
    assert w.guards.byKey == map["k" := 0] && w.ever == {0} && w.pids == {0, 1};
  }

  lemma ReachRuntime(r: World -> bool) returns (w: World)
    requires Closed(r)
    ensures r(w)
    ensures w == Scene(Lone(InRt, Connect, Some(0), None, NO_SWEEP), map["k" := 0], 1, map[0 := 0], 0, map[], map[], map[])
                 .(owners := map[RuntimeMutex := 0])
  {
    w := ReachConnecting(r);
    w := Next(r, w, Progress(0, Go));
    w := Next(r, w, Progress(0, Hand(None)));
    assert w.owners == map[];
    w := Next(r, w, Progress(0, Go));
    assert w.threads == Lone(InRt, Connect, Some(0), None, NO_SWEEP);
  }

  lemma ReachBuilt(r: World -> bool) returns (w: World)
    requires Closed(r)
    ensures r(w)
    ensures w == Scene(Lone(WantInsert, Connect, Some(0), Some(5), NO_SWEEP), map["k" := 0], 1, map[0 := 0], 1, map[],
                       map[5 := FIVE], map[])
  {
    w := ReachRuntime(r);
    w := Next(r, w, Progress(0, Go));
    assert w.owners == map[];
    w := Next(r, w, Progress(0, Made(5)));
    assert w.threads == Lone(WantInsert, Connect, Some(0), Some(5), NO_SWEEP);
  }

  /** Inserting into the empty cache under a cap of 8 evicts nothing. */
  lemma ReachStoring(r: World -> bool) returns (w: World)
    requires Closed(r)
    ensures r(w)
    ensures w == Scene(Lone(Storing, Connect, Some(0), Some(5), SWEPT), map["k" := 0], 1, map[0 := 0], 1, map[],
                       map[5 := FIVE], map[]).(owners := map[ClientsMutex := 0])
  {
    w := ReachBuilt(r);
    w := Next(r, w, Progress(0, Go));
    w := Next(r, w, Progress(0, Cap(8)));
    assert w.threads == Lone(Storing, Connect, Some(0), Some(5), SWEPT);
  }

  lemma ReachInserted(r: World -> bool) returns (w: World)
    requires Closed(r)
    ensures r(w)
    ensures w == Scene(Lone(Unlock, Connect, Some(0), None, SWEPT), map["k" := 0], 1, map[0 := 0], 1, map["k" := Entry(5, 0)],
                       map[5 := FIVE], map[9 := 5])
  {
    w := ReachStoring(r);
    w := Next(r, w, Progress(0, Hand(Some(9))));
    assert w.threads == Lone(Unlock, Connect, Some(0), None, SWEPT) && w.owners == map[];
  }

  lemma ReachDropping(r: World -> bool) returns (w: World)
    requires Closed(r)
    ensures r(w)
    ensures w == Scene(Lone(DropGuard, Connect, Some(0), None, SWEPT), map["k" := 0], 1, map[], 1, map["k" := Entry(5, 0)],
                       map[5 := FIVE], map[9 := 5])
  {
    w := ReachInserted(r);
    w := Next(r, w, Progress(0, Go));
    assert w.threads == Lone(DropGuard, Connect, Some(0), None, SWEPT) && w.keyOwner == map[];
  }

  lemma ReachReleasing(r: World -> bool) returns (w: World)
    requires Closed(r)
    ensures r(w)
    ensures w == Scene(Lone(InRelease, Connect, None, None, SWEPT), map["k" := 0], 1, map[], 1, map["k" := Entry(5, 0)],
                       map[5 := FIVE], map[9 := 5]).(owners := map[GuardsMutex := 0])
  {
    w := ReachDropping(r);
    w := Next(r, w, Progress(0, Go));
    w := Next(r, w, Progress(0, Go));
    assert w.threads == Lone(InRelease, Connect, None, None, SWEPT);
  }

  lemma NoClone(w: World, g: nat)
    requires forall t <- w.threads :: w.threads[t].guard != Some(g)
    ensures Clones(w, g) == 0
  {
    assert (set t | t in w.threads && w.threads[t].guard == Some(g)) == {};
  }

  lemma ReachForgetting(r: World -> bool) returns (w: World)
    requires Closed(r)
    ensures r(w)
    ensures w == Scene(Lone(Forgetting, Connect, None, None, SWEPT), map["k" := 0], 1, map[], 1, map["k" := Entry(5, 0)],
                       map[5 := FIVE], map[9 := 5]).(owners := map[GuardsMutex := 0])
  {
    w := ReachReleasing(r);
    NoClone(w, 0);
    w := Next(r, w, Progress(0, Go));
    assert w.threads == Lone(Forgetting, Connect, None, None, SWEPT);
  }

  lemma ReachForgotten(r: World -> bool) returns (w: World)
    requires Closed(r)
    ensures r(w)
    ensures w == Scene(Lone(CloseEvicted, Connect, None, None, SWEPT), map[], 1, map[], 1, map["k" := Entry(5, 0)],
                       map[5 := FIVE], map[9 := 5])
  {
    w := ReachForgetting(r);
    w := Next(r, w, Progress(0, Go));
    assert w.threads == Lone(CloseEvicted, Connect, None, None, SWEPT) && w.guards.byKey == map[] && w.owners == map[];
  }

  lemma ReachConnected(r: World -> bool) returns (w: World)
    requires Closed(r)
    ensures r(w)
    ensures w == Scene(Lone(Idle, Connect, None, None, SWEPT), map[], 1, map[], 1, map["k" := Entry(5, 0)],
                       map[5 := FIVE], map[9 := 5])
  {
    w := ReachForgotten(r);
    w := Next(r, w, Progress(0, Go));
    assert w.threads == Lone(Idle, Connect, None, None, SWEPT);
  }

  lemma ReachClosing(r: World -> bool) returns (w: World)
    requires Closed(r)
    ensures r(w)
    ensures w == Scene(Lone(Closing, Close(9), Some(1), None, NO_SWEEP), map["k" := 1], 2, map[1 := 0], 1, map["k" := Entry(5, 0)],
                       map[5 := FIVE], map[9 := 5])
  {
    w := ReachConnected(r);
    w := Next(r, w, BeginClose(0, 9));
    w := Next(r, w, Progress(0, Go));
    w := Next(r, w, Progress(0, Go));
    assert w.owners == map[];
    w := Next(r, w, Progress(0, Go));
    w := Next(r, w, Progress(0, Go));
    assert w.threads == Lone(Closing, Close(9), Some(1), None, NO_SWEEP) && w.keyOwner == map[1 := 0] && w.guards.byKey == map["k" := 1];
  }

  lemma ReachRefused(r: World -> bool) returns (w: World)
    requires Closed(r)
    ensures r(w)
    ensures w == Scene(Lone(WantRemove, Close(9), Some(1), None, NO_SWEEP), map["k" := 1], 2, map[1 := 0], 1, map["k" := Entry(5, 0)],
                       map[5 := FIVE_REFUSED], map[9 := 5])
  {
    w := ReachClosing(r);
    w := Next(r, w, Progress(0, Tried(Refused)));
    assert w.threads == Lone(WantRemove, Close(9), Some(1), None, NO_SWEEP) && w.clients == map[5 := FIVE_REFUSED];
  }

  lemma ReachRemoved(r: World -> bool) returns (w: World)
    requires Closed(r)
    ensures r(w)
    ensures w == Scene(Lone(Unlock, Close(9), Some(1), None, NO_SWEEP), map["k" := 1], 2, map[1 := 0], 1, map[],
                       map[5 := FIVE_REFUSED], map[9 := 5])
  {
    w := ReachRefused(r);
    w := Next(r, w, Progress(0, Go));
    w := Next(r, w, Progress(0, Go));
    assert w.threads == Lone(Unlock, Close(9), Some(1), None, NO_SWEEP) && w.cache.entries == map[] && w.owners == map[];
  }

  lemma ReachUnlocked(r: World -> bool) returns (w: World)
    requires Closed(r)
    ensures r(w)
    ensures w == Scene(Lone(DropGuard, Close(9), Some(1), None, NO_SWEEP), map["k" := 1], 2, map[], 1, map[],
                       map[5 := FIVE_REFUSED], map[9 := 5])
  {
    w := ReachRemoved(r);
    w := Next(r, w, Progress(0, Go));
    assert w.threads == Lone(DropGuard, Close(9), Some(1), None, NO_SWEEP) && w.keyOwner == map[];
  }

  lemma ReachUnclaimed(r: World -> bool) returns (w: World)
    requires Closed(r)
    ensures r(w)
    ensures w == Scene(Lone(InRelease, Close(9), None, None, NO_SWEEP), map["k" := 1], 2, map[], 1, map[],
                       map[5 := FIVE_REFUSED], map[9 := 5]).(owners := map[GuardsMutex := 0])
  {
    w := ReachUnlocked(r);
    w := Next(r, w, Progress(0, Go));
    w := Next(r, w, Progress(0, Go));
    assert w.threads == Lone(InRelease, Close(9), None, None, NO_SWEEP);
  }

  lemma ReachLost(r: World -> bool) returns (w: World)
    requires Closed(r)
    ensures r(w)
    ensures w == Scene(Lone(Idle, Close(9), None, None, NO_SWEEP), map[], 2, map[], 1, map[],
                       map[5 := FIVE_REFUSED], map[9 := 5])
  {
    w := ReachUnclaimed(r);
    NoClone(w, 1);
    w := Next(r, w, Progress(0, Go));
    assert w.threads == Lone(Forgetting, Close(9), None, None, NO_SWEEP);
    w := Next(r, w, Progress(0, Go));
    assert w.threads == Lone(Idle, Close(9), None, None, NO_SWEEP) && w.guards.byKey == map[] && w.owners == map[];
  }

  /** A lone idle thread connects to a key that is not cached, up to the insertion of client 6. */
  lemma ReachBuiltNext(r: World -> bool, v: World, key: Key) returns (w: World)
    requires Closed(r) && r(v) && v.threads.Keys == {0} && v.threads[0].pc.Idle? && key !in v.cache.entries
    requires v.pid == v.cache.pid == v.guards.pid == v.rtPid && 6 !in v.clients
    requires v.owners == map[] && v.keyOwner == map[] && v.guards.byKey == map[]
    ensures r(w)
    ensures w == v.(threads := map[0 := Thread(WantInsert, Connect, key, Some(v.guards.next), Some(6), [], NO_SWEEP)],
                    guards := Guards(v.pid, map[key := v.guards.next], v.guards.next + 1),
                    keyOwner := map[v.guards.next := 0],
                    clients := v.clients[6 := Client(key, v.pid, true, false, false)])
  {
    w := Next(r, v, BeginConnect(0, key));
    w := Next(r, w, Progress(0, Go));
    w := Next(r, w, Progress(0, Go));
    assert w.owners == map[];
    w := Next(r, w, Progress(0, Go));
    w := ReachMadeNext(r, w);
    assert w.guards.byKey == map[key := v.guards.next] && w.keyOwner == map[v.guards.next := 0];
    assert w.threads == map[0 := Thread(WantInsert, Connect, key, Some(v.guards.next), Some(6), [], NO_SWEEP)];
  }

  lemma ReachMadeNext(r: World -> bool, v: World) returns (w: World)
    requires Closed(r) && r(v) && 0 in v.threads && v.threads[0].pc.WantLookup? && v.threads[0].op.Connect?
    requires v.pid == v.cache.pid == v.rtPid && 6 !in v.clients && v.threads[0].key !in v.cache.entries && v.owners == map[]
    ensures r(w)
    ensures w == v.(threads := v.threads[0 := v.threads[0].(pc := WantInsert, built := Some(6))],
                    clients := v.clients[6 := Client(v.threads[0].key, v.pid, true, false, false)])
  {
    w := Next(r, v, Progress(0, Go));
    w := Next(r, w, Progress(0, Hand(None)));
    assert w.owners == map[];
    w := Next(r, w, Progress(0, Go));
    w := Next(r, w, Progress(0, Made(6)));
  }

  lemma ReachableIsClosed()
    ensures Closed(w => Reachable(w))
  {
    assert Runs(Start(1), []) && Run(Start(1), []) == Start(1);
    forall w, a | Reachable(w) && Can(w, a)
      ensures Reachable(Do(w, a))
    {
      ReachableStep(w, a);
    }
  }

  /** All calls are over, the client is open, and nothing the shutdown hook reads leads to it. */
  lemma RefusedCloseLosesTheClient() returns (w: World, c: nat)
    ensures Reachable(w) && Quiescent(w) && c in w.clients && w.clients[c].pid == w.pid
    ensures w.clients[c].open && !IsCached(w, c) && !IsBuilt(w, c) && !IsEvicted(w, c)
  {
    ReachableIsClosed();
    w := ReachLost(w => Reachable(w));
    c := 5;
  }

  /**
   Two open clients of one key and process, one held by a PHP object and one about to be cached:
   the close of the first was refused.
  */
  lemma TwoOpenClientsOfOneKey() returns (w: World, c: nat, d: nat)
    ensures Reachable(w) && c != d && {c, d} <= w.clients.Keys && w.clients[c].key == w.clients[d].key
    ensures w.clients[c].pid == w.pid && w.clients[d].pid == w.pid && w.clients[c].open && w.clients[d].open
    ensures Present(w, c) && Present(w, d) && WasRefused(w, c)
  {
    ReachableIsClosed();
    var r := w => Reachable(w);
    w := ReachLost(r);
    w := ReachBuiltNext(r, w, "k");
    c, d := 5, 6;
    assert w.objects[9] == 5 && w.threads[0].built == Some(6);
    assert 9 in w.objects && 0 in w.threads;
    assert IsHeld(w, 5) && IsBuilt(w, 6);
  }

  /** A thread that stores client 6 under "z" beside the entry of "k". */
  function Storer(pc: Pc, built: Option<nat>, todo: set<Key>): Thread {
    Thread(pc, Connect, "z", Some(1), built, [], Sweep(1, map["k" := Entry(5, 0)], todo, {}, []))
  }

  /** `th` is the only thread, and client 5 is cached under "k" and kept by `objects`. */
  predicate Second(w: World, th: Thread, objects: map<nat, nat>) {
    && w.pid == 1 && w.cache == Cache(1, map["k" := Entry(5, 0)]) && w.objects == objects
    && w.threads == map[0 := th]
  }

  /** The second connect is about to look at the entry "k", whose client object 9 holds. */
  lemma ReachScanning(r: World -> bool) returns (w: World)
    requires Closed(r)
    ensures r(w) && Second(w, Storer(Scanning, Some(6), {"k"}), map[9 := 5])
  {
    w := ReachConnected(r);
    w := ReachBuiltNext(r, w, "z");
    w := Next(r, w, Progress(0, Go));
    w := Next(r, w, Progress(0, Cap(1)));
    assert w.threads[0].sweep.todo == {"k"};
  }

  lemma InUse(w: World)
    requires Second(w, Storer(Scanning, Some(6), {"k"}), map[9 := 5])
    ensures |Holders(w, 5)| > 1
  {
    assert InCache("k") in Holders(w, 5) && InObject(9) in Holders(w, 5);
    TwoHolders(w, 5, InCache("k"), InObject(9));
  }

  /** An entry in use is passed over. */
  lemma LookPassesOver(w: World, t: nat, k: Key)
    requires t in w.threads && k in Cached(w) && |Holders(w, Cached(w)[k].client)| > 1
    ensures var s := w.threads[t].sweep; DoLook(w, t, k) == At(w, t, w.threads[t].(sweep := s.(todo := s.todo - {k})))
  {}

  lemma PassedOver(w: World, w': World)
    requires Second(w, Storer(Scanning, Some(6), {"k"}), map[9 := 5])
    requires var s := w.threads[0].sweep; w' == At(w, 0, w.threads[0].(sweep := s.(todo := s.todo - {"k"})))
    ensures Second(w', Storer(Scanning, Some(6), {}), map[9 := 5])
  {
    assert w'.threads[0].sweep.todo == {};
    assert w'.threads[0] == Storer(Scanning, Some(6), {});
  }

  lemma ReachLooked(r: World -> bool) returns (w: World)
    requires Closed(r)
    ensures r(w) && Second(w, Storer(Scanning, Some(6), {}), map[9 := 5])
  {
    w := ReachScanning(r);
    InUse(w);
    LookPassesOver(w, 0, "k");
    PassedOver(w, DoLook(w, 0, "k"));
    assert SweepsOn(w.threads[0].pc);
    SweepStepIsDo(w, 0, Look("k"));
    w := Next(r, w, Progress(0, Look("k")));
  }

  /** Then the handle is dropped, and nothing is left to remove. */
  lemma ReachSwept(r: World -> bool) returns (w: World)
    requires Closed(r)
    ensures r(w) && Second(w, Storer(Storing, Some(6), {}), map[])
  {
    w := ReachLooked(r);
    w := Next(r, w, DropHandle(9));
    assert w.objects == map[];
    w := Next(r, w, Progress(0, Go));
    assert w.threads == map[0 := Storer(Evicting, Some(6), {})] && Left(w.threads[0].sweep) == {};
    w := Next(r, w, Progress(0, Go));
    assert w.threads == map[0 := Storer(Storing, Some(6), {})];
  }

  /**
   With a cap of one, a new client is stored beside an entry that nothing but the cache keeps:
   the last handle was dropped after the sweep had looked at the entry.
  */
  lemma CapExceededByAnIdleEntry() returns (w: World, k: Key)
    ensures Reachable(w) && 0 in w.threads && w.threads[0].pc.Unlock? && w.threads[0].sweep.cap == 1
    ensures |Cached(w)| == 2 && k in Cached(w) && k != w.threads[0].key && Holders(w, Cached(w)[k].client) == {InCache(k)}
  {
    ReachableIsClosed();
    var r := w => Reachable(w);
    w := ReachSwept(r);
    k := "k";
    w := Next(r, w, Progress(0, Hand(None)));
    assert Cached(w) == map["k" := Entry(5, 0), "z" := Entry(6, w.clock)];
    assert Cached(w).Keys == {"k", "z"};
    StoredAlone(w);
  }

  lemma StoredAlone(w: World)
    requires w.pid == w.cache.pid && w.objects == map[] && w.threads.Keys == {0} && w.threads[0].built == None && w.threads[0].evicted == []
    requires exists now :: Cached(w) == map["k" := Entry(5, 0), "z" := Entry(6, now)]
    ensures Holders(w, 5) == {InCache("k")}
  {
    assert Alone(w, "k");
    AloneMeansCountOfOne(w, "k");
  }

  /** Thread 1 is inside the cache mutex and thread 0 is idle. */
  lemma ReachInside(r: World -> bool) returns (w: World)
    requires Closed(r)
    ensures r(w) && w.owners == map[ClientsMutex := 1] && w.threads.Keys == {0, 1} && w.threads[0].pc.Idle?
    ensures w.guards.pid == 1 && w.guards.next == 1 && w.keyOwner == map[0 := 1] && w.pids == {0, 1}
  {
    w := Start(1);
    w := Next(r, w, Join(0));
    w := Next(r, w, Join(1));
    w := Next(r, w, BeginConnect(1, "k"));
    w := Next(r, w, Progress(1, Go));
    w := Next(r, w, Progress(1, Go));
    assert w.owners == map[];
    w := Next(r, w, Progress(1, Go));
    w := Next(r, w, Progress(1, Go));
  }

  lemma ReachForked(r: World -> bool) returns (w: World)
    requires Closed(r)
    ensures r(w) && w.owners == map[ClientsMutex := 1] && w.threads.Keys == {0} && w.threads[0].pc.Idle?
    ensures w.pid == 2 && w.guards == Guards(1, w.guards.byKey, 1) && w.keyOwner == map[0 := 1]
  {
    w := ReachInside(r);
    w := Next(r, w, Fork(0, 2));
  }

  /** Guard 1, which the child makes, is free, so its thread gets as far as the lookup. */
  lemma ReachBlocked(r: World -> bool) returns (w: World)
    requires Closed(r)
    ensures r(w) && Lost(w, ClientsMutex) && WaitsFor(w, 0, ClientsMutex) && w.threads[0].op.Connect?
  {
    w := ReachForked(r);
    w := Next(r, w, BeginConnect(0, "k"));
    w := Next(r, w, Progress(0, Go));
    w := Next(r, w, Progress(0, Go));
    w := Next(r, w, Progress(0, Go));
  }

  /**
   A fork while another thread is inside the cache mutex: the child's `connect()` is in progress
   and does not end in any continuation of the run.
  */
  lemma ConnectNeverReturns() returns (w: World, t: nat)
    ensures Reachable(w) && t in w.threads && w.threads[t].op.Connect? && !w.threads[t].pc.Idle?
    ensures forall acts :: Runs(w, acts) && t in Run(w, acts).threads ==> Run(w, acts).threads[t] == w.threads[t]
  {
    ReachableIsClosed();
    w := ReachBlocked(w => Reachable(w));
    t := 0;
    ReachableInv(w);
    forall acts | Runs(w, acts) && t in Run(w, acts).threads
      ensures Run(w, acts).threads[t] == w.threads[t]
    {
      LostMutexBlocksForGood(w, ClientsMutex, t, acts);
    }
  }
}
