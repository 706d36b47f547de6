/**
 `Client::connect`, `Client::close` and eviction, run by any number of threads, with `fork()`.

 A thread is a program counter with its local variables. Each of the three process-wide mutexes
 and each per-key guard is a lock with an owner; a critical section is entered by one step and
 left by another, which carries its effect. An action is one step of one thread, so a run is an
 arbitrary interleaving.
*/
module CacheProtocol {
  import opened CacheSpec
  import opened Wrappers

  /** How an attempt to close a client ends: done, an error is returned, or it panics. */
  datatype Attempt = Closed | Refused | Panicked

  /**
   A client ever built: its cache key and the process that built it; whether its cluster is
   still open; whether some close attempt returned (did not panic); and whether it was evicted
   and its one close attempt after eviction was made.
  */
  datatype Client = Client(key: Key, pid: nat, open: bool, returned: bool, disposed: bool)

  datatype Op = Connect | Close(obj: nat)

  datatype Pc =
    | Idle
    | WantGuards | InGuards                     // connect_guard
    | WantKey                                   // key_guard.lock()
    | WantLookup | InLookup                     // cache lookup
    | WantRt | InRt                             // tokio_rt
    | Building                                  // aero::Client::new
    | WantInsert | InInsert                     // insert: read the cap
    | Scanning                                  // evict_idle_clients: one strong count at a time
    | Evicting                                  // evict_idle_clients: one removal at a time
    | Storing                                   // entry(..).or_insert, zval_from_entry
    | Closing                                   // client.close()
    | WantRemove | InRemove                     // remove the closed client's entry
    | Unlock | DropGuard                        // leave the key section, drop the clone
    | WantRelease | InRelease                   // release_connect_guard: read the strong count
    | Forgetting                                // and remove the guard
    | CloseEvicted                              // close_client_entries

  /**
   The local state of `evict_idle_clients`: the cap, the entries when the cache lock was taken,
   the keys not yet looked at, the keys whose client had a strong count of one when it was
   looked at, and the keys removed so far.
  */
  datatype Sweep = Sweep(cap: nat, before: map<Key, Entry>, todo: set<Key>, idle: set<Key>, keys: seq<Key>)

  const NO_SWEEP := Sweep(0, map[], {}, {}, [])

  datatype Thread = Thread(
    pc: Pc, op: Op, key: Key, guard: Option<nat>, built: Option<nat>, evicted: seq<nat>, sweep: Sweep)

  /** `CLIENTS`, `CONNECT_GUARDS` and `TOKIO_RT_INIT`. */
  datatype Mutex = ClientsMutex | GuardsMutex | RuntimeMutex

  /** The mutex that a thread at `pc` is inside. */
  function Inside(pc: Pc): Option<Mutex> {
    match pc
    case InLookup => Some(ClientsMutex)
    case InInsert => Some(ClientsMutex)
    case Scanning => Some(ClientsMutex)
    case Evicting => Some(ClientsMutex)
    case Storing => Some(ClientsMutex)
    case InRemove => Some(ClientsMutex)
    case InGuards => Some(GuardsMutex)
    case InRelease => Some(GuardsMutex)
    case Forgetting => Some(GuardsMutex)
    case InRt => Some(RuntimeMutex)
    case _ => None
  }

  /** The mutex that a thread at `pc` asks for, and where it goes when it gets it. */
  function Asks(pc: Pc): Option<(Mutex, Pc)> {
    match pc
    case WantLookup => Some((ClientsMutex, InLookup))
    case WantInsert => Some((ClientsMutex, InInsert))
    case WantRemove => Some((ClientsMutex, InRemove))
    case WantGuards => Some((GuardsMutex, InGuards))
    case WantRelease => Some((GuardsMutex, InRelease))
    case WantRt => Some((RuntimeMutex, InRt))
    case _ => None
  }

  /** `objects` are the live PHP objects (clients and recordsets) and the client each holds. */
  datatype World = World(
    pid: nat, pids: set<nat>,
    cache: Cache, guards: Guards, keyOwner: map<nat, nat>,
    owners: map<Mutex, nat>, rtPid: nat,
    clients: map<nat, Client>, objects: map<nat, nat>,
    threads: map<nat, Thread>, ever: set<nat>, clock: nat)

  /** What the environment decides in a step. */
  datatype Choice =
    | Go
    | Fail                                                     // runtime or Client::new fails
    | Hand(obj: Option<nat>)                                // zval_from_entry may fail
    | Made(client: nat)
    | Cap(cap: nat)
    | Look(key: Key)
    | Take(key: Key)
    | Tried(attempt: Attempt)

  datatype Action =
    | Join(thread: nat)
    | BeginConnect(thread: nat, key: Key)
    | BeginClose(thread: nat, obj: nat)
    | Progress(thread: nat, choice: Choice)
    | CopyHandle(obj: nat, copy: nat)      // scan()/query() keep the client alive
    | DropHandle(obj: nat)
    | Tick
    | Fork(thread: nat, child: nat)

  // ---------------------------------------------------------------------------------------
  //  Reference counts
  // ---------------------------------------------------------------------------------------

  datatype Holder = InCache(key: Key) | InObject(obj: nat) | InThread(thread: nat) | InEvicted(thread: nat, at: nat)

  /** Every place that keeps an `Arc` to client `c`: `Arc::strong_count` is their number. */
  function Holders(w: World, c: nat): set<Holder> {
    (set k | k in w.cache.entries && w.cache.entries[k].client == c :: InCache(k)) +
    (set o | o in w.objects && w.objects[o] == c :: InObject(o)) +
    (set t | t in w.threads && w.threads[t].built == Some(c) :: InThread(t)) +
    (set t, i | t in w.threads && 0 <= i < |w.threads[t].evicted| && w.threads[t].evicted[i] == c :: InEvicted(t, i))
  }

  /** How many threads hold a clone of guard `g`. */
  function Clones(w: World, g: nat): nat {
    |set t | t in w.threads && w.threads[t].guard == Some(g)|
  }

  // ---------------------------------------------------------------------------------------
  //  Steps
  // ---------------------------------------------------------------------------------------

  /** The cache and the guards as the current process sees them. */
  function Cached(w: World): map<Key, Entry> {
    Adopt(w.cache, w.pid).entries
  }

  function GuardOf(w: World): map<Key, nat> {
    AdoptGuards(w.guards, w.pid).byKey
  }

  function At(w: World, t: nat, th: Thread): World {
    w.(threads := w.threads[t := th])
  }

  function Goto(w: World, t: nat, pc: Pc): World
    requires t in w.threads
  {
    At(w, t, w.threads[t].(pc := pc))
  }

  /** The client a closing thread works on. */
  function Target(w: World, t: nat): nat
    requires t in w.threads && w.threads[t].op.Close? && w.threads[t].op.obj in w.objects
  {
    w.objects[w.threads[t].op.obj]
  }

  predicate FreshObject(w: World, obj: Option<nat>) {
    obj.Some? ==> obj.value !in w.objects
  }

  /** `zval_from_entry`: a new PHP object, unless its allocation fails. */
  function HandOut(w: World, obj: Option<nat>, client: nat): World {
    if obj.Some? then w.(objects := w.objects[obj.value := client]) else w
  }

  /** The effect of an attempt to close client `c`; `evicted` tells who attempts it. */
  function AfterAttempt(cl: Client, a: Attempt, evicted: bool): Client {
    cl.(open := cl.open && a != Closed, returned := cl.returned || a != Panicked, disposed := cl.disposed || evicted)
  }

  function AfterRt(op: Op): Pc {
    if op.Connect? then Building else Closing
  }

  /** The idle keys that the removal loop has yet to reach. */
  function Left(s: Sweep): set<Key> {
    s.idle - Keys(s.keys)
  }

  /** The removal loop ends below the cap, or when no idle key is left. */
  predicate SweepDone(w: World, s: Sweep) {
    |Cached(w)| < s.cap || Left(s) == {}
  }

  /** `k` may come next in the order of last use; the sort may put equal times in any order. */
  predicate NextToGo(s: Sweep, k: Key) {
    && k in Left(s) && k in s.before
    && forall l <- Left(s) :: l in s.before ==> s.before[k].lastUsed <= s.before[l].lastUsed
  }

  ghost predicate CanProgress(w: World, t: nat, ch: Choice)
    requires t in w.threads
  {
    var th := w.threads[t];
    match th.pc
    case Idle => false
    case WantGuards => ch == Go && GuardsMutex !in w.owners
    case InGuards => ch == Go
    case WantKey => ch == Go && th.guard.Some? && th.guard.value !in w.keyOwner
    case WantLookup => ch == Go && ClientsMutex !in w.owners
    case InLookup => ch.Hand? && FreshObject(w, ch.obj)
    case WantRt => ch == Go && (w.rtPid == w.pid || RuntimeMutex !in w.owners)
    case InRt => ch == Go || (ch == Fail && w.rtPid != w.pid)
    case Building => ch == Fail || (ch.Made? && ch.client !in w.clients)
    case WantInsert => ch == Go && ClientsMutex !in w.owners
    case InInsert => ch.Cap?
    case Scanning => if th.sweep.todo == {} then ch == Go else ch.Look? && ch.key in th.sweep.todo
    case Evicting => if SweepDone(w, th.sweep) then ch == Go else ch.Take? && NextToGo(th.sweep, ch.key)
    case Storing => ch.Hand? && FreshObject(w, ch.obj) && th.built.Some?
    case Closing => ch.Tried? && th.op.Close? && th.op.obj in w.objects && Target(w, t) in w.clients
    case WantRemove => ch == Go && ClientsMutex !in w.owners
    case InRemove => ch == Go && th.op.Close? && th.op.obj in w.objects
    case Unlock => ch == Go && th.guard.Some?
    case DropGuard => ch == Go
    case WantRelease => ch == Go && GuardsMutex !in w.owners
    case InRelease => ch == Go
    case Forgetting => ch == Go
    case CloseEvicted => if th.evicted == [] then ch == Go else ch.Tried? && th.evicted[0] in w.clients
  }

  function DoLookup(w: World, t: nat, obj: Option<nat>): World
    requires t in w.threads
  {
    var key := w.threads[t].key;
    var w1 := w.(cache := Adopt(w.cache, w.pid), owners := w.owners - {ClientsMutex});
    if key in w1.cache.entries then
      Goto(HandOut(w1.(cache := Touched(w1.cache, key, w.clock)), obj, w1.cache.entries[key].client), t, Unlock)
    else Goto(w1, t, WantRt)
  }

  /** Takes the cache lock's contents as this process sees them and starts the sweep. */
  function DoStart(w: World, t: nat, cap: nat): World
    requires t in w.threads
  {
    var c := Adopt(w.cache, w.pid);
    var todo := if |c.entries| < cap then {} else c.entries.Keys;
    At(w.(cache := c), t,
       w.threads[t].(pc := if |c.entries| < cap then Storing else Scanning, sweep := Sweep(cap, c.entries, todo, {}, [])))
  }

  /** Reads one strong count. */
  function DoLook(w: World, t: nat, k: Key): World
    requires t in w.threads
  {
    var s := w.threads[t].sweep;
    var idle := if k in Cached(w) && |Holders(w, Cached(w)[k].client)| == 1 then s.idle + {k} else s.idle;
    At(w, t, w.threads[t].(sweep := s.(todo := s.todo - {k}, idle := idle)))
  }

  /** Removes one entry; the thread keeps it for closing. */
  function DoTake(w: World, t: nat, k: Key): World
    requires t in w.threads
  {
    var th := w.threads[t];
    var th' := th.(sweep := th.sweep.(keys := th.sweep.keys + [k]));
    if k in Cached(w) then
      At(w.(cache := Cache(w.pid, Cached(w) - {k})), t, th'.(evicted := th.evicted + [Cached(w)[k].client]))
    else At(w, t, th')
  }

  /** Stores the fresh client, hands it to PHP and leaves the cache lock. */
  function DoStore(w: World, t: nat, obj: Option<nat>): World
    requires t in w.threads && w.threads[t].built.Some?
  {
    var th := w.threads[t];
    var cache := Inserted(Adopt(w.cache, w.pid), th.key, Entry(th.built.value, w.clock));
    At(HandOut(w.(cache := cache, owners := w.owners - {ClientsMutex}), obj, cache.entries[th.key].client), t,
       th.(pc := Unlock, built := None))
  }

  /** Enters the mutex asked for. */
  function DoEnter(w: World, t: nat): World
    requires t in w.threads && Asks(w.threads[t].pc).Some?
  {
    var (m, pc) := Asks(w.threads[t].pc).value;
    Goto(w.(owners := w.owners[m := t]), t, pc)
  }

  /** `connect_guard`: clones the guard of the key and leaves the guard mutex. */
  function DoGuard(w: World, t: nat): World
    requires t in w.threads
  {
    var g := WithGuard(w.guards, w.pid, w.threads[t].key);
    At(w.(guards := g, owners := w.owners - {GuardsMutex}), t,
       w.threads[t].(pc := WantKey, guard := Some(g.byKey[w.threads[t].key])))
  }

  /** Locks, unlocks and drops the key's guard. */
  function DoKey(w: World, t: nat): World
    requires t in w.threads
  {
    var th := w.threads[t];
    match (th.pc, th.guard)
    case (WantKey, Some(g)) => Goto(w.(keyOwner := w.keyOwner[g := t]), t, if th.op.Connect? then WantLookup else WantRt)
    case (Unlock, Some(g)) => Goto(w.(keyOwner := w.keyOwner - {g}), t, DropGuard)
    case _ => At(w, t, th.(pc := WantRelease, guard := None))
  }

  /** `tokio_rt`: the fast path, or building a runtime under its mutex. */
  function DoRuntime(w: World, t: nat, ch: Choice): World
    requires t in w.threads
  {
    var th := w.threads[t];
    if th.pc.WantRt? then
      if w.rtPid == w.pid then Goto(w, t, AfterRt(th.op)) else DoEnter(w, t)
    else if ch == Fail then Goto(w.(owners := w.owners - {RuntimeMutex}), t, Unlock)
    else Goto(w.(owners := w.owners - {RuntimeMutex}, rtPid := w.pid), t, AfterRt(th.op))
  }

  /** `aero::Client::new`. */
  function DoBuild(w: World, t: nat, ch: Choice): World
    requires t in w.threads
  {
    var th := w.threads[t];
    if ch.Made? then
      At(w.(clients := w.clients[ch.client := Client(th.key, w.pid, true, false, false)]), t,
         th.(pc := WantInsert, built := Some(ch.client)))
    else Goto(w, t, Unlock)
  }

  /** `evict_idle_clients`, one operation at a time. */
  function DoSweep(w: World, t: nat, ch: Choice): World
    requires t in w.threads
  {
    var th := w.threads[t];
    match ch
    case Cap(cap) => DoStart(w, t, cap)
    case Look(k) => DoLook(w, t, k)
    case Take(k) => DoTake(w, t, k)
    case _ => Goto(w, t, if th.pc.Scanning? then Evicting else Storing)
  }

  /** A close attempt by `close()`, or of an evicted client. */
  function DoAttempt(w: World, t: nat, c: nat, a: Attempt): World
    requires t in w.threads && c in w.clients
  {
    var th := w.threads[t];
    if th.pc.Closing? then
      Goto(w.(clients := w.clients[c := AfterAttempt(w.clients[c], a, false)]), t,
           if a == Panicked then Unlock else WantRemove)
    else
      At(w.(clients := w.clients[c := AfterAttempt(w.clients[c], a, true)]), t,
         th.(evicted := if th.evicted == [] then [] else th.evicted[1..]))
  }

  /** `close()` removes the entry of the client it closed. */
  function DoRemove(w: World, t: nat): World
    requires t in w.threads && w.threads[t].op.Close? && w.threads[t].op.obj in w.objects
  {
    Goto(w.(cache := Removed(Adopt(w.cache, w.pid), w.threads[t].key, Target(w, t)), owners := w.owners - {ClientsMutex}), t, Unlock)
  }

  /** `release_connect_guard`: reads the strong count, and removes the guard if it was one. */
  function DoRelease(w: World, t: nat): World
    requires t in w.threads
  {
    var th := w.threads[t];
    if th.pc.InRelease? && th.key in w.guards.byKey && Clones(w, w.guards.byKey[th.key]) == 0 then Goto(w, t, Forgetting)
    else
      var guards := if th.pc.Forgetting? then w.guards.(byKey := w.guards.byKey - {th.key}) else w.guards;
      Goto(w.(guards := guards, owners := w.owners - {GuardsMutex}), t, if th.op.Connect? then CloseEvicted else Idle)
  }

  ghost function DoProgress(w: World, t: nat, ch: Choice): World
    requires t in w.threads && CanProgress(w, t, ch)
  {
    var th := w.threads[t];
    match th.pc
    case Idle => w
    case WantGuards => DoEnter(w, t)
    case InGuards => DoGuard(w, t)
    case WantKey => DoKey(w, t)
    case WantLookup => DoEnter(w, t)
    case InLookup => DoLookup(w, t, ch.obj)
    case WantRt => DoRuntime(w, t, ch)
    case InRt => DoRuntime(w, t, ch)
    case Building => DoBuild(w, t, ch)
    case WantInsert => DoEnter(w, t)
    case InInsert => DoSweep(w, t, ch)
    case Scanning => DoSweep(w, t, ch)
    case Evicting => DoSweep(w, t, ch)
    case Storing => DoStore(w, t, ch.obj)
    case Closing => DoAttempt(w, t, Target(w, t), ch.attempt)
    case WantRemove => DoEnter(w, t)
    case InRemove => DoRemove(w, t)
    case Unlock => DoKey(w, t)
    case DropGuard => DoKey(w, t)
    case WantRelease => DoEnter(w, t)
    case InRelease => DoRelease(w, t)
    case Forgetting => DoRelease(w, t)
    case CloseEvicted =>
      if th.evicted == [] then Goto(w, t, Idle) else DoAttempt(w, t, th.evicted[0], ch.attempt)
  }

  ghost predicate Can(w: World, a: Action) {
    match a
    case Join(t) => t !in w.ever
    case BeginConnect(t, key) => t in w.threads && w.threads[t].pc.Idle?
    case BeginClose(t, o) => t in w.threads && w.threads[t].pc.Idle? && o in w.objects && w.objects[o] in w.clients
    case Progress(t, ch) => t in w.threads && CanProgress(w, t, ch)
    case CopyHandle(o, copy) => o in w.objects && copy !in w.objects
    case DropHandle(o) => o in w.objects && forall t <- w.threads :: w.threads[t].op == Close(o) ==> w.threads[t].pc.Idle?
    case Tick => true
    case Fork(t, child) => t in w.threads && w.threads[t].pc.Idle? && child !in w.pids
  }

  /** After `fork()` the run goes on in the child, where only the forking thread exists. */
  ghost function Do(w: World, a: Action): World
    requires Can(w, a)
  {
    match a
    case Join(t) => At(w.(ever := w.ever + {t}), t, Thread(Idle, Connect, "", None, None, [], NO_SWEEP))
    case BeginConnect(t, key) => At(w, t, Thread(WantGuards, Connect, key, None, None, [], NO_SWEEP))
    case BeginClose(t, o) => At(w, t, Thread(WantGuards, Close(o), w.clients[w.objects[o]].key, None, None, [], NO_SWEEP))
    case Progress(t, ch) => DoProgress(w, t, ch)
    case CopyHandle(o, copy) => w.(objects := w.objects[copy := w.objects[o]])
    case DropHandle(o) => w.(objects := w.objects - {o})
    case Tick => w.(clock := w.clock + 1)
    case Fork(t, child) => w.(pid := child, pids := w.pids + {child}, threads := map[t := w.threads[t]])
  }

  /** A process in which nothing has been connected yet; pid 0 names no process. */
  function Start(pid: nat): World {
    World(pid, {0, pid}, Cache(pid, map[]), Guards(pid, map[], 0), map[], map[], 0,
          map[], map[], map[], {}, 0)
  }

  ghost predicate Runs(w: World, acts: seq<Action>)
    decreases |acts|
  {
    acts == [] || (Can(w, acts[0]) && Runs(Do(w, acts[0]), acts[1..]))
  }

  ghost function Run(w: World, acts: seq<Action>): World
    requires Runs(w, acts)
    decreases |acts|
  {
    if acts == [] then w else Run(Do(w, acts[0]), acts[1..])
  }

  ghost predicate Reachable(w: World) {
    exists pid: nat, acts :: pid > 0 && Runs(Start(pid), acts) && Run(Start(pid), acts) == w
  }

  // ---------------------------------------------------------------------------------------
  //  Runs, from their end
  // ---------------------------------------------------------------------------------------

  /** A run with one more action. */
  lemma {:induction false} RunSnoc(w: World, acts: seq<Action>, a: Action)
    requires Runs(w, acts) && Can(Run(w, acts), a)
    ensures Runs(w, acts + [a]) && Run(w, acts + [a]) == Do(Run(w, acts), a)
    decreases |acts|
  {
    if acts == [] {
      assert acts + [a] == [a] && [a][1..] == [];
      assert Runs(Do(w, a), []) && Run(Do(w, a), []) == Do(w, a);
    } else {
      RunSnoc(Do(w, acts[0]), acts[1..], a);
      assert (acts + [a])[1..] == acts[1..] + [a];
    }
  }

  /** A run without its last action. */
  lemma {:induction false} RunSplit(w: World, acts: seq<Action>)
    requires Runs(w, acts) && acts != []
    ensures var n := |acts| - 1;
      Runs(w, acts[..n]) && Can(Run(w, acts[..n]), acts[n]) && Run(w, acts) == Do(Run(w, acts[..n]), acts[n])
    decreases |acts|
  {
    var n := |acts| - 1;
    if n == 0 {
      assert acts[1..] == [] && acts[..0] == [];
      assert Run(Do(w, acts[0]), []) == Do(w, acts[0]);
    } else {
      RunSplit(Do(w, acts[0]), acts[1..]);
      assert acts[1..][..n - 1] == acts[..n][1..];
    }
  }

  lemma RunIsReachable(pid: nat, acts: seq<Action>)
    requires pid > 0 && Runs(Start(pid), acts)
    ensures Reachable(Run(Start(pid), acts))
  {}

  lemma ReachableStep(w: World, a: Action)
    requires Reachable(w) && Can(w, a)
    ensures Reachable(Do(w, a))
  {
    var pid: nat, acts :| pid > 0 && Runs(Start(pid), acts) && Run(Start(pid), acts) == w;
    RunSnoc(Start(pid), acts, a);
  }
}
