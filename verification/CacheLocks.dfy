/**
 The locks of the client cache: who owns what, why two threads never run the critical section
 for one key together, and when the guard table is empty.
*/
module CacheLocks {
  import opened CacheProtocol
  import opened CacheSpec
  import opened Wrappers

  /** How a thread at `pc` stands to the guard of its key. */
  datatype Stage =
    | Outside     // no business with it
    | Holding     // holds a clone
    | Locked      // holds a clone and has it locked: the per-key critical section
    | Releasing   // has dropped its clone
    | Dropping    // found no clone and is about to remove the guard

  function StageOf(pc: Pc): Stage {
    match pc
    case Idle => Outside
    case WantGuards => Outside
    case InGuards => Outside
    case CloseEvicted => Outside
    case WantKey => Holding
    case DropGuard => Holding
    case WantRelease => Releasing
    case InRelease => Releasing
    case Forgetting => Dropping
    case _ => Locked
  }

  /** The per-key critical section of `connect()` and `close()`. */
  predicate InSection(pc: Pc) {
    StageOf(pc).Locked?
  }

  predicate HasGuard(pc: Pc) {
    StageOf(pc).Holding? || StageOf(pc).Locked?
  }

  predicate UsesGuard(pc: Pc) {
    !StageOf(pc).Outside?
  }

  /** Inside the inserting section, with the fresh client at hand. */
  predicate Inserting(pc: Pc) {
    pc.InInsert? || pc.Scanning? || pc.Evicting? || pc.Storing?
  }

  predicate InClients(pc: Pc) {
    Inside(pc) == Some(ClientsMutex)
  }

  /** Where a connecting thread may carry evicted clients. */
  predicate MayCarry(pc: Pc) {
    pc.Evicting? || pc.Storing? || pc.Unlock? || pc.DropGuard? || pc.WantRelease? || pc.InRelease? || pc.Forgetting? || pc.CloseEvicted?
  }

  /** Which program points belong to which call, and what a thread carries at them. */
  predicate Fit(th: Thread) {
    && (ConnectOnly(th.pc) ==> th.op.Connect?)
    && (th.pc.Closing? || th.pc.WantRemove? || th.pc.InRemove? ==> th.op.Close?)
    && (th.built.Some? <==> th.pc.WantInsert? || Inserting(th.pc))
    && (th.evicted != [] ==> th.op.Connect? && MayCarry(th.pc))
    && (th.guard.Some? <==> HasGuard(th.pc))
  }

  predicate ConnectOnly(pc: Pc) {
    pc.WantLookup? || pc.InLookup? || pc.Building? || pc.WantInsert? || pc.CloseEvicted? || Inserting(pc)
  }

  /** A closing thread works on a live object whose client has the key it works under. */
  predicate Names(w: World, th: Thread) {
    !th.pc.Idle? && th.op.Close? ==>
      th.op.obj in w.objects && w.objects[th.op.obj] in w.clients && w.clients[w.objects[th.op.obj]].key == th.key
  }

  predicate Shape(w: World, t: nat)
    requires t in w.threads
  {
    Fit(w.threads[t]) && Names(w, w.threads[t])
  }

  predicate Owns(w: World, t: nat)
    requires t in w.threads
  {
    && (Inside(w.threads[t].pc).Some? ==>
          Inside(w.threads[t].pc).value in w.owners && w.owners[Inside(w.threads[t].pc).value] == t)
    && forall m <- w.owners :: w.owners[m] == t ==> Inside(w.threads[t].pc) == Some(m)
  }

  predicate LocksOk(w: World) {
    && (forall t <- w.threads :: t in w.ever && Owns(w, t) && Shape(w, t))
    && (forall m <- w.owners :: w.owners[m] in w.ever)
    && (forall o <- w.objects :: w.objects[o] in w.clients)
  }

  /** The guard a thread holds is the one stored for its key; in the section it has it locked. */
  predicate GuardOk(w: World, t: nat)
    requires t in w.threads
  {
    var th := w.threads[t];
    && (HasGuard(th.pc) ==> th.guard.Some? && th.key in GuardOf(w) && th.guard.value == GuardOf(w)[th.key])
    && (InSection(th.pc) ==> th.guard.Some? && th.guard.value in w.keyOwner && w.keyOwner[th.guard.value] == t)
  }

  /** No thread holds a clone of guard `g`. */
  predicate Unclaimed(w: World, g: nat) {
    forall u <- w.threads :: w.threads[u].guard != Some(g)
  }

  /** A guard about to be removed has no clone. */
  predicate DroppingOk(w: World, t: nat)
    requires t in w.threads
  {
    w.threads[t].pc.Forgetting? ==> w.threads[t].key in GuardOf(w) && Unclaimed(w, GuardOf(w)[w.threads[t].key])
  }

  /** A stored guard is locked only by a thread in that key's section, and only kept while used. */
  ghost predicate TableOk(w: World, k: Key)
    requires k in GuardOf(w)
  {
    var g := GuardOf(w)[k];
    && g < w.guards.next
    && (g in w.keyOwner ==>
          && w.keyOwner[g] in w.threads
          && InSection(w.threads[w.keyOwner[g]].pc)
          && w.threads[w.keyOwner[g]].key == k)
    && exists t :: t in w.threads && w.threads[t].key == k && UsesGuard(w.threads[t].pc)
  }

  predicate Injective(m: map<Key, nat>) {
    forall k, l :: k in m && l in m && m[k] == m[l] ==> k == l
  }

  /** Guard ids are never shared or reused, and a process that uses guards has its own table. */
  predicate TableFit(w: World) {
    && Injective(GuardOf(w))
    && (forall g <- w.keyOwner :: g < w.guards.next)
    && (forall t <- w.threads :: UsesGuard(w.threads[t].pc) ==> w.guards.pid == w.pid)
    && w.pid in w.pids && w.guards.pid in w.pids
  }

  ghost predicate GuardsOk(w: World) {
    && (forall t <- w.threads :: GuardOk(w, t) && DroppingOk(w, t))
    && (forall k <- GuardOf(w) :: TableOk(w, k))
    && TableFit(w)
  }

  // ---------------------------------------------------------------------------------------
  //  Preservation
  // ---------------------------------------------------------------------------------------

  /** What every step of thread `t` leaves alone, and how it moves the mutexes. */
  ghost predicate Moved(w: World, w': World, t: nat)
    requires t in w.threads
  {
    && w'.pid == w.pid && w'.pids == w.pids && w'.ever == w.ever
    && w'.threads.Keys == w.threads.Keys
    && (forall u <- w.threads :: u != t ==> w'.threads[u] == w.threads[u])
    && w'.threads[t].key == w.threads[t].key && w'.threads[t].op == w.threads[t].op
    && ObjectsStay(w, w') && ClientsStay(w, w')
    && (w.threads[t].pc.InRt? || w'.rtPid == w.rtPid)
    && OwnersMoved(w, w', t, Inside(w.threads[t].pc), Inside(w'.threads[t].pc))
  }

  predicate ObjectsStay(w: World, w': World) {
    forall o <- w.objects :: o in w'.objects && w'.objects[o] == w.objects[o]
  }

  predicate ClientsStay(w: World, w': World) {
    forall c <- w.clients :: c in w'.clients && Later(w.clients[c], w'.clients[c])
  }

  /** A mutex is entered when it is free, left by its owner, and never exchanged for another. */
  predicate OwnersMoved(w: World, w': World, t: nat, was: Option<Mutex>, now: Option<Mutex>) {
    match (was, now)
    case (None, Some(m)) => m !in w.owners && w'.owners == w.owners[m := t]
    case (Some(m), None) => w'.owners == w.owners - {m}
    case _ => was == now && w'.owners == w.owners
  }

  predicate Later(c: Client, c': Client) {
    c'.key == c.key && c'.pid == c.pid && (c.returned ==> c'.returned) && (c.disposed ==> c'.disposed)
  }

  /**
   Handles are made only from a cache entry, under the cache lock; entries are touched, removed,
   or made from the client that the storing thread has built.
  */
  ghost predicate Sourced(w: World, w': World, t: nat)
    requires t in w.threads
  {
    var th := w.threads[t];
    && (forall o <- w'.objects :: (o in w.objects && w'.objects[o] == w.objects[o]) ||
          ((th.pc.InLookup? || th.pc.Storing?) && th.key in Cached(w') && w'.objects[o] == Cached(w')[th.key].client))
    && (forall k <- Cached(w') :: (k in Cached(w) && Cached(w')[k].client == Cached(w)[k].client) ||
          (th.pc.Storing? && k == th.key && th.built == Some(Cached(w')[k].client)))
  }

  /** What a thread carries only shrinks, but for a client nobody has seen yet. */
  predicate CarriesNoMore(w: World, th: Thread, th': Thread) {
    && (th'.built.Some? ==> th'.built == th.built || th'.built.value !in w.clients)
    && forall c <- th'.evicted :: c in th.evicted
  }

  /** Outside the cache mutex a thread changes neither the cache nor the handles. */
  predicate StaysOut(w: World, w': World, t: nat)
    requires t in w.threads
  {
    InClients(w.threads[t].pc) ||
      (w'.cache == w.cache && w'.objects == w.objects && t in w'.threads && CarriesNoMore(w, w.threads[t], w'.threads[t]))
  }

  /** The thread moved on, in shape. */
  ghost predicate Advances(w: World, w': World, t: nat)
    requires t in w.threads
  {
    Moved(w, w', t) && Sourced(w, w', t) && StaysOut(w, w', t) && (Shape(w, t) ==> Shape(w', t))
  }

  predicate SameStage(th: Thread, th': Thread) {
    th'.guard == th.guard && th'.key == th.key && StageOf(th'.pc) == StageOf(th.pc)
  }

  /** The step touches neither the guard table nor a guard's lock. */
  predicate GuardsKept(w: World, w': World, t: nat)
    requires t in w.threads
  {
    && w'.guards == w.guards && w'.keyOwner == w.keyOwner
    && t in w'.threads && SameStage(w.threads[t], w'.threads[t])
  }

  /** Thread `t` becomes `th'`, and nothing is lost. */
  lemma Advance(w: World, w': World, t: nat, th': Thread)
    requires t in w.threads && w'.pid == w.pid && w'.pids == w.pids && w'.ever == w.ever
    requires w'.threads == w.threads[t := th'] && th'.key == w.threads[t].key && th'.op == w.threads[t].op
    requires (w.threads[t].pc.Idle? ==> th'.pc.Idle?) && (w.threads[t].pc.InRt? || w'.rtPid == w.rtPid)
    requires ObjectsStay(w, w') && ClientsStay(w, w')
    requires OwnersMoved(w, w', t, Inside(w.threads[t].pc), Inside(th'.pc))
    requires Sourced(w, w', t) && StaysOut(w, w', t) && (Fit(w.threads[t]) ==> Fit(th'))
    ensures Advances(w, w', t)
  {}

  /** The same for steps that leave cache and objects alone. */
  lemma AdvanceQuietly(w: World, w': World, t: nat, th': Thread)
    requires t in w.threads && w'.pid == w.pid && w'.pids == w.pids && w'.ever == w.ever
    requires w'.threads == w.threads[t := th'] && th'.key == w.threads[t].key && th'.op == w.threads[t].op
    requires (w.threads[t].pc.Idle? ==> th'.pc.Idle?) && (w.threads[t].pc.InRt? || w'.rtPid == w.rtPid)
    requires w'.objects == w.objects && w'.cache == w.cache && ClientsStay(w, w') && CarriesNoMore(w, w.threads[t], th')
    requires OwnersMoved(w, w', t, Inside(w.threads[t].pc), Inside(th'.pc))
    requires Fit(w.threads[t]) ==> Fit(th')
    ensures Advances(w, w', t)
  {
    Advance(w, w', t, th');
  }

  lemma EnterStep(w: World, t: nat)
    requires t in w.threads && Asks(w.threads[t].pc).Some? && Asks(w.threads[t].pc).value.0 !in w.owners
    ensures Advances(w, DoEnter(w, t), t) && GuardsKept(w, DoEnter(w, t), t)
  {
    AdvanceQuietly(w, DoEnter(w, t), t, w.threads[t].(pc := Asks(w.threads[t].pc).value.1));
  }

  lemma RuntimeFrame(w: World, t: nat, ch: Choice)
    requires t in w.threads && (w.threads[t].pc.InRt? || (w.threads[t].pc.WantRt? && w.rtPid == w.pid))
    ensures var w' := DoRuntime(w, t, ch);
      && w' == w.(threads := w.threads[t := w.threads[t].(pc := w'.threads[t].pc)], owners := w'.owners, rtPid := w'.rtPid)
      && (w'.threads[t].pc == AfterRt(w.threads[t].op) || w'.threads[t].pc.Unlock?)
      && (w.threads[t].pc.InRt? || w'.rtPid == w.rtPid)
      && w'.owners == if w.threads[t].pc.InRt? then w.owners - {RuntimeMutex} else w.owners
  {}

  lemma RuntimeStep(w: World, t: nat, ch: Choice)
    requires t in w.threads && (w.threads[t].pc.WantRt? || w.threads[t].pc.InRt?)
    requires w.threads[t].pc.WantRt? ==> w.rtPid == w.pid || RuntimeMutex !in w.owners
    ensures Advances(w, DoRuntime(w, t, ch), t) && GuardsKept(w, DoRuntime(w, t, ch), t)
  {
    if w.threads[t].pc.WantRt? && w.rtPid != w.pid {
      EnterStep(w, t);
    } else {
      RuntimeReady(w, t, ch);
    }
  }

  lemma RuntimeReady(w: World, t: nat, ch: Choice)
    requires t in w.threads && (w.threads[t].pc.InRt? || (w.threads[t].pc.WantRt? && w.rtPid == w.pid))
    ensures Advances(w, DoRuntime(w, t, ch), t) && GuardsKept(w, DoRuntime(w, t, ch), t)
  {
    RuntimeFrame(w, t, ch);
    var w' := DoRuntime(w, t, ch);
    AdvanceQuietly(w, w', t, w.threads[t].(pc := w'.threads[t].pc));
  }

  lemma BuildStep(w: World, t: nat, ch: Choice)
    requires t in w.threads && w.threads[t].pc.Building? && (ch.Made? ==> ch.client !in w.clients)
    ensures Advances(w, DoBuild(w, t, ch), t) && GuardsKept(w, DoBuild(w, t, ch), t)
  {
    var th := w.threads[t];
    var th' := if ch.Made? then th.(pc := WantInsert, built := Some(ch.client)) else th.(pc := Unlock);
    AdvanceQuietly(w, DoBuild(w, t, ch), t, th');
  }

  lemma LookupStep(w: World, t: nat, obj: Option<nat>)
    requires t in w.threads && w.threads[t].pc.InLookup? && FreshObject(w, obj)
    ensures Advances(w, DoLookup(w, t, obj), t) && GuardsKept(w, DoLookup(w, t, obj), t)
  {
    LookupSources(w, t, obj);
    LookupFrame(w, t, obj);
    var pc := if w.threads[t].key in Cached(w) then Unlock else WantRt;
    Advance(w, DoLookup(w, t, obj), t, w.threads[t].(pc := pc));
  }

  lemma LookupSources(w: World, t: nat, obj: Option<nat>)
    requires t in w.threads && w.threads[t].pc.InLookup? && FreshObject(w, obj)
    ensures Sourced(w, DoLookup(w, t, obj), t) && ObjectsStay(w, DoLookup(w, t, obj))
  {}

  lemma LookupFrame(w: World, t: nat, obj: Option<nat>)
    requires t in w.threads
    ensures var pc := if w.threads[t].key in Cached(w) then Unlock else WantRt;
      DoLookup(w, t, obj) == w.(threads := w.threads[t := w.threads[t].(pc := pc)], owners := w.owners - {ClientsMutex},
                                cache := DoLookup(w, t, obj).cache, objects := DoLookup(w, t, obj).objects)
  {}

  lemma StartFrame(w: World, t: nat, cap: nat)
    requires t in w.threads
    ensures var th' := DoStart(w, t, cap).threads[t];
      && DoStart(w, t, cap) == w.(threads := w.threads[t := th'], cache := Adopt(w.cache, w.pid))
      && th' == w.threads[t].(pc := th'.pc, sweep := th'.sweep) && (th'.pc.Storing? || th'.pc.Scanning?)
  {}

  lemma StartAdvances(w: World, w': World, t: nat, th': Thread)
    requires t in w.threads && w.threads[t].pc.InInsert? && (th'.pc.Storing? || th'.pc.Scanning?)
    requires w' == w.(threads := w.threads[t := th'], cache := Adopt(w.cache, w.pid))
    requires th' == w.threads[t].(pc := th'.pc, sweep := th'.sweep)
    ensures Advances(w, w', t) && GuardsKept(w, w', t)
  {
    assert Cached(w') == Cached(w);
    Advance(w, w', t, th');
  }

  lemma StartStep(w: World, t: nat, cap: nat)
    requires t in w.threads && w.threads[t].pc.InInsert?
    ensures Advances(w, DoStart(w, t, cap), t) && GuardsKept(w, DoStart(w, t, cap), t)
  {
    StartFrame(w, t, cap);
    StartAdvances(w, DoStart(w, t, cap), t, DoStart(w, t, cap).threads[t]);
  }

  lemma LookStep(w: World, t: nat, k: Key)
    requires t in w.threads && w.threads[t].pc.Scanning?
    ensures Advances(w, DoLook(w, t, k), t) && GuardsKept(w, DoLook(w, t, k), t)
  {
    AdvanceQuietly(w, DoLook(w, t, k), t, DoLook(w, t, k).threads[t]);
  }

  lemma TakeFrame(w: World, t: nat, k: Key)
    requires t in w.threads
    ensures var w' := DoTake(w, t, k); var th := w.threads[t];
      && w' == w.(threads := w.threads[t := w'.threads[t]], cache := w'.cache)
      && w'.threads[t] == th.(evicted := w'.threads[t].evicted, sweep := w'.threads[t].sweep)
      && (forall l <- Cached(w') :: l in Cached(w) && Cached(w')[l] == Cached(w)[l])
  {}

  lemma TakeStep(w: World, t: nat, k: Key)
    requires t in w.threads && w.threads[t].pc.Evicting?
    ensures Advances(w, DoTake(w, t, k), t) && GuardsKept(w, DoTake(w, t, k), t)
  {
    TakeFrame(w, t, k);
    Advance(w, DoTake(w, t, k), t, DoTake(w, t, k).threads[t]);
  }

  lemma PhaseStep(w: World, t: nat)
    requires t in w.threads && (w.threads[t].pc.Scanning? || w.threads[t].pc.Evicting?)
    ensures Advances(w, DoSweep(w, t, Go), t) && GuardsKept(w, DoSweep(w, t, Go), t)
  {
    AdvanceQuietly(w, DoSweep(w, t, Go), t, DoSweep(w, t, Go).threads[t]);
  }

  lemma SweepStep(w: World, t: nat, ch: Choice)
    requires t in w.threads && (ch.Cap? || ch.Look? || ch.Take? || ch.Go?)
    requires ch.Cap? ==> w.threads[t].pc.InInsert?
    requires ch.Look? ==> w.threads[t].pc.Scanning?
    requires ch.Take? ==> w.threads[t].pc.Evicting?
    requires ch.Go? ==> w.threads[t].pc.Scanning? || w.threads[t].pc.Evicting?
    ensures Advances(w, DoSweep(w, t, ch), t) && GuardsKept(w, DoSweep(w, t, ch), t)
  {
    match ch
    case Cap(cap) => StartStep(w, t, cap);
    case Look(k) => LookStep(w, t, k);
    case Take(k) => TakeStep(w, t, k);
    case Go => PhaseStep(w, t);
  }

  lemma StoreStep(w: World, t: nat, obj: Option<nat>)
    requires t in w.threads && w.threads[t].pc.Storing? && w.threads[t].built.Some? && FreshObject(w, obj)
    ensures Advances(w, DoStore(w, t, obj), t) && GuardsKept(w, DoStore(w, t, obj), t)
  {
    Advance(w, DoStore(w, t, obj), t, w.threads[t].(pc := Unlock, built := None));
  }

  lemma AttemptFrame(w: World, t: nat, c: nat, a: Attempt)
    requires t in w.threads && c in w.clients
    requires w.threads[t].pc.Closing? || (w.threads[t].pc.CloseEvicted? && w.threads[t].evicted != [])
    ensures var w' := DoAttempt(w, t, c, a); var th, th' := w.threads[t], w'.threads[t];
      && w' == w.(threads := w.threads[t := th'], clients := w.clients[c := w'.clients[c]])
      && Later(w.clients[c], w'.clients[c])
      && th' == th.(pc := th'.pc, evicted := th'.evicted)
      && (if th.pc.Closing? then (th'.pc.Unlock? || th'.pc.WantRemove?) && th'.evicted == th.evicted
          else th'.pc == th.pc && th'.evicted == th.evicted[1..])
  {}

  lemma AttemptStep(w: World, t: nat, c: nat, a: Attempt)
    requires t in w.threads && c in w.clients
    requires w.threads[t].pc.Closing? || (w.threads[t].pc.CloseEvicted? && w.threads[t].evicted != [])
    ensures Advances(w, DoAttempt(w, t, c, a), t) && GuardsKept(w, DoAttempt(w, t, c, a), t)
  {
    AttemptFrame(w, t, c, a);
    var w' := DoAttempt(w, t, c, a);
    AdvanceQuietly(w, w', t, w'.threads[t]);
  }

  lemma RemoveStep(w: World, t: nat)
    requires t in w.threads && w.threads[t].pc.InRemove? && w.threads[t].op.Close? && w.threads[t].op.obj in w.objects
    ensures Advances(w, DoRemove(w, t), t) && GuardsKept(w, DoRemove(w, t), t)
  {
    Advance(w, DoRemove(w, t), t, w.threads[t].(pc := Unlock));
  }

  lemma KeyFrame(w: World, t: nat)
    requires t in w.threads && (w.threads[t].pc.WantKey? || w.threads[t].pc.Unlock? || w.threads[t].pc.DropGuard?)
    requires !w.threads[t].pc.DropGuard? ==> w.threads[t].guard.Some?
    ensures DoKey(w, t) == w.(threads := w.threads[t := AfterKey(w.threads[t])], keyOwner := DoKey(w, t).keyOwner)
  {}

  function AfterKey(th: Thread): Thread {
    if th.pc.WantKey? then th.(pc := if th.op.Connect? then WantLookup else WantRt)
    else if th.pc.Unlock? then th.(pc := DropGuard)
    else th.(pc := WantRelease, guard := None)
  }

  lemma KeyStep(w: World, t: nat)
    requires t in w.threads && (w.threads[t].pc.WantKey? || w.threads[t].pc.Unlock? || w.threads[t].pc.DropGuard?)
    requires !w.threads[t].pc.DropGuard? ==> w.threads[t].guard.Some?
    ensures Advances(w, DoKey(w, t), t)
  {
    KeyFrame(w, t);
    AdvanceQuietly(w, DoKey(w, t), t, AfterKey(w.threads[t]));
  }

  lemma GuardStep(w: World, t: nat)
    requires t in w.threads && w.threads[t].pc.InGuards?
    ensures Advances(w, DoGuard(w, t), t)
  {
    var w' := DoGuard(w, t);
    AdvanceQuietly(w, w', t, w'.threads[t]);
  }

  /** Where `release_connect_guard` goes, and what it does to the table. */
  lemma ReleaseFrame(w: World, t: nat)
    requires t in w.threads
    ensures var w' := DoRelease(w, t);
      && w' == w.(threads := w.threads[t := w.threads[t].(pc := w'.threads[t].pc)], owners := w'.owners, guards := w'.guards)
      && (w'.threads[t].pc.Forgetting? ==> w.threads[t].pc.InRelease? && w'.owners == w.owners)
      && (!w'.threads[t].pc.Forgetting? ==>
            && w'.threads[t].pc == (if w.threads[t].op.Connect? then CloseEvicted else Idle)
            && w'.owners == w.owners - {GuardsMutex})
  {}

  lemma ReleaseStep(w: World, t: nat)
    requires t in w.threads && (w.threads[t].pc.InRelease? || w.threads[t].pc.Forgetting?)
    ensures Advances(w, DoRelease(w, t), t)
  {
    ReleaseFrame(w, t);
    AdvanceQuietly(w, DoRelease(w, t), t, w.threads[t].(pc := DoRelease(w, t).threads[t].pc));
  }

  /** The program points at which a thread changes its relation to its guard. */
  predicate PassesStage(pc: Pc) {
    pc.InGuards? || pc.WantKey? || pc.Unlock? || pc.DropGuard? || pc.InRelease? || pc.Forgetting?
  }

  lemma StageAdvances(w: World, t: nat, ch: Choice)
    requires t in w.threads && CanProgress(w, t, ch) && PassesStage(w.threads[t].pc)
    ensures Advances(w, DoProgress(w, t, ch), t)
  {
    match w.threads[t].pc
    case InGuards => GuardStep(w, t);
    case InRelease => ReleaseStep(w, t);
    case Forgetting => ReleaseStep(w, t);
    case _ => KeyStep(w, t);
  }

  lemma ClientsAdvances(w: World, t: nat, ch: Choice)
    requires t in w.threads && CanProgress(w, t, ch) && InClients(w.threads[t].pc)
    ensures Advances(w, DoProgress(w, t, ch), t) && GuardsKept(w, DoProgress(w, t, ch), t)
  {
    match w.threads[t].pc
    case InLookup => LookupStep(w, t, ch.obj);
    case Storing => StoreStep(w, t, ch.obj);
    case InRemove => RemoveStep(w, t);
    case _ => SweepStep(w, t, ch);
  }

  lemma CallAdvances(w: World, t: nat, ch: Choice)
    requires t in w.threads && CanProgress(w, t, ch) && !PassesStage(w.threads[t].pc) && !InClients(w.threads[t].pc)
    ensures Advances(w, DoProgress(w, t, ch), t) && GuardsKept(w, DoProgress(w, t, ch), t)
  {
    match w.threads[t].pc
    case WantRt => RuntimeStep(w, t, ch);
    case InRt => RuntimeStep(w, t, ch);
    case Building => BuildStep(w, t, ch);
    case Closing => AttemptStep(w, t, Target(w, t), ch.attempt);
    case CloseEvicted =>
      if w.threads[t].evicted == [] {
        AdvanceQuietly(w, Goto(w, t, Idle), t, w.threads[t].(pc := Idle));
      } else {
        AttemptStep(w, t, w.threads[t].evicted[0], ch.attempt);
      }
    case _ => EnterStep(w, t);
  }

  lemma ProgressAdvances(w: World, t: nat, ch: Choice)
    requires t in w.threads && CanProgress(w, t, ch)
    ensures Advances(w, DoProgress(w, t, ch), t)
    ensures !PassesStage(w.threads[t].pc) ==> GuardsKept(w, DoProgress(w, t, ch), t)
  {
    if PassesStage(w.threads[t].pc) {
      StageAdvances(w, t, ch);
    } else if InClients(w.threads[t].pc) {
      ClientsAdvances(w, t, ch);
    } else {
      CallAdvances(w, t, ch);
    }
  }

  // ---------------------------------------------------------------------------------------
  //  The mutexes
  // ---------------------------------------------------------------------------------------

  lemma OthersOwn(w: World, w': World, t: nat, u: nat)
    requires t in w.threads && u in w.threads && u != t && Moved(w, w', t)
    requires Owns(w, t) && Owns(w, u) && Shape(w, u)
    ensures Owns(w', u) && Shape(w', u)
  {}

  lemma ObjectsNamed(w: World, w': World, t: nat)
    requires LocksOk(w) && t in w.threads && Advances(w, w', t)
    requires forall k <- Cached(w) :: Cached(w)[k].client in w.clients
    requires w.threads[t].built.Some? ==> w.threads[t].built.value in w.clients
    ensures forall o <- w'.objects :: w'.objects[o] in w.clients
  {}

  lemma AdvanceKeepsLocks(w: World, w': World, t: nat)
    requires LocksOk(w) && t in w.threads && Advances(w, w', t)
    requires forall k <- Cached(w) :: Cached(w)[k].client in w.clients
    requires w.threads[t].built.Some? ==> w.threads[t].built.value in w.clients
    ensures LocksOk(w')
  {
    ObjectsNamed(w, w', t);
    forall u <- w'.threads
      ensures u in w'.ever && Owns(w', u) && Shape(w', u)
    {
      assert u in w.threads && Owns(w, u) && Shape(w, u);
      if u != t {
        OthersOwn(w, w', t, u);
      }
    }
  }

  lemma JoinKeepsLocks(w: World, a: Action)
    requires LocksOk(w) && Can(w, a) && a.Join?
    ensures LocksOk(Do(w, a))
  {
    EnteredKeepsLocks(w, Do(w, a), a.thread);
  }

  lemma BeginKeepsLocks(w: World, a: Action)
    requires LocksOk(w) && Can(w, a) && (a.BeginConnect? || a.BeginClose?)
    ensures LocksOk(Do(w, a))
  {
    assert Owns(w, a.thread);
    EnteredKeepsLocks(w, Do(w, a), a.thread);
  }

  /** A thread outside all locks is added, or starts over. */
  lemma EnteredKeepsLocks(w: World, w': World, t: nat)
    requires LocksOk(w) && (t in w.threads ==> Owns(w, t) && w.threads[t].pc.Idle?) && (t !in w.threads ==> t !in w.ever)
    requires w' == w.(threads := w'.threads, ever := w.ever + {t}) && t in w'.threads && w'.threads == w.threads[t := w'.threads[t]]
    requires (w'.threads[t].pc.Idle? || w'.threads[t].pc.WantGuards?) && Shape(w', t)
    ensures LocksOk(w')
  {
    forall u <- w'.threads ensures u in w'.ever && Owns(w', u) && Shape(w', u) {
      assert u != t ==> u in w.threads && Owns(w, u) && Shape(w, u);
    }
  }

  lemma OutsideKeepsLocks(w: World, a: Action)
    requires LocksOk(w) && Can(w, a) && (a.CopyHandle? || a.DropHandle? || a.Tick?)
    ensures LocksOk(Do(w, a))
  {
    var w' := Do(w, a);
    forall u <- w'.threads ensures u in w'.ever && Owns(w', u) && Shape(w', u) {
      assert u in w.ever && Owns(w, u) && Shape(w, u);
    }
  }

  lemma ForkKeepsLocks(w: World, a: Action)
    requires LocksOk(w) && Can(w, a) && a.Fork?
    ensures LocksOk(Do(w, a))
  {
    assert a.thread in w.ever && Owns(w, a.thread) && Shape(w, a.thread);
  }

  lemma StepKeepsLocks(w: World, a: Action)
    requires LocksOk(w) && Can(w, a)
    requires forall k <- Cached(w) :: Cached(w)[k].client in w.clients
    requires forall t <- w.threads :: w.threads[t].built.Some? ==> w.threads[t].built.value in w.clients
    ensures LocksOk(Do(w, a))
  {
    match a {
      case Progress(t, ch) =>
        ProgressAdvances(w, t, ch);
        AdvanceKeepsLocks(w, DoProgress(w, t, ch), t);
      case Join(_) => JoinKeepsLocks(w, a);
      case BeginConnect(_, _) => BeginKeepsLocks(w, a);
      case BeginClose(_, _) => BeginKeepsLocks(w, a);
      case Fork(_, _) => ForkKeepsLocks(w, a);
      case _ => OutsideKeepsLocks(w, a);
    }
  }

  // ---------------------------------------------------------------------------------------
  //  The guard table
  // ---------------------------------------------------------------------------------------

  /** A stored guard whose user is another thread stays in use. */
  lemma StillUsed(w: World, w': World, t: nat, u: nat, k: Key)
    requires t in w.threads && u in w.threads && Moved(w, w', t)
    requires w.threads[u].key == k && UsesGuard(w.threads[u].pc) && (u == t ==> UsesGuard(w'.threads[t].pc))
    ensures u in w'.threads && w'.threads[u].key == k && UsesGuard(w'.threads[u].pc)
  {}

  lemma KeptTable(w: World, w': World, t: nat, k: Key)
    requires GuardsOk(w) && t in w.threads && Moved(w, w', t) && GuardsKept(w, w', t) && k in GuardOf(w')
    ensures TableOk(w', k)
  {
    assert TableOk(w, k);
    var u :| u in w.threads && w.threads[u].key == k && UsesGuard(w.threads[u].pc);
    StillUsed(w, w', t, u, k);
  }

  /** A guard about to be removed stays without a clone. */
  lemma DroppingStays(w: World, w': World, t: nat, u: nat)
    requires t in w.threads && u in w.threads && Moved(w, w', t) && DroppingOk(w, u)
    requires w'.threads[u].pc.Forgetting? ==>
               && w.threads[u].pc.Forgetting? && w.threads[u].key in GuardOf(w')
               && GuardOf(w')[w.threads[u].key] == GuardOf(w)[w.threads[u].key]
               && w'.threads[t].guard != Some(GuardOf(w)[w.threads[u].key])
    ensures DroppingOk(w', u)
  {}

  lemma KeptThread(w: World, w': World, t: nat, u: nat)
    requires GuardsOk(w) && t in w.threads && u in w.threads && Moved(w, w', t) && GuardsKept(w, w', t)
    ensures GuardOk(w', u) && DroppingOk(w', u)
  {
    assert GuardOk(w, u) && DroppingOk(w, u);
    DroppingStays(w, w', t, u);
  }

  lemma KeptKeepsGuards(w: World, w': World, t: nat)
    requires GuardsOk(w) && t in w.threads && Moved(w, w', t) && GuardsKept(w, w', t)
    ensures GuardsOk(w')
  {
    forall u <- w'.threads ensures GuardOk(w', u) && DroppingOk(w', u) {
      KeptThread(w, w', t, u);
    }
    forall k <- GuardOf(w') ensures TableOk(w', k) {
      KeptTable(w, w', t, k);
    }
  }

  /** The stages by which a thread passes through its guard, as relations between two states. */
  ghost predicate Takes(w: World, w': World, t: nat)
    requires t in w.threads
  {
    && w.threads[t].pc.InGuards? && Moved(w, w', t)
    && w'.guards == WithGuard(w.guards, w.pid, w.threads[t].key) && w'.keyOwner == w.keyOwner
    && w'.threads[t].pc.WantKey? && w'.threads[t].guard == Some(w'.guards.byKey[w.threads[t].key])
  }

  lemma TakeKeepsTable(w: World, w': World, t: nat, k: Key)
    requires GuardsOk(w) && t in w.threads && Takes(w, w', t) && k in GuardOf(w')
    ensures TableOk(w', k)
  {}

  lemma TakeKeepsGuard(w: World, w': World, t: nat, u: nat)
    requires GuardsOk(w) && t in w.threads && Takes(w, w', t) && u in w.threads
    ensures GuardOk(w', u)
  {
    assert GuardOk(w, u);
  }

  /** No other thread is about to forget a guard: it would be inside the guard mutex too. */
  lemma TakeKeepsDropping(w: World, w': World, t: nat, u: nat)
    requires LocksOk(w) && GuardsOk(w) && t in w.threads && Takes(w, w', t) && u in w.threads
    ensures DroppingOk(w', u)
  {
    NoOtherForgets(w, t, u);
  }

  lemma NoOtherForgets(w: World, t: nat, u: nat)
    requires LocksOk(w) && t in w.threads && u in w.threads && Inside(w.threads[t].pc) == Some(GuardsMutex)
    ensures u != t ==> !w.threads[u].pc.Forgetting?
  {
    if w.threads[u].pc.Forgetting? {
      OneInside(w, t, u);
    }
  }

  /** Two threads are never inside the same mutex. */
  lemma OneInside(w: World, t: nat, u: nat)
    requires LocksOk(w) && t in w.threads && u in w.threads && Inside(w.threads[t].pc).Some?
    requires Inside(w.threads[t].pc) == Inside(w.threads[u].pc)
    ensures t == u
  {
    assert Owns(w, t) && Owns(w, u);
  }

  lemma TakeKeepsFit(w: World, w': World, t: nat)
    requires GuardsOk(w) && t in w.threads && Takes(w, w', t)
    ensures TableFit(w')
  {
    forall k <- GuardOf(w) ensures GuardOf(w)[k] < w.guards.next {
      assert TableOk(w, k);
    }
  }

  lemma TakeKeepsGuards(w: World, w': World, t: nat)
    requires LocksOk(w) && GuardsOk(w) && t in w.threads && Takes(w, w', t)
    ensures GuardsOk(w')
  {
    forall u <- w'.threads ensures GuardOk(w', u) && DroppingOk(w', u) {
      TakeKeepsGuard(w, w', t, u);
      TakeKeepsDropping(w, w', t, u);
    }
    forall k <- GuardOf(w') ensures TableOk(w', k) {
      TakeKeepsTable(w, w', t, k);
    }
    TakeKeepsFit(w, w', t);
  }

  /** Locking, unlocking or dropping the clone. */
  ghost predicate PassesKey(w: World, w': World, t: nat)
    requires t in w.threads
  {
    var th, th' := w.threads[t], if t in w'.threads then w'.threads[t] else w.threads[t];
    && Moved(w, w', t) && w'.guards == w.guards
    && match th.pc
       case WantKey =>
         && th.guard.Some? && th.guard.value !in w.keyOwner && w'.keyOwner == w.keyOwner[th.guard.value := t]
         && InSection(th'.pc) && th'.guard == th.guard
       case Unlock =>
         && th.guard.Some? && w'.keyOwner == w.keyOwner - {th.guard.value}
         && th'.pc.DropGuard? && th'.guard == th.guard
       case DropGuard => w'.keyOwner == w.keyOwner && th'.pc.WantRelease? && th'.guard == None
       case _ => false
  }

  lemma KeyKeepsOther(w: World, w': World, t: nat, u: nat)
    requires GuardsOk(w) && t in w.threads && PassesKey(w, w', t) && u in w.threads && u != t
    ensures GuardOk(w', u)
  {
    assert GuardOk(w, u) && GuardOk(w, t);
  }

  lemma KeyKeepsOwn(w: World, w': World, t: nat)
    requires GuardsOk(w) && t in w.threads && PassesKey(w, w', t)
    ensures GuardOk(w', t)
  {
    assert GuardOk(w, t);
  }

  lemma KeyKeepsDropping(w: World, w': World, t: nat, u: nat)
    requires GuardsOk(w) && t in w.threads && PassesKey(w, w', t) && u in w.threads
    ensures DroppingOk(w', u)
  {
    assert DroppingOk(w, u);
    DroppingStays(w, w', t, u);
  }

  lemma KeyKeepsFit(w: World, w': World, t: nat)
    requires GuardsOk(w) && t in w.threads && PassesKey(w, w', t)
    ensures TableFit(w')
  {
    assert GuardOk(w, t);
    forall k <- GuardOf(w) ensures GuardOf(w)[k] < w.guards.next {
      assert TableOk(w, k);
    }
  }

  lemma KeyKeepsTable(w: World, w': World, t: nat, k: Key)
    requires GuardsOk(w) && t in w.threads && PassesKey(w, w', t) && k in GuardOf(w')
    ensures TableOk(w', k)
  {
    assert TableOk(w, k) && GuardOk(w, t);
    var u :| u in w.threads && w.threads[u].key == k && UsesGuard(w.threads[u].pc);
    StillUsed(w, w', t, u, k);
  }

  lemma KeyKeepsGuards(w: World, w': World, t: nat)
    requires GuardsOk(w) && t in w.threads && PassesKey(w, w', t)
    ensures GuardsOk(w')
  {
    forall u <- w'.threads ensures GuardOk(w', u) && DroppingOk(w', u) {
      if u == t {
        KeyKeepsOwn(w, w', t);
      } else {
        KeyKeepsOther(w, w', t, u);
      }
      KeyKeepsDropping(w, w', t, u);
    }
    forall k <- GuardOf(w') ensures TableOk(w', k) {
      KeyKeepsTable(w, w', t, k);
    }
    KeyKeepsFit(w, w', t);
  }

  lemma CloneExists(w: World, g: nat)
    ensures Clones(w, g) == 0 <==> Unclaimed(w, g)
  {
    var holding := set t | t in w.threads && w.threads[t].guard == Some(g);
    if t :| t in w.threads && w.threads[t].guard == Some(g) {
      assert t in holding;
    } else {
      assert holding == {};
    }
  }

  /** A guard with an outstanding clone is held by a thread for its key. */
  lemma ClaimedIsUsed(w: World, t: nat, k: Key)
    requires LocksOk(w) && GuardsOk(w) && t in w.threads && !HasGuard(w.threads[t].pc)
    requires k in GuardOf(w) && !Unclaimed(w, GuardOf(w)[k])
    ensures exists u :: u in w.threads && u != t && w.threads[u].key == k && UsesGuard(w.threads[u].pc)
  {
    var u :| u in w.threads && w.threads[u].guard == Some(GuardOf(w)[k]);
    assert Shape(w, u) && GuardOk(w, u) && Shape(w, t);
  }

  /** `release_connect_guard` reads the strong count: the guard is unclaimed, or it stays. */
  ghost predicate Counts(w: World, w': World, t: nat)
    requires t in w.threads
  {
    var th := w.threads[t];
    && th.pc.InRelease? && Moved(w, w', t) && w'.keyOwner == w.keyOwner && w'.guards == w.guards
    && w'.threads[t].guard == th.guard
    && if th.key in w.guards.byKey && Unclaimed(w, w.guards.byKey[th.key]) then w'.threads[t].pc.Forgetting?
       else StageOf(w'.threads[t].pc).Outside?
  }

  /** And removes an unclaimed guard. */
  ghost predicate Forgets(w: World, w': World, t: nat)
    requires t in w.threads
  {
    var th := w.threads[t];
    && th.pc.Forgetting? && Moved(w, w', t) && w'.keyOwner == w.keyOwner
    && w'.threads[t].guard == th.guard && StageOf(w'.threads[t].pc).Outside?
    && w'.guards == w.guards.(byKey := w.guards.byKey - {th.key})
  }

  lemma CountKeepsThread(w: World, w': World, t: nat, u: nat)
    requires GuardsOk(w) && t in w.threads && Counts(w, w', t) && u in w.threads
    ensures GuardOk(w', u) && DroppingOk(w', u)
  {
    assert GuardOk(w, u) && DroppingOk(w, u);
  }

  /** Another thread uses the guard of `k`, so it stays in use. */
  lemma UsedByAnother(w: World, w': World, t: nat, k: Key)
    requires t in w.threads && Moved(w, w', t) && w'.guards.byKey == w.guards.byKey && w'.guards.next == w.guards.next
    requires k in GuardOf(w) && TableOk(w, k) && k in GuardOf(w') && GuardOf(w')[k] == GuardOf(w)[k] && w'.keyOwner == w.keyOwner
    requires !InSection(w.threads[t].pc)
    requires exists u :: u in w.threads && u != t && w.threads[u].key == k && UsesGuard(w.threads[u].pc)
    ensures TableOk(w', k)
  {
    var u :| u in w.threads && u != t && w.threads[u].key == k && UsesGuard(w.threads[u].pc);
    StillUsed(w, w', t, u, k);
  }

  lemma OtherKeyIsUsed(w: World, t: nat, k: Key)
    requires t in w.threads && k != w.threads[t].key && k in GuardOf(w) && TableOk(w, k)
    ensures exists u :: u in w.threads && u != t && w.threads[u].key == k && UsesGuard(w.threads[u].pc)
  {}

  lemma CountKeepsTable(w: World, w': World, t: nat, k: Key)
    requires LocksOk(w) && GuardsOk(w) && t in w.threads && Counts(w, w', t) && k in GuardOf(w')
    ensures TableOk(w', k)
  {
    assert k in GuardOf(w) && TableOk(w, k);
    if k == w.threads[t].key && Unclaimed(w, GuardOf(w)[k]) {
      CountedIsUsed(w, w', t, k);
    } else {
      if k == w.threads[t].key {
        ClaimedIsUsed(w, t, k);
      } else {
        OtherKeyIsUsed(w, t, k);
      }
      UsedByAnother(w, w', t, k);
    }
  }

  /** A guard found unclaimed is still the counting thread's to remove. */
  lemma CountedIsUsed(w: World, w': World, t: nat, k: Key)
    requires t in w.threads && Counts(w, w', t) && k in GuardOf(w) && TableOk(w, k)
    requires k == w.threads[t].key && Unclaimed(w, GuardOf(w)[k]) && k in GuardOf(w')
    requires w.guards.pid == w.pid
    ensures TableOk(w', k)
  {
    StillUsed(w, w', t, t, k);
  }

  lemma CountKeepsGuards(w: World, w': World, t: nat)
    requires LocksOk(w) && GuardsOk(w) && t in w.threads && Counts(w, w', t)
    ensures GuardsOk(w')
  {
    forall u <- w'.threads ensures GuardOk(w', u) && DroppingOk(w', u) {
      CountKeepsThread(w, w', t, u);
    }
    forall k <- GuardOf(w') ensures TableOk(w', k) {
      CountKeepsTable(w, w', t, k);
    }
    CountKeepsFit(w, w', t);
  }

  lemma CountKeepsFit(w: World, w': World, t: nat)
    requires TableFit(w) && t in w.threads && Counts(w, w', t)
    ensures TableFit(w')
  {
    assert UsesGuard(w.threads[t].pc);
  }

  lemma ForgetKeepsGuard(w: World, w': World, t: nat, u: nat)
    requires GuardsOk(w) && t in w.threads && Forgets(w, w', t) && u in w.threads
    ensures GuardOk(w', u)
  {
    assert UsesGuard(w.threads[t].pc);
    assert GuardOk(w, u) && DroppingOk(w, t);
  }

  lemma ForgetKeepsDropping(w: World, w': World, t: nat, u: nat)
    requires LocksOk(w) && t in w.threads && Forgets(w, w', t) && u in w.threads
    ensures DroppingOk(w', u)
  {
    NoOtherForgets(w, t, u);
  }

  lemma ForgetKeepsTable(w: World, w': World, t: nat, k: Key)
    requires GuardsOk(w) && t in w.threads && Forgets(w, w', t) && k in GuardOf(w')
    ensures TableOk(w', k)
  {
    assert UsesGuard(w.threads[t].pc);
    assert k in GuardOf(w) && k != w.threads[t].key && TableOk(w, k);
    var u :| u in w.threads && w.threads[u].key == k && UsesGuard(w.threads[u].pc);
    StillUsed(w, w', t, u, k);
  }

  lemma ForgetKeepsGuards(w: World, w': World, t: nat)
    requires LocksOk(w) && GuardsOk(w) && t in w.threads && Forgets(w, w', t)
    ensures GuardsOk(w')
  {
    forall u <- w'.threads ensures GuardOk(w', u) && DroppingOk(w', u) {
      ForgetKeepsGuard(w, w', t, u);
      ForgetKeepsDropping(w, w', t, u);
    }
    forall k <- GuardOf(w') ensures TableOk(w', k) {
      ForgetKeepsTable(w, w', t, k);
    }
    ForgetKeepsFit(w, w', t);
  }

  lemma ForgetKeepsFit(w: World, w': World, t: nat)
    requires TableFit(w) && t in w.threads && Forgets(w, w', t)
    ensures TableFit(w')
  {
    assert UsesGuard(w.threads[t].pc);
  }

  lemma ReleaseCounts(w: World, t: nat)
    requires t in w.threads && w.threads[t].pc.InRelease?
    ensures Counts(w, DoRelease(w, t), t)
  {
    ReleaseStep(w, t);
    ReleaseFrame(w, t);
    if w.threads[t].key in w.guards.byKey {
      CloneExists(w, w.guards.byKey[w.threads[t].key]);
    }
  }

  lemma ReleaseForgets(w: World, t: nat)
    requires t in w.threads && w.threads[t].pc.Forgetting?
    ensures Forgets(w, DoRelease(w, t), t)
  {
    ReleaseStep(w, t);
  }

  lemma KeyPasses(w: World, t: nat)
    requires t in w.threads && CanProgress(w, t, Go)
    requires w.threads[t].pc.WantKey? || w.threads[t].pc.Unlock? || w.threads[t].pc.DropGuard?
    ensures PassesKey(w, DoKey(w, t), t)
  {
    match w.threads[t].pc
    case WantKey => KeyStep(w, t);
    case Unlock => KeyStep(w, t);
    case DropGuard => KeyStep(w, t);
  }

  lemma GuardTakes(w: World, t: nat)
    requires t in w.threads && w.threads[t].pc.InGuards?
    ensures Takes(w, DoGuard(w, t), t)
  {
    GuardStep(w, t);
  }

  lemma StageKeepsGuards(w: World, t: nat, ch: Choice)
    requires LocksOk(w) && GuardsOk(w) && t in w.threads && CanProgress(w, t, ch)
    requires PassesStage(w.threads[t].pc)
    ensures GuardsOk(DoProgress(w, t, ch))
  {
    if w.threads[t].pc.InGuards? {
      GuardTakes(w, t);
      TakeKeepsGuards(w, DoGuard(w, t), t);
    } else if w.threads[t].pc.InRelease? {
      ReleaseCounts(w, t);
      CountKeepsGuards(w, DoRelease(w, t), t);
    } else if w.threads[t].pc.Forgetting? {
      ReleaseForgets(w, t);
      ForgetKeepsGuards(w, DoRelease(w, t), t);
    } else {
      KeyPasses(w, t);
      KeyKeepsGuards(w, DoKey(w, t), t);
    }
  }

  lemma ProgressKeepsGuards(w: World, t: nat, ch: Choice)
    requires LocksOk(w) && GuardsOk(w) && t in w.threads && CanProgress(w, t, ch)
    ensures GuardsOk(DoProgress(w, t, ch))
  {
    if PassesStage(w.threads[t].pc) {
      StageKeepsGuards(w, t, ch);
    } else {
      ProgressAdvances(w, t, ch);
      KeptKeepsGuards(w, DoProgress(w, t, ch), t);
    }
  }

  /** The guard table is the same, and so are the threads that use guards. */
  ghost predicate SameUsers(w: World, w': World) {
    && w'.guards == w.guards && w'.keyOwner == w.keyOwner && w'.pid == w.pid && w'.pids == w.pids
    && (forall u <- w.threads :: UsesGuard(w.threads[u].pc) ==> u in w'.threads && w'.threads[u] == w.threads[u])
    && (forall u <- w'.threads :: UsesGuard(w'.threads[u].pc) ==> u in w.threads && w'.threads[u] == w.threads[u])
    && (forall u <- w'.threads :: w'.threads[u].guard.Some? ==> UsesGuard(w'.threads[u].pc))
  }

  lemma SameUsersKeepGuards(w: World, w': World)
    requires GuardsOk(w) && SameUsers(w, w')
    ensures GuardsOk(w')
  {
    forall u <- w'.threads ensures GuardOk(w', u) && DroppingOk(w', u) {
      assert u in w.threads ==> GuardOk(w, u) && DroppingOk(w, u);
    }
    forall k <- GuardOf(w') ensures TableOk(w', k) {
      assert TableOk(w, k);
    }
  }

  lemma BeginKeepsGuards(w: World, a: Action)
    requires LocksOk(w) && GuardsOk(w) && Can(w, a) && !a.Progress? && !a.Fork?
    ensures GuardsOk(Do(w, a))
  {
    BeginKeepsUsers(w, a);
    SameUsersKeepGuards(w, Do(w, a));
  }

  lemma BeginKeepsUsers(w: World, a: Action)
    requires LocksOk(w) && Can(w, a) && !a.Progress? && !a.Fork?
    ensures SameUsers(w, Do(w, a))
  {
    assert a.Join? ==> a.thread !in w.threads;
    var w' := Do(w, a);
    forall u <- w'.threads ensures w'.threads[u].guard.Some? ==> UsesGuard(w'.threads[u].pc) {
      assert u in w.threads ==> Shape(w, u);
    }
  }

  lemma StepKeepsGuards(w: World, a: Action)
    requires LocksOk(w) && GuardsOk(w) && Can(w, a)
    ensures GuardsOk(Do(w, a))
  {
    match a {
      case Progress(t, ch) => ProgressKeepsGuards(w, t, ch);
      case Fork(t, child) =>
        // The child adopts no inherited guard, and its only thread is outside every call.
        var w' := Do(w, a);
        assert GuardOf(w') == map[] && w'.guards.next == w.guards.next;
      case _ => BeginKeepsGuards(w, a);
    }
  }

  // ---------------------------------------------------------------------------------------
  //  What follows for a single state
  // ---------------------------------------------------------------------------------------

  /** Two threads never run the connect/close critical section of one key together. */
  lemma OneThreadPerKey(w: World, t: nat, u: nat)
    requires GuardsOk(w) && t in w.threads && u in w.threads
    requires InSection(w.threads[t].pc) && InSection(w.threads[u].pc)
    requires w.threads[t].key == w.threads[u].key
    ensures t == u
  {}

  /** Every guard clone in use is the one stored for its key. */
  lemma ClonesAreStored(w: World, t: nat)
    requires LocksOk(w) && GuardsOk(w) && t in w.threads && w.threads[t].guard.Some?
    ensures w.threads[t].key in GuardOf(w) && w.threads[t].guard.value == GuardOf(w)[w.threads[t].key]
  {}

  /** When no thread is inside connect() or close(), no guard is left in the table. */
  lemma QuietTableIsEmpty(w: World)
    requires GuardsOk(w) && forall t <- w.threads :: w.threads[t].pc.Idle?
    ensures GuardOf(w) == map[]
  {
    assert forall t <- w.threads :: !UsesGuard(w.threads[t].pc);
    forall k: Key ensures k !in GuardOf(w).Keys {
      assert k in GuardOf(w) ==> TableOk(w, k);
    }
    assert GuardOf(w).Keys == {};
  }
}
