/** No lost wake on the generation-counter backend, and what becomes of a waiter whose object has
    changed. Everything is stated for one waiter at a time: what other waiters sleep over does not
    matter to it. */
module Generations {
  import opened Common
  import opened Protocol
  import opened Registry

  // ---------------------------------------------------------------- the invariant

  /** A storer that has changed the object and not yet bumped the generation. */
  predicate Storing(th: Thread, a: Addr) {
    th.Notifier? && th.stored && th.max == WAKE_ALL && th.target == a &&
    (th.at.WantLock? || th.at.LookingUp? || th.at.Bumping?)
  }

  /** A storer that has changed the object and not yet finished its bump-and-wake. */
  predicate Owing(th: Thread, a: Addr) {
    Storing(th, a) || (th.Notifier? && th.stored && th.max == WAKE_ALL && th.target == a && th.at.Waking?)
  }

  ghost predicate SomeStoring(ths: Threads, a: Addr) {
    exists u :: u in ths && Storing(ths[u], a)
  }

  ghost predicate SomeOwing(ths: Threads, a: Addr) {
    exists u :: u in ths && Owing(ths[u], a)
  }

  /** Past the last look at the object and heading for the kernel. */
  predicate Committed(th: Thread) {
    th.Waiter? && (th.pc.Releasing? || th.pc.Checking? || th.pc.Parking?)
  }

  function Gen(heap: Heap, p: Pid): nat {
    Deref(heap, p).gen
  }

  predicate Carries(th: Thread) {
    th.Waiter? && th.item.Some? && (th.pc.Rechecking? || th.pc.Top? || Committed(th))
  }

  /** What holds of a waiter that loses no wake. */
  ghost predicate WakeAt(mem: Memory, heap: Heap, ths: Threads, th: Thread) {
    th.Waiter? && th.item.Some? ==>
      && (Carries(th) ==> th.cap <= Gen(heap, th.item.value))
      && (Committed(th) && th.cap == Gen(heap, th.item.value) ==>
            Read(mem, th.addr) == th.exp || SomeStoring(ths, th.addr))
      && (th.pc.Asleep? ==> Read(mem, th.addr) == th.exp || SomeOwing(ths, th.addr))
  }

  ghost predicate WakeOK(mem: Memory, heap: Heap, ths: Threads, w: Tid) {
    w in ths ==> WakeAt(mem, heap, ths, ths[w])
  }

  /** The kernel's 32-bit compare lets a waiter sleep although its captured generation is outdated. */
  predicate Fooled(s: State, a: Action)
    requires Enabled(s, a)
  {
    a.Park? && a.err == 0 &&
    var th, gen := s.threads[a.t], Gen(s.proxies, ItemOf(s.threads[a.t]));
    th.cap != gen && th.cap % TWO_32 == gen % TWO_32
  }

  /** That happens over an object which has changed, with no storer left that owes a wake. */
  ghost predicate Oversleeps(s: State, a: Action)
    requires Enabled(s, a)
  {
    Fooled(s, a) &&
    var th := s.threads[a.t];
    Load(s, th.addr) != th.exp && !SomeOwing(s.threads, th.addr)
  }

  // ---------------------------------------------------------------- frames

  /** A move by which no storer drops its debt. */
  predicate KeepsDebt(th: Thread, th': Thread) {
    th.Notifier? ==>
      && (Storing(th, th.target) ==> Storing(th', th.target))
      && (Owing(th, th.target) ==> Owing(th', th.target))
  }

  lemma DebtsKept(ths: Threads, t: Tid, th: Thread, a: Addr)
    requires t in ths && (KeepsDebt(ths[t], th) || (ths[t].Notifier? && ths[t].target != a))
    ensures SomeStoring(ths, a) ==> SomeStoring(ths[t := th], a)
    ensures SomeOwing(ths, a) ==> SomeOwing(ths[t := th], a)
  {
    if SomeStoring(ths, a) {
      var u :| u in ths && Storing(ths[u], a);
      assert Storing(ths[t := th][u], a);
    }
    if SomeOwing(ths, a) {
      var u :| u in ths && Owing(ths[u], a);
      assert Owing(ths[t := th][u], a);
    }
  }

  /** Any step that moves one thread, drops no debt and bumps nothing the waiter is registered on. */
  lemma WakeMove(mem: Memory, heap: Heap, ths: Threads, heap': Heap, t: Tid, th: Thread, w: Tid)
    requires WakeOK(mem, heap, ths, w) && t in ths && KeepsDebt(ths[t], th)
    requires w in ths && w != t && Use(ths[w]).Some? ==> Gen(heap', Use(ths[w]).value) == Gen(heap, Use(ths[w]).value)
    requires w == t ==> WakeAt(mem, heap', ths, th)
    ensures WakeOK(mem, heap', ths[t := th], w)
  {
    var ths' := ths[t := th];
    if w in ths && ths'[w].Waiter? {
      DebtsKept(ths, t, th, ths'[w].addr);
    }
  }

  // ---------------------------------------------------------------- steps of a waiter

  /** The loads and captures of the wait loop establish the claim they need. */
  lemma LoadClaims(mem: Memory, heap: Heap, ths: Threads, th: Thread)
    requires th.Waiter? && WakeAt(mem, heap, ths, th)
    ensures th.pc.Top? ==> WakeAt(mem, heap, ths, TopNext(th, Read(mem, th.addr)))
    ensures th.pc.Capturing? && th.item.Some? ==>
      WakeAt(mem, heap, ths, CaptureNext(th, Gen(heap, th.item.value)))
    ensures th.pc.Rechecking? ==> WakeAt(mem, heap, ths, RecheckNext(th, Read(mem, th.addr)))
    ensures th.pc.Recapturing? && th.item.Some? ==>
      WakeAt(mem, heap, ths, RecaptureNext(th, Gen(heap, th.item.value)))
  {
  }

  lemma StorersOwe(ths: Threads, a: Addr)
    ensures SomeStoring(ths, a) ==> SomeOwing(ths, a)
  {
    if SomeStoring(ths, a) {
      var u :| u in ths && Storing(ths[u], a);
      assert Owing(ths[u], a);
    }
  }

  /** A waiter that the kernel lets sleep slept on the current generation, or over nothing lost. */
  lemma ParkClaims(b: Backend, mem: Memory, heap: Heap, ths: Threads, th: Thread, err: int, expired: bool)
    requires th.Waiter? && WakeAt(mem, heap, ths, th)
    ensures th.pc.Checking? ==> WakeAt(mem, heap, ths, CheckNext(b, th, expired))
    ensures th.pc.Parking? && th.item.Some? ==>
      var gen := Gen(heap, th.item.value);
      WakeAt(mem, heap, ths, ParkNext(th, gen, err)) ||
      (err == 0 && th.cap != gen && th.cap % TWO_32 == gen % TWO_32 &&
       Read(mem, th.addr) != th.exp && !SomeOwing(ths, th.addr))
    ensures th.pc.Returned? ==> WakeAt(mem, heap, ths, AfterWaitNext(th))
  {
    StorersOwe(ths, th.addr);
  }

  lemma LocalDebt(s: State, a: Action)
    requires IsLocal(a) && Enabled(s, a) && !a.LookUp?
    ensures KeepsDebt(s.threads[a.t], LocalNext(s, a))
  {
  }

  lemma LocalClaim(s: State, a: Action)
    requires IsLocal(a) && Enabled(s, a) && !a.LookUp? && !Oversleeps(s, a)
    requires Good(s.backend, s.proxies, s.threads[a.t]) && WakeAt(s.mem, s.proxies, s.threads, s.threads[a.t])
    ensures WakeAt(s.mem, s.proxies, s.threads, LocalNext(s, a))
  {
    var th := s.threads[a.t];
    if th.Waiter? {
      LoadClaims(s.mem, s.proxies, s.threads, th);
      ParkClaims(s.backend, s.mem, s.proxies, s.threads, th, if a.Park? then a.err else 0, a.Check? && a.expired);
    }
  }

  lemma WakeLocal(s: State, a: Action, w: Tid)
    requires Inv(s) && WakeOK(s.mem, s.proxies, s.threads, w) && IsLocal(a) && Enabled(s, a) && !a.LookUp?
    requires a.t == w ==> !Oversleeps(s, a)
    ensures WakeOK(s.mem, s.proxies, s.threads[a.t := LocalNext(s, a)], w)
  {
    assert Good(s.backend, s.proxies, s.threads[a.t]);
    LocalDebt(s, a);
    if a.t == w {
      LocalClaim(s, a);
    }
    WakeMove(s.mem, s.proxies, s.threads, s.proxies, a.t, LocalNext(s, a), w);
  }

  lemma WakeTakeTable(s: State, t: Tid, w: Tid)
    requires WakeOK(s.mem, s.proxies, s.threads, w) && Enabled(s, TakeTable(t))
    ensures WakeOK(s.mem, s.proxies, s.threads[t := WithTable(s.threads[t])], w)
  {
    WakeMove(s.mem, s.proxies, s.threads, s.proxies, t, WithTable(s.threads[t]), w);
  }

  lemma WakeRelease(s: State, t: Tid, w: Tid)
    requires WakeOK(s.mem, s.proxies, s.threads, w) && IsWaiter(s, t, Releasing)
    ensures WakeOK(s.mem, s.proxies, DoRelease(s, t).threads, w)
  {
    WakeMove(s.mem, s.proxies, s.threads, s.proxies, t, s.threads[t].(pc := Checking, ret := 1), w);
  }

  lemma WakeFinish(s: State, t: Tid, w: Tid)
    requires WakeOK(s.mem, s.proxies, s.threads, w) && Enabled(s, Finish(t))
    ensures WakeOK(s.mem, s.proxies, DoFinish(s, t).threads, w)
  {
    WakeMove(s.mem, s.proxies, s.threads, s.proxies, t, FinishNext(s.threads[t]), w);
  }

  lemma WakeFind(s: State, t: Tid, ok: bool, node: Pid, w: Tid)
    requires Inv(s) && WakeOK(s.mem, s.proxies, s.threads, w) && Enabled(s, Find(t, ok, node))
    ensures WakeOK(s.mem, DoFind(s, t, ok, node).proxies, DoFind(s, t, ok, node).threads, w)
  {
    var s' := DoFind(s, t, ok, node);
    assert w in s.threads ==> Good(s.backend, s.proxies, s.threads[w]);
    WakeMove(s.mem, s.proxies, s.threads, s'.proxies, t, s'.threads[t], w);
    assert s'.threads == s.threads[t := s'.threads[t]];
  }

  lemma WakeLeave(s: State, t: Tid, w: Tid)
    requires Inv(s) && WakeOK(s.mem, s.proxies, s.threads, w) && IsWaiter(s, t, Leaving)
    ensures WakeOK(s.mem, DoLeave(s, t).proxies, DoLeave(s, t).threads, w)
  {
    var s' := DoLeave(s, t);
    if At(s, ItemOf(s.threads[t])).useCount == 1 {
      LastUser(s, t);
    }
    WakeMove(s.mem, s.proxies, s.threads, s'.proxies, t, s.threads[t].(pc := Unlocking, item := None), w);
  }

  // ---------------------------------------------------------------- steps of a storer or notifier

  /** A store puts the storer in debt to everyone who waits on the object. */
  lemma WakeStore(s: State, t: Tid, a: Addr, v: Val, w: Tid)
    requires WakeOK(s.mem, s.proxies, s.threads, w) && IsIdle(s, t)
    ensures WakeOK(DoStoreAll(s, t, a, v).mem, s.proxies, DoStoreAll(s, t, a, v).threads, w)
  {
    var s' := DoStoreAll(s, t, a, v);
    assert Storing(s'.threads[t], a) && Owing(s'.threads[t], a);
    if w in s.threads && w != t && s.threads[w].Waiter? {
      DebtsKept(s.threads, t, s'.threads[t], s.threads[w].addr);
    }
  }

  /** Two live proxies of one object are the same proxy. */
  lemma OneProxyPerObject(s: State, t: Tid, u: Tid)
    requires Inv(s) && t in s.threads && u in s.threads && s.threads[t].Notifier? && s.threads[t].found.Some?
    requires Use(s.threads[u]).Some? && s.threads[u].addr == s.threads[t].target
    ensures Use(s.threads[u]) == s.threads[t].found
  {
    assert Good(s.backend, s.proxies, s.threads[t]) && Good(s.backend, s.proxies, s.threads[u]);
    assert s.proxies[s.threads[u].item.value].owner == s.proxies[s.threads[t].found.value].owner;
  }

  /** A lookup that misses abandons nobody: nobody is registered on that object. */
  lemma WakeLookUp(s: State, t: Tid, w: Tid)
    requires Inv(s) && WakeOK(s.mem, s.proxies, s.threads, w) && IsNotifier(s, t, LookingUp) && s.backend.Generations?
    ensures WakeOK(s.mem, s.proxies, s.threads[t := LookUpNext(s.backend, s.table, s.threads[t])], w)
  {
    if w in s.threads && w != t && Use(s.threads[w]).Some? {
      assert Good(s.backend, s.proxies, s.threads[w]);
      assert s.proxies[s.threads[w].item.value].owner in s.table;
      DebtsKept(s.threads, t, LookUpNext(s.backend, s.table, s.threads[t]), s.threads[w].addr);
    }
  }

  lemma OwingKept(ths: Threads, t: Tid, th: Thread, a: Addr)
    requires t in ths && (Owing(ths[t], a) ==> Owing(th, a))
    ensures SomeOwing(ths, a) ==> SomeOwing(ths[t := th], a)
  {
    if SomeOwing(ths, a) {
      var u :| u in ths && Owing(ths[u], a);
      assert Owing(ths[t := th][u], a);
    }
  }

  /** A bump outdates every captured generation of that proxy. */
  lemma WakeBump(s: State, t: Tid, w: Tid)
    requires Inv(s) && WakeOK(s.mem, s.proxies, s.threads, w) && IsNotifier(s, t, Bumping)
    ensures WakeOK(s.mem, DoBump(s, t).proxies, DoBump(s, t).threads, w)
  {
    assert Good(s.backend, s.proxies, s.threads[t]);
    var th := s.threads[t].(at := Waking);
    if w in s.threads && w != t && Use(s.threads[w]).Some? {
      if s.threads[w].addr == s.threads[t].target {
        OneProxyPerObject(s, t, w);
        OwingKept(s.threads, t, th, s.threads[w].addr);
      } else {
        DebtsKept(s.threads, t, th, s.threads[w].addr);
        assert Good(s.backend, s.proxies, s.threads[w]);
      }
    }
  }

  /** A wake-all leaves nobody asleep on that proxy. */
  lemma WakeKernelWake(s: State, t: Tid, woken: set<Tid>, w: Tid)
    requires Inv(s) && WakeOK(s.mem, s.proxies, s.threads, w) && Enabled(s, KernelWake(t, woken))
    ensures WakeOK(s.mem, s.proxies, DoKernelWake(s, t, woken).threads, w)
  {
    assert Good(s.backend, s.proxies, s.threads[t]);
    if w in s.threads && w != t && Use(s.threads[w]).Some? {
      var th := s.threads[w];
      WakersKept(s, t, woken, th.addr);
      if Owing(s.threads[t], th.addr) {
        OneProxyPerObject(s, t, w);
        assert th.pc.Asleep? ==> w in SleepersOn(s, ItemOf(s.threads[t]));
      }
    }
  }

  lemma WakersKept(s: State, t: Tid, woken: set<Tid>, a: Addr)
    requires Enabled(s, KernelWake(t, woken))
    ensures SomeStoring(s.threads, a) ==> SomeStoring(DoKernelWake(s, t, woken).threads, a)
    ensures SomeOwing(s.threads, a) && !Owing(s.threads[t], a) ==> SomeOwing(DoKernelWake(s, t, woken).threads, a)
  {
    var ths := DoKernelWake(s, t, woken).threads;
    if SomeStoring(s.threads, a) {
      var u :| u in s.threads && Storing(s.threads[u], a);
      assert Storing(ths[u], a);
    }
    if SomeOwing(s.threads, a) && !Owing(s.threads[t], a) {
      var u :| u in s.threads && Owing(s.threads[u], a);
      assert Owing(ths[u], a);
    }
  }

  // ---------------------------------------------------------------- no lost wake

  /** The invariant, for one waiter. */
  ghost predicate Sound(s: State, w: Tid) {
    Inv(s) && s.backend.Generations? && WakeOK(s.mem, s.proxies, s.threads, w)
  }

  /** Every action of every thread keeps the waiter's claim, except an oversleep of its own. */
  lemma WakeStep(s: State, a: Action, w: Tid)
    requires Sound(s, w) && Enabled(s, a) && (a.t == w ==> !Oversleeps(s, a))
    ensures WakeOK(Apply(s, a).mem, Apply(s, a).proxies, Apply(s, a).threads, w)
  {
    assert Good(s.backend, s.proxies, s.threads[a.t]);
    if IsLocal(a) && !a.LookUp? {
      WakeLocal(s, a, w);
    } else {
      match a
      case LookUp(t) => WakeLookUp(s, t, w);
      case TakeTable(t) => WakeTakeTable(s, t, w);
      case Find(t, ok, node) => WakeFind(s, t, ok, node, w);
      case Release(t) => WakeRelease(s, t, w);
      case Leave(t) => WakeLeave(s, t, w);
      case Finish(t) => WakeFinish(s, t, w);
      case StoreAll(t, addr, val) => WakeStore(s, t, addr, val, w);
      case Bump(t) => WakeBump(s, t, w);
      case KernelWake(t, woken) => WakeKernelWake(s, t, woken, w);
      case _ =>
    }
  }

  /** An oversleep loses the wake: the claim is false right after it. */
  lemma OversleepLoses(s: State, a: Action)
    requires Sound(s, a.t) && Enabled(s, a) && Oversleeps(s, a)
    ensures !WakeOK(s.mem, s.proxies, Apply(s, a).threads, a.t)
  {
    assert Good(s.backend, s.proxies, s.threads[a.t]);
  }

  lemma SoundStep(s: State, a: Action, w: Tid)
    requires Sound(s, w) && Enabled(s, a) && (a.t == w ==> !Oversleeps(s, a))
    ensures Sound(Apply(s, a), w)
  {
    Step(s, a);
    WakeStep(s, a, w);
    SameBackend(s, a);
  }

  lemma SameBackend(s: State, a: Action)
    requires Enabled(s, a)
    ensures Apply(s, a).backend == s.backend
  {
  }

  /** The waiter's claim holds in every state of the run. */
  ghost predicate SoundThroughout(s: State, acts: seq<Action>, w: Tid)
    requires Runs(s, acts)
    decreases |acts|
  {
    WakeOK(s.mem, s.proxies, s.threads, w) && (acts == [] || SoundThroughout(Apply(s, acts[0]), acts[1..], w))
  }

  /** The waiter does not oversleep during the run. */
  ghost predicate Alert(s: State, acts: seq<Action>, w: Tid)
    requires Runs(s, acts)
    decreases |acts|
  {
    acts == [] || (!(acts[0].t == w && Oversleeps(s, acts[0])) && Alert(Apply(s, acts[0]), acts[1..], w))
  }

  /** Exactly when no wake is lost: over any run of any threads, the claim of a waiter holds in every state if
      and only if its own parks never pass the compare on an outdated generation over a changed
      object with no storer owing a wake. */
  lemma {:induction false} WakeIff(s: State, acts: seq<Action>, w: Tid)
    requires Sound(s, w) && Runs(s, acts)
    ensures SoundThroughout(s, acts, w) <==> Alert(s, acts, w)
    ensures Alert(s, acts, w) ==> Sound(Exec(s, acts), w)
    decreases |acts|
  {
    if acts != [] {
      var a, s' := acts[0], Apply(s, acts[0]);
      if a.t == w && Oversleeps(s, a) {
        OversleepLoses(s, a);
      } else {
        SoundStep(s, a, w);
        WakeIff(s', acts[1..], w);
      }
    }
  }

  /** Reachable on the generation-counter backend by a run in which every store is followed by notify_all
      and this waiter has not overslept. */
  ghost predicate ReachableAlert(z: State, w: Tid) {
    exists s, acts :: Init(s) && s.backend.Generations? && Runs(s, acts) && Alert(s, acts, w) && z == Exec(s, acts)
  }

  lemma Soundness(z: State, w: Tid)
    requires ReachableAlert(z, w)
    ensures Sound(z, w)
  {
    var s, acts :| Init(s) && s.backend.Generations? && Runs(s, acts) && Alert(s, acts, w) && z == Exec(s, acts);
    WakeIff(s, acts, w);
  }

  /** No lost wake: a waiter that sleeps, or is about to with the current generation in hand, still
      sees its expected value, or some storer has yet to finish its bump-and-wake. */
  lemma NoLostWake(z: State, t: Tid)
    requires ReachableAlert(z, t) && t in z.threads && z.threads[t].Waiter?
    requires var th := z.threads[t];
      th.pc.Asleep? || (Committed(th) && th.cap == Gen(z.proxies, ItemOf(th)))
    ensures Load(z, z.threads[t].addr) == z.threads[t].exp || SomeOwing(z.threads, z.threads[t].addr)
  {
    Soundness(z, t);
    assert Good(z.backend, z.proxies, z.threads[t]);
    StorersOwe(z.threads, z.threads[t].addr);
  }

  // ---------------------------------------------------------------- progress once the object has changed

  /** The object has changed, and the waiter can no longer fall asleep over it. */
  ghost predicate Roused(s: State, t: Tid) {
    && t in s.threads && s.threads[t].Waiter?
    && Load(s, s.threads[t].addr) != s.threads[t].exp
    && !s.threads[t].pc.Asleep?
    && (Committed(s.threads[t]) ==> s.threads[t].cap < Gen(s.proxies, ItemOf(s.threads[t])))
  }

  /** Once notify_all has completed, every waiter whose expected value is gone is roused. */
  lemma NotifyAllRouses(z: State, t: Tid)
    requires ReachableAlert(z, t) && t in z.threads && z.threads[t].Waiter?
    requires Load(z, z.threads[t].addr) != z.threads[t].exp && !SomeOwing(z.threads, z.threads[t].addr)
    ensures Roused(z, t)
  {
    Soundness(z, t);
    assert Good(z.backend, z.proxies, z.threads[t]);
    StorersOwe(z.threads, z.threads[t].addr);
  }

  /** How many steps of its own separate a thread from its return. */
  function Rank(th: Thread): nat {
    match th
    case Idle(_) => 0
    case Notifier(_, _, _, _, _) => 0
    case Waiter(pc, _, _, _, _, _, _) =>
      match pc
      case WantTable => 17
      case Finding => 16
      case Capturing => 15
      case Rechecking => 14
      case Releasing => 13
      case Checking => 12
      case Parking => 11
      case WantMutex => 11
      case Entering => 10
      case Asleep => 10
      case Blocked => 9
      case Reacquiring(_) => 8
      case Resuming(_) => 7
      case Returned(_) => 6
      case Recapturing => 5
      case Top => 4
      case WantTail => 3
      case Leaving => 2
      case Unlocking => 1
  }

  /** A bump only ever raises a generation, and a registered waiter's proxy is not replaced. */
  lemma GenRises(s: State, a: Action, t: Tid)
    requires Inv(s) && Enabled(s, a) && t in s.threads && t != a.t && Use(s.threads[t]).Some?
    ensures Gen(Apply(s, a).proxies, ItemOf(s.threads[t])) >= Gen(s.proxies, ItemOf(s.threads[t]))
  {
    assert Good(s.backend, s.proxies, s.threads[t]);
    if a.Leave? && At(s, ItemOf(s.threads[a.t])).useCount == 1 {
      LastUser(s, a.t);
    } else {
      GenKept(s, a, ItemOf(s.threads[t]));
    }
  }

  lemma GenKept(s: State, a: Action, p: Pid)
    requires Enabled(s, a) && p in s.proxies
    requires !(a.Leave? && At(s, ItemOf(s.threads[a.t])).useCount == 1)
    ensures Gen(Apply(s, a).proxies, p) >= Gen(s.proxies, p)
  {
  }

  /** Nobody else's step moves a roused waiter. */
  lemma OthersLeaveAlone(s: State, a: Action, t: Tid)
    requires Inv(s) && s.backend.Generations? && Enabled(s, a) && t in s.threads && t != a.t
    requires s.threads[t].Waiter? && !s.threads[t].pc.Asleep?
    ensures t in Apply(s, a).threads && Apply(s, a).threads[t] == s.threads[t]
  {
    assert Good(s.backend, s.proxies, s.threads[t]);
    Others(s, a, t);
  }

  lemma RousedByOthers(s: State, a: Action, t: Tid)
    requires Inv(s) && s.backend.Generations? && Roused(s, t) && Enabled(s, a) && a.t != t
    requires Load(Apply(s, a), s.threads[t].addr) != s.threads[t].exp
    ensures Roused(Apply(s, a), t) && Apply(s, a).threads[t] == s.threads[t]
  {
    OthersLeaveAlone(s, a, t);
    assert Good(s.backend, s.proxies, s.threads[t]);
    if Committed(s.threads[t]) {
      GenRises(s, a, t);
    }
  }

  /** A local step of a roused waiter: the compare fails unless it is fooled, the load sees the change. */
  lemma RousedLocal(s: State, a: Action)
    requires s.backend.Generations? && Roused(s, a.t) && Good(s.backend, s.proxies, s.threads[a.t])
    requires IsLocal(a) && Enabled(s, a) && !Fooled(s, a)
    ensures Rank(LocalNext(s, a)) < Rank(s.threads[a.t])
    ensures var th, th' := s.threads[a.t], LocalNext(s, a);
      th'.Idle? ||
      (th'.Waiter? && th'.addr == th.addr && th'.exp == th.exp && th'.item == th.item && !th'.pc.Asleep? &&
       (Committed(th') ==> th'.cap < Gen(s.proxies, ItemOf(th))))
  {
  }

  lemma RousedHeld(s: State, a: Action)
    requires Roused(s, a.t) && Enabled(s, a) && (a.TakeTable? || a.Release? || a.Finish?)
    ensures SelfNext(Apply(s, a), s, a.t)
  {
  }

  lemma RousedLeave(s: State, t: Tid)
    requires Roused(s, t) && IsWaiter(s, t, Leaving)
    ensures SelfNext(DoLeave(s, t), s, t)
  {
  }

  lemma RousedFind(s: State, a: Action)
    requires Roused(s, a.t) && Enabled(s, a) && a.Find?
    ensures SelfNext(Apply(s, a), s, a.t)
  {
  }

  /** Closer to returning, and roused until then. */
  ghost predicate SelfNext(s': State, s: State, t: Tid)
    requires t in s.threads && s.threads[t].Waiter?
  {
    && t in s'.threads && Rank(s'.threads[t]) < Rank(s.threads[t])
    && (s'.threads[t].Idle? ||
        (Roused(s', t) && s'.threads[t].addr == s.threads[t].addr && s'.threads[t].exp == s.threads[t].exp))
  }

  /** Every step of its own, lock spins and fooled parks aside, brings a roused waiter strictly closer to
      its return, and keeps it roused until then. */
  lemma RousedSelf(s: State, a: Action)
    requires Inv(s) && s.backend.Generations? && Enabled(s, a) && Roused(s, a.t) && !Fooled(s, a)
    ensures if a.Spin? then Apply(s, a) == s else SelfNext(Apply(s, a), s, a.t)
  {
    assert Good(s.backend, s.proxies, s.threads[a.t]);
    if IsLocal(a) {
      RousedLocal(s, a);
    } else if a.Find? {
      RousedFind(s, a);
    } else if a.Leave? {
      RousedLeave(s, a.t);
    } else if !a.Spin? {
      RousedHeld(s, a);
    }
  }

  // ---------------------------------------------------------------- whole runs

  predicate StaysChanged(s: State, acts: seq<Action>, a: Addr, e: Val)
    requires Runs(s, acts)
    decreases |acts|
  {
    Load(s, a) != e && (acts == [] || StaysChanged(Apply(s, acts[0]), acts[1..], a, e))
  }

  /** The thread's call has returned at some point of the run. */
  predicate HasReturned(s: State, acts: seq<Action>, t: Tid)
    requires Runs(s, acts)
    decreases |acts|
  {
    IsIdle(s, t) || (acts != [] && HasReturned(Apply(s, acts[0]), acts[1..], t))
  }

  /** The steps a thread takes itself, not counting spins on a lock. */
  function OwnSteps(acts: seq<Action>, t: Tid): nat {
    if acts == [] then 0 else Bit(acts[0].t == t && !acts[0].Spin?) + OwnSteps(acts[1..], t)
  }

  /** Until it returns, the thread is not asleep in any state of the run. */
  predicate Wakeful(s: State, acts: seq<Action>, t: Tid)
    requires Runs(s, acts)
    decreases |acts|
  {
    IsIdle(s, t) || (!IsWaiter(s, t, Asleep) && (acts == [] || Wakeful(Apply(s, acts[0]), acts[1..], t)))
  }

  /** Until it returns, the thread's parks are not fooled. */
  predicate Unfooled(s: State, acts: seq<Action>, t: Tid)
    requires Runs(s, acts)
    decreases |acts|
  {
    IsIdle(s, t) || acts == [] ||
    (!(acts[0].t == t && Fooled(s, acts[0])) && Unfooled(Apply(s, acts[0]), acts[1..], t))
  }

  lemma RousedStep(s: State, a: Action, t: Tid)
    requires Inv(s) && s.backend.Generations? && Roused(s, t) && Enabled(s, a) && !(a.t == t && Fooled(s, a))
    requires Load(Apply(s, a), s.threads[t].addr) != s.threads[t].exp
    ensures var s' := Apply(s, a);
      && t in s'.threads
      && (IsIdle(s', t) ||
          (Roused(s', t) && s'.threads[t].addr == s.threads[t].addr && s'.threads[t].exp == s.threads[t].exp))
      && Bit(a.t == t && !a.Spin?) + Rank(s'.threads[t]) <= Rank(s.threads[t])
  {
    if a.t == t {
      RousedSelf(s, a);
    } else {
      RousedByOthers(s, a, t);
    }
  }

  /** A fooled park puts the waiter to sleep. */
  lemma FooledSleeps(s: State, a: Action)
    requires Enabled(s, a) && Fooled(s, a)
    ensures IsWaiter(Apply(s, a), a.t, Asleep)
  {
  }

  /** While the object stays different, a roused waiter never sleeps before its return if and only if none
      of its parks is fooled; and then its own steps and its remaining rank never add up to more
      than the rank it started with. */
  lemma {:induction false} RousedRun(s: State, acts: seq<Action>, t: Tid)
    requires Inv(s) && s.backend.Generations? && Roused(s, t) && Runs(s, acts)
    requires StaysChanged(s, acts, s.threads[t].addr, s.threads[t].exp)
    ensures Wakeful(s, acts, t) <==> Unfooled(s, acts, t)
    ensures Unfooled(s, acts, t) && !HasReturned(s, acts, t) ==>
      Roused(Exec(s, acts), t) && OwnSteps(acts, t) + Rank(Exec(s, acts).threads[t]) <= Rank(s.threads[t])
    decreases |acts|
  {
    if acts != [] {
      var a, s' := acts[0], Apply(s, acts[0]);
      if a.t == t && Fooled(s, a) {
        FooledSleeps(s, a);
      } else {
        Step(s, a);
        SameBackend(s, a);
        Changes(s, acts, s.threads[t].addr, s.threads[t].exp);
        RousedStep(s, a, t);
        if IsIdle(s', t) {
          assert HasReturned(s', acts[1..], t) && Wakeful(s', acts[1..], t) && Unfooled(s', acts[1..], t);
        } else {
          RousedRun(s', acts[1..], t);
        }
      }
    }
  }

  lemma Changes(s: State, acts: seq<Action>, a: Addr, e: Val)
    requires acts != [] && Runs(s, acts) && StaysChanged(s, acts, a, e)
    ensures Load(Apply(s, acts[0]), a) != e && StaysChanged(Apply(s, acts[0]), acts[1..], a, e)
  {
  }

  lemma RankBound(th: Thread)
    ensures Rank(th) <= 17 && (th.Waiter? ==> Rank(th) >= 1)
  {
  }

  /** Progress after notify_all: from a state where the object has changed and no storer owes a wake,
      whatever the others do while the object stays different, the waiter never sleeps before its
      return if and only if none of its parks is fooled; and then it has returned by the time it
      has taken 17 steps of its own. */
  lemma ProgressAfterNotifyAll(z: State, acts: seq<Action>, t: Tid)
    requires ReachableAlert(z, t) && t in z.threads && z.threads[t].Waiter?
    requires Load(z, z.threads[t].addr) != z.threads[t].exp && !SomeOwing(z.threads, z.threads[t].addr)
    requires Runs(z, acts) && StaysChanged(z, acts, z.threads[t].addr, z.threads[t].exp)
    ensures Wakeful(z, acts, t) <==> Unfooled(z, acts, t)
    ensures Unfooled(z, acts, t) ==> HasReturned(z, acts, t) || OwnSteps(acts, t) < 17
  {
    NotifyAllRouses(z, t);
    Soundness(z, t);
    RousedRun(z, acts, t);
    RankBound(z.threads[t]);
    RankBound(if t in Exec(z, acts).threads then Exec(z, acts).threads[t] else Idle(0));
  }
}
