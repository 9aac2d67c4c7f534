/** Concrete runs that show where the protocol's guarantees end. A run is walked with an arbitrary
    claim `r` that every action which suspends nobody keeps, so that what holds of all states
    reached in this way is carried along from step to step. */
module Scenarios {
  import opened Common
  import opened TokenRules
  import opened Protocol
  import opened Registry
  import opened Generations
  import opened Calls

  // ---------------------------------------------------------------- walking a run

  ghost predicate Closed(r: State -> bool) {
    forall z: State, a: Action {:trigger Apply(z, a)} ::
      r(z) && Enabled(z, a) && !Suspends(z, a) ==> r(Apply(z, a))
  }

  lemma Go(r: State -> bool, z: State, a: Action)
    requires Closed(r) && r(z) && Enabled(z, a) && !Suspends(z, a)
    ensures r(Apply(z, a))
  {
  }

  lemma GoBegin(r: State -> bool, z: State, t: Tid, addr: Addr, e: Val)
    requires Closed(r) && r(z) && IsIdle(z, t)
    ensures r(Move(z, t, Waiter(Top, addr, e, false, None, 0, 0)))
  {
    Go(r, z, BeginWait(t, addr, e, false));
  }

  lemma GoTop(r: State -> bool, z: State, t: Tid)
    requires Closed(r) && r(z) && IsWaiter(z, t, Top)
    ensures r(Move(z, t, TopNext(z.threads[t], Load(z, z.threads[t].addr))))
  {
    Go(r, z, LoadTop(t));
  }

  lemma GoTake(r: State -> bool, z: State, t: Tid)
    requires Closed(r) && r(z) && t in z.threads && WantsTable(z.threads[t]) && z.lock.None?
    ensures r(DoTakeTable(z, t))
  {
    Go(r, z, TakeTable(t));
  }

  lemma GoFind(r: State -> bool, z: State, t: Tid, node: Pid)
    requires Closed(r) && r(z) && IsWaiter(z, t, Finding) && node !in z.proxies
    ensures r(DoFind(z, t, true, node))
  {
    Go(r, z, Find(t, true, node));
  }

  lemma GoCapture(r: State -> bool, z: State, t: Tid)
    requires Closed(r) && r(z) && IsWaiter(z, t, Capturing)
    ensures r(Move(z, t, CaptureNext(z.threads[t], At(z, ItemOf(z.threads[t])).gen)))
  {
    Go(r, z, Capture(t));
  }

  lemma GoRecheck(r: State -> bool, z: State, t: Tid)
    requires Closed(r) && r(z) && IsWaiter(z, t, Rechecking)
    ensures r(Move(z, t, RecheckNext(z.threads[t], Load(z, z.threads[t].addr))))
  {
    Go(r, z, Recheck(t));
  }

  lemma GoRelease(r: State -> bool, z: State, t: Tid)
    requires Closed(r) && r(z) && IsWaiter(z, t, Releasing)
    ensures r(DoRelease(z, t))
  {
    Go(r, z, Release(t));
  }

  lemma GoCheck(r: State -> bool, z: State, t: Tid)
    requires Closed(r) && r(z) && IsWaiter(z, t, Checking)
    ensures r(Move(z, t, CheckNext(z.backend, z.threads[t], false)))
  {
    Go(r, z, Check(t, false));
  }

  // ---------------------------------------------------------------- a waiter walks to the park

  /** The proxy a newcomer on `a` will share or create. */
  function Item(z: State, a: Addr, node: Pid): Pid {
    if a in z.table then z.table[a] else node
  }

  /** `z` with thread `t` registered on `a`, at the given program point. */
  function Enlisted(z: State, t: Tid, a: Addr, node: Pid, pc: WaitPc, cap: nat, ret: int): State {
    var p := Item(z, a, node);
    var x := if a in z.table then At(z, p).(useCount := At(z, p).useCount + 1) else NewProxy(a);
    SetProxy(Move(z, t, Waiter(pc, a, Load(z, a), false, Some(p), cap, ret)), p, x).(table := z.table[a := p])
  }

  function GenOf(z: State, a: Addr): nat {
    if a in z.table then At(z, z.table[a]).gen else 0
  }

  function ParkPc(b: Backend): WaitPc {
    if b.Generations? then Parking else WantMutex
  }

  lemma Arrive(r: State -> bool, z: State, t: Tid, a: Addr)
    requires Closed(r) && r(z) && IsIdle(z, t) && z.lock.None?
    ensures r(Move(z, t, Waiter(Finding, a, Load(z, a), false, None, 0, 0)).(lock := Some(t)))
  {
    var w := Waiter(Top, a, Load(z, a), false, None, 0, 0);
    var z1 := Move(z, t, w);
    var z2 := Move(z, t, w.(pc := WantTable));
    GoBegin(r, z, t, a, Load(z, a));
    GoTop(r, z1, t);
    assert Move(z1, t, w.(pc := WantTable)) == z2;
    GoTake(r, z2, t);
    assert DoTakeTable(z2, t) == Move(z, t, w.(pc := Finding)).(lock := Some(t));
  }

  lemma Enlist(r: State -> bool, z: State, t: Tid, a: Addr, node: Pid)
    requires Closed(r) && r(z) && IsIdle(z, t) && z.lock.None? && node !in z.proxies
    ensures r(Enlisted(z, t, a, node, Capturing, 0, 0).(lock := Some(t)))
  {
    var z3 := Move(z, t, Waiter(Finding, a, Load(z, a), false, None, 0, 0)).(lock := Some(t));
    Arrive(r, z, t, a);
    GoFind(r, z3, t, node);
    assert a in z.table ==> z.table[a := z.table[a]] == z.table;
    assert DoFind(z3, t, true, node) == Enlisted(z, t, a, node, Capturing, 0, 0).(lock := Some(t));
  }

  lemma Recaptured(
    z: State, t: Tid, a: Addr, node: Pid, pc: WaitPc, cap: nat, ret: int, pc': WaitPc, cap': nat, ret': int,
    l: Option<Tid>)
    ensures Move(Enlisted(z, t, a, node, pc, cap, ret).(lock := l), t,
                 Waiter(pc', a, Load(z, a), false, Some(Item(z, a, node)), cap', ret'))
            == Enlisted(z, t, a, node, pc', cap', ret').(lock := l)
  {
    var th := Waiter(pc, a, Load(z, a), false, Some(Item(z, a, node)), cap, ret);
    var th' := Waiter(pc', a, Load(z, a), false, Some(Item(z, a, node)), cap', ret');
    assert z.threads[t := th][t := th'] == z.threads[t := th'];
  }

  lemma EnlistedReads(z: State, t: Tid, a: Addr, node: Pid, pc: WaitPc, cap: nat, ret: int, l: Option<Tid>)
    ensures var y := Enlisted(z, t, a, node, pc, cap, ret).(lock := l);
      && IsWaiter(y, t, pc) && Load(y, a) == Load(z, a) && y.backend == z.backend
      && y.threads[t] == Waiter(pc, a, Load(z, a), false, Some(Item(z, a, node)), cap, ret)
      && At(y, Item(z, a, node)).gen == GenOf(z, a)
  {
  }

  lemma Register(r: State -> bool, z: State, t: Tid, a: Addr, node: Pid)
    requires Closed(r) && r(z) && IsIdle(z, t) && z.lock.None? && node !in z.proxies
    ensures r(Enlisted(z, t, a, node, Releasing, GenOf(z, a), 0).(lock := Some(t)))
  {
    var g, l := GenOf(z, a), Some(t);
    Enlist(r, z, t, a, node);
    EnlistedReads(z, t, a, node, Capturing, 0, 0, l);
    GoCapture(r, Enlisted(z, t, a, node, Capturing, 0, 0).(lock := l), t);
    Recaptured(z, t, a, node, Capturing, 0, 0, Rechecking, g, 0, l);
    EnlistedReads(z, t, a, node, Rechecking, g, 0, l);
    GoRecheck(r, Enlisted(z, t, a, node, Rechecking, g, 0).(lock := l), t);
    Recaptured(z, t, a, node, Rechecking, g, 0, Releasing, g, 0, l);
  }

  /** A waiter that meets no one walks from its call to the park. */
  lemma WalkToPark(r: State -> bool, z: State, t: Tid, a: Addr, node: Pid)
    requires Closed(r) && r(z) && IsIdle(z, t) && z.lock.None? && node !in z.proxies
    ensures r(Enlisted(z, t, a, node, ParkPc(z.backend), GenOf(z, a), 1))
  {
    var g := GenOf(z, a);
    var none: Option<Tid> := None;
    Register(r, z, t, a, node);
    EnlistedReads(z, t, a, node, Releasing, g, 0, Some(t));
    GoRelease(r, Enlisted(z, t, a, node, Releasing, g, 0).(lock := Some(t)), t);
    Recaptured(z, t, a, node, Releasing, g, 0, Checking, g, 1, none);
    EnlistedReads(z, t, a, node, Checking, g, 1, none);
    assert DoRelease(Enlisted(z, t, a, node, Releasing, g, 0).(lock := Some(t)), t) ==
      Enlisted(z, t, a, node, Checking, g, 1).(lock := none);
    GoCheck(r, Enlisted(z, t, a, node, Checking, g, 1).(lock := none), t);
    Recaptured(z, t, a, node, Checking, g, 1, ParkPc(z.backend), g, 1, none);
    assert Enlisted(z, t, a, node, ParkPc(z.backend), g, 1).(lock := none) ==
      Enlisted(z, t, a, node, ParkPc(z.backend), g, 1);
  }

  // ---------------------------------------------------------------- a notifier runs from start to end

  lemma GoLookUp(r: State -> bool, z: State, t: Tid)
    requires Closed(r) && r(z) && IsNotifier(z, t, LookingUp)
    ensures r(Move(z, t, LookUpNext(z.backend, z.table, z.threads[t])))
  {
    Go(r, z, LookUp(t));
  }

  lemma GoFinish(r: State -> bool, z: State, t: Tid)
    requires Closed(r) && r(z) && IsNotifier(z, t, Done)
    ensures r(DoFinish(z, t))
  {
    Go(r, z, Finish(t));
  }

  /** Lock and lookup, for a notifier whose object has a proxy. */
  lemma FindProxy(r: State -> bool, z: State, t: Tid, n: Thread)
    requires t in z.threads && z.lock.None? && n.Notifier? && n.at.WantLock? && n.target in z.table
    requires Closed(r) && r(Move(z, t, n))
    ensures r(Move(z, t, LookUpNext(z.backend, z.table, n)).(lock := Some(t)))
  {
    var z1 := Move(z, t, n.(at := LookingUp)).(lock := Some(t));
    GoTake(r, Move(z, t, n), t);
    assert DoTakeTable(Move(z, t, n), t) == z1;
    GoLookUp(r, z1, t);
    assert z.threads[t := n.(at := LookingUp)][t := LookUpNext(z.backend, z.table, n)] ==
      z.threads[t := LookUpNext(z.backend, z.table, n)];
    assert LookUpNext(z.backend, z.table, n.(at := LookingUp)) == LookUpNext(z.backend, z.table, n);
  }

  /** `z` after a complete notify on `a` that found nobody asleep. */
  function Bumped(z: State, t: Tid, a: Addr, k: nat): State
    requires a in z.table
  {
    SetProxy(Move(z, t, Idle(0)), z.table[a], At(z, z.table[a]).(gen := At(z, z.table[a]).gen + k))
  }

  lemma BumpRound(r: State -> bool, z: State, t: Tid, n: Thread)
    requires Closed(r) && t in z.threads && z.lock.None? && z.backend.Generations?
    requires n.Notifier? && n.at.WantLock? && n.target in z.table && r(Move(z, t, n))
    requires forall u :: u in z.threads && u != t ==> !IsWaiter(z, u, Asleep)
    ensures r(Bumped(z, t, n.target, 1))
  {
    var p := z.table[n.target];
    var x := At(z, p).(gen := At(z, p).gen + 1);
    FindProxy(r, z, t, n);
    var z2 := Move(z, t, n.(at := Bumping, found := Some(p))).(lock := Some(t));
    Go(r, z2, Bump(t));
    var z3 := SetProxy(Move(z, t, n.(at := Waking, found := Some(p))).(lock := Some(t)), p, x);
    assert z.threads[t := n.(at := Bumping, found := Some(p))][t := n.(at := Waking, found := Some(p))] ==
      z.threads[t := n.(at := Waking, found := Some(p))];
    assert Apply(z2, Bump(t)) == z3;
    BumpTail(r, z, t, n);
  }

  lemma BumpWakes(r: State -> bool, z: State, t: Tid, n: Thread, p: Pid, x: Proxy)
    requires Closed(r) && t in z.threads && n.Notifier?
    requires forall u :: u in z.threads && u != t ==> !IsWaiter(z, u, Asleep)
    requires r(SetProxy(Move(z, t, n.(at := Waking, found := Some(p))).(lock := Some(t)), p, x))
    ensures r(SetProxy(Move(z, t, n.(at := Done, found := None)).(lock := Some(t)), p, x))
  {
    var z3 := SetProxy(Move(z, t, n.(at := Waking, found := Some(p))).(lock := Some(t)), p, x);
    var z4 := SetProxy(Move(z, t, n.(at := Done, found := None)).(lock := Some(t)), p, x);
    assert SleepersOn(z3, p) == {};
    Go(r, z3, KernelWake(t, {}));
    assert DoKernelWake(z3, t, {}).threads == z4.threads;
    assert Apply(z3, KernelWake(t, {})) == z4;
  }

  lemma BumpTail(r: State -> bool, z: State, t: Tid, n: Thread)
    requires Closed(r) && t in z.threads && z.lock.None? && n.Notifier? && n.target in z.table
    requires forall u :: u in z.threads && u != t ==> !IsWaiter(z, u, Asleep)
    requires var p := z.table[n.target];
      r(SetProxy(Move(z, t, n.(at := Waking, found := Some(p))).(lock := Some(t)), p,
        At(z, p).(gen := At(z, p).gen + 1)))
    ensures r(Bumped(z, t, n.target, 1))
  {
    var p := z.table[n.target];
    var x := At(z, p).(gen := At(z, p).gen + 1);
    BumpWakes(r, z, t, n, p, x);
    var z4 := SetProxy(Move(z, t, n.(at := Done, found := None)).(lock := Some(t)), p, x);
    GoFinish(r, z4, t);
    assert DoFinish(z4, t).threads == z.threads[t := Idle(0)];
    assert DoFinish(z4, t) == Bumped(z, t, n.target, 1);
  }

  /** Any number of notifies in a row, with nobody asleep. */
  lemma {:induction false} BumpRounds(r: State -> bool, z: State, t: Tid, a: Addr, k: nat)
    requires t in z.threads && z.lock.None? && z.backend.Generations? && a in z.table
    requires Closed(r) && r(Bumped(z, t, a, 0))
    requires forall u :: u in z.threads && u != t ==> !IsWaiter(z, u, Asleep)
    ensures r(Bumped(z, t, a, k))
  {
    if k > 0 {
      BumpRounds(r, z, t, a, k - 1);
      var y := Bumped(z, t, a, k - 1);
      var n := Notifier(WantLock, a, 1, false, None);
      Go(r, y, BeginNotify(t, a, 1));
      BumpRound(r, y, t, n);
      assert y.threads[t := Idle(0)] == y.threads;
      assert Bumped(y, t, a, 1) == Bumped(z, t, a, k);
    }
  }

  // ---------------------------------------------------------------- 2^32 bumps in one window

  lemma ReachableIsClosed()
    ensures Closed(z => Reachable(z))
  {
    forall z: State, a: Action | Reachable(z) && Enabled(z, a) ensures Reachable(Apply(z, a)) {
      Extend(z, a);
    }
  }

  const X: Addr := 8

  function Start(b: Backend): State {
    State(b, map[X := 0], None, map[], map[], map[0 := Idle(0), 1 := Idle(0), 2 := Idle(0)])
  }

  lemma StartReachable(b: Backend)
    ensures Reachable(Start(b))
  {
    assert Init(Start(b)) && Runs(Start(b), []) && Start(b) == Exec(Start(b), []);
  }

  lemma SameResidue(x: nat, y: nat)
    requires x <= y
    ensures x % TWO_32 == y % TWO_32 <==> (y - x) % TWO_32 == 0
  {
  }

  /** A waiter whose object has changed, with no storer left to wake it, is nevertheless put to sleep
      by the kernel if and only if the bumps since its capture are a multiple of 2^32. */
  lemma SleepsOverChangeIff(z: State, t: Tid)
    requires ReachableAlert(z, t) && IsWaiter(z, t, Parking)
    requires Load(z, z.threads[t].addr) != z.threads[t].exp && !SomeOwing(z.threads, z.threads[t].addr)
    ensures z.threads[t].cap < Gen(z.proxies, ItemOf(z.threads[t]))
    ensures Apply(z, Park(t, 0)).threads[t].pc.Asleep? <==>
      (Gen(z.proxies, ItemOf(z.threads[t])) - z.threads[t].cap) % TWO_32 == 0
  {
    NotifyAllRouses(z, t);
    var cap, gen := z.threads[t].cap, Gen(z.proxies, ItemOf(z.threads[t]));
    SameResidue(cap, gen);
  }

  /** Thread 0 is at the park of object X for value 0; the object holds `v` and has been bumped `k`
      times; the others are between calls. */
  function Window(v: Val, k: nat, pc: WaitPc): State {
    State(Generations, map[X := v], None, map[X := 0], map[0 := NewProxy(X).(gen := k)],
          map[0 := Waiter(pc, X, 0, false, Some(0), 0, 1), 1 := Idle(0), 2 := Idle(0)])
  }

  lemma WindowArrives(r: State -> bool)
    requires Closed(r) && r(Start(Generations))
    ensures r(Window(0, 0, Parking))
  {
    var z := Start(Generations);
    WalkToPark(r, z, 0, X, 0);
    assert Enlisted(z, 0, X, 0, Parking, 0, 1).threads == Window(0, 0, Parking).threads;
    assert Enlisted(z, 0, X, 0, Parking, 0, 1) == Window(0, 0, Parking);
  }

  lemma WindowOpens(r: State -> bool)
    requires Closed(r) && r(Window(0, 0, Parking))
    ensures r(Window(5, 1, Parking))
  {
    var y := Window(0, 0, Parking);
    Go(r, y, StoreAll(1, X, 5));
    assert y.mem[X := 5] == map[X := 5];
    BumpRound(r, Window(5, 0, Parking), 1, Notifier(WantLock, X, WAKE_ALL, true, None));
    assert Bumped(Window(5, 0, Parking), 1, X, 1).threads == Window(5, 1, Parking).threads;
    assert Bumped(Window(5, 0, Parking), 1, X, 1) == Window(5, 1, Parking);
  }

  lemma WindowBumps(r: State -> bool)
    requires Closed(r) && r(Window(5, 1, Parking))
    ensures r(Window(5, TWO_32, Parking))
  {
    var w := Window(5, 1, Parking);
    assert w.threads[1 := Idle(0)] == w.threads;
    assert Bumped(w, 1, X, 0) == w;
    BumpRounds(r, w, 1, X, TWO_32 - 1);
    assert Bumped(w, 1, X, TWO_32 - 1) == Window(5, TWO_32, Parking);
  }

  /** A waiter is suspended over an object that no longer holds its expected value, and no notify is under
      way that could wake it. */
  ghost predicate Stranded(z: State, t: Tid) {
    && t in z.threads && z.threads[t].Waiter? && (z.threads[t].pc.Asleep? || z.threads[t].pc.Blocked?)
    && Load(z, z.threads[t].addr) != z.threads[t].exp
    && forall u :: u in z.threads && u != t ==> !z.threads[u].Notifier?
  }

  lemma WindowRun(r: State -> bool)
    requires Closed(r) && r(Start(Generations))
    ensures r(Window(5, TWO_32, Parking))
  {
    WindowArrives(r);
    WindowOpens(r);
    WindowBumps(r);
  }

  lemma WindowWraps()
    ensures var z := Window(5, TWO_32, Parking);
      Enabled(z, Park(0, 0)) && Apply(z, Park(0, 0)) == Window(5, TWO_32, Asleep)
  {
    assert Apply(Window(5, TWO_32, Parking), Park(0, 0)).threads == Window(5, TWO_32, Asleep).threads;
  }

  /** With 2^32 bumps in one window the wake is lost. */
  lemma WrapLosesWake() returns (z: State)
    ensures Reachable(z) && z.backend.Generations? && Stranded(z, 0)
  {
    StartReachable(Generations);
    ReachableIsClosed();
    WindowRun(z => Reachable(z));
    WindowWraps();
    Extend(Window(5, TWO_32, Parking), Park(0, 0));
    z := Window(5, TWO_32, Asleep);
  }

  // ---------------------------------------------------------------- a newcomer takes the token

  lemma GoTakeMutex(r: State -> bool, z: State, t: Tid)
    requires Closed(r) && r(z) && t in z.threads && WantsMutex(z.threads[t]) && At(z, ItemOf(z.threads[t])).mutex.None?
    ensures r(DoTakeMutex(z, t))
  {
    Go(r, z, TakeMutex(t));
  }

  lemma GoEnter(r: State -> bool, z: State, t: Tid)
    requires Closed(r) && r(z) && IsWaiter(z, t, Entering) && At(z, ItemOf(z.threads[t])).tokens.pending > 0
    ensures r(DoEnter(z, t))
  {
    Go(r, z, Enter(t));
  }

  /** Two waiters and a notifier on object X, pthreads backend. */
  function Trio(
    v: Val, count: int, mutex: Option<Tid>, c: Counters, lock: Option<Tid>, w: Thread, n: Thread, u: Thread): State
  {
    State(Tokens, map[X := v], lock, map[X := 0], map[0 := Proxy(X, count, 0, mutex, c)], map[0 := w, 1 := n, 2 := u])
  }

  /** The first waiter, for value 0, and the newcomer, for value 5. */
  function First(pc: WaitPc): Thread {
    Waiter(pc, X, 0, false, Some(0), 0, 1)
  }

  function Newcomer(pc: WaitPc): Thread {
    Waiter(pc, X, 5, false, Some(0), 0, 1)
  }

  lemma TrioArrives(r: State -> bool)
    requires Closed(r) && r(Start(Tokens))
    ensures r(Trio(0, 1, None, Counters(0, 0), None, First(WantMutex), Idle(0), Idle(0)))
  {
    var z, y := Start(Tokens), Trio(0, 1, None, Counters(0, 0), None, First(WantMutex), Idle(0), Idle(0));
    WalkToPark(r, z, 0, X, 0);
    assert Enlisted(z, 0, X, 0, WantMutex, 0, 1).threads == y.threads;
    assert Enlisted(z, 0, X, 0, WantMutex, 0, 1) == y;
  }

  lemma TrioStores(r: State -> bool)
    requires Closed(r) && r(Trio(0, 1, None, Counters(0, 0), None, First(WantMutex), Idle(0), Idle(0)))
    ensures r(Trio(5, 1, Some(1), Counters(0, 0), Some(1), First(WantMutex),
      Notifier(Depositing, X, WAKE_ALL, true, Some(0)), Idle(0)))
  {
    var c, w := Counters(0, 0), First(WantMutex);
    var z := Trio(0, 1, None, c, None, w, Idle(0), Idle(0));
    Go(r, z, StoreAll(1, X, 5));
    assert z.mem[X := 5] == map[X := 5];
    var z1 := Trio(5, 1, None, c, None, w, Idle(0), Idle(0));
    var n := Notifier(WantLock, X, WAKE_ALL, true, None);
    FindProxy(r, z1, 1, n);
    var n' := n.(at := WantProxy, found := Some(0));
    var z2 := Trio(5, 1, None, c, Some(1), w, n', Idle(0));
    assert z1.threads[1 := n'] == z2.threads;
    GoTakeMutex(r, z2, 1);
    var z3 := Trio(5, 1, Some(1), c, Some(1), w, n.(at := Depositing, found := Some(0)), Idle(0));
    assert DoTakeMutex(z2, 1).threads == z3.threads && DoTakeMutex(z2, 1).proxies == z3.proxies;
  }

  lemma TrioWakes(r: State -> bool)
    requires Closed(r) && r(Trio(5, 1, Some(1), Counters(0, 0), Some(1), First(WantMutex),
      Notifier(Depositing, X, WAKE_ALL, true, Some(0)), Idle(0)))
    ensures r(Trio(5, 1, None, Counters(1, 0), Some(1), First(WantMutex), Notifier(Done, X, WAKE_ALL, true, None),
      Idle(0)))
  {
    var n := Notifier(Depositing, X, WAKE_ALL, true, Some(0));
    var z := Trio(5, 1, Some(1), Counters(0, 0), Some(1), First(WantMutex), n, Idle(0));
    assert BlockedOn(z, 0) == {};
    Go(r, z, Deposit(1, {}));
    var z1 := Trio(5, 1, None, Counters(1, 0), Some(1), First(WantMutex), n.(at := Done, found := None), Idle(0));
    assert DoDeposit(z, 1, {}).threads == z1.threads && DoDeposit(z, 1, {}).proxies == z1.proxies;
  }

  lemma TrioNotified(r: State -> bool)
    requires Closed(r) && r(Trio(5, 1, None, Counters(1, 0), Some(1), First(WantMutex),
      Notifier(Done, X, WAKE_ALL, true, None), Idle(0)))
    ensures r(Trio(5, 1, None, Counters(1, 0), None, First(WantMutex), Idle(0), Idle(0)))
  {
    var z1 := Trio(5, 1, None, Counters(1, 0), Some(1), First(WantMutex), Notifier(Done, X, WAKE_ALL, true, None),
      Idle(0));
    GoFinish(r, z1, 1);
    var z2 := Trio(5, 1, None, Counters(1, 0), None, First(WantMutex), Idle(0), Idle(0));
    assert DoFinish(z1, 1).threads == z2.threads;
  }

  lemma TrioSteals(r: State -> bool)
    requires Closed(r) && r(Trio(5, 1, None, Counters(1, 0), None, First(WantMutex), Idle(0), Idle(0)))
    ensures r(Trio(5, 2, None, Counters(0, 0), None, First(WantMutex), Idle(0), Newcomer(Returned(0))))
  {
    var w := First(WantMutex);
    var z := Trio(5, 1, None, Counters(1, 0), None, w, Idle(0), Idle(0));
    WalkToPark(r, z, 2, X, 1);
    var z1 := Trio(5, 2, None, Counters(1, 0), None, w, Idle(0), Newcomer(WantMutex));
    assert z.table[X := 0] == z.table;
    assert Enlisted(z, 2, X, 1, WantMutex, 0, 1).threads == z1.threads;
    assert Enlisted(z, 2, X, 1, WantMutex, 0, 1) == z1;
    GoTakeMutex(r, z1, 2);
    var z2 := Trio(5, 2, Some(2), Counters(1, 0), None, w, Idle(0), Newcomer(Entering));
    assert DoTakeMutex(z1, 2).threads == z2.threads;
    assert DoTakeMutex(z1, 2) == z2;
    GoEnter(r, z2, 2);
    var z3 := Trio(5, 2, None, Counters(0, 0), None, w, Idle(0), Newcomer(Returned(0)));
    assert DoEnter(z2, 2).threads == z3.threads && DoEnter(z2, 2).proxies == z3.proxies;
  }

  lemma TrioLocks(r: State -> bool)
    requires Closed(r) && r(Trio(5, 2, None, Counters(0, 0), None, First(WantMutex), Idle(0), Newcomer(Returned(0))))
    ensures r(Trio(5, 2, Some(0), Counters(0, 0), None, First(Entering), Idle(0), Newcomer(Returned(0))))
  {
    var z := Trio(5, 2, None, Counters(0, 0), None, First(WantMutex), Idle(0), Newcomer(Returned(0)));
    GoTakeMutex(r, z, 0);
    var z1 := Trio(5, 2, Some(0), Counters(0, 0), None, First(Entering), Idle(0), Newcomer(Returned(0)));
    assert DoTakeMutex(z, 0).threads == z1.threads && DoTakeMutex(z, 0).proxies == z1.proxies;
  }

  lemma TrioStrands()
    ensures var z := Trio(5, 2, Some(0), Counters(0, 0), None, First(Entering), Idle(0), Newcomer(Returned(0)));
      Enabled(z, Enter(0)) &&
      Apply(z, Enter(0)) == Trio(5, 2, None, Counters(0, 1), None, First(Blocked), Idle(0), Newcomer(Returned(0)))
  {
    var z1 := Trio(5, 2, Some(0), Counters(0, 0), None, First(Entering), Idle(0), Newcomer(Returned(0)));
    var z2 := Trio(5, 2, None, Counters(0, 1), None, First(Blocked), Idle(0), Newcomer(Returned(0)));
    assert DoEnter(z1, 0).threads == z2.threads && DoEnter(z1, 0).proxies == z2.proxies;
  }

  lemma TrioIsStranded()
    ensures Stranded(Trio(5, 2, None, Counters(0, 1), None, First(Blocked), Idle(0), Newcomer(Returned(0))), 0)
  {
  }

  /** A token waits for the first waiter, which is on its way to the park; nobody else is in a call. */
  lemma TrioFed(r: State -> bool)
    requires Closed(r) && r(Start(Tokens))
    ensures r(Trio(5, 1, None, Counters(1, 0), None, First(WantMutex), Idle(0), Idle(0)))
  {
    TrioArrives(r);
    TrioStores(r);
    TrioWakes(r);
    TrioNotified(r);
  }

  lemma TrioRun(r: State -> bool)
    requires Closed(r) && r(Start(Tokens))
    ensures r(Trio(5, 2, Some(0), Counters(0, 0), None, First(Entering), Idle(0), Newcomer(Returned(0))))
  {
    TrioFed(r);
    TrioSteals(r);
    TrioLocks(r);
  }

  /** Without the common expected value, token coverage fails: a newcomer that waits for the new value
      takes the token of an earlier waiter, which then blocks although its wake-all has completed
      and its object has changed. */
  lemma NewcomerStealsWake() returns (z: State)
    ensures Reachable(z) && z.backend.Tokens? && Stranded(z, 0)
  {
    StartReachable(Tokens);
    ReachableIsClosed();
    TrioRun(z => Reachable(z));
    TrioStrands();
    Extend(Trio(5, 2, Some(0), Counters(0, 0), None, First(Entering), Idle(0), Newcomer(Returned(0))), Enter(0));
    z := Trio(5, 2, None, Counters(0, 1), None, First(Blocked), Idle(0), Newcomer(Returned(0)));
    TrioIsStranded();
  }

  // ---------------------------------------------------------------- a positive result without a suspension

  lemma GoReturn(r: State -> bool, z: State, t: Tid)
    requires Closed(r) && r(z) && IsWaiter(z, t, Unlocking)
    ensures r(DoFinish(z, t))
  {
    Go(r, z, Finish(t));
  }

  /** Thread `t`, the only user of its proxy, has returned 1. */
  function Retired(z: State, t: Tid): State
    requires t in z.threads && z.threads[t].Waiter?
  {
    z.(threads := z.threads[t := Idle(1)], lock := None, table := z.table - {z.threads[t].addr},
       proxies := z.proxies - {ItemOf(z.threads[t])})
  }

  /** Back from the backend, it recaptures, sees the change and makes for the table lock. */
  lemma SeesChange(r: State -> bool, z: State, t: Tid, g: nat)
    requires Closed(r) && IsReturned(z, t) && !HardError(z.threads[t].pc.res) && z.threads[t].item.Some? && r(z)
    requires Load(z, z.threads[t].addr) != z.threads[t].exp && g == At(z, ItemOf(z.threads[t])).gen
    ensures r(Move(z, t, z.threads[t].(pc := WantTail, cap := g)))
  {
    var th := z.threads[t];
    Go(r, z, AfterWait(t));
    var z1 := Move(z, t, th.(pc := Recapturing));
    Go(r, z1, Recapture(t));
    var z2 := Move(z, t, th.(pc := Top, cap := g));
    assert Apply(z1, Recapture(t)).threads == z2.threads;
    GoTop(r, z2, t);
    assert z2.threads[t := th.(pc := WantTail, cap := g)] == z.threads[t := th.(pc := WantTail, cap := g)];
  }

  /** It deregisters, the last to do so, and returns. */
  lemma Deregisters(r: State -> bool, z: State, t: Tid)
    requires Closed(r) && IsWaiter(z, t, WantTail) && z.lock.None? && z.threads[t].ret == 1 && r(z)
    requires At(z, ItemOf(z.threads[t])).useCount == 1
    ensures r(Retired(z, t))
  {
    var th := z.threads[t];
    GoTake(r, z, t);
    var z1 := Move(z, t, th.(pc := Leaving)).(lock := Some(t));
    assert DoTakeTable(z, t) == z1;
    Go(r, z1, Action.Leave(t));
    var z2 := DoLeave(z1, t);
    assert z2.threads == z.threads[t := th.(pc := Unlocking, item := None)];
    GoReturn(r, z2, t);
    assert DoFinish(z2, t).threads == z.threads[t := Idle(1)];
    assert DoFinish(z2, t) == Retired(z, t);
  }

  lemma Retires(r: State -> bool, z: State, t: Tid)
    requires Closed(r) && IsReturned(z, t) && !HardError(z.threads[t].pc.res) && z.threads[t].item.Some? && r(z)
    requires Load(z, z.threads[t].addr) != z.threads[t].exp && z.lock.None? && z.threads[t].ret == 1
    requires At(z, ItemOf(z.threads[t])).useCount == 1
    ensures r(Retired(z, t))
  {
    var g := At(z, ItemOf(z.threads[t])).gen;
    SeesChange(r, z, t, g);
    var z1 := Move(z, t, z.threads[t].(pc := WantTail, cap := g));
    Deregisters(r, z1, t);
    assert Retired(z1, t).threads == Retired(z, t).threads;
  }

  /** A bump in the window: the compare fails, and the change is seen at once. */
  lemma WindowReturns(r: State -> bool)
    requires Closed(r) && r(Start(Generations))
    ensures r(Retired(Window(5, 1, Parking), 0))
  {
    WindowArrives(r);
    WindowOpens(r);
    var z := Window(5, 1, Parking);
    Go(r, z, Park(0, 0));
    var z1 := Window(5, 1, Returned(-EAGAIN));
    assert Apply(z, Park(0, 0)).threads == z1.threads;
    Retires(r, z1, 0);
    assert Retired(z1, 0).threads == Retired(z, 0).threads;
  }

  /** A token queued before the park: it is taken, and the change is seen at once. */
  lemma TrioReturns(r: State -> bool)
    requires Closed(r) && r(Start(Tokens))
    ensures r(Retired(Trio(5, 1, None, Counters(0, 0), None, First(Returned(0)), Idle(0), Idle(0)), 0))
  {
    TrioFed(r);
    var z := Trio(5, 1, None, Counters(1, 0), None, First(WantMutex), Idle(0), Idle(0));
    GoTakeMutex(r, z, 0);
    var z1 := Trio(5, 1, Some(0), Counters(1, 0), None, First(Entering), Idle(0), Idle(0));
    assert DoTakeMutex(z, 0).threads == z1.threads && DoTakeMutex(z, 0).proxies == z1.proxies;
    GoEnter(r, z1, 0);
    var z2 := Trio(5, 1, None, Counters(0, 0), None, First(Returned(0)), Idle(0), Idle(0));
    assert DoEnter(z1, 0).threads == z2.threads && DoEnter(z1, 0).proxies == z2.proxies;
    Retires(r, z2, 0);
  }

  /** Reached from the start by a run in which thread 0 never suspends. */
  ghost predicate Unsuspended(b: Backend, z: State) {
    exists acts :: Runs(Start(b), acts) && z == Exec(Start(b), acts) && !SuspendsSometime(Start(b), acts, 0)
  }

  lemma {:induction false} SuspendsAppend(s: State, acts: seq<Action>, a: Action, t: Tid)
    requires Runs(s, acts) && Runs(s, acts + [a]) && Enabled(Exec(s, acts), a) && !Suspends(Exec(s, acts), a)
    requires !SuspendsSometime(s, acts, t)
    ensures !SuspendsSometime(s, acts + [a], t)
    decreases |acts|
  {
    if acts == [] {
      assert acts + [a] == [a];
      assert [a][1..] == [];
    } else {
      assert (acts + [a])[1..] == acts[1..] + [a];
      SuspendsAppend(Apply(s, acts[0]), acts[1..], a, t);
    }
  }

  lemma UnsuspendedIsClosed(b: Backend)
    ensures Closed(z => Unsuspended(b, z)) && Unsuspended(b, Start(b))
  {
    assert Runs(Start(b), []) && Exec(Start(b), []) == Start(b) && !SuspendsSometime(Start(b), [], 0);
    forall z: State, a: Action | Unsuspended(b, z) && Enabled(z, a) && !Suspends(z, a)
      ensures Unsuspended(b, Apply(z, a))
    {
      var acts :| Runs(Start(b), acts) && z == Exec(Start(b), acts) && !SuspendsSometime(Start(b), acts, 0);
      RunsAppend(Start(b), acts, a);
      SuspendsAppend(Start(b), acts, a, 0);
    }
  }

  /** On either backend a call can return a positive result although the thread was never suspended: on the
      counters because a bump makes the compare fail, on pthreads because a token is already queued. */
  lemma PositiveWithoutSuspension(b: Backend) returns (acts: seq<Action>)
    ensures Start(b).threads[0] == Idle(0) && Runs(Start(b), acts)
    ensures 0 in Exec(Start(b), acts).threads && Exec(Start(b), acts).threads[0] == Idle(1)
    ensures !SuspendedSometime(Start(b), acts, 0)
  {
    UnsuspendedIsClosed(b);
    var z;
    if b.Generations? {
      WindowReturns(z => Unsuspended(b, z));
      z := Retired(Window(5, 1, Parking), 0);
    } else {
      TrioReturns(z => Unsuspended(b, z));
      z := Retired(Trio(5, 1, None, Counters(0, 0), None, First(Returned(0)), Idle(0), Idle(0)), 0);
    }
    acts :| Runs(Start(b), acts) && z == Exec(Start(b), acts) && !SuspendsSometime(Start(b), acts, 0);
    SuspendedIff(Start(b), acts, 0);
  }
}
