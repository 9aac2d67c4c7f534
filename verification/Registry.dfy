/** Locking and proxy lifetime, for both backends: the invariants every action of every thread
    keeps, from which follow mutual exclusion, exact use counts, no use after free, no leak and
    the isolation of objects from each other's notifies. */
module Registry {
  import opened Common
  import opened TokenRules
  import opened Protocol

  // ---------------------------------------------------------------- counting threads

  ghost function Those(ths: map<Tid, Thread>, f: Thread -> bool): set<Tid> {
    set t | t in ths && f(ths[t])
  }

  function Bit(b: bool): int {
    if b then 1 else 0
  }

  /** Moving one thread changes a count by that thread alone. */
  lemma ThoseMove(ths: map<Tid, Thread>, t: Tid, th: Thread, f: Thread -> bool)
    requires t in ths
    ensures |Those(ths[t := th], f)| == |Those(ths, f)| - Bit(f(ths[t])) + Bit(f(th))
  {
    var rest := Those(ths, f) - {t};
    assert Those(ths[t := th], f) == if f(th) then rest + {t} else rest;
    assert Those(ths, f) == if f(ths[t]) then rest + {t} else rest;
  }

  lemma ThoseSame(ths: map<Tid, Thread>, ths': map<Tid, Thread>, f: Thread -> bool)
    requires ths.Keys == ths'.Keys
    requires forall t :: t in ths ==> f(ths[t]) == f(ths'[t])
    ensures Those(ths, f) == Those(ths', f)
  {
  }

  /** The proxy a thread is registered on. */
  function Use(th: Thread): Option<Pid> {
    if th.Waiter? then th.item else None
  }

  /** The proxy whose condvar loop a thread is in. */
  function Loop(th: Thread): Option<Pid> {
    if th.Waiter? && (th.pc.Blocked? || th.pc.Reacquiring? || th.pc.Resuming?) then th.item else None
  }

  /** The threads registered on a proxy. */
  ghost function UserOf(p: Pid): Thread -> bool {
    (th: Thread) => Use(th) == Some(p)
  }

  /** The threads inside the condvar loop of a proxy. */
  ghost function LooperOf(p: Pid): Thread -> bool {
    (th: Thread) => Loop(th) == Some(p)
  }

  // ---------------------------------------------------------------- the invariants

  /** Program points between hash_table_lock and hash_table_unlock. */
  predicate HoldsTable(th: Thread) {
    match th
    case Waiter(pc, _, _, _, _, _, _) =>
      pc.Finding? || pc.Capturing? || pc.Rechecking? || pc.Releasing? || pc.Leaving? || pc.Unlocking?
    case Notifier(at, _, _, _, _) => !at.WantLock?
    case Idle(_) => false
  }

  /** Program points between pthread_mutex_lock and the matching unlock, outside the condvar wait. */
  predicate HoldsMutex(th: Thread) {
    match th
    case Waiter(pc, _, _, _, _, _, _) => pc.Entering? || pc.Resuming?
    case Notifier(at, _, _, _, _) => at.Depositing?
    case Idle(_) => false
  }

  /** The proxy whose mutex a thread is inside. */
  function Holding(th: Thread): Option<Pid> {
    if HoldsMutex(th) then Some(ItemOf(th)) else None
  }

  type Threads = map<Tid, Thread>
  type Heap = map<Pid, Proxy>

  /** At most one thread is inside the table lock, and it is the one the lock names. */
  ghost predicate LockOK(lock: Option<Tid>, ths: Threads) {
    && (lock.Some? ==> lock.value in ths && HoldsTable(ths[lock.value]))
    && (forall t {:trigger HoldsTable(ths[t])} :: t in ths && HoldsTable(ths[t]) ==> lock == Some(t))
  }

  predicate TokenPc(pc: WaitPc) {
    pc.WantMutex? || pc.Entering? || pc.Blocked? || pc.Reacquiring? || pc.Resuming?
  }

  predicate KernelPc(pc: WaitPc) {
    pc.Parking? || pc.Asleep?
  }

  predicate ItemlessPc(pc: WaitPc) {
    pc.WantTable? || pc.Finding? || pc.Unlocking?
  }

  /** A thread holds a pointer exactly at the program points where the code does. */
  predicate Shape(b: Backend, th: Thread) {
    match th
    case Idle(_) => true
    case Waiter(pc, _, _, _, item, _, _) =>
      && (pc.Top? || (item.None? <==> ItemlessPc(pc)))
      && (if b.Generations? then !TokenPc(pc) else !KernelPc(pc))
    case Notifier(at, _, _, _, found) =>
      && (found.Some? <==> at.Bumping? || at.Waking? || at.WantProxy? || at.Depositing?)
      && (if b.Generations? then !at.WantProxy? && !at.Depositing? else !at.Bumping? && !at.Waking?)
  }

  /** The pointer a thread holds is to a live proxy, and that proxy is its own object's. */
  predicate Linked(proxies: map<Pid, Proxy>, th: Thread) {
    match th
    case Idle(_) => true
    case Waiter(_, addr, _, _, item, _, _) =>
      item.Some? ==> item.value in proxies && proxies[item.value].owner == addr
    case Notifier(_, target, _, _, found) =>
      found.Some? ==> found.value in proxies && proxies[found.value].owner == target
  }

  predicate Good(b: Backend, heap: Heap, th: Thread) {
    Shape(b, th) && Linked(heap, th)
  }

  ghost predicate ThreadsOK(b: Backend, heap: Heap, ths: Threads) {
    forall t {:trigger Good(b, heap, ths[t])} :: t in ths ==> Good(b, heap, ths[t])
  }

  /** The table and the heap of proxies are inverse to each other. */
  ghost predicate TableOK(table: map<Addr, Pid>, heap: Heap) {
    && (forall a {:trigger table[a]} :: a in table ==> table[a] in heap && heap[table[a]].owner == a)
    && (forall p {:trigger heap[p].owner} :: p in heap ==> heap[p].owner in table && table[heap[p].owner] == p)
  }

  /** use_count is the number of threads registered on the proxy, and no proxy has none. */
  ghost predicate CountOK(heap: Heap, ths: Threads) {
    forall p {:trigger Those(ths, UserOf(p))} :: p in heap ==>
      heap[p].useCount == |Those(ths, UserOf(p))| && heap[p].useCount >= 1
  }

  /** `waiting` is the number of threads in the condvar loop; tokens never go negative. */
  ghost predicate WaitingOK(heap: Heap, ths: Threads) {
    forall p {:trigger Those(ths, LooperOf(p))} :: p in heap ==>
      heap[p].tokens.waiting == |Those(ths, LooperOf(p))| && heap[p].tokens.pending >= 0
  }

  /** A proxy mutex is held by `t` exactly while `t` is inside that proxy's critical section. */
  ghost predicate MutexOK(heap: Heap, ths: Threads) {
    && (forall p {:trigger heap[p].mutex} :: p in heap && heap[p].mutex.Some? ==>
      heap[p].mutex.value in ths && Holding(ths[heap[p].mutex.value]) == Some(p))
    && (forall t {:trigger Holding(ths[t])} :: t in ths && Holding(ths[t]).Some? ==>
      Holding(ths[t]).value in heap && heap[Holding(ths[t]).value].mutex == Some(t))
  }

  ghost predicate Inv(s: State) {
    && LockOK(s.lock, s.threads)
    && ThreadsOK(s.backend, s.proxies, s.threads)
    && TableOK(s.table, s.proxies)
    && CountOK(s.proxies, s.threads)
    && WaitingOK(s.proxies, s.threads)
    && MutexOK(s.proxies, s.threads)
  }

  // ---------------------------------------------------------------- moves that touch no proxy

  /** A thread moves without registering, deregistering, or crossing a mutex boundary. */
  predicate Quiet(th: Thread, th': Thread) {
    Use(th) == Use(th') && Loop(th) == Loop(th') && Holding(th) == Holding(th')
  }

  lemma QuietUsers(heap: Heap, ths: Threads, t: Tid, th: Thread)
    requires t in ths && CountOK(heap, ths) && Use(ths[t]) == Use(th)
    ensures CountOK(heap, ths[t := th])
  {
    forall p | p in heap ensures |Those(ths[t := th], UserOf(p))| == |Those(ths, UserOf(p))| {
      ThoseMove(ths, t, th, UserOf(p));
    }
  }

  lemma QuietLoopers(heap: Heap, ths: Threads, t: Tid, th: Thread)
    requires t in ths && WaitingOK(heap, ths) && Loop(ths[t]) == Loop(th)
    ensures WaitingOK(heap, ths[t := th])
  {
    forall p | p in heap ensures |Those(ths[t := th], LooperOf(p))| == |Those(ths, LooperOf(p))| {
      ThoseMove(ths, t, th, LooperOf(p));
    }
  }

  lemma QuietMutex(heap: Heap, ths: Threads, t: Tid, th: Thread)
    requires t in ths && MutexOK(heap, ths) && Holding(ths[t]) == Holding(th)
    ensures MutexOK(heap, ths[t := th])
  {
  }

  /** Entering, leaving, or staying on one side of the table lock. */
  predicate LockStep(lock: Option<Tid>, lock': Option<Tid>, t: Tid, th: Thread, th': Thread) {
    || (lock' == lock && HoldsTable(th) == HoldsTable(th'))
    || (lock.None? && lock' == Some(t) && HoldsTable(th'))
    || (lock'.None? && HoldsTable(th) && !HoldsTable(th'))
  }

  lemma LockMove(lock: Option<Tid>, lock': Option<Tid>, ths: Threads, t: Tid, th: Thread)
    requires t in ths && LockOK(lock, ths) && LockStep(lock, lock', t, ths[t], th)
    ensures LockOK(lock', ths[t := th])
  {
  }

  lemma QuietMove(s: State, t: Tid, th: Thread, lock: Option<Tid>, mem: map<Addr, Val>)
    requires Inv(s) && t in s.threads && Quiet(s.threads[t], th) && LockStep(s.lock, lock, t, s.threads[t], th)
    requires Shape(s.backend, th) && Linked(s.proxies, th)
    ensures Inv(Move(s, t, th).(lock := lock, mem := mem))
  {
    QuietUsers(s.proxies, s.threads, t, th);
    QuietLoopers(s.proxies, s.threads, t, th);
    QuietMutex(s.proxies, s.threads, t, th);
    LockMove(s.lock, lock, s.threads, t, th);
  }

  /** What a thread-local step must respect for the invariants not to notice it. */
  predicate Keeps(b: Backend, heap: Heap, th: Thread, th': Thread) {
    Quiet(th, th') && Shape(b, th') && Linked(heap, th') && HoldsTable(th) == HoldsTable(th')
  }

  lemma LoadsKeep(b: Backend, heap: Heap, th: Thread, v: Val, gen: nat)
    requires th.Waiter? && Good(b, heap, th)
    ensures th.pc.Top? ==> Keeps(b, heap, th, TopNext(th, v))
    ensures th.pc.Capturing? ==> Keeps(b, heap, th, CaptureNext(th, gen))
    ensures th.pc.Rechecking? ==> Keeps(b, heap, th, RecheckNext(th, v))
    ensures th.pc.Recapturing? ==> Keeps(b, heap, th, RecaptureNext(th, gen))
  {
  }

  lemma ParksKeep(b: Backend, heap: Heap, th: Thread, gen: nat, res: int, expired: bool)
    requires th.Waiter? && Good(b, heap, th)
    ensures th.pc.Checking? ==> Keeps(b, heap, th, CheckNext(b, th, expired))
    ensures th.pc.Parking? ==> Keeps(b, heap, th, ParkNext(th, gen, res))
    ensures th.pc.Asleep? ==> Keeps(b, heap, th, th.(pc := Returned(res)))
    ensures th.pc.Blocked? ==> Keeps(b, heap, th, th.(pc := Reacquiring(res)))
    ensures th.pc.Returned? ==> Keeps(b, heap, th, AfterWaitNext(th))
  {
  }

  lemma KeepsMove(s: State, t: Tid, th: Thread)
    requires Inv(s) && t in s.threads && Keeps(s.backend, s.proxies, s.threads[t], th)
    ensures Inv(Move(s, t, th))
  {
    QuietMove(s, t, th, s.lock, s.mem);
  }

  lemma NotifiersKeep(b: Backend, table: map<Addr, Pid>, heap: Heap, th: Thread)
    requires th.Notifier? && th.at.LookingUp? && Good(b, heap, th) && TableOK(table, heap)
    ensures Keeps(b, heap, th, LookUpNext(b, table, th))
  {
  }

  lemma WaitersKeep(s: State, a: Action)
    requires IsLocal(a) && Enabled(s, a) && s.threads[a.t].Waiter? && Good(s.backend, s.proxies, s.threads[a.t])
    ensures Keeps(s.backend, s.proxies, s.threads[a.t], LocalNext(s, a))
  {
    var th := s.threads[a.t];
    var gen := At(s, ItemOf(th)).gen;
    if a.LoadTop? || a.Capture? || a.Recheck? || a.Recapture? {
      LoadsKeep(s.backend, s.proxies, th, Load(s, th.addr), gen);
    } else {
      var res := match a case Park(_, e) => e case KernelReturn(_, r) => r case CondReturn(_, w) => w case _ => 0;
      ParksKeep(s.backend, s.proxies, th, gen, res, a.Check? && a.expired);
    }
  }

  lemma LocalKeeps(s: State, a: Action)
    requires IsLocal(a) && Enabled(s, a)
    requires Good(s.backend, s.proxies, s.threads[a.t]) && TableOK(s.table, s.proxies)
    ensures Keeps(s.backend, s.proxies, s.threads[a.t], LocalNext(s, a))
  {
    var th := s.threads[a.t];
    if th.Waiter? {
      WaitersKeep(s, a);
    } else if th.Notifier? {
      NotifiersKeep(s.backend, s.table, s.proxies, th);
    }
  }

  lemma StepLocal(s: State, a: Action)
    requires Inv(s) && IsLocal(a) && Enabled(s, a)
    ensures Inv(Move(s, a.t, LocalNext(s, a)))
  {
    LocalKeeps(s, a);
    KeepsMove(s, a.t, LocalNext(s, a));
  }

  // ---------------------------------------------------------------- moves through the table lock

  lemma LockersKeep(b: Backend, heap: Heap, th: Thread)
    requires Good(b, heap, th)
    ensures WantsTable(th) ==> Quiet(th, WithTable(th)) && Good(b, heap, WithTable(th)) && HoldsTable(WithTable(th))
    ensures th.Waiter? && th.pc.Releasing? ==>
      var th' := th.(pc := Checking, ret := 1);
      Quiet(th, th') && Good(b, heap, th') && HoldsTable(th) && !HoldsTable(th')
    ensures (th.Waiter? && th.pc.Unlocking?) || (th.Notifier? && th.at.Done?) ==>
      Quiet(th, FinishNext(th)) && HoldsTable(th)
  {
  }

  lemma StepTakeTable(s: State, t: Tid)
    requires Inv(s) && Enabled(s, TakeTable(t))
    ensures Inv(DoTakeTable(s, t))
  {
    LockersKeep(s.backend, s.proxies, s.threads[t]);
    QuietMove(s, t, WithTable(s.threads[t]), Some(t), s.mem);
  }

  lemma StepRelease(s: State, t: Tid)
    requires Inv(s) && Enabled(s, Release(t))
    ensures Inv(DoRelease(s, t))
  {
    LockersKeep(s.backend, s.proxies, s.threads[t]);
    QuietMove(s, t, s.threads[t].(pc := Checking, ret := 1), None, s.mem);
  }

  lemma StepFinish(s: State, t: Tid)
    requires Inv(s) && Enabled(s, Finish(t))
    ensures Inv(DoFinish(s, t))
  {
    LockersKeep(s.backend, s.proxies, s.threads[t]);
    QuietMove(s, t, FinishNext(s.threads[t]), None, s.mem);
  }

  lemma StepStoreAll(s: State, t: Tid, addr: Addr, val: Val)
    requires Inv(s) && IsIdle(s, t)
    ensures Inv(DoStoreAll(s, t, addr, val))
  {
    QuietMove(s, t, Notifier(WantLock, addr, WAKE_ALL, true, None), s.lock, s.mem[addr := val]);
  }

  // ---------------------------------------------------------------- waking suspended threads

  lemma AwokenKeeps(b: Backend, heap: Heap, th: Thread)
    requires Good(b, heap, th)
    ensures Keeps(b, heap, th, Awoken(th))
  {
  }

  lemma StepWake(s: State, woken: set<Tid>)
    requires Inv(s)
    ensures Inv(WakeThreads(s, woken))
  {
    var ths, ths' := s.threads, WakeThreads(s, woken).threads;
    forall t | t in ths ensures Keeps(s.backend, s.proxies, ths[t], ths'[t]) {
      AwokenKeeps(s.backend, s.proxies, ths[t]);
    }
    SameThreads(s.backend, s.lock, s.proxies, ths, ths');
  }

  /** Any number of threads may make quiet moves at once. */
  lemma SameThreads(b: Backend, lock: Option<Tid>, heap: Heap, ths: Threads, ths': Threads)
    requires ths.Keys == ths'.Keys && forall t :: t in ths ==> Keeps(b, heap, ths[t], ths'[t])
    requires LockOK(lock, ths) && ThreadsOK(b, heap, ths) && CountOK(heap, ths) && WaitingOK(heap, ths) &&
      MutexOK(heap, ths)
    ensures LockOK(lock, ths') && ThreadsOK(b, heap, ths') && CountOK(heap, ths') && WaitingOK(heap, ths') &&
      MutexOK(heap, ths')
  {
    forall p | p in heap
      ensures Those(ths, UserOf(p)) == Those(ths', UserOf(p)) && Those(ths, LooperOf(p)) == Those(ths', LooperOf(p))
    {
      ThoseSame(ths, ths', UserOf(p));
      ThoseSame(ths, ths', LooperOf(p));
    }
  }

  lemma StepKernelWake(s: State, t: Tid, woken: set<Tid>)
    requires Inv(s) && Enabled(s, KernelWake(t, woken))
    ensures Inv(DoKernelWake(s, t, woken))
  {
    StepWake(s, woken);
    var s1 := WakeThreads(s, woken);
    assert s1.threads[t] == s.threads[t];
    KeepsMove(s1, t, s.threads[t].(at := Done, found := None));
  }

  // ---------------------------------------------------------------- changing a live proxy

  /** Replacing a proxy by one with the same owner leaves every pointer good. */
  lemma SameOwner(b: Backend, table: map<Addr, Pid>, heap: Heap, ths: Threads, p: Pid, x: Proxy)
    requires ThreadsOK(b, heap, ths) && TableOK(table, heap) && p in heap && x.owner == heap[p].owner
    ensures ThreadsOK(b, heap[p := x], ths) && TableOK(table, heap[p := x])
  {
    forall t | t in ths ensures Good(b, heap[p := x], ths[t]) {
      assert Good(b, heap, ths[t]);
    }
  }

  lemma WaitingAt(heap: Heap, ths: Threads, p: Pid)
    requires WaitingOK(heap, ths) && p in heap
    ensures heap[p].tokens.pending >= 0 && heap[p].tokens.waiting == |Those(ths, LooperOf(p))|
  {
  }

  lemma StepBump(s: State, t: Tid)
    requires Inv(s) && IsNotifier(s, t, Bumping)
    ensures Inv(DoBump(s, t))
  {
    var p := ItemOf(s.threads[t]);
    var th := s.threads[t].(at := Waking);
    assert Good(s.backend, s.proxies, s.threads[t]);
    KeepsMove(s, t, th);
    SameOwner(s.backend, s.table, s.proxies, s.threads[t := th], p, At(s, p).(gen := At(s, p).gen + 1));
  }

  lemma TakeMutexOK(heap: Heap, ths: Threads, t: Tid, th: Thread, p: Pid)
    requires t in ths && MutexOK(heap, ths) && p in heap && heap[p].mutex.None?
    requires Holding(ths[t]).None? && Holding(th) == Some(p)
    ensures MutexOK(heap[p := heap[p].(mutex := Some(t))], ths[t := th])
  {
  }

  lemma DropMutexOK(heap: Heap, ths: Threads, t: Tid, th: Thread, p: Pid, c: Counters)
    requires t in ths && MutexOK(heap, ths) && Holding(ths[t]) == Some(p) && Holding(th).None?
    ensures MutexOK(heap[p := heap[p].(mutex := None, tokens := c)], ths[t := th])
  {
  }

  /** One thread may join or leave the condvar loop of the proxy it holds. */
  lemma LoopersOK(heap: Heap, ths: Threads, t: Tid, th: Thread, p: Pid, x: Proxy)
    requires t in ths && WaitingOK(heap, ths) && p in heap
    requires Loop(ths[t]) in {None, Some(p)} && Loop(th) in {None, Some(p)}
    requires x.tokens.pending >= 0
    requires x.tokens.waiting == heap[p].tokens.waiting - Bit(Loop(ths[t]) == Some(p)) + Bit(Loop(th) == Some(p))
    ensures WaitingOK(heap[p := x], ths[t := th])
  {
    forall q | q in heap
      ensures |Those(ths[t := th], LooperOf(q))| ==
        |Those(ths, LooperOf(q))| - Bit(Loop(ths[t]) == Some(q)) + Bit(Loop(th) == Some(q))
    {
      ThoseMove(ths, t, th, LooperOf(q));
    }
  }

  lemma UsersSameOK(heap: Heap, ths: Threads, p: Pid, x: Proxy)
    requires CountOK(heap, ths) && p in heap && x.useCount == heap[p].useCount
    ensures CountOK(heap[p := x], ths)
  {
  }

  lemma MutexersKeep(b: Backend, heap: Heap, th: Thread)
    requires Good(b, heap, th) && WantsMutex(th)
    ensures ItemOf(th) in heap && Good(b, heap, WithMutex(th)) && HoldsTable(th) == HoldsTable(WithMutex(th))
    ensures Use(th) == Use(WithMutex(th)) && Loop(th) == Loop(WithMutex(th))
    ensures Holding(th).None? && Holding(WithMutex(th)) == Some(ItemOf(th))
  {
  }

  lemma StepTakeMutex(s: State, t: Tid)
    requires Inv(s) && Enabled(s, TakeMutex(t))
    ensures Inv(DoTakeMutex(s, t))
  {
    var th := s.threads[t];
    var p := ItemOf(th);
    var x := At(s, p).(mutex := Some(t));
    MutexersKeep(s.backend, s.proxies, th);
    TakeMutexOK(s.proxies, s.threads, t, WithMutex(th), p);
    QuietUsers(s.proxies, s.threads, t, WithMutex(th));
    UsersSameOK(s.proxies, s.threads[t := WithMutex(th)], p, x);
    QuietLoopers(s.proxies, s.threads, t, WithMutex(th));
    LockMove(s.lock, s.lock, s.threads, t, WithMutex(th));
    SameOwner(s.backend, s.table, s.proxies, s.threads[t := WithMutex(th)], p, x);
  }

  /** The end of any critical section of a proxy mutex. */
  lemma DropKeeps(s: State, t: Tid, th: Thread, p: Pid, c: Counters)
    requires Inv(s) && t in s.threads && Holding(s.threads[t]) == Some(p) && Holding(th).None?
    requires Good(s.backend, s.proxies, th) && HoldsTable(th) == HoldsTable(s.threads[t]) &&
      Use(th) == Use(s.threads[t])
    requires Loop(s.threads[t]) in {None, Some(p)} && Loop(th) in {None, Some(p)} && c.pending >= 0
    requires c.waiting == At(s, p).tokens.waiting - Bit(Loop(s.threads[t]) == Some(p)) + Bit(Loop(th) == Some(p))
    ensures Inv(DropMutex(s, t, th, p, c))
  {
    var x := At(s, p).(mutex := None, tokens := c);
    DropMutexOK(s.proxies, s.threads, t, th, p, c);
    QuietUsers(s.proxies, s.threads, t, th);
    UsersSameOK(s.proxies, s.threads[t := th], p, x);
    LoopersOK(s.proxies, s.threads, t, th, p, x);
    LockMove(s.lock, s.lock, s.threads, t, th);
    SameOwner(s.backend, s.table, s.proxies, s.threads[t := th], p, x);
  }

  lemma StepEnter(s: State, t: Tid)
    requires Inv(s) && IsWaiter(s, t, Entering)
    ensures Inv(DoEnter(s, t))
  {
    var th := s.threads[t];
    assert Good(s.backend, s.proxies, th);
    WaitingAt(s.proxies, s.threads, ItemOf(th));
    var (c, next) := EnterRule(At(s, ItemOf(th)).tokens);
    DropKeeps(s, t, After(th, next), ItemOf(th), c);
  }

  lemma StepResume(s: State, t: Tid)
    requires Inv(s) && IsResuming(s, t)
    ensures Inv(DoResume(s, t))
  {
    var th := s.threads[t];
    assert Good(s.backend, s.proxies, th);
    WaitingAt(s.proxies, s.threads, ItemOf(th));
    var (c, next) := ResumeRule(At(s, ItemOf(th)).tokens, th.pc.result);
    DropKeeps(s, t, After(th, next), ItemOf(th), c);
  }

  lemma StepDeposit(s: State, t: Tid, woken: set<Tid>)
    requires Inv(s) && Enabled(s, Deposit(t, woken))
    ensures Inv(DoDeposit(s, t, woken))
  {
    StepWake(s, woken);
    var s1 := WakeThreads(s, woken);
    var th := s.threads[t];
    assert s1.threads[t] == th && Good(s.backend, s.proxies, th);
    var p := ItemOf(th);
    var c := At(s, p).tokens;
    WaitingAt(s.proxies, s.threads, p);
    DropKeeps(s1, t, th.(at := Done, found := None), p,
      c.(pending := DepositRule(c.pending, th.max, At(s, p).useCount)));
  }

  // ---------------------------------------------------------------- registering and deregistering

  /** One thread registers on, or deregisters from, a live proxy. */
  lemma UsersOK(heap: Heap, ths: Threads, t: Tid, th: Thread, p: Pid, x: Proxy)
    requires t in ths && CountOK(heap, ths) && p in heap
    requires Use(ths[t]) in {None, Some(p)} && Use(th) in {None, Some(p)}
    requires x.useCount == heap[p].useCount - Bit(Use(ths[t]) == Some(p)) + Bit(Use(th) == Some(p)) && x.useCount >= 1
    ensures CountOK(heap[p := x], ths[t := th])
  {
    forall q | q in heap
      ensures |Those(ths[t := th], UserOf(q))| ==
        |Those(ths, UserOf(q))| - Bit(Use(ths[t]) == Some(q)) + Bit(Use(th) == Some(q))
    {
      ThoseMove(ths, t, th, UserOf(q));
    }
  }

  lemma LoopersSameOK(heap: Heap, ths: Threads, p: Pid, x: Proxy)
    requires WaitingOK(heap, ths) && p in heap && x.tokens == heap[p].tokens
    ensures WaitingOK(heap[p := x], ths)
  {
  }

  lemma MutexSameOK(heap: Heap, ths: Threads, p: Pid, x: Proxy)
    requires MutexOK(heap, ths) && p in heap && x.mutex == heap[p].mutex
    ensures MutexOK(heap[p := x], ths)
  {
  }

  /** A registration changes use_count and the registering thread only. */
  lemma CountMove(s: State, t: Tid, th: Thread, p: Pid, count: int)
    requires Inv(s) && t in s.threads && p in s.proxies
    requires Use(s.threads[t]) in {None, Some(p)} && Use(th) in {None, Some(p)}
    requires count == At(s, p).useCount - Bit(Use(s.threads[t]) == Some(p)) + Bit(Use(th) == Some(p)) && count >= 1
    requires Loop(s.threads[t]) == Loop(th) && Holding(s.threads[t]) == Holding(th) &&
      HoldsTable(s.threads[t]) == HoldsTable(th)
    requires Good(s.backend, s.proxies, th)
    ensures Inv(SetProxy(Move(s, t, th), p, At(s, p).(useCount := count)))
  {
    var ths := s.threads[t := th];
    var x := At(s, p).(useCount := count);
    UsersOK(s.proxies, s.threads, t, th, p, x);
    QuietLoopers(s.proxies, s.threads, t, th);
    LoopersSameOK(s.proxies, ths, p, x);
    QuietMutex(s.proxies, s.threads, t, th);
    MutexSameOK(s.proxies, ths, p, x);
    LockMove(s.lock, s.lock, s.threads, t, th);
    SameOwner(s.backend, s.table, s.proxies, ths, p, x);
  }

  lemma NobodyOn(b: Backend, heap: Heap, ths: Threads, p: Pid)
    requires ThreadsOK(b, heap, ths) && p !in heap
    ensures Those(ths, UserOf(p)) == {} && Those(ths, LooperOf(p)) == {}
  {
    forall t | t in ths ensures Use(ths[t]) != Some(p) {
      assert Good(b, heap, ths[t]);
    }
  }

  lemma CreateCounts(b: Backend, heap: Heap, ths: Threads, t: Tid, th: Thread, node: Pid, a: Addr)
    requires ThreadsOK(b, heap, ths) && CountOK(heap, ths) && WaitingOK(heap, ths) && node !in heap
    requires t in ths && Use(ths[t]).None? && Use(th) == Some(node) && Loop(th).None?
    ensures CountOK(heap[node := NewProxy(a)], ths[t := th]) && WaitingOK(heap[node := NewProxy(a)], ths[t := th])
  {
    NobodyOn(b, heap, ths, node);
    forall q | q in heap[node := NewProxy(a)]
      ensures |Those(ths[t := th], UserOf(q))| == |Those(ths, UserOf(q))| + Bit(q == node)
      ensures |Those(ths[t := th], LooperOf(q))| == |Those(ths, LooperOf(q))|
    {
      ThoseMove(ths, t, th, UserOf(q));
      ThoseMove(ths, t, th, LooperOf(q));
    }
  }

  lemma CreateLinks(b: Backend, table: map<Addr, Pid>, heap: Heap, ths: Threads, node: Pid, a: Addr)
    requires ThreadsOK(b, heap, ths) && TableOK(table, heap) && MutexOK(heap, ths) && node !in heap && a !in table
    ensures ThreadsOK(b, heap[node := NewProxy(a)], ths)
    ensures TableOK(table[a := node], heap[node := NewProxy(a)]) && MutexOK(heap[node := NewProxy(a)], ths)
  {
    forall u | u in ths ensures Good(b, heap[node := NewProxy(a)], ths[u]) {
      assert Good(b, heap, ths[u]);
    }
  }

  lemma StepCreate(s: State, t: Tid, node: Pid)
    requires Inv(s) && Enabled(s, Find(t, true, node)) && s.threads[t].addr !in s.table
    ensures Inv(DoFind(s, t, true, node))
  {
    var th := s.threads[t];
    var th' := th.(pc := Capturing, item := Some(node));
    assert Good(s.backend, s.proxies, th);
    CreateCounts(s.backend, s.proxies, s.threads, t, th', node, th.addr);
    CreateLinks(s.backend, s.table, s.proxies, s.threads, node, th.addr);
    QuietMutex(s.proxies[node := NewProxy(th.addr)], s.threads, t, th');
    LockMove(s.lock, s.lock, s.threads, t, th');
    assert Good(s.backend, s.proxies[node := NewProxy(th.addr)], th');
  }

  lemma StepFind(s: State, t: Tid, ok: bool, node: Pid)
    requires Inv(s) && Enabled(s, Find(t, ok, node))
    ensures Inv(DoFind(s, t, ok, node))
  {
    var th := s.threads[t];
    assert Good(s.backend, s.proxies, th);
    if !ok {
      KeepsMove(s, t, th.(pc := Unlocking, ret := -1));
    } else if th.addr in s.table {
      var p := s.table[th.addr];
      assert |Those(s.threads, UserOf(p))| >= 0;
      CountMove(s, t, th.(pc := Capturing, item := Some(p)), p, At(s, p).useCount + 1);
    } else {
      StepCreate(s, t, node);
    }
  }

  lemma MutexHolder(b: Backend, heap: Heap, ths: Threads, p: Pid)
    requires ThreadsOK(b, heap, ths) && MutexOK(heap, ths) && p in heap
    ensures heap[p].mutex.Some? ==> var u := heap[p].mutex.value;
      u in ths && HoldsMutex(ths[u]) && (Use(ths[u]) == Some(p) || (ths[u].Notifier? && ths[u].found == Some(p)))
  {
    if heap[p].mutex.Some? {
      var u := heap[p].mutex.value;
      assert Good(b, heap, ths[u]);
    }
  }

  /** The last user of a proxy is alone with it: nobody else points at it, nobody is in its condvar
      loop, and its mutex is free. */
  lemma LastUser(s: State, t: Tid)
    requires Inv(s) && IsWaiter(s, t, Leaving) && At(s, ItemOf(s.threads[t])).useCount == 1
    ensures var p := ItemOf(s.threads[t]);
      && p in s.proxies && s.proxies[p].tokens.waiting == 0 && s.proxies[p].mutex.None?
      && forall u :: u in s.threads && u != t ==>
        Use(s.threads[u]) != Some(p) && !(s.threads[u].Notifier? && s.threads[u].found == Some(p))
  {
    var p := ItemOf(s.threads[t]);
    assert Good(s.backend, s.proxies, s.threads[t]);
    MutexHolder(s.backend, s.proxies, s.threads, p);
    var users := Those(s.threads, UserOf(p));
    assert t in users;
    assert |users - {t}| == 0;
    forall u | u in s.threads && u != t
      ensures Use(s.threads[u]) != Some(p) && !(s.threads[u].Notifier? && s.threads[u].found == Some(p))
    {
      assert u !in users - {t};
      assert HoldsTable(s.threads[t]) && (HoldsTable(s.threads[u]) ==> s.lock == Some(u));
      assert Good(s.backend, s.proxies, s.threads[u]);
    }
    assert Those(s.threads, LooperOf(p)) == {} by {
      assert forall u :: u in Those(s.threads, LooperOf(p)) ==> u in users;
    }
  }

  lemma StepLeave(s: State, t: Tid)
    requires Inv(s) && IsWaiter(s, t, Leaving)
    ensures Inv(DoLeave(s, t))
  {
    var th := s.threads[t];
    var p := ItemOf(th);
    var th' := th.(pc := Unlocking, item := None);
    assert Good(s.backend, s.proxies, th);
    assert |Those(s.threads, UserOf(p))| >= 0;
    if At(s, p).useCount - 1 == 0 {
      LastUser(s, t);
      StepFree(s, t);
    } else {
      CountMove(s, t, th', p, At(s, p).useCount - 1);
    }
  }

  lemma StepFree(s: State, t: Tid)
    requires Inv(s) && IsWaiter(s, t, Leaving) && At(s, ItemOf(s.threads[t])).useCount == 1
    ensures Inv(DoLeave(s, t))
  {
    var th := s.threads[t];
    var p := ItemOf(th);
    var th' := th.(pc := Unlocking, item := None);
    var heap := s.proxies - {p};
    var ths := s.threads[t := th'];
    assert Good(s.backend, s.proxies, th);
    LastUser(s, t);
    forall q | q in heap
      ensures |Those(ths, UserOf(q))| == |Those(s.threads, UserOf(q))|
      ensures |Those(ths, LooperOf(q))| == |Those(s.threads, LooperOf(q))|
    {
      ThoseMove(s.threads, t, th', UserOf(q));
      ThoseMove(s.threads, t, th', LooperOf(q));
    }
    forall u | u in ths ensures Good(s.backend, heap, ths[u]) {
      assert Good(s.backend, s.proxies, s.threads[u]);
    }
    QuietMutex(s.proxies, s.threads, t, th');
    LockMove(s.lock, s.lock, s.threads, t, th');
  }

  // ---------------------------------------------------------------- every action keeps the invariant

  lemma Step(s: State, a: Action)
    requires Inv(s) && Enabled(s, a)
    ensures Inv(Apply(s, a))
  {
    if IsLocal(a) {
      StepLocal(s, a);
    } else {
      match a
      case TakeTable(t) => StepTakeTable(s, t);
      case Find(t, ok, node) => StepFind(s, t, ok, node);
      case Release(t) => StepRelease(s, t);
      case TakeMutex(t) => StepTakeMutex(s, t);
      case Enter(t) => StepEnter(s, t);
      case Resume(t) => StepResume(s, t);
      case Leave(t) => StepLeave(s, t);
      case Finish(t) => StepFinish(s, t);
      case StoreAll(t, addr, val) => StepStoreAll(s, t, addr, val);
      case Bump(t) => StepBump(s, t);
      case KernelWake(t, woken) => StepKernelWake(s, t, woken);
      case Deposit(t, woken) => StepDeposit(s, t, woken);
      case Spin(_) =>
    }
  }

  // ---------------------------------------------------------------- what holds in every reachable state

  lemma {:induction false} Reach(s: State, acts: seq<Action>)
    requires Inv(s) && Runs(s, acts)
    ensures Inv(Exec(s, acts))
    decreases |acts|
  {
    if acts != [] {
      Step(s, acts[0]);
      Reach(Apply(s, acts[0]), acts[1..]);
    }
  }

  /** Some run of some number of threads, from an idle start, ends in this state. */
  ghost predicate Reachable(z: State) {
    exists s, acts :: Init(s) && Runs(s, acts) && z == Exec(s, acts)
  }

  lemma {:induction false} RunsAppend(s: State, acts: seq<Action>, a: Action)
    requires Runs(s, acts) && Enabled(Exec(s, acts), a)
    ensures Runs(s, acts + [a]) && Exec(s, acts + [a]) == Apply(Exec(s, acts), a)
    decreases |acts|
  {
    if acts == [] {
      assert acts + [a] == [a];
      assert Runs(Apply(s, a), [a][1..]);
    } else {
      RunsAppend(Apply(s, acts[0]), acts[1..], a);
      assert (acts + [a])[1..] == acts[1..] + [a];
    }
  }

  /** One more step from a reachable state. */
  lemma Extend(z: State, a: Action)
    requires Reachable(z) && Enabled(z, a)
    ensures Reachable(Apply(z, a))
  {
    var s, acts :| Init(s) && Runs(s, acts) && z == Exec(s, acts);
    RunsAppend(s, acts, a);
  }

  /** The invariant holds in every reachable state, for any number of threads and objects and for
      either backend. */
  lemma Safety(z: State)
    requires Reachable(z)
    ensures Inv(z)
  {
    var s, acts :| Init(s) && Runs(s, acts) && z == Exec(s, acts);
    Reach(s, acts);
  }

  /** At most one thread is between hash_table_lock and hash_table_unlock, and none of them is
      outside a call. */
  lemma MutualExclusion(z: State, t: Tid, u: Tid)
    requires Reachable(z)
    requires t in z.threads && u in z.threads
    requires HoldsTable(z.threads[t]) && HoldsTable(z.threads[u])
    ensures t == u && z.lock == Some(t)
  {
    Safety(z);
  }

  /** The proxies an action follows a pointer to. */
  function Touched(s: State, a: Action): set<Pid>
    requires Enabled(s, a)
  {
    if a.Find? then (if a.ok && s.threads[a.t].addr in s.table then {s.table[s.threads[a.t].addr]} else {})
    else if a.Capture? || a.Park? || a.KernelReturn? || a.TakeMutex? || a.Enter? || a.CondReturn? || a.Resume? ||
            a.Recapture? || a.Leave? || a.Bump? || a.KernelWake? || a.Deposit? ||
            (a.Spin? && WantsMutex(s.threads[a.t])) then {ItemOf(s.threads[a.t])}
    else {}
  }

  lemma ItemAlive(b: Backend, heap: Heap, th: Thread)
    requires Good(b, heap, th)
    requires (th.Waiter? && !th.pc.Top? && !ItemlessPc(th.pc)) ||
      (th.Notifier? && (th.at.Bumping? || th.at.Waking? || th.at.WantProxy? || th.at.Depositing?))
    ensures ItemOf(th) in heap
  {
  }

  lemma TouchedAlive(s: State, a: Action)
    requires TableOK(s.table, s.proxies) && Enabled(s, a) && Good(s.backend, s.proxies, s.threads[a.t])
    ensures Touched(s, a) <= s.proxies.Keys
  {
    if Touched(s, a) != {} && !a.Find? {
      ItemAlive(s.backend, s.proxies, s.threads[a.t]);
    }
  }

  /** No action ever follows a pointer to a freed proxy. */
  lemma NoUseAfterFree(z: State, a: Action)
    requires Reachable(z) && Enabled(z, a)
    ensures Touched(z, a) <= z.proxies.Keys
  {
    Safety(z);
    TouchedAlive(z, a);
  }

  /** The pointer a waiter keeps across the whole wait cycle is the table's proxy for its object in
      every state, however often others registered and left. */
  lemma PointerStaysCurrent(z: State, t: Tid)
    requires Reachable(z) && t in z.threads && Use(z.threads[t]).Some?
    ensures z.threads[t].addr in z.table && z.table[z.threads[t].addr] == z.threads[t].item.value
  {
    Safety(z);
    assert Good(z.backend, z.proxies, z.threads[t]);
    assert z.proxies[z.threads[t].item.value].owner == z.threads[t].addr;
  }

  lemma Unused(heap: Heap, ths: Threads, p: Pid)
    requires CountOK(heap, ths) && forall t :: t in ths ==> Use(ths[t]).None?
    ensures p !in heap
  {
    assert Those(ths, UserOf(p)) == {};
  }

  lemma Housed(table: map<Addr, Pid>, heap: Heap, a: Addr)
    requires TableOK(table, heap) && a in table
    ensures heap != map[]
  {
    assert table[a] in heap;
  }

  /** use_count is exact in every reachable state; and once no wait is in progress nothing is left
      in the table or on the heap, whether the waits ended by a change, a timeout or an error. */
  lemma ProxyLifetime(z: State)
    requires Reachable(z)
    ensures forall p :: p in z.proxies ==> z.proxies[p].useCount == |Those(z.threads, UserOf(p))|
    ensures (forall t :: t in z.threads ==> Use(z.threads[t]).None?) ==>
      z.table == map[] && z.proxies == map[]
  {
    Safety(z);
    if forall t :: t in z.threads ==> Use(z.threads[t]).None? {
      forall p ensures p !in z.proxies {
        Unused(z.proxies, z.threads, p);
      }
      forall a ensures a !in z.table {
        if a in z.table {
          Housed(z.table, z.proxies, a);
        }
      }
    }
  }

  lemma NotifyLeavesOthers(s: State, a: Action, u: Tid)
    requires Enabled(s, a) && s.threads[a.t].Notifier? && Good(s.backend, s.proxies, s.threads[a.t])
    requires u in s.threads && Good(s.backend, s.proxies, s.threads[u])
    requires s.threads[u].Waiter? && s.threads[u].addr != s.threads[a.t].target
    ensures Apply(s, a).threads[u] == s.threads[u]
    ensures Use(s.threads[u]).Some? ==>
      var p := s.threads[u].item.value;
      p in s.proxies && p in Apply(s, a).proxies && Apply(s, a).proxies[p] == s.proxies[p]
  {
    Others(s, a, u);
  }

  /** The steps of a notify on one object leave every waiter on another object, and the proxy that
      waiter is registered on, exactly as they were. */
  lemma Isolation(z: State, a: Action, u: Tid)
    requires Reachable(z)
    requires Enabled(z, a) && z.threads[a.t].Notifier?
    requires u in z.threads && z.threads[u].Waiter?
    requires z.threads[u].addr != z.threads[a.t].target
    ensures Apply(z, a).threads[u] == z.threads[u]
    ensures Use(z.threads[u]).Some? ==>
      var p := z.threads[u].item.value;
      p in z.proxies && p in Apply(z, a).proxies && Apply(z, a).proxies[p] == z.proxies[p]
  {
    Safety(z);
    NotifyLeavesOthers(z, a, u);
  }

  lemma FreshPid(used: set<Pid>) returns (p: Pid)
    ensures forall q :: q in used ==> q < p
  {
    if used == {} {
      p := 0;
    } else {
      var q :| q in used;
      var r := FreshPid(used - {q});
      assert forall x :: x in used ==> x == q || x in used - {q};
      p := if q < r then r else q + 1;
    }
  }

  /** No deadlock: whoever holds the table lock can take a step of its own, or waits only for a
      proxy mutex whose holder can, and that holder is not after the table lock. */
  lemma NoDeadlock(z: State, t: Tid) returns (a: Action)
    requires Reachable(z) && z.lock == Some(t)
    ensures t in z.threads && Enabled(z, a) && !a.Spin? && !WantsTable(z.threads[a.t])
    ensures a.t == t || (WantsMutex(z.threads[t]) && At(z, ItemOf(z.threads[t])).mutex == Some(a.t))
  {
    Safety(z);
    var th := z.threads[t];
    assert HoldsTable(th);
    if th.Waiter? {
      var node := FreshPid(z.proxies.Keys);
      a := match th.pc
        case Finding => Find(t, true, node)
        case Capturing => Capture(t)
        case Rechecking => Recheck(t)
        case Releasing => Release(t)
        case Leaving => Action.Leave(t)
        case _ => Finish(t);
    } else if th.at.WantProxy? && At(z, ItemOf(th)).mutex.Some? {
      var u := At(z, ItemOf(th)).mutex.value;
      assert HoldsMutex(z.threads[u]);
      a := if z.threads[u].Notifier? then Deposit(u, BlockedOn(z, ItemOf(z.threads[u])))
           else if z.threads[u].pc.Entering? then Enter(u) else Resume(u);
    } else {
      a := match th.at
        case LookingUp => LookUp(t)
        case Bumping => Bump(t)
        case Waking => KernelWake(t, SleepersOn(z, ItemOf(th)))
        case WantProxy => TakeMutex(t)
        case Depositing => Deposit(t, BlockedOn(z, ItemOf(th)))
        case _ => Finish(t);
    }
  }

  /** A waiter that is not suspended always has a step of its own to take; only a lock held by another
      thread can make that step a spin. */
  lemma NeverStuck(z: State, t: Tid) returns (a: Action)
    requires Reachable(z) && t in z.threads && z.threads[t].Waiter?
    requires !z.threads[t].pc.Asleep? && !z.threads[t].pc.Blocked?
    ensures Enabled(z, a) && a.t == t
    ensures a.Spin? ==> (WantsTable(z.threads[t]) && z.lock.Some? && z.lock != Some(t)) ||
                        (WantsMutex(z.threads[t]) && At(z, ItemOf(z.threads[t])).mutex !in {None, Some(t)})
  {
    Safety(z);
    var th := z.threads[t];
    var free := if WantsTable(th) then z.lock.None? else At(z, ItemOf(th)).mutex.None?;
    var node := FreshPid(z.proxies.Keys);
    a := match th.pc
      case Top => LoadTop(t)
      case WantTable => if free then TakeTable(t) else Spin(t)
      case Finding => Find(t, true, node)
      case Capturing => Capture(t)
      case Rechecking => Recheck(t)
      case Releasing => Release(t)
      case Checking => Check(t, false)
      case Parking => Park(t, 0)
      case WantMutex => if free then TakeMutex(t) else Spin(t)
      case Entering => Enter(t)
      case Reacquiring(_) => if free then TakeMutex(t) else Spin(t)
      case Resuming(_) => Resume(t)
      case Returned(_) => AfterWait(t)
      case Recapturing => Recapture(t)
      case WantTail => if free then TakeTable(t) else Spin(t)
      case Leaving => Action.Leave(t)
      case _ => Finish(t);
  }
}
