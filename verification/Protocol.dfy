/** The wait/notify protocol as a transition system: any number of threads, any number of atomic
    objects, one table lock, and one proxy per object that is being waited on.

    Each action is one step of one thread between two points where another thread may interfere.
    A body that runs under a lock which every other reader and writer of the same data also takes
    is one step; loads and stores of the object, and of the generation counter, are steps of
    their own because they are not covered by any lock. Memory is sequentially consistent. */
module Protocol {
  import opened Common
  import opened TokenRules

  type Val = int
  type Tid = nat
  type Pid = nat
  type Memory = map<Addr, Val>

  /** How a proxy parks a waiter: on a generation counter with a kernel compare-and-sleep, or on a
      pthreads mutex, condition variable and token count. */
  datatype Backend = Generations | Tokens

  /** A proxy on the heap. `gen` counts every bump ever made; the 32-bit counter of the program is
      `gen % TWO_32`. `owner` is the key of the bucket that holds the proxy. */
  datatype Proxy = Proxy(owner: Addr, useCount: int, gen: nat, mutex: Option<Tid>, tokens: Counters)

  datatype WaitPc =
    | Top                     // about to load the object
    | WantTable               // spinning for the table lock, not registered yet
    | Finding                 // table lock held: find_or_create
    | Capturing               // table lock held, registered: read the generation
    | Rechecking              // table lock held: load the object again
    | Releasing               // table lock held: unlock, then enter the wait cycle
    | Checking                // read the clock
    | Parking                 // kernel compare-and-sleep, counter passed by value
    | Asleep                  // suspended in the kernel
    | WantMutex               // pthread_proxy_wait: lock the proxy mutex
    | Entering                // proxy mutex held: token or park
    | Blocked                 // in pthread_cond_wait, mutex released
    | Reacquiring(why: int)   // condvar wait over, mutex not yet regained
    | Resuming(result: int)   // proxy mutex held again inside the condvar loop
    | Returned(res: int)      // the backend wait returned
    | Recapturing             // read the generation again
    | WantTail                // spinning for the table lock to deregister
    | Leaving                 // table lock held: drop the use count
    | Unlocking               // table lock held: unlock and return

  datatype NotifyPc =
    | WantLock                // spinning for the table lock
    | LookingUp               // table lock held
    | Bumping                 // table lock held: increment the generation
    | Waking                  // table lock held: kernel wake
    | WantProxy               // table lock held: lock the proxy mutex
    | Depositing              // both held: queue tokens, signal or broadcast
    | Done                    // table lock held: unlock and return

  datatype Thread =
    | Idle(last: int)
    | Waiter(pc: WaitPc, addr: Addr, exp: Val, timed: bool, item: Option<Pid>, cap: nat, ret: int)
    | Notifier(at: NotifyPc, target: Addr, max: nat, stored: bool, found: Option<Pid>)

  datatype State = State(
    backend: Backend,
    mem: Memory,
    lock: Option<Tid>,
    table: map<Addr, Pid>,
    proxies: map<Pid, Proxy>,
    threads: map<Tid, Thread>)

  datatype Action =
    | BeginWait(t: Tid, addr: Addr, exp: Val, timed: bool)
    | LoadTop(t: Tid)
    | TakeTable(t: Tid)
    | Spin(t: Tid)
    | Find(t: Tid, ok: bool, node: Pid)
    | Capture(t: Tid)
    | Recheck(t: Tid)
    | Release(t: Tid)
    | Check(t: Tid, expired: bool)
    | Park(t: Tid, err: int)
    | KernelReturn(t: Tid, res: int)
    | TakeMutex(t: Tid)
    | Enter(t: Tid)
    | CondReturn(t: Tid, why: int)
    | Resume(t: Tid)
    | AfterWait(t: Tid)
    | Recapture(t: Tid)
    | Leave(t: Tid)
    | Finish(t: Tid)
    | StoreAll(t: Tid, addr: Addr, val: Val)
    | BeginNotify(t: Tid, addr: Addr, max: nat)
    | LookUp(t: Tid)
    | Bump(t: Tid)
    | KernelWake(t: Tid, woken: set<Tid>)
    | Deposit(t: Tid, woken: set<Tid>)

  // ---------------------------------------------------------------- reading the state

  function Read(mem: Memory, a: Addr): Val {
    if a in mem then mem[a] else 0
  }

  function Load(s: State, a: Addr): Val {
    Read(s.mem, a)
  }

  /** The proxy behind a pointer. A pointer to a freed proxy reads as an arbitrary record; that no
      action follows such a pointer is a theorem, not a guard. */
  function At(s: State, p: Pid): Proxy {
    Deref(s.proxies, p)
  }

  function Deref(heap: map<Pid, Proxy>, p: Pid): Proxy {
    if p in heap then heap[p] else Proxy(0, 0, 0, None, Counters(0, 0))
  }

  function ItemOf(th: Thread): Pid {
    match th
    case Waiter(_, _, _, _, Some(p), _, _) => p
    case Notifier(_, _, _, _, Some(p)) => p
    case _ => 0
  }

  predicate IsWaiter(s: State, t: Tid, pc: WaitPc) {
    t in s.threads && s.threads[t].Waiter? && s.threads[t].pc == pc
  }

  predicate IsNotifier(s: State, t: Tid, at: NotifyPc) {
    t in s.threads && s.threads[t].Notifier? && s.threads[t].at == at
  }

  predicate IsIdle(s: State, t: Tid) {
    t in s.threads && s.threads[t].Idle?
  }

  /** Spinning for the table lock. */
  predicate WantsTable(th: Thread) {
    match th
    case Waiter(pc, _, _, _, _, _, _) => pc.WantTable? || pc.WantTail?
    case Notifier(at, _, _, _, _) => at.WantLock?
    case Idle(_) => false
  }

  /** Blocked on, or about to lock, a proxy mutex. */
  predicate WantsMutex(th: Thread) {
    match th
    case Waiter(pc, _, _, _, _, _, _) => pc.WantMutex? || pc.Reacquiring?
    case Notifier(at, _, _, _, _) => at.WantProxy?
    case Idle(_) => false
  }

  function SleepersOn(s: State, p: Pid): set<Tid> {
    set t | t in s.threads && s.threads[t].Waiter? && s.threads[t].pc.Asleep? && s.threads[t].item == Some(p)
  }

  function BlockedOn(s: State, p: Pid): set<Tid> {
    set t | t in s.threads && s.threads[t].Waiter? && s.threads[t].pc.Blocked? && s.threads[t].item == Some(p)
  }

  // ---------------------------------------------------------------- changing the state

  function Move(s: State, t: Tid, th: Thread): State {
    s.(threads := s.threads[t := th])
  }

  function SetProxy(s: State, p: Pid, x: Proxy): State {
    s.(proxies := s.proxies[p := x])
  }

  function Awoken(th: Thread): Thread {
    if th.Waiter? && th.pc.Asleep? then th.(pc := Returned(0))
    else if th.Waiter? && th.pc.Blocked? then th.(pc := Reacquiring(0))
    else th
  }

  /** The kernel, or the condition variable, releases the suspended threads in `woken`. */
  function WakeThreads(s: State, woken: set<Tid>): State {
    s.(threads := map t | t in s.threads :: if t in woken then Awoken(s.threads[t]) else s.threads[t])
  }

  function TopNext(th: Thread, v: Val): Thread
    requires th.Waiter?
  {
    if v != th.exp then
      if th.item.None? then Idle(th.ret) else th.(pc := WantTail)
    else
      th.(pc := if th.item.None? then WantTable else Checking)
  }

  function WithTable(th: Thread): Thread {
    match th
    case Waiter(pc, _, _, _, _, _, _) => th.(pc := if pc.WantTable? then Finding else Leaving)
    case Notifier(_, _, _, _, _) => th.(at := LookingUp)
    case Idle(_) => th
  }

  function DoTakeTable(s: State, t: Tid): State
    requires t in s.threads
  {
    Move(s, t, WithTable(s.threads[t])).(lock := Some(t))
  }

  /** find_or_create with `increment_use_count`: a refusal (no memory, or the table is full) leaves
      the table alone; otherwise the proxy of the object gains a use, and is created if absent. */
  function DoFind(s: State, t: Tid, ok: bool, node: Pid): State
    requires IsWaiter(s, t, Finding)
  {
    var th := s.threads[t];
    if !ok then
      Move(s, t, th.(pc := Unlocking, ret := -1))
    else if th.addr in s.table then
      var p := s.table[th.addr];
      SetProxy(Move(s, t, th.(pc := Capturing, item := Some(p))), p, At(s, p).(useCount := At(s, p).useCount + 1))
    else
      SetProxy(Move(s, t, th.(pc := Capturing, item := Some(node))), node, NewProxy(th.addr))
        .(table := s.table[th.addr := node])
  }

  function NewProxy(a: Addr): Proxy {
    Proxy(a, 1, 0, None, Counters(0, 0))
  }

  function CaptureNext(th: Thread, gen: nat): Thread
    requires th.Waiter?
  {
    th.(pc := Rechecking, cap := gen)
  }

  function RecheckNext(th: Thread, v: Val): Thread
    requires th.Waiter?
  {
    th.(pc := if v != th.exp then Leaving else Releasing)
  }

  function DoRelease(s: State, t: Tid): State
    requires IsWaiter(s, t, Releasing)
  {
    Move(s, t, s.threads[t].(pc := Checking, ret := 1)).(lock := None)
  }

  function CheckNext(b: Backend, th: Thread, expired: bool): Thread
    requires th.Waiter?
  {
    if expired then th.(pc := WantTail, ret := 0)
    else th.(pc := if b.Generations? then Parking else WantMutex)
  }

  /** The kernel compares the 32-bit counter with the captured value and sleeps only if equal; it
      may also fail outright with `err`. */
  function ParkNext(th: Thread, gen: nat, err: int): Thread
    requires th.Waiter?
  {
    var same := th.cap % TWO_32 == gen % TWO_32;
    th.(pc := if err != 0 then Returned(-err) else if same then Asleep else Returned(-EAGAIN))
  }

  function WithMutex(th: Thread): Thread {
    match th
    case Waiter(pc, _, _, _, _, _, _) => th.(pc := if pc.Reacquiring? then Resuming(pc.why) else Entering)
    case Notifier(_, _, _, _, _) => th.(at := Depositing)
    case Idle(_) => th
  }

  function DoTakeMutex(s: State, t: Tid): State
    requires t in s.threads
  {
    var p := ItemOf(s.threads[t]);
    SetProxy(Move(s, t, WithMutex(s.threads[t])), p, At(s, p).(mutex := Some(t)))
  }

  function After(th: Thread, next: Next): Thread
    requires th.Waiter?
  {
    th.(pc := if next.Leave? then Returned(next.res) else Blocked)
  }

  /** Ends a critical section of a proxy mutex: new counters, mutex released, thread moves on. */
  function DropMutex(s: State, t: Tid, th: Thread, p: Pid, c: Counters): State {
    SetProxy(Move(s, t, th), p, At(s, p).(mutex := None, tokens := c))
  }

  function DoEnter(s: State, t: Tid): State
    requires IsWaiter(s, t, Entering)
  {
    var th := s.threads[t];
    var (c, next) := EnterRule(At(s, ItemOf(th)).tokens);
    DropMutex(s, t, After(th, next), ItemOf(th), c)
  }

  predicate IsResuming(s: State, t: Tid) {
    t in s.threads && s.threads[t].Waiter? && s.threads[t].pc.Resuming?
  }

  function DoResume(s: State, t: Tid): State
    requires IsResuming(s, t)
  {
    var th := s.threads[t];
    var (c, next) := ResumeRule(At(s, ItemOf(th)).tokens, th.pc.result);
    DropMutex(s, t, After(th, next), ItemOf(th), c)
  }

  predicate IsReturned(s: State, t: Tid) {
    t in s.threads && s.threads[t].Waiter? && s.threads[t].pc.Returned?
  }

  function AfterWaitNext(th: Thread): Thread
    requires th.Waiter? && th.pc.Returned?
  {
    if HardError(th.pc.res) then th.(pc := WantTail, ret := -1) else th.(pc := Recapturing)
  }

  function RecaptureNext(th: Thread, gen: nat): Thread
    requires th.Waiter?
  {
    th.(pc := Top, cap := gen)
  }

  /** The common tail: drop the use count, and free the proxy with its last user. */
  function DoLeave(s: State, t: Tid): State
    requires IsWaiter(s, t, Leaving)
  {
    var th := s.threads[t];
    var p := ItemOf(th);
    var s1 := Move(s, t, th.(pc := Unlocking, item := None));
    if At(s, p).useCount - 1 == 0 then s1.(table := s.table - {th.addr}, proxies := s.proxies - {p})
    else SetProxy(s1, p, At(s, p).(useCount := At(s, p).useCount - 1))
  }

  function FinishNext(th: Thread): Thread {
    Idle(if th.Waiter? then th.ret else 0)
  }

  function DoFinish(s: State, t: Tid): State
    requires t in s.threads
  {
    Move(s, t, FinishNext(s.threads[t])).(lock := None)
  }

  /** A store of `val`, after which the same thread runs notify_all on the object. */
  function DoStoreAll(s: State, t: Tid, addr: Addr, val: Val): State {
    Move(s, t, Notifier(WantLock, addr, WAKE_ALL, true, None)).(mem := s.mem[addr := val])
  }

  function LookUpNext(b: Backend, table: map<Addr, Pid>, th: Thread): Thread
    requires th.Notifier?
  {
    if th.target in table then
      th.(at := if b.Generations? then Bumping else WantProxy, found := Some(table[th.target]))
    else th.(at := Done)
  }

  function DoBump(s: State, t: Tid): State
    requires IsNotifier(s, t, Bumping)
  {
    var p := ItemOf(s.threads[t]);
    SetProxy(Move(s, t, s.threads[t].(at := Waking)), p, At(s, p).(gen := At(s, p).gen + 1))
  }

  function DoKernelWake(s: State, t: Tid, woken: set<Tid>): State
    requires IsNotifier(s, t, Waking)
  {
    Move(WakeThreads(s, woken), t, s.threads[t].(at := Done, found := None))
  }

  function DoDeposit(s: State, t: Tid, woken: set<Tid>): State
    requires IsNotifier(s, t, Depositing)
  {
    var th := s.threads[t];
    var p := ItemOf(th);
    var c := At(s, p).tokens;
    DropMutex(WakeThreads(s, woken), t, th.(at := Done, found := None), p,
              c.(pending := DepositRule(c.pending, th.max, At(s, p).useCount)))
  }

  // ---------------------------------------------------------------- the transition relation

  predicate Enabled(s: State, a: Action) {
    match a
    case BeginWait(t, _, _, _) => IsIdle(s, t)
    case LoadTop(t) => IsWaiter(s, t, Top)
    case TakeTable(t) => t in s.threads && WantsTable(s.threads[t]) && s.lock.None?
    case Spin(t) => t in s.threads && ((WantsTable(s.threads[t]) && s.lock.Some?) ||
      (WantsMutex(s.threads[t]) && At(s, ItemOf(s.threads[t])).mutex.Some?))
    case Find(t, _, node) => IsWaiter(s, t, Finding) && node !in s.proxies
    case Capture(t) => IsWaiter(s, t, Capturing)
    case Recheck(t) => IsWaiter(s, t, Rechecking)
    case Release(t) => IsWaiter(s, t, Releasing)
    case Check(t, expired) => IsWaiter(s, t, Checking) && (expired ==> s.threads[t].timed)
    case Park(t, err) => IsWaiter(s, t, Parking) && err >= 0
    case KernelReturn(t, _) => IsWaiter(s, t, Asleep)
    case TakeMutex(t) => t in s.threads && WantsMutex(s.threads[t]) && At(s, ItemOf(s.threads[t])).mutex.None?
    case Enter(t) => IsWaiter(s, t, Entering)
    case CondReturn(t, why) => IsWaiter(s, t, Blocked) && why >= 0 && (why == ETIMEDOUT ==> s.threads[t].timed)
    case Resume(t) => IsResuming(s, t)
    case AfterWait(t) => IsReturned(s, t)
    case Recapture(t) => IsWaiter(s, t, Recapturing)
    case Leave(t) => IsWaiter(s, t, Leaving)
    case Finish(t) => IsWaiter(s, t, Unlocking) || IsNotifier(s, t, Done)
    case StoreAll(t, _, _) => IsIdle(s, t)
    case BeginNotify(t, _, _) => IsIdle(s, t)
    case LookUp(t) => IsNotifier(s, t, LookingUp)
    case Bump(t) => IsNotifier(s, t, Bumping)
    case KernelWake(t, woken) => IsNotifier(s, t, Waking) && KernelWakes(s, t, woken)
    case Deposit(t, woken) => IsNotifier(s, t, Depositing) && CondWakes(s, t, woken)
  }

  /** A kernel wake releases sleepers of that one counter: all of them for a wake-all, and for any other request
      at least one if there is one. */
  predicate KernelWakes(s: State, t: Tid, woken: set<Tid>)
    requires IsNotifier(s, t, Waking)
  {
    var sleepers := SleepersOn(s, ItemOf(s.threads[t]));
    && woken <= sleepers && (s.threads[t].max == WAKE_ALL ==> woken == sleepers)
    && (s.threads[t].max >= 1 && sleepers != {} ==> woken != {})
  }

  /** pthread_cond_signal releases at least one blocked thread, pthread_cond_broadcast all. */
  predicate CondWakes(s: State, t: Tid, woken: set<Tid>)
    requires IsNotifier(s, t, Depositing)
  {
    var blocked := BlockedOn(s, ItemOf(s.threads[t]));
    if s.threads[t].max == 1 then woken <= blocked && (blocked != {} ==> woken != {}) else woken == blocked
  }

  /** Actions that change nothing but the acting thread. */
  predicate IsLocal(a: Action) {
    a.BeginWait? || a.LoadTop? || a.Capture? || a.Recheck? || a.Check? || a.Park? || a.KernelReturn? ||
    a.CondReturn? || a.AfterWait? || a.Recapture? || a.BeginNotify? || a.LookUp?
  }

  function LocalNext(s: State, a: Action): Thread
    requires IsLocal(a) && Enabled(s, a)
  {
    var th := s.threads[a.t];
    match a
    case BeginWait(_, addr, exp, timed) => Waiter(Top, addr, exp, timed, None, 0, 0)
    case LoadTop(_) => TopNext(th, Load(s, th.addr))
    case Capture(_) => CaptureNext(th, At(s, ItemOf(th)).gen)
    case Recheck(_) => RecheckNext(th, Load(s, th.addr))
    case Check(_, expired) => CheckNext(s.backend, th, expired)
    case Park(_, err) => ParkNext(th, At(s, ItemOf(th)).gen, err)
    case KernelReturn(_, res) => th.(pc := Returned(res))
    case CondReturn(_, why) => th.(pc := Reacquiring(why))
    case AfterWait(_) => AfterWaitNext(th)
    case Recapture(_) => RecaptureNext(th, At(s, ItemOf(th)).gen)
    case BeginNotify(_, addr, max) => Notifier(WantLock, addr, max, false, None)
    case LookUp(_) => LookUpNext(s.backend, s.table, th)
  }

  function Apply(s: State, a: Action): State
    requires Enabled(s, a)
  {
    if IsLocal(a) then Move(s, a.t, LocalNext(s, a)) else
    match a
    case TakeTable(t) => DoTakeTable(s, t)
    case Spin(t) => s
    case Find(t, ok, node) => DoFind(s, t, ok, node)
    case Release(t) => DoRelease(s, t)
    case TakeMutex(t) => DoTakeMutex(s, t)
    case Enter(t) => DoEnter(s, t)
    case Resume(t) => DoResume(s, t)
    case Leave(t) => DoLeave(s, t)
    case Finish(t) => DoFinish(s, t)
    case StoreAll(t, addr, val) => DoStoreAll(s, t, addr, val)
    case Bump(t) => DoBump(s, t)
    case KernelWake(t, woken) => DoKernelWake(s, t, woken)
    case Deposit(t, woken) => DoDeposit(s, t, woken)
  }

  /** What an action of one thread does to another: nothing, unless it wakes it. */
  function OtherNext(a: Action, u: Tid, th: Thread): Thread {
    if (a.KernelWake? || a.Deposit?) && u in a.woken then Awoken(th) else th
  }

  lemma OthersHeld(s: State, a: Action, u: Tid)
    requires Enabled(s, a) && !IsLocal(a) && !a.KernelWake? && !a.Deposit? && u in s.threads && u != a.t
    ensures u in Apply(s, a).threads && Apply(s, a).threads[u] == s.threads[u]
  {
  }

  lemma Others(s: State, a: Action, u: Tid)
    requires Enabled(s, a) && u in s.threads && u != a.t
    ensures u in Apply(s, a).threads && Apply(s, a).threads[u] == OtherNext(a, u, s.threads[u])
  {
    if !IsLocal(a) && !a.KernelWake? && !a.Deposit? {
      OthersHeld(s, a, u);
    }
  }

  /** Nobody is inside a call, the lock is clear and the table is empty. */
  predicate Init(s: State) {
    s.lock.None? && s.table == map[] && s.proxies == map[] && forall t :: t in s.threads ==> s.threads[t].Idle?
  }

  predicate Runs(s: State, acts: seq<Action>)
    decreases |acts|
  {
    acts == [] || (Enabled(s, acts[0]) && Runs(Apply(s, acts[0]), acts[1..]))
  }

  function Exec(s: State, acts: seq<Action>): State
    requires Runs(s, acts)
    decreases |acts|
  {
    if acts == [] then s else Exec(Apply(s, acts[0]), acts[1..])
  }
}
