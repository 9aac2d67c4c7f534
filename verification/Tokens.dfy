/** The pthreads backend: wake tokens are conserved, spinning on them is bounded, and a wake-all
    reaches every waiter that shares the expected value. */
module Tokens {
  import opened Common
  import opened TokenRules
  import opened Protocol
  import opened Registry
  import opened Generations

  // ---------------------------------------------------------------- coverage

  /** Registered on `p` for value `e`, and parked or heading for the park. */
  predicate Heads(th: Thread, p: Pid, e: Val) {
    th.Waiter? && th.item == Some(p) && th.exp == e &&
    (th.pc.Releasing? || th.pc.Checking? || th.pc.WantMutex? || th.pc.Entering? || th.pc.Blocked? ||
     th.pc.Reacquiring? || th.pc.Resuming?)
  }

  ghost function HeaderTo(p: Pid, e: Val): Thread -> bool {
    (th: Thread) => Heads(th, p, e)
  }

  /** Nobody registered on the object for value `e` is blocked on its condition variable. */
  ghost predicate NoneBlocked(ths: Threads, a: Addr, e: Val) {
    forall t {:trigger Use(ths[t])} ::
      t in ths && Use(ths[t]).Some? && ths[t].addr == a && ths[t].exp == e ==> !ths[t].pc.Blocked?
  }

  /** There is a token for every waiter for `e` that is parked or heading for the park. */
  ghost predicate Covered(table: map<Addr, Pid>, heap: Heap, ths: Threads, a: Addr, e: Val) {
    && NoneBlocked(ths, a, e)
    && (a in table && table[a] in heap ==> heap[table[a]].tokens.pending >= |Those(ths, HeaderTo(table[a], e))|)
  }

  /** The action is a pthread_proxy_wait on `p` taking a token and returning success. */
  predicate Takes(s: State, x: Action, p: Pid)
    requires Enabled(s, x)
  {
    && (x.Enter? || (x.Resume? && s.threads[x.t].pc.result == 0))
    && ItemOf(s.threads[x.t]) == p && Pending(s, p) > 0
  }

  function Pending(s: State, p: Pid): int {
    At(s, p).tokens.pending
  }

  /** The action is not a waiter for another value taking a token of object `a`. */
  predicate Honest(s: State, x: Action, a: Addr, e: Val)
    requires Enabled(s, x)
  {
    a in s.table && Takes(s, x, s.table[a]) ==> s.threads[x.t].exp == e
  }

  /** A waiter for another value takes a token only while there are more of them than waiters for `e` that
      are parked or heading for the park. */
  ghost predicate Spares(s: State, x: Action, a: Addr, e: Val)
    requires Enabled(s, x)
  {
    Honest(s, x, a, e) || (a in s.table && Pending(s, s.table[a]) > |Those(s.threads, HeaderTo(s.table[a], e))|)
  }

  /** Everyone registered on the object waits for `e`. */
  ghost predicate OnlyFor(ths: Threads, a: Addr, e: Val) {
    forall t {:trigger Use(ths[t])} :: t in ths && Use(ths[t]).Some? && ths[t].addr == a ==> ths[t].exp == e
  }

  /** When everyone registered on the object waits for the same value, every action is honest. */
  lemma SameValueIsHonest(s: State, x: Action, a: Addr, e: Val)
    requires Inv(s) && Enabled(s, x)
    requires OnlyFor(s.threads, a, e)
    ensures Honest(s, x, a, e)
  {
    if a in s.table && Takes(s, x, s.table[a]) {
      assert Good(s.backend, s.proxies, s.threads[x.t]);
      OtherProxy(s, x.t, a);
      assert Use(s.threads[x.t]).Some?;
    }
  }

  lemma HeadersAreUsers(heap: Heap, ths: Threads, p: Pid, e: Val)
    requires CountOK(heap, ths) && p in heap
    ensures |Those(ths, HeaderTo(p, e))| <= heap[p].useCount
  {
    assert Those(ths, HeaderTo(p, e)) <= Those(ths, UserOf(p));
    SubsetCard(Those(ths, HeaderTo(p, e)), Those(ths, UserOf(p)));
  }

  /** A move that sends nobody towards the park needs no new token. */
  lemma CoverMove(table: map<Addr, Pid>, heap: Heap, ths: Threads, t: Tid, th: Thread, a: Addr, e: Val)
    requires Covered(table, heap, ths, a, e) && t in ths
    requires a in table && Heads(th, table[a], e) ==> Heads(ths[t], table[a], e)
    requires Use(th).Some? && th.addr == a && th.exp == e ==> !th.pc.Blocked?
    ensures Covered(table, heap, ths[t := th], a, e)
  {
    if a in table {
      ThoseMove(ths, t, th, HeaderTo(table[a], e));
    }
  }

  lemma CoverHeap(table: map<Addr, Pid>, heap: Heap, heap': Heap, ths: Threads, a: Addr, e: Val)
    requires Covered(table, heap, ths, a, e)
    requires a in table && table[a] in heap' ==>
      table[a] in heap && heap'[table[a]].tokens.pending >= heap[table[a]].tokens.pending
    ensures Covered(table, heap', ths, a, e)
  {
  }

  /** Waiters on other objects hold other proxies. */
  lemma OtherProxy(s: State, t: Tid, a: Addr)
    requires Inv(s) && t in s.threads && Use(s.threads[t]).Some? && a in s.table
    ensures s.threads[t].addr == a <==> s.threads[t].item == Some(s.table[a])
  {
    assert Good(s.backend, s.proxies, s.threads[t]);
    assert s.proxies[s.threads[t].item.value].owner == s.threads[t].addr;
  }

  ghost predicate Calm(s: State, a: Addr, e: Val) {
    && Inv(s) && s.backend.Tokens? && Load(s, a) != e
    && Covered(s.table, s.proxies, s.threads, a, e)
  }

  /** The two loads of the wait loop turn a waiter on a changed object away from the park. */
  lemma LoadsTurnAway(th: Thread, v: Val, gen: nat, p: Pid, e: Val)
    requires th.Waiter? && (th.item == Some(p) ==> v != e)
    ensures th.pc.Top? ==> !Heads(TopNext(th, v), p, e)
    ensures th.pc.Rechecking? ==> !Heads(RecheckNext(th, v), p, e)
    ensures !Heads(CaptureNext(th, gen), p, e) && !Heads(RecaptureNext(th, gen), p, e)
  {
  }

  lemma LocalHeads(s: State, x: Action, p: Pid, e: Val)
    requires IsLocal(x) && Enabled(s, x)
    requires var th := s.threads[x.t]; th.Waiter? && th.item == Some(p) ==> Load(s, th.addr) != e
    ensures Heads(LocalNext(s, x), p, e) ==> Heads(s.threads[x.t], p, e)
  {
    var th := s.threads[x.t];
    if th.Waiter? {
      LoadsTurnAway(th, Load(s, th.addr), At(s, ItemOf(th)).gen, p, e);
    }
  }

  lemma LocalBlocks(s: State, x: Action)
    requires IsLocal(x) && Enabled(s, x)
    ensures LocalNext(s, x).Waiter? ==> !LocalNext(s, x).pc.Blocked?
  {
  }

  lemma LocalCover(s: State, x: Action, a: Addr, e: Val)
    requires Calm(s, a, e) && IsLocal(x) && Enabled(s, x)
    ensures Covered(s.table, s.proxies, s.threads[x.t := LocalNext(s, x)], a, e)
  {
    var th := s.threads[x.t];
    LocalBlocks(s, x);
    if a in s.table {
      if Use(th).Some? {
        OtherProxy(s, x.t, a);
      }
      LocalHeads(s, x, s.table[a], e);
    }
    CoverMove(s.table, s.proxies, s.threads, x.t, LocalNext(s, x), a, e);
  }

  lemma CoverTakeTable(s: State, t: Tid, a: Addr, e: Val)
    requires Calm(s, a, e) && Enabled(s, TakeTable(t))
    ensures Covered(s.table, s.proxies, DoTakeTable(s, t).threads, a, e)
  {
    CoverMove(s.table, s.proxies, s.threads, t, WithTable(s.threads[t]), a, e);
  }

  lemma CoverRelease(s: State, t: Tid, a: Addr, e: Val)
    requires Calm(s, a, e) && IsWaiter(s, t, Releasing)
    ensures Covered(s.table, s.proxies, DoRelease(s, t).threads, a, e)
  {
    CoverMove(s.table, s.proxies, s.threads, t, s.threads[t].(pc := Checking, ret := 1), a, e);
  }

  lemma CoverFind(s: State, t: Tid, ok: bool, node: Pid, a: Addr, e: Val)
    requires Calm(s, a, e) && Enabled(s, Find(t, ok, node))
    ensures var s' := DoFind(s, t, ok, node); Covered(s'.table, s'.proxies, s'.threads, a, e)
  {
    var s' := DoFind(s, t, ok, node);
    var th' := s'.threads[t];
    assert Good(s.backend, s.proxies, s.threads[t]);
    CoverMove(s.table, s.proxies, s.threads, t, th', a, e);
    assert s'.threads == s.threads[t := th'];
    if ok && s.threads[t].addr !in s.table && s.threads[t].addr == a {
      NobodyOn(s.backend, s.proxies, s.threads, node);
      ThoseMove(s.threads, t, th', HeaderTo(node, e));
      assert Those(s.threads, HeaderTo(node, e)) <= Those(s.threads, UserOf(node));
    } else {
      assert a in s.table ==> s.table[a] in s.proxies;
    }
  }

  lemma CoverLeave(s: State, t: Tid, a: Addr, e: Val)
    requires Calm(s, a, e) && IsWaiter(s, t, Leaving)
    ensures var s' := DoLeave(s, t); Covered(s'.table, s'.proxies, s'.threads, a, e)
  {
    var th' := s.threads[t].(pc := Unlocking, item := None);
    assert Good(s.backend, s.proxies, s.threads[t]);
    CoverMove(s.table, s.proxies, s.threads, t, th', a, e);
    assert a in s.table ==> s.table[a] in s.proxies;
  }

  lemma CoverFinish(s: State, t: Tid, a: Addr, e: Val)
    requires Calm(s, a, e) && Enabled(s, Finish(t))
    ensures Covered(s.table, s.proxies, DoFinish(s, t).threads, a, e)
  {
    CoverMove(s.table, s.proxies, s.threads, t, FinishNext(s.threads[t]), a, e);
  }

  lemma CoverStore(s: State, t: Tid, addr: Addr, v: Val, a: Addr, e: Val)
    requires Calm(s, a, e) && IsIdle(s, t)
    ensures Covered(s.table, s.proxies, DoStoreAll(s, t, addr, v).threads, a, e)
  {
    CoverMove(s.table, s.proxies, s.threads, t, Notifier(WantLock, addr, WAKE_ALL, true, None), a, e);
  }

  lemma CoverTakeMutex(s: State, t: Tid, a: Addr, e: Val)
    requires Calm(s, a, e) && Enabled(s, TakeMutex(t))
    ensures var s' := DoTakeMutex(s, t); Covered(s'.table, s'.proxies, s'.threads, a, e)
  {
    var th' := WithMutex(s.threads[t]);
    MutexersKeep(s.backend, s.proxies, s.threads[t]);
    CoverMove(s.table, s.proxies, s.threads, t, th', a, e);
    CoverHeap(s.table, s.proxies, DoTakeMutex(s, t).proxies, s.threads[t := th'], a, e);
  }

  /** A covered waiter that is counted finds a token. */
  lemma TokenWaits(s: State, t: Tid, a: Addr, e: Val)
    requires Inv(s) && Covered(s.table, s.proxies, s.threads, a, e) && t in s.threads
    requires s.threads[t].Waiter? && s.threads[t].addr == a && s.threads[t].item.Some? &&
      Heads(s.threads[t], s.threads[t].item.value, e)
    ensures At(s, ItemOf(s.threads[t])).tokens.pending >= 1
  {
    var p := s.threads[t].item.value;
    assert Good(s.backend, s.proxies, s.threads[t]);
    assert s.proxies[p].owner == a;
    assert t in Those(s.threads, HeaderTo(p, e));
  }

  /** The end of a critical section: a waiter for `e` leaves with or without a token; any other waiter
      on the object leaves enough. */
  lemma CoverDrop(s: State, t: Tid, th: Thread, c: Counters, a: Addr, e: Val)
    requires Calm(s, a, e) && t in s.threads && s.threads[t].Waiter? && s.threads[t].item.Some?
    requires Heads(s.threads[t], ItemOf(s.threads[t]), s.threads[t].exp) && th.Waiter?
    requires th.item == s.threads[t].item && th.addr == s.threads[t].addr && th.exp == s.threads[t].exp
    requires th.addr == a && th.exp == e ==>
      th.pc.Returned? && c.pending >= At(s, ItemOf(s.threads[t])).tokens.pending - 1
    requires th.addr == a && th.exp != e ==> c.pending >= |Those(s.threads, HeaderTo(ItemOf(s.threads[t]), e))|
    ensures var s' := DropMutex(s, t, th, ItemOf(s.threads[t]), c); Covered(s'.table, s'.proxies, s'.threads, a, e)
  {
    var p := ItemOf(s.threads[t]);
    assert Good(s.backend, s.proxies, s.threads[t]);
    if a in s.table {
      OtherProxy(s, t, a);
      ThoseMove(s.threads, t, th, HeaderTo(s.table[a], e));
      assert s.table[a] in s.proxies;
    }
  }

  lemma CoverEnter(s: State, t: Tid, a: Addr, e: Val)
    requires Calm(s, a, e) && IsWaiter(s, t, Entering) && Spares(s, Enter(t), a, e)
    ensures var s' := DoEnter(s, t); Covered(s'.table, s'.proxies, s'.threads, a, e)
  {
    var th := s.threads[t];
    assert Good(s.backend, s.proxies, th);
    var (c, next) := EnterRule(At(s, ItemOf(th)).tokens);
    CurrentItem(s, t);
    if th.addr == a && th.exp == e {
      TokenWaits(s, t, a, e);
    }
    CoverDrop(s, t, After(th, next), c, a, e);
  }

  lemma CoverResume(s: State, t: Tid, a: Addr, e: Val)
    requires Calm(s, a, e) && IsResuming(s, t) && Spares(s, Resume(t), a, e)
    ensures var s' := DoResume(s, t); Covered(s'.table, s'.proxies, s'.threads, a, e)
  {
    var th := s.threads[t];
    assert Good(s.backend, s.proxies, th);
    var (c, next) := ResumeRule(At(s, ItemOf(th)).tokens, th.pc.result);
    CurrentItem(s, t);
    if th.addr == a && th.exp == e {
      TokenWaits(s, t, a, e);
    }
    CoverDrop(s, t, After(th, next), c, a, e);
  }

  lemma CurrentItem(s: State, t: Tid)
    requires Inv(s) && t in s.threads && Use(s.threads[t]).Some?
    ensures s.threads[t].addr in s.table && s.table[s.threads[t].addr] == ItemOf(s.threads[t])
  {
    assert Good(s.backend, s.proxies, s.threads[t]);
    assert s.proxies[s.threads[t].item.value].owner == s.threads[t].addr;
  }

  lemma WakeKeepsHeads(ths: Threads, ths': Threads, p: Pid, e: Val)
    requires ths.Keys == ths'.Keys && forall t :: t in ths ==> ths'[t] == ths[t] || ths'[t] == Awoken(ths[t])
    ensures Those(ths, HeaderTo(p, e)) == Those(ths', HeaderTo(p, e))
  {
    ThoseSame(ths, ths', HeaderTo(p, e));
  }

  /** A later wake, of any size, never takes away a token that somebody needs. */
  lemma DepositTokens(s: State, t: Tid, woken: set<Tid>, p: Pid, e: Val)
    requires Inv(s) && Enabled(s, Deposit(t, woken)) && p in s.proxies
    requires s.proxies[p].tokens.pending >= |Those(s.threads, HeaderTo(p, e))| ||
      (p == ItemOf(s.threads[t]) && s.threads[t].max == WAKE_ALL)
    ensures p in DoDeposit(s, t, woken).proxies
    ensures DoDeposit(s, t, woken).proxies[p].tokens.pending >= |Those(DoDeposit(s, t, woken).threads, HeaderTo(p, e))|
  {
    var s1 := WakeThreads(s, woken);
    WakeKeepsHeads(s.threads, s1.threads, p, e);
    ThoseMove(s1.threads, t, s.threads[t].(at := Done, found := None), HeaderTo(p, e));
    HeadersAreUsers(s.proxies, s.threads, p, e);
    WaitingAt(s.proxies, s.threads, p);
    assert Good(s.backend, s.proxies, s.threads[t]);
    DepositBounds(s.proxies[p].tokens.pending, s.threads[t].max, s.proxies[p].useCount);
  }

  lemma DepositUnblocks(s: State, t: Tid, woken: set<Tid>, a: Addr, e: Val)
    requires Inv(s) && Enabled(s, Deposit(t, woken))
    requires NoneBlocked(s.threads, a, e) || (s.threads[t].target == a && s.threads[t].max == WAKE_ALL)
    ensures NoneBlocked(DoDeposit(s, t, woken).threads, a, e)
  {
    var ths := DoDeposit(s, t, woken).threads;
    assert Good(s.backend, s.proxies, s.threads[t]);
    forall u | u in ths && Use(ths[u]).Some? && ths[u].addr == a && ths[u].exp == e ensures !ths[u].pc.Blocked? {
      assert u != t && Use(s.threads[u]) == Use(ths[u]);
      if s.threads[t].target == a && s.threads[t].max == WAKE_ALL {
        OneProxyPerObject(s, t, u);
        assert s.threads[u].pc.Blocked? ==> u in BlockedOn(s, ItemOf(s.threads[t]));
      }
    }
  }

  lemma CoverDeposit(s: State, t: Tid, woken: set<Tid>, a: Addr, e: Val)
    requires Inv(s) && Enabled(s, Deposit(t, woken))
    requires Covered(s.table, s.proxies, s.threads, a, e) || (s.threads[t].target == a && s.threads[t].max == WAKE_ALL)
    ensures var s' := DoDeposit(s, t, woken); Covered(s'.table, s'.proxies, s'.threads, a, e)
  {
    DepositUnblocks(s, t, woken, a, e);
    if a in s.table {
      var p := s.table[a];
      assert Good(s.backend, s.proxies, s.threads[t]);
      assert s.proxies[ItemOf(s.threads[t])].owner == s.threads[t].target;
      DepositTokens(s, t, woken, p, e);
    }
  }

  lemma CoverStep(s: State, x: Action, a: Addr, e: Val)
    requires Calm(s, a, e) && Enabled(s, x) && Spares(s, x, a, e)
    ensures Covered(Apply(s, x).table, Apply(s, x).proxies, Apply(s, x).threads, a, e)
  {
    assert Good(s.backend, s.proxies, s.threads[x.t]);
    if IsLocal(x) {
      LocalCover(s, x, a, e);
    } else {
      match x
      case TakeTable(t) => CoverTakeTable(s, t, a, e);
      case Find(t, ok, node) => CoverFind(s, t, ok, node, a, e);
      case Release(t) => CoverRelease(s, t, a, e);
      case Leave(t) => CoverLeave(s, t, a, e);
      case Finish(t) => CoverFinish(s, t, a, e);
      case StoreAll(t, addr, val) => CoverStore(s, t, addr, val, a, e);
      case TakeMutex(t) => CoverTakeMutex(s, t, a, e);
      case Enter(t) => CoverEnter(s, t, a, e);
      case Resume(t) => CoverResume(s, t, a, e);
      case Deposit(t, woken) => CoverDeposit(s, t, woken, a, e);
      case _ =>
    }
  }

  /** A waiter for another value that takes the last spare token breaks the coverage. */
  lemma TheftUncovers(s: State, x: Action, a: Addr, e: Val)
    requires Calm(s, a, e) && Enabled(s, x) && !Spares(s, x, a, e)
    ensures !Covered(Apply(s, x).table, Apply(s, x).proxies, Apply(s, x).threads, a, e)
  {
    var p, s' := s.table[a], Apply(s, x);
    assert Good(s.backend, s.proxies, s.threads[x.t]);
    ThoseMove(s.threads, x.t, s'.threads[x.t], HeaderTo(p, e));
    assert s'.threads == s.threads[x.t := s'.threads[x.t]];
    TokenStep(s, x, p);
  }

  // ---------------------------------------------------------------- what coverage means for a waiter

  /** A waiter on the changed object, not blocked. */
  ghost predicate Freed(s: State, t: Tid, a: Addr, e: Val) {
    && t in s.threads && s.threads[t].Waiter?
    && s.threads[t].addr == a && s.threads[t].exp == e && !s.threads[t].pc.Blocked?
  }

  lemma FreedByOthers(s: State, x: Action, t: Tid, a: Addr, e: Val)
    requires Calm(s, a, e) && Freed(s, t, a, e) && Enabled(s, x) && x.t != t
    ensures Freed(Apply(s, x), t, a, e) && Apply(s, x).threads[t] == s.threads[t]
  {
    Others(s, x, t);
    assert Good(s.backend, s.proxies, s.threads[t]);
  }

  /** Closer to returning, and not blocked on the way. */
  ghost predicate Closer(th: Thread, th': Thread) {
    Rank(th') < Rank(th) && (th'.Idle? || (th'.Waiter? && th'.addr == th.addr && th'.exp == th.exp && !th'.pc.Blocked?))
  }

  lemma FreedLocal(s: State, x: Action, a: Addr, e: Val)
    requires Calm(s, a, e) && Freed(s, x.t, a, e) && Enabled(s, x) && IsLocal(x)
    ensures Closer(s.threads[x.t], LocalNext(s, x))
  {
    assert Good(s.backend, s.proxies, s.threads[x.t]);
  }

  lemma FreedToken(s: State, t: Tid, a: Addr, e: Val)
    requires Calm(s, a, e) && Freed(s, t, a, e)
    ensures IsWaiter(s, t, Entering) ==> Closer(s.threads[t], DoEnter(s, t).threads[t])
    ensures IsResuming(s, t) ==> Closer(s.threads[t], DoResume(s, t).threads[t])
  {
    assert Good(s.backend, s.proxies, s.threads[t]);
    if s.threads[t].pc.Entering? || s.threads[t].pc.Resuming? {
      TokenWaits(s, t, a, e);
    }
  }

  lemma LocksCloser(th: Thread)
    requires th.Waiter?
    ensures WantsTable(th) ==> Closer(th, WithTable(th))
    ensures WantsMutex(th) ==> Closer(th, WithMutex(th))
    ensures th.pc.Releasing? ==> Closer(th, th.(pc := Checking, ret := 1))
    ensures th.pc.Unlocking? ==> Closer(th, FinishNext(th))
  {
  }

  lemma RegistersCloser(th: Thread, item: Option<Pid>)
    requires th.Waiter?
    ensures th.pc.Finding? ==>
      Closer(th, th.(pc := Capturing, item := item)) && Closer(th, th.(pc := Unlocking, ret := -1))
    ensures th.pc.Leaving? ==> Closer(th, th.(pc := Unlocking, item := item))
  {
  }

  lemma FreedHeld(s: State, x: Action, a: Addr, e: Val)
    requires Calm(s, a, e) && Freed(s, x.t, a, e) && Enabled(s, x)
    requires x.TakeTable? || x.Find? || x.Release? || x.Leave? || x.Finish? || x.TakeMutex?
    ensures Closer(s.threads[x.t], Apply(s, x).threads[x.t])
  {
    var th := s.threads[x.t];
    LocksCloser(th);
    RegistersCloser(th, None);
    if x.Find? {
      RegistersCloser(th, Some(if th.addr in s.table then s.table[th.addr] else x.node));
    }
  }

  lemma FreedSelf(s: State, x: Action, a: Addr, e: Val)
    requires Calm(s, a, e) && Freed(s, x.t, a, e) && Enabled(s, x)
    ensures if x.Spin? then Apply(s, x) == s else Closer(s.threads[x.t], Apply(s, x).threads[x.t])
  {
    assert Good(s.backend, s.proxies, s.threads[x.t]);
    if IsLocal(x) {
      FreedLocal(s, x, a, e);
    } else if x.Enter? || x.Resume? {
      FreedToken(s, x.t, a, e);
    } else if !x.Spin? {
      FreedHeld(s, x, a, e);
    }
  }

  // ---------------------------------------------------------------- whole runs

  /** Throughout the run the object differs from `e`, and no waiter for another value takes a token that is
      needed. */
  ghost predicate Settled(s: State, acts: seq<Action>, a: Addr, e: Val)
    requires Runs(s, acts)
    decreases |acts|
  {
    Load(s, a) != e && (acts == [] || (Spares(s, acts[0], a, e) && Settled(Apply(s, acts[0]), acts[1..], a, e)))
  }

  lemma CalmStep(s: State, acts: seq<Action>, a: Addr, e: Val)
    requires Calm(s, a, e) && acts != [] && Runs(s, acts) && Settled(s, acts, a, e)
    ensures Calm(Apply(s, acts[0]), a, e) && Settled(Apply(s, acts[0]), acts[1..], a, e)
  {
    Step(s, acts[0]);
    CoverStep(s, acts[0], a, e);
    SameBackend(s, acts[0]);
  }

  /** Coverage lasts: in every later state there is a token for every registered waiter that is
      parked or heading for the park, whatever wakes and timeouts occur. */
  lemma {:induction false} CalmRun(s: State, acts: seq<Action>, a: Addr, e: Val)
    requires Calm(s, a, e) && Runs(s, acts) && Settled(s, acts, a, e)
    ensures Calm(Exec(s, acts), a, e)
    decreases |acts|
  {
    if acts != [] {
      CalmStep(s, acts, a, e);
      CalmRun(Apply(s, acts[0]), acts[1..], a, e);
    }
  }

  lemma {:induction false} FreedRun(s: State, acts: seq<Action>, t: Tid, a: Addr, e: Val)
    requires Calm(s, a, e) && Freed(s, t, a, e) && Runs(s, acts) && Settled(s, acts, a, e)
    ensures HasReturned(s, acts, t) ||
      (Freed(Exec(s, acts), t, a, e) && OwnSteps(acts, t) + Rank(Exec(s, acts).threads[t]) <= Rank(s.threads[t]))
    decreases |acts|
  {
    if acts != [] {
      var x, s' := acts[0], Apply(s, acts[0]);
      CalmStep(s, acts, a, e);
      if x.t == t {
        FreedSelf(s, x, a, e);
      } else {
        FreedByOthers(s, x, t, a, e);
      }
      if !IsIdle(s', t) {
        FreedRun(s', acts[1..], t, a, e);
      }
    }
  }

  lemma FreedBound(s: State, acts: seq<Action>, t: Tid, a: Addr, e: Val)
    requires Calm(s, a, e) && Freed(s, t, a, e) && Runs(s, acts) && Settled(s, acts, a, e)
    ensures HasReturned(s, acts, t) || (OwnSteps(acts, t) < 17 && !IsWaiter(Exec(s, acts), t, Blocked))
  {
    FreedRun(s, acts, t, a, e);
    RankBound(s.threads[t]);
    if Freed(Exec(s, acts), t, a, e) {
      RankBound(Exec(s, acts).threads[t]);
    }
  }

  /** There is a token for every such waiter in every state of the run. */
  ghost predicate CoveredThroughout(s: State, acts: seq<Action>, a: Addr, e: Val)
    requires Runs(s, acts)
    decreases |acts|
  {
    && Covered(s.table, s.proxies, s.threads, a, e)
    && (acts == [] || CoveredThroughout(Apply(s, acts[0]), acts[1..], a, e))
  }

  /** Exactly when coverage lasts: while the object stays different from `e`, every waiter for `e` that is
      parked or heading for the park has a token in every state of the run if and only if no waiter
      for another value takes a token that is needed. */
  lemma {:induction false} CoverageIff(s: State, acts: seq<Action>, a: Addr, e: Val)
    requires Calm(s, a, e) && Runs(s, acts) && StaysChanged(s, acts, a, e)
    ensures CoveredThroughout(s, acts, a, e) <==> Settled(s, acts, a, e)
    decreases |acts|
  {
    if acts != [] {
      var x, s' := acts[0], Apply(s, acts[0]);
      Changes(s, acts, a, e);
      if Spares(s, x, a, e) {
        Step(s, x);
        CoverStep(s, x, a, e);
        SameBackend(s, x);
        CoverageIff(s', acts[1..], a, e);
      } else {
        TheftUncovers(s, x, a, e);
      }
    }
  }

  /** The wake-all of a notifier on the pthreads backend. */
  ghost predicate WakesAll(z: State, t: Tid, woken: set<Tid>, a: Addr) {
    && Reachable(z) && z.backend.Tokens? && Enabled(z, Deposit(t, woken))
    && z.threads[t].target == a && z.threads[t].max == WAKE_ALL
  }

  lemma WakeAllCalms(z: State, t: Tid, woken: set<Tid>, a: Addr, e: Val)
    requires WakesAll(z, t, woken, a) && Load(Apply(z, Deposit(t, woken)), a) != e
    ensures Calm(Apply(z, Deposit(t, woken)), a, e)
  {
    Safety(z);
    Step(z, Deposit(t, woken));
    CoverDeposit(z, t, woken, a, e);
  }

  /** Token coverage: after a wake-all, while the object stays different from `e` and no waiter for
      another value takes a token that is needed, pending never drops below the number of registered waiters for
      `e` that are parked or heading for the park, whatever other wakes and timeouts occur. */
  lemma TokenCoverage(z: State, t: Tid, woken: set<Tid>, acts: seq<Action>, a: Addr, e: Val)
    requires WakesAll(z, t, woken, a)
    requires var s := Apply(z, Deposit(t, woken)); Runs(s, acts) && Settled(s, acts, a, e)
    ensures var y := Exec(Apply(z, Deposit(t, woken)), acts);
      a in y.table ==>
        y.table[a] in y.proxies && y.proxies[y.table[a]].tokens.pending >= |Those(y.threads, HeaderTo(y.table[a], e))|
  {
    WakeAllCalms(z, t, woken, a, e);
    CalmRun(Apply(z, Deposit(t, woken)), acts, a, e);
  }

  /** And so the wake-all reaches every one of them: such a waiter never blocks again, and has returned
      by the time it has taken 17 steps of its own. */
  lemma WakeAllReachesEveryone(z: State, t: Tid, woken: set<Tid>, acts: seq<Action>, a: Addr, e: Val, u: Tid)
    requires WakesAll(z, t, woken, a)
    requires var s := Apply(z, Deposit(t, woken));
      && Runs(s, acts) && Settled(s, acts, a, e)
      && u in s.threads && Use(s.threads[u]).Some? && s.threads[u].addr == a && s.threads[u].exp == e
    ensures var s := Apply(z, Deposit(t, woken));
      HasReturned(s, acts, u) || (OwnSteps(acts, u) < 17 && !IsWaiter(Exec(s, acts), u, Blocked))
  {
    WakeAllCalms(z, t, woken, a, e);
    FreedBound(Apply(z, Deposit(t, woken)), acts, u, a, e);
  }

  /** Throughout the run the object differs from `e` and everyone registered on it waits for `e`. */
  ghost predicate Shared(s: State, acts: seq<Action>, a: Addr, e: Val)
    requires Runs(s, acts)
    decreases |acts|
  {
    && Load(s, a) != e && OnlyFor(s.threads, a, e)
    && (acts == [] || Shared(Apply(s, acts[0]), acts[1..], a, e))
  }

  lemma {:induction false} SharedIsSettled(s: State, acts: seq<Action>, a: Addr, e: Val)
    requires Inv(s) && Runs(s, acts) && Shared(s, acts, a, e)
    ensures Settled(s, acts, a, e)
    decreases |acts|
  {
    if acts != [] {
      SameValueIsHonest(s, acts[0], a, e);
      Step(s, acts[0]);
      SharedIsSettled(Apply(s, acts[0]), acts[1..], a, e);
    }
  }

  /** When all waiters registered on the object wait for the same value, and the object stays different
      from it after a wake-all, each of them is covered in every later state and returns. */
  lemma SameValueWakeAll(z: State, t: Tid, woken: set<Tid>, acts: seq<Action>, a: Addr, e: Val, u: Tid)
    requires WakesAll(z, t, woken, a)
    requires var s := Apply(z, Deposit(t, woken));
      Runs(s, acts) && Shared(s, acts, a, e) && u in s.threads && Use(s.threads[u]).Some? && s.threads[u].addr == a
    ensures var s := Apply(z, Deposit(t, woken)); var y := Exec(s, acts);
      && (a in y.table ==>
        y.table[a] in y.proxies && Pending(y, y.table[a]) >= |Those(y.threads, HeaderTo(y.table[a], e))|)
      && (HasReturned(s, acts, u) || (OwnSteps(acts, u) < 17 && !IsWaiter(y, u, Blocked)))
  {
    Safety(z);
    Step(z, Deposit(t, woken));
    SharedIsSettled(Apply(z, Deposit(t, woken)), acts, a, e);
    TokenCoverage(z, t, woken, acts, a, e);
    WakeAllReachesEveryone(z, t, woken, acts, a, e, u);
  }

  // ---------------------------------------------------------------- no lost wake, in every state

  /** A storer that has changed the object and not yet deposited its tokens. */
  predicate Depositor(th: Thread, a: Addr) {
    th.Notifier? && th.stored && th.max == WAKE_ALL && th.target == a &&
    (th.at.WantLock? || th.at.LookingUp? || th.at.WantProxy? || th.at.Depositing?)
  }

  ghost predicate SomeDepositor(ths: Threads, a: Addr) {
    exists u :: u in ths && Depositor(ths[u], a)
  }

  /** The object still holds `e`, or a storer has yet to deposit, or there is a token for every waiter for `e`
      that is parked or heading for the park. */
  ghost predicate Fed(s: State, a: Addr, e: Val) {
    Load(s, a) == e || SomeDepositor(s.threads, a) || Covered(s.table, s.proxies, s.threads, a, e)
  }

  /** A waiter for another value takes a token that is needed, with no storer left to make up for it. */
  ghost predicate Robs(s: State, x: Action, a: Addr, e: Val)
    requires Enabled(s, x)
  {
    Load(s, a) != e && !SomeDepositor(s.threads, a) && !Spares(s, x, a, e)
  }

  lemma OnlyStoresChange(s: State, x: Action, a: Addr)
    requires Enabled(s, x) && Load(Apply(s, x), a) != Load(s, a)
    ensures x.StoreAll? && x.addr == a
  {
  }

  lemma OtherDepositors(s: State, x: Action, a: Addr, u: Tid)
    requires Enabled(s, x) && u in s.threads && u != x.t
    ensures u in Apply(s, x).threads && (Depositor(Apply(s, x).threads[u], a) <==> Depositor(s.threads[u], a))
  {
    Others(s, x, u);
  }

  /** Without a proxy for the object nobody is registered on it, and nobody needs a token. */
  lemma NobodyToFeed(s: State, ths: Threads, a: Addr, e: Val)
    requires Inv(s) && a !in s.table
    requires forall t {:trigger Use(ths[t])} :: t in ths && Use(ths[t]).Some? ==>
      t in s.threads && s.threads[t] == ths[t]
    ensures Covered(s.table, s.proxies, ths, a, e)
  {
    forall t | t in ths && Use(ths[t]).Some? && ths[t].addr == a ensures false {
      CurrentItem(s, t);
    }
  }

  /** A storer's own step brings it to its deposit, or finds nobody to feed. */
  lemma DepositorSteps(s: State, x: Action, a: Addr, e: Val)
    requires Inv(s) && s.backend.Tokens? && Enabled(s, x) && Depositor(s.threads[x.t], a)
    ensures x.t in Apply(s, x).threads
    ensures Depositor(Apply(s, x).threads[x.t], a) ||
      Covered(Apply(s, x).table, Apply(s, x).proxies, Apply(s, x).threads, a, e)
  {
    assert Good(s.backend, s.proxies, s.threads[x.t]);
    if x.Deposit? {
      CoverDeposit(s, x.t, x.woken, a, e);
    } else if x.LookUp? && a !in s.table {
      NobodyToFeed(s, s.threads[x.t := LookUpNext(s.backend, s.table, s.threads[x.t])], a, e);
    }
  }

  lemma FedStep(s: State, x: Action, a: Addr, e: Val)
    requires Inv(s) && s.backend.Tokens? && Fed(s, a, e) && Enabled(s, x) && !Robs(s, x, a, e)
    ensures Fed(Apply(s, x), a, e)
  {
    var s' := Apply(s, x);
    if Load(s', a) == e {
    } else if Load(s, a) == e {
      OnlyStoresChange(s, x, a);
      assert Depositor(s'.threads[x.t], a);
    } else if SomeDepositor(s.threads, a) {
      var u :| u in s.threads && Depositor(s.threads[u], a);
      if u == x.t {
        DepositorSteps(s, x, a, e);
      } else {
        OtherDepositors(s, x, a, u);
      }
    } else {
      CoverStep(s, x, a, e);
    }
  }

  lemma NoNewDepositor(s: State, x: Action, a: Addr)
    requires Enabled(s, x) && (x.Enter? || x.Resume?) && !SomeDepositor(s.threads, a)
    ensures !SomeDepositor(Apply(s, x).threads, a)
  {
    var ths := Apply(s, x).threads;
    forall u | u in ths ensures !Depositor(ths[u], a) {
      assert u in s.threads;
      if u != x.t {
        OtherDepositors(s, x, a, u);
      }
    }
  }

  /** A robbery starves somebody: right after it the claim is false. */
  lemma RobberyStarves(s: State, x: Action, a: Addr, e: Val)
    requires Inv(s) && s.backend.Tokens? && Fed(s, a, e) && Enabled(s, x) && Robs(s, x, a, e)
    ensures !Fed(Apply(s, x), a, e)
  {
    var s' := Apply(s, x);
    TheftUncovers(s, x, a, e);
    assert Load(s', a) == Load(s, a);
    NoNewDepositor(s, x, a);
  }

  ghost predicate FedThroughout(s: State, acts: seq<Action>, a: Addr, e: Val)
    requires Runs(s, acts)
    decreases |acts|
  {
    Fed(s, a, e) && (acts == [] || FedThroughout(Apply(s, acts[0]), acts[1..], a, e))
  }

  ghost predicate Unrobbed(s: State, acts: seq<Action>, a: Addr, e: Val)
    requires Runs(s, acts)
    decreases |acts|
  {
    acts == [] || (!Robs(s, acts[0], a, e) && Unrobbed(Apply(s, acts[0]), acts[1..], a, e))
  }

  /** Exactly when no wake is lost on pthreads: over any run, with any stores and notifies, every state has the
      object unchanged, or a storer yet to deposit, or a token for every waiter that needs one, if
      and only if no waiter for another value ever takes a needed token that nobody makes up for. */
  lemma {:induction false} FedIff(s: State, acts: seq<Action>, a: Addr, e: Val)
    requires Inv(s) && s.backend.Tokens? && Fed(s, a, e) && Runs(s, acts)
    ensures FedThroughout(s, acts, a, e) <==> Unrobbed(s, acts, a, e)
    ensures Unrobbed(s, acts, a, e) ==>
      Inv(Exec(s, acts)) && Exec(s, acts).backend.Tokens? && Fed(Exec(s, acts), a, e)
    decreases |acts|
  {
    if acts != [] {
      var x := acts[0];
      if Robs(s, x, a, e) {
        RobberyStarves(s, x, a, e);
      } else {
        Step(s, x);
        FedStep(s, x, a, e);
        SameBackend(s, x);
        FedIff(Apply(s, x), acts[1..], a, e);
      }
    }
  }

  /** Reachable on pthreads by a run in which no waiter for another value has robbed those who wait on `a` for
      `e`. */
  ghost predicate ReachableUnrobbed(z: State, a: Addr, e: Val) {
    exists s, acts :: Init(s) && s.backend.Tokens? && Runs(s, acts) && Unrobbed(s, acts, a, e) && z == Exec(s, acts)
  }

  lemma InitFed(s: State, a: Addr, e: Val)
    requires Init(s)
    ensures Inv(s) && Fed(s, a, e)
  {
    NobodyToFeed(s, s.threads, a, e);
  }

  lemma UnrobbedIsFed(z: State, a: Addr, e: Val)
    requires ReachableUnrobbed(z, a, e)
    ensures Inv(z) && z.backend.Tokens? && Fed(z, a, e)
  {
    var s, acts :| Init(s) && s.backend.Tokens? && Runs(s, acts) && Unrobbed(s, acts, a, e) && z == Exec(s, acts);
    InitFed(s, a, e);
    FedIff(s, acts, a, e);
  }

  lemma FedWaiter(z: State, t: Tid)
    requires Inv(z) && t in z.threads && z.threads[t].Waiter? && z.threads[t].item.Some?
    requires Fed(z, z.threads[t].addr, z.threads[t].exp)
    requires var th := z.threads[t];
      th.pc.Blocked? || (Heads(th, th.item.value, th.exp) && Pending(z, th.item.value) == 0)
    ensures Load(z, z.threads[t].addr) == z.threads[t].exp || SomeDepositor(z.threads, z.threads[t].addr)
  {
    var a, e := z.threads[t].addr, z.threads[t].exp;
    assert Use(z.threads[t]).Some?;
    if Covered(z.table, z.proxies, z.threads, a, e) && !z.threads[t].pc.Blocked? {
      TokenWaits(z, t, a, e);
    }
  }

  /** No lost wake on pthreads: a waiter blocked on the condition variable, or heading for it with no token
      queued, still sees its expected value, or some storer has yet to deposit its tokens. */
  lemma NoLostToken(z: State, t: Tid)
    requires t in z.threads && z.threads[t].Waiter? && z.threads[t].item.Some?
    requires ReachableUnrobbed(z, z.threads[t].addr, z.threads[t].exp)
    requires var th := z.threads[t];
      th.pc.Blocked? || (Heads(th, th.item.value, th.exp) && Pending(z, th.item.value) == 0)
    ensures Load(z, z.threads[t].addr) == z.threads[t].exp || SomeDepositor(z.threads, z.threads[t].addr)
  {
    UnrobbedIsFed(z, z.threads[t].addr, z.threads[t].exp);
    FedWaiter(z, t);
  }

  lemma FedIsFree(z: State, t: Tid)
    requires Inv(z) && z.backend.Tokens? && t in z.threads && z.threads[t].Waiter?
    requires Fed(z, z.threads[t].addr, z.threads[t].exp)
    requires Load(z, z.threads[t].addr) != z.threads[t].exp && !SomeDepositor(z.threads, z.threads[t].addr)
    ensures Calm(z, z.threads[t].addr, z.threads[t].exp) && Freed(z, t, z.threads[t].addr, z.threads[t].exp)
  {
    assert Good(z.backend, z.proxies, z.threads[t]);
    assert z.threads[t].pc.Blocked? ==> Use(z.threads[t]).Some?;
  }

  /** Progress on pthreads from any state in which the object has changed and no storer has yet to deposit:
      while the object stays different and no needed token is taken for another value, the waiter
      never blocks again and has returned by the time it has taken 17 steps of its own. */
  lemma ProgressWithTokens(z: State, acts: seq<Action>, t: Tid)
    requires t in z.threads && z.threads[t].Waiter?
    requires ReachableUnrobbed(z, z.threads[t].addr, z.threads[t].exp)
    requires Load(z, z.threads[t].addr) != z.threads[t].exp && !SomeDepositor(z.threads, z.threads[t].addr)
    requires Runs(z, acts) && Settled(z, acts, z.threads[t].addr, z.threads[t].exp)
    ensures HasReturned(z, acts, t) || (OwnSteps(acts, t) < 17 && !IsWaiter(Exec(z, acts), t, Blocked))
  {
    UnrobbedIsFed(z, z.threads[t].addr, z.threads[t].exp);
    FedIsFree(z, t);
    FreedBound(z, acts, t, z.threads[t].addr, z.threads[t].exp);
  }

  // ---------------------------------------------------------------- what a notify delivers

  /** Taking a token is a success: the backend wait returns 0, and exactly one token is gone. */
  lemma TakesReturnsZero(s: State, x: Action, p: Pid)
    requires Enabled(s, x) && Takes(s, x, p) && p in s.proxies
    ensures IsWaiter(Apply(s, x), x.t, Returned(0)) && Pending(Apply(s, x), p) == Pending(s, p) - 1
  {
  }

  /** What a notify leaves in the queue, for every request: as many more tokens as threads were asked for, all
      the registered waiters' for a wake-all, and never more than one for each of these. */
  lemma DepositQueues(z: State, t: Tid, woken: set<Tid>)
    requires Reachable(z) && Enabled(z, Deposit(t, woken))
    ensures var p, n := ItemOf(z.threads[t]), z.threads[t].max;
      var registered := |Those(z.threads, UserOf(p))|;
      && p in z.proxies && registered >= 1
      && Pending(Apply(z, Deposit(t, woken)), p) ==
         if n == WAKE_ALL || Pending(z, p) + n > registered then registered else Pending(z, p) + n
  {
    Safety(z);
    assert Good(z.backend, z.proxies, z.threads[t]);
    var p := ItemOf(z.threads[t]);
    PendingNatural(z, p);
    assert z.proxies[p].useCount == |Those(z.threads, UserOf(p))|;
    DepositExact(Pending(z, p), z.threads[t].max, z.proxies[p].useCount);
  }

  /** From here on nobody takes a token of `p`, and `u` stays registered on it. */
  ghost predicate Untaken(s: State, acts: seq<Action>, p: Pid, u: Tid)
    requires Runs(s, acts)
    decreases |acts|
  {
    && u in s.threads && Use(s.threads[u]) == Some(p)
    && (acts == [] || (!Takes(s, acts[0], p) && Untaken(Apply(s, acts[0]), acts[1..], p, u)))
  }

  lemma QueueKept(s: State, x: Action, p: Pid)
    requires Enabled(s, x) && !x.Deposit? && !Takes(s, x, p) && Pending(s, p) >= 1
    requires p in s.proxies && p in Apply(s, x).proxies
    ensures Pending(Apply(s, x), p) == Pending(s, p)
  {
  }

  lemma UntakenStep(s: State, x: Action, p: Pid, u: Tid)
    requires Inv(s) && Enabled(s, x) && !Takes(s, x, p) && Pending(s, p) >= 1
    requires u in s.threads && Use(s.threads[u]) == Some(p)
    requires u in Apply(s, x).threads && Use(Apply(s, x).threads[u]) == Some(p)
    ensures Pending(Apply(s, x), p) >= 1
  {
    Step(s, x);
    assert Good(s.backend, s.proxies, s.threads[u]);
    assert Good(Apply(s, x).backend, Apply(s, x).proxies, Apply(s, x).threads[u]);
    if !x.Deposit? {
      QueueKept(s, x, p);
    } else if ItemOf(s.threads[x.t]) != p {
      ForeignDeposit(s, x.t, x.woken, p);
    } else {
      assert |Those(s.threads, UserOf(p))| >= 0;
      DepositBounds(Pending(s, p), s.threads[x.t].max, At(s, p).useCount);
    }
  }

  lemma {:induction false} UntakenRun(s: State, acts: seq<Action>, p: Pid, u: Tid)
    requires Inv(s) && Runs(s, acts) && Untaken(s, acts, p, u) && Pending(s, p) >= 1
    ensures Inv(Exec(s, acts)) && Pending(Exec(s, acts), p) >= 1
    ensures u in Exec(s, acts).threads && Use(Exec(s, acts).threads[u]) == Some(p)
    decreases |acts|
  {
    if acts != [] {
      Step(s, acts[0]);
      assert Untaken(Apply(s, acts[0]), acts[1..], p, u);
      UntakenStep(s, acts[0], p, u);
      UntakenRun(Apply(s, acts[0]), acts[1..], p, u);
    }
  }

  /** A token in the queue is a success for whoever comes first to it. */
  lemma QueuedSucceeds(s: State, u: Tid)
    requires u in s.threads && s.threads[u].Waiter? && s.threads[u].item.Some?
    requires Pending(s, s.threads[u].item.value) >= 1
    ensures IsWaiter(s, u, Entering) ==> IsWaiter(Apply(s, Enter(u)), u, Returned(0))
    ensures IsWaiter(s, u, Resuming(0)) ==> IsWaiter(Apply(s, Resume(u)), u, Returned(0))
  {
  }

  /** A notify of one thread or more is not in vain: until somebody takes a token one stays queued, so the first
      registered waiter to enter the wait, or to resume after the signal, does not block. */
  lemma NotifyDelivers(z: State, t: Tid, woken: set<Tid>, acts: seq<Action>, u: Tid)
    requires Reachable(z) && Enabled(z, Deposit(t, woken)) && z.threads[t].max >= 1
    requires var s := Apply(z, Deposit(t, woken)); Runs(s, acts) && Untaken(s, acts, ItemOf(z.threads[t]), u)
    ensures var y := Exec(Apply(z, Deposit(t, woken)), acts);
      && (IsWaiter(y, u, Entering) ==> IsWaiter(Apply(y, Enter(u)), u, Returned(0)))
      && (IsWaiter(y, u, Resuming(0)) ==> IsWaiter(Apply(y, Resume(u)), u, Returned(0)))
  {
    var s := Apply(z, Deposit(t, woken));
    DepositQueues(z, t, woken);
    Safety(z);
    PendingNatural(z, ItemOf(z.threads[t]));
    Step(z, Deposit(t, woken));
    UntakenRun(s, acts, ItemOf(z.threads[t]), u);
    QueuedSucceeds(Exec(s, acts), u);
  }

  // ---------------------------------------------------------------- conservation

  predicate Deposits(s: State, x: Action, p: Pid)
    requires Enabled(s, x)
  {
    x.Deposit? && ItemOf(s.threads[x.t]) == p
  }

  lemma PendingNatural(s: State, p: Pid)
    requires Inv(s)
    ensures Pending(s, p) >= 0
  {
    if p in s.proxies {
      WaitingAt(s.proxies, s.threads, p);
    }
  }

  lemma EnterTokens(s: State, t: Tid, p: Pid)
    requires IsWaiter(s, t, Entering) && Pending(s, p) >= 0
    ensures Pending(DoEnter(s, t), p) + Bit(Takes(s, Enter(t), p)) <= Pending(s, p)
  {
  }

  lemma ResumeTokens(s: State, t: Tid, p: Pid)
    requires IsResuming(s, t) && Pending(s, p) >= 0
    ensures Pending(DoResume(s, t), p) + Bit(Takes(s, Resume(t), p)) <= Pending(s, p)
  {
  }

  lemma OtherTokens(s: State, x: Action, p: Pid)
    requires Enabled(s, x) && !x.Enter? && !x.Resume? && !x.Deposit? && Pending(s, p) >= 0
    ensures Pending(Apply(s, x), p) <= Pending(s, p)
  {
  }

  lemma ForeignDeposit(s: State, t: Tid, woken: set<Tid>, p: Pid)
    requires IsNotifier(s, t, Depositing) && ItemOf(s.threads[t]) != p
    ensures Pending(DoDeposit(s, t, woken), p) == Pending(s, p)
  {
  }

  /** Between wakes tokens are only consumed: one by each successful wait, none created. */
  lemma TokenStep(s: State, x: Action, p: Pid)
    requires Pending(s, p) >= 0 && Enabled(s, x) && !Deposits(s, x, p)
    ensures Pending(Apply(s, x), p) + Bit(Takes(s, x, p)) <= Pending(s, p)
  {
    if x.Enter? {
      EnterTokens(s, x.t, p);
    } else if x.Resume? {
      ResumeTokens(s, x.t, p);
    } else if x.Deposit? {
      ForeignDeposit(s, x.t, x.woken, p);
    } else {
      OtherTokens(s, x, p);
    }
  }

  predicate NoWake(s: State, acts: seq<Action>, p: Pid)
    requires Runs(s, acts)
    decreases |acts|
  {
    acts == [] || (!Deposits(s, acts[0], p) && NoWake(Apply(s, acts[0]), acts[1..], p))
  }

  /** How many waits on `p` return success by taking a token during a run. */
  function Successes(s: State, acts: seq<Action>, p: Pid): nat
    requires Runs(s, acts)
    decreases |acts|
  {
    if acts == [] then 0 else Bit(Takes(s, acts[0], p)) + Successes(Apply(s, acts[0]), acts[1..], p)
  }

  lemma {:induction false} TokenRun(s: State, acts: seq<Action>, p: Pid)
    requires Inv(s) && Runs(s, acts) && NoWake(s, acts, p)
    ensures Pending(Exec(s, acts), p) + Successes(s, acts, p) <= Pending(s, p)
    decreases |acts|
  {
    if acts != [] {
      Step(s, acts[0]);
      PendingNatural(s, p);
      TokenStep(s, acts[0], p);
      TokenRun(Apply(s, acts[0]), acts[1..], p);
    }
  }

  /** Bounded spinning: a wake leaves at most max(1, registered) tokens whatever was queued before,
      and until the next wake at most that many waits on the proxy return success. */
  lemma BoundedSpinning(z: State, t: Tid, woken: set<Tid>, acts: seq<Action>)
    requires Reachable(z) && Enabled(z, Deposit(t, woken)) && Runs(Apply(z, Deposit(t, woken)), acts)
    requires NoWake(Apply(z, Deposit(t, woken)), acts, ItemOf(z.threads[t]))
    ensures var p := ItemOf(z.threads[t]); var s := Apply(z, Deposit(t, woken));
      && Pending(s, p) <= Max(1, At(z, p).useCount)
      && Successes(s, acts, p) <= Max(1, At(z, p).useCount)
  {
    var p := ItemOf(z.threads[t]);
    var s := Apply(z, Deposit(t, woken));
    Safety(z);
    Step(z, Deposit(t, woken));
    PendingNatural(z, p);
    DepositBounds(Pending(z, p), z.threads[t].max, At(z, p).useCount);
    TokenRun(s, acts, p);
    Reach(s, acts);
    PendingNatural(Exec(s, acts), p);
  }

  /** A proxy is destroyed only by its last user, with nobody in its condvar loop and its mutex free;
      so pthread_cond_destroy and pthread_mutex_destroy have nothing to refuse. */
  lemma DestroyIsSafe(z: State, t: Tid)
    requires Reachable(z) && IsWaiter(z, t, Leaving)
    requires ItemOf(z.threads[t]) in z.proxies && ItemOf(z.threads[t]) !in Apply(z, Action.Leave(t)).proxies
    ensures z.proxies[ItemOf(z.threads[t])].tokens.waiting == 0 && z.proxies[ItemOf(z.threads[t])].mutex.None?
    ensures forall u :: u in z.threads && u != t ==> Use(z.threads[u]) != Some(ItemOf(z.threads[t]))
  {
    Safety(z);
    LastUser(z, t);
  }

  /** `waiting` is exactly the number of threads in the condvar loop, in every reachable state. */
  lemma WaitingIsExact(z: State, p: Pid)
    requires Reachable(z) && p in z.proxies
    ensures z.proxies[p].tokens.waiting == |Those(z.threads, LooperOf(p))|
  {
    Safety(z);
    WaitingAt(z.proxies, z.threads, p);
  }
}
