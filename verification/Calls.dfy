/** One call of atomic_wait_generic inside a run of the protocol: what it observes, that it ends as the wait
    loop of WaitLoops.dfy does on the same observations, and when it is suspended at all. */
module Calls {
  import opened Common
  import opened TokenRules
  import opened Protocol
  import opened Registry
  import D = Deadlines
  import W = WaitLoops

  // ---------------------------------------------------------------- suspension

  /** The operating system has taken the thread off the processor. */
  predicate Suspended(th: Thread) {
    th.Waiter? && (th.pc.Asleep? || th.pc.Blocked?)
  }

  /** Suspended, or on the way out of the condvar loop. */
  predicate InLoop(th: Thread) {
    th.Waiter? && (th.pc.Asleep? || th.pc.Blocked? || th.pc.Reacquiring? || th.pc.Resuming?)
  }

  /** A park that passes the kernel's compare, or a pthreads wait that finds no token queued. */
  predicate Suspends(s: State, x: Action)
    requires Enabled(s, x)
  {
    || (x.Park? && x.err == 0 && s.threads[x.t].cap % TWO_32 == At(s, ItemOf(s.threads[x.t])).gen % TWO_32)
    || (x.Enter? && At(s, ItemOf(s.threads[x.t])).tokens.pending <= 0)
  }

  predicate SuspendedSometime(s: State, acts: seq<Action>, t: Tid)
    requires Runs(s, acts)
    decreases |acts|
  {
    (t in s.threads && Suspended(s.threads[t])) ||
    (acts != [] && SuspendedSometime(Apply(s, acts[0]), acts[1..], t))
  }

  predicate SuspendsSometime(s: State, acts: seq<Action>, t: Tid)
    requires Runs(s, acts)
    decreases |acts|
  {
    acts != [] &&
    ((acts[0].t == t && Suspends(s, acts[0])) || SuspendsSometime(Apply(s, acts[0]), acts[1..], t))
  }

  lemma LocalSuspends(s: State, x: Action)
    requires IsLocal(x) && Enabled(s, x) && !InLoop(s.threads[x.t])
    ensures InLoop(LocalNext(s, x)) <==> Suspends(s, x)
    ensures Suspends(s, x) ==> Suspended(LocalNext(s, x))
  {
  }

  lemma EnterSuspends(s: State, t: Tid)
    requires IsWaiter(s, t, Entering)
    ensures InLoop(DoEnter(s, t).threads[t]) <==> Suspends(s, Enter(t))
    ensures Suspends(s, Enter(t)) ==> Suspended(DoEnter(s, t).threads[t])
  {
  }

  lemma OtherwiseAwake(s: State, x: Action)
    requires !IsLocal(x) && !x.Enter? && Enabled(s, x) && !InLoop(s.threads[x.t])
    ensures x.t in Apply(s, x).threads && !InLoop(Apply(s, x).threads[x.t])
  {
  }

  lemma HeldSuspends(s: State, x: Action)
    requires !IsLocal(x) && Enabled(s, x) && !InLoop(s.threads[x.t])
    ensures x.t in Apply(s, x).threads
    ensures InLoop(Apply(s, x).threads[x.t]) <==> Suspends(s, x)
    ensures Suspends(s, x) ==> Suspended(Apply(s, x).threads[x.t])
  {
    if x.Enter? {
      EnterSuspends(s, x.t);
    } else {
      OtherwiseAwake(s, x);
    }
  }

  lemma StepSuspends(s: State, x: Action, t: Tid)
    requires Enabled(s, x) && t in s.threads && !InLoop(s.threads[t])
    ensures t in Apply(s, x).threads
    ensures InLoop(Apply(s, x).threads[t]) <==> x.t == t && Suspends(s, x)
    ensures x.t == t && Suspends(s, x) ==> Suspended(Apply(s, x).threads[t])
  {
    if x.t != t {
      Others(s, x, t);
    } else if IsLocal(x) {
      LocalSuspends(s, x);
    } else {
      HeldSuspends(s, x);
    }
  }

  /** A thread that is awake is suspended at some point of a run if and only if one of its own parks passes
      the 32-bit compare, or one of its own pthreads waits finds no token queued. */
  lemma {:induction false} SuspendedIff(s: State, acts: seq<Action>, t: Tid)
    requires Runs(s, acts) && t in s.threads && !InLoop(s.threads[t])
    ensures SuspendedSometime(s, acts, t) <==> SuspendsSometime(s, acts, t)
    decreases |acts|
  {
    if acts != [] {
      var x, s' := acts[0], Apply(s, acts[0]);
      StepSuspends(s, x, t);
      if x.t == t && Suspends(s, x) {
        assert SuspendedSometime(s', acts[1..], t);
      } else {
        SuspendedIff(s', acts[1..], t);
      }
    }
  }

  // ---------------------------------------------------------------- what a call observes

  /** The object of a call, the loads it made, whether each clock reading was late, the results of its backend
      waits, and the answer to its registration. `due` is what the operating system and the proxy owe the backend
      wait that is under way, by what they have done to it. */
  datatype Seen = Seen(
    addr: Addr, loads: seq<Val>, late: seq<bool>, results: seq<int>, found: Option<bool>, due: int)

  function Nothing(addr: Addr): Seen {
    Seen(addr, [], [], [], None, 0)
  }

  /** What an action makes the backend wait of thread `t` return: 0 for a wake or a token taken, the negated
      error of a park that fails, -EAGAIN for a failed compare, the kernel's own result, the negated
      error of the condition variable. */
  function Due(s: State, x: Action, t: Tid, due: int): int
    requires Enabled(s, x) && t in s.threads
  {
    match x
    case Park(u, err) =>
      if u != t then due
      else if err != 0 then -err
      else if s.threads[t].Waiter? && s.threads[t].cap % TWO_32 != At(s, ItemOf(s.threads[t])).gen % TWO_32 then -EAGAIN
      else due
    case KernelReturn(u, res) => if u == t then res else due
    case KernelWake(_, woken) => if t in woken then 0 else due
    case Enter(u) => if u == t && At(s, ItemOf(s.threads[t])).tokens.pending > 0 then 0 else due
    case CondReturn(u, why) => if u == t then -why else due
    case Deposit(_, woken) => if t in woken then 0 else due
    case _ => due
  }

  function Look(s: State, x: Action, t: Tid, o: Seen): Seen
    requires Enabled(s, x) && t in s.threads
  {
    var o' := o.(due := Due(s, x, t, o.due));
    if x.t != t then o'
    else
      match x
      case BeginWait(_, addr, _, _) => Nothing(addr)
      case LoadTop(_) => o'.(loads := o.loads + [Load(s, o.addr)])
      case Recheck(_) => o'.(loads := o.loads + [Load(s, o.addr)])
      case Find(_, ok, _) => o'.(found := Some(ok))
      case Check(_, expired) => o'.(late := o.late + [expired])
      case AfterWait(_) => o'.(results := o.results + [o.due])
      case _ => o'
  }

  function Watch(s: State, acts: seq<Action>, t: Tid, o: Seen): Seen
    requires Runs(s, acts) && t in s.threads
    decreases |acts|
  {
    if acts == [] then o
    else StillThere(s, acts[0], t); Watch(Apply(s, acts[0]), acts[1..], t, Look(s, acts[0], t, o))
  }

  lemma StillThere(s: State, x: Action, t: Tid)
    requires Enabled(s, x) && t in s.threads
    ensures t in Apply(s, x).threads
  {
    if x.t != t {
      Others(s, x, t);
    }
  }

  /** The first `l` loads saw `e`, the first `c` readings were in time, the first `n` results were no hard
      errors. */
  predicate Calm(o: Seen, e: Val, l: nat, c: nat, n: nat) {
    && l <= |o.loads| && c <= |o.late| && n <= |o.results|
    && (forall i {:trigger o.loads[i]} :: 0 <= i < l ==> o.loads[i] == e)
    && (forall i {:trigger o.late[i]} :: 0 <= i < c ==> !o.late[i])
    && (forall i {:trigger o.results[i]} :: 0 <= i < n ==> !HardError(o.results[i]))
  }

  /** Nothing observed so far ends the call. */
  predicate AllCalm(o: Seen, e: Val) {
    Calm(o, e, |o.loads|, |o.late|, |o.results|)
  }

  /** The last load saw another value. */
  predicate DoneByChange(e: Val, ret: int, o: Seen) {
    var l, c, n := |o.loads|, |o.late|, |o.results|;
    && l > 0 && o.loads[l - 1] != e && c == n && Calm(o, e, l - 1, c, n)
    && if o.found.None? then l == 1 && n == 0 && ret == 0
       else o.found.value && l == n + 2 && ret == if n > 0 then 1 else 0
  }

  /** The last clock reading was late. */
  predicate DoneByTimeout(e: Val, timed: bool, ret: int, o: Seen) {
    var l, c, n := |o.loads|, |o.late|, |o.results|;
    timed && o.found == Some(true) && l == n + 2 && c == n + 1 && o.late[n] && Calm(o, e, l, n, n) && ret == 0
  }

  /** The last result was a hard error. */
  predicate DoneByError(e: Val, ret: int, o: Seen) {
    var l, c, n := |o.loads|, |o.late|, |o.results|;
    && o.found == Some(true) && n > 0 && l == n + 1 && c == n
    && HardError(o.results[n - 1]) && Calm(o, e, l, c, n - 1) && ret == -1
  }

  /** The registration was refused. */
  predicate DoneByRefusal(e: Val, ret: int, o: Seen) {
    o.found == Some(false) && |o.loads| == 1 && o.late == [] && o.results == [] && AllCalm(o, e) && ret == -1
  }

  /** The observations end the call with result `ret`. */
  predicate Done(e: Val, timed: bool, ret: int, o: Seen) {
    DoneByChange(e, ret, o) || DoneByTimeout(e, timed, ret, o) || DoneByError(e, ret, o) || DoneByRefusal(e, ret, o)
  }

  /** Before the wait cycle is entered: `l` loads so far. */
  predicate Starting(th: Thread, o: Seen, l: nat)
    requires th.Waiter?
  {
    th.ret == 0 && |o.loads| == l && o.late == [] && o.results == [] && AllCalm(o, th.exp)
  }

  /** In the wait cycle: `l` loads and `c` clock readings so far. */
  predicate Cycling(th: Thread, o: Seen, l: nat, c: nat)
    requires th.Waiter?
  {
    th.item.Some? && th.ret == 1 && o.found == Some(true) && |o.loads| == l && |o.late| == c && AllCalm(o, th.exp)
  }

  /** Where a waiter is says how much it has observed. */
  predicate Tells(th: Thread, o: Seen)
    requires th.Waiter?
  {
    var n := |o.results|;
    th.addr == o.addr &&
    match th.pc
    case Top =>
      if th.item.None? then Starting(th, o, 0) && o.found.None? else Cycling(th, o, n + 1, n) && n > 0
    case WantTable => Starting(th, o, 1) && o.found.None? && th.item.None?
    case Finding => Starting(th, o, 1) && o.found.None? && th.item.None?
    case Capturing => Starting(th, o, 1) && o.found == Some(true) && th.item.Some?
    case Rechecking => Starting(th, o, 1) && o.found == Some(true) && th.item.Some?
    case Releasing => Starting(th, o, 2) && o.found == Some(true) && th.item.Some?
    case Checking => Cycling(th, o, n + 2, n)
    case Recapturing => Cycling(th, o, n + 1, n) && n > 0
    case Returned(res) => Cycling(th, o, n + 2, n + 1) && res == o.due
    case Reacquiring(why) => Cycling(th, o, n + 2, n + 1) && why == -o.due
    case Resuming(why) => Cycling(th, o, n + 2, n + 1) && why == -o.due
    case WantTail => Done(th.exp, th.timed, th.ret, o)
    case Leaving => Done(th.exp, th.timed, th.ret, o)
    case Unlocking => Done(th.exp, th.timed, th.ret, o)
    case _ => Cycling(th, o, n + 2, n + 1)
  }

  /** The call goes on, or has returned with what its observations say. */
  predicate Tell(th: Thread, o: Seen, e: Val, timed: bool) {
    match th
    case Idle(last) => Done(e, timed, last, o)
    case Waiter(_, _, exp, tm, _, _, _) => exp == e && tm == timed && Tells(th, o)
    case Notifier(_, _, _, _, _) => false
  }

  // ---------------------------------------------------------------- every step tells

  lemma LoadTells(th: Thread, o: Seen, v: Val)
    requires th.Waiter? && Tells(th, o)
    ensures var o' := o.(loads := o.loads + [v]);
      && (th.pc.Top? ==> Tell(TopNext(th, v), o', th.exp, th.timed))
      && (th.pc.Rechecking? ==> Tell(RecheckNext(th, v), o', th.exp, th.timed))
  {
  }

  lemma CheckTells(b: Backend, th: Thread, o: Seen, expired: bool)
    requires th.Waiter? && Tells(th, o) && th.pc.Checking? && (expired ==> th.timed)
    ensures Tell(CheckNext(b, th, expired), o.(late := o.late + [expired]), th.exp, th.timed)
  {
  }

  lemma ResultTells(th: Thread, o: Seen)
    requires th.Waiter? && Tells(th, o) && th.pc.Returned?
    ensures Tell(AfterWaitNext(th), o.(results := o.results + [o.due]), th.exp, th.timed)
  {
  }

  /** The steps that observe something. */
  lemma LookTells(s: State, x: Action, o: Seen)
    requires x.LoadTop? || x.Recheck? || x.Check? || x.AfterWait?
    requires Enabled(s, x) && Tells(s.threads[x.t], o)
    ensures Tell(LocalNext(s, x), Look(s, x, x.t, o), s.threads[x.t].exp, s.threads[x.t].timed)
  {
    var th := s.threads[x.t];
    if x.LoadTop? || x.Recheck? {
      LoadTells(th, o, Load(s, th.addr));
    } else if x.Check? {
      CheckTells(s.backend, th, o, x.expired);
    } else {
      ResultTells(th, o);
    }
  }

  lemma LocalTells(s: State, x: Action, o: Seen)
    requires IsLocal(x) && Enabled(s, x) && s.threads[x.t].Waiter? && Tells(s.threads[x.t], o)
    ensures Tell(LocalNext(s, x), Look(s, x, x.t, o), s.threads[x.t].exp, s.threads[x.t].timed)
  {
    if x.LoadTop? || x.Recheck? || x.Check? || x.AfterWait? {
      LookTells(s, x, o);
    }
  }

  lemma LockTells(th: Thread, o: Seen)
    requires th.Waiter? && Tells(th, o)
    ensures WantsTable(th) ==> Tell(WithTable(th), o, th.exp, th.timed)
    ensures WantsMutex(th) ==> Tell(WithMutex(th), o, th.exp, th.timed)
  {
  }

  lemma UnlockTells(th: Thread, o: Seen)
    requires th.Waiter? && Tells(th, o)
    ensures th.pc.Releasing? ==> Tell(th.(pc := Checking, ret := 1), o, th.exp, th.timed)
    ensures th.pc.Leaving? ==> Tell(th.(pc := Unlocking, item := None), o, th.exp, th.timed)
    ensures th.pc.Unlocking? ==> Tell(FinishNext(th), o, th.exp, th.timed)
  {
  }

  lemma FindTells(th: Thread, o: Seen, p: Pid)
    requires th.Waiter? && Tells(th, o) && th.pc.Finding?
    ensures Tell(th.(pc := Capturing, item := Some(p)), o.(found := Some(true)), th.exp, th.timed)
    ensures Tell(th.(pc := Unlocking, ret := -1), o.(found := Some(false)), th.exp, th.timed)
  {
  }

  lemma EnterTells(th: Thread, o: Seen, c: Counters)
    requires th.Waiter? && Tells(th, o) && th.pc.Entering?
    ensures Tell(After(th, EnterRule(c).1), o.(due := if c.pending > 0 then 0 else o.due), th.exp, th.timed)
  {
  }

  lemma ResumeTells(th: Thread, o: Seen, c: Counters)
    requires th.Waiter? && Tells(th, o) && th.pc.Resuming?
    ensures Tell(After(th, ResumeRule(c, th.pc.result).1), o, th.exp, th.timed)
  {
  }

  lemma HeldTells(s: State, x: Action, o: Seen)
    requires !IsLocal(x) && Enabled(s, x) && s.threads[x.t].Waiter? && Tells(s.threads[x.t], o)
    ensures x.t in Apply(s, x).threads
    ensures Tell(Apply(s, x).threads[x.t], Look(s, x, x.t, o), s.threads[x.t].exp, s.threads[x.t].timed)
  {
    var th := s.threads[x.t];
    if x.Find? {
      FindTells(th, o, if th.addr in s.table then s.table[th.addr] else x.node);
    } else if x.Enter? {
      EnterTells(th, o, At(s, ItemOf(th)).tokens);
    } else if x.Resume? {
      ResumeTells(th, o, At(s, ItemOf(th)).tokens);
    } else if x.TakeTable? || x.TakeMutex? {
      LockTells(th, o);
    } else if !x.Spin? {
      UnlockTells(th, o);
    }
  }

  lemma AwokenTells(th: Thread, o: Seen)
    requires th.Waiter? && Tells(th, o) && Suspended(th)
    ensures Tell(Awoken(th), o.(due := 0), th.exp, th.timed)
  {
  }

  lemma OthersTell(s: State, x: Action, t: Tid, o: Seen)
    requires Enabled(s, x) && x.t != t && t in s.threads && s.threads[t].Waiter? && Tells(s.threads[t], o)
    ensures t in Apply(s, x).threads
    ensures Tell(Apply(s, x).threads[t], Look(s, x, t, o), s.threads[t].exp, s.threads[t].timed)
  {
    Others(s, x, t);
    if (x.KernelWake? || x.Deposit?) && t in x.woken {
      AwokenTells(s.threads[t], o);
    } else {
      assert Look(s, x, t, o) == o;
    }
  }

  lemma StepTells(s: State, x: Action, t: Tid, o: Seen)
    requires Enabled(s, x) && t in s.threads && s.threads[t].Waiter? && Tells(s.threads[t], o)
    ensures t in Apply(s, x).threads
    ensures Tell(Apply(s, x).threads[t], Look(s, x, t, o), s.threads[t].exp, s.threads[t].timed)
  {
    if x.t != t {
      OthersTell(s, x, t, o);
    } else if IsLocal(x) {
      LocalTells(s, x, o);
    } else {
      HeldTells(s, x, o);
    }
  }

  // ---------------------------------------------------------------- a whole call

  /** The thread is in its call until the run ends, and has then just returned. */
  predicate Within(s: State, acts: seq<Action>, t: Tid)
    requires Runs(s, acts)
    decreases |acts|
  {
    if acts == [] then IsIdle(s, t)
    else t in s.threads && s.threads[t].Waiter? && Within(Apply(s, acts[0]), acts[1..], t)
  }

  /** What the last call of a thread that is between calls has returned. */
  function Result(z: State, t: Tid): int {
    if IsIdle(z, t) then z.threads[t].last else 0
  }

  /** A run from the start of one call of thread `t` to its return, with anything others do in between. */
  predicate OneCall(s: State, acts: seq<Action>, t: Tid)
    requires Runs(s, acts)
  {
    acts != [] && acts[0].BeginWait? && acts[0].t == t && Within(Apply(s, acts[0]), acts[1..], t)
  }

  /** In a backend wait that has not been accounted for yet. */
  predicate InWait(th: Thread) {
    InLoop(th) || (th.Waiter? && th.pc.Returned?)
  }

  lemma LocalWaits(s: State, x: Action, o: Seen)
    requires IsLocal(x) && Enabled(s, x) && s.threads[x.t].Waiter?
    ensures |Look(s, x, x.t, o).results| >= |o.results|
    ensures InWait(s.threads[x.t]) ==> InWait(LocalNext(s, x)) || |Look(s, x, x.t, o).results| > |o.results|
  {
  }

  lemma HeldWaits(s: State, x: Action)
    requires !IsLocal(x) && Enabled(s, x) && InWait(s.threads[x.t])
    ensures x.t in Apply(s, x).threads && InWait(Apply(s, x).threads[x.t])
  {
  }

  /** A backend wait that was entered is accounted for by a result before the call goes on. */
  lemma StepWaits(s: State, x: Action, t: Tid, o: Seen)
    requires Enabled(s, x) && t in s.threads && s.threads[t].Waiter?
    ensures |Look(s, x, t, o).results| >= |o.results|
    ensures InWait(s.threads[t]) ==>
      (t in Apply(s, x).threads && InWait(Apply(s, x).threads[t])) || |Look(s, x, t, o).results| > |o.results|
  {
    if x.t != t {
      Others(s, x, t);
    } else if IsLocal(x) {
      LocalWaits(s, x, o);
    } else if InWait(s.threads[t]) {
      HeldWaits(s, x);
    }
  }

  lemma {:induction false} CallTells(s: State, acts: seq<Action>, t: Tid, o: Seen)
    requires Runs(s, acts) && Within(s, acts, t) && acts != [] && Tells(s.threads[t], o)
    ensures Done(s.threads[t].exp, s.threads[t].timed, Result(Exec(s, acts), t), Watch(s, acts, t, o))
    decreases |acts|
  {
    var x, s', o' := acts[0], Apply(s, acts[0]), Look(s, acts[0], t, o);
    StepTells(s, x, t, o);
    if acts[1..] != [] {
      CallTells(s', acts[1..], t, o');
    }
  }

  lemma {:induction false} CallWaits(s: State, acts: seq<Action>, t: Tid, o: Seen)
    requires Runs(s, acts) && Within(s, acts, t) && t in s.threads
    ensures |Watch(s, acts, t, o).results| >= |o.results|
    ensures InWait(s.threads[t]) || SuspendedSometime(s, acts, t) ==> |Watch(s, acts, t, o).results| > |o.results|
    decreases |acts|
  {
    if acts != [] {
      var x, s', o' := acts[0], Apply(s, acts[0]), Look(s, acts[0], t, o);
      StepWaits(s, x, t, o);
      StillThere(s, x, t);
      CallWaits(s', acts[1..], t, o');
    }
  }

  /** What the call of a run has observed by its return. */
  function Observed(s: State, acts: seq<Action>, t: Tid): Seen
    requires Runs(s, acts) && t in s.threads
  {
    Watch(s, acts, t, Nothing(if acts != [] && acts[0].BeginWait? then acts[0].addr else 0))
  }

  /** A call of the protocol returns what its observations say; and if it was suspended it has a backend
      result to account for it. */
  lemma CallEnds(s: State, acts: seq<Action>, t: Tid)
    requires Runs(s, acts) && OneCall(s, acts, t)
    ensures Done(acts[0].exp, acts[0].timed, Result(Exec(s, acts), t), Observed(s, acts, t))
    ensures SuspendedSometime(s, acts, t) ==> |Observed(s, acts, t).results| > 0
  {
    var s' := Apply(s, acts[0]);
    assert s'.threads[t] == Waiter(Top, acts[0].addr, acts[0].exp, acts[0].timed, None, 0, 0);
    CallTells(s', acts[1..], t, Nothing(acts[0].addr));
    CallWaits(s', acts[1..], t, Nothing(acts[0].addr));
  }

  // ---------------------------------------------------------------- the same call in the wait loop

  /** The environment of the wait loop answers as the run did. */
  ghost predicate Matches(env: W.Env, d: Option<D.Timespec>, o: Seen) {
    && (forall i {:trigger o.loads[i]} :: 0 <= i < |o.loads| ==> env.loads(i) == o.loads[i])
    && (forall i {:trigger o.results[i]} :: 0 <= i < |o.results| ==> env.waits(i) == o.results[i])
    && (d.Some? ==> forall i {:trigger o.late[i]} :: 0 <= i < |o.late| ==>
          (o.late[i] <==> D.Ns(env.clocks(i + 1)) >= W.EndNs(env, d.value)))
  }

  /** The intervals a timed call passes to the backend. */
  ghost function Intervals(env: W.Env, d: Option<D.Timespec>, n: nat): seq<D.Timespec> {
    if d.None? then [] else seq(n, (i: nat) => D.Remaining(D.Deadline(env.clocks(0), d.value), env.clocks(i + 1)))
  }

  ghost function TraceOf(env: W.Env, d: Option<D.Timespec>, o: Seen): W.Trace {
    W.Trace(|o.loads|, if d.None? then 0 else |o.late| + 1, |o.results|, Intervals(env, d, |o.results|))
  }

  lemma IntervalsExact(env: W.Env, d: Option<D.Timespec>, o: Seen)
    requires W.Sane(env, d) && Matches(env, d, o) && |o.late| >= |o.results|
    requires forall i {:trigger o.late[i]} :: 0 <= i < |o.results| ==> !o.late[i]
    ensures W.ExactIntervals(env, d, TraceOf(env, d, o))
  {
    if d.Some? {
      var end, given := D.Deadline(env.clocks(0), d.value), Intervals(env, d, |o.results|);
      D.DeadlineExact(env.clocks(0), d.value);
      forall i | 0 <= i < |o.results|
        ensures D.Normal(given[i]) && D.Ns(given[i]) == W.EndNs(env, d.value) - D.Ns(env.clocks(i + 1)) > 0
      {
        assert !o.late[i];
        D.ExpiredIff(env.clocks(i + 1), end);
        D.RemainingExact(end, env.clocks(i + 1));
      }
    }
  }

  lemma CalmUneventful(env: W.Env, e: Val, d: Option<D.Timespec>, o: Seen, l: nat, c: nat, n: nat)
    requires Matches(env, d, o) && Calm(o, e, l, c, n)
    ensures W.Uneventful(env, e, d, l, c + 1, n)
  {
    forall i | 0 <= i < l ensures env.loads(i) == e {
      assert o.loads[i] == e;
    }
    forall i | 0 <= i < n ensures !HardError(env.waits(i)) {
      assert !HardError(o.results[i]);
    }
    if d.Some? {
      forall i | 1 <= i < c + 1 ensures D.Ns(env.clocks(i)) < W.EndNs(env, d.value) {
        assert !o.late[i - 1];
      }
    }
  }

  lemma LoadsMatch(env: W.Env, d: Option<D.Timespec>, o: Seen, i: nat)
    requires Matches(env, d, o) && i < |o.loads|
    ensures env.loads(i) == o.loads[i]
  {
  }

  /** What `*expected` and errno hold in the end. */
  function ExitOf(e: Val, ret: int, o: Seen, errno: int, find: W.Find): W.Exit {
    if |o.loads| > 0 && o.loads[|o.loads| - 1] != e then W.Exit(ret, o.loads[|o.loads| - 1], errno)
    else if ret == 0 then W.Exit(0, e, ETIMEDOUT)
    else if o.found == Some(false) then W.Exit(-1, e, find.errno)
    else W.Exit(-1, e, if |o.results| > 0 then -o.results[|o.results| - 1] else 0)
  }

  lemma ChangeIsGeneric(
    env: W.Env, e: Val, d: Option<D.Timespec>, errno: int, find: W.Find, rounds: nat, ret: int, o: Seen)
    requires W.Sane(env, d) && Matches(env, d, o) && DoneByChange(e, ret, o)
    requires rounds > |o.results| && (o.found.Some? ==> find.ok == o.found.value)
    ensures W.GenericCall(env, e, d, errno, find, rounds, TraceOf(env, d, o), ExitOf(e, ret, o, errno, find))
  {
    var l, n := |o.loads|, |o.results|;
    IntervalsExact(env, d, o);
    LoadsMatch(env, d, o, l - 1);
    LoadsMatch(env, d, o, 0);
    CalmUneventful(env, e, d, o, l - 1, n, n);
    assert W.ByChange(env, e, d, errno, TraceOf(env, d, o), ExitOf(e, ret, o, errno, find));
  }

  lemma TimeoutIsGeneric(
    env: W.Env, e: Val, d: Option<D.Timespec>, errno: int, find: W.Find, rounds: nat, ret: int, o: Seen)
    requires W.Sane(env, d) && Matches(env, d, o) && DoneByTimeout(e, d.Some?, ret, o)
    requires rounds > |o.results| && find.ok
    ensures W.GenericCall(env, e, d, errno, find, rounds, TraceOf(env, d, o), ExitOf(e, ret, o, errno, find))
  {
    var l, n := |o.loads|, |o.results|;
    IntervalsExact(env, d, o);
    LoadsMatch(env, d, o, 0);
    CalmUneventful(env, e, d, o, l, n, n);
    assert o.late[n];
    assert W.ByTimeout(env, e, d, TraceOf(env, d, o), ExitOf(e, ret, o, errno, find));
  }

  lemma ErrorIsGeneric(
    env: W.Env, e: Val, d: Option<D.Timespec>, errno: int, find: W.Find, rounds: nat, ret: int, o: Seen)
    requires W.Sane(env, d) && Matches(env, d, o) && DoneByError(e, ret, o)
    requires rounds > |o.results| && find.ok
    ensures W.GenericCall(env, e, d, errno, find, rounds, TraceOf(env, d, o), ExitOf(e, ret, o, errno, find))
  {
    var l, n := |o.loads|, |o.results|;
    IntervalsExact(env, d, o);
    LoadsMatch(env, d, o, 0);
    CalmUneventful(env, e, d, o, l, n, n - 1);
    assert HardError(o.results[n - 1]);
    assert W.ByError(env, e, d, TraceOf(env, d, o), ExitOf(e, ret, o, errno, find));
  }

  lemma RefusalIsGeneric(
    env: W.Env, e: Val, d: Option<D.Timespec>, errno: int, find: W.Find, rounds: nat, ret: int, o: Seen)
    requires W.Sane(env, d) && Matches(env, d, o) && DoneByRefusal(e, ret, o) && rounds > 0 && !find.ok
    ensures W.GenericCall(env, e, d, errno, find, rounds, TraceOf(env, d, o), ExitOf(e, ret, o, errno, find))
  {
    IntervalsExact(env, d, o);
    LoadsMatch(env, d, o, 0);
    CalmUneventful(env, e, d, o, 1, 0, 0);
    assert W.ByRefusal(env, e, d, Some(find.errno), TraceOf(env, d, o), ExitOf(e, ret, o, errno, find));
  }

  /** On the same answers the wait loop promises the same return: whatever environment answers as the run did,
      the call ends in it as atomic_wait_generic ends, with the same loads, clock readings and waits. */
  lemma CallIsGeneric(
    env: W.Env, e: Val, d: Option<D.Timespec>, errno: int, find: W.Find, rounds: nat, ret: int, o: Seen)
    requires W.Sane(env, d) && Matches(env, d, o) && Done(e, d.Some?, ret, o)
    requires rounds > |o.results| && (o.found.Some? ==> find.ok == o.found.value)
    ensures ExitOf(e, ret, o, errno, find).ret == ret
    ensures W.GenericCall(env, e, d, errno, find, rounds, TraceOf(env, d, o), ExitOf(e, ret, o, errno, find))
  {
    if DoneByChange(e, ret, o) {
      ChangeIsGeneric(env, e, d, errno, find, rounds, ret, o);
    } else if DoneByTimeout(e, d.Some?, ret, o) {
      TimeoutIsGeneric(env, e, d, errno, find, rounds, ret, o);
    } else if DoneByError(e, ret, o) {
      ErrorIsGeneric(env, e, d, errno, find, rounds, ret, o);
    } else {
      RefusalIsGeneric(env, e, d, errno, find, rounds, ret, o);
    }
  }

  /** A call of the protocol and a call of the wait loop that gets the same answers return the same, after the
      same number of waits. */
  lemma ProtocolCall(
    s: State, acts: seq<Action>, t: Tid, env: W.Env, d: Option<D.Timespec>, errno: int, find: W.Find, rounds: nat,
    tr: W.Trace, out: W.Exit)
    requires Runs(s, acts) && OneCall(s, acts, t) && d.Some? == acts[0].timed
    requires var o := Observed(s, acts, t);
      && W.Sane(env, d) && Matches(env, d, o)
      && rounds > |o.results| && (o.found.Some? ==> find.ok == o.found.value)
    requires W.GenericCall(env, acts[0].exp, d, errno, find, rounds, tr, out)
    ensures out.Exit? && out.ret == Result(Exec(s, acts), t) && tr.waits == |Observed(s, acts, t).results|
  {
    var o, e, ret := Observed(s, acts, t), acts[0].exp, Result(Exec(s, acts), t);
    CallEnds(s, acts, t);
    CallIsGeneric(env, e, d, errno, find, rounds, ret, o);
    W.GenericOnce(env, e, d, errno, find, rounds, tr, out, TraceOf(env, d, o), ExitOf(e, ret, o, errno, find));
  }

  /** A call that was suspended and ended by a change returns a positive result; and a positive result always
      comes from a change, after a wait cycle was entered. */
  lemma SuspendedReturnsPositive(s: State, acts: seq<Action>, t: Tid)
    requires Runs(s, acts) && OneCall(s, acts, t)
    ensures var o := Observed(s, acts, t);
      |o.loads| > 0 && (o.loads[|o.loads| - 1] != acts[0].exp && SuspendedSometime(s, acts, t) ==>
        Result(Exec(s, acts), t) == 1)
    ensures var o := Observed(s, acts, t);
      Result(Exec(s, acts), t) > 0 ==> |o.results| > 0 && o.loads[|o.loads| - 1] != acts[0].exp
  {
    CallEnds(s, acts, t);
  }

  /** The promise of a suspension behind every positive result: a call that returns one was suspended if and
      only if one of its parks passed the 32-bit compare, or one of its pthreads waits found no token. */
  lemma PositiveSuspendedIff(s: State, acts: seq<Action>, t: Tid)
    requires Runs(s, acts) && OneCall(s, acts, t) && Result(Exec(s, acts), t) > 0
    ensures SuspendedSometime(s, acts, t) <==> SuspendsSometime(s, acts, t)
  {
    SuspendedIff(s, acts, t);
  }
}
