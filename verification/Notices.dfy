/** One call of atomic_notify_generic inside a run of the protocol: it looks its object up once, and if it finds
    a proxy it wakes through that proxy exactly once; and what a wake releases. */
module Notices {
  import opened Common
  import opened Protocol
  import opened Registry
  import opened Calls

  /** The object and the request of a notify, and what it has done so far: looked up and found, and how often it
      bumped, woke and deposited. */
  datatype Heard = Heard(
    target: Addr, max: nat, looked: bool, found: Option<Pid>, bumps: nat, wakes: nat, deposits: nat)

  function Silence(target: Addr, max: nat): Heard {
    Heard(target, max, false, None, 0, 0, 0)
  }

  function Hear(s: State, x: Action, t: Tid, h: Heard): Heard
    requires Enabled(s, x) && t in s.threads
  {
    if x.t != t then h
    else
      match x
      case LookUp(_) => h.(looked := true, found := if h.target in s.table then Some(s.table[h.target]) else None)
      case Bump(_) => h.(bumps := h.bumps + 1)
      case KernelWake(_, _) => h.(wakes := h.wakes + 1)
      case Deposit(_, _) => h.(deposits := h.deposits + 1)
      case _ => h
  }

  function Listen(s: State, acts: seq<Action>, t: Tid, h: Heard): Heard
    requires Runs(s, acts) && t in s.threads
    decreases |acts|
  {
    if acts == [] then h
    else StillThere(s, acts[0], t); Listen(Apply(s, acts[0]), acts[1..], t, Hear(s, acts[0], t, h))
  }

  /** A notify that has done its work. */
  predicate Finished(b: Backend, h: Heard) {
    h.looked &&
    if h.found.None? then h.bumps == h.wakes == h.deposits == 0
    else if b.Generations? then h.bumps == h.wakes == 1 && h.deposits == 0
    else h.deposits == 1 && h.bumps == h.wakes == 0
  }

  predicate Telling(b: Backend, th: Thread, h: Heard)
    requires th.Notifier?
  {
    th.target == h.target && th.max == h.max &&
    match th.at
    case WantLock => h == Silence(h.target, h.max)
    case LookingUp => h == Silence(h.target, h.max)
    case Bumping => b.Generations? && th.found.Some? && h == Heard(h.target, h.max, true, th.found, 0, 0, 0)
    case Waking => b.Generations? && th.found.Some? && h == Heard(h.target, h.max, true, th.found, 1, 0, 0)
    case WantProxy => b.Tokens? && th.found.Some? && h == Heard(h.target, h.max, true, th.found, 0, 0, 0)
    case Depositing => b.Tokens? && th.found.Some? && h == Heard(h.target, h.max, true, th.found, 0, 0, 0)
    case Done => Finished(b, h)
  }

  /** Still the same notify, or done. */
  predicate Notifying(b: Backend, th: Thread, h: Heard) {
    match th
    case Idle(_) => Finished(b, h)
    case Waiter(_, _, _, _, _, _, _) => false
    case Notifier(_, _, _, _, _) => Telling(b, th, h)
  }

  lemma LocalNotifies(s: State, x: Action, h: Heard)
    requires IsLocal(x) && Enabled(s, x) && s.threads[x.t].Notifier? && Telling(s.backend, s.threads[x.t], h)
    ensures Notifying(s.backend, LocalNext(s, x), Hear(s, x, x.t, h))
  {
  }

  lemma HeldNotifies(s: State, x: Action, h: Heard)
    requires !IsLocal(x) && Enabled(s, x) && s.threads[x.t].Notifier? && Telling(s.backend, s.threads[x.t], h)
    ensures x.t in Apply(s, x).threads
    ensures Notifying(s.backend, Apply(s, x).threads[x.t], Hear(s, x, x.t, h))
  {
  }

  lemma StepNotifies(s: State, x: Action, t: Tid, h: Heard)
    requires Enabled(s, x) && t in s.threads && s.threads[t].Notifier? && Telling(s.backend, s.threads[t], h)
    ensures t in Apply(s, x).threads && Apply(s, x).backend == s.backend
    ensures Notifying(s.backend, Apply(s, x).threads[t], Hear(s, x, t, h))
  {
    if x.t != t {
      Others(s, x, t);
    } else if IsLocal(x) {
      LocalNotifies(s, x, h);
    } else {
      HeldNotifies(s, x, h);
    }
  }

  /** The thread is in its notify until the run ends, and has then just returned. */
  predicate Inside(s: State, acts: seq<Action>, t: Tid)
    requires Runs(s, acts)
    decreases |acts|
  {
    if acts == [] then IsIdle(s, t)
    else t in s.threads && s.threads[t].Notifier? && Inside(Apply(s, acts[0]), acts[1..], t)
  }

  /** A run from the start of one notify of thread `t`, or of one store with its notify_all, to the return. */
  predicate OneNotify(s: State, acts: seq<Action>, t: Tid)
    requires Runs(s, acts)
  {
    && acts != [] && (acts[0].BeginNotify? || acts[0].StoreAll?) && acts[0].t == t
    && Inside(Apply(s, acts[0]), acts[1..], t)
  }

  lemma {:induction false} NotifyRun(s: State, acts: seq<Action>, t: Tid, h: Heard)
    requires Runs(s, acts) && acts != [] && Inside(s, acts, t) && Telling(s.backend, s.threads[t], h)
    ensures Finished(s.backend, Listen(s, acts, t, h))
    decreases |acts|
  {
    var x, s', h' := acts[0], Apply(s, acts[0]), Hear(s, acts[0], t, h);
    StepNotifies(s, x, t, h);
    if acts[1..] != [] {
      NotifyRun(s', acts[1..], t, h');
    }
  }

  /** The object and the request of the notify that an action starts. */
  function Started(x: Action): Heard
    requires x.BeginNotify? || x.StoreAll?
  {
    Silence(x.addr, if x.StoreAll? then WAKE_ALL else x.max)
  }

  /** Every notify looks its object up once and, if it finds a proxy, bumps and wakes exactly once, or deposits
      exactly once; without one it does neither. */
  lemma NotifyCall(s: State, acts: seq<Action>, t: Tid)
    requires Runs(s, acts) && OneNotify(s, acts, t)
    ensures t in s.threads && Finished(s.backend, Listen(Apply(s, acts[0]), acts[1..], t, Started(acts[0])))
  {
    var s' := Apply(s, acts[0]);
    assert s'.threads[t].Notifier? && s'.threads[t].at.WantLock? && s'.backend == s.backend;
    NotifyRun(s', acts[1..], t, Started(acts[0]));
  }

  /** And what it finds is the proxy of the waiters: whoever is registered on the object is registered on it. */
  lemma LookUpMeets(z: State, t: Tid, u: Tid)
    requires Reachable(z) && Enabled(z, LookUp(t)) && u in z.threads
    requires Use(z.threads[u]).Some? && z.threads[u].addr == z.threads[t].target
    ensures forall h: Heard :: h.target == z.threads[t].target ==> Hear(z, LookUp(t), t, h).found == Use(z.threads[u])
    ensures Apply(z, LookUp(t)).threads[t].found == Use(z.threads[u])
  {
    PointerStaysCurrent(z, u);
  }

  // ---------------------------------------------------------------- what a wake releases

  /** A kernel wake of a positive request makes the backend wait of a sleeper return 0, that of every sleeper if
      it is a wake-all; it touches nobody else. */
  lemma KernelWakeReleases(z: State, t: Tid, woken: set<Tid>)
    requires Enabled(z, KernelWake(t, woken)) && z.threads[t].max >= 1
    ensures var p := ItemOf(z.threads[t]); var y := Apply(z, KernelWake(t, woken));
      && (forall u :: u in SleepersOn(z, p) && (u in woken || z.threads[t].max == WAKE_ALL) ==>
            IsWaiter(y, u, Returned(0)))
      && (SleepersOn(z, p) != {} ==> exists u :: u in SleepersOn(z, p) && IsWaiter(y, u, Returned(0)))
      && (forall u :: u in z.threads && u != t && u !in SleepersOn(z, p) ==> y.threads[u] == z.threads[u])
  {
    var y := Apply(z, KernelWake(t, woken));
    forall u | u in woken ensures IsWaiter(y, u, Returned(0)) {
    }
    if woken != {} {
      var u :| u in woken;
      assert IsWaiter(y, u, Returned(0));
    }
  }

  /** A signal or broadcast makes the condvar wait of a blocked thread return 0, that of every blocked thread
      unless the request is for one; it touches nobody else. */
  lemma DepositReleases(z: State, t: Tid, woken: set<Tid>)
    requires Enabled(z, Deposit(t, woken))
    ensures var p := ItemOf(z.threads[t]); var y := Apply(z, Deposit(t, woken));
      && (forall u :: u in BlockedOn(z, p) && (u in woken || z.threads[t].max != 1) ==> IsWaiter(y, u, Reacquiring(0)))
      && (BlockedOn(z, p) != {} ==> exists u :: u in BlockedOn(z, p) && IsWaiter(y, u, Reacquiring(0)))
      && (forall u :: u in z.threads && u != t && u !in BlockedOn(z, p) ==> y.threads[u] == z.threads[u])
  {
    var y := Apply(z, Deposit(t, woken));
    forall u | u in woken ensures IsWaiter(y, u, Reacquiring(0)) {
    }
    if woken != {} {
      var u :| u in woken;
      assert IsWaiter(y, u, Reacquiring(0));
    }
  }
}
