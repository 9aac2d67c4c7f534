/** What a wait returns, and why: the results of calls in terms of what happened to them, and the result of a
    wait that a notify_all has reached. */
module Outcomes {
  import opened Common
  import opened TokenRules
  import opened Protocol
  import opened Registry
  import opened Calls
  import G = Generations
  import T = Tokens

  /** Backend results after which the wait is tried again. */
  predicate Retry(res: int) {
    res >= 0 || res == -EAGAIN || res == -EINTR || res == -ETIMEDOUT
  }

  // ---------------------------------------------------------------- the result of a call

  /** The result of any call in any run, in terms of what it observed: -1 exactly when its registration was
      refused or its last backend result was an error that is not retried, 1 exactly when it saw a
      change after a backend wait, and 0 otherwise, on a late clock reading or a change before any wait. */
  lemma CallResult(s: State, acts: seq<Action>, t: Tid)
    requires Runs(s, acts) && OneCall(s, acts, t)
    ensures var o, r := Observed(s, acts, t), Result(Exec(s, acts), t); var n, l := |o.results|, |o.loads|;
      && l > 0
      && (r == -1 <==> o.found == Some(false) || (n > 0 && !Retry(o.results[n - 1])))
      && (r == 1 <==> n > 0 && o.loads[l - 1] != acts[0].exp)
      && (r == 0 <==> o.found != Some(false) && (n == 0 || Retry(o.results[n - 1])) &&
                      (n == 0 || o.loads[l - 1] == acts[0].exp))
      && (r == 0 && o.loads[l - 1] == acts[0].exp ==> acts[0].timed && |o.late| > 0 && o.late[|o.late| - 1])
      && (-1 <= r <= 1)
  {
    CallEnds(s, acts, t);
  }

  // ---------------------------------------------------------------- waits to which nothing bad happens

  /** The action is not a failure of the thread's own backend wait. */
  predicate Benign(x: Action, t: Tid) {
    match x
    case Park(u, err) => u == t ==> Retry(-err)
    case KernelReturn(u, res) => u == t ==> Retry(res)
    case CondReturn(u, why) => u == t ==> Retry(-why)
    case _ => true
  }

  predicate AllBenign(acts: seq<Action>, t: Tid) {
    forall i {:trigger acts[i]} :: 0 <= i < |acts| ==> Benign(acts[i], t)
  }

  predicate RetrySoFar(o: Seen) {
    Retry(o.due) && forall i {:trigger o.results[i]} :: 0 <= i < |o.results| ==> Retry(o.results[i])
  }

  lemma BenignStep(s: State, x: Action, t: Tid, o: Seen)
    requires Enabled(s, x) && t in s.threads && Benign(x, t) && RetrySoFar(o)
    ensures RetrySoFar(Look(s, x, t, o))
  {
  }

  lemma {:induction false} BenignRun(s: State, acts: seq<Action>, t: Tid, o: Seen)
    requires Runs(s, acts) && t in s.threads && AllBenign(acts, t) && RetrySoFar(o)
    ensures RetrySoFar(Watch(s, acts, t, o))
    decreases |acts|
  {
    if acts != [] {
      assert Benign(acts[0], t);
      BenignStep(s, acts[0], t, o);
      StillThere(s, acts[0], t);
      BenignRun(Apply(s, acts[0]), acts[1..], t, Look(s, acts[0], t, o));
    }
  }

  /** A call to which no error happens never fails once it is registered, whoever wakes it and however often. */
  lemma BenignNeverFails(s: State, acts: seq<Action>, t: Tid)
    requires Runs(s, acts) && OneCall(s, acts, t) && AllBenign(acts, t)
    ensures Result(Exec(s, acts), t) < 0 <==> Observed(s, acts, t).found == Some(false)
  {
    CallResult(s, acts, t);
    BenignRun(s, acts, t, Nothing(acts[0].addr));
  }

  // ---------------------------------------------------------------- waits that a notify_all has reached

  /** The action is neither a failure nor a timeout of the thread's own wait. */
  predicate Undisturbed(x: Action, t: Tid) {
    Benign(x, t) && (x.Check? && x.t == t ==> !x.expired)
  }

  predicate AllUndisturbed(acts: seq<Action>, t: Tid) {
    forall i {:trigger acts[i]} :: 0 <= i < |acts| ==> Undisturbed(acts[i], t)
  }

  /** A wait cycle has been entered, and nothing but a change can end it. */
  predicate Winning(th: Thread) {
    && th.Waiter? && th.ret == 1 && (th.item.Some? || th.pc.Unlocking?)
    && !th.pc.WantTable? && !th.pc.Finding? && !th.pc.Capturing? && !th.pc.Rechecking? && !th.pc.Releasing?
    && (th.pc.Returned? ==> Retry(th.pc.res))
    && (th.pc.Reacquiring? ==> Retry(-th.pc.why))
    && (th.pc.Resuming? ==> Retry(-th.pc.result))
  }

  predicate Won(th: Thread) {
    th == Idle(1) || Winning(th)
  }

  lemma LocalWins(s: State, x: Action)
    requires IsLocal(x) && Enabled(s, x) && Undisturbed(x, x.t) && Winning(s.threads[x.t])
    ensures Won(LocalNext(s, x))
  {
  }

  lemma HeldWins(s: State, x: Action)
    requires !IsLocal(x) && Enabled(s, x) && Winning(s.threads[x.t])
    ensures x.t in Apply(s, x).threads && Won(Apply(s, x).threads[x.t])
  {
  }

  lemma StepWins(s: State, x: Action, t: Tid)
    requires Enabled(s, x) && Undisturbed(x, t) && t in s.threads && Winning(s.threads[t])
    ensures t in Apply(s, x).threads && Won(Apply(s, x).threads[t])
  {
    if x.t != t {
      Others(s, x, t);
    } else if IsLocal(x) {
      LocalWins(s, x);
    } else {
      HeldWins(s, x);
    }
  }

  /** The thread's call returns 1 at some point of the run. */
  predicate ReturnsOne(s: State, acts: seq<Action>, t: Tid)
    requires Runs(s, acts)
    decreases |acts|
  {
    if IsIdle(s, t) then s.threads[t].last == 1
    else acts != [] && ReturnsOne(Apply(s, acts[0]), acts[1..], t)
  }

  lemma {:induction false} WinningRun(s: State, acts: seq<Action>, t: Tid)
    requires Runs(s, acts) && AllUndisturbed(acts, t) && t in s.threads && Won(s.threads[t])
    ensures G.HasReturned(s, acts, t) <==> ReturnsOne(s, acts, t)
    decreases |acts|
  {
    if acts != [] && !IsIdle(s, t) {
      assert Undisturbed(acts[0], t);
      StepWins(s, acts[0], t);
      WinningRun(Apply(s, acts[0]), acts[1..], t);
    }
  }

  /** On the generation counters, a waiter whose object has changed and stays different returns 1 within 17 steps
      of its own once notify_all has completed: unless its own wait fails or times out, or one of its
      parks is fooled by the 32-bit compare. */
  lemma NotifyAllReturnsOne(z: State, acts: seq<Action>, t: Tid)
    requires G.ReachableAlert(z, t) && t in z.threads && Winning(z.threads[t])
    requires Load(z, z.threads[t].addr) != z.threads[t].exp && !G.SomeOwing(z.threads, z.threads[t].addr)
    requires Runs(z, acts) && G.StaysChanged(z, acts, z.threads[t].addr, z.threads[t].exp)
    requires G.Unfooled(z, acts, t) && AllUndisturbed(acts, t)
    ensures ReturnsOne(z, acts, t) || G.OwnSteps(acts, t) < 17
  {
    G.ProgressAfterNotifyAll(z, acts, t);
    WinningRun(z, acts, t);
  }

  /** On pthreads the same, unless its own wait fails or times out, or a needed token is taken for another value. */
  lemma WakeAllReturnsOne(z: State, acts: seq<Action>, t: Tid)
    requires t in z.threads && Winning(z.threads[t])
    requires T.ReachableUnrobbed(z, z.threads[t].addr, z.threads[t].exp)
    requires Load(z, z.threads[t].addr) != z.threads[t].exp && !T.SomeDepositor(z.threads, z.threads[t].addr)
    requires Runs(z, acts) && T.Settled(z, acts, z.threads[t].addr, z.threads[t].exp) && AllUndisturbed(acts, t)
    ensures ReturnsOne(z, acts, t) || G.OwnSteps(acts, t) < 17
  {
    T.ProgressWithTokens(z, acts, t);
    WinningRun(z, acts, t);
  }
}
