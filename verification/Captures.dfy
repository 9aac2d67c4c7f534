/** The generation a waiter parks on: a park succeeds exactly as the bumps since its last capture say. */
module Captures {
  import opened Common
  import opened Protocol
  import opened Registry
  import opened Generations

  /** The action bumps the generation of `p`. */
  predicate BumpsIt(s: State, x: Action, p: Pid)
    requires Enabled(s, x)
  {
    x.Bump? && ItemOf(s.threads[x.t]) == p
  }

  function Bumps(s: State, acts: seq<Action>, p: Pid): nat
    requires Runs(s, acts)
    decreases |acts|
  {
    if acts == [] then 0 else Bit(BumpsIt(s, acts[0], p)) + Bumps(Apply(s, acts[0]), acts[1..], p)
  }

  /** The thread stays registered on `p` and does not capture again. */
  predicate Keeps(s: State, acts: seq<Action>, t: Tid, p: Pid)
    requires Runs(s, acts)
    decreases |acts|
  {
    && t in s.threads && Use(s.threads[t]) == Some(p)
    && (acts == [] ||
        (!(acts[0].t == t && (acts[0].Capture? || acts[0].Recapture?)) && Keeps(Apply(s, acts[0]), acts[1..], t, p)))
  }

  lemma BumpCounts(s: State, x: Action, p: Pid)
    requires Enabled(s, x) && p in s.proxies && p in Apply(s, x).proxies
    ensures Gen(Apply(s, x).proxies, p) == Gen(s.proxies, p) + Bit(BumpsIt(s, x, p))
  {
  }

  lemma LocalKeepsCapture(s: State, x: Action)
    requires IsLocal(x) && Enabled(s, x) && !x.Capture? && !x.Recapture?
    requires Use(s.threads[x.t]).Some? && Use(LocalNext(s, x)).Some?
    ensures LocalNext(s, x).cap == s.threads[x.t].cap
  {
  }

  lemma HeldKeepsCapture(s: State, x: Action)
    requires !IsLocal(x) && Enabled(s, x) && x.t in Apply(s, x).threads
    requires Use(s.threads[x.t]).Some? && Use(Apply(s, x).threads[x.t]).Some?
    ensures Apply(s, x).threads[x.t].cap == s.threads[x.t].cap
  {
  }

  lemma CaptureKept(s: State, x: Action, t: Tid)
    requires Enabled(s, x) && t in s.threads && t in Apply(s, x).threads
    requires Use(s.threads[t]).Some? && Use(Apply(s, x).threads[t]).Some?
    requires !(x.t == t && (x.Capture? || x.Recapture?))
    ensures Apply(s, x).threads[t].cap == s.threads[t].cap
  {
    if x.t != t {
      Others(s, x, t);
    } else if IsLocal(x) {
      LocalKeepsCapture(s, x);
    } else {
      HeldKeepsCapture(s, x);
    }
  }

  lemma {:induction false} BumpsSince(s: State, acts: seq<Action>, t: Tid, p: Pid)
    requires Inv(s) && Runs(s, acts) && Keeps(s, acts, t, p)
    ensures var z := Exec(s, acts);
      && t in z.threads && Use(z.threads[t]) == Some(p) && z.threads[t].cap == s.threads[t].cap
      && Gen(z.proxies, p) == Gen(s.proxies, p) + Bumps(s, acts, p)
    decreases |acts|
  {
    if acts != [] {
      var x, s' := acts[0], Apply(s, acts[0]);
      Step(s, x);
      assert Keeps(s', acts[1..], t, p);
      assert Good(s.backend, s.proxies, s.threads[t]) && Good(s'.backend, s'.proxies, s'.threads[t]);
      BumpCounts(s, x, p);
      CaptureKept(s, x, t);
      BumpsSince(s', acts[1..], t, p);
    }
  }

  lemma TakesGeneration(s: State, x: Action, p: Pid)
    requires Inv(s) && Enabled(s, x) && (x.Capture? || x.Recapture?) && Use(s.threads[x.t]) == Some(p)
    ensures Use(Apply(s, x).threads[x.t]) == Some(p)
    ensures Apply(s, x).threads[x.t].cap == Gen(Apply(s, x).proxies, p)
  {
  }

  lemma SameModulo(x: nat, k: nat)
    ensures x % TWO_32 == (x + k) % TWO_32 <==> k % TWO_32 == 0
  {
  }

  lemma ParkCompares(y: State, t: Tid, p: Pid, k: nat)
    requires Enabled(y, Park(t, 0)) && Use(y.threads[t]) == Some(p) && Gen(y.proxies, p) == y.threads[t].cap + k
    ensures k % TWO_32 == 0 ==> IsWaiter(Apply(y, Park(t, 0)), t, Asleep)
    ensures k % TWO_32 != 0 ==> IsWaiter(Apply(y, Park(t, 0)), t, Returned(-EAGAIN))
  {
    SameModulo(y.threads[t].cap, k);
  }

  /** A park sleeps if and only if the bumps of its proxy since the waiter's last capture are a multiple of 2^32:
      with no bump it sleeps, so that a wake that came before makes nobody spin; with one it does not,
      and the wait reports the failed compare. */
  lemma ParkSleepsIff(z: State, x: Action, acts: seq<Action>, p: Pid)
    requires Reachable(z) && Enabled(z, x) && (x.Capture? || x.Recapture?) && Use(z.threads[x.t]) == Some(p)
    requires Runs(Apply(z, x), acts) && Keeps(Apply(z, x), acts, x.t, p)
    requires Enabled(Exec(Apply(z, x), acts), Park(x.t, 0))
    ensures var y, k := Exec(Apply(z, x), acts), Bumps(Apply(z, x), acts, p);
      && (k % TWO_32 == 0 ==> IsWaiter(Apply(y, Park(x.t, 0)), x.t, Asleep))
      && (k % TWO_32 != 0 ==> IsWaiter(Apply(y, Park(x.t, 0)), x.t, Returned(-EAGAIN)))
  {
    Safety(z);
    Step(z, x);
    TakesGeneration(z, x, p);
    BumpsSince(Apply(z, x), acts, x.t, p);
    ParkCompares(Exec(Apply(z, x), acts), x.t, p, Bumps(Apply(z, x), acts, p));
  }
}
