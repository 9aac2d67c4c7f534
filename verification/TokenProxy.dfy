/** The pthreads proxy as the object the program keeps: two counters under one mutex. Each method
    is one call; the condition variable is what the environment answers to each wait on it. */
module TokenProxy {
  import opened Common
  import opened TokenRules

  /** One return from the condvar wait: its result, and the counters found with the mutex held again. */
  datatype Wakeup = Wakeup(why: int, seen: Counters)

  /** How a wake posts the condition variable. */
  datatype Post = Signal | Broadcast

  // ---------------------------------------------------------------- what a wait amounts to

  /** The condvar loop, rule by rule. `c` is what the thread left behind when it last gave up the mutex. */
  function Resumes(c: Counters, ws: seq<Wakeup>): (Counters, Next)
    decreases |ws|
  {
    if ws == [] then (c, Block)
    else
      var (c', next) := ResumeRule(ws[0].seen, ws[0].why);
      if next.Block? then Resumes(c', ws[1..]) else (c', next)
  }

  function Waits(c: Counters, ws: seq<Wakeup>): (Counters, Next) {
    var (c', next) := EnterRule(c);
    if next.Block? then Resumes(c', ws) else (c', next)
  }

  /** A return from the condvar wait that ends the call. */
  predicate Decisive(w: Wakeup) {
    w.why != 0 || w.seen.pending > 0
  }

  /** Spurious wake-ups are passed over; the first decisive return alone settles the call. */
  lemma {:induction false} FirstDecisive(c: Counters, ws: seq<Wakeup>, k: nat)
    requires k < |ws| && Decisive(ws[k]) && forall j {:trigger ws[j]} :: 0 <= j < k ==> !Decisive(ws[j])
    ensures Resumes(c, ws) == ResumeRule(ws[k].seen, ws[k].why) && Resumes(c, ws).1.Leave?
    decreases |ws|
  {
    if k > 0 {
      FirstDecisive(ResumeRule(ws[0].seen, ws[0].why).0, ws[1..], k - 1);
    }
  }

  /** Without a decisive return the thread stays parked and leaves the counters as it last found them. */
  lemma {:induction false} NoneDecisive(c: Counters, ws: seq<Wakeup>)
    requires forall j {:trigger ws[j]} :: 0 <= j < |ws| ==> !Decisive(ws[j])
    ensures Resumes(c, ws) == (if ws == [] then c else ws[|ws| - 1].seen, Block)
    decreases |ws|
  {
    if ws != [] {
      NoneDecisive(ws[0].seen, ws[1..]);
    }
  }

  /** A call that finds a token queued takes it and returns 0 at once, whatever happens later. */
  lemma TokenQueued(c: Counters, ws: seq<Wakeup>)
    requires c.pending > 0
    ensures Waits(c, ws) == (Counters(c.pending - 1, c.waiting), Leave(0))
  {
  }

  /** A call that returns takes one token exactly when it reports success, and none on a timeout or an error;
      the parked count ends as if the call had not been made. `w` is the return that settled it. */
  lemma TakesWhatItReports(c: Counters, ws: seq<Wakeup>, k: nat)
    requires c.pending <= 0 && k < |ws| && Decisive(ws[k])
    requires forall j {:trigger ws[j]} :: 0 <= j < k ==> !Decisive(ws[j])
    requires ws[k].why >= 0
    ensures var w, (c', next) := ws[k], Waits(c, ws);
      && next == Leave(-w.why)
      && c' == Counters(w.seen.pending - (if next.res == 0 then 1 else 0), w.seen.waiting - 1)
      && (w.seen.pending >= 0 ==> c'.pending >= 0)
  {
    FirstDecisive(c.(waiting := c.waiting + 1), ws, k);
  }

  // ---------------------------------------------------------------- what a wake reports

  /** The count reported by a wake of `max` threads with `waiting` of them parked. */
  function Report(waiting: int, max: nat): int {
    var woken :=
      if max == WAKE_ALL then waiting
      else if waiting < AsInt(max) then waiting
      else AsInt(max);
    if woken < 1 then 1 else woken
  }

  /** The report is positive, and it is the number of parked threads the request could reach, taken as at
      least one, if and only if the request fits an int, is wake-all, or meets at most one parked
      thread: larger requests turn negative in the conversion and are reported as one. */
  lemma ReportIff(waiting: int, max: nat)
    requires 0 <= waiting <= INT_MAX && max <= UINT32_MAX
    ensures 1 <= Report(waiting, max) <= Max(1, waiting)
    ensures Report(waiting, max) == Max(1, Min(waiting, max)) <==> max <= INT_MAX || max == WAKE_ALL || waiting <= 1
    ensures INT_MAX < max < WAKE_ALL ==> Report(waiting, max) == 1
  {
  }

  /** Two parked threads, a request for 2^31 of them: one is reported. */
  lemma ReportFallsShort()
    ensures Report(2, 0x8000_0000) == 1
  {
  }

  // ---------------------------------------------------------------- the proxy

  class TokenProxy {
    var pending: int
    var waiting: int

    function Counts(): Counters
      reads this
    {
      Counters(pending, waiting)
    }

    /** pthread_proxy_init, when both primitives initialise. */
    constructor ()
      ensures Counts() == Counters(0, 0)
    {
      pending, waiting := 0, 0;
    }

    /** pthread_proxy_wait. None: still on the condition variable when the environment's answers ran out. */
    method Wait(wakeups: seq<Wakeup>) returns (res: Option<int>)
      modifies this
      ensures Waits(old(Counts()), wakeups) == (Counts(), if res.None? then Block else Leave(res.value))
      ensures old(pending) > 0 ==> res == Some(0) && pending == old(pending) - 1 && waiting == old(waiting)
    {
      if pending > 0 {
        pending := pending - 1;
        return Some(0);
      }
      waiting := waiting + 1;
      var i := 0;
      while i < |wakeups|
        invariant i <= |wakeups|
        invariant Waits(old(Counts()), wakeups) == Resumes(Counts(), wakeups[i..])
      {
        var w := wakeups[i];
        pending, waiting := w.seen.pending, w.seen.waiting;
        i := i + 1;
        if w.why == 0 {
          if pending > 0 {
            pending := pending - 1;
            waiting := waiting - 1;
            return Some(0);
          }
          continue;
        }
        waiting := waiting - 1;
        return Some(-w.why);
      }
      return None;
    }

    /** pthread_proxy_wake. `posted` is what signal or broadcast returned: an error is reported, the tokens
        stay. `wide` says that `long` is wider than int; if it is not, the sum must not overflow. */
    method Wake(max: nat, registered: int, posted: int, wide: bool) returns (ret: int, post: Post)
      requires max <= UINT32_MAX && 0 <= waiting <= INT_MAX && posted >= 0
      requires wide || pending + AsInt(max) <= INT_MAX
      modifies this`pending
      ensures pending == (if wide then DepositRule(old(pending), max, registered)
        else NarrowDeposit(old(pending), max, registered))
      ensures ret == (if posted != 0 then -posted else Report(waiting, max))
      ensures post.Signal? <==> max == 1
      ensures ret > 0 <==> posted == 0
      ensures pending <= Max(1, registered) && (max == WAKE_ALL ==> pending >= Max(1, registered))
      ensures old(pending) >= 0 && (wide || max <= INT_MAX || max == WAKE_ALL) ==> pending >= 0
    {
      var cap := if registered > 0 then registered else 1;
      if max == WAKE_ALL {
        pending := cap;
      } else {
        var np := pending + (if wide then max else AsInt(max));
        pending := if np > cap then cap else np;
      }
      post := if max == 1 then Signal else Broadcast;
      var woken;
      if max == WAKE_ALL {
        woken := waiting;
      } else if waiting < AsInt(max) {
        woken := waiting;
      } else {
        woken := AsInt(max);
      }
      if woken < 1 {
        woken := 1;
      }
      ret := if posted != 0 then -posted else woken;
    }
  }
}
