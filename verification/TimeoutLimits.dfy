/** Durations so long that the 64-bit product of a backend wraps: timed waits that see more kernel timeouts
    than fit into them. */
module TimeoutLimits {
  import opened Common
  import opened Deadlines
  import opened WaitLoops

  lemma {:induction false} AllTimeouts(timedOut: nat -> bool, i: nat, n: nat)
    requires i <= n && forall j {:trigger timedOut(j)} :: timedOut(j)
    ensures Timeouts(timedOut, i, n) == n - i
    decreases n - i
  {
    if i < n {
      AllTimeouts(timedOut, i + 1, n);
    }
  }

  // ---------------------------------------------------------------- macOS

  /** A time in microseconds. */
  function Micros(us: nat): Timespec {
    Timespec(us / MICROS, us % MICROS * MICRO)
  }

  lemma MicrosExact(us: nat)
    ensures Normal(Micros(us)) && Micros(us).sec >= 0 && Ns(Micros(us)) == us * MICRO
    ensures TrueUnits(Micros(us), MICRO, MICROS) == us
  {
  }

  /** The timeout of a count of microseconds, wrapped or not. */
  lemma MacMicros(us: nat)
    requires us > 0
    ensures us < TWO_64 ==> MacTimeout(Micros(us)) == Min(us, UINT32_MAX)
    ensures us == TWO_64 ==> MacTimeout(Micros(us)) == 1
    ensures us == TWO_64 + 448_384 ==> MacTimeout(Micros(us)) == 448_384
  {
    MicrosExact(us);
    UnitsWrap(Micros(us), MICRO, MICROS);
    Reduced(us);
  }

  /** 18,446,744,073,710 seconds, in microseconds. */
  const LONG_WAIT: nat := 18_446_744_073_710_000_000

  /** When round `i` starts if every kernel wait lasts exactly its timeout: 448,384 microseconds, then one,
      then full clamps. */
  function RoundAt(i: nat): nat {
    if i == 0 then 0 else if i == 1 then 448_384 else 448_385 + (i - 2) * UINT32_MAX
  }

  lemma RoundLasts(i: nat)
    requires i < TWO_32 + 3
    ensures RoundAt(i) < LONG_WAIT && RoundAt(i + 1) == RoundAt(i) + MacTimeout(Micros(LONG_WAIT - RoundAt(i)))
  {
    MacMicros(LONG_WAIT - RoundAt(i));
  }

  function LongEnv(): Env {
    Env((i: nat) => 0, (i: nat) => Micros(if i == 0 then 0 else RoundAt(i - 1)), (i: nat) => -ETIMEDOUT)
  }

  /** The interval passed to the kernel in round `i`. */
  function LongLeft(i: nat): Timespec {
    Micros(if RoundAt(i) < LONG_WAIT then LONG_WAIT - RoundAt(i) else 0)
  }

  lemma LongRound(i: nat)
    requires i < TWO_32 + 3
    ensures Normal(LongLeft(i)) && Ns(LongLeft(i)) == LONG_WAIT * MICRO - Ns(LongEnv().clocks(i + 1)) > 0
    ensures KernelWaits(LongEnv(), i, MacTimeout(LongLeft(i)) * MICRO)
  {
    RoundLasts(i);
    NeverForever(LongLeft(i));
    MicrosExact(RoundAt(i));
    MicrosExact(RoundAt(i + 1));
    MicrosExact(LONG_WAIT - RoundAt(i));
  }

  lemma LongClock(i: nat)
    ensures Normal(LongEnv().clocks(i))
  {
    MicrosExact(if i == 0 then 0 else RoundAt(i - 1));
  }

  function LongTrace(): Trace {
    Trace(TWO_32 + 3, TWO_32 + 4, TWO_32 + 3, seq(TWO_32 + 3, (i: nat) => LongLeft(i)))
  }

  const LONG_DURATION: Timespec := Timespec(18_446_744_073_710, 0)

  lemma LongGiven(i: nat)
    requires i < TWO_32 + 3
    ensures |LongTrace().given| == TWO_32 + 3 && LongTrace().given[i] == LongLeft(i)
  {
  }

  lemma LongEnd()
    ensures EndNs(LongEnv(), LONG_DURATION) == LONG_WAIT * MICRO
  {
  }

  lemma LongIntervals(env: Env, tr: Trace)
    requires env == LongEnv() && tr == LongTrace()
    ensures ExactIntervals(env, Some(LONG_DURATION), tr)
  {
    LongEnd();
    LongGiven(0);
    forall i: nat | i < tr.waits
      ensures Normal(tr.given[i]) && Ns(tr.given[i]) == EndNs(env, LONG_DURATION) - Ns(env.clocks(i + 1)) > 0
    {
      LongGiven(i);
      LongRound(i);
    }
  }

  lemma LongRounds(env: Env, tr: Trace)
    requires env == LongEnv() && tr == LongTrace()
    ensures |tr.given| == tr.waits && MacBackend(env, tr)
  {
    LongGiven(0);
    forall i: nat | i < tr.waits
      ensures KernelWaits(env, i, MacTimeout(tr.given[i]) * MICRO)
    {
      LongGiven(i);
      LongRound(i);
    }
  }

  /** macOS can time out more often than the bound for fitting counts says. */
  lemma MacBoundFails() returns (env: Env, d: Timespec, tr: Trace)
    ensures Sane(env, Some(d)) && ExactIntervals(env, Some(d), tr) && MacBackend(env, tr)
    ensures Timeouts(KernelTimeout(env), 0, tr.waits) == TWO_32 + 3
    ensures TimeoutBound(env, d, MICRO, UINT32_MAX) == TWO_32 + 2
  {
    env, d, tr := LongEnv(), LONG_DURATION, LongTrace();
    forall i: nat ensures Normal(env.clocks(i)) {
      LongClock(i);
    }
    LongEnd();
    LongIntervals(env, tr);
    LongRounds(env, tr);
    AllTimeouts(KernelTimeout(env), 0, tr.waits);
  }

  // ---------------------------------------------------------------- Windows

  /** On Windows an interval of exactly 2^64 milliseconds becomes a timeout of none, so a wait of that length
      can see any number of kernel timeouts while the clock stands still. */
  lemma WinBoundFails(n: nat) returns (env: Env, d: Timespec, tr: Trace)
    ensures Sane(env, Some(d)) && ExactIntervals(env, Some(d), tr) && WinBackend(env, tr)
    ensures Timeouts(KernelTimeout(env), 0, tr.waits) == n
    ensures d == Timespec(18_446_744_073_709_551, 616_000_000) && WinTimeout(d) == 0
  {
    d := Timespec(18_446_744_073_709_551, 616_000_000);
    env := Env((i: nat) => 0, (i: nat) => Timespec(0, 0), (i: nat) => -ETIMEDOUT);
    tr := Trace(n, n + 1, n, seq(n, (i: nat) => d));
    UnitsWrap(d, MILLI, MILLIS);
    AllTimeouts(KernelTimeout(env), 0, n);
  }
}
