/** Deadline arithmetic: the absolute deadline of a timed wait, the remaining interval of each round,
    and what each backend makes of that interval. Seconds are unbounded integers; where a backend
    converts to a 64-bit unsigned integer the wrap-around is written out. */
module Deadlines {
  import opened Arithmetic
  import opened Common

  const BILLION: int := 1_000_000_000

  datatype Timespec = Timespec(sec: int, nsec: int)

  predicate Normal(t: Timespec) {
    0 <= t.nsec < BILLION
  }

  function Ns(t: Timespec): int {
    t.sec * BILLION + t.nsec
  }

  // ---------------------------------------------------------------- the wait loops

  /** now + duration, carrying nanoseconds. */
  function Deadline(now: Timespec, d: Timespec): Timespec {
    var sec, nsec := now.sec + d.sec, now.nsec + d.nsec;
    if nsec >= BILLION then Timespec(sec + 1, nsec - BILLION) else Timespec(sec, nsec)
  }

  predicate Expired(now: Timespec, end: Timespec) {
    now.sec > end.sec || (now.sec == end.sec && now.nsec >= end.nsec)
  }

  /** end - now, borrowing nanoseconds. */
  function Remaining(end: Timespec, now: Timespec): Timespec {
    if end.nsec >= now.nsec then Timespec(end.sec - now.sec, end.nsec - now.nsec)
    else Timespec(end.sec - now.sec - 1, end.nsec - now.nsec + BILLION)
  }

  /** The deadline is exact and normalised for every duration with nanoseconds in range, of either sign. */
  lemma DeadlineExact(now: Timespec, d: Timespec)
    requires Normal(now) && Normal(d)
    ensures Normal(Deadline(now, d)) && Ns(Deadline(now, d)) == Ns(now) + Ns(d)
  {
  }

  lemma ExpiredIff(now: Timespec, end: Timespec)
    requires Normal(now) && Normal(end)
    ensures Expired(now, end) <==> Ns(now) >= Ns(end)
  {
    if now.sec > end.sec {
      assert (now.sec - end.sec) * BILLION >= BILLION;
    } else if now.sec < end.sec {
      assert (end.sec - now.sec) * BILLION >= BILLION;
    }
  }

  /** What is left is exact, normalised and strictly positive. */
  lemma RemainingExact(end: Timespec, now: Timespec)
    requires Normal(now) && Normal(end) && !Expired(now, end)
    ensures Normal(Remaining(end, now)) && Ns(Remaining(end, now)) == Ns(end) - Ns(now) > 0 &&
      Remaining(end, now).sec >= 0
  {
    ExpiredIff(now, end);
  }

  // ---------------------------------------------------------------- a bounded time_t

  /** A signed integer type whose largest value is `hi`. */
  predicate InType(x: int, hi: nat) {
    x + hi + 1 >= 0 && x <= hi
  }

  /** Neither the sum nor the carry of the deadline overflows a time_t of that size. */
  predicate DeadlineDefined(now: Timespec, d: Timespec, hi: nat) {
    InType(now.sec + d.sec, hi) && InType(Deadline(now, d).sec, hi)
  }

  /** That is so if and only if the duration ends before the type does, and the plain sum of seconds is not
      below it. */
  lemma DeadlineDefinedIff(now: Timespec, d: Timespec, hi: nat)
    requires Normal(now) && Normal(d)
    ensures DeadlineDefined(now, d, hi) <==>
      now.sec + d.sec + hi + 1 >= 0 && Ns(now) + Ns(d) < (hi + 1) * BILLION
  {
    var end := Deadline(now, d);
    DeadlineExact(now, d);
    if end.sec <= hi {
      assert (hi - end.sec) * BILLION >= 0;
    } else {
      assert (end.sec - hi - 1) * BILLION >= 0;
    }
  }

  /** An overflow of at most one turn, where the compiler lets it wrap. */
  function Wrapped(x: int, hi: nat): int {
    if x > hi then x - 2 * (hi + 1) else if x + hi + 1 < 0 then x + 2 * (hi + 1) else x
  }

  function WrappedDeadline(now: Timespec, d: Timespec, hi: nat): Timespec {
    var sec, nsec := Wrapped(now.sec + d.sec, hi), now.nsec + d.nsec;
    if nsec >= BILLION then Timespec(Wrapped(sec + 1, hi), nsec - BILLION) else Timespec(sec, nsec)
  }

  /** A wait with a duration that is not negative times out in its first round, with no time passed, if and
      only if the duration is zero or the deadline overflows. */
  lemma TimesOutAtOnceIff(now: Timespec, d: Timespec, hi: nat)
    requires Normal(now) && Normal(d) && 0 <= now.sec <= hi && 0 <= d.sec <= hi
    ensures Expired(now, WrappedDeadline(now, d, hi)) <==> Ns(d) == 0 || !DeadlineDefined(now, d, hi)
    ensures DeadlineDefined(now, d, hi) ==> WrappedDeadline(now, d, hi) == Deadline(now, d)
  {
    if DeadlineDefined(now, d, hi) {
      DeadlineExact(now, d);
      ExpiredIff(now, Deadline(now, d));
    }
  }

  const TIME_MAX: nat := 0x7FFF_FFFF_FFFF_FFFF

  /** The longest duration of a 64-bit time_t, meant as forever: one second after the clock's start it is a
      wait that times out at once. */
  lemma ForeverTimesOut()
    ensures var now, d := Timespec(1, 0), Timespec(TIME_MAX, 0);
      !DeadlineDefined(now, d, TIME_MAX) && Expired(now, WrappedDeadline(now, d, TIME_MAX))
  {
  }

  // ---------------------------------------------------------------- rounding and clamping

  function Ceil(x: nat, u: nat): nat
    requires u > 0
  {
    (x + u - 1) / u
  }

  lemma CeilBounds(x: nat, u: nat)
    requires u > 0
    ensures Ceil(x, u) * u >= x && Ceil(x, u) * u < x + u && (x > 0 ==> Ceil(x, u) >= 1)
  {
    var y := x + u - 1;
    assert y == (y / u) * u + y % u;
  }

  function U64(x: int): int {
    x % TWO_64
  }

  /** A remaining interval in units of `u` nanoseconds, `k` to the second, rounded up, computed in 64-bit
      unsigned. */
  function Units(t: Timespec, u: nat, k: nat): int
    requires u > 0
  {
    U64(U64(U64(t.sec) * k) + U64(U64(t.nsec) + (u - 1)) / u)
  }

  /** The same without wrap-around. */
  function TrueUnits(t: Timespec, u: nat, k: nat): int
    requires u > 0
  {
    t.sec * k + (t.nsec + u - 1) / u
  }

  // Nanoseconds in a microsecond and in a millisecond, and how many of those make a second.
  const MICRO: nat := 1_000
  const MICROS: nat := 1_000_000
  const MILLI: nat := 1_000_000
  const MILLIS: nat := 1_000

  /** The longest finite timeout of WaitOnAddress: one less than INFINITE. */
  const WIN_CLAMP: int := 0xFFFF_FFFE
  const WIN_INFINITE: int := 0xFFFF_FFFF

  /** wait_on_address32/64 on macOS: microseconds, clamped to 32 bits; 0 would mean forever. */
  function MacTimeout(t: Timespec): int {
    var us := Units(t, MICRO, MICROS);
    var clamped := if us > UINT32_MAX then UINT32_MAX else us;
    if clamped == 0 then 1 else clamped
  }

  /** wait_on_address* on Windows: milliseconds, clamped below INFINITE. */
  function WinTimeout(t: Timespec): int {
    var ms := Units(t, MILLI, MILLIS);
    if ms >= WIN_CLAMP then WIN_CLAMP else ms
  }

  /** A finite interval is never turned into the sentinel for an infinite wait. */
  lemma NeverForever(t: Timespec)
    ensures 1 <= MacTimeout(t) <= UINT32_MAX
    ensures 0 <= WinTimeout(t) < WIN_INFINITE
  {
  }

  lemma SmallU64(x: nat)
    requires x < TWO_64
    ensures U64(x) == x
  {
  }

  lemma WrapSum(a: nat, b: nat)
    ensures U64(U64(a) + b) == (a + b) % TWO_64
  {
    DivModShift(a % TWO_64 + b, a / TWO_64, TWO_64);
  }

  lemma WrapProduct(x: nat, k: nat)
    ensures U64(U64(x) * k) == (x * k) % TWO_64
  {
    var q, r := x / TWO_64, x % TWO_64;
    assert x * k == (q * k) * TWO_64 + r * k;
    DivModShift(r * k, q * k, TWO_64);
  }

  lemma WrapBoth(x: nat, k: nat, b: nat)
    ensures U64(U64(U64(x) * k) + b) == (x * k + b) % TWO_64 && x * k >= 0
  {
    WrapProduct(x, k);
    WrapSum(x * k, b);
  }

  lemma SmallPart(nsec: nat, u: nat)
    requires nsec < BILLION && 0 < u <= BILLION
    ensures U64(U64(nsec) + (u - 1)) / u == (nsec + u - 1) / u && (nsec + u - 1) / u >= 0
  {
    SmallU64(nsec);
    SmallU64(nsec + (u - 1));
  }

  /** The 64-bit computation is the true one reduced modulo 2^64. */
  lemma UnitsWrap(t: Timespec, u: nat, k: nat)
    requires Normal(t) && t.sec >= 0 && 0 < u <= BILLION
    ensures TrueUnits(t, u, k) >= 0 && Units(t, u, k) == TrueUnits(t, u, k) % TWO_64
  {
    SmallPart(t.nsec, u);
    WrapBoth(t.sec, k, (t.nsec + u - 1) / u);
  }

  /** The true number of units is the interval divided by the unit, rounded up. */
  lemma TrueUnitsCeil(t: Timespec, u: nat, k: nat)
    requires Normal(t) && t.sec >= 0 && u > 0 && k * u == BILLION
    ensures Ns(t) >= 0 && TrueUnits(t, u, k) == Ceil(Ns(t), u)
  {
    assert t.sec * (k * u) == (t.sec * k) * u;
    DivModShift(t.nsec + u - 1, t.sec * k, u);
  }

  /** The timeout handed to the kernel covers the remaining interval, or is the clamp. */
  predicate Covers(timeout: int, u: nat, clamp: int, t: Timespec) {
    timeout * u >= Ns(t) || timeout == clamp
  }

  lemma Reduced(x: nat)
    ensures x < TWO_64 ==> x % TWO_64 == x
    ensures x >= TWO_64 ==> x % TWO_64 <= x - TWO_64
  {
  }

  /** The number of units does not wrap, or wraps to a value that is clamped anyway. */
  predicate Fits(t: Timespec, u: nat, k: nat, clamp: int)
    requires u > 0
  {
    TrueUnits(t, u, k) < TWO_64 || TrueUnits(t, u, k) % TWO_64 >= clamp
  }

  /** On macOS the timeout is the interval in microseconds, rounded up and clamped, if and only if the
      count fits. */
  lemma MacRoundsUpIff(t: Timespec)
    requires Normal(t) && t.sec >= 0 && Ns(t) > 0
    ensures MacTimeout(t) == Min(Ceil(Ns(t), MICRO), UINT32_MAX) <==> Fits(t, MICRO, MICROS, UINT32_MAX)
  {
    UnitsWrap(t, MICRO, MICROS);
    TrueUnitsCeil(t, MICRO, MICROS);
    CeilBounds(Ns(t), MICRO);
    Reduced(TrueUnits(t, MICRO, MICROS));
  }

  /** The same on Windows, for milliseconds and the clamp below INFINITE. */
  lemma WinRoundsUpIff(t: Timespec)
    requires Normal(t) && t.sec >= 0 && Ns(t) > 0
    ensures WinTimeout(t) == Min(Ceil(Ns(t), MILLI), WIN_CLAMP) <==> Fits(t, MILLI, MILLIS, WIN_CLAMP)
  {
    UnitsWrap(t, MILLI, MILLIS);
    TrueUnitsCeil(t, MILLI, MILLIS);
    Reduced(TrueUnits(t, MILLI, MILLIS));
  }

  /** What the kernels are given, for every interval: the true count modulo 2^64, clamped, and on macOS one
      instead of none. */
  lemma TimeoutsAre(t: Timespec)
    requires Normal(t) && t.sec >= 0
    ensures var us := TrueUnits(t, MICRO, MICROS) % TWO_64;
      MacTimeout(t) == if us == 0 then 1 else if us <= UINT32_MAX then us else UINT32_MAX
    ensures var ms := TrueUnits(t, MILLI, MILLIS) % TWO_64;
      WinTimeout(t) == if ms < WIN_INFINITE - 1 then ms else WIN_INFINITE - 1
  {
    UnitsWrap(t, MICRO, MICROS);
    UnitsWrap(t, MILLI, MILLIS);
  }

  /** On macOS the timeout covers the interval unless it is the clamp, if and only if the count fits. */
  lemma MacCoversIff(t: Timespec)
    requires Normal(t) && t.sec >= 0 && Ns(t) > 0
    ensures Covers(MacTimeout(t), MICRO, UINT32_MAX, t) <==> Fits(t, MICRO, MICROS, UINT32_MAX)
  {
    UnitsWrap(t, MICRO, MICROS);
    TrueUnitsCeil(t, MICRO, MICROS);
    CeilBounds(Ns(t), MICRO);
    Reduced(TrueUnits(t, MICRO, MICROS));
  }

  /** The same on Windows. */
  lemma WinCoversIff(t: Timespec)
    requires Normal(t) && t.sec >= 0 && Ns(t) > 0
    ensures Covers(WinTimeout(t), MILLI, WIN_CLAMP, t) <==> Fits(t, MILLI, MILLIS, WIN_CLAMP)
  {
    UnitsWrap(t, MILLI, MILLIS);
    TrueUnitsCeil(t, MILLI, MILLIS);
    CeilBounds(Ns(t), MILLI);
    Reduced(TrueUnits(t, MILLI, MILLIS));
  }

  /** An interval of about 585 thousand years that macOS is asked to wait for less than half a second,
      without the clamp having been applied: the product has wrapped. */
  lemma MacWrapExample()
    ensures var t := Timespec(18_446_744_073_710, 0);
      MacTimeout(t) == 448_384 && !Covers(MacTimeout(t), MICRO, UINT32_MAX, t)
  {
    UnitsWrap(Timespec(18_446_744_073_710, 0), MICRO, MICROS);
  }

  /** An interval of about 585 million years that Windows is asked to wait for 384 milliseconds. */
  lemma WinWrapExample()
    ensures var t := Timespec(18_446_744_073_709_552, 0);
      WinTimeout(t) == 384 && !Covers(WinTimeout(t), MILLI, WIN_CLAMP, t)
  {
    UnitsWrap(Timespec(18_446_744_073_709_552, 0), MILLI, MILLIS);
  }

  // ---------------------------------------------------------------- the clamped loop terminates

  /** How many of the rounds from `i` to `n` ended in a kernel timeout. */
  function Timeouts(timedOut: nat -> bool, i: nat, n: nat): nat
    requires i <= n
    decreases n - i
  {
    if i == n then 0 else (if timedOut(i) then 1 else 0) + Timeouts(timedOut, i + 1, n)
  }

  function Left(end: int, now: int): nat {
    if now < end then end - now else 0
  }

  /** One round of a wait loop with deadline `end`, the clock read before round `i` being `clock(i)`: that
      reading is before the deadline, the clock does not run backwards, and a kernel timeout
      comes only after the clamped timeout, in units of `u`, has passed. */
  predicate ClampedRound(end: int, clock: nat -> int, timedOut: nat -> bool, i: nat, u: nat, c: nat)
    requires u > 0
  {
    && clock(i) < end && clock(i) <= clock(i + 1)
    && (timedOut(i) ==> clock(i + 1) >= clock(i) + Min(Ceil(end - clock(i), u), c) * u)
  }

  ghost predicate ClampedRounds(end: int, clock: nat -> int, timedOut: nat -> bool, n: nat, u: nat, c: nat)
    requires u > 0
  {
    forall i {:trigger ClampedRound(end, clock, timedOut, i, u, c)} :: 0 <= i < n ==>
      ClampedRound(end, clock, timedOut, i, u, c)
  }

  lemma CeilMonotone(x: nat, y: nat, u: nat)
    requires u > 0 && x <= y
    ensures Ceil(x, u) <= Ceil(y, u)
  {
    DivMonotone(x + u - 1, y + u - 1, u);
  }

  /** Taking `c` whole units off an interval takes `c` off its rounded length. */
  lemma CeilMinus(x: nat, c: nat, u: nat)
    requires u > 0 && c * u <= x
    ensures Ceil(x - c * u, u) == Ceil(x, u) - c
  {
    DivModShift(x - c * u + u - 1, c, u);
  }

  /** One kernel timeout either uses up the interval or takes a full clamp off it. */
  lemma TimeoutProgress(end: int, now: int, next: int, u: nat, c: nat)
    requires u > 0 && c > 0 && now < end && next >= now + Min(Ceil(end - now, u), c) * u
    ensures next >= end || Ceil(Ceil(Left(end, next), u), c) + 1 <= Ceil(Ceil(end - now, u), c)
  {
    var r := Ceil(end - now, u);
    CeilBounds(end - now, u);
    if r > c && next < end {
      CeilMonotone(end - next, end - now - c * u, u);
      CeilMinus(end - now, c, u);
      CeilMonotone(Ceil(end - next, u), r - c, c);
      CeilMinus(r, 1, c);
    }
  }

  /** Rounds in which the kernel did not time out do not lengthen what is left. */
  lemma WaitProgress(end: int, now: int, next: int, u: nat, c: nat)
    requires u > 0 && c > 0 && now <= next
    ensures Ceil(Ceil(Left(end, next), u), c) <= Ceil(Ceil(Left(end, now), u), c)
  {
    CeilMonotone(Left(end, next), Left(end, now), u);
    CeilMonotone(Ceil(Left(end, next), u), Ceil(Left(end, now), u), c);
  }

  lemma SomethingLeft(end: int, now: int, u: nat, c: nat)
    requires u > 0 && c > 0 && now < end
    ensures Ceil(Ceil(Left(end, now), u), c) >= 1
  {
    CeilBounds(end - now, u);
    CeilBounds(Ceil(end - now, u), c);
  }

  /** The number of kernel timeouts before the loop exits is at most the rounded interval divided by the
      clamp, rounded up, however many other wake-ups come in between. */
  lemma {:induction false} TimeoutsBounded(
    end: int, clock: nat -> int, timedOut: nat -> bool, i: nat, n: nat, u: nat, c: nat)
    requires u > 0 && c > 0 && i <= n && ClampedRounds(end, clock, timedOut, n, u, c)
    ensures Timeouts(timedOut, i, n) <= Ceil(Ceil(Left(end, clock(i)), u), c)
    decreases n - i
  {
    if i < n {
      TimeoutsBounded(end, clock, timedOut, i + 1, n, u, c);
      assert ClampedRound(end, clock, timedOut, i, u, c);
      assert i + 1 < n ==> ClampedRound(end, clock, timedOut, i + 1, u, c);
      SomethingLeft(end, clock(i), u, c);
      if timedOut(i) {
        TimeoutProgress(end, clock(i), clock(i + 1), u, c);
      } else {
        WaitProgress(end, clock(i), clock(i + 1), u, c);
      }
    }
  }

  // ---------------------------------------------------------------- absolute deadlines

  /** Linux and monotonic pthreads turn the interval back into an absolute time, from a later reading of
      the same clock: never before the caller's deadline. So once the kernel reports a timeout,
      the next reading of the clock is past the caller's deadline too. */
  lemma OneTimeoutIsEnough(end: Timespec, now: Timespec, later: Timespec, woken: Timespec)
    requires Normal(end) && Normal(now) && Normal(later) && Normal(woken) && !Expired(now, end)
    requires Ns(later) >= Ns(now) && Ns(woken) >= Ns(Deadline(later, Remaining(end, now)))
    ensures Ns(Deadline(later, Remaining(end, now))) >= Ns(end) && Expired(woken, end)
  {
    RemainingExact(end, now);
    DeadlineExact(later, Remaining(end, now));
    ExpiredIff(woken, end);
  }
}
