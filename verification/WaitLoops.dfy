/** The two wait loops, the native one of atomic_wait_expected_32 and the proxy one of
    atomic_wait_generic, over arbitrary sequences of loads, clock readings and backend results; and
    the one relation between what was observed and what is returned that both of them keep. */
module WaitLoops {
  import opened Common
  import opened Deadlines

  type Val = int

  /** What the environment answers, each kind of question numbered from 0. */
  datatype Env = Env(loads: nat -> Val, clocks: nat -> Timespec, waits: nat -> int)

  /** How many answers of each kind a call consumed, and the intervals it passed to the backend. */
  datatype Trace = Trace(loads: nat, clocks: nat, waits: nat, given: seq<Timespec>)

  /** Still in the loop, or returned: the result, the final `*expected` and errno. */
  datatype Exit = Running | Exit(ret: int, expected: Val, errno: int)

  /** What find_or_create answers, and the errno it leaves behind. */
  datatype Find = Find(ok: bool, errno: int)

  // ---------------------------------------------------------------- the common promise

  ghost predicate Sane(env: Env, d: Option<Timespec>) {
    (d.Some? ==> Normal(d.value)) && forall i {:trigger env.clocks(i)} :: Normal(env.clocks(i))
  }

  /** The caller's deadline, on the clock of the first reading. */
  function EndNs(env: Env, d: Timespec): int {
    Ns(env.clocks(0)) + Ns(d)
  }

  /** The first `l` loads, `c` clock readings and `w` backend results gave no reason to stop. */
  ghost predicate Uneventful(env: Env, e: Val, d: Option<Timespec>, l: nat, c: nat, w: nat) {
    && (forall i {:trigger env.loads(i)} :: 0 <= i < l ==> env.loads(i) == e)
    && (forall i {:trigger env.waits(i)} :: 0 <= i < w ==> !HardError(env.waits(i)))
    && (d.Some? ==> forall i {:trigger env.clocks(i)} :: 1 <= i < c ==> Ns(env.clocks(i)) < EndNs(env, d.value))
  }

  /** Every interval passed to the backend is normalised, strictly positive, and exactly the deadline
      minus the reading of that round. */
  ghost predicate ExactIntervals(env: Env, d: Option<Timespec>, tr: Trace) {
    if d.None? then tr.given == [] && tr.clocks == 0
    else
      && |tr.given| == tr.waits < tr.clocks
      && forall i {:trigger tr.given[i]} :: 0 <= i < tr.waits ==>
        Normal(tr.given[i]) && Ns(tr.given[i]) == EndNs(env, d.value) - Ns(env.clocks(i + 1)) > 0
  }

  /** The last load differed: `*expected` is its value, errno is as on entry, and the result says whether
      a wait cycle had been entered. */
  ghost predicate ByChange(env: Env, e: Val, d: Option<Timespec>, errno: int, tr: Trace, o: Exit) {
    && tr.loads >= 1 && Uneventful(env, e, d, tr.loads - 1, tr.clocks, tr.waits)
    && env.loads(tr.loads - 1) != e
    && o == Exit(if tr.waits > 0 then 1 else 0, env.loads(tr.loads - 1), errno)
  }

  /** The last clock reading was at or past the deadline: zero, ETIMEDOUT, `*expected` untouched. */
  ghost predicate ByTimeout(env: Env, e: Val, d: Option<Timespec>, tr: Trace, o: Exit) {
    && d.Some? && tr.clocks >= 2 && Uneventful(env, e, d, tr.loads, tr.clocks - 1, tr.waits)
    && Ns(env.clocks(tr.clocks - 1)) >= EndNs(env, d.value)
    && o == Exit(0, e, ETIMEDOUT)
  }

  /** The last backend result was a hard error: -1, its errno, `*expected` untouched. */
  ghost predicate ByError(env: Env, e: Val, d: Option<Timespec>, tr: Trace, o: Exit) {
    && tr.waits >= 1 && Uneventful(env, e, d, tr.loads, tr.clocks, tr.waits - 1)
    && HardError(env.waits(tr.waits - 1))
    && o == Exit(-1, e, -env.waits(tr.waits - 1))
  }

  /** The table refused a proxy: -1, the errno it left, `*expected` untouched, no wait entered. */
  ghost predicate ByRefusal(env: Env, e: Val, d: Option<Timespec>, refusal: Option<int>, tr: Trace, o: Exit) {
    refusal.Some? && tr.waits == 0 && Uneventful(env, e, d, tr.loads, tr.clocks, 0) && o == Exit(-1, e, refusal.value)
  }

  ghost predicate Promised(
    env: Env, e: Val, d: Option<Timespec>, errno: int, refusal: Option<int>, tr: Trace, o: Exit)
  {
    || (o.Running? && Uneventful(env, e, d, tr.loads, tr.clocks, tr.waits))
    || ByChange(env, e, d, errno, tr, o) || ByTimeout(env, e, d, tr, o) || ByError(env, e, d, tr, o)
    || ByRefusal(env, e, d, refusal, tr, o)
  }

  // ---------------------------------------------------------------- one clock reading

  /** Between rounds: nothing has happened yet that ends the wait, and `end` is the caller's deadline. */
  ghost predicate Between(env: Env, e: Val, d: Option<Timespec>, end: Timespec, tr: Trace) {
    && Uneventful(env, e, d, tr.loads, tr.clocks, tr.waits) && ExactIntervals(env, d, tr)
    && (d.Some? ==> tr.clocks == tr.waits + 1 && Normal(end) && Ns(end) == EndNs(env, d.value))
  }

  /** The start of a call: the deadline is fixed once, from the first reading. */
  method Begin(env: Env, e: Val, d: Option<Timespec>) returns (end: Timespec, tr: Trace)
    requires Sane(env, d)
    ensures Between(env, e, d, end, tr) && tr.loads == tr.waits == 0
  {
    end, tr := Timespec(0, 0), Trace(0, 0, 0, []);
    if d.Some? {
      end := Deadline(env.clocks(0), d.value);
      tr := tr.(clocks := 1);
      DeadlineExact(env.clocks(0), d.value);
    }
  }

  /** The timed part of a round: time out, or work out the interval for the backend. */
  method ReadClock(env: Env, e: Val, d: Option<Timespec>, end: Timespec, tr: Trace) returns (expired: bool, tr': Trace)
    requires Sane(env, d) && Between(env, e, d, end, tr)
    ensures expired ==>
      && tr' == tr.(clocks := tr.clocks + 1) && ExactIntervals(env, d, tr')
      && ByTimeout(env, e, d, tr', Exit(0, e, ETIMEDOUT))
    ensures !expired ==> tr'.loads == tr.loads && tr'.waits == tr.waits && (d.Some? ==> tr'.clocks == tr.waits + 2)
    ensures !expired ==>
      Uneventful(env, e, d, tr.loads, tr'.clocks, tr.waits) && ExactIntervals(env, d, tr'.(waits := tr.waits + 1))
  {
    expired, tr' := false, tr;
    if d.Some? {
      var now := env.clocks(tr.clocks);
      tr' := tr.(clocks := tr.clocks + 1);
      ExpiredIff(now, end);
      if Expired(now, end) {
        return true, tr';
      }
      RemainingExact(end, now);
      tr' := tr'.(given := tr.given + [Remaining(end, now)]);
    }
  }

  /** Clock readings of a call: one for the deadline, one for every wait entered, and one that timed out. */
  function Readings(e: Val, d: Option<Timespec>, waits: nat, o: Exit): nat {
    if d.None? then 0 else waits + (if o.Exit? && o.ret == 0 && o.expected == e then 2 else 1)
  }

  /** Why a wait loop was left: the result, the value for `*expected`, and the errno it sets, if any. */
  datatype Why = Still | Gone(ret: int, seen: Val, errno: Option<int>)

  /** The lower half of a round, the same in both loops: read the clock, wait on the backend, and give up on a
      timeout or a hard error. */
  method WaitOnce(env: Env, e: Val, d: Option<Timespec>, end: Timespec, tr: Trace) returns (why: Why, tr': Trace)
    requires Sane(env, d) && Between(env, e, d, end, tr)
    ensures tr'.loads == tr.loads
    ensures why.Still? ==> Between(env, e, d, end, tr') && tr'.waits == tr.waits + 1
    ensures why.Gone? ==> why.errno.Some? && ExactIntervals(env, d, tr')
    ensures why.Gone? ==>
      var o := Exit(why.ret, why.seen, why.errno.value);
      && tr'.clocks == Readings(e, d, tr'.waits, o)
      && if why.ret == 0 then tr'.waits == tr.waits && ByTimeout(env, e, d, tr', o)
         else tr'.waits == tr.waits + 1 && ByError(env, e, d, tr', o)
  {
    var expired;
    expired, tr' := ReadClock(env, e, d, end, tr);
    if expired {
      return Gone(0, e, Some(ETIMEDOUT)), tr';
    }
    var ret2 := env.waits(tr'.waits);
    tr' := tr'.(waits := tr'.waits + 1);
    if HardError(ret2) {
      return Gone(-1, e, Some(-ret2)), tr';
    }
    why := Still;
  }

  // ---------------------------------------------------------------- the native loop

  /** Everything the native loop promises of a call: the outcome relation, exact intervals, and how many
      answers of each kind it took. */
  ghost predicate NativeCall(env: Env, e: Val, d: Option<Timespec>, errno: int, rounds: nat, tr: Trace, o: Exit) {
    && Promised(env, e, d, errno, None, tr, o) && ExactIntervals(env, d, tr)
    && tr.clocks == Readings(e, d, tr.waits, o)
    && (o.Running? ==> tr.loads == tr.waits == rounds)
    && (o.Exit? ==> tr.loads == tr.waits + (if o.ret < 0 then 0 else 1) && tr.loads <= rounds)
  }

  /** atomic_wait_expected_32 where the platform can wait on the object itself. */
  method NativeWait(env: Env, expected: Val, d: Option<Timespec>, entryErrno: int, rounds: nat)
    returns (o: Exit, tr: Trace)
    requires Sane(env, d)
    ensures NativeCall(env, expected, d, entryErrno, rounds, tr, o)
  {
    var ret, end, why := 0, Timespec(0, 0), Still;
    end, tr := Begin(env, expected, d);
    while tr.waits < rounds
      invariant tr.loads == tr.waits <= rounds && ret == (if tr.waits > 0 then 1 else 0)
      invariant Between(env, expected, d, end, tr)
      decreases rounds - tr.waits
    {
      var current := env.loads(tr.loads);
      tr := tr.(loads := tr.loads + 1);
      if current != expected {
        return Exit(ret, current, entryErrno), tr;
      }
      ret := 1;
      why, tr := WaitOnce(env, expected, d, end, tr);
      if why.Gone? {
        return Exit(why.ret, why.seen, why.errno.value), tr;
      }
    }
    return Running, tr;
  }

  // ---------------------------------------------------------------- the proxy loop

  /** What a call has taken and not yet given back: the table lock, and a use of the proxy. */
  datatype Held = Held(locks: int, uses: int)

  /** Registration under the table lock, with the second look at the object. */
  method Enlist(env: Env, expected: Val, d: Option<Timespec>, end: Timespec, find: Find, tr: Trace)
    returns (refused: bool, changed: bool, tr': Trace, held: Held)
    requires Between(env, expected, d, end, tr) && tr.waits == 0
    ensures refused == !find.ok && (refused ==> !changed && tr' == tr && held == Held(0, 0))
    ensures !refused ==> tr' == tr.(loads := tr.loads + 1) && changed == (env.loads(tr.loads) != expected)
    ensures !refused ==> held == Held(if changed then 1 else 0, 1)
    ensures !refused && !changed ==> Between(env, expected, d, end, tr')
  {
    held := Held(1, 0);
    if !find.ok {
      held := Held(held.locks - 1, held.uses);
      return true, false, tr, held;
    }
    held := Held(held.locks, held.uses + 1);
    var current := env.loads(tr.loads);
    tr' := tr.(loads := tr.loads + 1);
    if current != expected {
      return false, true, tr', held;
    }
    held := Held(held.locks - 1, held.uses);
    return false, false, tr', held;
  }

  /** Everything the proxy loop promises of a call. It takes one load more than the native loop: the second
      look at the object under the table lock. */
  ghost predicate GenericCall(
    env: Env, e: Val, d: Option<Timespec>, errno: int, find: Find, rounds: nat, tr: Trace, o: Exit)
  {
    && Promised(env, e, d, errno, if find.ok then None else Some(find.errno), tr, o) && ExactIntervals(env, d, tr)
    && tr.clocks == Readings(e, d, tr.waits, o)
    && (o.Running? ==> tr.waits == rounds && tr.loads == if rounds > 0 then rounds + 1 else 0)
    && (rounds > 0 && env.loads(0) == e && !find.ok ==> o.Exit? && o.ret == -1)
    && (o.Exit? ==>
          && tr.waits + (if o.ret < 0 then 0 else 1) <= rounds
          && if env.loads(0) != e || !find.ok then tr.loads == 1 && tr.waits == 0
             else tr.loads == tr.waits + (if o.ret < 0 then 1 else 2))
  }

  /** atomic_wait_generic. Besides the common promise: on every way out the table lock has been released as
      often as it was taken and the registration has been undone. */
  method GenericWait(env: Env, expected: Val, d: Option<Timespec>, entryErrno: int, find: Find, rounds: nat)
    returns (o: Exit, tr: Trace, held: Held)
    requires Sane(env, d)
    ensures GenericCall(env, expected, d, entryErrno, find, rounds, tr, o)
    ensures o.Exit? ==> held == Held(0, 0)
    ensures o.Running? ==> held == Held(0, if rounds > 0 then 1 else 0)
  {
    var errno, why, item, ret, end := entryErrno, Still, false, 0, Timespec(0, 0);
    var refused, changed := false, false;
    held := Held(0, 0);
    end, tr := Begin(env, expected, d);
    while tr.waits < rounds
      invariant tr.waits <= rounds && why.Still?
      invariant item == (tr.waits > 0) && ret == (if item then 1 else 0) && held == Held(0, ret)
      invariant tr.loads == (if item then tr.waits + 1 else 0)
      invariant if item then find.ok && env.loads(0) == expected else errno == entryErrno
      invariant Between(env, expected, d, end, tr)
      decreases rounds - tr.waits
    {
      var current := env.loads(tr.loads);
      tr := tr.(loads := tr.loads + 1);
      if current != expected {
        why := Gone(ret, current, None);
        break;
      }
      if !item {
        errno := find.errno;
        refused, changed, tr, held := Enlist(env, expected, d, end, find, tr);
        if refused {
          return Exit(-1, expected, errno), tr, held;
        }
        item := true;
        if changed {
          why := Gone(ret, env.loads(tr.loads - 1), None);
          break;
        }
        ret := 1;
      }
      why, tr := WaitOnce(env, expected, d, end, tr);
      if why.Gone? {
        break;
      }
    }
    if why.Still? {
      return Running, tr, held;
    }
    if item {
      var saved := if why.errno.Some? then why.errno.value else entryErrno;
      if held.locks == 0 {
        held := Held(held.locks + 1, held.uses);
      }
      held := Held(held.locks - 1, held.uses - 1);
      errno := saved;
    }
    o := Exit(why.ret, why.seen, errno);
  }

  // ---------------------------------------------------------------- what the promise means

  /** Sections "Returns" of 7.17.7.10: positive means that a wait cycle was entered and `*expected` is the
      differing value that ended it; zero means an immediate mismatch, or a timeout after at least
      the whole duration, with `*expected` as on entry; negative leaves `*expected` alone. */
  lemma Returns(env: Env, e: Val, d: Option<Timespec>, errno: int, refusal: Option<int>, tr: Trace, o: Exit)
    requires Promised(env, e, d, errno, refusal, tr, o) && o.Exit?
    ensures o.ret > 0 <==> o.expected != e && tr.waits > 0
    ensures o.ret > 0 ==> o.expected == env.loads(tr.loads - 1) && o.errno == errno
    ensures o.ret == 0 && o.expected != e ==> tr.waits == 0 && o.errno == errno
    ensures o.ret == 0 && o.expected == e ==>
      d.Some? && o.errno == ETIMEDOUT && Ns(env.clocks(tr.clocks - 1)) - Ns(env.clocks(0)) >= Ns(d.value)
    ensures o.ret < 0 ==> o.expected == e
  {
  }

  // ---------------------------------------------------------------- both loops compute the same

  /** Round `i` of a wait sees its value, is within the deadline, and its backend wait is not a hard error. */
  ghost predicate InTime(env: Env, d: Option<Timespec>, i: nat) {
    d.Some? ==> Ns(env.clocks(i + 1)) < EndNs(env, d.value)
  }

  ghost predicate Quiet(env: Env, e: Val, d: Option<Timespec>, i: nat) {
    env.loads(i) == e && InTime(env, d, i) && !HardError(env.waits(i))
  }

  /** How a wait of at most `rounds` rounds, one load and one clock reading to the round, ends after `w`
      waits. */
  ghost predicate Ends(env: Env, e: Val, d: Option<Timespec>, errno: int, rounds: nat, w: nat, o: Exit) {
    && (forall i {:trigger Quiet(env, e, d, i)} ::
          0 <= i < (if o.Exit? && o.ret < 0 then w - 1 else w) ==> Quiet(env, e, d, i))
    && w <= rounds
    && match o
       case Running => w == rounds
       case Exit(ret, _, _) =>
         if ret < 0 then
           && w > 0 && env.loads(w - 1) == e && InTime(env, d, w - 1) && HardError(env.waits(w - 1))
           && o == Exit(-1, e, -env.waits(w - 1))
         else
           && w < rounds
           && if env.loads(w) != e then o == Exit(if w > 0 then 1 else 0, env.loads(w), errno)
              else !InTime(env, d, w) && o == Exit(0, e, ETIMEDOUT)
  }

  /** The answers of the environment settle how it ends. */
  lemma EndsOnce(env: Env, e: Val, d: Option<Timespec>, errno: int, rounds: nat, w: nat, o: Exit, w': nat, o': Exit)
    requires Ends(env, e, d, errno, rounds, w, o) && Ends(env, e, d, errno, rounds, w', o')
    ensures w == w' && o == o'
  {
    var last, last' := if o.Exit? && o.ret < 0 then w - 1 else w, if o'.Exit? && o'.ret < 0 then w' - 1 else w';
    assert last < last' ==> Quiet(env, e, d, last);
    assert last' < last ==> Quiet(env, e, d, last');
  }

  /** The environment without the answer to the second look. */
  function OneLook(env: Env): Env {
    env.(loads := (i: nat) => if i == 0 then env.loads(0) else env.loads(i + 1))
  }

  lemma RoundsInTime(env: Env, d: Option<Timespec>, tr: Trace, i: nat)
    requires ExactIntervals(env, d, tr)
    ensures i < tr.waits ==> InTime(env, d, i)
  {
    assert d.Some? && i < tr.waits ==> Ns(tr.given[i]) > 0;
  }

  lemma NativeEnds(env: Env, e: Val, d: Option<Timespec>, errno: int, rounds: nat, tr: Trace, o: Exit)
    requires NativeCall(env, e, d, errno, rounds, tr, o)
    ensures Ends(env, e, d, errno, rounds, tr.waits, o)
  {
    forall i: nat | i < tr.waits ensures InTime(env, d, i) {
      RoundsInTime(env, d, tr, i);
    }
  }

  /** The native loop, too, returns a positive result when the only thing the kernel did was to refuse to sleep:
      the object changed between the load and the compare. */
  lemma PositiveOnRefusedSleep(env: Env, e: Val, errno: int, rounds: nat, tr: Trace, o: Exit)
    requires NativeCall(env, e, None, errno, rounds, tr, o) && rounds > 1
    requires env.loads(0) == e && env.loads(1) != e && env.waits(0) == -EAGAIN
    ensures o == Exit(1, env.loads(1), errno) && tr.waits == 1
  {
    NativeEnds(env, e, None, errno, rounds, tr, o);
    assert Quiet(env, e, None, 0);
    EndsOnce(env, e, None, errno, rounds, tr.waits, o, 1, Exit(1, env.loads(1), errno));
  }

  lemma GenericEnds(env: Env, e: Val, d: Option<Timespec>, errno: int, find: Find, rounds: nat, tr: Trace, o: Exit)
    requires GenericCall(env, e, d, errno, find, rounds, tr, o) && find.ok
    requires env.loads(0) == e ==> env.loads(1) == e
    ensures Ends(OneLook(env), e, d, errno, rounds, tr.waits, o)
  {
    forall i: nat | i < tr.waits ensures InTime(OneLook(env), d, i) {
      RoundsInTime(env, d, tr, i);
      assert InTime(env, d, i);
    }
  }

  lemma SameTimespec(a: Timespec, b: Timespec)
    requires Normal(a) && Normal(b) && Ns(a) == Ns(b)
    ensures a == b
  {
  }

  /** The proxy loop and the native loop compute the same. When the second look still sees the expected value,
      a call of the one and a call of the other on the same answers, that look left out, return the
      same result, `*expected` and errno after the same waits, the same clock readings and the same
      intervals. */
  lemma LoopsAgree(
    env: Env, e: Val, d: Option<Timespec>, errno: int, find: Find, rounds: nat, tr: Trace, o: Exit,
    tr': Trace, o': Exit)
    requires env.loads(0) == e ==> env.loads(1) == e
    requires GenericCall(env, e, d, errno, find, rounds, tr, o) && find.ok
    requires NativeCall(OneLook(env), e, d, errno, rounds, tr', o')
    ensures o == o' && tr.waits == tr'.waits && tr.clocks == tr'.clocks && tr.given == tr'.given
  {
    GenericEnds(env, e, d, errno, find, rounds, tr, o);
    NativeEnds(OneLook(env), e, d, errno, rounds, tr', o');
    EndsOnce(OneLook(env), e, d, errno, rounds, tr.waits, o, tr'.waits, o');
    if d.Some? {
      forall i | 0 <= i < tr.waits ensures tr.given[i] == tr'.given[i] {
        SameTimespec(tr.given[i], tr'.given[i]);
      }
    }
  }

  /** And when the second look sees a change, the proxy loop returns zero with that value, without a wait. */
  lemma SecondLook(env: Env, e: Val, d: Option<Timespec>, errno: int, find: Find, rounds: nat, tr: Trace, o: Exit)
    requires GenericCall(env, e, d, errno, find, rounds, tr, o) && find.ok && rounds > 0
    requires env.loads(0) == e && env.loads(1) != e
    ensures o == Exit(0, env.loads(1), errno) && tr.waits == 0
  {
    assert env.loads(1) != e;
  }

  lemma FirstLook(env: Env, e: Val, d: Option<Timespec>, errno: int, find: Find, rounds: nat, tr: Trace, o: Exit)
    requires GenericCall(env, e, d, errno, find, rounds, tr, o) && rounds > 0
    ensures env.loads(0) != e ==> o == Exit(0, env.loads(0), errno) && tr.waits == 0
    ensures env.loads(0) == e && !find.ok ==> o == Exit(-1, e, find.errno) && tr.waits == 0
  {
  }

  /** The answers of the environment and of the table settle how the proxy loop ends. */
  lemma GenericOnce(
    env: Env, e: Val, d: Option<Timespec>, errno: int, find: Find, rounds: nat, tr: Trace, o: Exit,
    tr': Trace, o': Exit)
    requires GenericCall(env, e, d, errno, find, rounds, tr, o) && GenericCall(env, e, d, errno, find, rounds, tr', o')
    requires rounds > 0
    ensures o == o' && tr.waits == tr'.waits
  {
    if env.loads(0) != e || !find.ok {
      FirstLook(env, e, d, errno, find, rounds, tr, o);
      FirstLook(env, e, d, errno, find, rounds, tr', o');
    } else if env.loads(1) != e {
      SecondLook(env, e, d, errno, find, rounds, tr, o);
      SecondLook(env, e, d, errno, find, rounds, tr', o');
    } else {
      GenericEnds(env, e, d, errno, find, rounds, tr, o);
      GenericEnds(env, e, d, errno, find, rounds, tr', o');
      EndsOnce(OneLook(env), e, d, errno, rounds, tr.waits, o, tr'.waits, o');
    }
  }

  // ---------------------------------------------------------------- which results end a wait

  /** Of both loops: a call that has returned failed if and only if its last backend result was negative and
      none of the three that are retried: the value had changed, a signal came, or the time was up. Every
      result before the last was such a one, or no error. */
  lemma NativeFailsIff(env: Env, e: Val, d: Option<Timespec>, errno: int, rounds: nat, tr: Trace, o: Exit)
    requires NativeCall(env, e, d, errno, rounds, tr, o) && o.Exit?
    ensures o.ret < 0 <==>
      tr.waits > 0 && env.waits(tr.waits - 1) < 0 &&
      env.waits(tr.waits - 1) != -EAGAIN && env.waits(tr.waits - 1) != -EINTR && env.waits(tr.waits - 1) != -ETIMEDOUT
    ensures o.ret < 0 ==> o == Exit(-1, e, -env.waits(tr.waits - 1))
    ensures forall i {:trigger env.waits(i)} :: 0 <= i < tr.waits - 1 ==>
      env.waits(i) >= 0 || env.waits(i) == -EAGAIN || env.waits(i) == -EINTR || env.waits(i) == -ETIMEDOUT
  {
    assert tr.waits > 0 ==> HardError(env.waits(tr.waits - 1)) || !HardError(env.waits(tr.waits - 1));
  }

  lemma GenericFailsIff(
    env: Env, e: Val, d: Option<Timespec>, errno: int, find: Find, rounds: nat, tr: Trace, o: Exit)
    requires GenericCall(env, e, d, errno, find, rounds, tr, o) && find.ok && o.Exit?
    ensures o.ret < 0 <==>
      tr.waits > 0 && env.waits(tr.waits - 1) < 0 &&
      env.waits(tr.waits - 1) != -EAGAIN && env.waits(tr.waits - 1) != -EINTR && env.waits(tr.waits - 1) != -ETIMEDOUT
    ensures o.ret < 0 ==> o == Exit(-1, e, -env.waits(tr.waits - 1))
    ensures forall i {:trigger env.waits(i)} :: 0 <= i < tr.waits - 1 ==>
      env.waits(i) >= 0 || env.waits(i) == -EAGAIN || env.waits(i) == -EINTR || env.waits(i) == -ETIMEDOUT
  {
    assert tr.waits > 0 ==> HardError(env.waits(tr.waits - 1)) || !HardError(env.waits(tr.waits - 1));
  }

  /** The first `k` rounds see the value, are in time, and their backend waits are to be retried. */
  ghost predicate Retried(env: Env, e: Val, d: Option<Timespec>, k: nat) {
    forall i {:trigger env.loads(i)} :: 0 <= i < k ==>
      && env.loads(i) == e
      && (env.waits(i) >= 0 || env.waits(i) == -EAGAIN || env.waits(i) == -EINTR || env.waits(i) == -ETIMEDOUT)
      && (d.Some? ==> Ns(env.clocks(i + 1)) < Ns(env.clocks(0)) + Ns(d.value))
  }

  /** What the native loop returns, read off the answers: after `k` retried rounds, the changed value with 1, or
      with 0 if it is the first load; or 0 and ETIMEDOUT when the time is up. */
  lemma NativeReturns(env: Env, e: Val, d: Option<Timespec>, errno: int, rounds: nat, tr: Trace, o: Exit, k: nat)
    requires NativeCall(env, e, d, errno, rounds, tr, o) && k < rounds && Retried(env, e, d, k)
    ensures env.loads(k) != e ==> o == Exit(if k > 0 then 1 else 0, env.loads(k), errno) && tr.waits == k
    ensures env.loads(k) == e && d.Some? && Ns(env.clocks(k + 1)) >= Ns(env.clocks(0)) + Ns(d.value) ==>
      o == Exit(0, e, ETIMEDOUT) && tr.waits == k
  {
    NativeEnds(env, e, d, errno, rounds, tr, o);
    forall i | 0 <= i < k ensures Quiet(env, e, d, i) {
      assert env.loads(i) == e;
    }
    if env.loads(k) != e {
      EndsOnce(env, e, d, errno, rounds, tr.waits, o, k, Exit(if k > 0 then 1 else 0, env.loads(k), errno));
    } else if d.Some? && Ns(env.clocks(k + 1)) >= EndNs(env, d.value) {
      EndsOnce(env, e, d, errno, rounds, tr.waits, o, k, Exit(0, e, ETIMEDOUT));
    }
  }

  /** The proxy loop returns the same, its second look seeing the value too. */
  lemma GenericReturns(
    env: Env, e: Val, d: Option<Timespec>, errno: int, find: Find, rounds: nat, tr: Trace, o: Exit, k: nat)
    requires GenericCall(env, e, d, errno, find, rounds, tr, o) && find.ok && k < rounds
    requires (env.loads(0) == e ==> env.loads(1) == e) && Retried(OneLook(env), e, d, k)
    ensures var v := if k == 0 then env.loads(0) else env.loads(k + 1);
      && (v != e ==> o == Exit(if k > 0 then 1 else 0, v, errno) && tr.waits == k)
      && (v == e && d.Some? && Ns(env.clocks(k + 1)) >= Ns(env.clocks(0)) + Ns(d.value) ==>
            o == Exit(0, e, ETIMEDOUT) && tr.waits == k)
  {
    var env' := OneLook(env);
    GenericEnds(env, e, d, errno, find, rounds, tr, o);
    forall i | 0 <= i < k ensures Quiet(env', e, d, i) {
      assert env'.loads(i) == e;
    }
    if env'.loads(k) != e {
      EndsOnce(env', e, d, errno, rounds, tr.waits, o, k, Exit(if k > 0 then 1 else 0, env'.loads(k), errno));
    } else if d.Some? && Ns(env.clocks(k + 1)) >= EndNs(env, d.value) {
      EndsOnce(env', e, d, errno, rounds, tr.waits, o, k, Exit(0, e, ETIMEDOUT));
    }
  }

  /** So signals, lost races and kernel timeouts alone never make a wait fail. */
  lemma RetriedNeverFails(
    env: Env, e: Val, d: Option<Timespec>, errno: int, find: Find, rounds: nat, tr: Trace, o: Exit)
    requires (GenericCall(env, e, d, errno, find, rounds, tr, o) && find.ok) ||
      NativeCall(env, e, d, errno, rounds, tr, o)
    requires forall i {:trigger env.waits(i)} ::
      env.waits(i) == 0 || env.waits(i) == -EAGAIN || env.waits(i) == -EINTR || env.waits(i) == -ETIMEDOUT
    ensures o.Running? || o.ret >= 0
  {
    if o.Exit? && tr.waits > 0 {
      assert env.waits(tr.waits - 1) <= 0;
      if NativeCall(env, e, d, errno, rounds, tr, o) {
        NativeFailsIff(env, e, d, errno, rounds, tr, o);
      } else {
        GenericFailsIff(env, e, d, errno, find, rounds, tr, o);
      }
    }
  }

  // ---------------------------------------------------------------- backend timeouts

  /** Linux and monotonic pthreads: the backend reads the clock at `mid(i)`, not before the loop did, and
      reports a timeout only when the clock has reached `mid(i)` plus the interval. */
  ghost predicate AbsoluteBackend(env: Env, d: Option<Timespec>, tr: Trace, mid: nat -> Timespec)
    requires d.Some? ==> |tr.given| == tr.waits
  {
    d.Some? ==> forall i {:trigger env.waits(i)} :: 0 <= i < tr.waits && env.waits(i) == -ETIMEDOUT ==>
      && Normal(mid(i)) && Ns(mid(i)) >= Ns(env.clocks(i + 1))
      && Ns(env.clocks(i + 2)) >= Ns(Deadline(mid(i), tr.given[i]))
  }

  /** On those backends one kernel timeout is enough: after it the loop never waits again, and
      leaves only by a change or by the caller's own timeout. */
  lemma SingleTimeout(
    env: Env, e: Val, d: Option<Timespec>, errno: int, refusal: Option<int>, tr: Trace, o: Exit, mid: nat -> Timespec,
    i: nat)
    requires Sane(env, d) && d.Some? && Promised(env, e, d, errno, refusal, tr, o) && ExactIntervals(env, d, tr)
    requires AbsoluteBackend(env, d, tr, mid) && i < tr.waits && env.waits(i) == -ETIMEDOUT
    ensures i == tr.waits - 1
    ensures o.Running? || ByChange(env, e, d, errno, tr, o) || ByTimeout(env, e, d, tr, o)
  {
    var end, now := Deadline(env.clocks(0), d.value), env.clocks(i + 1);
    RoundsInTime(env, d, tr, i);
    RoundsInTime(env, d, tr, i + 1);
    DeadlineExact(env.clocks(0), d.value);
    ExpiredIff(now, end);
    RemainingExact(end, now);
    SameTimespec(tr.given[i], Remaining(end, now));
    OneTimeoutIsEnough(end, now, mid(i), env.clocks(i + 2));
    ExpiredIff(env.clocks(i + 2), end);
  }

  /** In round `i` the clock does not run back, and a kernel timeout comes only after `ns` nanoseconds. */
  predicate KernelWaits(env: Env, i: nat, ns: int) {
    && Ns(env.clocks(i + 1)) <= Ns(env.clocks(i + 2))
    && (env.waits(i) == -ETIMEDOUT ==> Ns(env.clocks(i + 2)) >= Ns(env.clocks(i + 1)) + ns)
  }

  /** A backend that reports a timeout only after `Min(Ceil(interval, u), clamp)` units of `u` have
      passed, on a clock that never runs back. */
  ghost predicate ClampedBackend(env: Env, tr: Trace, u: nat, clamp: nat)
    requires |tr.given| == tr.waits && u > 0
  {
    forall i {:trigger tr.given[i]} :: 0 <= i < tr.waits ==>
      Ns(tr.given[i]) >= 0 && KernelWaits(env, i, Min(Ceil(Ns(tr.given[i]), u), clamp) * u)
  }

  function Reading(env: Env): nat -> int {
    (i: nat) => Ns(env.clocks(i + 1))
  }

  function KernelTimeout(env: Env): nat -> bool {
    (i: nat) => env.waits(i) == -ETIMEDOUT
  }

  /** On such a backend a timed wait sees at most as many kernel timeouts as clamped timeouts fit into
      what was left at its first round, rounded up, however many other wake-ups interrupt it. */
  lemma ClampedTimeouts(env: Env, d: Option<Timespec>, tr: Trace, u: nat, clamp: nat)
    requires d.Some? && ExactIntervals(env, d, tr)
    requires u > 0 && clamp > 0 && ClampedBackend(env, tr, u, clamp)
    ensures Timeouts(KernelTimeout(env), 0, tr.waits) <=
      Ceil(Ceil(Left(EndNs(env, d.value), Ns(env.clocks(1))), u), clamp)
  {
    var end := EndNs(env, d.value);
    forall i: nat | i < tr.waits ensures ClampedRound(end, Reading(env), KernelTimeout(env), i, u, clamp) {
      assert Ns(tr.given[i]) == end - Ns(env.clocks(i + 1));
      assert Reading(env)(i) == Ns(env.clocks(i + 1)) && Reading(env)(i + 1) == Ns(env.clocks(i + 2));
    }
    TimeoutsBounded(end, Reading(env), KernelTimeout(env), 0, tr.waits, u, clamp);
  }

  lemma PositiveSeconds(t: Timespec)
    requires Normal(t) && Ns(t) > 0
    ensures t.sec >= 0
  {
  }

  /** The macOS kernel waits at least the microseconds it was given. */
  ghost predicate MacBackend(env: Env, tr: Trace)
    requires |tr.given| == tr.waits
  {
    forall i {:trigger tr.given[i]} :: 0 <= i < tr.waits ==> KernelWaits(env, i, MacTimeout(tr.given[i]) * MICRO)
  }

  /** The Windows kernel, the milliseconds. */
  ghost predicate WinBackend(env: Env, tr: Trace)
    requires |tr.given| == tr.waits
  {
    forall i {:trigger tr.given[i]} :: 0 <= i < tr.waits ==> KernelWaits(env, i, WinTimeout(tr.given[i]) * MILLI)
  }

  /** What was left at the first round, in clamped timeouts, rounded up. */
  function TimeoutBound(env: Env, d: Timespec, u: nat, clamp: nat): nat
    requires u > 0 && clamp > 0
  {
    Ceil(Ceil(Left(EndNs(env, d), Ns(env.clocks(1))), u), clamp)
  }

  /** macOS: where all the counts fit, the number of kernel timeouts is bounded by the clamp UINT32_MAX. */
  lemma MacTimeouts(env: Env, d: Option<Timespec>, tr: Trace)
    requires d.Some? && ExactIntervals(env, d, tr) && MacBackend(env, tr)
    requires forall i {:trigger tr.given[i]} :: 0 <= i < tr.waits ==> Fits(tr.given[i], MICRO, MICROS, UINT32_MAX)
    ensures Timeouts(KernelTimeout(env), 0, tr.waits) <= TimeoutBound(env, d.value, MICRO, UINT32_MAX)
  {
    forall i | 0 <= i < tr.waits
      ensures Ns(tr.given[i]) >= 0 && KernelWaits(env, i, Min(Ceil(Ns(tr.given[i]), MICRO), UINT32_MAX) * MICRO)
    {
      PositiveSeconds(tr.given[i]);
      MacRoundsUpIff(tr.given[i]);
      assert KernelWaits(env, i, MacTimeout(tr.given[i]) * MICRO);
    }
    ClampedTimeouts(env, d, tr, MICRO, UINT32_MAX);
  }

  /** Windows: the same in milliseconds, with the clamp below INFINITE. */
  lemma WinTimeouts(env: Env, d: Option<Timespec>, tr: Trace)
    requires d.Some? && ExactIntervals(env, d, tr) && WinBackend(env, tr)
    requires forall i {:trigger tr.given[i]} :: 0 <= i < tr.waits ==> Fits(tr.given[i], MILLI, MILLIS, WIN_CLAMP)
    ensures Timeouts(KernelTimeout(env), 0, tr.waits) <= TimeoutBound(env, d.value, MILLI, WIN_CLAMP)
  {
    forall i | 0 <= i < tr.waits
      ensures Ns(tr.given[i]) >= 0 && KernelWaits(env, i, Min(Ceil(Ns(tr.given[i]), MILLI), WIN_CLAMP) * MILLI)
    {
      PositiveSeconds(tr.given[i]);
      WinRoundsUpIff(tr.given[i]);
      assert KernelWaits(env, i, WinTimeout(tr.given[i]) * MILLI);
    }
    ClampedTimeouts(env, d, tr, MILLI, WIN_CLAMP);
  }
}
