/** atomic_notify_32: the count handed to FUTEX_WAKE on Linux, the kernel's loop over the sleepers, and
    the exchange and wake on top of it, or on top of a proxy. */
module FutexWake {
  import opened Common
  import opened TokenRules
  import opened TokenProxy

  type Tid = nat

  // ---------------------------------------------------------------- the kernel's loop

  /** How many of `n` sleepers a loop that stops once `++ret >= nr` wakes, having woken `ret` so far. */
  function Woken(n: nat, nr: int, ret: nat): nat {
    if n == 0 then ret
    else if ret + 1 >= nr then ret + 1
    else Woken(n - 1, nr, ret + 1)
  }

  /** The loop wakes what was asked for, except that it never stops before the first sleeper. */
  lemma {:induction false} WokenIs(n: nat, nr: int, ret: nat)
    ensures Woken(n, nr, ret) == if n == 0 then ret else Min(ret + n, Max(ret + 1, nr))
  {
    if n > 0 && ret + 1 < nr {
      WokenIs(n - 1, nr, ret + 1);
    }
  }

  /** FUTEX_WAKE over the queue of sleepers. */
  method KernelWake(queue: seq<Tid>, nr: int) returns (ret: nat, left: seq<Tid>)
    ensures ret == Woken(|queue|, nr, 0)
    ensures ret <= |queue| && left == queue[ret..]
  {
    ret, left := 0, queue;
    while left != []
      invariant ret <= |queue| && left == queue[ret..]
      invariant Woken(|queue|, nr, 0) == Woken(|left|, nr, ret)
      decreases |left|
    {
      left := left[1..];
      ret := ret + 1;
      if ret >= nr {
        break;
      }
    }
  }

  // ---------------------------------------------------------------- the clamp

  function NrWake(max: nat): int {
    if max > INT_MAX then INT_MAX else max
  }

  /** With the clamp every nonzero request wakes exactly min(requested, sleepers); the loop takes a request
      for none as one for one. */
  lemma ClampedWake(max: nat, n: nat)
    requires max <= UINT32_MAX && n < INT_MAX
    ensures max > 0 ==> Woken(n, NrWake(max), 0) == Min(max, n)
    ensures max == 0 ==> Woken(n, NrWake(max), 0) == Min(1, n)
  {
    WokenIs(n, NrWake(max), 0);
  }

  /** Without it, a request converted straight to int does so if and only if it fits an int, or at most one
      thread sleeps; wake-all would wake one sleeper and leave the rest. */
  lemma UnclampedWakeIff(max: nat, n: nat)
    requires 0 < max <= UINT32_MAX && n < INT_MAX
    ensures Woken(n, AsInt(max), 0) == Min(max, n) <==> max <= INT_MAX || n <= 1
    ensures max > INT_MAX && n > 0 ==> Woken(n, AsInt(max), 0) == 1
  {
    WokenIs(n, AsInt(max), 0);
  }

  /** wake_by_address32. `error` is the errno of a failed system call, 0 for none. */
  method WakeByAddress32(queue: seq<Tid>, max: nat, error: int) returns (ret: int, left: seq<Tid>)
    requires max <= UINT32_MAX && |queue| < INT_MAX && error >= 0
    ensures error != 0 ==> ret == -error && left == queue
    ensures error == 0 ==> ret == Min(Max(1, max), |queue|) && left == queue[ret..]
  {
    var nr := if max > INT_MAX then INT_MAX else max;
    if error != 0 {
      return -error, queue;
    }
    ret, left := KernelWake(queue, nr);
    ClampedWake(max, |queue|);
  }

  // ---------------------------------------------------------------- atomic_notify_32

  /** What atomic_notify_32 reads and writes: the object's value, the caller's `*expected`, errno, and the queue of
      threads asleep on the object. */
  datatype Notice = Notice(value: int, expected: int, errno: int, queue: seq<Tid>)

  /** Exchange and wake. Zero: nothing was asked for, or the exchange failed and `*expected` was reloaded.
      Positive: one more than the number of threads woken, within an int, the woken threads being
      the first of the queue. Negative: the exchange was done and the wake failed, errno says how. */
  method Notify32(s: Notice, desired: int, max: nat, error: int) returns (ret: int, s': Notice)
    requires max <= UINT32_MAX && |s.queue| < INT_MAX && error >= 0
    ensures max == 0 ==> ret == 0 && s' == s
    ensures max > 0 && s.value != s.expected ==> ret == 0 && s' == s.(expected := s.value)
    ensures max > 0 && s.value == s.expected && error != 0 ==>
      ret == -error && s' == s.(value := desired, errno := error)
    ensures max > 0 && s.value == s.expected && error == 0 ==>
      ret == 1 + Min(max, |s.queue|) && s' == s.(value := desired, queue := s.queue[ret - 1..])
    ensures ret <= INT_MAX && (ret == 0 <==> max == 0 || s.value != s.expected)
    ensures ret > 0 ==> |s'.queue| + (ret - 1) == |s.queue|
  {
    s' := s;
    if max == 0 {
      return 0, s';
    }
    if s.value != s.expected {
      s' := s'.(expected := s.value);
      return 0, s';
    }
    s' := s'.(value := desired);
    var left;
    ret, left := WakeByAddress32(s.queue, max, error);
    s' := s'.(queue := left);
    if ret < 0 {
      s' := s'.(errno := -ret);
      return ret, s';
    }
    ret := 1 + ret;
  }

  /** The generation-counter proxy: a 32-bit counter and the threads asleep on it. */
  class CounterProxy {
    var counter: nat
    var queue: seq<Tid>

    constructor ()
      ensures counter == 0 && queue == []
    {
      counter, queue := 0, [];
    }

    /** Bump the generation, then wake by its address. The bump stays even if the wake fails. */
    method Wake(max: nat, error: int) returns (ret: int)
      requires max <= UINT32_MAX && |queue| < INT_MAX && error >= 0
      modifies this
      ensures counter == (old(counter) + 1) % TWO_32
      ensures error != 0 ==> ret == -error && queue == old(queue)
      ensures error == 0 ==> ret == Min(Max(1, max), |old(queue)|) && queue == old(queue)[ret..]
    {
      counter := (counter + 1) % TWO_32;
      ret, queue := WakeByAddress32(queue, max, error);
    }
  }

  /** atomic_notify_generic on the generation counters: nothing to wake without a proxy; otherwise every
      captured generation is outdated, and exactly min(requested, sleepers) are woken. */
  method NotifyCounter(item: CounterProxy?, max: nat, error: int) returns (ret: int)
    requires 0 < max <= UINT32_MAX && error >= 0 && (item != null ==> |item.queue| < INT_MAX)
    modifies if item == null then {} else {item}
    ensures item == null ==> ret == 0
    ensures item != null ==> item.counter == (old(item.counter) + 1) % TWO_32
    ensures item != null && error != 0 ==> ret == -error && item.queue == old(item.queue)
    ensures item != null && error == 0 ==>
      ret == Min(max, |old(item.queue)|) && item.queue == old(item.queue)[ret..]
  {
    if item == null {
      return 0;
    }
    ret := item.Wake(max, error);
  }

  /** atomic_notify_generic on the pthreads backend: nothing to wake without a proxy. */
  method NotifyGeneric(item: TokenProxy?, max: nat, registered: int, posted: int, wide: bool) returns (ret: int)
    requires max <= UINT32_MAX && posted >= 0
    requires item != null ==> 0 <= item.waiting <= INT_MAX && (wide || item.pending + AsInt(max) <= INT_MAX)
    modifies if item == null then {} else {item}
    ensures item == null ==> ret == 0
    ensures item != null ==>
      && ret == (if posted != 0 then -posted else Report(item.waiting, max))
      && item.waiting == old(item.waiting)
      && item.pending == (if wide then DepositRule(old(item.pending), max, registered)
                          else NarrowDeposit(old(item.pending), max, registered))
  {
    if item == null {
      return 0;
    }
    var post;
    ret, post := item.Wake(max, registered, posted, wide);
  }

  /** atomic_notify_32 where the platform cannot wake by address. Zero as above; one when nobody waits on the
      object; otherwise one more than the wake reports, or its error. A failed exchange, or a request
      for none, leaves the proxy alone. */
  method NotifyByProxy(s: Notice, desired: int, max: nat, item: TokenProxy?, registered: int, posted: int, wide: bool)
    returns (ret: int, s': Notice)
    requires max <= UINT32_MAX && posted >= 0
    requires item != null ==> 0 <= item.waiting < INT_MAX && (wide || item.pending + AsInt(max) <= INT_MAX)
    modifies if item == null then {} else {item}
    ensures s'.queue == s.queue && ret <= INT_MAX && (ret == 0 <==> max == 0 || s.value != s.expected)
    ensures ret == 0 ==> s' == (if max == 0 then s else s.(expected := s.value))
    ensures ret == 0 && item != null ==> item.Counts() == old(item.Counts())
    ensures ret < 0 ==> item != null && ret == -posted && s' == s.(value := desired, errno := posted)
    ensures ret > 0 ==> s' == s.(value := desired)
    ensures ret > 0 ==> ret == 1 + (if item == null then 0 else Report(item.waiting, max))
    ensures ret != 0 && item != null ==>
      && item.waiting == old(item.waiting)
      && item.pending == (if wide then DepositRule(old(item.pending), max, registered)
                          else NarrowDeposit(old(item.pending), max, registered))
  {
    s' := s;
    if max == 0 {
      return 0, s';
    }
    if s.value != s.expected {
      s' := s'.(expected := s.value);
      return 0, s';
    }
    s' := s'.(value := desired);
    ret := NotifyGeneric(item, max, registered, posted, wide);
    if ret < 0 {
      s' := s'.(errno := -ret);
      return ret, s';
    }
    ret := 1 + ret;
  }
}
