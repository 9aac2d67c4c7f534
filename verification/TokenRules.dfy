/** The pure token bookkeeping of a pthreads proxy: what each critical section of the proxy's
    own mutex does to the counters `pending` and `waiting`. The class in TokenProxy.dfy is
    proved against these rules, and the transition system of Protocol.dfy is built from them. */
module TokenRules {
  import opened Common

  datatype Counters = Counters(pending: int, waiting: int)

  /** What a thread that held the mutex does next: leave with a result, or block on the condvar. */
  datatype Next = Leave(res: int) | Block

  /** Park entry: take a queued token, or join the condvar loop. */
  function EnterRule(c: Counters): (Counters, Next) {
    if c.pending > 0 then (c.(pending := c.pending - 1), Leave(0))
    else (c.(waiting := c.waiting + 1), Block)
  }

  /** The condvar wait returned `why`, with the mutex held again. */
  function ResumeRule(c: Counters, why: int): (Counters, Next) {
    if why == 0 then
      if c.pending > 0 then (Counters(c.pending - 1, c.waiting - 1), Leave(0)) else (c, Block)
    else (c.(waiting := c.waiting - 1), Leave(-why))
  }

  /** The ceiling on queued tokens: one per registered waiter, and never less than one. */
  function Cap(registered: int): int {
    if registered > 0 then registered else 1
  }

  /** The tokens queued after a wake of `max` threads. */
  function DepositRule(pending: int, max: nat, registered: int): int {
    if max == WAKE_ALL then Cap(registered) else Min(pending + max, Cap(registered))
  }

  /** A wake leaves at most one token per registered waiter whatever was queued before; a wake-all
      covers every registered waiter; and no wake takes the queue below what it held, except to
      bring it down to the ceiling. */
  lemma DepositBounds(pending: int, max: nat, registered: int)
    requires pending >= 0
    ensures 0 <= DepositRule(pending, max, registered) <= Max(1, registered)
    ensures max == WAKE_ALL ==> DepositRule(pending, max, registered) >= registered
    ensures DepositRule(pending, max, registered) >= Min(pending, registered)
  {
  }

  /** What a wake queues: every registered waiter's token for a wake-all, otherwise one token for each thread
      asked for, on top of those queued; in either case one for each registered waiter at most, and
      room for one even if nobody is registered. */
  lemma DepositExact(pending: int, max: nat, registered: int)
    requires pending >= 0
    ensures registered >= 1 && max == WAKE_ALL ==> DepositRule(pending, max, registered) == registered
    ensures registered >= 1 && max != WAKE_ALL && pending + max <= registered ==>
      DepositRule(pending, max, registered) == pending + max
    ensures registered >= 1 && max != WAKE_ALL && pending + max > registered ==>
      DepositRule(pending, max, registered) == registered
    ensures registered <= 0 ==> DepositRule(pending, max, registered) == if pending + max >= 1 then 1 else 0
  {
  }

  // ---------------------------------------------------------------- a 32-bit long

  /** The same where `long` is no wider than int, so that the conversion of a request from 2^31 on makes it
      negative. */
  function NarrowDeposit(pending: int, max: nat, registered: int): int {
    if max == WAKE_ALL then Cap(registered) else Min(pending + AsInt(max), Cap(registered))
  }

  /** It queues what it should if and only if the request fits an int, is wake-all, or meets so many queued
      tokens that they fill the ceiling even so. */
  lemma NarrowIff(pending: int, max: nat, registered: int)
    requires 0 <= pending && max <= UINT32_MAX && registered <= INT_MAX && pending + AsInt(max) <= INT_MAX
    ensures NarrowDeposit(pending, max, registered) == DepositRule(pending, max, registered) <==>
      max <= INT_MAX || max == WAKE_ALL || pending + AsInt(max) >= Cap(registered)
  {
  }

  /** The tokens queued after `n` wakes of one thread each. */
  function WakesOfOne(pending: int, registered: int, n: nat): int {
    if n == 0 then pending else NarrowDeposit(WakesOfOne(pending, registered, n - 1), 1, registered)
  }

  lemma {:induction false} WakesOfOneIs(pending: int, registered: int, n: nat)
    requires pending <= 0
    ensures WakesOfOne(pending, registered, n) == Min(pending + n, Cap(registered))
  {
    if n > 0 {
      WakesOfOneIs(pending, registered, n - 1);
    }
  }

  /** One request for 2^31 threads on an empty queue leaves it so far below zero that the tokens of the next
      2^31 wakes of one thread are swallowed, the one after them is not, and a wake-all makes up for it. */
  lemma NarrowSwallows(registered: int, n: nat)
    ensures NarrowDeposit(0, 0x8000_0000, registered) == -0x8000_0000
    ensures WakesOfOne(-0x8000_0000, registered, n) > 0 <==> n > 0x8000_0000
    ensures NarrowDeposit(-0x8000_0000, WAKE_ALL, registered) == Cap(registered)
  {
    WakesOfOneIs(-0x8000_0000, registered, n);
  }
}
