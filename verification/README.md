# Atomic waits and notifies, modelled in Dafny

This project models the reference implementation of the proposed C atomic wait and notify functions
(sections 7.17.7.7 to 7.17.7.11 of the proposed wording) and proves what its fallback and native
paths promise. `dafny verify dfyconfig.toml` checks all of it.

## What is modelled

**The wait/notify protocol** (`Protocol`, `Registry`, `Generations`, `Captures`, `Tokens`, `Notices`,
`Outcomes`, `Scenarios`). Any number
of threads on any number of objects, one table lock, one proxy per object that is being waited on, and
both kinds of proxy: the generation counter with a kernel compare-and-sleep, and the pthreads token
proxy. Every action is one thread's step between two points where another thread can interfere: the
loads of the object, the capture of the generation, the compare-and-sleep, the condvar wait and the
bump are separate steps. A run is any sequence of enabled actions from an idle start.

- `Registry` proves one inductive invariant for both backends and draws from it mutual exclusion,
  absence of deadlock, no use after free, exact use counts, and isolation of objects.
- `Generations` proves exactly when no wake is lost, and that after notify_all a waiter returns within
  a fixed number of its own steps.
- `Tokens` proves the same for pthreads: exactly when every waiter that needs a token has one, what a
  wake-all then guarantees, and that tokens are conserved.
- `Captures` counts the bumps between a capture and its park, `Notices` follows a notify from its start
  to its return, and `Outcomes` states what a wait returns, in particular one that notify_all reached.
- `Scenarios` builds concrete reachable states in which the conditions of those theorems fail and a
  wake is lost.

**The proxy table** (`Arithmetic`, `Probing`, `Buckets`, `TableMap`, `HashTable`, `HashFunc`,
`TableLimits`, `TableUse`). The class `HashTable.HashTable` has the program's fields and loops over its bucket array,
and a ghost map from address to proxy. `Probing` proves that triangular probing is a permutation of a
power-of-two table, starting from the bit mask. `TableLimits` drives the table into its two refusals, the
second one also with the program's own hash.
`TableUse` ties the table to the protocol: `Drive` runs any schedule of protocol steps with the answers
taken from the table, for objects whose address is neither NULL nor the tombstone mark, and proves that
the outcome is a run of the protocol in which every pointer is the one the table holds.

**The pthreads proxy** (`TokenRules`, `TokenProxy`). The class with the counters `pending` and
`waiting`; its methods are proved against the same rules the transition system is built from.

**Deadlines and wait loops** (`Deadlines`, `WaitLoops`, `TimeoutLimits`, `Calls`). Both wait loops as methods over arbitrary
answers of the environment (loads, clock readings, backend results), proved to keep one relation
between what was observed and what is returned; the absolute and the rounded timeouts of the backends.
`TimeoutLimits` has the waits whose timeouts wrap. `Calls` ties the loop to the protocol: a call inside
any protocol run returns what the loop returns on the same loads, clock readings and results.

**Notifying** (`FutexWake`). The clamp of the wake count on Linux, the kernel's loop, and
atomic_notify_32 over it or over a proxy.

## Where the code does not keep the plain promise

- The generation is 32 bits. A wake is lost when 2^32 bumps fall into one capture-to-park window:
  `WrapLosesWake` reaches such a state. `WakeIff` gives the exact condition over whole runs: the waiter's
  own park passes the compare on an outdated generation, over a changed object, with no storer owing a
  wake; `SleepsOverChangeIff` says that this takes a multiple of 2^32 bumps. The positive theorems
  assume no more than that this has not happened to the waiter in question.
- On pthreads notify_all does not reach every waiter unconditionally: `NewcomerStealsWake` reaches a
  state where a newcomer with another expected value has taken the token. `FedIff` and `CoverageIff`
  give the exact condition over whole runs, and waiters that share one value always meet it
  (`SameValueWakeAll`).
- An insertion can be refused below 3/4 load, and a present key can be refused at it, both at maximum
  size only; `Refuses` is the exact condition given memory, `Fails` for any allocations, both in the
  contract of `FindOrCreate`; `Worn` and `Loaded` reach such tables.
- The pthreads wake reports one thread for requests between 2^31 and 2^32 - 2 however many are parked
  (`ReportIff`). Where `long` has 32 bits such a request also takes tokens away (`NarrowIff`,
  `NarrowSwallows`).
- The 64-bit product wraps on macOS for intervals beyond half a million years, on Windows a thousand
  times later. The kernel call is then too short though the caller's wait is not (`MacRoundsUpIff`,
  `WinRoundsUpIff`), and more kernel timeouts can come than the clamp accounts for (`MacBoundFails`,
  `WinBoundFails`).
- The deadline overflows time_t for durations near its maximum, a common way to say forever.
  `DeadlineDefinedIff` gives the exact condition; where overflow wraps, such a wait times out at once
  (`TimesOutAtOnceIff`, `ForeverTimesOut`).
- The documentation promises a positive result when the thread was suspended at least once, and zero
  when it was not. The code returns one as soon as a wait cycle was entered: `PositiveWithoutSuspension`
  has a run without any suspension on either backend, `PositiveOnRefusedSleep` a native call. `SuspendedIff` and `PositiveSuspendedIff` give the
  exact condition for a suspension; the other half holds (`SuspendedReturnsPositive`).

## Model

| member | source | states |
|---|---|---|
| `Registry.Step` | include/wg14_atomic_waits/detail/impl/atomic_wait_common.ipp.ipp:556-672 | every action of every thread, on either backend, keeps the invariant: lock ownership, current pointers, table and heap in bijection, exact use counts, exact `waiting`, mutex ownership |
| `Registry.Safety` | include/wg14_atomic_waits/detail/impl/atomic_wait_common.ipp.ipp:495-672 | that invariant holds in every state any run from an idle start can reach, for any number of threads and objects |
| `Registry.MutualExclusion` | include/wg14_atomic_waits/detail/impl/atomic_wait_common.ipp.ipp:556-589 | at most one thread is between hash_table_lock and hash_table_unlock, and the lock names it |
| `Registry.NoDeadlock` | include/wg14_atomic_waits/detail/impl/atomic_wait_common.ipp.ipp:653-672 | whoever holds the table lock can take a step that is not a spin, or waits for a proxy mutex whose holder can and does not want the table lock |
| `Registry.NeverStuck` | include/wg14_atomic_waits/detail/impl/atomic_wait_common.ipp.ipp:526-630 | a waiter that is not suspended has an enabled step of its own; it is a spin only while another thread holds the lock or mutex it wants |
| `Registry.NoUseAfterFree` | include/wg14_atomic_waits/detail/impl/atomic_wait_common.ipp.ipp:599-650 | no action ever follows a pointer to a freed proxy, waiting for its mutex included |
| `Registry.PointerStaysCurrent` | include/wg14_atomic_waits/detail/impl/atomic_wait_common.ipp.ipp:526-589 | the proxy a waiter holds is the table's proxy for its object in every reachable state |
| `Registry.ProxyLifetime` | include/wg14_atomic_waits/detail/impl/atomic_wait_common.ipp.ipp:631-649 | use_count equals the number of registered threads; once no wait is in progress table and heap are empty, whatever ended the waits |
| `Registry.LastUser` | include/wg14_atomic_waits/detail/impl/atomic_wait_common.ipp.ipp:640-645 | the thread that brings use_count to zero leaves nobody else registered, nobody in the condvar loop, no notifier holding the pointer, and the mutex free |
| `Registry.Isolation` | include/wg14_atomic_waits/detail/impl/atomic_wait_common.ipp.ipp:653-672 | each step of a notify on one object leaves every waiter on another object, and that waiter's proxy, exactly as they were |
| `Generations.WakeStep` | include/wg14_atomic_waits/detail/impl/atomic_wait_common.ipp.ipp:49-61 | every action of every thread keeps a waiter's claim (committed to parking with the current generation it still sees its value or a storer has yet to bump; asleep, or a storer has yet to finish), except an oversleep of its own: a park that passes the 32-bit compare on an outdated generation over a changed object with no storer owing |
| `Generations.OversleepLoses` | include/wg14_atomic_waits/detail/impl/atomic_wait_common.ipp.ipp:49-54 | right after an oversleep the claim is false: the wake is lost |
| `Generations.WakeIff` | include/wg14_atomic_waits/detail/impl/atomic_wait_common.ipp.ipp:42-61 | over any run of any threads, a waiter's claim holds in every state if and only if it never oversleeps |
| `Generations.Soundness` | include/wg14_atomic_waits/detail/impl/atomic_wait_common.ipp.ipp:42-61 | the claim holds in every state reached by a run in which this waiter has not overslept, whatever happened to others |
| `Generations.NoLostWake` | include/wg14_atomic_waits/detail/impl/atomic_wait_common.ipp.ipp:526-630 | a waiter asleep, or about to sleep with the current generation, still sees its expected value in the object or some storer has not finished its bump-and-wake |
| `Generations.NotifyAllRouses` | include/wg14_atomic_waits/detail/impl/atomic_wait_common.ipp.ipp:615-629 | once no storer owes a wake, a waiter on a changed object is awake, and if heading for the park holds an outdated generation |
| `Generations.RousedSelf` | include/wg14_atomic_waits/detail/impl/atomic_wait_common.ipp.ipp:533-629 | every own step of such a waiter, lock spins and fooled parks aside, lowers its rank and keeps it roused until it returns |
| `Generations.RousedRun` | include/wg14_atomic_waits/detail/impl/atomic_wait_common.ipp.ipp:533-649 | over any run in which the object stays changed, the waiter never sleeps before its return if and only if no park of its own is fooled by the 32-bit compare; and then own steps plus remaining rank never exceed the initial rank |
| `Generations.ProgressAfterNotifyAll` | include/wg14_atomic_waits/detail/impl/atomic_wait_common.ipp.ipp:556-650 | after notify_all, while the object stays different, the waiter never sleeps before its return if and only if none of its parks is fooled; and then it has returned by its 17th own step |
| `Captures.ParkSleepsIff` | include/wg14_atomic_waits/detail/impl/atomic_wait_common.ipp.ipp:49-57 | a park sleeps if and only if the bumps of its proxy since the waiter's last capture are a multiple of 2^32: with none it sleeps, so an earlier wake makes nobody spin; otherwise it reports the failed compare |
| `Outcomes.NotifyAllReturnsOne` | include/wg14_atomic_waits/detail/impl/atomic_wait_common.ipp.ipp:526-650 | on the counters, a waiter in its wait cycle whose object has changed and stays different returns 1 within 17 own steps after notify_all, unless its own wait fails or times out or a park is fooled |
| `Notices.NotifyCall` | include/wg14_atomic_waits/detail/impl/atomic_wait_common.ipp.ipp:653-672 | every notify of any size looks up once and, if it finds a proxy, bumps and wakes exactly once, or deposits exactly once; without one it does neither |
| `Notices.LookUpMeets` | include/wg14_atomic_waits/detail/impl/atomic_wait_common.ipp.ipp:659-660 | what it finds is the proxy on which every waiter for the object is registered |
| `Notices.KernelWakeReleases` | include/wg14_atomic_waits/detail/impl/atomic_wait_common.ipp.ipp:55-61 | a wake of one or more releases a sleeper if there is one, all for a wake-all, each with result 0, and touches nobody else |
| `Notices.DepositReleases` | include/wg14_atomic_waits/detail/impl/atomic_wait_pthreads.c.ipp:236-237 | a signal or broadcast releases a blocked thread if there is one, all unless the request is for one, each with result 0, and touches nobody else |
| `Scenarios.SleepsOverChangeIff` | include/wg14_atomic_waits/detail/impl/atomic_wait_common.ipp.ipp:50-54 | at a park over a changed object with no storer left, the compare is fooled if and only if the bumps since the capture are a multiple of 2^32 |
| `Scenarios.WrapLosesWake` | include/wg14_atomic_waits/detail/impl/atomic_wait_common.ipp.ipp:42-61 | a reachable state in which 2^32 bumps in one window have left a waiter asleep with nobody to wake it |
| `TokenRules.DepositBounds` | include/wg14_atomic_waits/detail/impl/atomic_wait_pthreads.c.ipp:226-235 | a wake leaves between 0 and max(1, registered) tokens, wake-all covers every registered waiter, and no wake lowers the queue except to the ceiling |
| `TokenRules.DepositExact` | include/wg14_atomic_waits/detail/impl/atomic_wait_pthreads.c.ipp:226-235 | what a wake queues, for every request: the requested number on top of the queue, all registered for a wake-all, at most one each |
| `TokenRules.NarrowIff` | include/wg14_atomic_waits/detail/impl/atomic_wait_pthreads.c.ipp:226-235 | where long is 32 bits, the deposit is the intended one if and only if the request fits an int, is wake-all, or meets enough queued tokens |
| `TokenRules.NarrowSwallows` | include/wg14_atomic_waits/detail/impl/atomic_wait_pthreads.c.ipp:231-235 | there, one request for 2^31 threads swallows the tokens of the next 2^31 single wakes, exactly, until a wake-all |
| `Tokens.CoverStep` | include/wg14_atomic_waits/detail/impl/atomic_wait_pthreads.c.ipp:121-263 | every action, wakes and timeouts included, keeps a token for every waiter for the value that is parked or heading for the park, unless a waiter for another value takes a needed token |
| `Tokens.TheftUncovers` | include/wg14_atomic_waits/detail/impl/atomic_wait_pthreads.c.ipp:135-141 | a waiter for another value that takes a token with none to spare does break that coverage |
| `Tokens.CoverageIff` | include/wg14_atomic_waits/detail/impl/atomic_wait_pthreads.c.ipp:121-263 | over any run in which the object stays different, coverage holds in every state if and only if no waiter for another value takes a token that is needed |
| `Tokens.TokenCoverage` | include/wg14_atomic_waits/detail/impl/atomic_wait_pthreads.c.ipp:209-263 | after a wake-all pending never drops below the number of registered waiters for the value that are parked or heading for the park |
| `Tokens.WakeAllReachesEveryone` | include/wg14_atomic_waits/detail/impl/atomic_wait_pthreads.c.ipp:121-197 | each of those waiters never blocks again and has returned by its 17th own step |
| `Tokens.SameValueIsHonest` | include/wg14_atomic_waits/detail/impl/atomic_wait_common.ipp.ipp:556-589 | if everyone registered on the object waits for one value, no action takes a token for another |
| `Tokens.SameValueWakeAll` | include/wg14_atomic_waits/detail/impl/atomic_wait_pthreads.c.ipp:216-235 | coverage and return for every registered waiter, when all of them wait for the same value and the object stays different after the wake-all |
| `Tokens.FedStep` | include/wg14_atomic_waits/detail/impl/atomic_wait_pthreads.c.ipp:121-263 | every action, in any state, keeps: the object holds the value, or a storer has yet to deposit, or every waiter for the value that is parked or heading for the park has a token; unless a needed token is taken for another value with no storer left |
| `Tokens.RobberyStarves` | include/wg14_atomic_waits/detail/impl/atomic_wait_pthreads.c.ipp:135-141 | such a theft does break it |
| `Tokens.FedIff` | include/wg14_atomic_waits/detail/impl/atomic_wait_pthreads.c.ipp:121-263 | over any run, with any stores and notifies, that holds in every state if and only if no such theft occurs |
| `Tokens.NoLostToken` | include/wg14_atomic_waits/detail/impl/atomic_wait_pthreads.c.ipp:210-225 | a waiter blocked on the condition variable, or heading for it with no token queued, still sees its value or some storer has yet to deposit |
| `Tokens.ProgressWithTokens` | include/wg14_atomic_waits/detail/impl/atomic_wait_pthreads.c.ipp:121-197 | from any state in which the object has changed and no storer has yet to deposit, while the object stays different and nobody is robbed, the waiter never blocks again and has returned by its 17th own step |
| `Tokens.DepositQueues` | include/wg14_atomic_waits/detail/impl/atomic_wait_pthreads.c.ipp:226-235 | in every reachable state a notify of n leaves min(queued + n, registered) tokens, all registered for a wake-all |
| `Tokens.NotifyDelivers` | include/wg14_atomic_waits/detail/impl/atomic_wait_pthreads.c.ipp:135-180 | after a notify of one or more, the first registered waiter to enter the wait or to resume after the signal gets a token and does not block |
| `Tokens.TakesReturnsZero` | include/wg14_atomic_waits/detail/impl/atomic_wait_pthreads.c.ipp:135-180 | taking a token is one token less and a backend wait that returns 0 |
| `Outcomes.WakeAllReturnsOne` | include/wg14_atomic_waits/detail/impl/atomic_wait_pthreads.c.ipp:121-197 | on pthreads, a waiter in its wait cycle whose object has changed and stays different returns 1 within 17 own steps once the storers have deposited, unless its own wait fails or times out or a needed token is taken for another value |
| `Scenarios.NewcomerStealsWake` | include/wg14_atomic_waits/detail/impl/atomic_wait_pthreads.c.ipp:135-141 | a reachable state in which a newcomer waiting for the new value has taken an earlier waiter's token and that waiter blocks after a completed wake-all |
| `Tokens.TokenStep` | include/wg14_atomic_waits/detail/impl/atomic_wait_pthreads.c.ipp:135-196 | between wakes each successful wait takes one token and nothing adds any |
| `Tokens.BoundedSpinning` | include/wg14_atomic_waits/detail/impl/atomic_wait_pthreads.c.ipp:226-254 | right after a wake pending is at most max(1, registered), and until the next wake at most that many waits return success |
| `Tokens.WaitingIsExact` | include/wg14_atomic_waits/detail/impl/atomic_wait_pthreads.c.ipp:158-196 | `waiting` is the number of threads in the condvar loop, in every reachable state |
| `Tokens.DestroyIsSafe` | include/wg14_atomic_waits/detail/impl/atomic_wait_common.ipp.ipp:388-395 | a proxy is destroyed only with `waiting` zero, its mutex free and nobody else registered, so destroy has nothing to refuse |
| `TokenProxy.TokenProxy.constructor` | include/wg14_atomic_waits/detail/impl/atomic_wait_pthreads.c.ipp:70-107 | no tokens and nobody parked |
| `TokenProxy.TokenProxy.Wait` | include/wg14_atomic_waits/detail/impl/atomic_wait_pthreads.c.ipp:121-197 | with a token queued it takes one and returns 0; otherwise result and final counters are those of the entry rule followed by the resume rule at each return of the condition variable |
| `TokenProxy.TokenQueued` | include/wg14_atomic_waits/detail/impl/atomic_wait_pthreads.c.ipp:135-141 | a call that finds a token takes exactly one, leaves `waiting` alone and returns 0 |
| `TokenProxy.FirstDecisive` | include/wg14_atomic_waits/detail/impl/atomic_wait_pthreads.c.ipp:159-180 | spurious wake-ups are passed over; the first return with an error or a token alone settles the call |
| `TokenProxy.NoneDecisive` | include/wg14_atomic_waits/detail/impl/atomic_wait_pthreads.c.ipp:169-180 | without one the thread stays parked and leaves the counters as found |
| `TokenProxy.TakesWhatItReports` | include/wg14_atomic_waits/detail/impl/atomic_wait_pthreads.c.ipp:135-196 | a returning call took one token exactly if it reports success, none on timeout or error, and leaves `waiting` without itself |
| `TokenProxy.TokenProxy.Wake` | include/wg14_atomic_waits/detail/impl/atomic_wait_pthreads.c.ipp:205-263 | pending becomes the deposit of the request, for a wide and for a 32-bit long, and at most max(1, registered); signal exactly for one thread; the tokens stay even if posting fails |
| `TokenProxy.ReportIff` | include/wg14_atomic_waits/detail/impl/atomic_wait_pthreads.c.ipp:238-254 | the reported count is positive, and is max(1, min(waiting, requested)) if and only if the request fits an int, is wake-all, or at most one thread is parked; for other requests it is 1 |
| `TokenProxy.ReportFallsShort` | include/wg14_atomic_waits/detail/impl/atomic_wait_pthreads.c.ipp:242-254 | two parked threads and a request for 2^31: one is reported |
| `Probing.MaskIsMod` | include/wg14_atomic_waits/detail/impl/atomic_wait_common.ipp.ipp:203-214 | masking with size - 1 is reduction modulo a power-of-two size |
| `Probing.SlotNext` | include/wg14_atomic_waits/detail/impl/atomic_wait_common.ipp.ipp:233-238 | `idx = (idx + step) & mask` goes from one slot of the triangular sequence to the next |
| `Probing.ProbeInjective` | include/wg14_atomic_waits/detail/impl/atomic_wait_common.ipp.ipp:215-239 | no two of the first n steps probe the same slot, for every power-of-two n and every start |
| `Probing.ProbeSurjective` | include/wg14_atomic_waits/detail/impl/atomic_wait_common.ipp.ipp:292-358 | a full probe sees the whole table |
| `Buckets.MissAtNull` | include/wg14_atomic_waits/detail/impl/atomic_wait_common.ipp.ipp:309-315 | a NULL on the key's probe path, with the key not before it, means the key is nowhere in the table |
| `Buckets.MissAfterAll` | include/wg14_atomic_waits/detail/impl/atomic_wait_common.ipp.ipp:405-410 | n steps without the key mean the key is nowhere |
| `Buckets.InsertWellFormed` | include/wg14_atomic_waits/detail/impl/atomic_wait_common.ipp.ipp:316-346 | writing an absent key into the earliest reusable slot of its path keeps keys unique and every key reachable |
| `Buckets.RemoveWellFormed` | include/wg14_atomic_waits/detail/impl/atomic_wait_common.ipp.ipp:396-403 | a tombstone strands no other key |
| `Buckets.RemoveStands` | include/wg14_atomic_waits/detail/impl/atomic_wait_common.ipp.ipp:396-403 | after it the table stands for the map without that key |
| `Buckets.CardIsLiveCount` | include/wg14_atomic_waits/detail/impl/atomic_wait_common.ipp.ipp:344-402 | the number of live slots is the size of the map |
| `Buckets.NullRemains` | include/wg14_atomic_waits/detail/impl/atomic_wait_common.ipp.ipp:240-249 | a table without tombstones holding fewer keys than slots has a NULL slot |
| `HashTable.ProbePath` | include/wg14_atomic_waits/detail/impl/atomic_wait_common.ipp.ipp:290-358 | the probe of find_or_create: the key's slot; or the earliest reusable slot with proof that the key is absent; or proof that neither the key nor a NULL slot exists |
| `HashTable.NullLoop` | include/wg14_atomic_waits/detail/impl/atomic_wait_common.ipp.ipp:213-239 | the probe of hash_table_grow: the first NULL slot of the path, or all n slots are taken |
| `HashTable.KeyLoop` | include/wg14_atomic_waits/detail/impl/atomic_wait_common.ipp.ipp:377-411 | the probe of hash_table_remove_item: the key's slot, or no slot of the path holds it |
| `HashTable.HashTable.constructor` | include/wg14_atomic_waits/detail/impl/atomic_wait_common.ipp.ipp:265-270 | the empty table, before any allocation |
| `HashTable.HashTable.Place` | include/wg14_atomic_waits/detail/impl/atomic_wait_common.ipp.ipp:220-249 | placing a live entry in the new table always succeeds: the not-placed branch is unreachable |
| `HashTable.HashTable.CopyInto` | include/wg14_atomic_waits/detail/impl/atomic_wait_common.ipp.ipp:203-250 | the new table stands for the same map, without tombstones |
| `HashTable.HashTable.Grow` | include/wg14_atomic_waits/detail/impl/atomic_wait_common.ipp.ipp:181-255 | fails, changing nothing, exactly without memory or at maximum size; otherwise doubles, keeps the map and proxy identities, has no tombstones and is at most 3/8 full |
| `HashTable.HashTable.RoomAfterGrowth` | include/wg14_atomic_waits/detail/impl/atomic_wait_common.ipp.ipp:277-289 | after a growth there is a NULL slot and no reason to grow again |
| `HashTable.HashTable.Insert` | include/wg14_atomic_waits/detail/impl/atomic_wait_common.ipp.ipp:316-346 | adds the absent key, counts it, duplicates nothing |
| `HashTable.HashTable.AllocateFirst` | include/wg14_atomic_waits/detail/impl/atomic_wait_common.ipp.ipp:265-276 | first allocation, and what a failed one leaves behind |
| `HashTable.HashTable.Turn` | include/wg14_atomic_waits/detail/impl/atomic_wait_common.ipp.ipp:277-364 | one turn of the retry loop: it asks for another exactly when the call needed a bigger table and got it; otherwise it fails to register exactly without room, or without a new proxy for an absent key |
| `HashTable.HashTable.Search` | include/wg14_atomic_waits/detail/impl/atomic_wait_common.ipp.ipp:277-364 | the retry loop terminates and grows at most once, exactly when the call needs a bigger table and can have it |
| `HashTable.HashTable.FindOrCreate` | include/wg14_atomic_waits/detail/impl/atomic_wait_common.ipp.ipp:258-365 | a lookup returns exactly the map's proxy or null and changes nothing, even across a rehash; a registration adds one use or one key and fails if and only if an allocation it needs does (first table, bigger table, proxy of an absent key); a present key below 3/4 load never fails; the table grows exactly when needed; every failure leaves the map unchanged |
| `HashTable.HashTable.RemoveItem` | include/wg14_atomic_waits/detail/impl/atomic_wait_common.ipp.ipp:367-412 | the map loses exactly that key; an absent key changes nothing |
| `HashTable.HashTable.DeregisterUser` | include/wg14_atomic_waits/detail/impl/atomic_wait_common.ipp.ipp:638-646 | a departure through the kept pointer lowers one use count and removes the key with its last user |
| `HashTable.HashTable.RegisterUser` | include/wg14_atomic_waits/detail/impl/atomic_wait_common.ipp.ipp:556-566 | a registration is answered with the proxy the map holds, or a new one, has the plain map's effect, and fails exactly when an allocation it needs does |
| `HashTable.HashTable.LookUpUser` | include/wg14_atomic_waits/detail/impl/atomic_wait_common.ipp.ipp:659-666 | a notifier's lookup returns the map's proxy and leaves map and use counts alone |
| `HashTable.HashTable.Replay` | include/wg14_atomic_waits/detail/impl/atomic_wait_common.ipp.ipp:181-412 | every sequence of registrations, lookups and departures, whatever allocations fail, is a history of a plain finite map from object to proxy and users: each answer is the proxy the map holds at that point, each operation does to the table what it does to the map |
| `HashTable.HashTable.Perform` | include/wg14_atomic_waits/detail/impl/atomic_wait_common.ipp.ipp:258-412 | one such operation, its answer and its effect |
| `TableMap.KeepsProxy` | include/wg14_atomic_waits/detail/impl/atomic_wait_common.ipp.ipp:251-253 | in any history a key that stays in the map keeps its proxy |
| `TableLimits.Loaded` | include/wg14_atomic_waits/detail/impl/atomic_wait_common.ipp.ipp:279-289 | a table at maximum size and 3/4 load, reached from the empty one by its own operations, refuses a key it holds |
| `TableLimits.Worn` | include/wg14_atomic_waits/detail/impl/atomic_wait_common.ipp.ipp:353-363 | for every hash that is onto, a table at maximum size and little over 3/8 load, reached by registering and leaving, refuses an absent key because no NULL slot is left |
| `HashFunc.HashOfOne` | include/wg14_atomic_waits/detail/impl/atomic_wait_common.ipp.ipp:173-178 | the published FNV-1a hash of a byte of value one |
| `HashFunc.HashesTo` | include/wg14_atomic_waits/detail/impl/atomic_wait_common.ipp.ipp:173-178 | the program's hash is onto: every slot of a table of maximum size is the first on the probe path of some address |
| `TableLimits.WornInProgram` | include/wg14_atomic_waits/detail/impl/atomic_wait_common.ipp.ipp:353-363 | so the program's own table reaches that refusal |
| `TableUse.StepUses` | include/wg14_atomic_waits/detail/impl/atomic_wait_common.ipp.ipp:556-672 | each protocol action has on the map of users exactly the effect of its table operation, or none, and goes on with an answer the map allows |
| `TableUse.RunUses` | include/wg14_atomic_waits/detail/impl/atomic_wait_common.ipp.ipp:495-672 | a whole protocol run is, on the map from object to proxy and users, the history of its table operations |
| `TableUse.ServeRegister` | include/wg14_atomic_waits/detail/impl/atomic_wait_common.ipp.ipp:556-566 | a registration on the table gives out the pointer of the protocol's proxy for the object, or a new one |
| `TableUse.ServeLookUp` | include/wg14_atomic_waits/detail/impl/atomic_wait_common.ipp.ipp:659-666 | a lookup on the table returns the pointer of the protocol's proxy for the object, or null, also when it rehashes |
| `TableUse.ServeLeave` | include/wg14_atomic_waits/detail/impl/atomic_wait_common.ipp.ipp:638-646 | a departure through the kept pointer |
| `TableUse.Act` | include/wg14_atomic_waits/detail/impl/atomic_wait_common.ipp.ipp:556-672 | whatever the table answers is a step of the protocol, after which the table still holds for every object the very proxy and user count the protocol has, and no live proxy has moved |
| `TableUse.Drive` | include/wg14_atomic_waits/detail/impl/atomic_wait_common.ipp.ipp:495-672 | the protocol driven by any schedule on the table, whatever allocations fail, is a run of the protocol and ends with table and protocol holding the same proxies and counts |
| `TableUse.RunOnTable` | include/wg14_atomic_waits/detail/impl/atomic_wait_common.ipp.ipp:495-672 | the same from an empty table and a protocol at rest: the end is a reachable state which the table mirrors |
| `TableUse.PointersMirror` | include/wg14_atomic_waits/detail/impl/atomic_wait_common.ipp.ipp:526-589 | the pointer a registered waiter keeps and the pointer a notifier has found are the ones the table holds |
| `WaitLoops.Begin` | include/wg14_atomic_waits/detail/impl/atomic_wait_common.ipp.ipp:509-520 | the deadline is fixed once, exactly duration after the first clock reading |
| `WaitLoops.ReadClock` | include/wg14_atomic_waits/detail/impl/atomic_wait_common.ipp.ipp:591-614 | a timeout only at or past the deadline; otherwise an interval that is normalised, positive and exactly end minus now |
| `WaitLoops.WaitOnce` | include/wg14_atomic_waits/detail/impl/atomic_wait_common.ipp.ipp:591-627 | one round past the load: timeout, hard error, or a wait entered, with the relation kept |
| `WaitLoops.NativeWait` | include/wg14_atomic_waits/detail/impl/atomic_wait_common.ipp.ipp:824-897 | the native loop keeps the common outcome relation over all loads, clock readings and backend results, and takes one load and one clock reading per wait |
| `WaitLoops.Enlist` | include/wg14_atomic_waits/detail/impl/atomic_wait_common.ipp.ipp:556-589 | registration with the second look, and what is then held |
| `WaitLoops.GenericWait` | include/wg14_atomic_waits/detail/impl/atomic_wait_common.ipp.ipp:495-651 | the proxy loop keeps the same relation with one load more, and on every exit has released the table lock and its use as often as it took them |
| `WaitLoops.Returns` | include/wg14_atomic_waits/detail/impl/atomic_wait_common.ipp.ipp:501-651 | positive if and only if the wait cycle was entered and ended by a change, with `*expected` the differing load and errno as on entry; zero is an immediate mismatch or a timeout after at least the duration; negative leaves `*expected` alone |
| `WaitLoops.NativeFailsIff` | include/wg14_atomic_waits/detail/impl/atomic_wait_common.ipp.ipp:892-896 | a returned call failed if and only if its last backend result was negative and none of -EAGAIN, -EINTR, -ETIMEDOUT; every earlier result was retried |
| `WaitLoops.GenericFailsIff` | include/wg14_atomic_waits/detail/impl/atomic_wait_common.ipp.ipp:619-627 | the same for the proxy loop, once registered |
| `WaitLoops.RetriedNeverFails` | include/wg14_atomic_waits/detail/impl/atomic_wait_common.ipp.ipp:619-627 | results of 0, -EAGAIN, -EINTR and -ETIMEDOUT alone never make a wait fail |
| `WaitLoops.NativeReturns` | include/wg14_atomic_waits/detail/impl/atomic_wait_common.ipp.ipp:844-896 | after k retried rounds: the changed value with 1, or 0 at the first load; or 0 and ETIMEDOUT when the time is up |
| `WaitLoops.GenericReturns` | include/wg14_atomic_waits/detail/impl/atomic_wait_common.ipp.ipp:526-627 | the proxy loop returns the same when its second look sees the value |
| `WaitLoops.EndsOnce` | include/wg14_atomic_waits/detail/impl/atomic_wait_common.ipp.ipp:824-897 | the answers of the environment settle after how many waits and how a call ends |
| `WaitLoops.LoopsAgree` | include/wg14_atomic_waits/detail/impl/atomic_wait_common.ipp.ipp:526-630 | when the second look still sees the value, the proxy loop and the native loop on the same answers, that look left out, return the same result, `*expected` and errno after the same waits, clock readings and intervals |
| `WaitLoops.SecondLook` | include/wg14_atomic_waits/detail/impl/atomic_wait_common.ipp.ipp:572-585 | when it sees a change, the proxy loop returns zero with that value, without a wait |
| `WaitLoops.GenericOnce` | include/wg14_atomic_waits/detail/impl/atomic_wait_common.ipp.ipp:526-651 | the answers of the environment and of the table settle how the proxy loop ends |
| `Calls.CallEnds` | include/wg14_atomic_waits/detail/impl/atomic_wait_common.ipp.ipp:526-651 | in any run of the protocol a call returns what its own loads, clock readings and registration say, and what the operating system and the proxy did to its backend waits: 0 for a wake or a token, the negated error of a failed park or condvar wait, -EAGAIN for a failed compare, the kernel's own result; a call that was suspended has a backend result |
| `Calls.CallIsGeneric` | include/wg14_atomic_waits/detail/impl/atomic_wait_common.ipp.ipp:495-651 | whatever environment answers as the run did, the call ends in it as atomic_wait_generic ends |
| `Calls.ProtocolCall` | include/wg14_atomic_waits/detail/impl/atomic_wait_common.ipp.ipp:495-651 | a call in any run of the protocol and a call of the wait loop with the same answers return the same after the same number of waits |
| `Outcomes.CallResult` | include/wg14_atomic_waits/detail/impl/atomic_wait_common.ipp.ipp:526-651 | in any run, a call returns -1 exactly if its registration was refused or its last backend result is an error that is not retried, 1 exactly if it saw a change after a backend wait, 0 otherwise, on a late clock reading or a change before any wait |
| `Outcomes.BenignNeverFails` | include/wg14_atomic_waits/detail/impl/atomic_wait_common.ipp.ipp:619-627 | a call to which no error other than EAGAIN, EINTR and ETIMEDOUT happens fails if and only if its registration was refused, whoever wakes it and however often |
| `Calls.SuspendedIff` | include/wg14_atomic_waits/detail/impl/atomic_wait_common.ipp.ipp:615-619 | an awake thread is suspended at some point of a run if and only if one of its parks passes the 32-bit compare or one of its pthreads waits finds no token queued |
| `Calls.PositiveSuspendedIff` | docs/proposal.md:117-120 | the exact condition for a suspension behind a positive result |
| `Calls.SuspendedReturnsPositive` | docs/proposal.md:117-120 | a call that was suspended and ended by a change returns a positive result, and a positive result always comes from a change after a wait |
| `WaitLoops.PositiveOnRefusedSleep` | include/wg14_atomic_waits/detail/impl/atomic_wait_common.ipp.ipp:866-890 | the native loop returns 1 when the kernel only refused to sleep |
| `Scenarios.PositiveWithoutSuspension` | include/wg14_atomic_waits/detail/impl/atomic_wait_common.ipp.ipp:588-629 | on either backend, a run in which a call returns 1 and its thread was never suspended |
| `WaitLoops.SingleTimeout` | include/wg14_atomic_waits/detail/impl/atomic_wait_linux.c.ipp:63-78 | on Linux and monotonic pthreads no second backend wait follows a backend timeout; the loop leaves by a change or by its own timeout |
| `WaitLoops.ClampedTimeouts` | include/wg14_atomic_waits/detail/impl/atomic_wait_common.ipp.ipp:843-897 | with any clamped backend, kernel timeouts number at most the rounded interval over the clamp, rounded up, whatever other wake-ups interleave |
| `WaitLoops.MacTimeouts` | include/wg14_atomic_waits/detail/impl/atomic_wait_macos.c.ipp:59-69 | that bound with the microsecond clamp UINT32_MAX, where the counts do not wrap or wrap to a clamped value |
| `WaitLoops.WinTimeouts` | include/wg14_atomic_waits/detail/impl/atomic_wait_windows.c.ipp:126-132 | that bound with the millisecond clamp below INFINITE, under the same condition |
| `TimeoutLimits.MacBoundFails` | include/wg14_atomic_waits/detail/impl/atomic_wait_macos.c.ipp:62-64 | a wait of 18446744073710 s that sees 2^32 + 3 kernel timeouts where the bound is 2^32 + 2 |
| `TimeoutLimits.WinBoundFails` | include/wg14_atomic_waits/detail/impl/atomic_wait_windows.c.ipp:129-131 | a wait of 2^64 ms that can see any number of kernel timeouts, its timeout having wrapped to zero |
| `Deadlines.DeadlineExact` | include/wg14_atomic_waits/detail/impl/atomic_wait_common.ipp.ipp:509-520 | now plus duration is exact and normalised for every in-range tv_nsec, negative tv_sec included |
| `Deadlines.DeadlineDefinedIff` | include/wg14_atomic_waits/detail/impl/atomic_wait_common.ipp.ipp:513-519 | the sum and the carry stay within a time_t of any width if and only if the duration ends before the type does and the plain sum is not below it |
| `Deadlines.TimesOutAtOnceIff` | include/wg14_atomic_waits/detail/impl/atomic_wait_common.ipp.ipp:513-598 | where overflow wraps, a wait with a duration that is not negative times out in its first round with no time passed if and only if the duration is zero or the deadline overflows |
| `Deadlines.ForeverTimesOut` | include/wg14_atomic_waits/detail/impl/atomic_wait_common.ipp.ipp:513-598 | the longest 64-bit duration, one second after the clock's start, does |
| `Deadlines.ExpiredIff` | include/wg14_atomic_waits/detail/impl/atomic_wait_common.ipp.ipp:595-598 | the field-wise comparison is the comparison of nanosecond totals |
| `Deadlines.RemainingExact` | include/wg14_atomic_waits/detail/impl/atomic_wait_common.ipp.ipp:606-614 | the borrowing subtraction is exact, normalised, strictly positive |
| `Deadlines.NeverForever` | include/wg14_atomic_waits/detail/impl/atomic_wait_macos.c.ipp:59-69 | no interval becomes the forever sentinel: 0 on macOS, INFINITE on Windows |
| `Deadlines.UnitsWrap` | include/wg14_atomic_waits/detail/impl/atomic_wait_macos.c.ipp:62-63 | the 64-bit computation is the true unit count modulo 2^64 |
| `Deadlines.MacRoundsUpIff` | include/wg14_atomic_waits/detail/impl/atomic_wait_macos.c.ipp:59-69 | the timeout is the microseconds rounded up, clamped to UINT32_MAX, if and only if the count does not wrap or wraps to a clamped value |
| `Deadlines.WinRoundsUpIff` | include/wg14_atomic_waits/detail/impl/atomic_wait_windows.c.ipp:126-132 | the timeout is the milliseconds rounded up, clamped below INFINITE, if and only if the count does not wrap or wraps to a clamped value |
| `Deadlines.MacCoversIff` | include/wg14_atomic_waits/detail/impl/atomic_wait_macos.c.ipp:62-64 | the timeout covers the interval or is the clamp if and only if the count does not wrap or wraps to a clamped value |
| `Deadlines.WinCoversIff` | include/wg14_atomic_waits/detail/impl/atomic_wait_windows.c.ipp:129-131 | the same for Windows |
| `Deadlines.TimeoutsAre` | include/wg14_atomic_waits/detail/impl/atomic_wait_macos.c.ipp:62-68 | the timeouts for every interval: the true count modulo 2^64, clamped, and on macOS one instead of none |
| `Deadlines.MacWrapExample` | include/wg14_atomic_waits/detail/impl/atomic_wait_macos.c.ipp:62-64 | an interval whose microseconds wrap to less than half a second |
| `Deadlines.WinWrapExample` | include/wg14_atomic_waits/detail/impl/atomic_wait_windows.c.ipp:129-131 | an interval whose milliseconds wrap to 384 |
| `Deadlines.TimeoutsBounded` | include/wg14_atomic_waits/detail/impl/atomic_wait_common.ipp.ipp:843-897 | induction behind the bound on kernel timeouts |
| `Deadlines.OneTimeoutIsEnough` | include/wg14_atomic_waits/detail/impl/atomic_wait_pthreads.c.ipp:143-157 | an absolute deadline recomputed from a later reading is never before the caller's, so a backend timeout implies the caller's |
| `FutexWake.KernelWake` | include/wg14_atomic_waits/detail/impl/atomic_wait_linux.c.ipp:105-110 | the loop stops once `++ret >= nr_wake`; exactly the first `ret` sleepers are gone from the queue |
| `FutexWake.WokenIs` | include/wg14_atomic_waits/detail/impl/atomic_wait_linux.c.ipp:105-110 | it wakes min(sleepers, max(1, nr_wake)) |
| `FutexWake.ClampedWake` | include/wg14_atomic_waits/detail/impl/atomic_wait_linux.c.ipp:111-113 | with the clamp every nonzero request wakes exactly min(requested, sleepers) |
| `FutexWake.UnclampedWakeIff` | include/wg14_atomic_waits/detail/impl/atomic_wait_linux.c.ipp:105-110 | without it that holds if and only if the request fits an int or at most one thread sleeps; wake-all would wake one |
| `FutexWake.WakeByAddress32` | include/wg14_atomic_waits/detail/impl/atomic_wait_linux.c.ipp:100-124 | the count and queue after a clamped wake, or the negated error with nobody woken |
| `FutexWake.Notify32` | include/wg14_atomic_waits/detail/impl/atomic_wait_common.ipp.ipp:904-938 | where the platform wakes by address: zero exactly for a zero request or a failed exchange (which reloads `*expected`); otherwise the exchange is done and the result is one plus the number woken, within an int, or the negated wake error with errno set |
| `FutexWake.NotifyGeneric` | include/wg14_atomic_waits/detail/impl/atomic_wait_common.ipp.ipp:653-672 | on pthreads: zero without a proxy, otherwise the proxy's wake |
| `FutexWake.CounterProxy.Wake` | include/wg14_atomic_waits/detail/impl/atomic_wait_common.ipp.ipp:55-61 | the generation goes up by one modulo 2^32, wake or no wake; exactly the first min(requested, sleepers) are woken |
| `FutexWake.NotifyCounter` | include/wg14_atomic_waits/detail/impl/atomic_wait_common.ipp.ipp:653-672 | on the generation counters: zero without a proxy, otherwise the bump and the wake |
| `FutexWake.NotifyByProxy` | include/wg14_atomic_waits/detail/impl/atomic_wait_common.ipp.ipp:904-938 | where it does not: the same cases over the proxy, one when nobody waits, one plus the proxy's report otherwise, and the proxy untouched when nothing was exchanged |

## Left out

- Memory orders and the discarded reload with the success ordering: memory is sequentially consistent.
- The operating system: futex, ulock, WaitOnAddress, mutexes, condition variables and clocks are assumed as small specifications (atomic compare-and-sleep with spurious wakes, signal wakes at least one and broadcast all, a clock that never runs back, FUTEX_WAKE taking sleepers in queue order).
- Stores that are not followed by notify_all: the protocol lets a thread store only together with a notify_all, because no wake is promised otherwise; notifies of any size without a store are included.
- Fairness: progress is stated in steps the thread takes itself, not in time, and the spin lock may starve a thread.
- The quality of hash_func: the table is proved for every function from addresses to naturals, and no bound on probe lengths is claimed.
- Critical sections of the table lock and of a proxy mutex whose data nobody else reads are single steps of the protocol; their loops are the methods of `HashTable` and `TokenProxy`. A growth inside a lookup is part of the lookup's step.
- The generation as a 32-bit cell: the model counts all bumps and compares modulo 2^32.
- Overflow of int in use_count, pending and waiting: unbounded integers. Overflow of time_t is treated in `Deadlines` only; the wait loops take the exact deadline. The transition system deposits tokens as with a `long` wider than int; the narrow one is in `TokenRules` and `TokenProxy` only.
- Errors of pthread_mutex_lock, and the error paths of pthread_proxy_init beyond its result, which is a parameter of `FindOrCreate`.
- errno inside the table operations: `GenericWait` takes whatever errno they leave as a parameter.
- Timeouts on pthreads with the real-time clock: a clock that is set back would break the one-timeout argument.
- The FreeBSD backend: it repeats the Linux clamp and would only add easy members.
- Width dispatch, the per-width API, the void fallback waits that drop -1, C++ wrappers, windows_error_to_errno and the fabricated wake counts of macOS, Windows and FreeBSD: single-branch facts.
- Cross-process use and wakes by a bare store: not promised by the code.
