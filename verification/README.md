# async_simple, verified

async_simple is a C++ runtime for coroutines and futures. What is hard in it are small protocols over shared
mutable state, and a few structures and codecs that must equal something simple. This project models them in
Dafny and proves what they are for. `dafny verify dfyconfig.toml` checks everything.

Concurrent code is modelled twice where it pays. A *protocol* module has a `State`, one predicate for each
atomic step (one load, compare-exchange, exchange, fetch-and-add, or one section under a lock), and proves its
theorems about every `Run`: every interleaving of any number of coroutines or threads. A *class* has the fields
of the C++ object, and its methods edit the linked lists, words and counters in place; their contracts say
what the whole new state is, or that the method is a step of the protocol. Invariants carry a witness record
(`View`, `Roles`) that names who plays which part, and each action has its own small lemma.

| files | what they model | what they equal or keep |
|---|---|---|
| `QueueLock`, `MutexProtocol`, `Mutex` | the coroutine mutex: one word that is "unlocked", "locked" or a list of new waiters, and a private batch | a lock with one first-come-first-served queue |
| `FutureState`, `FutureStateInvariant`, `FutureStateProofs`, `FutureStateTheorems` | promise, future, executor task and their three counters around one four-state word | one call of the continuation with the final result, one destruction, one release of the memory |
| `FutureChain` | `thenTry` and `thenValue` chains | direct composition of the callbacks |
| `SignalWords`, `Signal`, `SlotRace` | cancellation signals: the bit word, signals chained into graphs, handler cells raced for by emitters and their owner | graph reachability; one fate for each handler |
| `SpinLock`, `ConditionVariable`, `SharedMutexProtocol`, `SharedMutex` | the lock and the waiter stack below, and the reader-writer lock on two gates and one packed word | exclusion; nobody sleeps without somebody left to wake him, up to an exact number of coroutines |
| `Semaphore` | the counting semaphore | conservation; no lost wake-up |
| `GeneratorBody`, `Generator` | nested generators that resume the leaf directly | the flattened sequence |
| `CollectAll`, `CollectAny`, `FutureAwaiter` | collectAll and its windows, collectAny, and awaiting a future that can be cancelled | pointwise results; first one wins, and when its result is what the caller sees |
| `ThreadPool` | the pool with its queues, work stealing and destructor | every accepted task once, pinned tasks in order, all workers leave |
| `PromiseAllocator` | the layout of a coroutine's memory block | disjoint parts, and delete finds what new stored |
| `HttpRequest`, `HttpParser`, `HttpLanguage`, `HttpTheorems` | the demo server's request parser | exactly the language of request texts, exactly their meaning |
| `Base64` | the demo SMTP client's codec | the groups of section 4 of RFC 4648 |

Some promises hold under a condition, which is stated exactly:

- The byte-wide counter of a `FutureState` is right throughout a run if and only if there are never more than 255
  live handles (`FutureStateTheorems.CountsHandles`). With 256 it reads zero, and the next handle to go fails the
  `assert` of `detachOne` (`AssertFailsFrom`: this can happen with n handles if and only if n >= 256); with asserts
  off the counter goes on to 255 and is right again. With n handles the state can be freed under the last of them
  if and only if n >= 257 (`FreesEarlyFrom`). All theorems about its lifetime hold up to 256.
- No coroutine is left asleep on a `SharedMutex` with nobody to wake it, until a later writer unlocks, as long as
  there are at most `max_readers + 1` coroutines; from one more on, a run exists that does it
  (`SharedMutexProtocol.StrandedFrom`).
- Emitting ends if and only if no cycle ahead of the signal carries one of the emitted multi-trigger bits
  (`Signals.EndsWithoutCycle`); so it always ends for trigger-once bits.
- The caller of a collectAny sees the winner's result if and only if an input was first at the counter and the
  caller, resumed, still finds its own handler in the slot (`CollectAny.WhatTheCallerSees`); an input can win and
  its result be lost to a cancellation that comes in between (`CollectAny.WinnerCanLose`).
- The request parser computes version numbers in ints without an overflow if and only if the numbers read are at
  most 2147483647 - 48 (`HttpTheorems.VersionsFit`).

Steps are sequentially consistent. The executor keeps the contract of `async_simple/Executor.h`: a function it
rejects never runs. I/O, clocks, the random choice of a queue and what user callbacks do are parameters.

## Model

| member | source | states |
|---|---|---|
| Mutex.Mutex.TryLock | async_simple/coro/Mutex.h:65-70 | takes the lock exactly if it was free, and leaves the queue alone |
| Mutex.Mutex.LockAsyncImpl | async_simple/coro/Mutex.h:187-214 | suspends exactly if the lock was held, and then stands at the end of the queue, whatever the weak compare-exchange does |
| Mutex.Mutex.Unlock | async_simple/coro/Mutex.h:106-139 | frees the lock if nobody waits, otherwise resumes the longest waiting and leaves the others in order |
| Mutex.Mutex.ReverseBatch | async_simple/coro/Mutex.h:117-131 | the exchanged list becomes the private batch, oldest first |
| Mutex.Mutex.ReverseInPlace | async_simple/coro/Mutex.h:121-131 | every `_next` of the list points the other way |
| MutexProtocol.StepRefines | async_simple/coro/Mutex.h:65-214 | each atomic step is one step of the queue lock, or none |
| MutexProtocol.RunRefines | async_simple/coro/Mutex.h:65-214 | every run of the pointer-level protocol is a run of the queue lock |
| MutexProtocol.FirstComeFirstServed | async_simple/coro/Mutex.h:106-214 | sleepers are woken as owners in the order they queued, each once; the rest are exactly the suspended ones |
| MutexProtocol.MutualExclusion | async_simple/coro/Mutex.h:65-139 | one owner at most; the word says "unlocked" exactly if there is none, and then nobody sleeps |
| MutexProtocol.UnlockAsserts | async_simple/coro/Mutex.h:106-139 | the asserts of unlock hold: locked, the exchange takes a list, the loop ends with somebody to resume |
| MutexProtocol.SleepersHaveAnOwner | async_simple/coro/Mutex.h:141-214 | while anybody sleeps, an owner exists and can take a step |
| FutureStateProofs.RunInv | async_simple/FutureState.h:142-319 | every step keeps the invariant on parts, state word and counters, with at most 256 live handles; the continuation may drop the handle whose call runs it |
| FutureStateTheorems.OneCall | async_simple/FutureState.h:196-308 | no transfer error; at most one call, with the stored result and after both sides arrived; one destruction, after the call |
| FutureStateTheorems.ResultIsFinal | async_simple/FutureState.h:196-224 | a visible result never changes |
| FutureStateTheorems.CountsHandles | async_simple/FutureState.h:323-324 | `_attached` is the number of live promises, futures and continuation references throughout a run, if and only if there are never more than 255 |
| FutureStateTheorems.NoUseAfterFree | async_simple/FutureState.h:145-167 | once the state is freed there is no further step |
| FutureStateTheorems.FreedIsSettled | async_simple/FutureState.h:156-167 | a freed state had a result, "broken" exactly if a promise broke, and its continuation was called with it and destroyed |
| FutureStateTheorems.BreaksOnlyWhenAbandoned | async_simple/Promise.h:41-75 | "Promise is broken" is stored only when no promise handle is left |
| FutureStateTheorems.FreedWithTheLast | async_simple/FutureState.h:145-151 | the state is freed exactly when the last live handle goes |
| FutureStateTheorems.OnlyTheGuard | async_simple/FutureState.h:265-274 | a continuation run in place may drop the future whose setContinuation runs it; the guard is then the only handle, and the state is still there |
| FutureStateTheorems.FreesEarlyFrom | async_simple/FutureState.h:323-324 | n live handles can have the state freed under some of them if and only if n is at least 257 |
| FutureStateTheorems.AssertFailsFrom | async_simple/FutureState.h:145-151 | n live handles can fail the assert of detachOne if and only if n is at least 256 |
| FutureChain.ErrorsSkipThenValue | async_simple/Future.h:200-211 | after an exception thenValue callbacks change nothing |
| FutureChain.Chain.constructor | async_simple/Future.h:66-70 | a chain starts from a ready future or from a promise's future |
| FutureChain.Chain.Settle | async_simple/FutureState.h:196-224 | a result is stored and the waiting continuation, if any, handed on; the invariant stays |
| FutureChain.Chain.SetContinuation | async_simple/FutureState.h:227-255 | a continuation waits, or is handed a result that is there; the invariant stays |
| FutureChain.Chain.Then | async_simple/Future.h:282-332 | a ready future calls back at once, a shared one later; the invariant stays and no result changes |
| FutureChain.Chain.Fulfil | async_simple/Promise.h:100-117 | promises of chain futures are fulfilled in any order |
| FutureChain.Chain.Run | async_simple/Future.h:307-329 | a callback is called once, with the result of the stage before it; a forwarded future settles the promise |
| FutureChain.Chain.Result | async_simple/Future.h:105-107 | whatever the last future has is the result of direct composition |
| FutureChain.ChainsEnd | async_simple/Future.h:192-332 | once promises are fulfilled and continuations run, the last future has its result and every callback was called |
| Signals.Signal.UpdateState | async_simple/Signal.h:76-88 | all emitted bits are set; granted are the new ones and the multi-trigger ones |
| Signals.Signal.Emits | async_simple/Signal.h:427-467 | on every graph, cycles included, emitting trigger-once bits ends and sets exactly the bits that can travel along filters over signals that lack them |
| Signals.EmitsIsReachability | async_simple/Signal.h:312-327 | from a propagated start that is plain reachability, and the result is propagated again |
| Signals.EndsWithoutCycle | async_simple/Signal.h:427-467 | the nested calls of an emission come to an end if and only if no cycle ahead carries one of its multi-trigger bits |
| SignalWords.UpdateWord | async_simple/Signal.h:76-88 | on 64-bit words, what UpdateState stores and returns are the union and the granted bits of the sets that the words stand for |
| SlotRace.InvokeNeverMeetsTag | async_simple/Signal.h:408-418 | invoke never exchanges out the tag |
| SlotRace.CasFailsOnlyOnTag | async_simple/Signal.h:224-257 | the compare-exchange of emplace and clear fails only against the tag, as they assert |
| SlotRace.GrantedOnce | async_simple/Signal.h:76-88 | a trigger-once bit that is set was granted to exactly one emits |
| SlotRace.FateMoves | async_simple/Signal.h:203-260 | a handler is refused or accepted, then called, cleared, replaced or freed, and that is final |
| SlotRace.CallsMatchFate | async_simple/Signal.h:408-425 | a handler was called once if that is its fate and never otherwise |
| SlotRace.OneFateEach | async_simple/Signal.h:203-260 | refused handlers never run; when the signal is gone every handler has met exactly one fate |
| SlotRace.NoneLeftUnrun | async_simple/Signal.h:427-445 | when the emits that got a bit of the filter is over, no accepted handler of that bit is left unrun |
| ConditionVariables.ConditionVariable.Suspend | async_simple/coro/ConditionVariable.h:63-72 | the awaiter is pushed on the stack |
| ConditionVariables.ConditionVariable.ResumeWaiters | async_simple/coro/ConditionVariable.h:119-127 | resumes the whole list in order although a resumed awaiter may be gone at once |
| ConditionVariables.ConditionVariable.NotifyOne | async_simple/coro/ConditionVariable.h:105-117 | wakes the one that fell asleep last, or nobody |
| ConditionVariables.ConditionVariable.NotifyAll | async_simple/coro/ConditionVariable.h:95-103 | wakes everybody and leaves an empty stack |
| SpinLock.Exclusion | async_simple/coro/SpinLock.h:36-65 | one holder at most, and the flag is set exactly while there is one, so the assert of unlock holds |
| SharedMutexProtocol.RunInv | async_simple/coro/SharedMutex.h:86-158 | every section keeps: flag and count say who entered and who reads, and who sleeps on which gate |
| SharedMutexProtocol.Exclusion | async_simple/coro/SharedMutex.h:86-97 | a writer excludes readers and other writers |
| SharedMutexProtocol.WordIsExact | async_simple/coro/SharedMutex.h:64-72 | the low 31 bits are the number of readers, the flag is set exactly if one coroutine is entering or writing; arithmetic never disturbs it |
| SharedMutexProtocol.WordOperations | async_simple/coro/SharedMutex.h:64-97 | on 32-bit words, the masks of the code are the flag and the number of readers |
| SharedMutexProtocol.Asserts | async_simple/coro/SharedMutex.h:111-144 | the asserts of unlock and unlockShared |
| SharedMutexProtocol.NothingLeft | async_simple/coro/SharedMutex.h:80-80 | the assert of the destructor, and both gates empty |
| SharedMutexProtocol.WriterPreference | async_simple/coro/SharedMutex.h:93-96 | while a writer waits no reader comes in, and once woken it never sleeps again |
| SharedMutexProtocol.NobodyStranded | async_simple/coro/SharedMutex.h:111-158 | with at most max_readers + 1 coroutines, whoever sleeps has a holder or woken coroutine left to wait for |
| SharedMutexProtocol.StrandedFrom | async_simple/coro/SharedMutex.h:153-157 | n coroutines can leave one asleep with nobody to wake it, until a later writer unlocks, if and only if n is at least max_readers + 2 |
| SharedMutexes.SharedMutex.CoLock | async_simple/coro/SharedMutex.h:86-97 | is the protocol's step, on the word and the two gates |
| SharedMutexes.SharedMutex.Recheck | async_simple/coro/SharedMutex.h:94-96 | is the protocol's step after a wake-up at the second gate |
| SharedMutexes.SharedMutex.TryLock | async_simple/coro/SharedMutex.h:99-109 | is the protocol's step; fails under contention |
| SharedMutexes.SharedMutex.Unlock | async_simple/coro/SharedMutex.h:111-118 | is the protocol's step; wakes the first gate |
| SharedMutexes.SharedMutex.CoLockShared | async_simple/coro/SharedMutex.h:122-128 | is the protocol's step |
| SharedMutexes.SharedMutex.TryLockShared | async_simple/coro/SharedMutex.h:130-140 | is the protocol's step; fails under contention |
| SharedMutexes.SharedMutex.UnlockShared | async_simple/coro/SharedMutex.h:142-158 | is the protocol's step; wakes the writer, or one reader on overflow |
| SemaphoreProtocol.Conservation | async_simple/coro/Semaphore.h:75-108 | initial count plus releases equal count plus acquires |
| SemaphoreProtocol.NoLostWakeUp | async_simple/coro/Semaphore.h:75-98 | while somebody sleeps the count is at most the number of woken coroutines that have not looked yet |
| SemaphoreProtocol.CountBounded | async_simple/coro/Semaphore.h:83-90 | the count never exceeds its start or LeastMaxValue |
| Semaphores.CountingSemaphore.Acquire | async_simple/coro/Semaphore.h:75-80 | is the protocol's step |
| Semaphores.CountingSemaphore.TryAcquire | async_simple/coro/Semaphore.h:100-108 | is the protocol's step; true exactly if there was something |
| Semaphores.CountingSemaphore.Release | async_simple/coro/Semaphore.h:82-98 | is the protocol's step; wakes all for more than one unit, else the last sleeper |
| Generator.Iterator.Enter | async_simple/coro/Generator.h:397-413 | the nested generator becomes the leaf; every record on the chain knows parent and root |
| Generator.Iterator.Leave | async_simple/coro/Generator.h:436-455 | the parent becomes the leaf again and goes on behind its co_yield, or with the exception raised there |
| Generator.Iterator.YieldValue | async_simple/coro/Generator.h:479-489 | the leaf's value is the first of the values to come |
| Generator.Iterator.EnterNested | async_simple/coro/Generator.h:387-413 | entering changes nothing about what is to come |
| Generator.Iterator.LeaveNested | async_simple/coro/Generator.h:521-527 | nor does leaving, by end or by exception |
| Generator.Iterator.Skip | async_simple/coro/Generator.h:394-394 | nor does a generator that was moved away |
| Generator.Iterator.Resume | async_simple/coro/Generator.h:573-578 | one resume hands over the first value to come and leaves the rest, or ends as the flattening ends |
| Generator.Iterate | async_simple/coro/Generator.h:613-619 | a consumer's loop delivers exactly the flattened sequence and its exception |
| GeneratorBody.RunEnter | async_simple/coro/Generator.h:397-413 | a stack with the child on top means what its parent means alone |
| GeneratorBody.RunLeave | async_simple/coro/Generator.h:436-455 | an ended child may be replaced by how its parent goes on |
| CollectAll.ResumedWithAll | async_simple/coro/Collect.h:403-418 | resumed once at most, and by then all results are stored at their own index |
| CollectAll.AllOver | async_simple/coro/CountEvent.h:47-61 | exactly one callback sees the first count and signals, exactly one the last and resumes |
| CollectAll.NoUseAfterResume | async_simple/coro/Collect.h:381-428 | nothing touches the awaiter after the coroutine was resumed |
| CollectAll.Await | async_simple/coro/Collect.h:381-429 | whatever run of the protocol a group takes, its output is the result of each input in order |
| CollectAll.Windowed | async_simple/coro/Collect.h:485-522 | results in input order; the cut points split the input into groups no larger than the window, all full but the last, each awaited by a run of collectAll |
| CollectAny.EachCountOnce | async_simple/coro/Collect.h:161-187 | the counter of n + 1 contenders gives each value to one of them, from n + 1 down |
| CollectAny.OneWinner | async_simple/coro/Collect.h:164-200 | one contender resumes, the first at the counter, and leaves its own result, or nothing if it is the cancellation handler |
| CollectAny.OnlyTheWinnerTouches | async_simple/coro/Collect.h:187-199 | only the winner uses the awaiter, while the coroutine still waits |
| CollectAny.SomebodyResumes | async_simple/coro/Collect.h:164-200 | once all who came are over, the coroutine has been resumed once |
| CollectAny.WhatTheCallerSees | async_simple/coro/Collect.h:202-209 | the winner's result if and only if an input won and the caller still finds its handler in the slot, otherwise the exception |
| CollectAny.WinnerCanLose | async_simple/Signal.h:389-400 | an input can win and its result be lost to a Terminate before await_resume |
| FutureAwaiter.OneResumes | async_simple/coro/FutureAwaiter.h:40-82 | completion and cancellation resume once between them, the first to exchange the flag, and only that one uses the awaiter |
| FutureAwaiter.WhatTheCallerSees | async_simple/coro/FutureAwaiter.h:108-111 | the future's result if and only if its completion exchanged the flag first, otherwise the cancellation exception |
| FutureAwaiter.SomebodyResumes | async_simple/coro/FutureAwaiter.h:52-80 | once anybody has come, the coroutine is resumed |
| ThreadPool.EveryTaskOnce | async_simple/util/ThreadPool.h:101-130 | a pushed task is queued, in a worker's hands or run, as often as it was pushed |
| ThreadPool.PinnedInOrder | async_simple/util/ThreadPool.h:174-202 | tasks that may not be stolen run on their own worker in push order |
| ThreadPool.AllRun | async_simple/util/ThreadPool.h:166-172 | when the workers have left, everything pushed before the destructor started was run exactly as often |
| ThreadPool.WorkersLeave | async_simple/util/Queue.h:59-67 | no worker leaves before the destructor starts, and each that has not left can move after it stopped the queues |
| ThreadPool.WorkersFinish | async_simple/util/ThreadPool.h:166-172 | from then on, while nobody pushes, the workers' turns are bounded by the work that was left; since each that has not left can move, all of them leave |
| PromiseAllocator.AllocatorFits | async_simple/coro/PromiseAllocator.h:89-100 | for all sizes and powers of two the stored allocator is behind the frame, aligned, and inside the block |
| PromiseAllocator.PlainFits | async_simple/coro/PromiseAllocator.h:83-88 | without a stored allocator the blocks suffice and none is spare |
| PromiseAllocator.FirstIsUnique | async_simple/coro/PromiseAllocator.h:89-96 | the allocator's place is the only aligned one within one alignment behind the frame |
| PromiseAllocator.New | async_simple/coro/PromiseAllocator.h:81-153 | in all four variants, what is stored lies behind the frame and inside the block, the allocator at the first aligned place |
| PromiseAllocator.Delete | async_simple/coro/PromiseAllocator.h:130-153 | computed anew, the place of the allocator is where new stored it, and the number of blocks the one new asked for |
| PromiseAllocator.Lifetime | async_simple/coro/PromiseAllocator.h:161-248 | whatever the frame writes, delete gets back what new stored and gives back as many blocks, in all four variants |
| HttpParsers.Chunks | demo_example/http/http_request.hpp:46-56 | splitting the input between two calls makes no difference |
| HttpParsers.AnyChunks | demo_example/http/http_request.hpp:46-56 | nor does splitting it into any chunks |
| HttpParsers.RequestParser.Parse | demo_example/http/http_request.hpp:46-56 | the loop is the machine fed character by character, with state and request updated |
| HttpLanguage.StepGoes | demo_example/http/http_request.hpp:60-245 | every accepted character extends a partly written request by that character and fills the request accordingly |
| HttpTheorems.Complete | demo_example/http/http_request.hpp:60-245 | every request text, folded or not, is accepted at its last character as what it means |
| HttpTheorems.OnlyRequests | demo_example/http/http_request.hpp:60-245 | whatever is accepted is a request text, and the request is its meaning |
| HttpTheorems.CanGoOn | demo_example/http/http_request.hpp:60-245 | from every state some continuation is accepted |
| HttpTheorems.Answers | demo_example/http/http_request.hpp:38-56 | good, bad and indeterminate mean exactly: a request, no request starts like this, may still become one |
| HttpTheorems.VersionsFit | demo_example/http/http_request.hpp:125-170 | on any input the int arithmetic overflows nowhere if and only if the version numbers read so far are at most INT_MAX - 48 |
| HttpTheorems.RoundTrip | demo_example/http/http_request.hpp:46-245 | the canonical printing of a request, in any chunks, is read back, and without an overflow if and only if its version numbers are at most INT_MAX - 48 |
| HttpTheorems.Reprint | demo_example/http/http_request.hpp:46-245 | printing and parsing again gives the same request for every accepted text, and overflows if and only if the text did |
| HttpRequests.CanonicalMeans | demo_example/http/http_request.hpp:16-27 | the canonical text of a request means that request |
| Base64.Encode | demo_example/smtp/smtp_client.cpp:44-88 | the loops and buffers give the RFC 4648 encoding |
| Base64.Decode | demo_example/smtp/smtp_client.cpp:89-134 | the loops and buffers give the bytes of the groups up to the first character outside the alphabet |
| Base64.EncodeMasks | demo_example/smtp/smtp_client.cpp:57-61 | the masks and shifts on bytes are the quotients and remainders of their numbers |
| Base64.DecodeMasks | demo_example/smtp/smtp_client.cpp:105-109 | so are those of the decoder, and their sums do not carry |
| Base64.DigitsByMasks | demo_example/smtp/smtp_client.cpp:57-61 | byte by byte, these are the four digits of the 24-bit number |
| Base64.BytesByMasks | demo_example/smtp/smtp_client.cpp:105-109 | digit by digit, these are the three bytes of the 24-bit number |
| Base64.InAlphabet | demo_example/smtp/smtp_client.cpp:35-42 | is_base64 accepts exactly the alphabet, and find gives the digit |
| Base64.Length | demo_example/smtp/smtp_client.cpp:44-88 | four characters for every three bytes or part of them |
| Base64.RoundTrip | demo_example/smtp/smtp_client.cpp:44-134 | decoding the encoding gives the bytes back |

## Left out

- Memory orders: steps are sequentially consistent; acquire and release arguments would need a memory model.
- Overlapping `setValue` calls or overlapping `setContinuation` calls on one state: the class is for one producer and one consumer. A second `setValue` after a result is refused by an assert of the code and is no step.
- `FutureState::setExecutor`, `setForceSched` and `checkout` after a continuation was set, and `Future::wait`, which replaces the executor: executor and force flag are fixed for a run.
- FutureStateTheorems.NoUseAfterFree: holds with at most 256 live handles, because the counters are one byte wide; FreesEarlyFrom shows that this is the exact bound.
- FutureChain.Chain.Run: what a callback does is a function of its argument, and the future it returns is fulfilled by a promise that nothing else in the chain waits on; executors may delay or reorder continuations but choose no result.
- Multi-trigger bits in SlotRace: `invoke` loads a handler that the owner may free meanwhile.
- Signals.Signal.Emits: several emits at once on one graph; SlotRace interleaves emits on one signal instead. Handlers do not change the graph, and filters are fixed.
- The linking of new slots and handler managers into their lists (`registSlot`, `loadHandler`): their lists are sequences.
- ConditionVariables.ConditionVariable.NotifyOne: called with the lock held, as both users do; without it the compare-exchange loop can meet an emptied list.
- Interleaving inside sections: SpinLock shows that sections under the spin lock exclude each other, and the protocols of SharedMutex and CountingSemaphore take each as one step; a failed `tryLock` of the spin lock is the `contended` parameter. That a spinning coroutine gets its turn depends on the scheduler.
- `ConditionVariable<void>`, `Notifier` and `Latch`: easy members beside the ones modelled.
- Generator.Iterate: bodies are finite, so a generator that yields for ever has no statement; handlers in a body do not depend on the exception's value, a consumer that stops early is not modelled, and values are numbers.
- The variadic forms of collectAll and collectAny, and collecting futures instead of coroutines: the same counters once more.
- CollectAll.Windowed: exceptions of inputs are results like others, and the yield between windows is no step.
- CollectAny.WhatTheCallerSees: the slot's filter lets Terminate pass; a slot that filters it out is like no slot. The same holds for FutureAwaiter.WhatTheCallerSees, whose result type is not void (with void, await_resume reads nothing and a cancellation goes unnoticed).
- Tasks scheduled after the pool's destructor started, for instance by other tasks: they are marked late, and nothing is promised about them. Null functions are refused before any step.
- PromiseAllocator.AllocatorFits: the mask `& ~(align - 1)` is written as a division and not tied to bit-vectors; sums of sizes do not overflow, and allocation failure of the no-throw variant is not modelled.
- HttpParsers.RequestParser.Parse: version numbers are unbounded; VersionsFit says on which inputs that is what the code computes. Bytes from 128 on are characters outside every class.
- Base64.Decode: lengths are unbounded, where the code keeps the input length in an int.
- Sockets, the reply side of the HTTP server, the SMTP dialogue, uthreads, thread binding, and type erasure: I/O and plumbing.
