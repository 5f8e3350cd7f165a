# Verified models of the memory pools, the thread pool and the reactor

This project models the four components of the repository whose correctness spans several functions, and proves what
they keep over every run.

* **SGI-style memory pool** (`Sgi*.dfy`). A flat address space of 8-byte cells, each holding either a link or eight data
  bytes, so the `next` pointers of the sixteen free lists really lie in free memory. The answers of `malloc` are
  parameters: null, or any aligned region disjoint from those issued. `SgiTiling` holds the geometry (blocks, bump
  region and the batch in a call's hand tile the arenas), `SgiMemory` the cells, byte copies and chains, `SgiLists` how
  blocks are filed and threaded, `SgiPool` the class with `Allocate`, `Refill`, `AllocChunk`, `Deallocate` and
  `Reallocate`. `SgiPool.Inv` is the invariant all of them keep.
* **nginx-style memory pool** (`Nginx*.dfy`). `NginxChain` has the small blocks and the failure counters,
  `NginxReplay` the two-run theorem about `Reset`, `NginxBounds` which pools never overrun a block, `NginxLedger` a log of everything the pool does to memory with an
  auditor that rejects bad frees and looks at dead nodes, `NginxPool` the class itself. `NginxPool.Sound` is its
  invariant; it contains that the log so far passes the audit.
* **Thread pool** (`ThreadPool*.dfy`). `ThreadPoolSteps` is a state machine over any number of workers and submitters
  and one destructor, split at every point where the mutex is taken or released, with spurious wakeups and timeouts.
  `ThreadPoolSafety`, `ThreadPoolWork` and `ThreadPoolShutdown` hold the invariants, `ThreadPoolRuns` the theorems about
  runs and reachable states, `ThreadPoolSettings` for each guarantee the exact settings that give it, `ThreadPool` the
  object whose code sections take those steps.
* **Reactor core of mymuduo**. `Buffer` is the byte queue over an array, `Poller` the channels and the epoll poller
  next to the kernel's table, `TcpStream` and `TcpConnection` the outgoing byte stream, `EventLoopSteps` the wakeup
  protocol as a state machine and `EventLoop` the object that takes part in it.

Source code that updates objects in place is modelled by classes whose methods are proved against value-level
specifications; what the source promises is then proved about those specifications.

## What turned out differently from what the source intends

* `SgiPool.MemoryPool.Reallocate`: the test for a null result (lines 184-186) is never reached for a small size. When
  both calls of `malloc` fail and nothing is left from the class up, `Refill` writes through a null batch first; the
  contracts give the exact condition of that fault.
* `NginxBounds.PoolIsSafeIff`: small blocks are never overrun exactly when the pool size is a multiple of 16 and the
  largest small request fits a block beside its header. Neither is checked.
* `NginxReplay.ServedReplaysIff`: after `Reset` the same requests get the same addresses exactly when none of them fits a
  block that the search head had passed in the first run; `NginxReplay.ResetReplaysIff` adds what holds where malloc
  refuses blocks. Up to five added blocks that is always so
  (`NginxReplay.ResetReplays`); with six it can fail (`NginxReplay.SixBlocksNotReplayed`).
* `ThreadPoolSettings.AttendedIff`: that a task of a running pool finds some worker up is guaranteed exactly for pools
  with initial workers that cannot retire any, and for pools that admit no task. `ThreadPoolWork.AttendedStep` names the
  steps that break it: line 122 lets a worker retire without a look at the queue.
* `ThreadPoolSettings.ConservedIff`: that no task waits beside sleepers only is guaranteed exactly for fixed pools, pools
  of at most one worker and pools that admit no task. A notified `wait_for` may report a timeout once its deadline has
  passed; `ThreadPoolWork.ConservedStep` shows that no other step loses a wakeup.
* `ThreadPoolSettings.ClosesDoneIff`: the destructor returns with all accepted tasks done exactly for pools with initial
  workers and pools that admit no task.
* `ThreadPoolSettings.HeardIff`: the destructor never waits for workers that no longer exist exactly for fixed pools,
  pools that cannot grow and pools that admit no task; elsewhere the last worker can retire without telling it.
* `ThreadPool.Pool.Start`: line 92 dereferences null exactly when thread ids no longer start at 0, so in every second
  pool of a process that is to have workers (`ThreadPool.SecondPool`).
* `TcpStreams.AllOnWireIff` and `TcpStreams.PendingOutputIsStuck`: `IsWriteEvent` compares for equality, and an
  established connection always stays interested in reading, so `HandleWrite` never writes and output that had to wait
  is never sent. `TcpStreams.ShutdownNeverWaits` is the same for half-close.
* `TcpStreams.NeverFaulty`: the error flag of `SendInLoop` is never set, as its test is nested in one that excludes it.
* `Pollers.Channel.DisableAll`: on a channel the kernel does not watch it registers the channel, with an empty mask
  (`Pollers.DisabledTwice`).
* `TcpConnections.SendAfterDestroy`: a send queued before a half-closed connection was destroyed puts its removed channel
  back into the kernel's table.

## Model

| member | source | states |
|---|---|---|
| `SgiPool.RoundUp` | sgi_memory_pool/memory_pool.h:48-50 | the least multiple of 8 that is not below the size |
| `SgiPool.FreelistIndex` | sgi_memory_pool/memory_pool.h:52-54 | class k serves the sizes in (8k, 8(k+1)] |
| `SgiPool.HeapAccounting` | sgi_memory_pool/memory_pool.cpp:25-167 | between calls, live small blocks at their rounded size, the chunks on the sixteen lists and the bump region add up to exactly heap_size_ |
| `SgiPool.HoldingsApart` | sgi_memory_pool/memory_pool.cpp:25-167 | a byte a client holds is in no other holding, in no chunk of a free list and not in the bump region |
| `SgiLists.BlocksAreLiveOrFiled` | sgi_memory_pool/memory_pool.cpp:25-167 | the carved blocks are exactly the live ones and those on the lists, by total size; list k adds 8(k+1) per chunk |
| `SgiPool.WalkOfList` | sgi_memory_pool/memory_pool.cpp:33-44 | following the links stored in memory from a head of the table gives exactly the chunks filed on that list |
| `SgiMemory.WalkFindsChain` | sgi_memory_pool/memory_pool.cpp:70-80 | a chain is null-terminated and acyclic: walking it finds its elements in order and stops |
| `SgiMemory.CopyIsExact` | sgi_memory_pool/memory_pool.cpp:188-189 | the byte copy moves exactly the first n bytes, also when n is not a multiple of the cell, and nothing outside the target changes |
| `SgiTiling.Carve` | sgi_memory_pool/memory_pool.cpp:91-104 | cutting a batch off the bump region keeps the partition |
| `SgiTiling.FileLeftover` | sgi_memory_pool/memory_pool.cpp:107-112 | turning the leftover into a chunk keeps the partition |
| `SgiTiling.Grow` | sgi_memory_pool/memory_pool.cpp:117-144 | a fresh arena as bump region keeps the partition and adds its length |
| `SgiTiling.Steal` | sgi_memory_pool/memory_pool.cpp:130-134 | a chunk of a larger class as bump region keeps the partition |
| `SgiTiling.SettleRow` | sgi_memory_pool/memory_pool.cpp:66-80 | a batch cut into equal objects keeps the partition |
| `SgiPool.LeftoverClass` | sgi_memory_pool/memory_pool.cpp:107-112 | the leftover is exactly one chunk of a class strictly below the one asked for |
| `SgiPool.LeftoverInv` | sgi_memory_pool/memory_pool.cpp:107-112 | filing it keeps the invariant and touches no cell a client holds |
| `SgiPool.StealInv` | sgi_memory_pool/memory_pool.cpp:124-134 | popping a larger chunk into the bump region keeps the invariant and what clients hold |
| `SgiPool.GrowInv` | sgi_memory_pool/memory_pool.cpp:117-144 | a fresh arena keeps the invariant |
| `SgiPool.GrowthStep` | sgi_memory_pool/memory_pool.cpp:115-143 | with k arenas before, 320 * 17^(k-1) <= 16^(k-1) * heap_size_ carries over to k+1 |
| `SgiPool.ArenaBounds` | sgi_memory_pool/memory_pool.cpp:115 | an arena is a multiple of 8, holds a full batch, and is 40 * size + heap_size_/16 bytes, rounded up to the next multiple of 8 |
| `SgiPool.SourceOfRegion` | sgi_memory_pool/memory_pool.cpp:115-144 | where a new bump region comes from and how long it is: malloc, else the head of the least stocked class that is large enough, without new heap, else malloc once more |
| `SgiPool.FullBatch` | sgi_memory_pool/memory_pool.cpp:91-96 | twenty objects are cut when they fit |
| `SgiPool.PartialBatch` | sgi_memory_pool/memory_pool.cpp:98-104 | otherwise as many as fit, at least one and fewer than twenty |
| `SgiPool.RefillInv` | sgi_memory_pool/memory_pool.cpp:62-82 | the batch, its first object live and the others filed on their list, completes the invariant |
| `SgiPool.OwnWrite` | sgi_memory_pool/memory_pool.h:11-15 | a client that writes inside its own block disturbs neither the pool nor other clients |
| `SgiPool.MemoryPool.constructor` | sgi_memory_pool/memory_pool.cpp:9-18 | the empty pool satisfies the invariant |
| `SgiPool.MemoryPool.FileRest` | sgi_memory_pool/memory_pool.cpp:106-112 | the leftover becomes the head of the list of its own size and no other list changes; invisible to clients |
| `SgiPool.MemoryPool.StealLarger` | sgi_memory_pool/memory_pool.cpp:121-136 | finds a chunk exactly when a list from the class up has one; the smallest such class gives its head and no other list changes |
| `SgiPool.MemoryPool.TakeArena` | sgi_memory_pool/memory_pool.cpp:115-144 | malloc's region becomes arena and bump region, and heap_size_ grows by its length |
| `SgiPool.MemoryPool.Replenish` | sgi_memory_pool/memory_pool.cpp:106-144 | afterwards the bump region holds an object, except exactly when both mallocs fail and nothing is stocked |
| `SgiPool.MemoryPool.Cut` | sgi_memory_pool/memory_pool.cpp:91-104 | the batch is the front of the bump region, of 1 to 20 objects |
| `SgiPool.MemoryPool.AllocChunk` | sgi_memory_pool/memory_pool.cpp:86-148 | terminates with at most one nested call; 1 <= nobjs <= 20 contiguous objects; which region supplies them on each of the five paths; a null list of the requested class is still null afterwards; null exactly on exhaustion |
| `SgiPool.MemoryPool.LinkRow` | sgi_memory_pool/memory_pool.cpp:71-80 | the link loop makes the objects after the first a null-terminated chain in address order, writing nothing a client holds |
| `SgiPool.MemoryPool.Refill` | sgi_memory_pool/memory_pool.cpp:51-83 | answer and new list together are exactly the batch in address order, no chunk is lost, and the fault condition is exact |
| `SgiPool.MemoryPool.Allocate` | sgi_memory_pool/memory_pool.cpp:25-48 | a block disjoint from all holdings with all holdings untouched; which address it is; null and fault conditions; large requests touch no list and add one region |
| `SgiPool.MemoryPool.Deallocate` | sgi_memory_pool/memory_pool.cpp:151-167 | a small block is the new front of its class's list, one cell is written; a large one leaves the regions held and nothing else changes; other holdings are untouched |
| `SgiPool.MemoryPool.Realloc` | sgi_memory_pool/memory_pool.cpp:172-175 | between large sizes the invariant and the first min(old, new) bytes are kept; one region goes and one comes |
| `SgiPool.MemoryPool.Reallocate` | sgi_memory_pool/memory_pool.cpp:170-194 | within one class the block stays and nothing at all changes; between large sizes the answer is libc's and no list changes; otherwise the address is the one Allocate gives and the old block goes to the front of its list, or back to libc. The first min(old, new) bytes and every other live block are kept, and the fault condition is exact |
| `SgiPool.FreeThenAllocate` | sgi_memory_pool/memory_pool.cpp:25-167 | giving a small block back and asking for any size of its class returns that block and restores every list |
| `SgiPool.FirstSteps` | sgi_memory_pool/memory_pool.cpp:25-167 | from a new pool: allocate, give back, allocate again, for all sizes of one class and any arena |
| `SgiPool.FirstFault` | sgi_memory_pool/memory_pool.cpp:25-194 | the fault happens: a new pool whose mallocs are refused faults on every small request, by Allocate and by Reallocate |
| `NginxChain.AlignUp` | nginx_memory_pool/memory_pool.h:14-23 | the least multiple of 16 that is not below the address |
| `NginxChain.FitsIsSafeIff` | nginx_memory_pool/memory_pool.cpp:122-127 | the test on the wrapped difference is a bounds test exactly when alignment did not pass the end |
| `NginxBounds.PoolIsSafeIff` | nginx_memory_pool/memory_pool.cpp:116-178 | over every run of small requests on a new pool, refusals of malloc included: no block is filled past its end, if and only if the pool size is a multiple of 16 and at least 4095 + 32 |
| `NginxBounds.FittingPoolIsSafeIff` | nginx_memory_pool/memory_pool.cpp:116-178 | over those runs in which every request fits a block beside its header: if and only if the pool size is a multiple of 16 |
| `NginxBounds.Oversized` | nginx_memory_pool/memory_pool.cpp:140-178 | any request that does not fit beside the header gets a new block and fills it past its end |
| `NginxBounds.Overruns` | nginx_memory_pool/memory_pool.cpp:116-130 | any other pool size has a run that does so, from any aligned fill level on |
| `NginxChain.PoolSizeIsSafeIff` | nginx_memory_pool/memory_pool.cpp:116-130 | for one block at any fill level: no placement leaves it, if and only if the pool size is a multiple of 16 |
| `NginxChain.NewBlockSafeIff` | nginx_memory_pool/memory_pool.cpp:147-157 | a new block's first request stays inside if and only if it fits beside the header |
| `NginxChain.FirstFit` | nginx_memory_pool/memory_pool.cpp:118-133 | no earlier block from the current one on takes the request, and the one found does |
| `NginxChain.ProfileShape` | nginx_memory_pool/memory_pool.cpp:159-175 | blocks before current_block_ carry exactly 6 failures, later ones at most 5 and non-increasing, the tail 0; at most m + 5 blocks are searched |
| `NginxChain.HeadAfterIs` | nginx_memory_pool/memory_pool.cpp:160-173 | the loop moves current_block_ to six blocks before the new tail once six were added since Reset, and lines 171-173 never move it |
| `NginxChain.SmallAllocOk` | nginx_memory_pool/memory_pool.cpp:116-178 | every small request keeps counters, head and block bounds |
| `NginxChain.SmallAllocTakes` | nginx_memory_pool/memory_pool.cpp:116-130 | the first block from current_block_ on whose end lies far enough past its aligned free part takes the request, and nothing else changes |
| `NginxChain.SmallAllocAdds` | nginx_memory_pool/memory_pool.cpp:140-178 | without such a block: a refusal changes nothing; otherwise one block joins at the end, every block from current_block_ on counts a failure, earlier ones none, and current_block_ is six blocks before the new end once six were added since Reset |
| `NginxReplay.ResetReplaysIff` | nginx_memory_pool/memory_pool.cpp:80-178 | for every run, refusals of malloc included, and a Reset after it: requests of the same sizes get the same answers if and only if no request fits a block the search head had passed, and where the first run was refused it adds no block later and the second run is refused too; and then no block is added |
| `NginxReplay.ServedReplaysIff` | nginx_memory_pool/memory_pool.cpp:80-178 | for runs without refusals: if and only if no request of the run fits a block the search head had passed, whatever malloc would say the second time |
| `NginxReplay.StepRefused` | nginx_memory_pool/memory_pool.cpp:140-145 | a refused request changes nothing; the second time it is refused exactly if no further block is owned and malloc refuses again |
| `NginxReplay.FiveNeverPass` | nginx_memory_pool/memory_pool.cpp:159-175 | a run without refusals that adds at most five blocks passes none |
| `NginxReplay.ResetReplays` | nginx_memory_pool/memory_pool.cpp:80-178 | so runs without refusals that add at most five blocks are always replayed, without malloc |
| `NginxReplay.StepApart` | nginx_memory_pool/memory_pool.cpp:116-178 | a request that fits a passed block gets another address the second time |
| `NginxReplay.StepAhead` | nginx_memory_pool/memory_pool.cpp:116-178 | one request that fits no passed block is placed alike by the growing chain and by the grown one |
| `NginxReplay.SixBlocksNotReplayed` | nginx_memory_pool/memory_pool.cpp:80-178 | the condition can fail: a run that adds six blocks and is not replayed |
| `NginxLedger.FreedOncePerMalloc` | nginx_memory_pool/memory_pool.cpp:42-105 | in an audited log, where list nodes lie in regions held, each address was freed as often as it was malloc'd, once less while it is held |
| `NginxPool.GivenInBlock` | nginx_memory_pool/memory_pool.cpp:119-130 | a placement keeps all regions handed out since Reset 16-aligned, past the header, inside the block and disjoint |
| `NginxPool.GivenInNewBlock` | nginx_memory_pool/memory_pool.cpp:142-157 | so does the first request of a new block |
| `NginxPool.SoundPlaces` | nginx_memory_pool/memory_pool.cpp:127-130 | a placement keeps the whole invariant |
| `NginxPool.SoundGrows` | nginx_memory_pool/memory_pool.cpp:140-178 | a new block keeps the whole invariant, the audit included |
| `NginxPool.SoundReuses` | nginx_memory_pool/memory_pool.cpp:192-196 | so does a freed header that takes a new allocation |
| `NginxPool.SoundPushes` | nginx_memory_pool/memory_pool.cpp:205-213 | so does a new header |
| `NginxPool.SoundReleases` | nginx_memory_pool/memory_pool.cpp:72-75 | so does freeing a live large allocation |
| `NginxPool.SoundVisitsCleanup` | nginx_memory_pool/memory_pool.cpp:82-86 | visiting a cleanup node touches a live node and runs its handler once if set |
| `NginxPool.SoundDropsLarge` | nginx_memory_pool/memory_pool.cpp:89-94 | visiting a large header frees its allocation once and touches only a live node |
| `NginxPool.SoundRecycles` | nginx_memory_pool/memory_pool.cpp:97-104 | recycling the blocks once the lists are dropped keeps the invariant |
| `NginxPool.FreesBlock` | nginx_memory_pool/memory_pool.cpp:58-62 | each block's link is read while it is held, and the block is freed once |
| `NginxPool.MemoryPool.constructor` | nginx_memory_pool/memory_pool.cpp:7-34 | a new pool satisfies the invariant; its size is the one asked for between 80 and 16384, else the nearer of the two |
| `NginxPool.MemoryPool.CountFailures` | nginx_memory_pool/memory_pool.cpp:159-173 | every searched block gets exactly one failure more, and the head is the one HeadAfter gives |
| `NginxPool.MemoryPool.AllocateSmallBlock` | nginx_memory_pool/memory_pool.cpp:140-178 | a failed search grows the chain as specified, or changes nothing when malloc refuses; the invariant is kept, and a block overrun exactly by a request that does not fit beside the header |
| `NginxPool.MemoryPool.Search` | nginx_memory_pool/memory_pool.cpp:117-133 | the loop finds the first fit |
| `NginxPool.MemoryPool.AllocateSmall` | nginx_memory_pool/memory_pool.cpp:116-137 | refines first-fit-or-grow, hands out a fresh region, and looks at no more than m + 5 blocks; the invariant is kept unless the request overruns a new block |
| `NginxPool.MemoryPool.ReuseHeader` | nginx_memory_pool/memory_pool.cpp:188-202 | the headers up to the first one without an allocation, five at most, are looked at; that one takes the new allocation and no other changes |
| `NginxPool.MemoryPool.NewHeader` | nginx_memory_pool/memory_pool.cpp:205-215 | a header inside the small blocks manages the allocation, or the allocation is freed again; chain, list and log afterwards |
| `NginxPool.MemoryPool.AllocateLarge` | nginx_memory_pool/memory_pool.cpp:181-216 | the first of the first five headers without an allocation takes the new one, the small blocks and all other headers staying as they are; without one a new header stands in front, or the memory is freed again and nothing else changes; every event added to the log |
| `NginxPool.LargeReuses` | nginx_memory_pool/memory_pool.cpp:188-202 | which header a large allocation reuses, and the one malloc and the looks at headers that go into the log |
| `NginxPool.LargeNeedsHeader` | nginx_memory_pool/memory_pool.cpp:204-215 | what happens without one: five headers at most were looked at, a first-fit request for 16 bytes decides between a new header in front and a free |
| `NginxPool.MemoryPool.Allocate` | nginx_memory_pool/memory_pool.cpp:108-113 | both size ranges: answer, chain, list and every event added to the log; the audit is kept unless a small request overruns a new block |
| `NginxPool.MemoryPool.AddCleanup` | nginx_memory_pool/memory_pool.cpp:220-243 | a new node first in the list, its handler unset, with its data region; a failure leaves the list alone; chain, large list and every event added to the log; the audit is kept unless small data overruns a new block |
| `NginxPool.CleanupEffectIs` | nginx_memory_pool/memory_pool.cpp:220-243 | AddCleanup request by request: 24 bytes for the node, then its data; whatever is refused, what was taken before stays taken and the list is left alone |
| `NginxPool.MemoryPool.LargeFree` | nginx_memory_pool/memory_pool.cpp:70-77 | the headers at p are cleared, each live one freed once, and nothing else changes |
| `NginxPool.MemoryPool.RunHandlers` | nginx_memory_pool/memory_pool.cpp:82-86 | the registered handlers run once each, newest first |
| `NginxPool.HandlersNewestFirst` | nginx_memory_pool/memory_pool.cpp:82-86 | the handlers run are those set, from the front of the list, each once with its own data |
| `NginxPool.CleanupNewestFirst` | nginx_memory_pool/memory_pool.cpp:82-86 | the walk reads each node before it goes on to the next, from the front of the list |
| `NginxPool.LargeNewestFirst` | nginx_memory_pool/memory_pool.cpp:89-94 | the walk over the large headers frees each live allocation once, from the front of the list |
| `NginxPool.SweepNewestFirst` | nginx_memory_pool/memory_pool.cpp:70-77 | LargeFree looks at every header, from the front of the list, and frees what it finds at p |
| `NginxPool.BlocksFromRoot` | nginx_memory_pool/memory_pool.cpp:58-62 | the blocks are freed from the root on, each after its link was read |
| `NginxPool.MemoryPool.Reset` | nginx_memory_pool/memory_pool.cpp:80-105 | handlers, then frees, then recycling, in that order in the log; every block starts behind its header again without failures, all lists gone, invariant kept |
| `NginxPool.MemoryPool.DestroyPool` | nginx_memory_pool/memory_pool.cpp:42-67 | handlers, large memory and blocks in that order; the audit passes with nothing held, so every malloc was freed exactly once |
| `NginxPool.Lifetime` | nginx_memory_pool/memory_pool.cpp:7-243 | from construction to destruction with a large allocation, a handler and a Reset: the handler ran once and every address was freed as often as malloc'd |
| `ThreadPoolRuns.CountersAreRight` | thread_pool/thread_pool.cpp:79-157 | reachable states of a running pool: init <= current = number of threads <= max, idle = threads not executing, task_size_ = queue length <= limit; no counter underflows |
| `ThreadPoolRuns.TasksAreKept` | thread_pool/thread_pool.cpp:138-155 | tasks leave the queue in order of acceptance, each to one worker, and each is queued, executing or done, never two of these |
| `ThreadPoolSafety.CountedStep` | thread_pool/thread_pool.cpp:98-158 | every step keeps the counters |
| `ThreadPoolSafety.TicketedStep` | thread_pool/thread_pool.cpp:138-155 | every step keeps the bookkeeping of tasks |
| `ThreadPoolSafety.LockedStep` | thread_pool/thread_pool.cpp:105-149 | the mutex is held by exactly the worker inside it, and a worker about to park left the queue empty |
| `ThreadPoolSafety.WorkerMoves` | thread_pool/thread_pool.cpp:98-158 | what any worker step may change and what it leaves alone |
| `ThreadPoolSafety.SubmitMeans` | thread_pool/thread_pool.h:83-110 | when a task is accepted; it joins the queue at the end, exactly one parked worker is woken if there is one, and a worker joins exactly if the pool is cached, not full and has more tasks than idle workers |
| `ThreadPoolSafety.TakeMeans` | thread_pool/thread_pool.cpp:138-148 | when a task is taken; the front one goes to the worker, and all parked workers are woken exactly if tasks remain |
| `ThreadPoolSafety.ClosingMeans` | thread_pool/thread_pool.cpp:44-50 | the steps of the destructor: all parked workers are woken, and it is through exactly when every worker is gone |
| `ThreadPoolWork.ConservedStep` | thread_pool/thread_pool.cpp:101-149 | work conservation survives a step if and only if the step is not a late timeout of the only awake worker |
| `ThreadPoolWork.AwakeUntilTake` | thread_pool/thread_pool.cpp:105-149 | while there is a task an awake worker stays awake until it takes one |
| `ThreadPoolRuns.WorkIsConservedIff` | thread_pool/thread_pool.cpp:101-149 | over every run: no state has a task beside sleepers only if and only if no event is a late timeout of the only awake worker |
| `ThreadPoolWork.AttendedStep` | thread_pool/thread_pool.cpp:115-149 | a step leaves a task of a running pool to nobody if and only if the last worker up retires past the queue, or a task is accepted without a worker and without leave to start one |
| `ThreadPoolRuns.WorkIsAttendedIff` | thread_pool/thread_pool.cpp:101-149 | over every run: a task of a running pool always finds some worker up if and only if no event is one of those steps |
| `ThreadPoolRuns.WorkIsConserved` | thread_pool/thread_pool.cpp:101-149 | after every run of a fixed pool, and every run without such a late timeout: a task and a sleeper imply a worker on its way to the queue, and a task in a pool with initial workers finds some worker up |
| `ThreadPoolSettings.AttendedIff` | thread_pool/thread_pool.cpp:101-149 | all reachable states have a worker up for every task if and only if the queue admits none, or there are initial workers and none can retire |
| `ThreadPoolSettings.ConservedIff` | thread_pool/thread_pool.cpp:101-149 | all reachable states are free of tasks beside sleepers only if and only if the pool is fixed, admits no task or has at most one worker |
| `ThreadPoolSettings.Fleet` | thread_pool/thread_pool.h:92-110 | a cached pool that admits tasks can come to any number of idle workers from its initial to its maximal one |
| `ThreadPoolSettings.LateTimeoutLosesWakeup` | thread_pool/thread_pool.cpp:117-131 | every cached pool that may grow and admits a task reaches a state with a task and nobody up |
| `ThreadPoolSettings.LateTimeoutLosesNotice` | thread_pool/thread_pool.cpp:117-131 | every cached pool of two or more workers that admits a task reaches one with a task, a sleeper and nobody on the way |
| `ThreadPoolSettings.TaskStranded` | thread_pool/thread_pool.cpp:115-131 | every cached pool without initial workers that may have one and admits tasks reaches a state with a task and no worker left |
| `ThreadPoolSettings.NobodyToTakeIt` | thread_pool/thread_pool.h:78-110 | a pool without initial workers that may not start one, and admits tasks, accepts one all the same |
| `ThreadPoolShutdown.NoSleepStep` | thread_pool/thread_pool.cpp:44-50 | after notify_all no worker is parked or about to park, although is_running_ is cleared outside the mutex |
| `ThreadPoolShutdown.WorkShrinks` | thread_pool/thread_pool.cpp:104-157 | after notify_all every worker step strictly decreases a measure over queued tasks and workers |
| `ThreadPoolShutdown.DrainBound` | thread_pool/thread_pool.cpp:44-50 | so the worker steps of any such run are bounded by the measure at its start |
| `ThreadPoolShutdown.SomeoneCanStep` | thread_pool/thread_pool.cpp:104-157 | as long as a worker lives after notify_all, one can step |
| `ThreadPoolShutdown.EmptyMeansDone` | thread_pool/thread_pool.cpp:106-112 | with at least one initial worker, threads_ is empty only when every accepted task is done |
| `ThreadPoolShutdown.HeardStep` | thread_pool/thread_pool.cpp:108-131 | the destructor never waits with threads_ empty, except after exactly one kind of step: the last worker retires |
| `ThreadPoolSettings.SteadyPoolDrains` | thread_pool/thread_pool.cpp:44-50 | shutdown of a pool with initial workers that is fixed or cannot grow: nobody sleeps, threads_ empties only with all tasks done, the destructor is told, and a state nobody can leave is one where it has returned |
| `ThreadPoolSettings.SteadyPoolCloses` | thread_pool/thread_pool.cpp:44-50 | from any such reachable state the threads can bring the destructor to its end with all tasks done |
| `ThreadPoolSettings.CachedShutdownUnheard` | thread_pool/thread_pool.cpp:122-131 | every cached pool that may grow and admits a task reaches a state in which the destructor waits and no thread is left to signal it |
| `ThreadPoolSettings.HeardIff` | thread_pool/thread_pool.cpp:44-50 | all reachable states are free of that if and only if the pool is fixed, cannot grow or admits no task |
| `ThreadPoolSettings.NoWorkersDropTasks` | thread_pool/thread_pool.cpp:44-50 | every pool without initial workers that admits a task can be destroyed with one undone |
| `ThreadPoolSettings.ClosesDoneIff` | thread_pool/thread_pool.cpp:44-50 | a destructor that returns has every accepted task done, in all reachable states, if and only if there are initial workers or no task is admitted |
| `ThreadPoolSteps.Configured` | thread_pool/thread_pool.cpp:81 | Start never begins with more workers than the maximum |
| `ThreadPoolSafety.TotalNotified` | thread_pool/thread_pool.cpp:145 | notify_all changes no count that does not tell sleeping from woken workers |
| `ThreadPool.Pool.constructor` | thread_pool/thread_pool.cpp:34-42 | the defaults, and a pool that does not run |
| `ThreadPool.Pool.Start` | thread_pool/thread_pool.cpp:79-95 | reaches the machine's first state: min(asked, maximum) workers, all idle, with consecutive ids; faults exactly when ids do not start at 0 and a worker is asked for |
| `ThreadPool.SecondPool` | thread_pool/thread_pool.cpp:15-18 | the fault happens: in one process the first pool starts and the second faults |
| `ThreadPool.Pool.SubmitTask` | thread_pool/thread_pool.h:62-113 | accepted exactly while running and below the queue's limit; a thread starts and all its counters grow exactly if the pool is cached, not full and then has more tasks than idle workers; the machine's Submit or Refuse step |
| `ThreadPool.Pool.LookForTask` | thread_pool/thread_pool.cpp:106-148 | takes the front task, ends the thread, or is about to wait, with the fields each of them changes; the machine's step |
| `ThreadPool.Pool.AfterWait` | thread_pool/thread_pool.cpp:117-132 | retires exactly after a timeout, a minute idle and with more than the initial workers, and then leaves threads_ and both counters |
| `ThreadPool.Pool.BackToIdle` | thread_pool/thread_pool.cpp:155 | the machine's Rest step |
| `ThreadPool.Pool.ClearRunning` | thread_pool/thread_pool.cpp:45 | the machine's Clear step |
| `ThreadPool.Pool.LookForThreads` | thread_pool/thread_pool.cpp:47-49 | the destructor finishes exactly when threads_ is empty |
| `Buffers.Buffer.constructor` | mymuduo/buffer.h:24-27 | an empty queue behind eight spare bytes |
| `Buffers.Buffer.Retrieve` | mymuduo/buffer.h:46-53 | drops a prefix of the queue, or all of it |
| `Buffers.Buffer.RetrieveAll` | mymuduo/buffer.h:42-44 | the queue is empty and both indices are back at 8 |
| `Buffers.Buffer.RetrieveAsString` | mymuduo/buffer.h:60-65 | what is returned followed by what is left is the old queue |
| `Buffers.Buffer.Compact` | mymuduo/buffer.h:90-95 | the overlapping forward copy keeps the queue |
| `Buffers.Buffer.Grow` | mymuduo/buffer.h:98 | resizing keeps the queue |
| `Buffers.Buffer.MakeSpace` | mymuduo/buffer.h:87-100 | makes room and keeps the queue; compacts if that is enough and resizes to exactly what is needed otherwise; stays below max(8 + initial, 2P + 7) |
| `Buffers.Buffer.Append` | mymuduo/buffer.h:73-77 | enqueues; the vector is replaced exactly if free tail and spare front together are too short, and stays below max(8 + initial, 2P + 7), P the most ever readable |
| `Buffers.Buffer.ReadFd` | mymuduo/buffer.cpp:14-42 | enqueues exactly what readv delivered, through both areas, within the same bound; an error changes nothing |
| `Pollers.EpollPoller.UpdateChannel` | mymuduo/Epoll_poller.cpp:74-97 | restores agreement with the kernel table after a mask change, with no failing epoll_ctl |
| `Pollers.EpollPoller.RemoveChannel` | mymuduo/Epoll_poller.cpp:100-110 | forgets exactly one channel and keeps agreement, with no failing epoll_ctl |
| `Pollers.EpollPoller.Update` | mymuduo/Epoll_poller.cpp:113-126 | the kernel's table after a legal or illegal request; a failed removal is logged, a failed addition or change ends the process, and nothing else happens |
| `Pollers.KernelIsExactly` | mymuduo/Epoll_poller.cpp:74-110 | the kernel watches exactly the kAdded channels with their own masks, and channels_ holds exactly those added and not removed |
| `Pollers.Channel.constructor` | mymuduo/channel.cpp:15-16 | a new channel keeps agreement |
| `Pollers.Channel.EnableReading` | mymuduo/channel.h:30-33 | registered with the new mask |
| `Pollers.Channel.EnableWriting` | mymuduo/channel.h:34-37 | registered with the new mask |
| `Pollers.Channel.DisableReading` | mymuduo/channel.h:38-41 | registered with the new mask, or dropped when the mask is empty |
| `Pollers.Channel.DisableWriting` | mymuduo/channel.h:42-45 | registered with the new mask, or dropped when the mask is empty |
| `Pollers.Channel.DisableAll` | mymuduo/channel.h:46-49 | drops a watched channel, and registers one that is not watched |
| `Pollers.DisabledTwice` | mymuduo/channel.h:46-49 | a new channel that is disabled is registered, and only a second time dropped |
| `Pollers.Channel.Remove` | mymuduo/channel.cpp:35-37 | gone from both tables |
| `TcpStreams.StreamOkStep` | mymuduo/tcp_connection.cpp:78-223 | every handler and every outcome of write keeps: bytes on the wire followed by queued bytes are the accepted bytes, and queued bytes ask for EPOLLOUT |
| `TcpStreams.StreamIsConserved` | mymuduo/tcp_connection.cpp:78-223 | the same over every run |
| `TcpStreams.SendConserves` | mymuduo/tcp_connection.cpp:162-223 | SendInLoop loses, repeats and reorders nothing for full, short and failing writes |
| `TcpStreams.SendMeans` | mymuduo/tcp_connection.cpp:162-223 | every field after a send: wire, queue and interest; write-complete exactly if one direct write took everything, high-water exactly if the queue crossed the mark, with the length of the whole queue; no other callback |
| `TcpStreams.HandleWriteMeans` | mymuduo/tcp_connection.cpp:78-108 | every field after HandleWrite: the front of the queue goes out; with its last byte the interest ends, write-complete is called for, and a disconnecting connection half-closes |
| `TcpStreams.HandlersMean` | mymuduo/tcp_connection.cpp:112-260 | every field after establishing, closing, shutting down and destroying; close_callback_ comes after connection_callback_ |
| `TcpStreams.WriteConserves` | mymuduo/tcp_connection.cpp:78-108 | nor does HandleWrite |
| `TcpStreams.NeverFaulty` | mymuduo/tcp_connection.cpp:185-199 | the error flag is never set |
| `TcpStreams.WritesIff` | mymuduo/tcp_connection.cpp:80-98 | HandleWrite writes if and only if writing is the channel's only interest and the kernel takes a byte |
| `TcpStreams.PendingOutputIsStuck` | mymuduo/tcp_connection.cpp:78-108 | once output waits, no run puts another byte on the wire |
| `TcpStreams.HighWaterOnce` | mymuduo/tcp_connection.cpp:207-215 | over every run of a new connection: the high-water callback is called for once if the queue ever reaches a positive mark, and never otherwise |
| `TcpStreams.FirstSend` | mymuduo/tcp_connection.cpp:162-223 | such a state is reached: after the first send of a new connection exactly what the kernel did not take waits, with reading still enabled |
| `TcpStreams.AllOnWireIff` | mymuduo/tcp_connection.cpp:78-223 | over every run of a new connection: all accepted bytes are on the wire if and only if every send on a connection that was not down was empty or taken whole by its own first write |
| `TcpStreams.FirstSendDecides` | mymuduo/tcp_connection.cpp:78-223 | for the first message alone: it gets onto the wire in full if and only if its first write takes all of it; otherwise the rest stays queued for good |
| `TcpStreams.ShutdownNeverWaits` | mymuduo/tcp_connection.cpp:256-260 | in every run ShutdownInLoop closes the sending side at once and HandleWrite does nothing |
| `TcpConnections.TcpConnection.constructor` | mymuduo/tcp_connection.cpp:29-52 | a new connection is the stream model's first state |
| `TcpConnections.TcpConnection.SendInLoop` | mymuduo/tcp_connection.cpp:162-223 | buffer, channel, wire and callbacks change as the stream model says, after removal too; what is left waiting has the channel registered |
| `TcpConnections.SendAfterDestroy` | mymuduo/tcp_connection.cpp:162-246 | a removed channel comes back this way |
| `TcpConnections.TcpConnection.TryWrite` | mymuduo/tcp_connection.cpp:175-199 | the direct write |
| `TcpConnections.TcpConnection.Enqueue` | mymuduo/tcp_connection.cpp:205-222 | the rest is queued, the high-water callback fires exactly on crossing the mark, with the length of the whole queue, and EPOLLOUT is asked for |
| `TcpConnections.TcpConnection.AskForWriting` | mymuduo/tcp_connection.cpp:216-221 | EPOLLOUT is asked for unless it is all the channel asks for |
| `TcpConnections.TcpConnection.HandleWrite` | mymuduo/tcp_connection.cpp:78-108 | as the stream model says, the equality test included |
| `TcpConnections.TcpConnection.HandleClose` | mymuduo/tcp_connection.cpp:112-123 | the connection is down, its mask empty in agreement with the kernel's table, and both callbacks are called in order |
| `TcpConnections.TcpConnection.ConnectEstablished` | mymuduo/tcp_connection.cpp:226-233 | connected, tied, interested in reading, and the connection callback is called |
| `TcpConnections.TcpConnection.ConnectDestroyed` | mymuduo/tcp_connection.cpp:236-246 | gone from both tables of the poller; the connection callback is called exactly if it was connected |
| `TcpConnections.TcpConnection.Shutdown` | mymuduo/tcp_connection.cpp:249-254 | a connected one, and no other, starts to disconnect and asks the loop for ShutdownInLoop |
| `TcpConnections.TcpConnection.ShutdownInLoop` | mymuduo/tcp_connection.cpp:256-260 | closes the sending side unless writing is the only interest |
| `TcpConnections.TcpConnection.PendingIsWatched` | mymuduo/tcp_connection.cpp:205-222 | waiting output on a connection neither down nor removed has EPOLLOUT set in the kernel's table |
| `EventLoopSteps.NoLostWakeup` | mymuduo/event_loop.cpp:78-191 | over every run: from the swap to the return of the next poll the waiting functors are at most the writes unread or still owed, so a loop that can block with functors or quit_ waiting has a writer on its way |
| `EventLoopSteps.InOrderOnce` | mymuduo/event_loop.cpp:151-191 | over every run: executed, then the batch, then pending is exactly the order of queueing |
| `EventLoopSteps.InvStep` | mymuduo/event_loop.cpp:78-191 | every step keeps both |
| `EventLoopSteps.StopsOnlyIfAsked` | mymuduo/event_loop.cpp:96-138 | over every run: quit_ is set exactly if somebody asked for it, and only then does the loop stop |
| `EventLoopSteps.ServedWithin` | mymuduo/event_loop.cpp:96-191 | however threads interleave: after as many steps of the loop thread as functors were in the batch and waiting, and six more, all of them have run in order, if nobody asked the loop to quit, or if it has not stopped |
| `EventLoopSteps.StopsWithin` | mymuduo/event_loop.cpp:96-138 | once quit_ is set the loop thread makes at most six steps and one for each functor in the batch, waiting or queued meanwhile, and can always make one until it has stopped |
| `EventLoopSteps.LoopGoesOn` | mymuduo/event_loop.cpp:96-191 | the loop thread can always make such a step; a poll with nothing to report while a functor waits or the loop is to quit has a writer on its way |
| `EventLoopSteps.WaitingGetsServed` | mymuduo/event_loop.cpp:96-191 | one such continuation, for a loop that polls with functors waiting |
| `EventLoops.EventLoop.QueueInLoop` | mymuduo/event_loop.cpp:151-164 | one push, and one write unless the loop thread queues outside a functor |
| `EventLoops.EventLoop.DoPendingFunctors` | mymuduo/event_loop.cpp:175-191 | runs exactly what was queued, in order; what its functors and other threads queue meanwhile, in any order, waits, with one write each |
| `EventLoops.EventLoop.CallFunctor` | mymuduo/event_loop.cpp:186-188 | one functor runs, and what it and other threads queue meanwhile waits |
| `EventLoops.EventLoop.HandleRead` | mymuduo/event_loop.cpp:87-93 | reading the eventfd clears it |
| `EventLoops.EventLoop.Quit` | mymuduo/event_loop.cpp:132-138 | sets quit_ and wakes the loop from another thread; nothing else changes |

## Left out

- Locking in the SGI pool: every use of its shared state is under `mtx_`, so its operations are single steps.
- Widths: sizes and counters are unbounded, except the conversion of a pointer difference in the nginx pool's fit test, which wraps. Requests near 2^64 overflow `RoundUp` and are not covered.
- Addresses: `malloc` answers at addresses that are multiples of 8 (SGI pool) or 16 (nginx pool), above the null page.
- Misuse: `Deallocate`, `Reallocate` and clients' writes are restricted to blocks the caller holds, with a size of their class.
- Chains in the nginx pool are sequences in link order; the `next` fields of small blocks and list nodes are not stored in memory, only their addresses, and every read of a node's fields is an event of the log.
- Nginx pools whose first `malloc` failed: using them dereferences null. Pool sizes that are not multiples of 16 are covered by PoolIsSafeIff alone; after a request that overruns a block the class promises its effect but no invariant, and the replay theorems leave such requests out.
- Handlers that call back into the nginx pool, and `align == false`, which nothing uses.
- Task results (`std::future`), submitters parked on `not_full_` (a submission is the moment its wait ends), durations (a timeout or a minute's idleness may happen whenever the code waits), and a second thread pool in the process beyond the fault of Start.
- Submissions during destruction. For cached pools that can grow the drain itself is not proved: ClosesDoneIff and HeardIff say what the destructor can rely on.
- Sockets, `readv`, `write`, `epoll_wait` and the eventfd's limit: their answers are parameters or a counter.
- `EventLoop::Loop` as a method: its iterations are the Polling, Handling, Calling, Running and Tail steps of the state machine. Functors queued before Loop starts, and Quit before Loop, are outside the protocol; functors still waiting when the loop stops are never run.
- `Send` from another thread keeps a pointer into the caller's string; the model's data are values.
- Channels of one loop have distinct descriptors. Callbacks are recorded, not run: what they do to the connection, the check that `Tie` prepares, and the connect and destroy races are not modelled.
- `connection_pool`, the acceptor, the server, the loop threads and their round-robin, loggers, timestamps and addresses: plumbing with no property of this kind.
