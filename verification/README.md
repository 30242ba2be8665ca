# Lifecycle proofs for the GTServer network cores

This project models two servers of the repository and proves what their lifecycles keep.

**The completion-port server** (`GTIOCP`, with the thread pool of `GTUtlity`). Worker threads
dequeue completion packets, hand over accepted sockets to connection contexts, post the next
accept or read, and move buffers and sockets between pools; a sweep evicts idle connections;
stopping queues one exit packet per worker and joins them. Buffers, sockets, contexts and
operations are ids that are never reused.

- `BufferPool`, `SocketPool`, `SocketContexts`, `ResourceManagers`, `IocpWrappers`: the classes,
  updating their fields in place, each proved against functions on the value of its fields.
- `Protocol`: the server as a state machine. A step is one completion handler, one sweep or one
  iteration of a posting loop; what the kernel, the clock and the recycling die decide is
  recorded in the step. `Legal` and `Replay` speak of whole runs. The class `IocpWrapper` carries
  the run it has performed, and its invariant says that its fields are what that run leads to;
  so every theorem about runs holds of every state the class can reach.
- `Lifecycle`, `Operations`, `SocketLife`: what every step does and keeps, whatever fails and whatever
  is recycled: contexts, outstanding operations and the waiting flag, sockets.
  `Ownership`, `Exclusivity`, `Exactness`, `Runs`: who holds which buffer and socket, and exactly
  which steps end that; `BufferBooks`: that none is lost. `AcceptSlots`, `Service`, `IdleSweep`: accept slots, outstanding reads,
  evictions. `Misreading`: legal runs in which a packet is taken for something it is not.
- `Shutdown`: start and stop of the workers, interleaved at the level of single flag tests,
  dequeues and joins, with packets in a FIFO queue. Whether a dequeued packet is taken for an exit
  packet is left open there; `Runs.ExitsRecognised` says when it is.

**The select server** (`GTSelect`).

- `SelectBuffers`: the receive buffers.
- `WatchSet`: what a round of the service loop does to the watched sockets, on plain sequences,
  and the closed form of whole runs. `SelectCores`: the array regrown by hand, the vector and the
  closed set, updated in place and proved against `WatchSet`.

Points on which the model had to take a side:

- The code reads a packet's kind from the buffer, not from the packet
  (src/cpp/GTServer/GTIOCP/GT_IOCPWrapper.cpp:401), and so does the model. That the kind found is
  the kind posted is a theorem where ownership is exclusive (`ReadAsPosted`), and so over tame runs,
  those in which no buffer is recycled that a connection caches or the kernel still uses. It fails
  beyond them: `ExitDropped` and `ExitTakenForAccept` are legal runs of a new server in which an
  exit packet is dropped, or handled as an accept.
- So two promises of the code hold under a condition. Accept slots are conserved throughout a run
  if and only if no accept is misread and nothing else is read as one (`ConservedExactly`). A stop
  is sure to join every worker if and only if no exit packet can be misread (`StopIsSureExactly`):
  each one misread can leave one worker waiting for ever (`NeverStranded`, `OneMisreadStrands`).
  Both conditions hold of every tame run. Sockets need no condition: whatever is recycled, each is
  closed once (`EverySocketClosedOnce`).
- A refused read gives its buffer back but leaves it in the context's cache
  (GT_IOCPWrapper.cpp:279-284); a read that fails on completion with bytes does the same (452); an
  eviction gives back the buffer of a read still outstanding. When such a buffer is recycled it can
  get two holders. Ownership is therefore proved exactly: `OwnedExactly` says which steps keep it,
  and `RecyclingShares` shows a new server losing it in two steps.
- The comment in src/cpp/GTServer/GTIOCP/GT_SocketContext.h:92 speaks of two checks; activity between
  them resets the timer but not the check count (lines 55-57), so the two need not be consecutive.
  The model follows the code.
- The recycling branch does not take a buffer out of the in-use map
  (GT_IOContextBuffer_Manager.cpp:115-126); free and in-use buffers are not claimed disjoint.
- The sweep erases through iterators that the release has already erased
  (GT_Resource_Manager.cpp:229-233). The model removes the context once, as intended.
- The select dispatch guard lets the loop look one slot past the ready sockets, possibly past the
  array (GT_Select_Core.cpp:134). The model looks there too and finds an arbitrary value;
  `DispatchOnceExactly` says when this does no harm.
- select is called without a timeout (GT_Select_Core.cpp:122): it fails, leaving the set alone, or
  reports at least one ready socket.
- Obtaining a select buffer from an empty cache needs a positive refill size, and releasing one
  needs it in use; the code dereferences or erases an end iterator otherwise. It deletes nothing
  when the buffer is not in use (GT_Select_Resource_Manager.cpp:46-49), and neither does `Released`.

## Model

| member | source | states |
|---|---|---|
| `BufferPool.GetIsFresh` | src/cpp/GTServer/GTIOCP/GT_IOContextBuffer_Manager.cpp:91-108 | a buffer handed out was free or is new, is in use and no longer free afterwards, and nothing becomes free but refilled buffers |
| `BufferPool.GetRefills` | src/cpp/GTServer/GTIOCP/GT_IOContextBuffer_Manager.cpp:91-108 | below fifty free buffers a whole refill is tried, each success adding one; an unpooled buffer is made only if none is free even then |
| `BufferPool.ReleaseExactly` | src/cpp/GTServer/GTIOCP/GT_IOContextBuffer_Manager.cpp:110-127 | a release on die 10 frees the buffer and leaves it recorded in use, on any other takes it off the record and frees nothing; no other buffer is touched |
| `BufferPool.BufferManager.Allocate` | src/cpp/GTServer/GTIOCP/GT_IOContextBuffer_Manager.cpp:73-84 | of n allocations each one that succeeds adds one new buffer |
| `BufferPool.BufferManager.PreAllocate` | src/cpp/GTServer/GTIOCP/GT_IOContextBuffer_Manager.cpp:59-71 | pre-allocation succeeds exactly when some buffer is free, having added one for each allocation that succeeded |
| `BufferPool.BufferManager.GetNextIOBufferPtr` | src/cpp/GTServer/GTIOCP/GT_IOContextBuffer_Manager.cpp:91-108 | a buffer is always obtained: any free one after the refill the answers amount to, or a new one when none is free |
| `BufferPool.BufferManager.ReleaseIOBuffer` | src/cpp/GTServer/GTIOCP/GT_IOContextBuffer_Manager.cpp:110-127 | the die decides: a released buffer is recycled, staying in the in-use map, or leaves that map |
| `BufferPool.BufferManager.Finalize` | src/cpp/GTServer/GTIOCP/GT_IOContextBuffer_Manager.cpp:129-134 | both containers are emptied |
| `SocketPool.GrowAccounts` | src/cpp/GTServer/GTIOCP/GT_SoketPool_Manager.cpp:57-72 | pre-allocating and refilling keep the pool size equal to free sockets plus pooled ones handed out |
| `SocketPool.TakeAccounts` | src/cpp/GTServer/GTIOCP/GT_SoketPool_Manager.cpp:75-118 | no socket is handed out twice, free and in-use sockets stay disjoint, and the size accounting is kept |
| `SocketPool.TakeRefills` | src/cpp/GTServer/GTIOCP/GT_SoketPool_Manager.cpp:75-118 | below the mark the pool grows by exactly a refill, otherwise not at all, and an unpooled socket is made only if none is free even then |
| `SocketPool.CloseOnceExactly` | src/cpp/GTServer/GTIOCP/GT_SoketPool_Manager.cpp:136-154 | closing keeps every socket closed at most once if and only if the socket is in use |
| `SocketPool.InUseCount` | src/cpp/GTServer/GTIOCP/GT_SoketPool_Manager.cpp:75-154 | sockets in use are those handed out less the closesocket calls |
| `SocketPool.DestroyClosesAll` | src/cpp/GTServer/GTIOCP/GT_SoketPool_Manager.cpp:120-134 | destroying the pool empties it and leaves every socket ever handed out closed exactly once; a second time closes nothing |
| `SocketPool.SocketManager.AllocateUpTo` | src/cpp/GTServer/GTIOCP/GT_SoketPool_Manager.cpp:112-118 | the pool grows to the new size by new sockets |
| `SocketPool.SocketManager.PreAllocate` | src/cpp/GTServer/GTIOCP/GT_SoketPool_Manager.cpp:57-72 | an illegal size allocates nothing and fails, any other size is reached |
| `SocketPool.SocketManager.GetNextUnuseSocket` | src/cpp/GTServer/GTIOCP/GT_SoketPool_Manager.cpp:75-95 | a socket is always obtained: any free one after a refill below the mark, or a new unpooled one |
| `SocketPool.SocketManager.CloseSock` | src/cpp/GTServer/GTIOCP/GT_SoketPool_Manager.cpp:136-154 | the socket is closed and leaves the in-use pool |
| `SocketPool.SocketManager.DestroyPool` | src/cpp/GTServer/GTIOCP/GT_SoketPool_Manager.cpp:120-134 | every socket in use is closed, both pools are emptied |
| `SocketContexts.SocketContext.constructor` | src/cpp/GTServer/GTIOCP/GT_SocketContext.cpp:9-13 | a new context caches no buffer and has check count 1 |
| `SocketContexts.SocketContext.ResetTimer` | src/cpp/GTServer/GTIOCP/GT_SocketContext.h:55-57 | the timer alone changes |
| `SocketContexts.SocketContext.AddIOContext2Cache` | src/cpp/GTServer/GTIOCP/GT_SocketContext.cpp:19-22 | the buffer joins the cache, nothing else changes |
| `SocketContexts.SocketContext.ReleaseUsedIOContext` | src/cpp/GTServer/GTIOCP/GT_SocketContext.cpp:24-32 | the buffer leaves the cache and goes back to the pool, held or not |
| `SocketContexts.SocketContext.HasIOBuffer` | src/cpp/GTServer/GTIOCP/GT_SocketContext.cpp:39-46 | finds a buffer exactly when it is cached |
| `ResourceManagers.ResourceManager.CreateNewSocketContext` | src/cpp/GTServer/GTIOCP/GT_Resource_Manager.cpp:163-173 | a context with a fresh id is registered under it in the map and the address set |
| `ResourceManagers.ResourceManager.GetCompletionKeyPtr` | src/cpp/GTServer/GTIOCP/GT_Resource_Manager.cpp:101-108 | a context is found under a key exactly when one is registered, and the key is its id |
| `ResourceManagers.ResourceManager.ReleaseContext_` | src/cpp/GTServer/GTIOCP/GT_Resource_Manager.cpp:145-161 | every cached buffer is released, the socket closed, and the context removed from map and set; one no longer registered has its socket closed again and the registry is left alone |
| `ResourceManagers.ResourceManager.ResourceCollector` | src/cpp/GTServer/GTIOCP/GT_Resource_Manager.cpp:208-242 | the sweep terminates, visits every registered context once, at the clock readings given, and performs the visits one after another |
| `ResourceManagers.SweepIsExact` | src/cpp/GTServer/GTIOCP/GT_Resource_Manager.cpp:208-242 | though it removes while walking, each context is judged by its state before the sweep: removed if expired at count 2, advanced if expired at count 1, else unchanged |
| `ResourceManagers.SweepKeeps` | src/cpp/GTServer/GTIOCP/GT_Resource_Manager.cpp:208-242 | the contexts left are those before less the ones expired at count 2, in any order of visits |
| `ResourceManagers.ResourceManager.Finalize` | src/cpp/GTServer/GTIOCP/GT_Resource_Manager.cpp:264-296 | the connection check is told to end, map and set are cleared, the socket pool destroyed and the buffer pool emptied |
| `IocpWrappers.IocpWrapper.constructor` | src/cpp/GTServer/GTIOCP/GT_IOCPWrapper.cpp:34-114 | initialization succeeds exactly if the sockets and the port can be set up and some buffer allocated; then the state is a reachable one, its flag down, one slot opened per worker and one lost for each twice refused; otherwise every registry and pool is emptied |
| `IocpWrappers.IocpWrapper.SlotsAndExits` | src/cpp/GTServer/GTIOCP/GT_IOCPWrapper.cpp:318-361 | whatever the server has been through, if its run is tame, pending accepts plus lost slots are the slots opened and every pending exit packet will be recognised |
| `IocpWrappers.IocpWrapper.PostReadRequestEvent_` | src/cpp/GTServer/GTIOCP/GT_IOCPWrapper.cpp:273-285 | an accepted read is pending; a refused one's buffer is released while it stays cached |
| `IocpWrappers.IocpWrapper.PostAnotherReadRequest_` | src/cpp/GTServer/GTIOCP/GT_IOCPWrapper.cpp:287-298 | a new buffer is obtained, marked, cached and offered for reading |
| `IocpWrappers.IocpWrapper.ProcessAcceptEvent_` | src/cpp/GTServer/GTIOCP/GT_IOCPWrapper.cpp:236-271 | the accepted socket gets a registered context and, if bound, a first read |
| `IocpWrappers.IocpWrapper.PostAnotherAcceptEvent_` | src/cpp/GTServer/GTIOCP/GT_IOCPWrapper.cpp:326-361 | a first try and, exactly if it is refused, a second, each as the system answers it; the slot is lost if both are refused |
| `IocpWrappers.IocpWrapper.PrePostAcceptEvent_` | src/cpp/GTServer/GTIOCP/GT_IOCPWrapper.cpp:318-324 | as many accept slots are opened as there are workers; pending accepts plus lost slots grow by that many, and the slots lost are those twice refused |
| `IocpWrappers.IocpWrapper.PostExitEvent_` | src/cpp/GTServer/GTIOCP/GT_IOCPWrapper.cpp:461-474 | as many exit packets become pending as there are workers |
| `IocpWrappers.IocpWrapper.HandlePacket` | src/cpp/GTServer/GTIOCP/GT_IOCPWrapper.cpp:382-459 | the handler performs the protocol's completion step for its packet, with the choices the system's answers amount to |
| `IocpWrappers.IocpWrapper.GetCompletionPortEventStatus` | src/cpp/GTServer/GTIOCP/GT_IOCPWrapper.cpp:376-459 | with the flag down nothing happens; otherwise the run grows by one completion step that follows the system's answers, the flag is lowered exactly by an exit, and pending accepts plus lost slots change only by a misread accept |
| `IocpWrappers.IocpWrapper.CheckConnections` | src/cpp/GTServer/GTIOCP/GT_Resource_Manager.cpp:208-262 | a sweep extends the run by one sweep step, at the clock readings given, unless the check has been told to end |
| `IocpWrappers.IocpWrapper.Finalize` | src/cpp/GTServer/GTIOCP/GT_IOCPWrapper.cpp:225-228 | everything registered and pooled is cleared |
| `Lifecycle.RunKeepsBase` | src/cpp/GTServer/GTIOCP/GT_IOCPWrapper.cpp:255-298 | in every reachable state, failures included: context map and address set agree, each connection has at most one outstanding read, check counts are 1 or 2, pool books balance |
| `Lifecycle.GoneLeavesNoRead` | src/cpp/GTServer/GTIOCP/GT_IOCPWrapper.cpp:446-450 | a zero-byte completion unregisters the connection and leaves no operation under its key |
| `Operations.TakenForExactly` | src/cpp/GTServer/GTIOCP/GT_IOCPWrapper.cpp:389-415 | what a packet is taken for turns on the header of its buffer and the one cache in which a buffer so headed is looked up; otherwise it is dropped |
| `Operations.StepFlag` | src/cpp/GTServer/GTIOCP/GT_IOCPWrapper.cpp:376-421 | only starting the service raises the waiting flag, and only a packet handled as an exit lowers it |
| `Operations.StepCarries` | src/cpp/GTServer/GTIOCP/GT_IOCPWrapper.cpp:389-458 | a step consumes the operation it completes and no other, and posts only operations with ids never used, exits exactly when it queues one |
| `Operations.CompletesOnce` | src/cpp/GTServer/GTIOCP/GT_IOCPWrapper.cpp:382-387 | no operation completes twice in a run |
| `Operations.ExitsBalance` | src/cpp/GTServer/GTIOCP/GT_IOCPWrapper.cpp:461-474 | over every legal run, exit packets pending plus exit packets dequeued are those queued |
| `Exclusivity.RouteIsIntended` | src/cpp/GTServer/GTIOCP/GT_IOCPWrapper.cpp:389-458 | under exclusive ownership every packet takes the branch its operation was posted for, and an evicted connection's read is dropped |
| `Exclusivity.ReadAsPosted` | src/cpp/GTServer/GTIOCP/GT_IOCPWrapper.cpp:401-415 | under exclusive ownership every packet is taken for what it was posted as, except that an evicted connection's read is dropped |
| `Exclusivity.StepKeepsExclusive` | src/cpp/GTServer/GTIOCP/GT_IOCPWrapper.cpp:255-298 | every step keeps buffers and sockets with one holder unless it recycles the buffer of a refused, failed or outstanding read |
| `Exactness.OwnedExactly` | src/cpp/GTServer/GTIOCP/GT_IOCPWrapper.cpp:273-285 | a step keeps every held buffer single-held and recorded in use if and only if no read is refused, none fails with bytes, and no eviction recycles an outstanding read's buffer |
| `Runs.RunKeepsExclusive` | src/cpp/GTServer/GTIOCP/GT_Resource_Manager.cpp:145-161 | over whole runs that recycle no buffer still cached or outstanding (tame runs): pending buffers pairwise distinct and not free, caches disjoint from each other and the free cache, sockets of connections and pending accepts distinct and in use |
| `Runs.OwnedThroughoutExactly` | src/cpp/GTServer/GTIOCP/GT_IOContextBuffer_Manager.cpp:91-127 | a whole run keeps ownership throughout if and only if none of its steps strays |
| `BufferBooks.InUseExactly` | src/cpp/GTServer/GTIOCP/GT_IOContextBuffer_Manager.cpp:91-127 | no buffer is lost: over every run that never strays, the buffers in use and not free are exactly those connections cache, those of pending accepts and exits, and those of exits heard; recycled ones stay in the in-use map |
| `Runs.RecyclingShares` | src/cpp/GTServer/GTIOCP/GT_IOCPWrapper.cpp:279-284 | a two-step run of a new server after which a pending accept uses a buffer a connection caches |
| `Runs.AcceptTransfersSocket` | src/cpp/GTServer/GTIOCP/GT_IOCPWrapper.cpp:422-432 | an accept completion turns its socket into the new connection's, in use, leaving the others as they were |
| `Runs.PacketsRecognised` | src/cpp/GTServer/GTIOCP/GT_IOCPWrapper.cpp:401-421 | over tame runs every packet is taken for what it was posted as, save the read of an evicted connection |
| `Runs.ExitsRecognised` | src/cpp/GTServer/GTIOCP/GT_IOCPWrapper.cpp:418-421 | over tame runs handling an exit packet lowers the flag, and handling any other packet leaves it |
| `SocketLife.RunKeepsSockets` | src/cpp/GTServer/GTIOCP/GT_IOCPWrapper.cpp:326-361 | over every legal run: connections' sockets are in use and pairwise distinct, and no accept's buffer in the listening cache carries a connection's or another's |
| `SocketLife.SocketHandedOver` | src/cpp/GTServer/GTIOCP/GT_IOCPWrapper.cpp:255-264 | whatever a packet was posted as, handled as an accept it turns its buffer's socket, in use and no connection's, into one new connection's |
| `SocketLife.EverySocketClosedOnce` | src/cpp/GTServer/GTIOCP/GT_Resource_Manager.cpp:264-296 | after any legal run, finalizing leaves every socket ever handed out closed exactly once, and finalizing again closes nothing |
| `SocketLife.StepCloses` | src/cpp/GTServer/GTIOCP/GT_Resource_Manager.cpp:145-161 | the sockets a step closes are exactly those of the connections that leave the registry in it |
| `SocketLife.GoneClosesSocket` | src/cpp/GTServer/GTIOCP/GT_IOCPWrapper.cpp:446-450 | a client's zero-byte completion closes the connection's socket, once, and takes it out of use |
| `SocketLife.StepTakes` | src/cpp/GTServer/GTIOCP/GT_IOCPWrapper.cpp:326-361 | every try at an accept and every exit packet takes one new socket from the pool, and nothing else takes one |
| `SocketLife.SocketsInUse` | src/cpp/GTServer/GTIOCP/GT_SoketPool_Manager.cpp:75-154 | over every legal run, in use = handed out − closed, and pool size = free + pooled handed out |
| `AcceptSlots.CompleteSlots` | src/cpp/GTServer/GTIOCP/GT_IOCPWrapper.cpp:422-454 | a completion leaves pending accepts plus lost slots as they were exactly when it takes an accept, and nothing else, for an accept |
| `AcceptSlots.PostAcceptOutcome` | src/cpp/GTServer/GTIOCP/GT_IOCPWrapper.cpp:326-361 | the first try the system accepts is pending, with its own buffer and socket; a second is made exactly if the first is refused; both refused lose one slot |
| `AcceptSlots.LostExactly` | src/cpp/GTServer/GTIOCP/GT_IOCPWrapper.cpp:329-361 | over every legal run the slots lost are the accepts that failed and the re-posts whose two tries were both refused |
| `AcceptSlots.SlotsDrift` | src/cpp/GTServer/GTIOCP/GT_IOCPWrapper.cpp:318-361 | over any legal run, pending accepts plus lost slots are the slots opened plus the packets wrongly taken for accepts less the accepts not taken for one |
| `AcceptSlots.ConservedExactly` | src/cpp/GTServer/GTIOCP/GT_IOCPWrapper.cpp:389-454 | over any legal run, pending accepts plus lost slots equal the slots opened throughout if and only if no accept goes unrecognised and nothing else is taken for one |
| `AcceptSlots.RunKeepsSlots` | src/cpp/GTServer/GTIOCP/GT_IOCPWrapper.cpp:318-361 | over tame runs no packet is misread, so accept slots are conserved |
| `Misreading.ExitDropped` | src/cpp/GTServer/GTIOCP/GT_IOCPWrapper.cpp:401-415 | a seven-step legal run of a new server after which a queued exit packet will be dropped, whatever the dequeue reports |
| `Misreading.ExitTakenForAccept` | src/cpp/GTServer/GTIOCP/GT_IOCPWrapper.cpp:401-432 | an eight-step legal run of a new server in which an exit packet is handled as an accept, and one more accept is pending or lost than slots were opened |
| `Service.ServedExactly` | src/cpp/GTServer/GTIOCP/GT_IOCPWrapper.cpp:255-298 | in any reachable state, a step keeps every connection with one outstanding read and exactly its buffer cached if and only if it does not starve one |
| `Service.StarvesWhenOwned` | src/cpp/GTServer/GTIOCP/GT_IOCPWrapper.cpp:273-298 | under exclusive ownership a step starves a connection exactly when a bind fails, a read is refused, or one fails with bytes |
| `Service.ServedThroughoutExactly` | src/cpp/GTServer/GTIOCP/GT_IOCPWrapper.cpp:433-450 | the same over every legal run, whatever is recycled |
| `IdleSweep.TwoStrikes` | src/cpp/GTServer/GTIOCP/GT_Resource_Manager.cpp:208-242 | a connection removed by a sweep is an accepted socket over the limit, counted from when it was last heard from, in this sweep and found idle in an earlier one |
| `IdleSweep.TimerIsLastHeard` | src/cpp/GTServer/GTIOCP/GT_SocketContext.h:55-57 | over every legal run a connection's timer is the clock reading of its acceptance or its last read, whichever is later |
| `IdleSweep.ActivityKeepsStrike` | src/cpp/GTServer/GTIOCP/GT_SocketContext.h:55-75 | after a read the next sweep removes the connection if and only if it has been idle too long since the read and an earlier sweep had found it idle before the read |
| `Shutdown.ExitsMatchWorkers` | src/cpp/GTServer/GTIOCP/GT_IOCPWrapper.cpp:461-474 | at every moment of every interleaving, exit packets queued, still to post or misread equal the workers that have had none |
| `Shutdown.NeverStranded` | src/cpp/GTServer/GTIOCP/GT_IOCPWrapper.cpp:376-421 | a worker that has had its exit packet never waits again; once all are posted, waiting workers are at most the exit packets queued plus those misread |
| `Shutdown.ReturnsOnlyWhenTold` | src/cpp/GTServer/GTUtlity/GT_Util_ThreadPool.cpp:50-55 | a worker that has returned had been told to end, and is told so exactly when the stop has reached it |
| `Shutdown.FlagExactly` | src/cpp/GTServer/GTIOCP/GT_IOCPWrapper.cpp:377-421 | the flag is up if and only if the service was started and no packet has since been taken for an exit |
| `Shutdown.HandedInOrder` | src/cpp/GTServer/GTIOCP/GT_IOCPWrapper.cpp:376-387 | packets reach the workers in the order queued, each once |
| `Shutdown.OneExitEach` | src/cpp/GTServer/GTIOCP/GT_IOCPWrapper.cpp:461-474 | the main thread posts exactly one exit packet per worker |
| `Shutdown.StopEndsExactly` | src/cpp/GTServer/GTUtlity/GT_Util_ThreadPool.cpp:36-55 | in any fair interleaving, stopping ends if and only if the main thread is not, from some moment on, joining a worker that waits for ever |
| `Shutdown.StopTerminates` | src/cpp/GTServer/GTUtlity/GT_Util_ThreadPool.cpp:36-55 | in every fair interleaving without a misread exit packet, stopping comes to have joined every worker, each having returned |
| `Shutdown.OneMisreadStrands` | src/cpp/GTServer/GTIOCP/GT_IOCPWrapper.cpp:401-415 | for any number of workers there is a fair interleaving with one exit packet misread in which stopping never ends |
| `Shutdown.StopIsSureExactly` | src/cpp/GTServer/GTUtlity/GT_Util_ThreadPool.cpp:36-55 | stopping n workers with at most m exit packets misread is sure to end if and only if m = 0 or n = 0 |
| `SelectBuffers.UseKeepsLedger` | src/cpp/GTServer/GTSelect/GT_Select_Resource_Manager.cpp:34-51 | using a buffer deletes it once, disturbs no other, and keeps every allocated buffer cached, in use or deleted once |
| `SelectBuffers.TakeRefills` | src/cpp/GTServer/GTSelect/GT_Select_Resource_Manager.cpp:34-43 | an empty cache is refilled by exactly the configured number, and one cached buffer becomes one in use |
| `SelectBuffers.AllocateKeepsLedger` | src/cpp/GTServer/GTSelect/GT_Select_Resource_Manager.cpp:23-32 | an allocation adds as many cached buffers as configured and changes nothing else |
| `SelectBuffers.ReleaseKeepsLedger` | src/cpp/GTServer/GTSelect/GT_Select_Resource_Manager.cpp:45-51 | a release deletes a buffer exactly when it is in use, for the first time; releasing it again deletes nothing |
| `SelectBuffers.CleanDeletesAll` | src/cpp/GTServer/GTSelect/GT_Select_Resource_Manager.cpp:53-62 | after cleaning, every buffer ever allocated has been deleted exactly once |
| `SelectBuffers.SelectResourceManager.AllocatCache` | src/cpp/GTServer/GTSelect/GT_Select_Resource_Manager.cpp:23-32 | as many new buffers as configured join the cache |
| `SelectBuffers.SelectResourceManager.GetSelectBuffer` | src/cpp/GTServer/GTSelect/GT_Select_Resource_Manager.cpp:34-43 | any cached buffer moves to the in-use set |
| `SelectBuffers.SelectResourceManager.ReleaseSelectBuffer` | src/cpp/GTServer/GTSelect/GT_Select_Resource_Manager.cpp:45-51 | the buffer is deleted, not cached again |
| `SelectBuffers.SelectResourceManager.CleanCache` | src/cpp/GTServer/GTSelect/GT_Select_Resource_Manager.cpp:53-62 | all cached and in-use buffers are deleted |
| `WatchSet.SurvivorsFit` | src/cpp/GTServer/GTSelect/GT_Select_Core.cpp:276-298 | sockets that stay are at most the watched less the closed, so the refill fits the array |
| `WatchSet.ClosesOnceExactly` | src/cpp/GTServer/GTSelect/GT_Select_Core.cpp:285-294 | a refresh closes each marked socket exactly once if and only if each is watched exactly once |
| `WatchSet.FreshHandlesNoDuplicates` | src/cpp/GTServer/GTSelect/GT_Select_Core.cpp:167-173 | over whole runs, no socket is ever watched twice if and only if accept returns only distinct handles not watched at the time |
| `WatchSet.ClosedOncePerEnding` | src/cpp/GTServer/GTSelect/GT_Select_Core.cpp:285-294 | over whole runs with fresh handles, each refresh closes each marked socket once, and a socket has been closed as often as its read has ended |
| `WatchSet.WatchedOrClosed` | src/cpp/GTServer/GTSelect/GT_Select_Core.cpp:276-298 | over any run, a socket is watched and has been closed as often, together, as it was accepted |
| `WatchSet.DispatchCovers` | src/cpp/GTServer/GTSelect/GT_Select_Core.cpp:132-140 | only ready sockets are processed, and up to FD_SETSIZE ready sockets each at least once |
| `WatchSet.DispatchOnceExactly` | src/cpp/GTServer/GTSelect/GT_Select_Core.cpp:132-140 | each ready socket is processed exactly once if and only if there are FD_SETSIZE of them, or fewer and the slot behind them repeats none |
| `WatchSet.RoundTracks` | src/cpp/GTServer/GTSelect/GT_Select_Core.cpp:180-226 | a round appends the accepted handles in order and marks exactly the sockets whose read ended, never the listening one |
| `WatchSet.WatchedRound` | src/cpp/GTServer/GTSelect/GT_Select_Core.cpp:276-298 | one round turns the surviving sockets of a history into those of the longer history |
| `WatchSet.RunWatches` | src/cpp/GTServer/GTSelect/GT_Select_Core.cpp:107-165 | after any rounds the watched sockets are the listening one and every accepted handle, in order, less those whose read ended since their acceptance |
| `WatchSet.ListenWatched` | src/cpp/GTServer/GTSelect/GT_Select_Core.cpp:228-234 | the listening socket is always watched, first |
| `SelectCores.SelectCore.constructor` | src/cpp/GTServer/GTSelect/GT_Select_Core.cpp:33-96 | initialization arms the read set with the listening socket |
| `SelectCores.SelectCore.GrowSet_` | src/cpp/GTServer/GTSelect/GT_Select_Core.cpp:236-258 | a missing array is allocated, a present one enlarged keeping its sockets |
| `SelectCores.SelectCore.AddListenEvent_` | src/cpp/GTServer/GTSelect/GT_Select_Core.cpp:228-234 | the listening socket joins array and vector, growing a full array |
| `SelectCores.SelectCore.ProcessReadEvent_` | src/cpp/GTServer/GTSelect/GT_Select_Core.cpp:180-213 | the listening socket accepts the handle given; any other socket's event is judged by what recv and the peer say, and no receive buffer stays in use |
| `SelectCores.SelectCore.DispatchReady` | src/cpp/GTServer/GTSelect/GT_Select_Core.cpp:132-140 | the loop as guarded processes the slots of `WatchSet.Slots` that hold ready sockets, in order |
| `SelectCores.SelectCore.RefreshFDSet_` | src/cpp/GTServer/GTSelect/GT_Select_Core.cpp:276-298 | the new array's counted entries are the sockets that stay, in order, written within bounds; the others are closed; with nothing watched the array is left alone |
| `SelectCores.SelectCore.Round` | src/cpp/GTServer/GTSelect/GT_Select_Core.cpp:110-163 | a round is performed exactly if select answers with watched sockets; the array's counted entries are then the watched sockets, these and the sockets closed are those of the whole history, with fresh handles each is watched once and closed once per ending, and no receive buffer is in use |

## Left out

- Winsock and the kernel: only their effect is kept, as choices recorded in the steps and as parameters of the methods, for every answer; a dequeue that fails without a packet is not a step.
- Interleaving inside a completion handler: a handler, or a sweep, is one step (the gap between lookup and release at src/cpp/GTServer/GTIOCP/GT_IOCPWrapper.cpp:406-449 holds no lock); only `Shutdown` is finer.
- IocpWrappers.IocpWrapper.GetCompletionPortEventStatus: flag test, dequeue and handling are one step, so what other threads do between them is not captured; `Shutdown` separates them.
- ResourceManagers.ResourceManager.Finalize: ending the connection check is a flag; waiting for its thread to return is not captured.
- IocpWrappers.IocpWrapper.constructor: initializing again after a failure, with pools that were emptied, is not captured.
- A formal link between the two models: `Shutdown` counts exit packets misread, `Runs` and `Misreading` say when the protocol misreads one.
- The thread pool's vector of thread records: `Shutdown` models the threads as a state machine on values, so update in place and deletion of the records are not captured.
- Starting the service again once stopping has begun.
- The write path of the completion-port server: write buffers are never marked as such nor cached, so their completions reach no branch; the model proves the write branch unreachable.
- Reuse of addresses, shared-pointer counts and memory lifetime: ids stand for addresses and are never reused.
- Socket values: an id stands for the heap cell holding the socket, whether or not the socket call succeeded.
- Delivery of received data to callbacks, the data itself, and peer addresses.
- The write and exception sets of the select server: nothing is ever added to them.
- Waking the select thread through a datagram socket pushed from another thread, and the loop's end.
- The epoll server.
- Reading of configuration, logging, command lines, the test client, module wrappers and the stub libraries.
- Dead code: `CollectUnuseSocket`, `LongTimeWork4CleanClosedSocket_`, `Resource_Collect_Worker_`, the reuse pool.
