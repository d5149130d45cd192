# Copilot proxy: session pool, connection pump and completions

A Dafny 4.11 model of the proxy's concurrent core and of the request path on top of it.
`dafny verify dfyconfig.toml` checks everything.

## What is modelled

**The session pool, twice.** `SessionManager.dfy` is the manager in its own form: a class with a map of
entry objects, an age index and the refill flags, updated in place by one method for each section the
program runs under its mutex. Every method is proved to change the registry exactly as a function in
`Registry.dfy` says. `Pool.dfy` interleaves those same functions: any number of requests, evictions and
shutdowns and the refill goroutine are threads with program counters, and a step is one section under the
mutex, one semaphore operation, or one outcome of the outside world. `PoolInvariant.dfy` holds the
inductive invariant, `PoolSteps`, `PoolMoves`, `PoolRegister`, `PoolRetire`, `PoolRequests` and
`PoolRefill` show step by step that it is kept, and these build on it:

- `PoolTheorems.dfy`: conservation of semaphore units, the warm bound, the single refill goroutine, the age index;
- `PoolLifecycle.dfy`: the life of a session over a whole run, ownership of leases, slots dropped while starting;
- `PoolShutdown.dfy`: what shutdown leaves behind, and that everything comes to rest;
- `PoolProgress.dfy`: which threads can be held up when nobody gives up at a deadline, and that after a shutdown none is;
- `PoolWakeup.dfy`: no request for a refill is lost, and no prompt is sent again before the warm pool is gone;
- `PoolReuse.dfy`: what exactly is lost when the upstream hands out a conversation ID twice;
- `Implementation.dfy`: the class carries out every step of every thread, and so every run of the pool, arrivals
  and all orders of steps included, down to the sessions that are closed;
- `Simulation.dfy`: each operation of the class as a whole, run with no other thread in between, is a run of its
  thread's steps and ends in the same registry, semaphore and closed sessions;
- `RefillLoop.dfy`: the refill goroutine run to its end by itself.

**The request path.** `Requests.dfy` has the retrying start and the two consumers, run on the manager's class.
`StartRetry.dfy` has the attempts at starting an upstream session. `Errors.dfy` has error chains, the error
predicates and the response a failure is answered with.

**The connection.** `Pump.dfy` is the protocol between senders, writer, reader and the close signal as a state
machine. `ReadLoop.dfy` is the read loop as a filter on frames, `Protocol.dfy` the meaning of a frame, and
`Hashcash.dfy` the challenge.

**Completions.** `Completion.dfy` has the collecting and the streaming consumer and shows that they agree;
`Exchange.dfy` joins the read loop to the consumer and says, by the fields of the server's messages, what the
caller gets;
`Sse.dfy` has the event stream and reads it back after section 9.2.6 of the WHATWG HTML standard.

`Ids.dfy`, `Strings.dfy` and `Wrappers.dfy` are shared vocabulary.

## Assumptions

- A conversation ID never has the form `warming:N`. Keys are therefore modelled as two separate kinds;
  `Ids.RenderInjective` shows that under this assumption nothing is lost by it.
- Conversation IDs being fresh is not assumed by the invariant. It is the condition `Distinct(convs)` in those
  theorems that need it; the others hold without it, and `PoolReuse.dfy` accounts for every unit lost otherwise.
- A section under the mutex is atomic. Between sections, any other thread may take any number of steps.
- Starting a session, uploading, sending, and the state of every context are free choices of the outside world.
- The hash of the challenge is any function from strings to byte strings.

## What the proofs found

- An acquire that waits for a unit is not served by a session becoming idle. Until a deadline, an eviction or
  another request comes, everything can stall with the whole pool idle (`PoolProgress.WaiterIsHeldUp` is a run).
  `PoolProgress.HeldUpExactly` says what holds a thread up and `PoolProgress.StalledIsIdle` what is registered then.
- If the upstream repeats a conversation ID that is still registered, one unit of capacity is lost for good:
  `PoolReuse.LostPerCollision` counts them, `PoolReuse.ReuseLosesCapacity` is a run. Whoever held the entry that
  is overwritten loses it; `Requests.StartPromptEvents` says which entries and how many units a request costs
  others, and `Requests.TakesNothing` when it costs them nothing.
- An upstream error whose text says "blocked" in lower case is answered with 502; only other spellings get the
  403 meant for blocked users (`Protocol.ErrorEventStatus`). While connecting, the lower-case spelling is
  retried although blocked users should not be (`Protocol.ConnectErrorRetried`). The comment on `IsBlocked`
  promises more than this; the model follows the code.
- A `send` that reports a closed pump or a cancelled context may have had its message written already
  (`Pump.ErrorDespiteWrite` is a run) or have it written later (`Pump.WrittenAfterCancel` is one).
  `Pump.WrittenAfterAll` says exactly when: never if the queue did not accept it; otherwise as long as the writer is
  there and nobody has closed the connection, be it the pump or the manager closing the session.
- The reader hangs for good when it offers an event to a full channel nobody receives from
  (`Pump.HungForever`). This happens (`Pump.HangHappens`), and it is the only thing that keeps a closed pump, or the
  pump of a session the manager has closed, from ending (`Pump.RestIsClean`, `Pump.HangUpEndsPump`).
- The second attempt of a request is never short of a unit, with no other request in between
  (`Requests.RetryHasUnit`): the first one has given its own back, or more.
- A streamed response does not show whether it ended in an error (`Completion.ErrorLooksLikeStop`).

## Model

| member | source | states |
|---|---|---|
| Ids.RenderInjective | internal/copilot/session_manager.go:114-116 | registry keys of placeholders and conversations never coincide, as long as no conversation ID has the form of a placeholder |
| Ids.NoLeadingZero | internal/copilot/hashcash.go:20-24 | numbers are printed without leading zeros |
| Ids.LastDigit | internal/copilot/hashcash.go:15-18 | decimal numbers are read by place value |
| Registry.Clamp | internal/copilot/session_manager.go:72-81 | at least one session is allowed, the warm target is within it, and sizes already in range are kept |
| RegistryLaws.SortedPairs | internal/copilot/session_manager.go:55-56 | in a sorted age index any two positions are in strict order of reservation, so no key occurs twice |
| RegistryLaws.ReplaceSorted | internal/copilot/session_manager_registry.go:72-80 | replacing a slot's key by its conversation ID keeps the index in order of reservation |
| RegistryLaws.CompactSorted | internal/copilot/session_manager_registry.go:82-90 | rebuilding the index keeps the surviving keys in order of reservation |
| RegistryLaws.WithoutLaws | internal/copilot/session_manager_registry.go:58-90 | deleting keys and compacting removes just those entries and keeps the index exact and ordered |
| RegistryLaws.ReserveOk | internal/copilot/session_manager_acquire.go:51-66 | a reservation keeps entries well formed and the index exact |
| RegistryLaws.ReserveOrdered | internal/copilot/session_manager_acquire.go:55-63 | a new slot is the last in order of reservation |
| RegistryLaws.ActivateOk | internal/copilot/session_manager_acquire.go:68-118 | turning a slot into a leased or idle entry keeps entries well formed and the index exact, even if the conversation ID is already registered |
| RegistryLaws.ActivateOrdered | internal/copilot/session_manager_acquire.go:72-80 | with a new conversation ID it also keeps the index in order |
| RegistryLaws.LeasesOldestIdle | internal/copilot/session_manager_acquire.go:120-145 | leasing fails only if no session is idle, and otherwise takes the idle session reserved first; the entry is leased, no longer pooled and touched, and nothing else in the registry changes |
| RegistryLaws.EvictsExactlyExpired | internal/copilot/session_manager_shutdown.go:66-98 | eviction removes exactly the idle entries that were neither put in place nor used within ttl, frees one unit for each, and leaves the others and their order as they were |
| RegistryLaws.IdleLivesForTtl | internal/copilot/session_manager_shutdown.go:75-86 | a session put in place as idle is spared by evictions until ttl after that moment, or after its last use if that is later, and not a moment longer |
| RegistryLaws.StartingHolds | internal/copilot/session_manager_acquire.go:68-87 | for every conversation ID: the session started becomes a leased entry held in addition, or replaces the one registered under that ID, and everything else that is held stays |
| RegistryLaws.DroppingHolds | internal/copilot/session_manager_shutdown.go:133-164 | dropping the warm pool leaves exactly the entries that are not pooled, which are the leased ones and the slots of acquires; shutdown drops the same |
| RegistryLaws.RemoveUndoesReserve | internal/copilot/session_manager_acquire.go:24-29 | a failed start leaves the registry as before, but for the slot number used up |
| RegistryLaws.ReleaseUndoesAcquire | internal/copilot/session_manager_registry.go:5-31 | releasing a fresh lease restores the registry from before it was acquired, but for the slot number used up |
| SessionManager.CloseSession | internal/copilot/session_manager.go:104-112 | a closed session is disconnected and its connection, if it has one, hung up; closing none is harmless |
| SessionManager.SessionLease.Release | internal/copilot/session_manager.go:44-51 | only the first release of a lease retires its session; a second one, or one after the session is gone, changes nothing |
| SessionManager.Manager.constructor | internal/copilot/session_manager.go:72-93 | a new manager, before its first refill request, is empty, holds no unit and has clamped sizes |
| SessionManager.NewManager | internal/copilot/session_manager.go:68-96 | the manager the program makes is empty and idle but for a running refill, which is there, with a goroutine to be started, exactly if there is a warm target |
| SessionManager.Manager.CompactLocked | internal/copilot/session_manager_registry.go:82-90 | the rebuild loop keeps exactly the index keys that are still registered, in order |
| SessionManager.Manager.ReplaceByAgeLocked | internal/copilot/session_manager_registry.go:72-80 | the loop replaces the first occurrence of a key, or appends the new key if there is none |
| SessionManager.Manager.ReserveWarming | internal/copilot/session_manager_acquire.go:51-66 | the in-place reservation is the registry's, and returns the new slot's number |
| SessionManager.Manager.ActivateLease | internal/copilot/session_manager_acquire.go:68-87 | the slot becomes a leased entry and the lease returned is on that session |
| SessionManager.Manager.ActivateIdle | internal/copilot/session_manager_acquire.go:89-118 | the slot becomes an idle entry, or, if it was dropped or the refill cancelled, the session is closed and the slot's unit given back if it still held one |
| SessionManager.Manager.TryActivateIdleLease | internal/copilot/session_manager_acquire.go:120-145 | the scan leases the first key of the index whose entry is idle and pooled, or finds that there is none |
| SessionManager.Manager.Acquire | internal/copilot/session_manager_acquire.go:8-34 | run alone, acquire leases the oldest idle session without a new unit, or takes one unit for a new session, or keeps nothing |
| SessionManager.Manager.AcquireFresh | internal/copilot/session_manager_acquire.go:36-49 | leases the session just started or nothing, whatever is idle, and asks for no refill |
| SessionManager.Manager.NeedsWarmIdle | internal/copilot/session_manager_refill.go:110-127 | the counting loop, in any map order, tells whether there is a target, room for one more entry, and fewer idle and starting pooled entries than the target |
| SessionManager.Manager.MaybeRefillNow | internal/copilot/session_manager_refill.go:9-24 | when warm sessions are needed, a running refill gets the requested flag and nothing else changes, and otherwise one is started; without need nothing changes |
| SessionManager.Manager.ReserveWarmIdleSlot | internal/copilot/session_manager_refill.go:57-81 | takes a unit and a pooled slot together exactly if a unit is free and a warm session needed, and leaves both alone otherwise |
| SessionManager.Manager.FinishRefillPass | internal/copilot/session_manager_refill.go:83-101 | the pass goes on exactly if more was requested and is still needed; the request is used up, and the running flag cleared unless it goes on |
| SessionManager.Manager.FinishRefillFailure | internal/copilot/session_manager_refill.go:103-108 | both flags are cleared and nothing else changes |
| SessionManager.Manager.Retire | internal/copilot/session_manager_registry.go:5-56 | release and invalidate remove the entry, give back its unit, close its session and ask for a refill; nothing happens for an unknown key |
| SessionManager.Manager.Remove | internal/copilot/session_manager_registry.go:58-70 | a dropped slot gives back its unit if it was still registered |
| SessionManager.Manager.TakeExpiredIdle | internal/copilot/session_manager_shutdown.go:66-98 | the loop that deletes while walking the index takes exactly the expired entries, their units and their sessions |
| SessionManager.Manager.TakeShutdownVictims | internal/copilot/session_manager_shutdown.go:100-131 | for every map order: takes exactly the entries that are neither leased nor an acquire's slot, their units and sessions |
| SessionManager.Manager.TakeIdleVictims | internal/copilot/session_manager_shutdown.go:133-164 | for every map order: takes exactly the idle entries and pooled slots, their units and sessions |
| SessionManager.Manager.EvictExpiredIdle | internal/copilot/session_manager_shutdown.go:8-21 | the keys left are those not in the index or whose entry is not idle or was put in place or used within ttl; the evicted sessions are closed, their units given back, and a refill asked for only if there were any; without a ttl nothing happens |
| SessionManager.Manager.DropIdleSessions | internal/copilot/session_manager_shutdown.go:58-64 | the keys left are those neither idle nor pooled slots; closes every idle session, gives back all units of the warm pool and asks for no refill |
| SessionManager.Manager.Shutdown | internal/copilot/session_manager_shutdown.go:23-42 | cancels the refill, leaves only leased entries and the slots of acquires, closes the sessions taken and reports whether the registry is empty |
| PoolTheorems.NextKeeps | internal/copilot/session_manager_acquire.go:8-118 | every step of every thread keeps the invariant of the pool |
| PoolTheorems.RunKeeps | internal/copilot/session_manager_acquire.go:8-118 | the invariant holds in every state of every interleaving |
| PoolTheorems.Conservation | internal/copilot/session_manager_acquire.go:8-118 | units in use are entries plus units in a thread's hands plus units lost to repeated conversation IDs, never more than maxSessions; with distinct IDs none is lost |
| PoolTheorems.NeverOverReleased | internal/copilot/session_manager_registry.go:26-28 | no thread ever owes the semaphore more than is in use, whatever conversation IDs come |
| PoolTheorems.WarmBound | internal/copilot/session_manager_refill.go:9-127 | idle plus starting pooled sessions stay within the target; the running flag means exactly one live refill goroutine; requested implies running |
| PoolTheorems.IndexAgrees | internal/copilot/session_manager_acquire.go:120-128 | at every unlocked moment the index has exactly the registered keys; with distinct IDs no duplicates and strict order of reservation |
| PoolTheorems.EntryStates | internal/copilot/session_manager.go:14-28 | no entry is seen draining or closed, all hold a unit, and status, key and pooled flag always fit together |
| PoolTheorems.AcquireFindsItsSlot | internal/copilot/session_manager_acquire.go:24-32 | an acquire's slot stays registered until that acquire activates or removes it |
| PoolLifecycle.StepMovesOn | internal/copilot/session_manager_registry.go:5-70 | a step takes a session to a later phase only, and only the thread that took a session out closes it |
| PoolLifecycle.Lifecycle | internal/copilot/session_manager_registry.go:5-70 | over a whole run every session is fetched, then idle at most once, leased at most once by one thread, taken out at most once, closed at most once |
| PoolLifecycle.LeasedIsOpen | internal/copilot/session_manager_acquire.go:120-145 | with distinct IDs a live lease is on a session that is registered, leased and not closed |
| PoolLifecycle.LeasedHasOneHolder | internal/copilot/session_manager.go:30-51 | with distinct IDs every leased entry has exactly one thread with an unreleased lease on it |
| PoolLifecycle.GivesBack | internal/copilot/client.go:125-205 | a thread that has returned, or holds no live lease, has no session registered in its name, on every path |
| PoolLifecycle.RetryIsFresh | internal/copilot/session_manager_acquire.go:36-49 | the second attempt leases the session its own thread has just fetched |
| PoolLifecycle.SlotsNeverReturn | internal/copilot/session_manager_acquire.go:55-57 | no step registers a slot again that has left the registry |
| PoolLifecycle.SlotGoneForGood | internal/copilot/session_manager_acquire.go:55-57 | a slot that left the registry is never registered again in the rest of the run |
| PoolLifecycle.SlotUnitReturnsOnce | internal/copilot/session_manager_acquire.go:92-106 | over a run a slot leaves in exactly one step: either its own thread registers its session, which then holds the unit, and keeps nothing itself, or one thread takes over the unit of each entry it removes and pays exactly those back in the first step in which it moves on |
| PoolLifecycle.LateStep | internal/copilot/session_manager_acquire.go:92-106 | the session of a slot dropped while it was starting is sent away without giving back a second unit |
| PoolLifecycle.LateNeverRegistered | internal/copilot/session_manager_acquire.go:92-106 | such a session is never registered at any later moment of the run: it stays with its thread, which then closes it |
| PoolShutdown.TakeDrains | internal/copilot/session_manager_shutdown.go:100-131 | right after shutdown takes its victims nothing pooled is registered |
| PoolShutdown.DrainedStays | internal/copilot/session_manager_refill.go:57-67 | and no step of any thread makes anything pooled again |
| PoolShutdown.DrainedOnceTaken | internal/copilot/session_manager_shutdown.go:28-34 | in every run, from there on the refill is cancelled and no pooled entry exists |
| PoolShutdown.NilMeansEmpty | internal/copilot/session_manager_shutdown.go:39-42 | when shutdown returns nil no session is registered, every unit in use is on its way back or lost, and with distinct IDs nobody holds a live lease |
| PoolShutdown.StepFalls | internal/copilot/session_manager_shutdown.go:28-50 | after the cancellation every step but an idle poll lowers its thread's rank |
| PoolShutdown.ComesToRest | internal/copilot/session_manager_shutdown.go:28-50 | so without new requests the threads take at most that many steps |
| PoolProgress.HeldUpExactly | internal/copilot/session_manager_acquire.go:14-16 | a thread can go on without giving up at a deadline unless it has finished, waits for a unit while all are in use, or polls a registry that is not empty |
| PoolProgress.StalledIsIdle | internal/copilot/session_manager_acquire.go:8-34 | when nobody can go on without giving up, only idle sessions are registered and all units in use are theirs or lost; with the pool drained nothing is registered |
| PoolProgress.StalledHasFinished | internal/copilot/session_manager_shutdown.go:23-50 | past the taking of its victims a shutdown, with distinct IDs, stalls only when every thread has finished, no unit is in use and every session is closed |
| PoolProgress.ShutdownCompletes | internal/copilot/session_manager_shutdown.go:23-50 | after the cancellation, with no new request and nobody giving up, the threads take a bounded number of steps and then shutdown has returned and nothing is left |
| PoolProgress.WaiterIsHeldUp | internal/copilot/session_manager_acquire.go:108-117 | a run after which an acquire waits while the only session of the pool is idle and nobody can go on without giving up |
| PoolWakeup.AsksForRefill | internal/copilot/session_manager_refill.go:9-24 | as a step: where warm sessions are needed a running goroutine is told and otherwise one is started; without need nothing changes |
| PoolWakeup.EndsPass | internal/copilot/session_manager_refill.go:83-101 | as a step: the goroutine goes round again exactly if it was told to and there is still need, and ends otherwise |
| PoolWakeup.RequestIsHeard | internal/copilot/session_manager_refill.go:83-101 | in every run: a request for a refill made during a pass is followed by another pass if there is still need when the pass ends, whatever other threads do in between |
| PoolWakeup.RetriesAfterDrop | internal/copilot/client.go:194-200 | in every run: a thread in its second attempt has emptied the warm pool after its first and done nothing else since |
| PoolShutdown.RestIsClean | internal/copilot/session_manager_shutdown.go:58-64 | when all threads have finished only idle sessions are registered, the units in use are theirs and the lost ones, and every other session is closed or was overwritten |
| PoolShutdown.ShutdownLeavesNothing | internal/copilot/session_manager_shutdown.go:23-50 | after a shutdown at rest the registry is empty and, with distinct IDs, all units are free and all sessions closed |
| PoolReuse.LosesOneUnit | internal/copilot/session_manager_acquire.go:72-80 | a step takes one more unit out of the accounts of entries and threads exactly if it registers a session under a conversation ID already there |
| PoolReuse.LostPerCollision | internal/copilot/session_manager_acquire.go:72-80 | at any moment of a run as many units are lost as steps have collided |
| PoolReuse.NothingLostIff | internal/copilot/session_manager_acquire.go:72-80 | nothing is lost up to a moment of a run exactly if no step before it has collided |
| PoolReuse.NeverRegained | internal/copilot/session_manager_acquire.go:72-80 | lost units stay in use for the rest of the run |
| PoolReuse.DistinctNeverCollide | internal/copilot/start.go:31-37 | with distinct conversation IDs no step loses a unit |
| PoolReuse.ReuseLosesCapacity | internal/copilot/session_manager_acquire.go:72-80 | a run in which two requests get one conversation ID and one of two units is lost |
| Implementation.Perform | internal/copilot/session_manager_acquire.go:8-145 | for every thread and every step it can take, the class's section leads from a state that represents the pool to one that represents it after the step, closed sessions included |
| Implementation.Execute | internal/copilot/session_manager_acquire.go:8-145 | the class carries out every schedule of moves, steps of any threads and arrivals of new ones, and ends representing the pool after it |
| Implementation.RunIsSchedule | internal/copilot/session_manager_acquire.go:8-145 | every run of the pool is such a schedule |
| Implementation.StartRepresents | internal/copilot/session_manager.go:84-93 | a manager as its constructor leaves it represents the initial pool |
| Implementation.SpawnRepresents | internal/copilot/session_manager_refill.go:20-23 | the arrival of a thread touches nothing the class holds |
| Implementation.StepFrames | internal/copilot/session_manager_registry.go:26-30 | a step of the pool closes its thread's victims and nothing else, and hands out a session only by starting it |
| Simulation.Acquire | internal/copilot/session_manager_acquire.go:8-34 | acquire as a whole ends where the steps of an acquiring thread lead, with a lease on the same session exactly if that thread goes on to its upload |
| Simulation.AcquireFresh | internal/copilot/session_manager_acquire.go:36-49 | the same for the second attempt, whose lease is on the session just started |
| Simulation.Release | internal/copilot/session_manager.go:44-51 | releasing a lease ends where the releasing thread's steps lead, with the unit given back and the session closed |
| Simulation.Invalidate | internal/copilot/session_manager_registry.go:33-56 | invalidating the own conversation ends where the cancelled request's steps lead, with the release still to come |
| Simulation.Remove | internal/copilot/session_manager_registry.go:58-70 | removing the slot of a failed start ends where the failing acquire's steps lead |
| Simulation.MaybeRefillNow | internal/copilot/session_manager_refill.go:9-24 | asking for a refill is one step, and tells to start a goroutine exactly if that step starts one |
| Simulation.FinishRefillFailure | internal/copilot/session_manager_refill.go:103-108 | the refill goroutine ends as its step says |
| Simulation.ActivateIdle | internal/copilot/session_manager_acquire.go:89-118 | both outcomes of activating a refill slot end where the refill goroutine's steps lead, the late session closed |
| Simulation.ReserveWarmIdleSlot | internal/copilot/session_manager_refill.go:57-81 | taking a unit and then a slot, or giving the unit back, ends where the refill goroutine's steps lead |
| Simulation.FinishRefillPass | internal/copilot/session_manager_refill.go:83-101 | the goroutine goes round again or ends exactly as its step says |
| Simulation.EvictExpiredIdle | internal/copilot/session_manager_shutdown.go:8-21 | an eviction ends where the janitor's steps lead, with the same sessions closed |
| Simulation.DropIdleSessions | internal/copilot/session_manager_shutdown.go:58-64 | dropping the idle sessions ends where the retrying request's steps lead, with the same sessions closed |
| Simulation.Shutdown | internal/copilot/session_manager_shutdown.go:23-42 | up to its first poll, shutdown ends where its thread's steps lead, with the same sessions closed, and finds the registry empty exactly if its thread may return |
| RefillLoop.FillsOne | internal/copilot/session_manager_refill.go:35-53 | a round of the refill turns one unit into one more warm session |
| RefillLoop.StopsFull | internal/copilot/session_manager_refill.go:57-68 | when no slot can be reserved the pool is as full as target and free units allow |
| RefillLoop.RunRefill | internal/copilot/session_manager_refill.go:26-55 | run alone with every start succeeding the loop ends, clears its flags and leaves the smaller of the target and the warm sessions plus free units it found |
| Errors.IsMeansInChain | internal/copilot/errors.go:62-90 | `errors.Is` holds exactly if some error of the chain matches |
| Errors.FirstUpstreamIsOutermost | internal/copilot/errors.go:104-130 | `errors.As` finds the outermost upstream error, if there is one |
| Errors.WrappingKeepsClass | internal/openai/handler.go:258-290 | any number of `%w` layers changes only the message of the response, and no error predicate |
| Errors.LayersText | internal/copilot/client.go:172-196 | every `%w` layer puts its prefix in front of the message |
| Errors.RetryableKeepsClass | internal/copilot/start_retry.go:53-62 | marking a start failure as retryable changes only the message, which goes in front |
| Errors.CancelWins | internal/openai/handler.go:260-263 | an error goes unanswered exactly if its chain contains the cancellation |
| Errors.AcquireGivesUp | internal/copilot/session_manager_acquire.go:14-16 | an expired acquire is a 503 with Retry-After under any layers, and a cancelled one is silent |
| Errors.CapacityIsRetried | internal/openai/handler.go:264-276 | a capacity error is a 503 with Retry-After exactly if its cause is neither a cancellation nor a block; the message is its own, that of its cause, or the default |
| Errors.TimeoutYields | internal/openai/handler.go:262-282 | a timeout is a 504 exactly if its cause is neither cancelled, blocked nor out of capacity; the message names the operation |
| Errors.NetDecidesFirst | internal/copilot/errors.go:132-139 | a network error is asked for its own timeout before its cause is, and hides no cancellation, block or lack of capacity it wraps |
| Errors.DeadlineIsTimeout | internal/copilot/errors.go:132-139 | a bare expired deadline is a 504 under any layers |
| Errors.PredicatesByChain | internal/copilot/errors.go:104-143 | the four error predicates say exactly what the chain contains: the cancellation, a block or an outermost upstream error that tells of one, and so on |
| Errors.ResponseByChain | internal/openai/handler.go:258-290 | status, error type, Retry-After and message as a function of what the chain contains, cancellation before block before capacity before timeout |
| StartRetry.StartAnon | internal/copilot/start_retry.go:64-111 | at most three attempts, going on exactly while they fail retryably and the pause is not interrupted; the result is the last outcome or the interruption, never "exhausted retries"; pauses of 100 and 250 ms |
| StartRetry.RetriesByChain | internal/copilot/start_retry.go:87-98 | retrying depends on the context, the chain and the attempt only: a retryable mark, no context error, not blocked; layers do not matter |
| Protocol.ImageMarkdown | internal/copilot/protocol.go:138-143 | empty exactly for blank addresses |
| Protocol.ParsedImagesShow | internal/copilot/protocol.go:171-180 | an image event always has visible text |
| Protocol.ParsesBack | internal/copilot/protocol.go:157-207 | every event is what the message made of it is parsed to, field by field, with spaces around an image address trimmed |
| Strings.TrimmedAround | internal/copilot/protocol.go:172-172 | trimming takes away nothing but spaces at either end |
| Strings.TrimsBlanks | internal/copilot/protocol.go:172-172 | and takes away all of them |
| Strings.ContainsMeans | internal/copilot/errors.go:104-130 | a phrase is contained in a text exactly if the text is something, the phrase and something |
| Strings.FoldsCase | internal/copilot/errors.go:104-130 | lower-casing makes two texts equal exactly if they differ in case only |
| Protocol.ErrorEventStatus | internal/copilot/protocol.go:190-201 | the exact status and message an upstream error event leads to, by its body, or its text, or its error code |
| Protocol.ConnectErrorRetried | internal/copilot/client.go:269-276 | an error met while connecting is retried exactly if it does not count as blocked, which the lower-case word does not |
| ReadLoop.ReadLoop | internal/copilot/conn_pump.go:93-133 | emits the visible frames and then one terminal event, and answers each challenge once with the least nonce |
| ReadLoop.EmittedConcat | internal/copilot/conn_pump.go:94-132 | the loop treats every frame by itself |
| ReadLoop.EmittedPositions | internal/copilot/conn_pump.go:109-131 | the events are exactly the frames that parse to something other than ignorable events and challenges, in order |
| ReadLoop.AlwaysTerminal | internal/copilot/conn_pump.go:96-107 | a terminal event is always among the events |
| Pump.StepKeeps | internal/copilot/conn_pump.go:43-170 | every step keeps the invariant of the pump |
| Pump.RunKeeps | internal/copilot/conn_pump.go:43-170 | the invariant holds in every state of every run |
| Pump.WritesInOrder | internal/copilot/conn_pump.go:144-153 | what was written is a prefix of what was enqueued, and at most one message taken is unwritten |
| Pump.ChannelsBounded | internal/copilot/conn_pump.go:27-41 | at most 16 requests are queued and 128 events buffered, in every state of every run |
| Pump.SendTellsTheTruth | internal/copilot/conn_pump.go:60-91 | success means the message was written; the writer's error means it was not and never will be |
| Pump.AnswerIsNotMissed | internal/copilot/conn_pump.go:77-87 | a send reports a closed pump only if no answer has come, and reports the answer that has |
| Pump.WrittenAfterAll | internal/copilot/conn_pump.go:60-91 | whatever a send has returned, some continuation has its message on the socket exactly if it is there, or it was accepted, the writer is still there and nobody has closed the connection |
| Pump.ErrorDespiteWrite | internal/copilot/conn_pump.go:81-87 | a run in which send reports a closed pump for a message that was written |
| Pump.WrittenAfterCancel | internal/copilot/conn_pump.go:81-90 | a run in which a send was cancelled, its message is not on the socket, and a continuation writes it |
| Pump.AnswersOnce | internal/copilot/conn_pump.go:146-149 | a request is answered once and the writer never blocks on its result |
| Pump.ReadsOn | internal/copilot/conn_pump.go:93-133 | challenges and events never end the read loop: in every continuation only a failing read does |
| Pump.AnswersByItself | internal/copilot/conn_pump.go:119-126 | a challenge is answered by a send of the reader's own, and the reader reads on only when that has returned |
| Pump.EventsConserved | internal/copilot/conn_pump.go:93-133 | in every continuation, events read are received, in the channel or in the reader's hands, none lost or doubled |
| Pump.ClosedFreesSenders | internal/copilot/conn_pump.go:70-90 | once the pump is closed or the writer gone, a pending send can return by itself, with the result if there is one |
| Pump.WriterHasWork | internal/copilot/conn_pump.go:144-149 | while the writer lives it has a step for whoever still waits |
| Pump.AnswerDrawsNearer | internal/copilot/conn_pump.go:144-149 | each step of the writer brings every waiting sender one step closer to its answer, and no other step puts it off |
| Pump.StepFalls | internal/copilot/conn_pump.go:165-170 | after the close every step but new work lowers the rank of the pump |
| Pump.ComesToRest | internal/copilot/conn_pump.go:43-58 | so after the close there are at most as many steps as the rank, and seven for each new send or frame |
| Pump.RestIsClean | internal/copilot/conn_pump.go:43-58 | a closed pump in which nobody can go on, cancelled calls, failing reads of an open connection and a leaving consumer not counted, has all sends returned, the writer gone, the connection closed, and the reader gone exactly if it does not hang |
| Pump.HangUpEndsPump | internal/copilot/session_manager.go:104-112 | once the manager has closed the connection, with no signal to the pump, the pump comes to its end by itself, unless the reader hangs |
| Pump.RestsReading | internal/copilot/conn_pump.go:93-133 | a reader that no read has failed comes to rest only reading an open connection of an open pump, unless it hangs |
| Pump.HungForever | internal/copilot/conn_pump.go:131-131 | a reader at a full channel without a receiver never moves again |
| Pump.HangHappens | internal/copilot/conn_pump.go:131-131 | such a state is reached by a run |
| Hashcash.HasLeadingZeroBits | internal/copilot/hashcash.go:29-43 | holds exactly if the big-endian number is below 2 to the number of bits less n, n clamped to the bits there are |
| Hashcash.LeadingZerosAreBits | internal/copilot/hashcash.go:29-43 | that bound says the same as that the first n bits, byte by byte and the most significant first, are zero |
| Hashcash.Antitone | internal/copilot/hashcash.go:29-43 | more zero bits imply fewer, for every integer n |
| Hashcash.Masked | internal/copilot/hashcash.go:38-41 | the mask test of a byte is a bound on its value |
| Hashcash.Split | internal/copilot/hashcash.go:11-15 | splits at the first colon, if there is one |
| Hashcash.SolveHashcash | internal/copilot/hashcash.go:10-27 | if a solution exists the search ends with the least nonce, and without a colon the answer is empty |
| Hashcash.ChallengeByBits | internal/copilot/hashcash.go:10-27 | a challenge of a prefix and a number d is answered by the first nonce whose hash has d leading zero bits, and by nothing else |
| Hashcash.ReadsDifficulty | internal/copilot/hashcash.go:15-18 | the difficulty is read as a decimal number with an optional sign, and is 1 if it does not fit 64 bits |
| Hashcash.NoNumber | internal/copilot/hashcash.go:16-18 | a difficulty that is no number counts as 1 |
| Hashcash.AnswerIsUnique | internal/copilot/hashcash.go:20-26 | there is only one such answer |
| Hashcash.NoDifficulty | internal/copilot/hashcash.go:23-25 | a difficulty of zero or less is met by the first nonce |
| Completion.Complete | internal/copilot/client.go:132-158 | returns the text up to the first terminal event, the last message ID, and as error that of the first failure event, none after a finish event, and with neither that of the context |
| Completion.Forward | internal/copilot/stream_events.go:31-51 | forwards the events up to and with the first terminal one, or fewer if cancelled |
| Completion.CutEndsThere | internal/copilot/stream_events.go:31-51 | what is forwarded ends right behind the first terminal event, and is everything if there is none |
| Completion.StreamResponse | internal/openai/handler.go:189-256 | on every ending the body is the frames of the role chunk, the content chunks, the stop chunk and the end marker |
| Completion.StreamedIsCollected | internal/copilot/client.go:132-158 | the deltas streamed after forwarding make up the text collected, for every event sequence |
| Completion.CutIsEnough | internal/copilot/stream_events.go:46-49 | forwarding loses nothing the stream would show, and keeps how it ends |
| Completion.CancelledGetsPrefix | internal/copilot/client.go:137-139 | a cancelled consumer has got a prefix of the text |
| Completion.ErrorLooksLikeStop | internal/openai/handler.go:242-252 | the stream is the same for every terminal event, and for none |
| Completion.StopsAtTerminal | internal/copilot/conn_pump.go:95-107 | a consumer of a read loop's events always stops at a terminal event, the server's or the synthesized one |
| Exchange.Exchange | internal/copilot/conn_pump.go:93-133 | for every sequence of frames: the text is that of the appendText frames and the images up to the first done or error frame, the ID that of the last startMessage frame, the error that of the error frame or of the connection, and each challenge frame gets its answer, in order |
| Exchange.StreamsTheReply | internal/copilot/stream_events.go:31-51 | the deltas of the stream make up the same text |
| Completion.StreamGrammar | internal/openai/handler.go:192-253 | one role chunk, content chunks, one stop chunk, all under one ID |
| Completion.ClientReads | internal/openai/sse.go:21-38 | a client that reads the body gets well-formed chunks whose deltas are the collected text, then the end marker |
| Sse.SseWriter.WriteJSON | internal/openai/sse.go:22-29 | appends `data: `, the value and an empty line, or nothing if the value cannot be marshalled |
| Sse.SseWriter.WriteDone | internal/openai/sse.go:32-38 | appends the final value, if any, and the end marker |
| Sse.ReadsBack | internal/openai/sse.go:21-38 | reading the stream recovers exactly the payloads, for all payloads without line ends |
| Sse.CutStreamReadsPrefix | internal/openai/sse.go:21-38 | a stream cut off inside a frame loses that frame only |
| Requests.TakeLease | internal/copilot/session.go:40-74 | for every conversation ID: a lease is on an open session that is registered and leased; it is the only entry held in addition, and without one nothing is; an entry it overwrites is lost to its holder with one unit; only the first attempt takes an idle session |
| Requests.TryOnce | internal/copilot/client.go:167-201 | an attempt succeeds with one lease more, or leaves what was held as it was and its session closed, but for an entry it has overwritten; when it fails, why, and whether it is sent again is exact |
| Requests.StartPromptEvents | internal/copilot/client.go:161-205 | on the manager, for every conversation ID: an error leaves what was held as it was and success adds exactly the lease, but for the entries overwritten, each of which costs a unit; no unit, a failed start, a failed upload and a failed send each give their own error, told apart by what is idle and free; after a retried send no idle session is left and the lease is on the session just started |
| Requests.RequestOutcome | internal/copilot/client.go:161-205 | the error of a request case by case, for both attempts: which of them has a session decides, and a send is tried again unless the context is done or its error says so |
| Requests.RetryHasUnit | internal/copilot/client.go:193-201 | an attempt that is sent again finds a unit |
| Requests.StartErrorShows | internal/copilot/session_manager_acquire.go:26-28 | a failed start is answered with the status of its own error, and its message with a prefix |
| Requests.TakesNothing | internal/copilot/session_manager_acquire.go:68-87 | no unit is lost exactly if no entry is overwritten, and none is when the conversations started are not registered yet |
| Requests.Complete | internal/copilot/client.go:125-159 | on the manager and on every exit: what was held is held again but for the entries overwritten, no unit is kept or lost but theirs, and every session leased is closed; a refused request returns its error, and one that has started what its events say |
| Requests.StreamEvents | internal/copilot/stream_events.go:6-52 | the same for the forwarding request, which closes its channel if it opened one |
| Requests.NoUnitIsRetryAfter | internal/copilot/client.go:172-174 | a request that finds neither an idle session nor a unit before its deadline is answered with 503, Retry-After and a fixed message, and a cancelled one is not answered |
| Requests.ResendByChain | internal/copilot/client.go:207-218 | a send is retried by context, chain and attempt only: the first attempt, without a context error |

## Left out

- HTTP, WebSocket, cookie, proxy, JSON, SHA-256, UUID and clock internals; configuration, models, images and attachments.
- Closing the connection of a pump is one step at any time before or after its close signal, whoever does it.
- The pump is a state machine and not a set of methods, since its goroutines interleave at every channel operation; read deadlines, ping timing and logging are left out, and a ping may fail at any time.
- Challenges without a solution: the read loop would search forever, so `ReadLoop.ReadLoop` and `Hashcash.SolveHashcash` require one to exist.
- Closing a batch of sessions, and starting the refill goroutine together with setting its flag, are one step each in `Pool.dfy`.
- Fairness of the semaphore: a waiting acquire gets a unit or gives up, in any order.
- `LastUsedAt` is a field of the entry in the class, not of the session object, which nothing outside the manager reads.
- The counter of placeholders is unbounded, not 64 bits wide; time is an integer, and the saturation of time differences is not modelled.
- Requests invalidate only the conversation they lease, as all callers do.
- The check for a lease without a session is not repeated: `Requests.TakeLease` shows that there is none.
- SessionManager.Manager.Acquire: does not show other threads' steps between its sections; `Implementation.dfy` has the sections one by one in every interleaving.
- SessionManager.Manager.Shutdown: ends at the first look at the registry; its polling loop is in `Pool.dfy`.
- PoolShutdown.ComesToRest: does not count idle polls of shutdown, which go on while entries are left and its context lives; `PoolProgress.ShutdownCompletes` shows that entries are not left for ever.
- RefillLoop.RunRefill: does not model failing starts or other threads; those are in `Pool.dfy`.
- Requests.StartPromptEvents: does not model other threads between its calls, nor the refill goroutine that a release may ask for; what the holder of an overwritten entry does later is not followed there; the interleaved form is in `PoolLifecycle.dfy`.
- Simulation.Acquire: does not allow other threads in between; neither do the other members of `Simulation.dfy`, unlike those of `Implementation.dfy`.
- Strings are sequences of characters, not bytes, and lower-casing covers the letters A to Z.
- Nil pointers of the error types, and errors outside this program with an `Is` method of their own.
- That the warm target is always restored, that an acquire waiting for a unit is served by a session becoming idle, that acquires are refused after shutdown, and that open sockets are bounded by maxSessions: the code does not promise these.
