# A model of the call bridge, the core shim and call metadata

The extension runs PHP on one reactor thread and the Temporal core on threads of its own. Every
asynchronous operation (connect, rpc, poll, complete, finalize) shares one heap struct,
`temporal_call_t`, between the coroutine that waits for the answer and the core callback that brings
it. The struct has two references, a mutex, a trigger that wakes the coroutine, and a result bundle;
it pins a second refcounted struct, `temporal_php_handle_t`, that owns a core box and is pinned by a
Zend object too. A coroutine may be cancelled, and an object dropped, before, during or after the
delivery. This project models those interleavings as a transition system over any number of
operations, handles and objects, and proves that no run of it touches freed memory, leaks, deadlocks
or returns a wrong answer. It also models the layer below (`temporal_core.c`), which promises the
bridge one delivery per operation, and the flattening of call metadata.

`dafny verify dfyconfig.toml` checks everything.

## Files

- `CStrings.dfy`: byte strings, and what C makes of those with a NUL.
- `Results.dfy`: the result bundle, what the core may answer, who owns what in a bundle, and what
  each PHP method makes of it. `ResultStruct.dfy`: the methods' releases in the order of the C code.
- `CallMachine.dfy`: one operation as two interleaved programs, their invariant, and its preservation.
  `CallTheorems.dfy`: what follows for one operation. `CallStruct.dfy`: `temporal_call_t` as a class
  whose methods update it in place.
- `Bridge.dfy`: the whole process: steps, runs. `BridgeInvariant.dfy`: the global invariant.
  `BridgeSafety.dfy`: memory safety, reference counts, locks. `BridgeTermination.dfy`: progress,
  termination, and that nothing is left. `BridgeRefinement.dfy`: the bridge as a synchronous call.
  `Provenance.dfy`: what a method returns, traced back to what PHP asked for and the core answered.
  `RunTheorems.dfy`: one operation over a whole run. `Adoption.dfy`: where every resource ends up.
  `WorkerLifecycle.dfy`: the `finalized` guard. `Admission.dfy`: who may begin what, and what keeps
  whom alive. `FinalizeGap.dfy`: a run that defeats the guard.
- `HandleStruct.dfy`, `ObjectStruct.dfy`: handles and Zend objects as classes.
- `Shim.dfy`: the contexts of `temporal_core.c`.
- `Metadata.dfy`: the flattening loops and the round trip.

## How the steps follow the code

A step is what one thread does between two points where another thread could notice: take a lock,
the critical section, release it, and each release or free outside a lock on its own. No step
presupposes that a resource is allocated: `AwSafe`, `CbSafe`, `StageSafe` and `Safe` say which
steps are legal, and safety is proved of the steps.

- The awaiter (`CallMachine.AwNext`): `NewFails`, `New` are temporal_client.c:310-329; the handle
  stages before `Pinned`, and `ArmTrigger`, are 335-357; `TokenNew` and `Launch` are 408-442 and
  577-623; `LaunchFails` is a shim call that calls `done` itself and `SyncReturn` its return;
  `Suspend` to `FreeToken` are `temporal_call_collect`, 361-405, with `FreeCall` and the stages
  before it for `temporal_call_free`, 225-232; `Return` is the rest of the method, 690-1110.
- The callback (`CallMachine.CbNext`): `Invoke` is the core's call into the shim, `Copy` and
  `FreeCtx` the shim's part (temporal_core.c:128-148, 247-274, 449-470, 492-502), `CbLock` to
  `CbFreeCall` the `done` callbacks of temporal_client.c:256-305 and 531-573.
- Handles (`Bridge.Advance`, `Bridge.AfterStage`): temporal_client.c:89-107, stage by stage.
- Objects (`Bridge.Next`): constructors and methods, `BeginDestroy` to `EndDestroy` for the free_obj
  handlers of temporal_client.c:127-137 and 155-169, and `AddUser`/`DropUser` for PHP references.

## Assumptions

- The core invokes the callback of each launch exactly once, with the cases of
  temporal_core.h:51-54, 74-78 and 133-138, and buffers that are distinct. A success buffer that is
  not NULL has `data` that is not NULL.
- A parked coroutine resumes only because its trigger fired or because an exception is pending in
  it. Without this, temporal_client.c:402 would hand out an empty outcome.
- A constructor runs once per object, and a method keeps its object alive while it runs.
- The core clones the cancel token (temporal_core.h:96-99), so a token belongs to the reactor alone.
- There is one reactor thread: its code runs without interruption from one suspend to the next, while
  core callbacks interleave with it at every step. An object's destructor, even when it cascades from
  another, is a stretch of reactor code of its own.
- The core itself makes progress: a launched operation can always be answered.

## Where the code does less than it says

- temporal_client.c:1095-1098 says a worker is marked spent the moment finalize is launched, so that
  every later operation is refused. The mark is written only when the coroutine is back from the
  suspend. `FinalizeGap.SpentWorkerIsStillUsed` is a run in which the core has taken the worker and
  a heartbeat still reaches the box; `WorkerLifecycle.GuardIsShutExactly` says exactly when the
  guard is shut: when a finalizeShutdown has returned; `WorkerLifecycle.GapIsWhileFinalizing` that a
  spent worker is used exactly while they are all running. The guard is shut even if that call was unwound
  before the core was asked to do anything, since temporal_client.c:1099 does not look at the outcome.
- temporal_core.h:51-52 promises the connect callback exactly one of `connection` and `fail`. When
  the message cannot be copied it gets neither (`Results.ConnectGivesExactlyOne`, an equivalence,
  and `Results.ConnectMayGiveNeither`).
- A failure of a poll or a completion is lost when its message cannot be copied
  (`Results.FailureIsReported`, an equivalence, and `Results.FailureCanBeLost`).
- The core's failure message has a length, but the callbacks throw it away (temporal_client.c:282, 535
  and 559) and the methods print the message with `%s` (698, 778, 790, 941), so PHP gets it up to its
  first NUL (`Results.MessageArrives`, an equivalence, and `Results.MessageCanBeCut`).
- docs/DESIGN.md:153-159 has a cancelled call's callback still pull the trigger, and the token freed
  after the callback has run. The code sets the trigger to NULL and frees the token in
  `temporal_call_collect`, without waiting. The model follows the code; when the callback still
  pulls the trigger is `CallTheorems.TriggerAfterCancel`.
- temporal_client.c:444-445 says a newline in a value would make the entry parse as a different
  pair. Read up to the first newline, as here, it would not: only one in the key does
  (`Metadata.PairRoundTrip`, an equivalence). The code refuses both; a table whose count is zero is
  not checked at all (`Metadata.Flatten`).

## Model

| member | source | states |
|---|---|---|
| Results.ConsumeConserves | temporal_client.c:695-713 | for every bundle whatever: the releases of the method that collected it settle every resource if and only if the bundle has a shape the method expects |
| Results.ConsumeIsLegal | temporal_client.c:770-804 | a method frees and reads only resources that came with the bundle |
| Results.ContractGivesTidy | temporal_core.h:51-78 | a core that keeps its contract leads only to such bundles, whether or not the copies find memory |
| Results.CopyCompletesPayload | temporal_core.c:247-274 | what the bundle names after the copies is the core's connection and reply, and those messages that could be copied |
| Results.ConnectGivesExactlyOne | temporal_core.c:128-148 | exactly one of connection and message reaches the connect callback if and only if there is a connection or memory for the message |
| Results.ConnectMayGiveNeither | temporal_core.c:134-146 | an answer for which it gets neither |
| Results.FailureIsReported | temporal_client.c:937-955 | a failure the core reports becomes an exception if and only if the operation is a connect or rpc, or its message could be copied |
| Results.FailureCanBeLost | temporal_core.c:234-245 | a failed poll that PHP takes for a shutdown, and a failed completion it takes for a success |
| Results.SuccessIsReported | temporal_client.c:695-713 | a success becomes an exception only for want of memory for a connection's handle |
| Results.ReportIsAnswer | temporal_client.c:695-804 | for each kind of operation and from the core's answer alone: exactly when PHP gets each of all outcomes, the reply and details byte for byte, the status, and the message up to its first NUL |
| Results.ReportIsFailure | temporal_core.c:504-517 | likewise when the shim could not set the operation up, with or without memory for its message |
| Results.MessageArrives | temporal_client.c:277-295 | the core's message arrives unchanged if and only if it could be copied and has no NUL |
| Results.MessageCanBeCut | temporal_client.c:695-701 | a failed connect of which PHP hears nothing but an empty message |
| ResultStruct.Resources.DropAll | temporal_client.c:235-245 | temporal_result_drop frees exactly the bundle's resources, each of which is live |
| ResultStruct.Resources.FinishConnect | temporal_client.c:695-713 | the connect constructor prints the message, up to its NUL, before it frees it, and adopts or frees the connection |
| ResultStruct.Resources.FinishRpc | temporal_client.c:770-804 | rpcCall copies the reply before it frees its owner, prints the message up to its NUL, and frees message and details on every path |
| ResultStruct.Resources.FinishPoll | temporal_client.c:936-955 | the polls do the same with task and message |
| ResultStruct.Resources.FinishVoid | temporal_client.c:1005-1013 | completions and finalize print the message up to its NUL, then free it |
| CallMachine.AwKeepsInv | temporal_client.c:310-405 | every step of the awaiter, from temporal_call_new to the return of the method, keeps the operation's invariant |
| CallMachine.CbKeepsInv | temporal_client.c:248-305 | every step of the callback keeps it |
| CallMachine.AwStepIsSafe | temporal_client.c:361-405 | every step the awaiter can take finds what it touches or frees allocated |
| CallMachine.CbStepIsSafe | temporal_client.c:256-305 | every step the callback can take finds what it touches or frees allocated, orphaned results included |
| CallTheorems.WhoFrees | temporal_client.c:256-274 | a callback is last if and only if it finds the trigger NULL; the awaiter is last if and only if it finds the call completed |
| CallTheorems.OnePartyFrees | temporal_client.c:225-274 | once both have let go, exactly one of them was last |
| CallTheorems.TriggerDiscipline | temporal_client.c:248-253 | the trigger fires at most once, while allocated, and never after its disposal |
| CallTheorems.NoLostWake | temporal_client.c:363-371 | a parked awaiter can resume as soon as its call is completed, and only then has the trigger fired |
| CallTheorems.TriggerAfterCancel | docs/DESIGN.md:153-159 | once the awaiter has collected, the trigger has fired if and only if the callback got the lock first, and never fires later |
| CallTheorems.CancelProtocol | temporal_client.c:385-392 | a token is cancelled at most once, only under an exception when the call had not completed, and while allocated |
| CallTheorems.TokenIsFreed | temporal_client.c:385-400 | when collect returns the token is freed, and was cancelled first if the call was interrupted in flight |
| CallTheorems.AwaiterUsesLocals | temporal_client.c:374-396 | after its unlock an awaiter that was not last neither reads nor writes the struct: with any other struct, mutex and callback in its place, even freed ones, it takes the same steps, as legally, to the same effect |
| CallTheorems.CopyHandsOver | temporal_core.c:228-274 | the copy step frees the core's failure buffers, and what is left is exactly what the bundle names |
| CallTheorems.OutcomeIsDelivery | temporal_client.c:382-404 | an exception makes the outcome "cancelled"; without one it is the bundle the callback was given |
| CallTheorems.AwMovesForward | temporal_client.c:361-405 | no awaiter step frees a resource a second time or revives one |
| CallTheorems.SetupMovesForward | temporal_client.c:310-329 | nor do allocation and a failed launch |
| CallTheorems.CbMovesForward | temporal_client.c:248-305 | nor does any callback step |
| CallTheorems.BundleIsSettled | temporal_client.c:235-305 | when both parties are done each resource the callback was given has been freed, or is a connection that a constructor adopted without being unwound |
| CallStruct.Call.New | temporal_client.c:310-329 | a new call has two references and a live trigger; without memory for either there is no call and nothing is kept |
| CallStruct.Call.Begin | temporal_client.c:335-357 | a call that was made has taken one reference on the handle; one that was not has taken none, and the outcome is "cancelled" |
| CallStruct.Call.Free | temporal_client.c:225-232 | freeing a call gives its handle reference back, which frees the box if and only if it was the last |
| CallStruct.Call.DeliverLocked | temporal_client.c:248-253 | one wake, completed, one reference fewer |
| CallStruct.Call.ConnectDone | temporal_client.c:256-274 | the connect callback is the generic deliver-or-orphan transition: it stores and wakes, or drops what it was given, and frees the call if and only if it held the last reference |
| CallStruct.Call.RpcDone | temporal_client.c:277-305 | so is the rpc callback |
| CallStruct.Call.PollDone | temporal_client.c:531-553 | so is the poll callback |
| CallStruct.Call.OpDone | temporal_client.c:556-573 | so is the callback of completions and finalize |
| CallStruct.Call.CollectResult | temporal_client.c:361-405 | collect takes the bundle out, disposes the trigger, cancels the token if and only if interrupted in flight, frees it always, and returns the bundle or drops its resources |
| CallStruct.DoneIsDeliver | temporal_client.c:256-305 | from lock to return and undisturbed, the interleaved callback does what the four methods ensure: the same struct, wake, drops, release of the handle and free of the call |
| CallStruct.CollectIsCollect | temporal_client.c:366-405 | likewise collect, from lock to return: the same struct, disposal, cancel, drop, release, frees and outcome |
| HandleStruct.Handle.constructor | temporal_client.c:76-87 | a new handle has one reference and a live box |
| HandleStruct.Handle.AddRef | temporal_client.c:89-94 | addref goes through the stages of the transition system and adds one reference |
| HandleStruct.Handle.Drop | temporal_client.c:96-107 | release goes through its stages; box and struct are freed if and only if the count was one |
| HandleStruct.AddrefThenRelease | temporal_client.c:89-107 | a release undoes an addref, whichever threads make them |
| HandleStruct.ReleaseFrees | temporal_client.c:96-107 | a release frees if and only if it takes the count from one to zero |
| ObjectStruct.Connection.Adopt | temporal_client.c:706-713 | the core connection goes into a new handle with one reference, or is freed |
| ObjectStruct.Connection.FreeObject | temporal_client.c:127-137 | free_obj gives the object's reference back once and clears the pointer |
| ObjectStruct.Worker.Construct | temporal_client.c:905-925 | a worker that was built holds one reference on its connection object; one that was not holds none, and core worker and message are freed |
| ObjectStruct.Worker.AfterFinalize | temporal_client.c:1092-1109 | the guard shuts however the call went, and the message is printed up to its NUL and freed |
| ObjectStruct.Worker.FreeObject | temporal_client.c:155-169 | free_obj releases the core worker, then the connection, which dies if and only if this was its last reference |
| BridgeInvariant.StepKeepsInv | temporal_client.c:76-623 | every step of every thread keeps the global invariant over calls, handles and objects |
| BridgeSafety.MemorySafety | temporal_client.c:96-107 | in no run does any step read, lock, write or free a call, mutex, trigger, token, context, buffer, handle or box that is not allocated |
| BridgeSafety.AnythingMayHappen | temporal_client.c:310-442 | the runs include a cancellation of any parked coroutine at any moment, and every failed allocation of an operation: call, trigger, token, shim context, handle |
| BridgeSafety.AnyAnswerMayCome | temporal_core.h:51-78 | they include every answer the core may give, and every failed copy of a message |
| BridgeSafety.ConstructMayFail | temporal_client.c:905-923 | and every worker constructor that finds no core worker, or no memory for its handle |
| BridgeSafety.ExactCount | temporal_client.c:89-107 | a handle's refcount is one for its object, while that holds it, plus the number of calls that have taken a reference and are not freed |
| BridgeSafety.OneCloser | temporal_client.c:102-106 | at any time at most one thread is in the phase that frees a handle |
| BridgeSafety.OneCloserEver | temporal_client.c:96-107 | and over a whole run it is always the same one |
| BridgeSafety.CloserIsAlone | temporal_client.c:96-107 | and no other thread is inside that handle then |
| BridgeSafety.BoxOutlivesOperation | temporal_client.c:62-73 | from launch until the callback has dropped its reference the core box is allocated, even if coroutine and object are gone |
| BridgeSafety.WorkerPinsConnection | temporal_client.c:905-925 | while a worker holds a core worker, its connection object is alive and that connection's box is allocated |
| BridgeSafety.OneLockPerThread | temporal_client.c:225-273 | no thread holds two of the call and handle mutexes |
| BridgeSafety.HolderIsEnabled | temporal_client.c:89-107 | whoever holds a mutex can take its next step |
| BridgeSafety.CriticalSections | temporal_client.c:366-400 | a party that holds a call mutex can do nothing but its critical section and the unlock |
| BridgeTermination.FinishingDecreases | temporal_client.c:310-405 | every step that starts nothing new makes the remaining work smaller |
| BridgeTermination.FinishingRunIsBounded | temporal_client.c:225-405 | so such runs are no longer than the work their first state has left |
| BridgeTermination.Progress | temporal_client.c:361-405 | until all is over, some such step can be taken: no deadlock, no coroutine left parked |
| BridgeTermination.QuiescentIsReleased | temporal_client.c:225-245 | when all is over, no call, mutex, trigger, token, context, buffer, message, handle or box is allocated |
| BridgeTermination.EveryRunDrains | temporal_client.c:225-405 | from any reachable state, every maximal run that starts nothing new is bounded, ends everything, and leaves nothing allocated |
| BridgeRefinement.StepRefines | temporal_client.c:248-405 | each step is a step of "called, answered, then returned or unwound", or is invisible there |
| BridgeRefinement.RunRefines | temporal_client.c:248-405 | so is every step of every run |
| Provenance.EveryCallWasAskedFor | temporal_client.c:408-442 | every call of every run is one PHP asked for, of the kind, on the object and with the handle it was asked for |
| Provenance.ReturnsItsOwnAnswer | temporal_client.c:366-404 | a method that is not unwound returns what the shim made of the very answer with which the core called back for it, two earlier steps of the run, or the shim's own message |
| Provenance.PhpIsToldTheAnswer | temporal_client.c:770-804 | so over a whole run PHP is told exactly what the core answered to the operation PHP asked for, or that it could not be set up |
| Provenance.AnswerIsReleased | temporal_core.c:228-274 | over a whole run, everything the core handed a callback and every copy of it is freed in the end, or is a connection in its constructor's handle |
| BridgeRefinement.DeliversOnce | temporal_client.c:248-305 | over a whole run each call is delivered at most once |
| RunTheorems.ProgramOrder | temporal_client.c:335-405 | over a whole run the steps of one awaiter come in program order, each at most once |
| RunTheorems.OnceEach | temporal_client.c:378-400 | over a whole run a token is cancelled at most once, freed at most once, and cancelled only before it is freed; a trigger is disposed at most once |
| RunTheorems.SecondPartyFrees | temporal_client.c:225-405 | over a whole run the party that enters its critical section second is the one that finds itself last, whichever it is |
| RunTheorems.CompletedMeansDelivered | temporal_client.c:366-374 | over a whole run, what collect finds under the lock says which party took it first |
| RunTheorems.RpcAsksForToken | temporal_client.c:434-441 | over a whole run every rpc has asked for a cancel token, once, before it is launched or fails to be, and goes on with what it got |
| RunTheorems.OnlyRpcAsks | temporal_client.c:408-442 | and no other operation asks for one |
| RunTheorems.ExceptionMeansCancelled | temporal_client.c:385 | over a whole run an exception is pending in a coroutine if and only if it was cancelled while parked |
| RunTheorems.CancelledIffInterrupted | temporal_client.c:382-400 | over a whole run the core's token has been cancelled, once, if and only if there was memory for it, the coroutine was cancelled, and the awaiter took the lock before the callback; it is freed in any case |
| RunTheorems.ResumedMeansDelivered | temporal_client.c:382-404 | over a whole run a coroutine that was not cancelled found its call delivered and returns what was delivered; one that was is unwound |
| RunTheorems.FiredBeforeDisposed | temporal_client.c:248-253 | over a whole run a trigger is fired only before it is disposed |
| RunTheorems.WakeIsExact | temporal_client.c:361-371 | with the reactor free, a parked coroutine can resume if and only if its call is completed or an exception is pending |
| RunTheorems.GivenUpForGood | temporal_client.c:225-245 | over a whole run a freed or adopted resource stays so: none is freed twice or used again |
| RunTheorems.StructFreedOnce | temporal_client.c:225-232 | over a whole run a call is freed at most once, by whichever party |
| Adoption.ReturnAdopts | temporal_client.c:706-713 | a return adopts a core connection if and only if it leaves a new handle behind |
| Adoption.AdoptedOnce | temporal_client.c:706-713 | in every run the adopted connections and the handles of connection objects correspond one to one |
| Adoption.Conservation | temporal_client.c:235-405 | in every run, when both parties of an operation are done, every buffer and message is freed, and a connection is freed or in exactly the handle its constructor made |
| WorkerLifecycle.FinalizedForGood | temporal_client.c:1095-1099 | `finalized` is never taken back |
| WorkerLifecycle.NoCoreCallAfterFinalized | temporal_client.c:48-56 | from its write to the end of the run nothing on that worker reaches the core box |
| Admission.AdmittedExactly | temporal_client.c:48-56 | from the history of the run alone: a Connection may connect once and call once it is connected, a Worker may do anything once it is built until a finalizeShutdown on it returns, and nothing else is let in |
| Admission.ConstructedExactly | temporal_client.c:848-855 | a Worker may be constructed once, on a Connection that is connected |
| Admission.KeepsItsConnection | temporal_client.c:919-925 | the connection a worker keeps alive is the one its constructor was given |
| Admission.UsersAreReferences | temporal_client.c:127-169 | PHP's references to an object are the first one, those added, and not those dropped |
| WorkerLifecycle.GuardIsShutExactly | temporal_client.c:1044-1110 | a usable worker refuses an operation, a heartbeat or initiateShutdown if and only if a finalizeShutdown on it has returned |
| WorkerLifecycle.SpentIsReachedOnlyWhileFinalizing | temporal_client.c:1095-1099 | whatever reaches the core through a spent worker does so while a launched finalizeShutdown has not returned |
| WorkerLifecycle.GapIsWhileFinalizing | temporal_client.c:1095-1099 | a spent worker is used again if and only if every finalizeShutdown on it is still running |
| WorkerLifecycle.BoxFreedAfterDestruction | temporal_client.c:155-169 | a box is freed only once the object that holds it is being destroyed or gone |
| WorkerLifecycle.BoxFreedOnce | temporal_client.c:96-107 | over a whole run a box is freed at most once |
| FinalizeGap.SpentWorkerIsStillUsed | temporal_client.c:1095-1099 | a run in which a spent worker still admits a heartbeat and a poll |
| Shim.FailureIsOutOfMemory | temporal_core.c:153-157 | what the shim reports itself is a message and nothing else |
| Shim.World.CopyStr | temporal_core.c:228-245 | the copy is the message and a NUL, made if and only if there is a message and memory; the core's buffer is freed with or without it |
| Shim.World.RpcCall | temporal_core.c:276-332 | if the three checked allocations succeed, one launch with service, timeout and token as given, the request byte for byte, and method and every metadata entry, in order, up to the first NUL; otherwise one `done` and nothing kept |
| Shim.World.OnRpc | temporal_core.c:247-274 | one `done`, context and core messages freed, exactly the copies left that there was memory for, byte for byte, and the bundle is the one the bridge model assumes |
| Shim.World.RpcOnce | temporal_core.c:247-332 | call and callback together: exactly one `done`, the right launch if and only if the three allocations succeed, nothing left behind but the copies |
| Shim.World.StartConnect | temporal_core.c:150-191 | if the context can be allocated, one launch with five options and, if and only if TLS is on, four TLS options, each the caller's up to its first NUL or empty when it was NULL or could not be copied; otherwise one `done` |
| Shim.World.OnConnect | temporal_core.c:128-148 | one `done`; the message is copied only when there is no connection, the core's buffer freed either way |
| Shim.World.ConnectOnce | temporal_core.c:128-191 | a whole connect: exactly one `done`, a launch with the right options if and only if there is memory for the context, nothing left behind but the message |
| Shim.World.StartComplete | temporal_core.c:504-529 | one launch with a copy of the completion, or one `done` with both allocations undone |
| Shim.World.StartPlain | temporal_core.c:472-483 | the same for polls and finalize |
| Shim.World.OnWorker | temporal_core.c:449-502 | one `done`, context and core message freed |
| Shim.World.WorkerOnce | temporal_core.c:449-583 | a whole worker operation: exactly one `done`, with the bundle of its kind, a launch if and only if there is memory, nothing left behind but the message |
| Shim.RpcCtx.CopyMetadata | temporal_core.c:317-329 | the references the core gets spell the entries, in order, each up to its first NUL |
| Metadata.PairRoundTrip | temporal_client.c:454-469 | one pair survives both layers, up to its NULs, if and only if its key has no newline before its first NUL |
| Metadata.MetadataRoundTrip | temporal_core.c:317-328 | what the core reads from an accepted table is, in order, its string-keyed entries with lists expanded, each part cut at its first NUL |
| Metadata.RoundTripIsIdentity | temporal_client.c:476-515 | a pair comes through unchanged if and only if it has no NUL |
| Metadata.PairsFit | temporal_client.c:478-493 | there are never more entries than were counted, although integer keys are counted and skipped |
| Metadata.ArraysAreFull | temporal_client.c:478-499 | the arrays are filled to the end if and only if no integer key has a value |
| Metadata.Append | temporal_client.c:454-469 | appends one entry and advances the index, or appends nothing when the value has a newline; nothing but the entry stays allocated |
| Metadata.FlattenEntries | temporal_client.c:495-513 | the loops stay within the arrays, and stop if and only if some part under a string key has a newline |
| Metadata.Flatten | temporal_client.c:476-527 | fails if and only if the count is positive and the table has such a part; then the heap is as before and both outputs are NULL; otherwise both arrays spell the table, and they and the entries are all that is new on the heap |
| Metadata.WithMetadata | temporal_client.c:745-768 | on the table's own fields: rpcCall sends, slot by slot and item by item in order and nothing else, one "key, newline, value" per value under a string key, which the core reads back as that pair; it throws if and only if there are values and a string key, or a value under one, has a newline; and it leaves the heap as it was |
| Metadata.SendEntries | temporal_client.c:745-768 | the same in terms of the flattened entries |
| Metadata.WireSpellsTable | temporal_client.c:495-513 | the flattened entries of an accepted table are its values, slot by slot and in list order |

## Left out

- The Rust core, gRPC, Tokio, libuv and the TrueAsync scheduler: they are the environment described under Assumptions.
- Argument parsing, class registration, worker options, target URLs, identity, TLS fields and exception texts: single branches with nothing to prove across functions. A missing message is reported as `None`.
- TEMPORAL_ENSURE_COROUTINE: launching the scheduler happens before any call exists.
- PHP value coercion in metadata (`__toString`, references, arrays inside lists): values are byte strings or lists of byte strings.
- The unchecked allocations of temporal_core.c:319-325 are taken to succeed.
- The core runtime, its start and its teardown at module shutdown.
- The two polls, and the two completions, differ only in the core function they call and share one model. Heartbeats and initiateShutdown are synchronous and appear as one step that uses the box.
- Interleavings of the class methods: a class method runs undisturbed, and the transition system, which does interleave, works on values. `CallStruct.DoneIsDeliver` and `CallStruct.CollectIsCollect` connect the two. Aliasing between calls and handles is by index there.
- CallStruct.Call.OpDone: that an orphaned message is freed before the unlock is not in its contract; the transition system has the order (`CallMachine.CbNext`), and the other callbacks drop through a method that requires the mutex to be free.
- Shim.World.RpcCall: the constant `retry = false` is not part of the launch record.
- The strings that `zval_get_string` returns are strings of their own here, which is what it does for a value that is not a string; for a string it adds a reference to that one.
- Memory ordering: a mutex is taken to order what its holders do, and the trigger to wake the right coroutine.
- Fairness: that a step which stays possible is taken in the end is not stated; `BridgeTermination.EveryRunDrains` speaks of runs that cannot be continued.
- Shim.World.StartConnect: an option whose copy fails is passed on unset, as the code does; that connect then reports nothing about it.
