# A coroutine runtime and its I/O protocol, proved

The library runs C++ coroutines over two kernel interfaces. A `task` is a lazily started coroutine;
awaiting it links a continuation and transfers control, finishing transfers it back. Wrappers made by
`detach` and `sync_wait` own themselves. Coroutines wait for sockets through awaitables that first
try without blocking and then submit operations to a backend, epoll or io_uring, whose event loops
call back and resume them. A thread pool starts the coroutines.

The model takes these layers one by one and then puts them on top of each other. The kernel, the
scheduler, other threads and the network are adversaries: they choose every answer, every
interleaving and every moment of `stop`. I/O results, task outcomes and random test data are
parameters. Threads interleave in atomic steps (sequential consistency); a critical section is one
step.

- **Programs and frames.** `Direct` runs user code as it stands: `co_await` is a call. `Program` adds
  the bodies of the wrappers and their evaluation, and `Frames` is the heap of coroutine frames with
  the registry, the pool's queue and the callbacks, shared by any number of threads; a step of the
  runtime that would use a bad handle raises a fault. `co_await` on an empty or finished task object,
  which the code passes on unchecked and C++ leaves undefined, is recorded as a misuse, and the chain
  stands from then on. `Chains`, `Mirror` and `Simulation` show that the heap is always a set of await
  chains; `Invariant`, `ExecStep`, `RootSteps`, `Steps` and `Runs` keep one invariant through every
  step of every thread; `Guarantees`, `Termination`, `Threads`, `NativeStack`, `SuspendedChains` and
  `ShutdownExact` say what follows. `Runtime` is the code of task.h and co_excutor.h, method by
  method. `TaskTrees` is ownership when a coroutine keeps several task objects and hands them on.
- **Backends.** `AsyncIo` is what the runtime relies on. `Epoll` and `Uring` model one instance of
  each backend with their recycled contexts (`Pool`); `EpollProofs`, `EpollService` and
  `UringProofs` prove that they implement it, and when epoll does not; `UringAnswers` follows the
  kernel's numbers through a ring. `EpollCode` and `UringCode` are their code, in place and
  re-entrant; `Rounds` describes one round of either event loop. `Backends` is an instance of either
  kind as the runtime sees it, and `JointSystem` runs coroutines and four of them in one state
  machine. `Deliveries`, `Replies`, `Books` and `Results` follow every reply of an instance to the
  program that asked for it. `KernelMemory` adds the buffers, which live in coroutine frames and whose
  addresses a ring gives to the kernel; `KernelShutdown` says when destroying coroutines is safe, and
  `PendingRead` builds a run in which it is not.
- **Awaitables.** `Kernel` is a socket whose answers are scripted by an adversary. `Awaitables`
  proves the two-phase transfers of async.cc against one blocking loop.
- **Echo.** `Echo` is client, server and network in one state machine, `EchoEnds` says when either end
  leaves and that the exchange can be finished. `EchoRuns` is what server and client come to, as
  functions of the kernel's answers; `EchoPrograms` are the two test programs over the awaitables,
  proved to come to that.
- **Thread pool.** `ThreadPool` interleaves workers, producers and the destructor;
  `ThreadPoolCode` is the pool's code.
- **Descriptors.** `Descriptors` says when a shared descriptor is closed, `DescriptorsCode` that
  reference counts get it right, `OpenOperations` that every operation in flight is on an open one.

Properties that are promised but not kept by the code are stated with the exact condition under which
they hold, and with an input that breaks them:

| not kept in general | condition | input |
|---|---|---|
| under epoll every operation is called back | `EpollService.StepRefines`, `EpollService.OverwriteLoses` | `EpollService.SecondOperationOverwrites` |
| no coroutine is resumed twice | `Guarantees.MisuseIff`, `Guarantees.ProgramMisusesIff` | `Guarantees.TwoAwaitsMisuse` |
| a task object can be moved to any other | `TaskTrees.MoveAssignIff` | `TaskTrees.InnerToOuter` |
| `shutdown` uses no destroyed coroutine | `ShutdownExact.ShutdownIff` | `ShutdownExact.ShutdownTooEarly` |
| ... and frees no buffer in use | `KernelShutdown.HarmlessIff` | `PendingRead.SuspendedReadOutlived` |
| a closed connection reads as zero | `Awaitables.ClosedReportsZeroIff` | `Awaitables.ClosedReportDiffers` |
| `co_read` waits for data | `Awaitables.ReadOnce.CoAwait` | `Echo.SpuriousReadinessLosesConnection` |
| the pool drains every task | `ThreadPool.LostIff` | `ThreadPool.TwoDrainersClash`, `ThreadPool.TwoDrainersUndefined` |
| the pool's destructor returns | `ThreadPool.StopReachesAllIff` | `ThreadPool.DestructorCanHang` |
| a descriptor stays open while it is held | `Descriptors.WrapTidyIff` | `Descriptors.SecondHolderLosesNumber` |

Where code and documentation differ, the model follows the code: the submission queue has 4096
entries (src/excutor_iouring.cc:50; readme.md:31 and readme.md:279 say 2048), and a coroutine resumed
by a callback continues on the event loop's thread (src/async.cc:45), not in the thread pool
(readme.md:12).

## Model

| member | source | states |
|---|---|---|
| Program.EvalMonotone | include/task.h:64-71 | the reference meaning is well defined: once direct recursive evaluation of a program ends or blocks within some recursion depth, every larger depth gives the same outcome, effects and unused I/O results |
| Direct.EvalIsRun | include/task.h:30-71 | the evaluation that the frame machine is compared with is the direct run of the user's own code: `Direct.Run` reads each action off `code(p)`, with no bodies, wrappers or frames in between: a returned value leaves as a value, a thrown exception as an exception, a co_await runs the stored task like a call and hands its outcome to the caller |
| Chains.ExecMeaning | include/task.h:30-56 | one action of the active frame of an await chain puts exactly that action's effect in front of what remains: evaluating the chain before the step is evaluating it after the step, for return, throw, create, await, drop, I/O and detach |
| Chains.ResumeMeaning | include/task.h:127-135 | a callback that resumes the suspended frame with a result consumes exactly the first of the I/O results that evaluation would consume |
| Chains.ExecKeepsShape | include/task.h:30-44 | at most one frame of a chain is active; the frames below it wait in co_await and the one above it, if any, has not started |
| Simulation.ActSimulates | include/task.h:101-135 | every action on the heap of frames (continuation links, task handles, destroyed frames) is the corresponding step of one await chain and touches no other chain's frames |
| Mirror.DestroySuffix | include/task.h:109-111 | destroying one frame destroys it and every frame owned through task objects above it, each exactly once, outermost first, and nothing else |
| TaskTrees.DestroyIsTheTree | include/task.h:109-111 | with any number of task objects in each coroutine: destroying a coroutine that no object owns destroys exactly what it owns, directly or through others, each once and owners first; everything else stays as it was and linear |
| TaskTrees.EmptiedLinear | include/task.h:118-120 | release, and the first half of a move: ownership stays linear and the coroutine is without owner |
| TaskTrees.FilledLinear | include/task.h:98-99 | move construction into another coroutine's object, and a call: an empty object takes over a coroutine without owner, and ownership stays linear |
| TaskTrees.MoveAssignIff | include/task.h:101-107 | move assignment, which destroys the old coroutine before it reads the new handle, uses a destroyed frame exactly if its source or its target lives in a coroutine that the old one owns; otherwise exactly that tree is gone, the handle has moved, every other object of every other coroutine is as it was, and ownership is linear |
| TaskTrees.InnerToOuter | include/task.h:101-107 | the input: an inner task object assigned to the object that owns its coroutine |
| Meaning.ExecExplains | include/task.h:49-71 | through every action the effects shown so far, followed by what is left of the chain, are the direct evaluation of the root's program on the I/O results it was given |
| Termination.Terminates | include/task.h:21-56 | termination on the heap of frames: if the direct run of a root's code ends, then from every reachable world in which a worker holds its task, resumption, actions, operations, callbacks, unregistration and destruction of this root's frames alone finish it, with the same effects in the same order, exactly the results that the direct run uses, and for sync_wait the promise set to its outcome, value or exception |
| Termination.MisusesToo | include/task.h:127-131 | and if the direct run awaits an empty or finished task, the same steps bring the root to that very await, with the effects shown before it |
| Guarantees.FinishedIsDirect | include/co_excutor.h:97-121 | in every run of any number of threads and coroutines, a finished root has done exactly what the direct run of its code does on the I/O results its operations returned; sync_wait's promise got exactly the outcome, the value returned or the exception thrown |
| Guarantees.FinishedOneWay | include/co_excutor.h:97-121 | and every direct run of that code on those results that comes to anything comes to just this |
| Guarantees.Finishes | include/co_excutor.h:97-144 | conversely, whatever the direct run of a program ends with, on any results, some run of detach or sync_wait ends that program in just that way |
| Guarantees.ExceptionReachesSyncWait | include/co_excutor.h:97-121 | the exception path from end to end: a child throws, its parent passes on what co_await rethrows, and sync_wait's promise holds the child's exception |
| Guarantees.DetachMakesRoot | include/co_excutor.h:125-144 | when the code of a running frame calls detach on a coroutine, there is one root more whose whole program is that coroutine, in a wrapper that owns it and is still to be registered; the caller goes on, and no other frame or history changes |
| Guarantees.SuspendedIsDirect | include/task.h:127-135 | in every run, a suspended root has shown exactly the effects that the direct run of its code shows before it needs the result of that very operation |
| NativeStack.TransferIsFlat | include/task.h:30-44 | symmetric transfer keeps a thread's call stack flat: in every run of every await chain, I/O included, one coroutine activation while the chain executes and none while it is suspended or done |
| NativeStack.NestingIsDeep | include/task.h:127-131 | the same run, I/O included, with nested resumption: counted from the frame that the worker or the last callback resumed (or a waiting frame below it that control has returned to), the stack has an activation for every frame from there to the active one |
| NativeStack.DepthsCompared | include/task.h:127-131 | side by side in every run, I/O included: one activation against one more than the number of frames between the resumed one and the active one, on the way down and on the way up |
| Runs.StepKeepsInv | include/task.h:30-44 | every step of every thread (spawn, register, enqueue, take, start, action, submit, refuse at any moment, harvest, callback, discard, unregister, self-destruction, stop, join, and destroy_all at the moments that ShutdownIff finds safe) keeps the invariant that some set of await chains explains the heap, the registry, the queue, the callbacks, the histories and the misused awaits |
| Guarantees.OwnershipLinear | include/task.h:95-120 | in every run, with destroy_all at safe moments, of programs whose direct run awaits no empty or finished task: no handle is used on a frame that is running, finished or destroyed; a released wrapper is owned by nobody but itself, every other frame by the task object of exactly one frame; nothing is destroyed twice |
| Guarantees.NeverFaults | include/task.h:30-44 | whatever the programs do, in every run whose destroy_all calls come at safe moments (ShutdownIff): the resumptions and destructions of the runtime itself (pool, callbacks, final awaiters, task objects, registry) never meet a running, finished or destroyed frame |
| Guarantees.OnlyShutdownFaults | src/co_excutor.cc:12-17 | and in every run at all, with destroy_all at any moment after stop: if the runtime ever uses a bad handle, a destroy_all came before that at a moment that is not safe |
| Guarantees.MisuseIff | include/task.h:127-131 | in every run a root has resumed an empty or finished task through co_await exactly if the direct run of its code on the results it was given is stuck at such an await and the root is not still on its way there |
| Guarantees.ProgramMisusesIff | include/task.h:127-131 | over all runs: some run of a program misuses a task object exactly if the direct run of it does for some results |
| Guarantees.TwoAwaitsMisuse | include/task.h:127-131 | the input: a body that creates a task and awaits it twice |
| Guarantees.FramesConserved | include/task.h:109-111 | every frame ever created is alive or was destroyed, never both and never neither |
| Guarantees.CallbackFindsItsFrame | src/async.cc:88-127 | although a frame counts as suspended before its operation is registered: every submission under way, operation in flight and callback about to run refers to a live frame suspended in it, and no two of them to the same frame |
| Guarantees.OneOperationPerFd | src/async.cc:88-121 | operations outstanding at the same time belong to different roots; so at any moment there is at most one operation on each descriptor exactly if no two roots are using one |
| Guarantees.PromiseAtMostOnce | include/co_excutor.h:98-111 | for every root that ever was: the promise is set at most once, by detach never, by a finished sync_wait exactly once; of a root that finished or was destroyed no frame is left, neither the wrapper nor anything it owned |
| Guarantees.RegistryIsExact | include/co_excutor.h:35-47 | at every reachable state the registry lists, without duplicates, exactly the live detached wrappers that were added and have not passed their unregistration (or been passed over by destroy_all) |
| Threads.ThreadsStep | src/async.cc:38-50 | which thread executes a chain: only the start of its task, by a worker, and a callback, by the event loop, put it on a thread, and it stays there until its frame's operation is registered or the root is gone; a refusal goes on where it is |
| Threads.TasksInOrder | src/thrdpool.cc:17-37 | in every run workers take the tasks of detach and sync_wait in the order in which they were queued |
| ShutdownExact.ShutdownIff | src/co_excutor.cc:12-17 | after stop, by its first caller or a later one: as far as coroutine handles are concerned, destroy_all does no harm in any future exactly if no registered root is starting, queued, taken by a worker, executing, submitting or about to be called back; otherwise some continuation uses a destroyed frame |
| ShutdownExact.ShutdownDestroys | include/co_excutor.h:49-55 | a safe destroy_all destroys a frame exactly if its root is registered and not at its final suspend point: whole chains, nothing else |
| ShutdownExact.ShutdownOnce | include/co_excutor.h:49-55 | a safe shutdown leaves the registry empty, destroys nothing twice, and a second destroy_all, like the one of the registry's destructor, changes nothing at all |
| ShutdownExact.ShutDownTwice | include/co_excutor.h:49-59 | destroy_all is idempotent on every state, safe or not |
| ShutdownExact.ShutdownTooEarly | src/co_excutor.cc:12-17 | the input: a detach whose task has not reached the pool when the loops have been joined; its start then resumes a destroyed frame |
| KernelMemory.MemoryIsAlive | src/excutor_iouring.cc:133-157 | buffers live in coroutine frames: in every run over instances of either backend, with destroy_all at safe moments, neither do_io of an epoll loop nor the kernel behind a ring touches memory of a destroyed frame, and every request the kernel still holds belongs to a live frame that is suspended and that no thread is about to submit or resume |
| KernelShutdown.HarmlessIff | src/excutor_iouring.cc:222-231 | after stop, over instances of either backend and with handles and buffers both in view: destroy_all is harmless in all futures exactly if no thread, task or callback refers to a registered root and the kernel holds no request of one |
| KernelShutdown.EpollHarmlessIff | src/excutor_epoll.cc:170-192 | over epoll the condition about handles is the whole condition, since do_io stands between the test of running_ and the callback |
| PendingRead.SuspendedReadOutlived | src/excutor_iouring.cc:133-157 | the input over uring: any detached coroutine that is merely suspended in its first operation when the loops have been joined; no handle to it is left, yet a continuation of destroy_all touches its freed buffer |
| Runtime.CoroutineRuntime.DestroyFrame | include/task.h:109-111 | the recursive destruction computes the model's cascade and reports whether a handle was bad |
| Runtime.CoroutineRuntime.CallAndStore | include/task.h:98-107 | move assignment destroys the old coroutine before the new handle takes its place |
| Runtime.CoroutineRuntime.DropStored | include/task.h:109-111 | the end of a task object's scope destroys the coroutine it owns and nothing else |
| Runtime.CoroutineRuntime.AwaitSuspend | include/task.h:127-131 | the continuation is linked and the handle is returned whatever it is; exactly when it is null or its coroutine has been started before, the await is recorded as misused |
| Runtime.CoroutineRuntime.FinalSuspend | include/task.h:30-44 | a finished child hands over to its continuation, with its outcome |
| Runtime.CoroutineRuntime.DestroySelf | include/task.h:36-43 | a self-destroying frame is destroyed with what it owns, and the continuation read before that is returned |
| Runtime.CoroutineRuntime.UnregisterSelf | include/task.h:36-38 | unregistration happens before destruction and only for detached wrappers |
| Runtime.CoroutineRuntime.RemoveHandle | include/co_excutor.h:40-47 | the search loop removes the first match by moving the last handle into its place, and changes nothing when there is none |
| Runtime.CoroutineRuntime.DestroyAllHandles | include/co_excutor.h:49-55 | the loop over the handles destroys those not at their final suspend point and clears the list |
| Runtime.CoroutineRuntime.Shutdown | src/co_excutor.cc:12-17 | shutdown, the first or a repeated one, first stops and joins the loops, then destroys the registry, which gives exactly the model's state; doing it again would change nothing |
| Runtime.CoroutineRuntime.DetachTask | include/co_excutor.h:125-144 | detach is spawn, then registration, then the pool task, in this order |
| Runtime.CoroutineRuntime.SyncWaitTask | include/co_excutor.h:97-121 | sync_wait up to the blocking get is spawn, then the pool task, without registration |
| AsyncIo.ServiceKeeps | include/co_excutor.h:78-79 | every step of the async_io service keeps exactly-once: an accepted operation is pending, or was called back once, or was forgotten, and the latter only after stop |
| Pool.PoolKeeps | src/excutor_epoll.cc:80-108 | every step of acquire and release, interleaved with other threads, keeps the free list and the list of all contexts free of duplicates and matched with what exists |
| EpollService.StepRefines | src/excutor_epoll.cc:131-194 | forward simulation: every step of an epoll instance that overwrites no registration is a step of the async_io service, and keeps the partition of contexts |
| EpollService.OverwriteLoses | src/excutor_epoll.cc:149-154 | conversely: registering a descriptor that is already armed is no step of the service; the earlier operation is lost without a callback |
| EpollService.SecondOperationOverwrites | src/excutor_epoll.cc:149-154 | the input: from the start, a receive and then a send on one descriptor reach a state in which the second registration is enabled and removes the pending receive without a callback |
| EpollService.DisciplineKept | src/excutor_epoll.cc:135-161 | one outstanding operation per descriptor is preserved by every step of the instance when callers keep to it, and then no registration is ever overwritten |
| EpollService.RearmFromCallback | src/excutor_epoll.cc:179-192 | when a callback runs, its descriptor has no other operation, although its context is still executing: re-arming from inside the callback keeps the discipline |
| EpollService.EpollExactlyOnce | src/excutor_epoll.cc:131-194 | in every run with one operation per descriptor every accepted operation is pending or was called back exactly once, no registration was ever overwritten, and all contexts are split between free, being filled, armed, reported, executing and failing |
| UringProofs.StepRefines | src/excutor_iouring.cc:63-131 | forward simulation with no condition on the callers: every step of a uring instance, the refusal on a full submission queue included, is a step of the async_io service |
| UringProofs.UringExactlyOnce | src/excutor_iouring.cc:63-131 | in every run every accepted operation is pending or was called back exactly once, and all contexts are split between free, being filled, queued, in the kernel, completed and executing |
| UringAnswers.RepliesAreCompletions | src/excutor_iouring.cc:93-131 | in every run the loop calls back in the order of the completions, each request with exactly the number with which the kernel completed it, however contexts are recycled meanwhile |
| Backends.ShardIsRemainder | src/excutor_epoll.cc:239-241 | the shard of every 32-bit descriptor, negative ones included, is its remainder by four, so one descriptor always meets the same instance |
| Backends.StepRefines | src/excutor_iouring.cc:63-131 | every step of an instance of either backend is a step of the async_io service and keeps what its callers rely on, and says which: the callback of the served request gets the very number that came, a failed registration calls its request back with minus the error, after stop nothing is called; uring asks nothing of the callers, epoll one operation per descriptor |
| JointSystem.Discipline | src/excutor_epoll.cc:237-242 | when a coroutine enters async_io while no two roots use a descriptor, the instance of its descriptor holds no other request on it, neither registered nor on its way in: the runtime supplies the discipline that epoll needs |
| JointSystem.NothingIsLost | src/excutor_epoll.cc:131-194 | coroutines and four instances, each of either backend, in one state machine, with refusals, stop and join at any moment: in every run in which, for epoll instances, no two roots use a descriptor when a coroutine submits, and for uring instances without any premise, no registration is ever overwritten, every accepted operation is pending, was called back once or was freed after stop, and the runtime uses no bad handle |
| JointSystem.PendingIsWaiting | src/async.cc:88-121 | in every such run, while the backend runs, the requests in an instance are exactly those of the coroutines of its shard that are inside async_io or wait for a callback |
| JointSystem.EveryRequestHasItsFrame | src/excutor_epoll.cc:145-190 | in every such run each registration, failure, report and release that an instance is ready for finds the suspended frame it belongs to, so the coupling excludes no behaviour of kernel or loops |
| JointSystem.EverySubmissionProceeds | src/excutor_epoll.cc:131-145 | no thread is kept out of async_io: in every such run a coroutine that submits can acquire a context and enter while the backend runs, under either backend, and otherwise its operation is dropped |
| Results.CallbackCarriesReply | src/excutor_epoll.cc:179-192 | in every joint run, a coroutine about to be called back with a number is suspended in an operation for which the instance of its descriptor has logged just that reply to the coroutine's own request, and one that the kernel may give |
| Results.ResultsAreReplies | src/async.cc:88-127 | in every joint run, the numbers that a root was resumed with are, one by one and in order, the logged replies to its own requests (minus the error where the registration failed), each a reply to the operation that its code, run directly on the results before it, asks for at that point |
| Results.EveryReplyArrives | src/excutor_epoll.cc:145-192 | in every joint run each reply in the log of an instance is about to reach the coroutine that made the request or has reached it, and no request is noted twice |
| Results.EveryRunHasABook | src/excutor_epoll.cc:145-192 | the book in which these lemmas note requests restrains nothing: it can be kept along every joint run |
| Results.FinishedOnReplies | include/co_excutor.h:97-121 | from the kernel to sync_wait: in every joint run a finished coroutine has done what its code does when run directly on the replies that the instances logged to its requests |
| EpollCode.EpollInstance.Acquire | src/excutor_epoll.cc:80-101 | the last free context, or a new one listed among all, overwritten in place with the request |
| EpollCode.EpollInstance.Release | src/excutor_epoll.cc:103-108 | the callback is forgotten and the context goes to the back of the free list |
| EpollCode.EpollInstance.AsyncIo | src/excutor_epoll.cc:131-162 | after stop nothing happens; before, whatever else is pending, exactly the model's steps: a recycled or new context is filled in place and registered, or called back at once with the error; when the descriptor has no other operation this is the service's submission |
| EpollCode.EpollInstance.DeliverAndSubmit | src/excutor_epoll.cc:189-191 | a callback that submits from inside the loop, on any descriptor without a pending operation, successfully or not, disturbs neither the context it runs in nor the events still to come |
| EpollCode.EpollInstance.Discard | src/excutor_epoll.cc:183-187 | after stop an event's context is freed and its callback never runs |
| EpollCode.EpollInstance.Round | src/excutor_epoll.cc:165-194 | one round of the loop serves the reported events in order, with re-entrant submissions on any unused descriptors, registrations that fail and a concurrent stop, exactly as the service does event by event |
| Rounds.RoundCalls | src/excutor_epoll.cc:179-192 | a round calls back once for each event before the stop, in order and with the kernel's answer, once more only for submissions that failed at once, and never after the stop |
| Rounds.RearmingIsOrderly | src/excutor_epoll.cc:179-192 | callbacks that each submit on the descriptor they were called for never meet a pending operation, at any point of a round and with any stop |
| UringCode.UringInstance.Prepare | src/excutor_iouring.cc:161-176 | the last free context, or a new one listed among all, filled with the request |
| UringCode.UringInstance.ReleaseCtx | src/excutor_iouring.cc:178-184 | the callback is forgotten and the context goes to the back of the free list |
| UringCode.UringInstance.AsyncIo | src/excutor_iouring.cc:63-91 | after stop nothing happens; before, the request is pending afterwards, or, exactly when the queue stays full after the forced submit, was called back at once with -ENOMEM |
| UringCode.SubmittingRefines | src/excutor_iouring.cc:74-90 | the queue, the retry and the refusal together are one accept of the service, followed by a callback only when there was no room |
| UringCode.UringInstance.Round | src/excutor_iouring.cc:108-129 | one round handles all completions in order and then gives them back to the ring, with re-entrant submissions and a concurrent stop, exactly as the service does one by one |
| Awaitables.BlockingSound | src/async.cc:61-131 | the blocking reference fills the buffer exactly if it moves the asked number of bytes, only a recv sees the end of the stream, and the answers used are at most the bytes moved, plus the stalls, plus one final error or end |
| Awaitables.Progress | src/async.cc:88-121 | once the kernel has answered as often as there are bytes and stalls, a transfer is over |
| Awaitables.ReadUntil.AwaitReady | src/async.cc:61-86 | the synchronous loop is a prefix of the blocking read: it ends with the blocking read's own result, or hands over with exactly the rest still to do |
| Awaitables.ReadUntil.DoRead | src/async.cc:88-121 | the callbacks perform the rest of the blocking read, one submission per answer, and resume exactly if it ends |
| Awaitables.ReadUntil.CoAwait | src/async.cc:61-131 | for every kernel behaviour and every hand-over point: the buffer holds exactly the consumed part of the stream followed by its old contents, the count is that of a blocking read, the result is its report, submissions are at most the bytes moved plus the stalls plus one; and for a closed connection the documented zero is reported exactly if an operation was submitted to the backend or nothing had been read |
| Awaitables.FullCountIffFilled | src/async.cc:106-111 | the full count is reported exactly if the buffer was filled |
| Awaitables.ClosedReportsZeroIff | include/async.h:57-63 | in terms of the kernel's answers: a transfer that meets the end of the stream reports the documented zero exactly if one of the answers it used had found the connection not ready, or none of them brought a byte |
| Awaitables.StalledIff | src/async.cc:73-104 | a read counts a stall, and so goes to the backend, exactly if one of the answers it used found the connection not ready |
| Awaitables.ClosedReportDiffers | src/async.cc:73-104 | the same closing stream is reported as 3 without a stall and as 0 with one |
| Awaitables.WriteAll.AwaitReady | src/async.cc:165-189 | the synchronous loop is a prefix of the blocking send, a zero answer leaving it for the callbacks and an error ending it |
| Awaitables.WriteAll.DoWrite | src/async.cc:137-163 | the callbacks perform the rest of the blocking send, zero answers and EAGAIN being retried |
| Awaitables.WriteAll.CoAwait | src/async.cc:137-198 | conservation across both phases: the kernel has got what it had before followed by exactly the first `written` bytes, each once and in order, whatever the result; submissions are at most the bytes moved plus the stalls plus one |
| Awaitables.WriteOkIffAll | src/async.cc:151-155 | success is reported exactly if the kernel took the whole buffer |
| Awaitables.ReadOnce.CoAwait | src/async.cc:25-55 | a co_read is decided by the first answer, or by the second if the first was not ready; the buffer starts with exactly the bytes received; unlike co_read_until and co_write it reports EAGAIN to its caller, exactly if both answers were not ready |
| Echo.BytesConserved | test/echo_server.cc:13-24 | in every interleaving of client, server and kernel: bytes sent are bytes received, then the pipe to the client, then what the server holds, then the pipe to the server; what was received is a prefix of what was sent |
| Echo.RoundsComeBack | test/echo_client_buf.cc:47-83 | no run ends in a data mismatch; after every completed round, and after the last, all bytes sent have come back in order and nothing is left in between |
| Echo.BufferHoldsPrefix | test/echo_client_buf.cc:56-58 | while the client reads, its buffer starts with the matching prefix of what it sent in this round |
| Echo.ShortOnlyAfterServerLeft | test/echo_client_buf.cc:66-75 | a zero or short count reaches the client only after the server has closed the connection |
| Echo.SomeAnswerMoves | test/echo_client_buf.cc:56-58 | while the client reads and the server lives, some answer of the kernel moves bytes: nothing is stuck in the programs |
| EchoEnds.CanAlwaysFinish | test/echo_client_buf.cc:47-83 | whatever has happened, as long as neither end has left, the exchange can still go on to its end, at which all the client sent has come back |
| EchoEnds.ClientLeavesIff | test/echo_client_buf.cc:49-79 | in every run the client leaves exactly when an answer gives it a reason, and with that reason: an error of the write, an error of the read, the end of the stream (as a close or a short count, by whether the read had stalled), or the last bytes of the last round; after any other round it goes on |
| EchoEnds.ServerLeavesIff | test/echo_server.cc:13-24 | in every run the server leaves exactly when it reads the end of the stream, an error, or a second answer that is not ready, or fails to write; after a chunk is sent back it goes on with a fresh read |
| Echo.SpuriousReadinessLosesConnection | test/echo_server.cc:14-15 | two answers EAGAIN to one co_read make the server close the connection |
| Echo.StepKeepsInv | test/echo_server.cc:13-24 | every step of either end keeps conservation, the round structure and the sizes of the buffers |
| EchoPrograms.HandleClient | test/echo_server.cc:7-27 | the program, over the awaitables: what was sent back is exactly what was received, up to a point that is the end of it unless a write failed or is not over; for every script of the kernel it ends, or stays suspended, with the reason, after the answers and with the bytes received and echoed of the loop of single reads and blocking sends `EchoRuns.ServerRun` |
| EchoRuns.ServerEnds | test/echo_server.cc:13-24 | why that loop ends: PeerClosed exactly when its last co_read is decided by zero, and then the kernel's last answer is the end of the stream; ReadFailed when that co_read is decided by the error, which the kernel gave last or which is EAGAIN after two answers not ready; WriteFailed when the blocking send of the last chunk fails with the error that the kernel gave last; and suspended only when the kernel has no answer left |
| EchoRuns.ShortChunksGoOn | test/echo_server.cc:13-24 | an input: a stream that comes in two chunks, however short, is echoed whole before the server sees the peer close |
| EchoPrograms.ClientRound | test/echo_client_buf.cc:47-83 | the program's round, over the awaitables, ends as a blocking send followed by a blocking read of as many bytes is judged (`EchoRuns.RoundOf`), with the same bytes sent and received and the same answers used |
| EchoPrograms.RoundFacts | test/echo_client_buf.cc:49-80 | a round is complete exactly if all its data was sent and the bytes received are that data, and a mismatch exactly if all was sent and as many but different bytes came |
| EchoRuns.RoundEndsIff | test/echo_client_buf.cc:51-75 | every other end of a round, exactly: a write error if the blocking send failed with it, suspended if send or read wants an answer that the kernel owes, a read error if the blocking read failed with it, SawClose if the stream closed after a stall or before any byte, a short count if it closed without a stall after that many bytes |
| EchoPrograms.EchoClient | test/echo_client_buf.cc:33-87 | the program leaves for the reason, in the round and after the answers that `EchoRuns.ClientRun` gives, having sent the data of its rounds so far; a finished client has received exactly what it sent in all rounds up to the limit; against a peer that only echoes it never reports a mismatch |
| EchoRuns.ClientEnds | test/echo_client_buf.cc:47-83 | the client leaves for the reason of its last round, which is the first that is not complete, or has done all rounds; what came back in the rounds before is what they sent |
| EchoRuns.FinishedIff | test/echo_client_buf.cc:47 | the client finishes exactly if the data of all rounds went out and came back |
| EchoRuns.EnoughRounds | test/echo_client_buf.cc:47 | all rounds are 24 |
| ThreadPool.WorkersAreWoken | src/thrdpool.cc:17-37 | no lost work wake-up, for any number of workers and producers and with spurious wake-ups: if a worker is blocked while the pool runs, the queue is no longer than the awake workers that will look plus the notifications on their way |
| ThreadPool.TakenInOrder | src/thrdpool.cc:17-37 | while the pool runs, tasks taken followed by the queue are the tasks submitted, in the order of the mutex; none is dropped and none run twice |
| ThreadPool.LeftInOrder | src/thrdpool.cc:25-44 | for any number of workers, also while any number of them drain without the mutex: every task leaves the queue at most once, in the order of submission, whether it is run or popped unseen |
| ThreadPool.LostIff | src/thrdpool.cc:39-43 | in every run of any number of workers, whenever no drainer is between std::move(front()) and pop(): a task was lost or the queue misused exactly if some drainer looked at a head that another had moved out and not yet popped, or at a queue emptied since its test; and exactly as many tasks were lost as there were such looks |
| ThreadPool.DrainBreaksIff | src/thrdpool.cc:39-43 | for any number of workers, a step spoils an orderly drain exactly if it is such a look |
| ThreadPool.AtMostOnce | src/thrdpool.cc:40 | where std::move leaves an empty function behind, no task is run a second time in any run of any number of workers |
| ThreadPool.TwoDrainersClash | src/thrdpool.cc:39-43 | the input: two workers that drain two tasks at the same time lose the second one; the first is run again exactly if the move has left it in the queue |
| ThreadPool.TwoDrainersUndefined | src/thrdpool.cc:39-41 | the other input: two workers and one task, where the second calls front() on an empty queue |
| ThreadPool.SingleWorkerDrains | src/thrdpool.cc:25-44 | with one worker, in every run: every task is run in the order of submission, once, none dropped, the queue never misused; and when the worker has left, everything submitted before that was run |
| ThreadPool.StopReachesAllIff | src/thrdpool.cc:10-15 | after notify_all no worker ever blocks again exactly if, at the moment of notify_all, none is between its test of the flag and its wait |
| ThreadPool.BlockedForGood | src/thrdpool.cc:10-15 | a worker missed in this way stays blocked until a spurious wake-up or another execute, so the destructor need not return |
| ThreadPool.DestructorCanHang | src/thrdpool.cc:10-15 | the input: the only worker has read the flag and not yet waited when the destructor clears it |
| ThreadPoolCode.ThrdPool.Execute | src/thrdpool.cc:17-23 | execute is the push under the mutex followed by one notification |
| ThreadPoolCode.ThrdPool.WorkerTurn | src/thrdpool.cc:26-37 | one turn of the loop waits, leaves or runs exactly the head of the queue |
| ThreadPoolCode.ThrdPool.Drain | src/thrdpool.cc:39-43 | a worker that drains alone runs everything queued, in order, and leaves an empty queue, whatever std::move leaves behind |
| Descriptors.ClosedOnceRun | include/file_descriptor.h:12-48 | in every program of constructions, copies, moves, assignments and destructions, a holder of a valid number was closed exactly once if no object refers to it any more and not at all otherwise; negative numbers are never closed |
| Descriptors.RunMeant | include/file_descriptor.h:12-33 | in every program, at every step: a new object yields its number through a holder of its own; after a copy or copy assignment both objects yield the number of the original through the same holder; after a move or move assignment the target yields it through the same holder and the source is empty, -1, unless they are one object; every other object exists, refers and yields as before |
| Descriptors.HandleIsOpen | include/file_descriptor.h:27-33 | in every program that wraps only freshly opened or negative numbers, a number is open as long as some object yields it |
| Descriptors.WrapTidyIff | include/file_descriptor.h:12-18 | constructing an object from any other number keeps open numbers and holders in one-to-one correspondence exactly if the number is negative |
| Descriptors.SecondHolderLosesNumber | include/file_descriptor.h:12-18 | the input: an open number is wrapped a second time; when the first object ends, the number is closed under the second |
| DescriptorsCode.Handles.CopyAssign | include/file_descriptor.h:21 | both objects refer to the source's holder and yield its number; reference counting closes the old number exactly when no other object refers to it, self-assignment included |
| DescriptorsCode.Handles.MoveAssign | include/file_descriptor.h:24 | the target takes over the source's holder and number, the source ends up empty, the old number is closed exactly when no other object refers to it, and moving an object to itself changes nothing |
| DescriptorsCode.Handles.Copy | include/file_descriptor.h:20 | a copy shares the original's holder and yields its number; the count stays the number of objects referring to the holder |
| DescriptorsCode.Handles.Move | include/file_descriptor.h:23 | a move takes over holder and number, leaves the source empty and the count unchanged |
| DescriptorsCode.Handles.Construct | include/file_descriptor.h:12-18 | a new object yields its number, through a holder that starts with one reference |
| DescriptorsCode.Handles.ConstructOpened | src/async.cc:211-215 | wrapping a number that the kernel has just opened is the model's Open step, after which the number is open and has one holder |
| DescriptorsCode.Handles.Destruct | include/file_descriptor.h:40-48 | the last object to go closes the number |
| OpenOperations.OperationsAreOpen | include/async.h:18-55 | in every run in which coroutines take numbers from objects held by themselves, by a coroutine that waits for them, or outside all coroutines, an operation being submitted, in flight or calling back is on an open number and belongs to a live coroutine suspended in it, although the awaitable holds only the number |
| SuspendedChains.SuspendedChainStays | include/task.h:127-135 | no step of any thread after which a frame is still suspended in its operation touches that frame or any frame that waits for it |
| SuspendedChains.OnlyResumptionEnds | src/async.cc:88-121 | conversely the suspension of a frame is ended, and the frame changed, only by its own callback, the refusal of its own operation, or destroy_all of its root |

## Left out

- System calls, addresses, socket options and the layout of the rings: the kernel is a set of answers it may choose from.
- `connect_awaitable` and `co_listen`: mostly socket setup; in the frame machine a connect is one more operation, and the synchronous end of an awaitable is ordinary code of the coroutine.
- `accept_awaitable` and `server`: the frame machine treats an accept as an operation like any other; the connection it creates is a `Descriptors.Open` step.
- C++ memory ordering, `std::function`, `std::future` and exception objects: steps are sequentially consistent, results and exceptions are integers.
- In the frame machine a coroutine stores at most one task object at a time; several side by side, and their moves from one coroutine to another, are in `TaskTrees`, which does not execute them.
- What happens after a misused `co_await`, which C++ leaves undefined: the model records it and lets the chain stand.
- The rest of the native call stack: `NativeStack` counts coroutine activations, not the ordinary calls of the program or of a callback that submits again from inside `async_io`.
- The blocking `future.get()` of `sync_wait` and `submit`: the promise is modelled, the thread that waits for it is not.
- Locks inside the registry, the pool and the context pools: each critical section is one step; that nobody waits for a lock it holds is not claimed, in particular not for the callback that uring runs under `sq_mutex_` on a full queue.
- Truncation of byte counts to `int` in callbacks: buffers are taken to be smaller than 2^31 bytes.
- Overflow of the completion queue: the kernel completes an operation only when the ring has room.
- The end of an event loop on an error of `epoll_wait` or `io_uring_wait_cqe_timeout`: the loop then never reports again, which is one of the adversary's choices.
- Interruption by signals, static destruction order, logging, CPU affinity, and the older backends under `tmp/`.
- The destructor of the thread pool as a whole, and liveness of the echo client against bounded socket buffers: the code does not guarantee either.
- `std::queue` and `std::vector` in the classes are sequences that the methods reassign; contexts of the epoll backend are heap objects, those of the uring backend entries of a map.
- ThreadPoolCode.ThrdPool.Drain: stated for a worker that drains alone, because the loop takes no lock; what two of them do is `ThreadPool.LostIff`.
- EpollCode.EpollInstance.Round: a callback submits on a descriptor that no pending operation uses at that moment; a second operation on a descriptor is `EpollCode.EpollInstance.AsyncIo` with `EpollService.OverwriteLoses`.
- EchoPrograms.HandleClient: a connection that is never answered again is reported as pending, as the coroutine then stays suspended.
- JointSystem.NothingIsLost: for epoll, that no two roots use a descriptor at a time is a premise about the program, as in the echo server, where each connection is copied into its own coroutine; what happens otherwise is `EpollService.OverwriteLoses`.
- KernelMemory.MemoryIsAlive: the memory of an operation is taken to belong to the coroutine that waits for it, as the buffers of the echo server and the awaitables themselves do; memory outside all coroutines is nobody's to free.
- Data races inside `std::queue` between drainers, or between a drainer and `execute`: empty, front and pop are one step each.
- Completions under uring need room in the ring, accesses to buffers do not: the kernel may touch a buffer at any time between taking the entry and completing it.
