# Kommander task lifecycle, in Dafny

Kommander runs an `Action` asynchronously. Each launched action is owned by a
`RunnableAction`, a small state machine (`NEW`, `RUNNING`, `COMPLETED`,
`CANCELED`) that runs the action once, lets any thread cancel it at any time,
and hands the outcome to at most one user callback through a `Deliverer`. The
builder `Kommand` collects the callbacks, the deliverer and a launch delay and
hands the bundle to a dispatcher.

Files:

- `wrappers.dfy`: `Option` (a nullable reference) and `Result` (a call that may throw).
- `lifecycle.dfy`, module `Lifecycle`: the task as a value `Task`. There is one
  transition function per `synchronized` block of `RunnableAction`: `Enter`,
  `Cleanup`, `DeliverResponse`/`DeliverError` (run through `RunDelivery`) and
  `Cancel`. `Post` is the unguarded hand-over of the outcome to the deliverer
  (RunnableAction.java lines 38-42), which changes no Java field. A concurrent execution is any sequence of
  `Step`s, executed by `Exec`. A step whose thread is not at that point (the
  finally block before `act()` has returned, a delivery that was never handed
  over) changes nothing. `Inv` is the invariant of every reachable task. The
  lemmas state the lifecycle guarantees over all interleavings.
- `runnable_action.dfy`, module `Runnable`: class `RunnableAction` with the
  Java fields. It has one method per synchronized block (`Enter`, `Cleanup`,
  `DeliverResponse`, `DeliverError`, `Cancel`), plus `Post` for the unguarded
  hand-over of the outcome, which changes only ghost fields, and `Run` for a
  `run()` that no other thread interrupts. Each synchronized-block method keeps
  `Valid()` (that is, `Inv`) and ensures
  `Snapshot() == <transition>(old(Snapshot()))`, so the lemmas of `Lifecycle`
  apply to any sequence of calls on the object. `Run` ensures the `Exec` of
  its steps instead, and the helper `AfterExecuted` only sets the state.
  Ghost fields record what cannot be seen in the fields:
  - how far `run()` has got, and which thread got past its entry block;
  - the action's outcome;
  - the delivery step still held by the deliverer;
  - how often the action was invoked;
  - which threads were interrupted;
  - which callbacks fired.
- `kommand.dfy`, module `Launch`: the builder `Kommand`, with `Valid()`
  meaning the delay is never negative. `Dispatcher` and `KommandTokenBox`
  stand in for the foreign collaborators and record what they are given.

Naming: Java's three `kommand` overloads are `Launch`, `LaunchInto` and
`LaunchTagged`. A thrown `IllegalArgumentException` is a `Failure`/`Some`
value carrying the exception's message.

## Model

| member | source | states |
|---|---|---|
| `Lifecycle.Init` | kommander/src/main/java/com/wokdsem/kommander/RunnableAction.java:19-25 | a freshly built task satisfies the lifecycle invariant, has invoked nothing and interrupted nobody |
| `Runnable.RunnableAction.constructor` | kommander/src/main/java/com/wokdsem/kommander/RunnableAction.java:19-25 | the task is NEW, takes action, callbacks and deliverer from the bundle, and has no executor |
| `Runnable.RunnableAction.Enter` | kommander/src/main/java/com/wokdsem/kommander/RunnableAction.java:30-37 | a task that is not NEW is left unchanged and yields no action to run; a NEW one records the current thread, becomes RUNNING and yields the bundle's action, invoked once |
| `Lifecycle.RunStartsOnce` | kommander/src/main/java/com/wokdsem/kommander/RunnableAction.java:31-36 | once a task has left NEW it never returns to NEW, so in any later interleaving every run() returns at once: the action-call count and the starting thread never change again |
| `Runnable.RunnableAction.Post` | kommander/src/main/java/com/wokdsem/kommander/RunnableAction.java:38-42 | a returned value becomes a response delivery and a thrown error becomes an error delivery; nothing is rethrown (for a deliverer that does not throw, see Left out) |
| `Runnable.RunnableAction.Cleanup` | kommander/src/main/java/com/wokdsem/kommander/RunnableAction.java:43-47 | after the action, `action` and `executor` are cleared and the state and callbacks are untouched |
| `Runnable.RunnableAction.DeliverResponse` | kommander/src/main/java/com/wokdsem/kommander/RunnableAction.java:51-66 | on a CANCELED task nothing fires and nothing changes; otherwise `onError` is dropped, `onCompleted` fires with the response only if present and is dropped, and the task is COMPLETED |
| `Runnable.RunnableAction.DeliverError` | kommander/src/main/java/com/wokdsem/kommander/RunnableAction.java:69-84 | the mirror image for an error: `onCompleted` dropped, `onError` fires with the throwable only if present, then COMPLETED; nothing on a CANCELED task |
| `Runnable.RunnableAction.AfterExecuted` | kommander/src/main/java/com/wokdsem/kommander/RunnableAction.java:87-89 | the state becomes COMPLETED and nothing else changes |
| `Runnable.RunnableAction.Cancel` | kommander/src/main/java/com/wokdsem/kommander/RunnableAction.java:91-101 | from NEW or RUNNING: the recorded executor, if any, is interrupted, action and both callbacks are dropped, and the task is CANCELED; from COMPLETED or CANCELED nothing changes |
| `Lifecycle.CancelIdempotent` | kommander/src/main/java/com/wokdsem/kommander/RunnableAction.java:91-101 | cancelling twice has the effect of cancelling once |
| `Runnable.RunnableAction.Run` | kommander/src/main/java/com/wokdsem/kommander/RunnableAction.java:27-49 | run() with no interference: nothing happens unless the task is NEW; otherwise the action's outcome is handed over, action and executor are cleared, and an inline delivery fires exactly the callback that outcome calls for |
| `Lifecycle.Expected` | kommander/src/main/java/com/wokdsem/kommander/RunnableAction.java:55-82 | the callback an outcome calls for is at most one invocation: onCompleted with the value or onError with the throwable, none if that callback is absent |
| `Lifecycle.StepPreservesInv` | kommander/src/main/java/com/wokdsem/kommander/RunnableAction.java:28-101 | every synchronized block keeps the lifecycle invariant |
| `Lifecycle.ExecPreservesInv` | kommander/src/main/java/com/wokdsem/kommander/RunnableAction.java:28-101 | every interleaving of the blocks keeps the lifecycle invariant |
| `Lifecycle.AtMostOnce` | kommander/src/main/java/com/wokdsem/kommander/RunnableAction.java:34-82 | in any interleaving the action is invoked at most once and at most one callback fires; if one fired, the task is COMPLETED and it is the callback for the action's actual outcome |
| `Lifecycle.CanceledIsAbsorbing` | kommander/src/main/java/com/wokdsem/kommander/RunnableAction.java:31-101 | once CANCELED, no modelled step leaves CANCELED, fires a callback, invokes the action or interrupts again (a cancel from inside a callback is not modelled, see Left out) |
| `Lifecycle.CompletedIsStable` | kommander/src/main/java/com/wokdsem/kommander/RunnableAction.java:55-101 | a COMPLETED task, having no callback left, stays COMPLETED and fires nothing more; a later cancel is a no-op |
| `Lifecycle.NoCallbackAfterCancel` | kommander/src/main/java/com/wokdsem/kommander/RunnableAction.java:55-101 | no callback fires after any call of cancel(), whatever steps follow |
| `Lifecycle.CancelBeforeStart` | kommander/src/main/java/com/wokdsem/kommander/RunnableAction.java:28-37 | a task cancelled before run() never invokes its action, never fires a callback and interrupts nobody |
| `Lifecycle.CancelBeforeDeliverySuppresses` | kommander/src/main/java/com/wokdsem/kommander/RunnableAction.java:51-101 | a cancel that lands at any point before the delivery step has completed the task leaves it CANCELED with no callback fired, forever |
| `Lifecycle.CancelAfterActBeforeDelivery` | kommander/src/main/java/com/wokdsem/kommander/RunnableAction.java:38-101 | a cancel after act() returned and before the finally block interrupts the running thread and suppresses the callback; with `CancelBeforeDeliverySuppresses`, any cancel before delivery suppresses the callback |
| `Lifecycle.CancelInterruptsRunner` | kommander/src/main/java/com/wokdsem/kommander/RunnableAction.java:92-95 | in every interleaving, a cancel that finds the task RUNNING between the entry block and the finally block interrupts exactly the thread that started it; after the finally block it interrupts nobody |
| `Lifecycle.NoCancelNeverCanceled` | kommander/src/main/java/com/wokdsem/kommander/RunnableAction.java:91-99 | only cancel() moves a task to CANCELED |
| `Lifecycle.NeverCanceledDelivers` | kommander/src/main/java/com/wokdsem/kommander/RunnableAction.java:38-82 | a task never cancelled whose delivery step has run is COMPLETED and has fired exactly the callback its outcome calls for |
| `Launch.Kommand.constructor` | kommander/src/main/java/com/wokdsem/kommander/Kommand.java:20-25 | the delay starts at 0, the builder holds the action and no callback or deliverer |
| `Launch.Kommand.SetOnCompleted` | kommander/src/main/java/com/wokdsem/kommander/Kommand.java:32-35 | only the success-callback slot changes, and the same builder is returned |
| `Launch.Kommand.SetOnError` | kommander/src/main/java/com/wokdsem/kommander/Kommand.java:42-45 | only the error-callback slot changes, and the same builder is returned |
| `Launch.Kommand.SetDelivered` | kommander/src/main/java/com/wokdsem/kommander/Kommand.java:53-56 | only the deliverer slot changes, and the same builder is returned |
| `Launch.Kommand.Delay` | kommander/src/main/java/com/wokdsem/kommander/Kommand.java:64-70 | a negative delay is refused with IllegalArgumentException and the stored delay kept; otherwise it is stored and the same builder returned; the delay stays non-negative |
| `Launch.Kommand.Launch` | kommander/src/main/java/com/wokdsem/kommander/Kommand.java:77-79 | exactly one submission of the built bundle with the stored, non-negative delay reaches the dispatcher, and its token is returned |
| `Launch.Kommand.AssertTokenBox` | kommander/src/main/java/com/wokdsem/kommander/Kommand.java:102-106 | an error is raised if and only if the token box is null |
| `Launch.Kommand.LaunchInto` | kommander/src/main/java/com/wokdsem/kommander/Kommand.java:86-89 | a null token box is refused and the dispatcher is untouched; otherwise one task is dispatched and its token appended, untagged, to the box |
| `Launch.Kommand.LaunchTagged` | kommander/src/main/java/com/wokdsem/kommander/Kommand.java:97-100 | as LaunchInto, with the token appended under the caller's tag |
| `Launch.Dispatcher.Kommand` | kommander/src/main/java/com/wokdsem/kommander/Kommand.java:78 | the dispatcher records the bundle and delay it is given and the token it issues |
| `Launch.KommandTokenBox.Append` | kommander/src/main/java/com/wokdsem/kommander/Kommand.java:88 | the token box gains exactly the appended token |
| `Launch.KommandTokenBox.AppendTagged` | kommander/src/main/java/com/wokdsem/kommander/Kommand.java:99 | the token box gains exactly the appended token with its tag |

## Left out

- Threads, `synchronized` monitors and memory visibility. Each synchronized block is one atomic method or transition, and concurrency is any interleaving of them.
- `Thread.interrupt()` and what the action does about it. An interrupt is only recorded, in `interrupts`; whether the action stops is not modelled.
- The body of `Action.act()`. Its outcome, a value or a throwable, is an input of `Post`, `Run` and the `ActFinished` step.
- Callback bodies. An invocation is recorded in `calls`. A callback that throws is not modelled: every invocation is taken to return normally. In the source, a throwing `onCompleted` under an inline deliverer leaves the task RUNNING and is caught and routed to the error delivery step. Without an intervening cancel, that step finds `onError` already cleared, fires nothing and sets COMPLETED. A throwing `onError` under an inline deliverer escapes `run()`.
- Lifecycle.CanceledIsAbsorbing: a callback that calls `cancel()` on its own task is not modelled. A callback runs while its delivery block holds the monitor, and Java monitors are reentrant, so such a cancel goes through: from RUNNING it interrupts the recorded executor if one is still set (under an inline deliverer, the delivering thread itself; after the finally block, nobody), clears the references and sets CANCELED; the delivery block then resumes and `afterExecuted()` sets COMPLETED. The task thus leaves CANCELED and ends COMPLETED. When an executor was interrupted, `Inv` rules that state out. Otherwise `Inv` admits it, but no modelled step reaches it from CANCELED. Every lemma of `Lifecycle` holds for callbacks that do not call back into their task.
- Runnable.RunnableAction.Post: a deliverer whose `deliver` throws is not modelled. After a successful `act()`, a throw from handing over the response step is caught by the same `catch (Throwable)` and an error step carrying the deliverer's throwable is handed over as well, so two steps may be pending and `onError` may fire for a task whose action succeeded. A throw from handing over the error step escapes `run()`. `Lifecycle.AtMostOnce`, `Lifecycle.NeverCanceledDelivers` and the claim that nothing is rethrown hold for deliverers that do not throw.
- Deliverer scheduling. `Run` takes the deliverer's choice (run inline, or keep for later) as a parameter. A kept step is returned and may be run later through `DeliverResponse`/`DeliverError`, or never. A deliverer that runs one step twice is not modelled.
- The dispatcher's timer and thread pool, the token box's storage and the bundle builder. These classes are not part of this model. `Dispatcher` and `KommandTokenBox` only record what they receive. `Build` copies the builder's slots into a bundle, with an inline deliverer when none was set, the default the class documentation of `Kommand` promises (kommander/src/main/java/com/wokdsem/kommander/Kommand.java:7-8). Treating an explicit `setDelivered(null)` as "none set" is an assumption, because the builder's source is not part of this model.
- Nulling fields for the garbage collector. A cleared reference is `None`, and a cleared callback cannot fire.
- A token-box tag is any Java object, null included; `Tag` stands for its identity and nothing is assumed about it.
- The type parameter of `Kommand<T>` is dropped: the builder never looks at values of that type.
- Java's `long` delay is the `int64` newtype. Nothing in the builder does arithmetic on it.
