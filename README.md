# camel-commonj: pool configuration, work-manager bridge and in-memory work manager

This project models the sequential core of the Camel CommonJ component, which lets Camel thread pools run their work on a container-managed CommonJ `WorkManager`.

- **Pool configuration.** The two `newThreadPool` variants validate the sizes and pick a queue discipline: hand-off, unbounded or bounded. They also substitute `CallerRunsPolicy` when no rejection handler is given. The scheduled-pool rule decides whether a scheduled pool is wrapped in a sized wrapper. A pool is modelled as the `PoolConfig` record its executor is built from (`Pools`). Each `newThreadPool` is a pure function returning that record or an `InvalidConfig` error.
- **Thread factory.** The helper's thread factory wraps each new thread in a `WorkManagerThreadWrapper` exactly when the class's static work manager is set. It also sets the daemon flag on the object it returns.
- **Bridge.** `WorkManagerThreadWrapper` is a class with a nullable work-item field. `Start` creates a new item and schedules it. `Interrupt` and `Destroy` release the current item if there is one, and `Interrupt` also interrupts the wrapped thread. Ghost state records every item created and every interrupt. A ghost counter on each item records its releases.
- **Test-side work manager.**
  - `DefaultWorkItem` is a class with a status field and an optional listener. `SetStatus` fires the one matching callback.
  - `DefaultWorkEvent` is an immutable datatype with the three getters `GetType`, `GetWorkItem` and `GetException`.
  - `SimpleWorkQueue` is a FIFO sequence.
  - `SimpleWorkManager` schedules into that queue. Each wait is modelled as its single polling pass.

Java `int` and `long` are the newtypes `int32` and `int64`. `Thread.currentThread()` is an explicit `current: Thread` parameter. `LinkedBlockingQueue.put` and `take` acquire their lock interruptibly. So a caller whose interrupt flag is already set gets an `InterruptedException`, and the flag is cleared. The model states this behaviour. The CommonJ constants are `WORK_ACCEPTED = 1`, `WORK_REJECTED = 2`, `WORK_STARTED = 3`, `WORK_COMPLETED = 4`, `IMMEDIATE = 0` and `INDEFINITE = Long.MAX_VALUE`. They come from the CommonJ API (`commonj.work`), which is not part of this model.

Some facts about the code that the model makes explicit:
- **Size forcing is dead code.** The factory's branch that sets core and max to 1 (WorkManagerThreadPoolFactory.java:63-68) needs `corePoolSize == 0`. The check at lines 53-55 has already refused every core below 1, so the sizes always arrive unchanged (`ThreadPoolFactory.WorkManagerThreadPoolFactory.NewThreadPool`).
- **No bound means different queues.** With `maxQueueSize <= 0` and a non-empty core, the factory hands off through a `SynchronousQueue` (WorkManagerThreadPoolFactory.java:69-71). The helper instead buffers in a `LinkedBlockingQueue()` of capacity `Integer.MAX_VALUE` (WorkManagerExecutorServiceHelper.java:165-167). See `ThreadPoolFactory.HelperAndFactoryVariantsDiffer`.
- **One item per start.** Every `start` creates and schedules a new work item (WorkManagerThreadWrapper.java:67-70), so a bridge started twice has scheduled two items.
- **Repeated destroy.** Every `interrupt` or `destroy` after a `start` releases the same item again, because the work field is never cleared.
- **JDK argument checks.** The executors are built by `new ThreadPoolExecutor(...)` and `new ScheduledThreadPoolExecutor(...)`, or by the Rejectable subclasses, which are taken to pass their arguments on unchanged. Those constructors throw `IllegalArgumentException` for a negative core, a maximum of 0 or less, a maximum below the core and a negative keep-alive. The model reports these as `ExecutorRefuses`, after the core's own checks.

## Model

| member | source | states |
|---|---|---|
| `ExecutorServiceHelper.NewThreadPool` | src/main/java/org/apache/camel/component/commonj/WorkManagerExecutorServiceHelper.java:154-179 | max < core fails with MaxBelowCore, checked first. Otherwise the executor constructor's refusal (core < 0, max <= 0 or keep-alive < 0) fails with ExecutorRefuses, and these are the only failures. Otherwise the sizes, keep-alive and unit arrive unchanged. The queue is a hand-off iff core == 0 and maxQueueSize <= 0, unbounded iff core != 0 and maxQueueSize <= 0, and bounded iff maxQueueSize > 0, with capacity exactly maxQueueSize. A missing handler becomes CallerRunsPolicy; a given one is kept. The thread factory gets pattern, name and daemon. The result is well-formed. |
| `ExecutorServiceHelper.NewThreadPoolWithDefaults` | src/main/java/org/apache/camel/component/commonj/WorkManagerExecutorServiceHelper.java:130-132 | Fails exactly when max < core, core < 0 or max <= 0. Otherwise keep-alive is 60 seconds, the handler is CallerRunsPolicy and threads are daemon. The queue is a hand-off for an empty core and unbounded otherwise. |
| `ExecutorServiceHelper.DefaultsOverloadIsFullOverload` | src/main/java/org/apache/camel/component/commonj/WorkManagerExecutorServiceHelper.java:174-177 | Passing CallerRunsPolicy explicitly, as the short overload does, builds the same pool as passing null. |
| `ExecutorServiceHelper.StaticState.SetWorkmanager` | src/main/java/org/apache/camel/component/commonj/WorkManagerExecutorServiceHelper.java:55-57 | Afterwards the shared static field holds the given work manager, possibly null. |
| `ExecutorServiceHelper.WorkmanagerThreadFactory.constructor` | src/main/java/org/apache/camel/component/commonj/WorkManagerExecutorServiceHelper.java:190-194 | The factory keeps the pattern, name and daemon flag it is given, and reads the work manager from the shared static state. |
| `ExecutorServiceHelper.WorkmanagerThreadFactory.NewThread` | src/main/java/org/apache/camel/component/commonj/WorkManagerExecutorServiceHelper.java:196-207 | Returns a fresh bridge iff the static work manager is non-null; otherwise it returns a fresh plain thread. A bridge is not started, holds that work manager, and wraps a fresh thread with the given runnable and name. The factory's daemon flag is set on the returned object. For a bridge that is the wrapper's own flag, and the inner thread keeps the creator's. |
| `ThreadPoolFactory.WorkManagerThreadPoolFactory.SetWorkmanager` | src/main/java/org/apache/camel/component/commonj/WorkManagerThreadPoolFactory.java:118-124 | The getter afterwards returns the work manager that was set. |
| `ThreadPoolFactory.WorkManagerThreadPoolFactory.GetWorkmanager` | src/main/java/org/apache/camel/component/commonj/WorkManagerThreadPoolFactory.java:122-124 | Returns the work manager field, possibly null. |
| `ThreadPoolFactory.WorkManagerThreadPoolFactory.NewThreadPool` | src/main/java/org/apache/camel/component/commonj/WorkManagerThreadPoolFactory.java:48-84 | core < 1 fails with CorePoolSizeBelowOne, checked first. Then max < core fails with MaxBelowCore. Then a negative keep-alive fails with ExecutorRefuses; there are no other failures. Otherwise core and max arrive unchanged, because the forcing branch is unreachable. The queue is a hand-off iff maxQueueSize <= 0 and is never unbounded. It is bounded iff maxQueueSize > 0, with capacity exactly maxQueueSize. A missing handler becomes CallerRunsPolicy. The thread factory is backed by the current work manager. |
| `ThreadPoolFactory.WorkManagerThreadPoolFactory.NewThreadPoolFromProfile` | src/main/java/org/apache/camel/component/commonj/WorkManagerThreadPoolFactory.java:86-95 | The profile's pool size, max size, keep-alive, unit, queue size and handler reach the seven-argument variant unchanged, with the same failure conditions. |
| `ThreadPoolFactory.WorkManagerThreadPoolFactory.NewScheduledThreadPool` | src/main/java/org/apache/camel/component/commonj/WorkManagerThreadPoolFactory.java:97-116 | Fails with ExecutorRefuses exactly when the profile's pool size is negative, which the scheduled executor's constructor refuses. Otherwise wrapped in a sized wrapper iff the profile's maxPoolSize > 0, with bound exactly the profile's maxQueueSize; otherwise returned raw. The executor has the profile's pool size. A missing handler becomes CallerRunsPolicy; a given one is kept. |
| `ThreadPoolFactory.HelperAndFactoryVariantsDiffer` | src/main/java/org/apache/camel/component/commonj/WorkManagerThreadPoolFactory.java:62-75 | Every configuration the factory accepts, the helper accepts too, with equal sizes and handler. The two queues agree iff maxQueueSize > 0. With no bound the helper buffers up to Integer.MAX_VALUE tasks, while the factory buffers nothing. |
| `ThreadWrapper.WorkManagerThreadWrapper.constructor` | src/main/java/org/apache/camel/component/commonj/WorkManagerThreadWrapper.java:32-36 | A new bridge holds the work manager and the thread, has no work item and has scheduled nothing. |
| `ThreadWrapper.WorkManagerThreadWrapper.Destroy` | src/main/java/org/apache/camel/component/commonj/WorkManagerThreadWrapper.java:38-42 | Before any start it changes nothing. After a start it releases the current item exactly once more. |
| `ThreadWrapper.WorkManagerThreadWrapper.GetContextClassLoader` | src/main/java/org/apache/camel/component/commonj/WorkManagerThreadWrapper.java:44-46 | Reports the wrapped thread's context class loader. |
| `ThreadWrapper.WorkManagerThreadWrapper.Interrupt` | src/main/java/org/apache/camel/component/commonj/WorkManagerThreadWrapper.java:48-53 | Always sets the wrapped thread's interrupt flag. It releases the current item exactly once, and only if start has happened. |
| `ThreadWrapper.WorkManagerThreadWrapper.IsInterrupted` | src/main/java/org/apache/camel/component/commonj/WorkManagerThreadWrapper.java:55-57 | Reports the wrapped thread's interrupt flag. |
| `ThreadWrapper.WorkManagerThreadWrapper.SetContextClassLoader` | src/main/java/org/apache/camel/component/commonj/WorkManagerThreadWrapper.java:59-61 | A following GetContextClassLoader returns the loader that was set. |
| `ThreadWrapper.WorkManagerThreadWrapper.SetDaemon` | src/main/java/org/apache/camel/component/commonj/WorkManagerExecutorServiceHelper.java:204 | The inherited `setDaemon` sets the bridge's own daemon flag, and only that flag. |
| `ThreadWrapper.WorkManagerThreadWrapper.Start` | src/main/java/org/apache/camel/component/commonj/WorkManagerThreadWrapper.java:67-70 | Creates a fresh, unreleased item wrapping the inner thread. It appends that item exactly once to the work manager's schedule, and the field then holds it. A second start schedules a second item. |
| `WorkItems.WorkEventGettersRoundTrip` | src/test/java/org/apache/camel/component/commonj/DefaultWorkEvent.java:9-31 | An event's getters return exactly the type, item and exception it was built from, and an event is determined by what its getters return. |
| `WorkItems.Dispatch` | src/test/java/org/apache/camel/component/commonj/DefaultWorkItem.java:31-46 | At most one callback fires, and one fires iff the status is one of the four known ones. That callback announces the status, with an event carrying (status, item, exception). |
| `WorkItems.DefaultWorkItem.constructor` | src/test/java/org/apache/camel/component/commonj/DefaultWorkItem.java:15-19 | A new item is WORK_ACCEPTED, holds the given listener, and its GetResult is the given work. |
| `WorkItems.DefaultWorkItem.GetResult` | src/test/java/org/apache/camel/component/commonj/DefaultWorkItem.java:21-23 | Returns the work the item was created with. |
| `WorkItems.DefaultWorkItem.GetStatus` | src/test/java/org/apache/camel/component/commonj/DefaultWorkItem.java:25-27 | Returns the status most recently stored. |
| `WorkItems.DefaultWorkItem.SetStatus` | src/test/java/org/apache/camel/component/commonj/DefaultWorkItem.java:29-47 | GetStatus afterwards is the given status. With a listener, the listener receives exactly the Dispatch notifications. With none, only the status changes. |
| `WorkItems.DefaultWorkItem.ToString` | src/test/java/org/apache/camel/component/commonj/DefaultWorkItem.java:61-81 | Fails with UnknownStatus iff the status is not one of the four. Otherwise the result is the work's text, a colon, and a name that reads back as the status. |
| `WorkItems.StatusName` | src/test/java/org/apache/camel/component/commonj/DefaultWorkItem.java:64-79 | A name exists iff the status is one of the four known ones, and that name reads back as the status. |
| `WorkItems.StatusNamesRoundTrip` | src/test/java/org/apache/camel/component/commonj/DefaultWorkItem.java:64-79 | Exactly the four known statuses have names, and names and statuses convert back and forth without loss. |
| `WorkItems.DefaultWorkItem.CompareTo` | src/test/java/org/apache/camel/component/commonj/DefaultWorkItem.java:49-59 | As written, the result is always 0. For Comparable works the method compares this item's work with itself. |
| `WorkItems.DefaultWorkItem.IntendedCompareTo` | src/test/java/org/apache/camel/component/commonj/DefaultWorkItem.java:49-59 | Comparing against the other item's work: negative iff this key is smaller, 0 iff the keys are equal, and 0 whenever one work is not Comparable. |
| `WorkItems.CompareToDiscrepancy` | src/test/java/org/apache/camel/component/commonj/DefaultWorkItem.java:53-55 | For works with keys 1 and 2, the written compareTo answers 0 both ways, while the intended one answers -1 and 1. |
| `WorkItems.IntendedCompareToAntisymmetric` | src/test/java/org/apache/camel/component/commonj/DefaultWorkItem.java:49-59 | The intended order is antisymmetric. |
| `SimpleWorkQueue.RemoveFirst` | src/test/java/org/apache/camel/component/commonj/SimpleWorkQueue.java:19-21 | Removal shortens the queue by one iff the item is present. The contents lose exactly one occurrence, as a multiset. |
| `SimpleWorkQueue.RemoveFirstKeepsOrder` | src/test/java/org/apache/camel/component/commonj/SimpleWorkQueue.java:19-21 | Removal cuts out exactly the first occurrence; everything before and after keeps its order. |
| `SimpleWorkQueue.RemoveFirstAbsent` | src/test/java/org/apache/camel/component/commonj/SimpleWorkQueue.java:19-21 | Removing an absent item leaves the queue as it was. |
| `SimpleWorkQueue.SimpleWorkQueue.constructor` | src/test/java/org/apache/camel/component/commonj/SimpleWorkQueue.java:10-13 | A new queue is empty. |
| `SimpleWorkQueue.SimpleWorkQueue.IsEmpty` | src/test/java/org/apache/camel/component/commonj/SimpleWorkQueue.java:15-17 | True iff the queue holds no items. |
| `SimpleWorkQueue.SimpleWorkQueue.Remove` | src/test/java/org/apache/camel/component/commonj/SimpleWorkQueue.java:19-21 | Reports whether the item was present, and leaves RemoveFirst of the old contents. |
| `SimpleWorkQueue.SimpleWorkQueue.Put` | src/test/java/org/apache/camel/component/commonj/SimpleWorkQueue.java:23-25 | An uninterrupted caller's item is appended at the tail. An already interrupted caller gets the exception, its flag is cleared, and the queue is unchanged. |
| `SimpleWorkQueue.SimpleWorkQueue.Peek` | src/test/java/org/apache/camel/component/commonj/SimpleWorkQueue.java:27-29 | Returns the head without removing it, and None (null) iff the queue is empty. |
| `SimpleWorkQueue.SimpleWorkQueue.Take` | src/test/java/org/apache/camel/component/commonj/SimpleWorkQueue.java:31-38 | An uninterrupted caller gets the old head, and the rest stays in order. An interrupted caller gets a WorkException, the queue is unchanged, and its interrupt flag is set again. |
| `SimpleWorkQueue.Fifo` | src/test/java/org/apache/camel/component/commonj/SimpleWorkQueue.java:23-33 | Over any run of puts and takes, the items taken followed by the items left equal the initial contents followed by the items put, in put order. |
| `SimpleWorkManager.FinishedItems` | src/test/java/org/apache/camel/component/commonj/SimpleWorkManager.java:87-94 | Only items of the collection that are COMPLETED or REJECTED are collected, in iteration order. |
| `SimpleWorkManager.FinishedItemsComplete` | src/test/java/org/apache/camel/component/commonj/SimpleWorkManager.java:87-97 | Every finished item is collected, so the collection is empty iff no item is finished. This ties waitForAny's answer to waitForAll's. |
| `SimpleWorkManager.SimpleWorkManager.constructor` | src/test/java/org/apache/camel/component/commonj/SimpleWorkManager.java:17 | A new manager owns a fresh, empty queue. |
| `SimpleWorkManager.SimpleWorkManager.Schedule` | src/test/java/org/apache/camel/component/commonj/SimpleWorkManager.java:23-25 | Behaves as ScheduleWithListener with no listener. |
| `SimpleWorkManager.SimpleWorkManager.ScheduleWithListener` | src/test/java/org/apache/camel/component/commonj/SimpleWorkManager.java:27-36 | Returns a fresh item whose result is the work and whose listener is null, so the given listener is dropped. Normally the item is WORK_ACCEPTED and appended at the tail. If the enqueue is interrupted, the item is WORK_REJECTED, the queue is unchanged and the caller's interrupt flag is restored. |
| `SimpleWorkManager.SimpleWorkManager.ScanForFinished` | src/test/java/org/apache/camel/component/commonj/SimpleWorkManager.java:52-59 | True iff at least one item is COMPLETED or REJECTED. |
| `SimpleWorkManager.SimpleWorkManager.WaitForAll` | src/test/java/org/apache/camel/component/commonj/SimpleWorkManager.java:49-71 | Returns true iff some item is finished. Otherwise IMMEDIATE returns false after this one pass, and any other timeout polls again while the elapsed time is below it, then returns false. INDEFINITE takes that same path. |
| `SimpleWorkManager.SimpleWorkManager.CollectFinished` | src/test/java/org/apache/camel/component/commonj/SimpleWorkManager.java:87-94 | Collects exactly FinishedItems, in iteration order. |
| `SimpleWorkManager.SimpleWorkManager.WaitForAny` | src/test/java/org/apache/camel/component/commonj/SimpleWorkManager.java:83-107 | When some item is finished, returns exactly the finished items in order. Otherwise IMMEDIATE returns the empty list after one pass, and any other timeout polls again while time remains. |
| `SimpleWorkManager.SimpleWorkManager.ScanAllFinished` | src/test/java/org/apache/camel/component/commonj/SimpleWorkManager.java:38-45 | The documented scan: true iff every item is COMPLETED or REJECTED. |
| `SimpleWorkManager.SimpleWorkManager.WaitForAllCompleted` | src/test/java/org/apache/camel/component/commonj/SimpleWorkManager.java:38-45 | The documented wait: returns true iff every item is finished; otherwise false, or another pass while time remains. |
| `SimpleWorkManager.WaitForAllDiscrepancy` | src/test/java/org/apache/camel/component/commonj/SimpleWorkManager.java:52-62 | One COMPLETED and one ACCEPTED item: some item is finished, so the written pass answers true, but not all are finished. |
| `SimpleWorkManager.WaitForAllDiscrepancyRun` | src/test/java/org/apache/camel/component/commonj/SimpleWorkManager.java:38-62 | On one COMPLETED and one ACCEPTED item with an IMMEDIATE timeout, the written waitForAll pass returns true, while the documented one returns false. |
| `SimpleWorkManager.WaitForAllOfNothing` | src/test/java/org/apache/camel/component/commonj/SimpleWorkManager.java:52-65 | On an empty collection nothing is finished, so an IMMEDIATE waitForAll answers false and waitForAny collects nothing. The documented "all" would hold. |

## Left out

- `ExecutorServiceHelper`'s `newScheduledThreadPool`, `newFixedThreadPool`, `newSingleThreadExecutor` and `newCachedThreadPool` (WorkManagerExecutorServiceHelper.java:79-118), and the factory's `newCachedThreadPool` (WorkManagerThreadPoolFactory.java:42-46), are left out. Each hands a thread factory to a `java.util.concurrent.Executors` method and adds no logic of its own. The helper's thread factory is modelled by `NewThread`.
- Executor runtime behaviour is left out: worker spawning, keep-alive, blocking hand-off and rejection at capacity. A pool is only the record it is built from.
- `WorkManagerThreadFactory`, `RejectableThreadPoolExecutor`, `RejectableScheduledThreadPoolExecutor` and `SizedScheduledExecutorService` are not part of this model. They are recorded only by their constructor arguments.
- The package `WorkItem` that wraps the inner thread is not part of this model. Only its `release` calls are counted, and what `release` does is unknown.
- `getThreadName` (WorkManagerExecutorServiceHelper.java:66-68) calls into the framework. The name it produces is a parameter of `NewThread`.
- `WorkmanagerThreadFactory.toString` (WorkManagerExecutorServiceHelper.java:209-211) is left out. It is diagnostic text only.
- ThreadWrapper.WorkManagerThreadWrapper.Start: the model's work manager always accepts. An exception from `schedule` would leave start with `work` already assigned and propagate unchanged; that path is not modelled.
- ThreadPoolFactory.WorkManagerThreadPoolFactory.NewThreadPoolFromProfile: the profile's sizes are plain values. `ThreadPoolProfile` returns boxed values, and a null one would throw on unboxing; that is not modelled.
- SimpleWorkQueue.SimpleWorkQueue.Put: the `LinkedBlockingQueue()` holds at most `Integer.MAX_VALUE` items. A put into a full queue waits for space, which the model does not show; it appends.
- SimpleWorkQueue.SimpleWorkQueue.Take: the model requires a non-empty queue or an interrupted caller. An uninterrupted take from an empty queue waits for another thread, and a sequential model has none. An interrupt that arrives during that wait is left out for the same reason.
- SimpleWorkManager.SimpleWorkManager.WaitForAll and SimpleWorkManager.SimpleWorkManager.WaitForAny model one polling pass, not the whole clock-driven loop. The clock reading `currentTimeMillis() - start` is a parameter. The items are `DefaultWorkItem`s rather than any `WorkItem`.
- The `System.out` prints in `waitForAll` and all SLF4J logging are left out. They are output only.
- `synchronized`, `volatile` and the `synchronized (this)` block are left out: the model is sequential, so statuses do not change between or during passes.
- WorkItems.DefaultWorkItem.CompareTo: a `Comparable` work is modelled by an integer key with the usual order, because the user's `compareTo` is foreign code. The `ClassCastException` for an argument that is not a `WorkItem` is excluded by the parameter type.
- `Thread.interrupt` always sets the flag, as in Java 14 and later. Earlier JDKs may ignore an interrupt of a thread that was never started, and the bridge's inner thread is never started.
- `WorkManagerExecutorServiceStrategy.java` as a whole is left out. It is framework wiring: CamelContext, lifecycle and JMX notification, and identity-derived ids.

## Findings

| source | as written | input that shows it | evidently intended | confidence | as-written member | corrected member |
|---|---|---|---|---|---|---|
| src/test/java/org/apache/camel/component/commonj/SimpleWorkManager.java:52-62 | the pass stops and answers true at the first COMPLETED or REJECTED item | one COMPLETED and one ACCEPTED item: answers true | true only when all items are finished, as the method's documentation (lines 38-45) says | not executed; high | `SimpleWorkManager.WaitForAllDiscrepancyRun` | `SimpleWorkManager.SimpleWorkManager.WaitForAllCompleted` |
| src/test/java/org/apache/camel/component/commonj/DefaultWorkItem.java:54 | the argument of `compareTo` is this item's own work | works with keys 1 and 2: answers 0 both ways | compare with the other item's work `theWork`, which line 53 tests | not executed; high | `WorkItems.CompareToDiscrepancy` | `WorkItems.DefaultWorkItem.IntendedCompareTo` |
