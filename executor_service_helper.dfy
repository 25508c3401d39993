/** WorkManagerExecutorServiceHelper.java: the self-managed pool variant and
    the naming thread factory that bridges its threads to a work manager
    whenever one has been configured. */
module ExecutorServiceHelper {
  import opened Wrappers
  import opened Jdk
  import opened Pools
  import opened ThreadWrapper

  /** The full `newThreadPool`: validates `max >= core`, then chooses the
      queue (hand-off only for an empty core with no queue bound, unbounded
      for a non-empty core with no bound, otherwise bounded by
      `maxQueueSize`) and the rejection handler. Sizes are never adjusted.
      The executor constructor then refuses a negative core, a maximum of
      zero and a negative keep-alive. */
  function NewThreadPool(pattern: string, name: string, corePoolSize: int32, maxPoolSize: int32,
                         keepAliveTime: int64, timeUnit: TimeUnit, maxQueueSize: int32,
                         handler: Option<RejectionHandler>, daemon: bool): (r: Result<PoolConfig, InvalidConfig>)
    ensures r.Failure? <==> maxPoolSize < corePoolSize || !ExecutorAccepts(corePoolSize, maxPoolSize, keepAliveTime)
    ensures maxPoolSize < corePoolSize ==> r == Failure(MaxBelowCore(maxPoolSize, corePoolSize))
    ensures corePoolSize <= maxPoolSize && !ExecutorAccepts(corePoolSize, maxPoolSize, keepAliveTime) ==>
              r == Failure(ExecutorRefuses(corePoolSize, maxPoolSize, keepAliveTime))
    ensures r.Success? ==>
      var c := r.value;
      && WellFormed(c)
      && c.executor == PlainExecutor
      && c.corePoolSize == corePoolSize && c.maxPoolSize == maxPoolSize
      && c.keepAliveTime == keepAliveTime && c.timeUnit == timeUnit
      && (c.queue == SyncHandoff <==> corePoolSize == 0 && maxQueueSize <= 0)
      && (c.queue == Unbounded <==> corePoolSize != 0 && maxQueueSize <= 0)
      && (c.queue.Bounded? <==> maxQueueSize > 0)
      && (c.queue.Bounded? ==> c.queue.capacity == maxQueueSize)
      && (handler.None? ==> c.handler == CallerRunsPolicy)
      && (handler.Some? ==> c.handler == handler.value)
      && c.threadFactory == Named(pattern, name, daemon)
  {
    if maxPoolSize < corePoolSize then
      Failure(MaxBelowCore(maxPoolSize, corePoolSize))
    else if !ExecutorAccepts(corePoolSize, maxPoolSize, keepAliveTime) then
      Failure(ExecutorRefuses(corePoolSize, maxPoolSize, keepAliveTime))
    else
      var queue :=
        if corePoolSize == 0 && maxQueueSize <= 0 then SyncHandoff
        else if maxQueueSize <= 0 then Unbounded
        else Bounded(maxQueueSize);
      Success(PoolConfig(PlainExecutor, corePoolSize, maxPoolSize, keepAliveTime, timeUnit,
                         queue, HandlerOrDefault(handler), Named(pattern, name, daemon)))
  }

  /** The four-argument `newThreadPool`: 60 seconds keep-alive, no queue
      bound, caller-runs rejection and daemon threads. Despite its
      documentation's "unbounded queue", an empty core gets a hand-off. */
  function NewThreadPoolWithDefaults(pattern: string, name: string, corePoolSize: int32,
                                     maxPoolSize: int32): (r: Result<PoolConfig, InvalidConfig>)
    ensures r.Failure? <==> maxPoolSize < corePoolSize || corePoolSize < 0 || maxPoolSize <= 0
    ensures r.Success? ==>
      && r.value.corePoolSize == corePoolSize && r.value.maxPoolSize == maxPoolSize
      && r.value.keepAliveTime == 60 && r.value.timeUnit == Seconds
      && r.value.queue == (if corePoolSize == 0 then SyncHandoff else Unbounded)
      && r.value.handler == CallerRunsPolicy
      && r.value.threadFactory == Named(pattern, name, true)
  {
    NewThreadPool(pattern, name, corePoolSize, maxPoolSize, 60, Seconds, -1, Some(CallerRunsPolicy), true)
  }

  /** Passing the default handler explicitly, as the four-argument overload
      does, is the same as passing none. */
  lemma DefaultsOverloadIsFullOverload(pattern: string, name: string, corePoolSize: int32, maxPoolSize: int32)
    ensures NewThreadPoolWithDefaults(pattern, name, corePoolSize, maxPoolSize)
         == NewThreadPool(pattern, name, corePoolSize, maxPoolSize, 60, Seconds, -1, None, true)
  {
  }

  /** The class's static `workmanager` field, as one object that every
      thread factory shares. */
  class StaticState {
    var workmanager: WorkManager?

    constructor ()
      ensures workmanager == null
    {
      workmanager := null;
    }

    method SetWorkmanager(wm: WorkManager?)
      modifies this
      ensures workmanager == wm
    {
      workmanager := wm;
    }
  }

  /** What `newThread` returns: a bridge around a fresh thread, or the
      fresh thread itself. */
  datatype CreatedThread = Bridged(wrapper: WorkManagerThreadWrapper) | Local(thread: Thread)

  class WorkmanagerThreadFactory {
    const pattern: string
    const name: string
    const daemon: bool
    const statics: StaticState

    constructor (pattern: string, name: string, daemon: bool, statics: StaticState)
      ensures this.pattern == pattern && this.name == name && this.daemon == daemon
      ensures this.statics == statics
    {
      this.pattern := pattern;
      this.name := name;
      this.daemon := daemon;
      this.statics := statics;
    }

    /** Creates a thread named `threadName` (the value the framework's
        `getThreadName(pattern, name)` returns) running `runnable`, wraps it
        in a bridge exactly when a work manager is configured, and sets the
        daemon flag on the object it returns. For a bridge that is the
        wrapper's own flag: the inner thread keeps the creator's. */
    method NewThread(runnable: Runnable, threadName: string, creator: Thread) returns (t: CreatedThread)
      ensures t.Bridged? <==> statics.workmanager != null
      ensures t.Bridged? ==>
        && fresh(t.wrapper) && fresh(t.wrapper.thread)
        && t.wrapper.Valid() && t.wrapper.work == null
        && t.wrapper.wm == statics.workmanager
        && t.wrapper.daemon == daemon
        && t.wrapper.thread.target == runnable && t.wrapper.thread.name == threadName
        && t.wrapper.thread.daemon == creator.daemon && !t.wrapper.thread.interrupted
      ensures t.Local? ==>
        && fresh(t.thread)
        && t.thread.daemon == daemon
        && t.thread.target == runnable && t.thread.name == threadName
        && !t.thread.interrupted
    {
      var inner := new Thread(runnable, threadName, creator);
      if statics.workmanager != null {
        var wrapper := new WorkManagerThreadWrapper(statics.workmanager, inner, creator);
        wrapper.SetDaemon(daemon);
        t := Bridged(wrapper);
      } else {
        inner.SetDaemon(daemon);
        t := Local(inner);
      }
    }
  }
}
