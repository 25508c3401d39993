/** WorkManagerThreadPoolFactory.java: the pool variant whose threads come
    from a work-manager-backed thread factory. */
module ThreadPoolFactory {
  import opened Wrappers
  import opened Jdk
  import opened Pools
  import ThreadWrapper
  import ExecutorServiceHelper

  /** The size both pool sizes would be forced to for a hand-off pool with
      an empty core. */
  const FORCED_POOL_SIZE: int32 := 1

  class WorkManagerThreadPoolFactory {
    var workmanager: ThreadWrapper.WorkManager?

    constructor ()
      ensures workmanager == null
    {
      workmanager := null;
    }

    method SetWorkmanager(wm: ThreadWrapper.WorkManager?)
      modifies this
      ensures GetWorkmanager() == wm
    {
      workmanager := wm;
    }

    function GetWorkmanager(): (wm: ThreadWrapper.WorkManager?)
      reads this
      ensures wm == workmanager
    {
      workmanager
    }

    /** The seven-argument `newThreadPool`. The core size must be at least
        one (checked first), the maximum at least the core. A queue bound of
        zero or less means a hand-off queue, whatever the core size; a
        positive bound a queue of exactly that capacity. The branch that
        would force both sizes to one needs a core of zero, which the first
        check has already refused, so the sizes always arrive unchanged.
        Of the executor constructor's checks only the one on a negative
        keep-alive can still fail. */
    function NewThreadPool(corePoolSize: int32, maxPoolSize: int32, keepAliveTime: int64,
                           timeUnit: TimeUnit, maxQueueSize: int32,
                           handler: Option<RejectionHandler>,
                           threadFactory: ThreadFactoryRef): (r: Result<PoolConfig, InvalidConfig>)
      reads this
      ensures r.Failure? <==> corePoolSize < 1 || maxPoolSize < corePoolSize || keepAliveTime < 0
      ensures corePoolSize < 1 ==> r == Failure(CorePoolSizeBelowOne(corePoolSize))
      ensures 1 <= corePoolSize && maxPoolSize < corePoolSize ==>
                r == Failure(MaxBelowCore(maxPoolSize, corePoolSize))
      ensures 1 <= corePoolSize <= maxPoolSize && keepAliveTime < 0 ==>
                r == Failure(ExecutorRefuses(corePoolSize, maxPoolSize, keepAliveTime))
      ensures r.Success? ==>
        var c := r.value;
        && WellFormed(c)
        && c.executor == RejectableExecutor
        && c.corePoolSize == corePoolSize && c.maxPoolSize == maxPoolSize
        && c.keepAliveTime == keepAliveTime && c.timeUnit == timeUnit
        && (c.queue == SyncHandoff <==> maxQueueSize <= 0)
        && (c.queue.Bounded? <==> maxQueueSize > 0)
        && (c.queue.Bounded? ==> c.queue.capacity == maxQueueSize)
        && c.queue != Unbounded
        && (handler.None? ==> c.handler == CallerRunsPolicy)
        && (handler.Some? ==> c.handler == handler.value)
        && c.threadFactory == WorkManagerBacked(threadFactory, workmanager, true)
    {
      var factory := WorkManagerBacked(threadFactory, workmanager, true);
      var noBound := maxQueueSize <= 0;
      if corePoolSize < 1 then
        Failure(CorePoolSizeBelowOne(corePoolSize))
      else if maxPoolSize < corePoolSize then
        Failure(MaxBelowCore(maxPoolSize, corePoolSize))
      else
        var (queue, core, max) :=
          if corePoolSize == 0 && noBound then (SyncHandoff, FORCED_POOL_SIZE, FORCED_POOL_SIZE)
          else if noBound then (SyncHandoff, corePoolSize, maxPoolSize)
          else (Bounded(maxQueueSize), corePoolSize, maxPoolSize);
        if !ExecutorAccepts(core, max, keepAliveTime) then
          Failure(ExecutorRefuses(core, max, keepAliveTime))
        else
          Success(PoolConfig(RejectableExecutor, core, max, keepAliveTime, timeUnit,
                             queue, HandlerOrDefault(handler), factory))
    }

    /** The profile overload hands every profile setting on unchanged. */
    function NewThreadPoolFromProfile(profile: ThreadPoolProfile,
                                      threadFactory: ThreadFactoryRef): (r: Result<PoolConfig, InvalidConfig>)
      reads this
      ensures r.Failure? <==> profile.poolSize < 1 || profile.maxPoolSize < profile.poolSize || profile.keepAliveTime < 0
      ensures r.Success? ==>
        && r.value.corePoolSize == profile.poolSize
        && r.value.maxPoolSize == profile.maxPoolSize
        && r.value.keepAliveTime == profile.keepAliveTime
        && r.value.timeUnit == profile.timeUnit
        && r.value.handler == HandlerOrDefault(profile.rejectedExecutionHandler)
        && (profile.maxQueueSize > 0 ==> r.value.queue == Bounded(profile.maxQueueSize))
        && (profile.maxQueueSize <= 0 ==> r.value.queue == SyncHandoff)
    {
      NewThreadPool(profile.poolSize, profile.maxPoolSize, profile.keepAliveTime, profile.timeUnit,
                    profile.maxQueueSize, profile.rejectedExecutionHandler, threadFactory)
    }

    /** `newScheduledThreadPool`: a scheduled executor of the profile's pool
        size with the default handler substituted, wrapped in a sized
        wrapper bounded by the profile's queue size exactly when the
        profile's maximum pool size is positive. The factory validates
        nothing itself; the executor constructor refuses a negative pool size. */
    function NewScheduledThreadPool(profile: ThreadPoolProfile,
                                    threadFactory: ThreadFactoryRef): (r: Result<ScheduledPool, InvalidConfig>)
      reads this
      ensures r.Failure? <==> profile.poolSize < 0
      ensures r.Failure? ==> r.error == ExecutorRefuses(profile.poolSize, INTEGER_MAX_VALUE, 0)
      ensures r.Success? ==>
        var p := r.value;
        && (p.Sized? <==> profile.maxPoolSize > 0)
        && (p.Sized? ==> p.bound == profile.maxQueueSize)
        && p.executor.corePoolSize == profile.poolSize
        && (profile.rejectedExecutionHandler.None? ==> p.executor.handler == CallerRunsPolicy)
        && (profile.rejectedExecutionHandler.Some? ==>
              p.executor.handler == profile.rejectedExecutionHandler.value)
        && p.executor.threadFactory == WorkManagerBacked(threadFactory, workmanager, true)
    {
      var executor := ScheduledConfig(profile.poolSize, WorkManagerBacked(threadFactory, workmanager, true),
                                      HandlerOrDefault(profile.rejectedExecutionHandler));
      if !ScheduledExecutorAccepts(profile.poolSize) then
        Failure(ExecutorRefuses(profile.poolSize, INTEGER_MAX_VALUE, 0))
      else if profile.maxPoolSize > 0 then Success(Sized(executor, profile.maxQueueSize))
      else Success(Raw(executor))
    }
  }

  /** The two `newThreadPool` variants compared. Whatever the factory
      accepts, the helper accepts too, with the same sizes and handler. They
      pick the same queue exactly when a positive bound is given; with no
      bound the helper buffers up to Integer.MAX_VALUE tasks where the
      factory hands off. */
  lemma HelperAndFactoryVariantsDiffer(
      f: WorkManagerThreadPoolFactory, pattern: string, name: string,
      corePoolSize: int32, maxPoolSize: int32, keepAliveTime: int64, timeUnit: TimeUnit,
      maxQueueSize: int32, handler: Option<RejectionHandler>, threadFactory: ThreadFactoryRef)
    requires f.NewThreadPool(corePoolSize, maxPoolSize, keepAliveTime, timeUnit, maxQueueSize,
                             handler, threadFactory).Success?
    ensures
      var h := ExecutorServiceHelper.NewThreadPool(pattern, name, corePoolSize, maxPoolSize,
                                                   keepAliveTime, timeUnit, maxQueueSize, handler, true);
      var w := f.NewThreadPool(corePoolSize, maxPoolSize, keepAliveTime, timeUnit, maxQueueSize,
                               handler, threadFactory);
      && h.Success?
      && h.value.corePoolSize == w.value.corePoolSize && h.value.maxPoolSize == w.value.maxPoolSize
      && h.value.handler == w.value.handler
      && (h.value.queue == w.value.queue <==> maxQueueSize > 0)
      && (maxQueueSize <= 0 ==> h.value.queue == Unbounded && w.value.queue == SyncHandoff)
      && (maxQueueSize <= 0 ==> Buffering(h.value.queue) == INTEGER_MAX_VALUE as int && Buffering(w.value.queue) == 0)
  {
  }
}
