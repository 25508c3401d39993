/** What a thread pool is built from. The executors themselves (worker
    spawning, hand-off, rejection at capacity) belong to the JDK; a pool here
    is the configuration record handed to the executor's constructor and
    setters. */
module Pools {
  import opened Wrappers
  import opened Jdk
  import ThreadWrapper

  /** The task queue the executor is given. */
  datatype QueueKind =
    | SyncHandoff               // SynchronousQueue: no task is ever stored
    | Unbounded                 // LinkedBlockingQueue(), whose capacity is Integer.MAX_VALUE
    | Bounded(capacity: int32)  // LinkedBlockingQueue(capacity)

  /** A rejected-execution handler: the default `CallerRunsPolicy`, or one
      the caller supplied (opaque). */
  datatype RejectionHandler = CallerRunsPolicy | Supplied(id: nat)

  /** An opaque thread factory supplied by the caller. */
  datatype ThreadFactoryRef = ThreadFactoryRef(id: nat)

  /** The thread factory installed on an executor. `Named` is the helper's
      own factory (pattern, name, daemon flag). `WorkManagerBacked` is the
      thread pool factory's `WorkManagerThreadFactory`, a class that is not
      part of this model, recorded by its three constructor arguments. */
  datatype ThreadFactoryConfig =
    | Named(pattern: string, name: string, daemon: bool)
    | WorkManagerBacked(delegate: ThreadFactoryRef, workmanager: ThreadWrapper.WorkManager?, flag: bool)

  datatype ExecutorKind = PlainExecutor | RejectableExecutor

  datatype PoolConfig = PoolConfig(
    executor: ExecutorKind,
    corePoolSize: int32,
    maxPoolSize: int32,
    keepAliveTime: int64,
    timeUnit: TimeUnit,
    queue: QueueKind,
    handler: RejectionHandler,
    threadFactory: ThreadFactoryConfig)

  /** The `IllegalArgumentException`s raised by pool construction: the two
      the core's own validation throws, and the one the JDK executor
      constructor throws for arguments that validation lets through. */
  datatype InvalidConfig =
    | CorePoolSizeBelowOne(corePoolSize: int32)
    | MaxBelowCore(maxPoolSize: int32, corePoolSize: int32)
    | ExecutorRefuses(corePoolSize: int32, maxPoolSize: int32, keepAliveTime: int64)

  /** The arguments `new ThreadPoolExecutor(core, max, keepAlive, ...)`
      accepts (and `ScheduledThreadPoolExecutor`, which passes max
      Integer.MAX_VALUE and keep-alive 0). The Rejectable executors of
      the thread pool factory are taken to pass their arguments on to these
      constructors unchanged. */
  predicate ExecutorAccepts(corePoolSize: int32, maxPoolSize: int32, keepAliveTime: int64) {
    corePoolSize >= 0 && maxPoolSize > 0 && maxPoolSize >= corePoolSize && keepAliveTime >= 0
  }

  /** Java `Integer.MAX_VALUE`. */
  const INTEGER_MAX_VALUE: int32 := 0x7FFF_FFFF

  /** `if (handler == null) handler = new CallerRunsPolicy()`. */
  function HandlerOrDefault(given: Option<RejectionHandler>): RejectionHandler {
    given.GetOr(CallerRunsPolicy)
  }

  /** How many waiting tasks a queue can hold: none for a hand-off, the
      capacity for a bounded queue, and Integer.MAX_VALUE for the
      "unbounded" `LinkedBlockingQueue()`. So an unbounded queue buffers as
      much as `Bounded(Integer.MAX_VALUE)`; the helper's documentation treats
      a bound of Integer.MAX_VALUE and -1 alike. */
  function Buffering(q: QueueKind): int {
    match q
    case SyncHandoff => 0
    case Unbounded => INTEGER_MAX_VALUE as int
    case Bounded(n) => n as int
  }

  /** The constraints every configuration a pool is built from satisfies. */
  predicate WellFormed(c: PoolConfig) {
    ExecutorAccepts(c.corePoolSize, c.maxPoolSize, c.keepAliveTime) &&
    (c.queue.Bounded? ==> c.queue.capacity > 0)
  }

  /** A named thread-pool profile, read by the thread pool factory. */
  datatype ThreadPoolProfile = ThreadPoolProfile(
    poolSize: int32,
    maxPoolSize: int32,
    keepAliveTime: int64,
    timeUnit: TimeUnit,
    maxQueueSize: int32,
    rejectedExecutionHandler: Option<RejectionHandler>)

  /** The scheduled executor a profile is turned into. */
  datatype ScheduledConfig = ScheduledConfig(
    corePoolSize: int32,
    threadFactory: ThreadFactoryConfig,
    handler: RejectionHandler)

  /** The arguments `new ScheduledThreadPoolExecutor(poolSize, ...)` passes
      on to the executor constructor. */
  predicate ScheduledExecutorAccepts(poolSize: int32) {
    ExecutorAccepts(poolSize, INTEGER_MAX_VALUE, 0)
  }

  /** A scheduled pool, either returned as built or wrapped in a
      `SizedScheduledExecutorService` (not part of this model) with a bound. */
  datatype ScheduledPool =
    | Raw(executor: ScheduledConfig)
    | Sized(executor: ScheduledConfig, bound: int32)
}
