/** The part of the Java platform the core touches: fixed-width integers,
    `TimeUnit`, and the handful of `java.lang.Thread` state the bridge and the
    thread factory read and write. */
module Jdk {
  import opened Wrappers

  /** Java `int`. */
  newtype int32 = x: int | -0x8000_0000 <= x < 0x8000_0000
  /** Java `long`. */
  newtype int64 = x: int | -0x8000_0000_0000_0000 <= x < 0x8000_0000_0000_0000

  const LONG_MAX_VALUE: int64 := 0x7FFF_FFFF_FFFF_FFFF

  datatype TimeUnit = Nanoseconds | Microseconds | Milliseconds | Seconds | Minutes | Hours | Days

  /** An opaque `Runnable` the caller hands to a thread factory. */
  datatype Runnable = Runnable(id: nat)

  /** An opaque `ClassLoader`. */
  datatype ClassLoader = ClassLoader(id: nat)

  /** A `java.lang.Thread` that is created but never started by this core. */
  class Thread {
    const target: Runnable
    const name: string
    var daemon: bool
    var interrupted: bool
    var contextClassLoader: Option<ClassLoader>

    /** `new Thread(target, name)`: a new thread inherits the daemon status
        and the context class loader of the thread that creates it. */
    constructor (target: Runnable, name: string, creator: Thread)
      ensures this.target == target && this.name == name
      ensures daemon == creator.daemon && contextClassLoader == creator.contextClassLoader
      ensures !interrupted
    {
      this.target := target;
      this.name := name;
      daemon := creator.daemon;
      interrupted := false;
      contextClassLoader := creator.contextClassLoader;
    }

    /** Sets the interrupt flag (the behaviour of Java 14 and later, also for
        a thread that was never started). */
    method Interrupt()
      modifies this`interrupted
      ensures interrupted
    {
      interrupted := true;
    }

    /** `Thread.interrupted()` applied to this thread: reports the flag and clears it. */
    method TestAndClearInterrupt() returns (was: bool)
      modifies this`interrupted
      ensures was == old(interrupted) && !interrupted
    {
      was := interrupted;
      interrupted := false;
    }

    function IsInterrupted(): bool
      reads this
    {
      interrupted
    }

    method SetDaemon(on: bool)
      modifies this`daemon
      ensures daemon == on
    {
      daemon := on;
    }

    function GetContextClassLoader(): Option<ClassLoader>
      reads this
    {
      contextClassLoader
    }

    method SetContextClassLoader(cl: Option<ClassLoader>)
      modifies this`contextClassLoader
      ensures contextClassLoader == cl
    {
      contextClassLoader := cl;
    }
  }
}
