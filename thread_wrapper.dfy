/** The bridge from a locally created thread to a CommonJ work manager
    (WorkManagerThreadWrapper.java): instead of running, the wrapper hands its
    thread to the work manager as a unit of work, and forwards interrupt and
    destroy onto the work handle it keeps. */
module ThreadWrapper {
  import opened Wrappers
  import opened Jdk

  /** The CommonJ work manager as the bridge sees it: something that accepts
      work. Its ghost log records every submission, oldest first. */
  class WorkManager {
    ghost var scheduled: seq<WorkItem>

    constructor ()
      ensures scheduled == []
    {
      scheduled := [];
    }

    method Schedule(work: WorkItem)
      modifies this
      ensures scheduled == old(scheduled) + [work]
    {
      scheduled := scheduled + [work];
    }
  }

  /** The package's `WorkItem` work class, which wraps the inner thread. Only
      its `release` operation is visible to the bridge; a ghost counter
      records how often it was called. */
  class WorkItem {
    const thread: Thread
    ghost var releases: nat

    constructor (thread: Thread)
      ensures this.thread == thread && releases == 0
    {
      this.thread := thread;
      releases := 0;
    }

    method Release()
      modifies this
      ensures releases == old(releases) + 1
    {
      releases := releases + 1;
    }
  }

  class WorkManagerThreadWrapper {
    const wm: WorkManager
    const thread: Thread
    /** The handle of the most recent `start`, null before the first one. */
    var work: WorkItem?
    /** The wrapper's own `Thread.daemon` flag: `setDaemon` is not
        overridden, so it does not reach the wrapped thread. */
    var daemon: bool
    /** Every work item `start` created, oldest first. */
    ghost var started: seq<WorkItem>
    /** How many times `interrupt` was called. */
    ghost var interrupts: nat

    ghost predicate Valid()
      reads this
    {
      (work == null <==> started == []) &&
      (started != [] ==> work == started[|started| - 1])
    }

    /** `super()` makes the wrapper inherit the creating thread's daemon flag. */
    constructor (wm: WorkManager, thread: Thread, creator: Thread)
      ensures Valid()
      ensures this.wm == wm && this.thread == thread && daemon == creator.daemon
      ensures work == null && started == [] && interrupts == 0
    {
      this.wm := wm;
      this.thread := thread;
      daemon := creator.daemon;
      work := null;
      started := [];
      interrupts := 0;
    }

    /** Releases the current work item if `start` has happened; otherwise
        does nothing. The field is not cleared, so every call after a
        `start` releases the same item once more. */
    method Destroy()
      requires Valid()
      modifies work
      ensures Valid()
      ensures work != null ==> work.releases == old(work.releases) + 1
    {
      if work != null {
        work.Release();
      }
    }

    /** The inherited `Thread.setDaemon`, acting on the wrapper object. */
    method SetDaemon(on: bool)
      modifies this`daemon
      ensures daemon == on
    {
      daemon := on;
    }

    function GetContextClassLoader(): Option<ClassLoader>
      reads thread
      ensures GetContextClassLoader() == thread.contextClassLoader
    {
      thread.GetContextClassLoader()
    }

    /** Releases the current work item if there is one, and in every case
        interrupts the wrapped thread. */
    method Interrupt()
      requires Valid()
      modifies this`interrupts, work, thread`interrupted
      ensures Valid()
      ensures work != null ==> work.releases == old(work.releases) + 1
      ensures thread.interrupted && interrupts == old(interrupts) + 1
    {
      if work != null {
        work.Release();
      }
      thread.Interrupt();
      interrupts := interrupts + 1;
    }

    /** The wrapped thread's interrupt flag, not the wrapper's own. */
    function IsInterrupted(): (r: bool)
      reads thread
      ensures r == thread.interrupted
    {
      thread.IsInterrupted()
    }

    method SetContextClassLoader(cl: Option<ClassLoader>)
      modifies thread`contextClassLoader
      ensures GetContextClassLoader() == cl
    {
      thread.SetContextClassLoader(cl);
    }

    /** Wraps the inner thread in a new work item, remembers it and schedules
        it. There is no guard: a second call schedules a second item and the
        field then holds the newer one. */
    method Start()
      requires Valid()
      modifies this`work, this`started, wm
      ensures Valid()
      ensures work != null && fresh(work) && work.thread == thread && work.releases == 0
      ensures started == old(started) + [work]
      ensures wm.scheduled == old(wm.scheduled) + [work]
    {
      work := new WorkItem(thread);
      started := started + [work];
      wm.Schedule(work);
    }
  }
}
