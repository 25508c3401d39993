/** SimpleWorkManager.java: the in-memory CommonJ work manager used by the
    tests. Scheduling enqueues a new item; the waits poll the items'
    statuses. Each wait is modelled as one polling pass; the clock that
    drives the repetition is a parameter. */
module SimpleWorkManager {
  import opened Wrappers
  import opened Jdk
  import opened WorkItems
  import opened SimpleWorkQueue

  // The timeouts of commonj.work.WorkManager with a special meaning.
  const IMMEDIATE: int64 := 0
  const INDEFINITE: int64 := LONG_MAX_VALUE

  /** The outcome of one polling pass: return `value` now, or poll again. */
  datatype Step<T> = Return(value: T) | Again

  predicate AnyFinished(items: seq<DefaultWorkItem>)
    reads items
  {
    exists i :: 0 <= i < |items| && Finished(items[i].status)
  }

  predicate AllFinished(items: seq<DefaultWorkItem>)
    reads items
  {
    forall i :: 0 <= i < |items| ==> Finished(items[i].status)
  }

  /** The finished items, in iteration order. */
  function FinishedItems(items: seq<DefaultWorkItem>): (r: seq<DefaultWorkItem>)
    reads items
    ensures |r| <= |items|
    ensures forall x :: x in r ==> x in items && Finished(x.status)
  {
    if items == [] then []
    else
      var init := items[..|items| - 1];
      var last := items[|items| - 1];
      assert forall x :: x in init ==> x in items;
      FinishedItems(init) + (if Finished(last.status) then [last] else [])
  }

  /** Every finished item is collected, so the collection is empty exactly
      when no item is finished. */
  lemma {:induction false} FinishedItemsComplete(items: seq<DefaultWorkItem>)
    ensures forall i :: 0 <= i < |items| && Finished(items[i].status) ==> items[i] in FinishedItems(items)
    ensures FinishedItems(items) == [] <==> !AnyFinished(items)
  {
    if items != [] {
      var init := items[..|items| - 1];
      FinishedItemsComplete(init);
      assert forall i :: 0 <= i < |init| ==> init[i] == items[i];
      if AnyFinished(items) && !Finished(items[|items| - 1].status) {
        var i :| 0 <= i < |items| && Finished(items[i].status);
        assert AnyFinished(init) by { assert Finished(init[i].status); }
      }
    }
  }

  class SimpleWorkManager {
    const workQueue: SimpleWorkQueue

    constructor ()
      ensures fresh(workQueue) && workQueue.items == []
    {
      workQueue := new SimpleWorkQueue();
    }

    /** `schedule(work)` is `schedule(work, null)`. */
    method Schedule(work: Work, current: Thread) returns (item: DefaultWorkItem)
      modifies workQueue, current`interrupted
      ensures fresh(item) && item.GetResult() == work && item.listener == null
      ensures !old(current.interrupted) ==>
        item.GetStatus() == WORK_ACCEPTED && workQueue.items == old(workQueue.items) + [item] && !current.interrupted
      ensures old(current.interrupted) ==>
        item.GetStatus() == WORK_REJECTED && workQueue.items == old(workQueue.items) && current.interrupted
    {
      item := ScheduleWithListener(work, null, current);
    }

    /** Builds an accepted item for `work`, with no listener (the given one
        is dropped), and appends it to the queue. When the enqueue is
        interrupted the item is marked rejected instead, and the caller's
        interrupt flag is set again. */
    method ScheduleWithListener(work: Work, workListener: WorkListener?, current: Thread) returns (item: DefaultWorkItem)
      modifies workQueue, current`interrupted
      ensures fresh(item) && item.GetResult() == work && item.listener == null
      ensures !old(current.interrupted) ==>
        item.GetStatus() == WORK_ACCEPTED && workQueue.items == old(workQueue.items) + [item] && !current.interrupted
      ensures old(current.interrupted) ==>
        item.GetStatus() == WORK_REJECTED && workQueue.items == old(workQueue.items) && current.interrupted
    {
      item := new DefaultWorkItem(work, null);
      var ok := workQueue.Put(item, current);
      if !ok {
        item.SetStatus(WORK_REJECTED, Some(InterruptedWait));
        current.Interrupt();
      }
    }

    /** The scan inside `waitForAll`: it stops at the first item that is
        completed or rejected, so it reports whether ANY item is finished. */
    method ScanForFinished(workItems: seq<DefaultWorkItem>) returns (isAllCompleted: bool)
      ensures isAllCompleted <==> AnyFinished(workItems)
    {
      isAllCompleted := false;
      var i := 0;
      while i < |workItems| && !isAllCompleted
        invariant 0 <= i <= |workItems|
        invariant !isAllCompleted ==> forall j :: 0 <= j < i ==> !Finished(workItems[j].status)
        invariant isAllCompleted ==> 0 < i && Finished(workItems[i - 1].status)
      {
        var status := workItems[i].GetStatus();
        isAllCompleted := status == WORK_COMPLETED || status == WORK_REJECTED;
        i := i + 1;
      }
    }

    /** One pass of `waitForAll`. `elapsed` is the clock difference the
        loop condition reads. True as soon as one item is finished, despite
        the documented "all"; otherwise false at once for IMMEDIATE, and
        otherwise another pass while time remains. An INDEFINITE timeout
        continues to the same loop condition. */
    method WaitForAll(workItems: seq<DefaultWorkItem>, timeout: int64, elapsed: int64) returns (step: Step<bool>)
      ensures step == Return(true) <==> AnyFinished(workItems)
      ensures !AnyFinished(workItems) && timeout == IMMEDIATE ==> step == Return(false)
      ensures !AnyFinished(workItems) && timeout != IMMEDIATE ==>
                step == (if elapsed < timeout then Again else Return(false))
    {
      var isAllCompleted := ScanForFinished(workItems);
      if isAllCompleted {
        return Return(true);
      }
      if timeout == IMMEDIATE {
        return Return(false);
      }
      if timeout == INDEFINITE {
        step := if elapsed < timeout then Again else Return(false);
        return;
      }
      step := if elapsed < timeout then Again else Return(false);
    }

    /** The collection inside `waitForAny`: every completed or rejected
        item, in iteration order. */
    method CollectFinished(workItems: seq<DefaultWorkItem>) returns (completed: seq<DefaultWorkItem>)
      ensures completed == FinishedItems(workItems)
    {
      completed := [];
      var i := 0;
      while i < |workItems|
        invariant 0 <= i <= |workItems|
        invariant completed == FinishedItems(workItems[..i])
      {
        var workItem := workItems[i];
        assert workItems[..i + 1][..i] == workItems[..i];
        if workItem.GetStatus() == WORK_COMPLETED || workItem.GetStatus() == WORK_REJECTED {
          completed := completed + [workItem];
        }
        i := i + 1;
      }
      assert workItems[..i] == workItems;
    }

    /** One pass of `waitForAny`: the finished items when there is at
        least one; otherwise the empty list at once for IMMEDIATE, and
        otherwise another pass while time remains. */
    method WaitForAny(workItems: seq<DefaultWorkItem>, timeout: int64, elapsed: int64)
      returns (step: Step<seq<DefaultWorkItem>>)
      ensures AnyFinished(workItems) ==> step == Return(FinishedItems(workItems))
      ensures step.Return? && step.value != [] ==> AnyFinished(workItems)
      ensures step.Return? ==> forall x :: x in step.value ==> x in workItems && Finished(x.status)
      ensures !AnyFinished(workItems) && timeout == IMMEDIATE ==> step == Return([])
      ensures !AnyFinished(workItems) && timeout != IMMEDIATE ==>
                step == (if elapsed < timeout then Again else Return([]))
    {
      var completed := CollectFinished(workItems);
      FinishedItemsComplete(workItems);
      if completed != [] {
        return Return(completed);
      }
      if timeout == IMMEDIATE {
        return Return([]);
      }
      if timeout == INDEFINITE {
        step := if elapsed < timeout then Again else Return([]);
        return;
      }
      step := if elapsed < timeout then Again else Return([]);
    }

    /** `waitForAll` as its documentation describes it: true only when
        every item is finished. */
    method ScanAllFinished(workItems: seq<DefaultWorkItem>) returns (allCompleted: bool)
      ensures allCompleted <==> AllFinished(workItems)
    {
      allCompleted := true;
      var i := 0;
      while i < |workItems| && allCompleted
        invariant 0 <= i <= |workItems|
        invariant allCompleted ==> forall j :: 0 <= j < i ==> Finished(workItems[j].status)
        invariant !allCompleted ==> 0 < i && !Finished(workItems[i - 1].status)
      {
        var status := workItems[i].GetStatus();
        allCompleted := status == WORK_COMPLETED || status == WORK_REJECTED;
        i := i + 1;
      }
    }

    /** One pass of the intended `waitForAll`. */
    method WaitForAllCompleted(workItems: seq<DefaultWorkItem>, timeout: int64, elapsed: int64)
      returns (step: Step<bool>)
      ensures step == Return(true) <==> AllFinished(workItems)
      ensures !AllFinished(workItems) ==>
                step == (if timeout != IMMEDIATE && elapsed < timeout then Again else Return(false))
    {
      var allCompleted := ScanAllFinished(workItems);
      if allCompleted {
        return Return(true);
      }
      if timeout == IMMEDIATE {
        return Return(false);
      }
      step := if elapsed < timeout then Again else Return(false);
    }
  }

  /** One finished item and one that is still accepted: the written
      `waitForAll` pass says true, the documented one says not yet. */
  lemma WaitForAllDiscrepancy(done: DefaultWorkItem, pending: DefaultWorkItem)
    requires done.status == WORK_COMPLETED && pending.status == WORK_ACCEPTED
    ensures AnyFinished([done, pending]) && !AllFinished([done, pending])
  {
    assert Finished([done, pending][0].status);
    assert !Finished([done, pending][1].status);
  }

  /** The same two items handed to both passes with an IMMEDIATE timeout:
      the written `waitForAll` returns true, the documented one false. */
  method WaitForAllDiscrepancyRun(m: SimpleWorkManager, done: DefaultWorkItem, pending: DefaultWorkItem)
    returns (written: Step<bool>, documented: Step<bool>)
    requires done.status == WORK_COMPLETED && pending.status == WORK_ACCEPTED
    ensures written == Return(true) && documented == Return(false)
  {
    WaitForAllDiscrepancy(done, pending);
    written := m.WaitForAll([done, pending], IMMEDIATE, 0);
    documented := m.WaitForAllCompleted([done, pending], IMMEDIATE, 0);
  }

  /** With no items, the written pass finds nothing finished (so an
      IMMEDIATE wait answers false), while the documented "all" holds. */
  lemma WaitForAllOfNothing()
    ensures !AnyFinished([]) && AllFinished([]) && FinishedItems([]) == []
  {
  }
}
