/** The in-memory work item and work event of the test-side work manager
    (DefaultWorkItem.java, DefaultWorkEvent.java), with the CommonJ status
    codes they use. */
module WorkItems {
  import opened Wrappers
  import opened Jdk

  // The status codes of commonj.work.WorkEvent.
  const WORK_ACCEPTED: int32 := 1
  const WORK_REJECTED: int32 := 2
  const WORK_STARTED: int32 := 3
  const WORK_COMPLETED: int32 := 4

  predicate KnownStatus(s: int32) {
    s == WORK_ACCEPTED || s == WORK_REJECTED || s == WORK_STARTED || s == WORK_COMPLETED
  }

  /** A status the waits treat as done. */
  predicate Finished(s: int32) {
    s == WORK_COMPLETED || s == WORK_REJECTED
  }

  /** A unit of work as the item sees it: what its `toString()` returns, and
      the key it is ordered by when it is `Comparable` (None when it is not). */
  datatype Work = Work(text: string, key: Option<int>)

  /** A `WorkException`; the only cause the core creates is an interrupted wait. */
  datatype WorkException = InterruptedWait | OtherCause(id: nat)

  /** DefaultWorkEvent: all three fields are final, so the event is a value
      (None stands for a null exception). */
  datatype DefaultWorkEvent = DefaultWorkEvent(eventType: int32, workItem: DefaultWorkItem,
                                               exception: Option<WorkException>)
  {
    function GetType(): (t: int32) { eventType }
    function GetWorkItem(): (item: DefaultWorkItem) { workItem }
    function GetException(): (e: Option<WorkException>) { exception }
  }

  /** An event answers its getters with exactly what it was built from, and
      two events that answer alike are the same event. */
  lemma {:induction false} WorkEventGettersRoundTrip(t: int32, item: DefaultWorkItem, e: Option<WorkException>,
                                                     other: DefaultWorkEvent)
    ensures var ev := DefaultWorkEvent(t, item, e);
      ev.GetType() == t && ev.GetWorkItem() == item && ev.GetException() == e
    ensures other == DefaultWorkEvent(other.GetType(), other.GetWorkItem(), other.GetException())
  {
  }

  /** The four callbacks of a `WorkListener`. */
  datatype Callback = WorkAccepted | WorkRejected | WorkStarted | WorkCompleted

  /** The status each callback announces. */
  function CallbackStatus(c: Callback): int32 {
    match c
    case WorkAccepted => WORK_ACCEPTED
    case WorkRejected => WORK_REJECTED
    case WorkStarted => WORK_STARTED
    case WorkCompleted => WORK_COMPLETED
  }

  /** One callback invocation: which callback, with which event. */
  datatype Notification = Notification(callback: Callback, event: DefaultWorkEvent)

  /** What `setStatus(s, exception)` tells a listener: the one callback
      announcing `s`, with an event carrying `(s, item, exception)`, or
      nothing for a status outside the four known ones. */
  function Dispatch(s: int32, item: DefaultWorkItem, exception: Option<WorkException>): (r: seq<Notification>)
    ensures |r| <= 1
    ensures |r| == 1 <==> KnownStatus(s)
    ensures |r| == 1 ==> CallbackStatus(r[0].callback) == s
    ensures |r| == 1 ==> r[0].event == DefaultWorkEvent(s, item, exception)
  {
    var event := DefaultWorkEvent(s, item, exception);
    if s == WORK_ACCEPTED then [Notification(WorkAccepted, event)]
    else if s == WORK_REJECTED then [Notification(WorkRejected, event)]
    else if s == WORK_STARTED then [Notification(WorkStarted, event)]
    else if s == WORK_COMPLETED then [Notification(WorkCompleted, event)]
    else []
  }

  /** A `WorkListener`. Its callbacks are user code; this one records every
      call it receives, in order. */
  class WorkListener {
    var received: seq<Notification>

    constructor ()
      ensures received == []
    {
      received := [];
    }

    method Notify(n: Notification)
      modifies this
      ensures received == old(received) + [n]
    {
      received := received + [n];
    }
  }

  /** The name `toString` gives each known status. */
  function StatusName(s: int32): (r: Option<string>)
    ensures r.Some? <==> KnownStatus(s)
    ensures r.Some? ==> StatusFromName(r.value) == Some(s)
  {
    if s == WORK_ACCEPTED then Some("WORK_ACCEPTED")
    else if s == WORK_COMPLETED then Some("WORK_COMPLETED")
    else if s == WORK_REJECTED then Some("WORK_REJECTED")
    else if s == WORK_STARTED then Some("WORK_STARTED")
    else None
  }

  /** Reads a status name back: the inverse of StatusName. */
  function StatusFromName(name: string): Option<int32> {
    if name == "WORK_ACCEPTED" then Some(WORK_ACCEPTED)
    else if name == "WORK_COMPLETED" then Some(WORK_COMPLETED)
    else if name == "WORK_REJECTED" then Some(WORK_REJECTED)
    else if name == "WORK_STARTED" then Some(WORK_STARTED)
    else None
  }

  /** Status names and status codes correspond one to one, in both directions. */
  lemma StatusNamesRoundTrip(s: int32, name: string)
    ensures StatusName(s).Some? <==> KnownStatus(s)
    ensures StatusName(s).Some? ==> StatusFromName(StatusName(s).value) == Some(s)
    ensures StatusFromName(name).Some? ==> StatusName(StatusFromName(name).value) == Some(name)
  {
  }

  /** `toString` fails with an `IllegalArgumentException` for an unknown status. */
  datatype UnknownStatus = UnknownStatus(status: int32)

  /** Java's three-way result, for keys of a `Comparable` work. */
  function Compare(a: int, b: int): int {
    if a < b then -1 else if a == b then 0 else 1
  }

  class DefaultWorkItem {
    var status: int32
    const work: Work
    const listener: WorkListener?

    constructor (work: Work, listener: WorkListener?)
      ensures status == WORK_ACCEPTED
      ensures GetResult() == work && this.listener == listener
    {
      this.work := work;
      this.listener := listener;
      status := WORK_ACCEPTED;
    }

    /** The work this item was created for, unchanged. */
    function GetResult(): (w: Work)
      ensures w == work
    {
      work
    }

    /** The status most recently stored. */
    function GetStatus(): (r: int32)
      reads this
      ensures r == status
    {
      status
    }

    /** Stores the status; then, when there is a listener, fires the
        callback that matches it. */
    method SetStatus(s: int32, exception: Option<WorkException>)
      modifies this`status, listener
      ensures GetStatus() == s
      ensures listener != null ==> listener.received == old(listener.received) + Dispatch(s, this, exception)
    {
      status := s;
      if listener != null {
        var event := DefaultWorkEvent(s, this, exception);
        if s == WORK_ACCEPTED {
          listener.Notify(Notification(WorkAccepted, event));
        } else if s == WORK_REJECTED {
          listener.Notify(Notification(WorkRejected, event));
        } else if s == WORK_STARTED {
          listener.Notify(Notification(WorkStarted, event));
        } else if s == WORK_COMPLETED {
          listener.Notify(Notification(WorkCompleted, event));
        }
      }
    }

    /** `work.toString() + ":" + name-of-status`, or an error for an
        unknown status. The part after the work's text names the status. */
    function ToString(): (r: Result<string, UnknownStatus>)
      reads this
      ensures r.Failure? <==> !KnownStatus(status)
      ensures r.Failure? ==> r.error == UnknownStatus(status)
      ensures r.Success? ==>
        && |r.value| > |work.text| + 1
        && r.value[..|work.text| + 1] == work.text + ":"
        && StatusFromName(r.value[|work.text| + 1..]) == Some(status)
    {
      match StatusName(status)
      case Some(name) =>
        assert (work.text + ":" + name)[|work.text| + 1..] == name;
        Success(work.text + ":" + name)
      case None => Failure(UnknownStatus(status))
    }

    /** `compareTo` as written: when both works are `Comparable` it compares
        this item's work with itself, so the answer is always 0. */
    function CompareTo(other: DefaultWorkItem): (r: int)
      ensures r == 0
    {
      var theWork := other.work;
      if work.key.Some? && theWork.key.Some? then Compare(work.key.value, work.key.value) else 0
    }

    /** `compareTo` as evidently intended: this item's work against the
        other item's work. */
    function IntendedCompareTo(other: DefaultWorkItem): (r: int)
      ensures work.key.Some? && other.work.key.Some? ==>
                (r < 0 <==> work.key.value < other.work.key.value) &&
                (r == 0 <==> work.key.value == other.work.key.value)
      ensures work.key.None? || other.work.key.None? ==> r == 0
    {
      var theWork := other.work;
      if work.key.Some? && theWork.key.Some? then Compare(work.key.value, theWork.key.value) else 0
    }
  }

  /** The intended order is antisymmetric; the written one fails to order
      two works with different keys. */
  lemma CompareToDiscrepancy(a: DefaultWorkItem, b: DefaultWorkItem)
    requires a.work.key == Some(1) && b.work.key == Some(2)
    ensures a.CompareTo(b) == 0 && b.CompareTo(a) == 0
    ensures a.IntendedCompareTo(b) == -1 && b.IntendedCompareTo(a) == 1
  {
  }

  lemma IntendedCompareToAntisymmetric(a: DefaultWorkItem, b: DefaultWorkItem)
    ensures a.IntendedCompareTo(b) == -b.IntendedCompareTo(a)
  {
  }
}
