/** SourceBufferQueue: a first-in first-out queue of append, remove and drop
    requests in front of one Media Source Extensions SourceBuffer, which
    accepts one request at a time and reports its progress through
    updatestart and updateend events. */
module SourceBufferQueueModel {
  import opened Common

  /** A call the queue makes on the SourceBuffer. `None` as an end time is
      +Infinity. */
  datatype SinkCall = AppendCall(bytes: seq<byte>) | RemoveCall(start: real, end: Option<real>) | AbortCall

  /** A TrackDefaultList, known only by its identity. */
  datatype TrackDefaults = TrackDefaults(id: nat)

  /** The SourceBuffer as the queue sees it: whether it is busy with an
      append or a remove, its timestamp offset (`None` once the queue has
      assigned undefined), its mode, its track defaults and the calls it
      has received. */
  class SourceBuffer {
    var updating: bool
    var timestampOffset: Option<real>
    var mode: string
    var trackDefaults: Option<TrackDefaults>
    var calls: seq<SinkCall>

    constructor(mode: string)
      ensures !updating && timestampOffset == Some(0.0) && this.mode == mode && calls == []
      ensures trackDefaults == None
    {
      updating := false;
      timestampOffset := Some(0.0);
      this.mode := mode;
      trackDefaults := None;
      calls := [];
    }

    /** appendBuffer: only allowed while idle; the buffer is then busy. */
    method AppendBuffer(bytes: seq<byte>)
      requires !updating
      modifies this
      ensures updating && calls == old(calls) + [AppendCall(bytes)]
      ensures timestampOffset == old(timestampOffset) && mode == old(mode) && trackDefaults == old(trackDefaults)
    {
      updating := true;
      calls := calls + [AppendCall(bytes)];
    }

    /** remove: only allowed while idle; the buffer is then busy. */
    method Remove(start: real, end: Option<real>)
      requires !updating
      modifies this
      ensures updating && calls == old(calls) + [RemoveCall(start, end)]
      ensures timestampOffset == old(timestampOffset) && mode == old(mode) && trackDefaults == old(trackDefaults)
    {
      updating := true;
      calls := calls + [RemoveCall(start, end)];
    }

    /** abort: ends the current update. */
    method Abort()
      modifies this
      ensures !updating && calls == old(calls) + [AbortCall]
      ensures timestampOffset == old(timestampOffset) && mode == old(mode) && trackDefaults == old(trackDefaults)
    {
      updating := false;
      calls := calls + [AbortCall];
    }
  }

  /** A queued request: the method it will call and that call's arguments. */
  datatype Item =
    | AppendItem(arrayBuffer: seq<byte>, timestampOffset: Option<real>)
    | RemoveItem(start: real, end: Option<real>)
    | DropItem

  /** The `method` field of a queued item. */
  function MethodName(item: Item): string
  {
    match item
    case AppendItem(_, _) => "appendBuffer"
    case RemoveItem(_, _) => "remove"
    case DropItem => "drop"
  }

  /** The timestamp offset the dispatch assigns: an item without one
      assigns undefined. */
  function OffsetOf(item: Item): Option<real>
  {
    if item.AppendItem? then item.timestampOffset else None
  }

  /** What the SourceBuffer receives when an item is dispatched. */
  function CallsOf(item: Item): seq<SinkCall>
  {
    match item
    case AppendItem(bytes, _) => [AppendCall(bytes)]
    case RemoveItem(start, end) => [RemoveCall(start, end)]
    case DropItem => []
  }

  /** The queue once its head is dispatched: a drop also clears everything
      queued behind it. */
  function AfterDispatch(queue: seq<Item>): (rest: seq<Item>)
    requires queue != []
    ensures queue[0] != DropItem ==> rest == queue[1..]
    ensures queue[0] == DropItem ==> rest == []
  {
    if queue[0] == DropItem then [] else queue[1..]
  }

  /** The items that go out, in order, when every update completes before
      the next dispatch attempt and nothing new is queued. */
  function Drain(queue: seq<Item>): (out: seq<Item>)
    decreases |queue|
  {
    if queue == [] then [] else [queue[0]] + Drain(AfterDispatch(queue))
  }

  /** Items go out in the order they were queued: what drains is a prefix
      of the queue. */
  lemma {:induction false} DrainIsPrefix(queue: seq<Item>)
    ensures Drain(queue) <= queue
    decreases |queue|
  {
    if queue != [] {
      DrainIsPrefix(AfterDispatch(queue));
      if queue[0] != DropItem {
        assert queue == [queue[0]] + queue[1..];
      }
    }
  }

  /** Without a drop every queued item goes out. */
  lemma {:induction false} DrainWithoutDrops(queue: seq<Item>)
    requires forall k :: 0 <= k < |queue| ==> queue[k] != DropItem
    ensures Drain(queue) == queue
    decreases |queue|
  {
    if queue != [] {
      DrainWithoutDrops(queue[1..]);
      assert queue == [queue[0]] + queue[1..];
    }
  }

  /** A drop is the last item to go out: everything queued behind the
      first drop is discarded. */
  lemma {:induction false} DrainStopsAtFirstDrop(queue: seq<Item>, i: nat)
    requires i < |queue| && queue[i] == DropItem
    requires forall k :: 0 <= k < i ==> queue[k] != DropItem
    ensures Drain(queue) == queue[..i + 1]
    decreases i
  {
    if i == 0 {
      assert Drain(queue) == [queue[0]];
    } else {
      DrainStopsAtFirstDrop(queue[1..], i - 1);
      assert queue[..i + 1] == [queue[0]] + queue[1..][..i];
    }
  }

  /** getTotalBytesQueued: the byte lengths of the queued appends, summed. */
  function TotalBytesQueued(queue: seq<Item>): (total: nat)
  {
    if queue == [] then 0
    else TotalBytesQueued(queue[..|queue| - 1])
         + (if queue[|queue| - 1].AppendItem? then |queue[|queue| - 1].arrayBuffer| else 0)
  }

  /** The bytes queued behind each other add up. */
  lemma {:induction false} TotalBytesQueuedConcat(a: seq<Item>, b: seq<Item>)
    ensures TotalBytesQueued(a + b) == TotalBytesQueued(a) + TotalBytesQueued(b)
    decreases |b|
  {
    if b != [] {
      assert (a + b)[..|a + b| - 1] == a + b[..|b| - 1];
      TotalBytesQueuedConcat(a, b[..|b| - 1]);
    } else {
      assert a + b == a;
    }
  }

  /** Only appends carry bytes: a queue without appends holds none. */
  lemma {:induction false} NoAppendsNoBytes(queue: seq<Item>)
    requires forall k :: 0 <= k < |queue| ==> !queue[k].AppendItem?
    ensures TotalBytesQueued(queue) == 0
  {
    if queue != [] {
      NoAppendsNoBytes(queue[..|queue| - 1]);
    }
  }

  /** getItemsQueuedCount: every item when no method is given (an empty
      name is falsy), otherwise the items with that method. */
  function ItemsQueuedCount(queue: seq<Item>, filterMethod: string): (count: nat)
    ensures count <= |queue|
  {
    if queue == [] then 0
    else ItemsQueuedCount(queue[..|queue| - 1], filterMethod)
         + (if filterMethod == "" || filterMethod == MethodName(queue[|queue| - 1]) then 1 else 0)
  }

  /** Without a filter every item counts; the three methods split the queue
      between them, and a name that is none of them counts nothing. */
  lemma {:induction false} ItemsQueuedCountPartition(queue: seq<Item>, other: string)
    requires other != "" && other != "appendBuffer" && other != "remove" && other != "drop"
    ensures ItemsQueuedCount(queue, "") == |queue|
    ensures ItemsQueuedCount(queue, "appendBuffer") + ItemsQueuedCount(queue, "remove")
            + ItemsQueuedCount(queue, "drop") == |queue|
    ensures ItemsQueuedCount(queue, other) == 0
  {
    if queue != [] {
      ItemsQueuedCountPartition(queue[..|queue| - 1], other);
    }
  }

  /** The result of one dispatch attempt: the buffer was busy, the head
      item went out, or the queue was empty and the destructuring of the
      missing item throws (a TypeError). */
  datatype RunOutcome = Busy | Dispatched(item: Item) | EmptyQueueFault

  /** No two positions repeat and they come in order. */
  predicate Increasing(positions: seq<nat>)
  {
    forall i, j :: 0 <= i < j < |positions| ==> positions[i] < positions[j]
  }

  class SourceBufferQueue {
    var mimeType: string
    var sourceBuffer: SourceBuffer
    var initialMode: string
    var queue: seq<Item>
    var updateStartedTime: Option<int>
    var bufferedBytesCount: int
    /** The update times handed to the onUpdate callback, in order. */
    var updateReports: seq<int>
    /** Every item ever queued, in queue order. */
    ghost var enqueued: seq<Item>
    /** How many of them have left the queue, dispatched or dropped. */
    ghost var taken: nat
    /** The positions in `enqueued` of the dispatched items, in dispatch
        order. */
    ghost var dispatchedAt: seq<nat>

    /** The queue is the not yet taken tail of everything queued, and items
        go out in the order they came in, each at most once. */
    ghost predicate Valid()
      reads this
    {
      && taken <= |enqueued|
      && queue == enqueued[taken..]
      && Increasing(dispatchedAt)
      && (forall k :: 0 <= k < |dispatchedAt| ==> dispatchedAt[k] < taken)
    }

    /** Everything a method may change, as one value. */
    function State(): (seq<Item>, bool, Option<real>, seq<SinkCall>, Option<int>, seq<int>)
      reads this, sourceBuffer
    {
      (queue, sourceBuffer.updating, sourceBuffer.timestampOffset, sourceBuffer.calls, updateStartedTime, updateReports)
    }

    /** What no queue operation changes: the MIME type, the buffer and its
        track defaults, the initial mode and the buffered byte count. */
    function Fixed(): (string, SourceBuffer, Option<TrackDefaults>, string, int)
      reads this, sourceBuffer
    {
      (mimeType, sourceBuffer, sourceBuffer.trackDefaults, initialMode, bufferedBytesCount)
    }

    /** The queue over the SourceBuffer the media source created for the
        MIME type; the buffer's mode at that point is the initial mode. */
    constructor(sourceBuffer: SourceBuffer, mimeType: string)
      ensures Valid() && queue == [] && enqueued == [] && dispatchedAt == []
      ensures this.sourceBuffer == sourceBuffer && this.mimeType == mimeType
      ensures initialMode == sourceBuffer.mode && updateStartedTime == None && bufferedBytesCount == 0
      ensures updateReports == []
    {
      this.mimeType := mimeType;
      this.sourceBuffer := sourceBuffer;
      initialMode := sourceBuffer.mode;
      queue := [];
      updateStartedTime := None;
      bufferedBytesCount := 0;
      updateReports := [];
      enqueued := [];
      taken := 0;
      dispatchedAt := [];
    }

    /** isInitialModeSequential */
    function IsInitialModeSequential(): (b: bool)
      reads this
      ensures b <==> initialMode == "sequence"
    {
      initialMode == "sequence"
    }

    /** getTotalBytes: the buffered byte count, which nothing updates, plus
        the queued bytes. */
    function GetTotalBytes(): (total: int)
      reads this
      ensures total == bufferedBytesCount + TotalBytesQueued(queue)
    {
      bufferedBytesCount + TotalBytesQueued(queue)
    }

    /** tryRunQueueOnce_: nothing happens while the buffer is busy;
        otherwise the head item leaves the queue, its timestamp offset is
        assigned and it is dispatched: an append or a remove goes to the
        buffer, a drop empties the rest of the queue without an abort. On
        an empty queue the shift yields nothing and the call fails. */
    method TryRunQueueOnce() returns (outcome: RunOutcome)
      requires Valid()
      modifies this, sourceBuffer
      ensures Valid() && enqueued == old(enqueued) && sourceBuffer == old(sourceBuffer)
      ensures old(sourceBuffer.updating) ==> outcome == Busy && State() == old(State())
      ensures !old(sourceBuffer.updating) && old(queue) == [] ==> outcome == EmptyQueueFault && State() == old(State())
      ensures !old(sourceBuffer.updating) && old(queue) != [] ==> (
        var head := old(queue)[0];
        && outcome == Dispatched(head)
        && queue == AfterDispatch(old(queue))
        && sourceBuffer.timestampOffset == OffsetOf(head)
        && sourceBuffer.calls == old(sourceBuffer.calls) + CallsOf(head)
        && sourceBuffer.updating == (head != DropItem)
        && dispatchedAt == old(dispatchedAt) + [old(taken)]
        && enqueued[old(taken)] == head)
      ensures outcome != Dispatched(DropItem) ==> taken == old(taken) + (if outcome.Dispatched? then 1 else 0)
      ensures updateStartedTime == old(updateStartedTime) && updateReports == old(updateReports)
      ensures sourceBuffer.mode == old(sourceBuffer.mode)
      ensures Fixed() == old(Fixed())
    {
      if sourceBuffer.updating {
        return Busy;
      }
      if queue == [] {
        return EmptyQueueFault;
      }
      var head := queue[0];
      queue := queue[1..];
      dispatchedAt := dispatchedAt + [taken];
      taken := taken + 1;
      sourceBuffer.timestampOffset := OffsetOf(head);
      match head {
        case AppendItem(arrayBuffer, _) =>
          sourceBuffer.AppendBuffer(arrayBuffer);
        case RemoveItem(start, end) =>
          sourceBuffer.Remove(start, end);
        case DropItem =>
          Drop(false);
      }
      outcome := Dispatched(head);
    }

    /** Queues an item and makes one dispatch attempt: the item waits while
        the buffer is busy, otherwise the queue's head goes out. */
    method Enqueue(item: Item) returns (outcome: RunOutcome)
      requires Valid()
      modifies this, sourceBuffer
      ensures Valid() && enqueued == old(enqueued) + [item] && sourceBuffer == old(sourceBuffer)
      ensures old(sourceBuffer.updating) ==> (
        && outcome == Busy && queue == old(queue) + [item]
        && sourceBuffer.calls == old(sourceBuffer.calls) && sourceBuffer.updating
        && sourceBuffer.timestampOffset == old(sourceBuffer.timestampOffset))
      ensures !old(sourceBuffer.updating) ==> (
        var head := (old(queue) + [item])[0];
        && outcome == Dispatched(head)
        && queue == AfterDispatch(old(queue) + [item])
        && sourceBuffer.calls == old(sourceBuffer.calls) + CallsOf(head)
        && sourceBuffer.timestampOffset == OffsetOf(head)
        && sourceBuffer.updating == (head != DropItem))
      ensures updateStartedTime == old(updateStartedTime) && updateReports == old(updateReports)
      ensures sourceBuffer.mode == old(sourceBuffer.mode)
      ensures Fixed() == old(Fixed())
    {
      queue := queue + [item];
      enqueued := enqueued + [item];
      outcome := TryRunQueueOnce();
    }

    /** appendBuffer: queues an append and tries to dispatch. */
    method AppendBuffer(arrayBuffer: seq<byte>, timestampOffset: Option<real>) returns (outcome: RunOutcome)
      requires Valid()
      modifies this, sourceBuffer
      ensures Valid() && enqueued == old(enqueued) + [AppendItem(arrayBuffer, timestampOffset)]
      ensures old(sourceBuffer.updating) ==> (
        && outcome == Busy && queue == old(queue) + [AppendItem(arrayBuffer, timestampOffset)]
        && sourceBuffer.calls == old(sourceBuffer.calls) && sourceBuffer.updating
        && sourceBuffer.timestampOffset == old(sourceBuffer.timestampOffset))
      ensures !old(sourceBuffer.updating) && old(queue) != [] ==> (
        var head := old(queue)[0];
        && outcome == Dispatched(head) && queue == AfterDispatch(old(queue) + [AppendItem(arrayBuffer, timestampOffset)])
        && sourceBuffer.calls == old(sourceBuffer.calls) + CallsOf(head)
        && sourceBuffer.timestampOffset == OffsetOf(head) && sourceBuffer.updating == (head != DropItem))
      ensures sourceBuffer == old(sourceBuffer) && sourceBuffer.mode == old(sourceBuffer.mode)
      ensures updateStartedTime == old(updateStartedTime) && updateReports == old(updateReports)
      ensures old(sourceBuffer.updating) ==> TotalBytesQueued(queue) == TotalBytesQueued(old(queue)) + |arrayBuffer|
      ensures old(sourceBuffer.updating) ==> GetTotalBytes() == old(GetTotalBytes()) + |arrayBuffer|
      ensures !old(sourceBuffer.updating) && old(queue) == [] ==> (
        && outcome == Dispatched(AppendItem(arrayBuffer, timestampOffset)) && queue == []
        && sourceBuffer.calls == old(sourceBuffer.calls) + [AppendCall(arrayBuffer)]
        && sourceBuffer.timestampOffset == timestampOffset && sourceBuffer.updating)
      ensures Fixed() == old(Fixed())
    {
      var item := AppendItem(arrayBuffer, timestampOffset);
      ghost var before := queue;
      outcome := Enqueue(item);
      if old(sourceBuffer.updating) {
        TotalBytesQueuedConcat(before, [item]);
        assert [item][..0] == [];
      }
    }

    /** remove: queues a removal of [start, end) and tries to dispatch. */
    method Remove(start: real, end: Option<real>) returns (outcome: RunOutcome)
      requires Valid()
      modifies this, sourceBuffer
      ensures Valid() && enqueued == old(enqueued) + [RemoveItem(start, end)]
      ensures old(sourceBuffer.updating) ==> (
        && outcome == Busy && queue == old(queue) + [RemoveItem(start, end)]
        && sourceBuffer.calls == old(sourceBuffer.calls) && sourceBuffer.updating
        && sourceBuffer.timestampOffset == old(sourceBuffer.timestampOffset))
      ensures !old(sourceBuffer.updating) && old(queue) != [] ==> (
        var head := old(queue)[0];
        && outcome == Dispatched(head) && queue == AfterDispatch(old(queue) + [RemoveItem(start, end)])
        && sourceBuffer.calls == old(sourceBuffer.calls) + CallsOf(head)
        && sourceBuffer.timestampOffset == OffsetOf(head) && sourceBuffer.updating == (head != DropItem))
      ensures sourceBuffer == old(sourceBuffer) && sourceBuffer.mode == old(sourceBuffer.mode)
      ensures updateStartedTime == old(updateStartedTime) && updateReports == old(updateReports)
      ensures !old(sourceBuffer.updating) && old(queue) == [] ==> (
        && outcome == Dispatched(RemoveItem(start, end)) && queue == []
        && sourceBuffer.calls == old(sourceBuffer.calls) + [RemoveCall(start, end)]
        && sourceBuffer.timestampOffset == None && sourceBuffer.updating)
      ensures Fixed() == old(Fixed())
    {
      outcome := Enqueue(RemoveItem(start, end));
    }

    /** drop: empties the queue; with immediateAbort a busy buffer is also
        aborted. */
    method Drop(immediateAbort: bool)
      requires Valid()
      modifies this, sourceBuffer
      ensures Valid() && queue == [] && enqueued == old(enqueued) && dispatchedAt == old(dispatchedAt)
      ensures taken == |enqueued|
      ensures immediateAbort && old(sourceBuffer.updating) ==> (
        && sourceBuffer.calls == old(sourceBuffer.calls) + [AbortCall] && !sourceBuffer.updating)
      ensures !(immediateAbort && old(sourceBuffer.updating)) ==> (
        && sourceBuffer.calls == old(sourceBuffer.calls) && sourceBuffer.updating == old(sourceBuffer.updating))
      ensures sourceBuffer == old(sourceBuffer) && sourceBuffer.timestampOffset == old(sourceBuffer.timestampOffset)
      ensures sourceBuffer.mode == old(sourceBuffer.mode)
      ensures updateStartedTime == old(updateStartedTime) && updateReports == old(updateReports)
      ensures Fixed() == old(Fixed())
    {
      if immediateAbort && sourceBuffer.updating {
        sourceBuffer.Abort();
      }
      queue := [];
      taken := |enqueued|;
    }

    /** flush: queues the removal of everything, from 0 to +Infinity. */
    method Flush() returns (outcome: RunOutcome)
      requires Valid()
      modifies this, sourceBuffer
      ensures Valid() && enqueued == old(enqueued) + [RemoveItem(0.0, None)]
      ensures old(sourceBuffer.updating) ==> (
        && outcome == Busy && queue == old(queue) + [RemoveItem(0.0, None)]
        && sourceBuffer.calls == old(sourceBuffer.calls) && sourceBuffer.updating
        && sourceBuffer.timestampOffset == old(sourceBuffer.timestampOffset))
      ensures !old(sourceBuffer.updating) && old(queue) != [] ==> (
        var head := old(queue)[0];
        && outcome == Dispatched(head) && queue == AfterDispatch(old(queue) + [RemoveItem(0.0, None)])
        && sourceBuffer.calls == old(sourceBuffer.calls) + CallsOf(head)
        && sourceBuffer.timestampOffset == OffsetOf(head) && sourceBuffer.updating == (head != DropItem))
      ensures sourceBuffer == old(sourceBuffer) && sourceBuffer.mode == old(sourceBuffer.mode)
      ensures updateStartedTime == old(updateStartedTime) && updateReports == old(updateReports)
      ensures !old(sourceBuffer.updating) && old(queue) == [] ==> (
        && outcome == Dispatched(RemoveItem(0.0, None)) && queue == []
        && sourceBuffer.calls == old(sourceBuffer.calls) + [RemoveCall(0.0, None)]
        && sourceBuffer.timestampOffset == None && sourceBuffer.updating)
      ensures Fixed() == old(Fixed())
    {
      outcome := Remove(0.0, None);
    }

    /** dropAndFlush: the queue is emptied (a busy buffer aborted) and the
        removal of everything goes out at once; with the buffer idle
        beforehand it is the only call made. */
    method DropAndFlush() returns (outcome: RunOutcome)
      requires Valid()
      modifies this, sourceBuffer
      ensures Valid() && queue == []
      ensures outcome == Dispatched(RemoveItem(0.0, None))
      ensures old(sourceBuffer.updating) ==>
        sourceBuffer.calls == old(sourceBuffer.calls) + [AbortCall, RemoveCall(0.0, None)]
      ensures !old(sourceBuffer.updating) ==> sourceBuffer.calls == old(sourceBuffer.calls) + [RemoveCall(0.0, None)]
      ensures sourceBuffer.updating && sourceBuffer.timestampOffset == None
      ensures enqueued == old(enqueued) + [RemoveItem(0.0, None)]
      ensures sourceBuffer == old(sourceBuffer) && sourceBuffer.mode == old(sourceBuffer.mode)
      ensures updateStartedTime == old(updateStartedTime) && updateReports == old(updateReports)
      ensures Fixed() == old(Fixed())
    {
      Drop(true);
      outcome := Flush();
    }

    /** onUpdateStart_: records the start time (the clock reading `now`);
        a start already recorded is an error and changes nothing. */
    method OnUpdateStart(now: int) returns (r: Result<(), string>)
      modifies this
      ensures old(updateStartedTime).Some? ==> r == Err("updateStartedTime_ should be null") && updateStartedTime == old(updateStartedTime)
      ensures old(updateStartedTime) == None ==> r == Ok(()) && updateStartedTime == Some(now)
      ensures queue == old(queue) && updateReports == old(updateReports)
      ensures enqueued == old(enqueued) && taken == old(taken) && dispatchedAt == old(dispatchedAt)
      ensures sourceBuffer == old(sourceBuffer) && Fixed() == old(Fixed())
    {
      if updateStartedTime.Some? {
        return Err("updateStartedTime_ should be null");
      }
      updateStartedTime := Some(now);
      return Ok(());
    }

    /** onUpdateEnd_: reports the time since the recorded start (a missing
        start counts as 0) to onUpdate exactly once, clears the start and
        tries to dispatch the next item. */
    method OnUpdateEnd(now: int) returns (outcome: RunOutcome)
      requires Valid()
      modifies this, sourceBuffer
      ensures Valid() && enqueued == old(enqueued)
      ensures updateStartedTime == None
      ensures updateReports == old(updateReports)
        + [now - (if old(updateStartedTime).Some? then old(updateStartedTime).value else 0)]
      ensures old(sourceBuffer.updating) || old(queue) == [] ==> (
        && outcome == (if old(sourceBuffer.updating) then Busy else EmptyQueueFault)
        && queue == old(queue) && sourceBuffer.calls == old(sourceBuffer.calls)
        && sourceBuffer.updating == old(sourceBuffer.updating)
        && sourceBuffer.timestampOffset == old(sourceBuffer.timestampOffset))
      ensures !old(sourceBuffer.updating) && old(queue) != [] ==> (
        var head := old(queue)[0];
        && outcome == Dispatched(head) && queue == AfterDispatch(old(queue))
        && sourceBuffer.calls == old(sourceBuffer.calls) + CallsOf(head)
        && sourceBuffer.timestampOffset == OffsetOf(head) && sourceBuffer.updating == (head != DropItem))
      ensures sourceBuffer == old(sourceBuffer) && sourceBuffer.mode == old(sourceBuffer.mode)
      ensures Fixed() == old(Fixed())
    {
      var started := if updateStartedTime.Some? then updateStartedTime.value else 0;
      var updateTimeMs := now - started;
      updateStartedTime := None;
      updateReports := updateReports + [updateTimeMs];
      outcome := TryRunQueueOnce();
    }

    /** setModeSequential as written: its first statement calls a global
        isUpdating that does not exist, so it always throws a
        ReferenceError and nothing changes. */
    method SetModeSequentialAsWritten(sequentialModeEnable: bool) returns (r: Result<(), string>)
      ensures r == Err("ReferenceError: isUpdating is not defined")
    {
      r := Err("ReferenceError: isUpdating is not defined");
    }

    /** setModeSequential with the check on this queue's buffer: refused
        while busy; sequence mode can always be switched on, and switched
        off only when the buffer did not start in it. */
    method SetModeSequential(sequentialModeEnable: bool) returns (r: Result<(), string>)
      modifies sourceBuffer
      ensures sourceBuffer.updating ==> r == Err("Can not set mode when updating") && sourceBuffer.mode == old(sourceBuffer.mode)
      ensures !sourceBuffer.updating && sequentialModeEnable ==> r == Ok(()) && sourceBuffer.mode == "sequence"
      ensures !sourceBuffer.updating && !sequentialModeEnable && IsInitialModeSequential() ==>
        r == Err("Can not disable sequential model") && sourceBuffer.mode == old(sourceBuffer.mode)
      ensures !sourceBuffer.updating && !sequentialModeEnable && !IsInitialModeSequential() ==>
        r == Ok(()) && sourceBuffer.mode == "segments"
      ensures IsInitialModeSequential() && old(sourceBuffer.mode) == "sequence" ==> sourceBuffer.mode == "sequence"
      ensures sourceBuffer.updating == old(sourceBuffer.updating) && sourceBuffer.calls == old(sourceBuffer.calls)
      ensures sourceBuffer.timestampOffset == old(sourceBuffer.timestampOffset)
      ensures Fixed() == old(Fixed())
    {
      if sourceBuffer.updating {
        return Err("Can not set mode when updating");
      }
      if !sequentialModeEnable {
        if IsInitialModeSequential() {
          return Err("Can not disable sequential model");
        }
        sourceBuffer.mode := "segments";
      } else {
        sourceBuffer.mode := "sequence";
      }
      return Ok(());
    }

    /** dropAsync as written: it reads the undeclared names start and end
        before queuing anything, so it always throws a ReferenceError and
        the drop item is never queued. */
    method DropAsyncAsWritten() returns (r: Result<RunOutcome, string>)
      ensures r == Err("ReferenceError: start is not defined")
    {
      r := Err("ReferenceError: start is not defined");
    }

    /** dropAsync as intended: queues a drop, which clears the queue behind
        it when dispatched; with the buffer idle and nothing queued the
        queue ends empty and the buffer receives nothing. */
    method DropAsync() returns (r: Result<RunOutcome, string>)
      requires Valid()
      modifies this, sourceBuffer
      ensures Valid() && enqueued == old(enqueued) + [DropItem]
      ensures r.Ok?
      ensures old(sourceBuffer.updating) ==> (
        && r.value == Busy && queue == old(queue) + [DropItem]
        && sourceBuffer.calls == old(sourceBuffer.calls) && sourceBuffer.updating
        && sourceBuffer.timestampOffset == old(sourceBuffer.timestampOffset))
      ensures !old(sourceBuffer.updating) && old(queue) == [] ==> (
        && r.value == Dispatched(DropItem) && queue == []
        && sourceBuffer.calls == old(sourceBuffer.calls) && !sourceBuffer.updating)
      ensures !old(sourceBuffer.updating) && old(queue) != [] ==> (
        var head := old(queue)[0];
        && r.value == Dispatched(head) && queue == AfterDispatch(old(queue) + [DropItem])
        && sourceBuffer.calls == old(sourceBuffer.calls) + CallsOf(head)
        && sourceBuffer.timestampOffset == OffsetOf(head) && sourceBuffer.updating == (head != DropItem))
      ensures sourceBuffer == old(sourceBuffer) && sourceBuffer.mode == old(sourceBuffer.mode)
      ensures updateStartedTime == old(updateStartedTime) && updateReports == old(updateReports)
      ensures Fixed() == old(Fixed())
    {
      var outcome := Enqueue(DropItem);
      return Ok(outcome);
    }
  }

  /** The queue constructor as written: given track defaults (a truthy
      value) it assigns them through `this.sourceBuffer`, a property the
      queue does not define, so the assignment throws a TypeError and no
      queue is built; without them the queue is built over the buffer. */
  method NewQueueAsWritten(sourceBuffer: SourceBuffer, mimeType: string, trackDefaults: Option<TrackDefaults>)
    returns (r: Result<SourceBufferQueue, string>)
    ensures r.Err? <==> trackDefaults.Some?
    ensures r.Err? ==> r.error == "TypeError: Cannot set property 'trackDefaults' of undefined"
    ensures r.Ok? ==> (&& fresh(r.value) && r.value.Valid() && r.value.queue == []
                       && r.value.sourceBuffer == sourceBuffer && r.value.initialMode == sourceBuffer.mode)
  {
    if trackDefaults.Some? {
      return Err("TypeError: Cannot set property 'trackDefaults' of undefined");
    }
    var queue := new SourceBufferQueue(sourceBuffer, mimeType);
    return Ok(queue);
  }

  /** The queue constructor with the track defaults assigned to the
      buffer it created: given ones replace the buffer's, missing ones
      leave them, and the rest of the buffer is untouched. */
  method NewQueue(sourceBuffer: SourceBuffer, mimeType: string, trackDefaults: Option<TrackDefaults>)
    returns (queue: SourceBufferQueue)
    modifies sourceBuffer
    ensures fresh(queue) && queue.Valid() && queue.queue == [] && queue.sourceBuffer == sourceBuffer
    ensures queue.initialMode == sourceBuffer.mode && queue.mimeType == mimeType
    ensures sourceBuffer.trackDefaults == if trackDefaults.Some? then trackDefaults else old(sourceBuffer.trackDefaults)
    ensures sourceBuffer.mode == old(sourceBuffer.mode) && sourceBuffer.updating == old(sourceBuffer.updating)
    ensures sourceBuffer.timestampOffset == old(sourceBuffer.timestampOffset) && sourceBuffer.calls == old(sourceBuffer.calls)
  {
    queue := new SourceBufferQueue(sourceBuffer, mimeType);
    if trackDefaults.Some? {
      sourceBuffer.trackDefaults := trackDefaults;
    }
  }
}
