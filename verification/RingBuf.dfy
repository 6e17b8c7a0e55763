/** The two bounded buffers of the output path: the replay window with its
    monotonic cursor, and the lossy byte queue of one connection. */
module RingBuf {
  import opened Bytes

  // ----- the replay window --------------------------------------------------------

  datatype Replay =
    | Contiguous(bytes: seq<byte>, toOffset: nat)
    | Gap(bytesDropped: nat, bytes: seq<byte>, toOffset: nat)

  /** Everything ever written, and how much of its end is retained. */
  datatype Window = Window(history: seq<byte>, retained: nat, capacity: nat) {
    predicate Valid() {
      retained <= |history| && retained <= capacity
    }

    function Earliest(): nat
      requires Valid()
    {
      |history| - retained
    }

    function Retained(): seq<byte>
      requires Valid()
    {
      history[Earliest()..]
    }

    function Write(bytes: seq<byte>): Window {
      Window(history + bytes, Min(capacity, retained + |bytes|), capacity)
    }

    function Clear(): Window {
      this.(retained := 0)
    }

    function ReadSince(since: nat): Replay
      requires Valid()
    {
      var written := |history|;
      if capacity == 0 then Gap(if since <= written then written - since else 0, [], written)
      else if since > written then Gap(0, Retained(), written)
      else if since >= Earliest() then Contiguous(history[since..], written)
      else Gap(Earliest() - since, Retained(), written)
    }
  }

  function NewWindow(capacity: nat): Window {
    Window([], 0, capacity)
  }

  function Skipped(r: Replay): nat {
    if r.Gap? then r.bytesDropped else 0
  }

  /** A replay is contiguous exactly when the cursor lies inside the retained
      window; whenever the cursor lies within the stream, the skipped count and the
      bytes together close the distance to the end, and the bytes are exactly what
      follows the skip; a cursor past the end is the only one that does not add up. */
  lemma ReplayMeaning(w: Window, since: nat)
    requires w.Valid()
    ensures var r := w.ReadSince(since);
      && r.toOffset == |w.history|
      && (r.Contiguous? <==> w.capacity > 0 && w.Earliest() <= since <= |w.history|)
      && (since + Skipped(r) + |r.bytes| == r.toOffset <==> since <= |w.history|)
      && (since <= |w.history| ==> r.bytes == w.history[since + Skipped(r)..])
      && (r.Gap? ==> r.bytes == w.Retained())
  {
    if w.capacity == 0 {
      assert w.retained == 0;
      assert w.history[|w.history|..] == [];
    }
  }

  datatype WindowOp = Append(bytes: seq<byte>) | Discard

  function ApplyOp(w: Window, op: WindowOp): Window {
    match op
    case Append(bytes) => w.Write(bytes)
    case Discard => w.Clear()
  }

  function RunWindow(w: Window, ops: seq<WindowOp>): Window {
    if ops == [] then w else ApplyOp(RunWindow(w, ops[..|ops| - 1]), ops[|ops| - 1])
  }

  function Written(ops: seq<WindowOp>): seq<byte> {
    if ops == [] then []
    else Written(ops[..|ops| - 1]) + (if ops[|ops| - 1].Append? then ops[|ops| - 1].bytes else [])
  }

  function WrittenSinceDiscard(ops: seq<WindowOp>): nat {
    if ops == [] || ops[|ops| - 1].Discard? then 0
    else WrittenSinceDiscard(ops[..|ops| - 1]) + |ops[|ops| - 1].bytes|
  }

  /** After any writes and clears the history is all that was written, and the
      window is its longest suffix that fits and reaches no further back than the
      last clear. */
  lemma {:induction false} WindowAfterRun(capacity: nat, ops: seq<WindowOp>)
    ensures var w := RunWindow(NewWindow(capacity), ops);
      && w.Valid() && w.capacity == capacity
      && w.history == Written(ops)
      && w.retained == Min(capacity, WrittenSinceDiscard(ops))
    decreases |ops|
  {
    if ops != [] {
      WindowAfterRun(capacity, ops[..|ops| - 1]);
      assert WrittenSinceDiscard(ops) <= |Written(ops)| by { SinceDiscardBounded(ops); }
    }
  }

  lemma {:induction false} SinceDiscardBounded(ops: seq<WindowOp>)
    ensures WrittenSinceDiscard(ops) <= |Written(ops)|
    decreases |ops|
  {
    if ops != [] { SinceDiscardBounded(ops[..|ops| - 1]); }
  }

  class RingBuffer {
    var buf: seq<byte>
    const capacity: nat
    var written: nat
    var dropped: nat
    ghost var history: seq<byte>

    ghost predicate Valid()
      reads this
    {
      && |buf| <= capacity
      && |buf| <= |history|
      && buf == history[|history| - |buf|..]
      && written == |history|
      && dropped + |buf| == written
    }

    ghost function View(): (w: Window)
      requires Valid()
      reads this
      ensures w.Valid() && w.Retained() == buf && w.Earliest() == dropped && |w.history| == written
    {
      Window(history, |buf|, capacity)
    }

    constructor (capacityBytes: nat)
      ensures Valid() && View() == NewWindow(capacityBytes)
    {
      buf, capacity, written, dropped := [], capacityBytes, 0, 0;
      history := [];
    }

    /** Returns how many bytes this write evicted or discarded. */
    method Write(bytes: seq<byte>) returns (evicted: nat)
      requires Valid()
      modifies this
      ensures Valid() && View() == old(View()).Write(bytes)
      ensures evicted == dropped - old(dropped)
    {
      var n := |bytes|;
      ghost var k := |history| - |buf|;
      ghost var before := history;
      written := written + n;
      history := history + bytes;
      if capacity == 0 {
        dropped := dropped + n;
        assert buf == [] && history[|history|..] == [];
        return n;
      }
      var overflow := if |buf| + n > capacity then |buf| + n - capacity else 0;
      if overflow == 0 {
        Slide(before, k, bytes, 0, 0);
        buf := buf + bytes;
        return 0;
      }
      var fromRetained := Min(overflow, |buf|);
      var fromIncoming := overflow - fromRetained;
      Slide(before, k, bytes, fromRetained, fromIncoming);
      buf := buf[fromRetained..];
      buf := buf + bytes[fromIncoming..];
      dropped := dropped + overflow;
      return overflow;
    }

    method ReadSince(since: nat) returns (r: Replay)
      requires Valid()
      ensures r == View().ReadSince(since)
    {
      if capacity == 0 {
        return Gap(if since <= written then written - since else 0, [], written);
      }
      if since > written {
        var all := SliceFrom(0);
        return Gap(0, all, written);
      }
      var earliest := written - |buf|;
      if since >= earliest {
        var bytes := SliceFrom(since - earliest);
        return Contiguous(bytes, written);
      }
      var all := SliceFrom(0);
      return Gap(earliest - since, all, written);
    }

    method Clear()
      requires Valid()
      modifies this
      ensures Valid() && View() == old(View()).Clear()
      ensures dropped == written
    {
      dropped := dropped + |buf|;
      buf := [];
    }

    /** The deque stores its bytes in two halves split anywhere; the slice is the
        same wherever the split falls. */
    method SliceFrom(start: nat) returns (out: seq<byte>)
      requires Valid()
      ensures out == if start >= |buf| then [] else buf[start..]
    {
      var split: nat :| split <= |buf|;
      var a, b := buf[..split], buf[split..];
      if start >= |buf| {
        return [];
      }
      if start < |a| {
        out := a[start..] + b;
      } else {
        out := b[start - |a|..];
      }
    }
  }

  // ----- the byte queue ---------------------------------------------------------------

  datatype PushResult = Accepted | DroppedOldest(bytesDropped: nat) | HardWatermark(bytesDropped: nat)

  /** Everything ever pushed, and how far its head has been taken, dropped and reported. */
  datatype Queue = Queue(pushed: seq<byte>, taken: nat, dropped: nat, reported: nat,
                         capacity: nat, limit: Option<nat>) {
    predicate Valid() {
      && taken + dropped <= |pushed|
      && reported <= dropped
      && Queued() <= capacity
    }

    function Queued(): nat
      requires taken + dropped <= |pushed|
    {
      |pushed| - taken - dropped
    }

    function Pending(): seq<byte>
      requires taken + dropped <= |pushed|
    {
      pushed[taken + dropped..]
    }

    function Unreported(): nat
      requires reported <= dropped
    {
      dropped - reported
    }

    function Overflow(bytes: seq<byte>): nat
      requires Valid()
    {
      if Queued() + |bytes| > capacity then Queued() + |bytes| - capacity else 0
    }

    function Push(bytes: seq<byte>): (q: Queue)
      requires Valid()
      ensures q.Valid()
    {
      this.(pushed := pushed + bytes, dropped := dropped + Overflow(bytes))
    }

    function PushOutcome(bytes: seq<byte>): PushResult
      requires Valid()
    {
      var over := Overflow(bytes);
      if capacity > 0 && over == 0 then Accepted
      else if limit.Some? && dropped + over > limit.value then HardWatermark(over)
      else DroppedOldest(over)
    }

    function Take(max: nat): (q: Queue)
      requires Valid()
      ensures q.Valid()
    {
      this.(taken := taken + Min(max, Queued()))
    }

    function ReportGap(): (q: Queue)
      requires Valid()
      ensures q.Valid()
    {
      this.(reported := dropped)
    }
  }

  function NewQueue(capacity: nat, limit: Option<nat>): (q: Queue)
    ensures q.Valid()
  {
    Queue([], 0, 0, 0, capacity, limit)
  }

  /** Each push drops exactly what is over the bound, oldest first: what is pending
      afterwards is the newest part of what was pending and what came in. */
  lemma PushKeepsNewest(q: Queue, bytes: seq<byte>)
    requires q.Valid()
    ensures q.Push(bytes).Pending() == Newest(q.Pending() + bytes, q.capacity)
  {
    var p := q.Push(bytes);
    assert q.Pending() + bytes == p.pushed[q.taken + q.dropped..];
  }

  /** A push is past the watermark exactly when it drops bytes, or the queue holds none, and
      a limit is set that everything dropped since the start is above by then; it is
      accepted exactly when all of it fits. The result counts what this push dropped. */
  lemma WatermarkExactly(q: Queue, bytes: seq<byte>)
    requires q.Valid()
    ensures var r, after := q.PushOutcome(bytes), q.Push(bytes);
      var lost := q.Queued() + |bytes| - after.Queued();
      && (r.Accepted? <==> q.capacity > 0 && q.Queued() + |bytes| <= q.capacity)
      && (r.HardWatermark? <==>
            (q.capacity == 0 || q.Queued() + |bytes| > q.capacity) && q.limit.Some? && after.dropped > q.limit.value)
      && (!r.Accepted? ==> r.bytesDropped == lost)
      && after.dropped == q.dropped + lost
  {
  }

  class ByteQueue {
    var buf: seq<byte>
    const capacityBytes: nat
    const maxDroppedBytes: Option<nat>
    var dropped: nat
    var unreportedDropped: nat
    ghost var pushed: seq<byte>
    ghost var taken: nat

    ghost predicate Valid()
      reads this
    {
      && unreportedDropped <= dropped
      && taken + dropped <= |pushed|
      && buf == pushed[taken + dropped..]
      && |buf| <= capacityBytes
    }

    ghost function View(): (q: Queue)
      requires Valid()
      reads this
      ensures q.Valid() && q.Pending() == buf && q.Unreported() == unreportedDropped
    {
      Queue(pushed, taken, dropped, dropped - unreportedDropped, capacityBytes, maxDroppedBytes)
    }

    constructor (capacity: nat, limit: Option<nat>)
      ensures Valid() && View() == NewQueue(capacity, limit)
    {
      buf, capacityBytes, maxDroppedBytes, dropped, unreportedDropped := [], capacity, limit, 0, 0;
      pushed, taken := [], 0;
    }

    method Push(bytes: seq<byte>) returns (r: PushResult)
      requires Valid()
      modifies this
      ensures Valid() && View() == old(View()).Push(bytes)
      ensures r == old(View()).PushOutcome(bytes)
    {
      var n := |bytes|;
      ghost var k, before := taken + dropped, pushed;
      pushed := pushed + bytes;
      if capacityBytes == 0 {
        assert buf == [] && pushed[|pushed|..] == [];
        AccountDrop(n);
        r := OverflowOutcome(n);
        return;
      }
      var overflow := if |buf| + n > capacityBytes then |buf| + n - capacityBytes else 0;
      if overflow == 0 {
        Slide(before, k, bytes, 0, 0);
        buf := buf + bytes;
        return Accepted;
      }
      var fromRetained := Min(overflow, |buf|);
      var fromIncoming := overflow - fromRetained;
      Slide(before, k, bytes, fromRetained, fromIncoming);
      buf := buf[fromRetained..];
      buf := buf + bytes[fromIncoming..];
      AccountDrop(overflow);
      r := OverflowOutcome(overflow);
    }

    method AccountDrop(n: nat)
      modifies `dropped, `unreportedDropped
      ensures dropped == old(dropped) + n && unreportedDropped == old(unreportedDropped) + n
    {
      dropped := dropped + n;
      unreportedDropped := unreportedDropped + n;
    }

    function OverflowOutcome(n: nat): PushResult
      reads this
    {
      if maxDroppedBytes.Some? && dropped > maxDroppedBytes.value then HardWatermark(n) else DroppedOldest(n)
    }

    method Take(max: nat) returns (out: seq<byte>)
      requires Valid()
      modifies this
      ensures Valid() && View() == old(View()).Take(max)
      ensures out == old(View()).Pending()[..Min(max, old(View()).Queued())]
    {
      var n := Min(max, |buf|);
      out := buf[..n];
      buf := buf[n..];
      taken := taken + n;
    }

    method TakeUnreportedGap() returns (gap: Option<nat>)
      requires Valid()
      modifies this
      ensures Valid()
      ensures old(View()).Unreported() == 0 ==> gap == None && View() == old(View())
      ensures old(View()).Unreported() > 0 ==>
        gap == Some(old(View()).Unreported()) && View() == old(View()).ReportGap()
    {
      if unreportedDropped == 0 {
        return None;
      }
      gap := Some(unreportedDropped);
      unreportedDropped := 0;
    }
  }
}
