/** One connection's outbound queue: bounded bytes, control frames, and a close
    code handed out once. */
module Outbound {
  import opened Bytes
  import opened RingBuf
  import CloseCodes

  const READ_CHUNK: nat := 16 * 1024

  datatype Control =
    | AttachNotice(teardownBestEffort: bool)
    | GapNotice(bytesDropped: nat)
    | TtlWarning(secondsRemaining: nat, absolute: bool)
    | ShuttingDown(secondsRemaining: nat)

  datatype Item = Data(bytes: seq<byte>) | Frame(control: Control) | Close(code: nat)

  datatype Line = Line(queue: Queue, controls: seq<Control>, closeCode: Option<nat>, closeEmitted: bool) {
    predicate Valid() { queue.Valid() }

    /** The first code wins. */
    function CloseWith(code: nat): Line {
      if closeCode.Some? then this else this.(closeCode := Some(code))
    }

    function PushBytes(bytes: seq<byte>): (l: Line)
      requires Valid()
      ensures l.Valid()
    {
      var pushed := this.(queue := queue.Push(bytes));
      if queue.PushOutcome(bytes).HardWatermark? then pushed.CloseWith(CloseCodes.SLOW_CLIENT) else pushed
    }

    function PushControl(c: Control): Line {
      this.(controls := controls + [c])
    }

    /** The next item in priority order: gap, control, bytes, close. */
    function Next(): Option<Item>
      requires Valid()
    {
      if queue.Unreported() > 0 then Some(Frame(GapNotice(queue.Unreported())))
      else if controls != [] then Some(Frame(controls[0]))
      else if queue.Queued() > 0 then Some(Data(queue.Pending()[..Min(READ_CHUNK, queue.Queued())]))
      else if closeCode.Some? && !closeEmitted then Some(Close(closeCode.value))
      else None
    }

    function AfterNext(): (l: Line)
      requires Valid()
      ensures l.Valid()
    {
      if queue.Unreported() > 0 then this.(queue := queue.ReportGap())
      else if controls != [] then this.(controls := controls[1..])
      else if queue.Queued() > 0 then this.(queue := queue.Take(READ_CHUNK))
      else if closeCode.Some? then this.(closeEmitted := true)
      else this
    }
  }

  function NewLine(capacity: nat, limit: Option<nat>): (l: Line)
    ensures l.Valid()
  {
    Line(NewQueue(capacity, limit), [], None, false)
  }

  // ----- draining -------------------------------------------------------------------

  function Remaining(l: Line): nat
    requires l.Valid()
  {
    (if l.queue.Unreported() > 0 then 1 else 0) + |l.controls| + l.queue.Queued()
    + (if l.closeCode.Some? && !l.closeEmitted then 1 else 0)
  }

  /** Everything repeated `try_next` hands out once pushes have stopped. */
  function Drain(l: Line): seq<Item>
    requires l.Valid()
    decreases Remaining(l)
  {
    if l.Next().None? then [] else [l.Next().value] + Drain(l.AfterNext())
  }

  function Frames(controls: seq<Control>): seq<Item> {
    if controls == [] then [] else [Frame(controls[0])] + Frames(controls[1..])
  }

  function Chunks(bytes: seq<byte>): seq<Item>
    decreases |bytes|
  {
    if bytes == [] then []
    else [Data(bytes[..Min(READ_CHUNK, |bytes|)])] + Chunks(bytes[Min(READ_CHUNK, |bytes|)..])
  }

  function GapItems(l: Line): seq<Item>
    requires l.Valid()
  {
    if l.queue.Unreported() > 0 then [Frame(GapNotice(l.queue.Unreported()))] else []
  }

  function CloseItems(l: Line): seq<Item> {
    if l.closeCode.Some? && !l.closeEmitted then [Close(l.closeCode.value)] else []
  }

  /** The pending gap, every control, every byte, and the close code once. */
  function Owed(l: Line): seq<Item>
    requires l.Valid()
  {
    GapItems(l) + Frames(l.controls) + Chunks(l.queue.Pending()) + CloseItems(l)
  }

  lemma OwedUnfolds(l: Line)
    requires l.Valid() && l.Next().Some?
    ensures Owed(l) == [l.Next().value] + Owed(l.AfterNext())
  {
    hide Frames, Chunks;
    var n, x := l.AfterNext(), [l.Next().value];
    var f, c, z := Frames(l.controls), Chunks(l.queue.Pending()), CloseItems(l);
    if l.queue.Unreported() > 0 {
      assert n.queue.Pending() == l.queue.Pending();
      assert x + f + c + z == x + ([] + f + c + z);
    } else if l.controls != [] {
      FramesUnfold(l.controls);
      assert [] + (x + Frames(n.controls)) + c + z == x + ([] + Frames(n.controls) + c + z);
    } else if l.queue.Queued() > 0 {
      ChunksUnfold(l.queue.Pending());
      var rest := n.queue.Pending();
      assert l.queue.Pending()[Min(READ_CHUNK, l.queue.Queued())..] == rest;
      assert [] + f + (x + Chunks(rest)) + z == x + ([] + f + Chunks(rest) + z) by {
        FramesUnfold(l.controls);
      }
    } else {
      FramesUnfold(l.controls);
      ChunksUnfold(l.queue.Pending());
    }
  }

  lemma FramesUnfold(controls: seq<Control>)
    ensures Frames(controls) == if controls == [] then [] else [Frame(controls[0])] + Frames(controls[1..])
  {
  }

  lemma ChunksUnfold(bytes: seq<byte>)
    ensures var n := Min(READ_CHUNK, |bytes|);
      Chunks(bytes) == if bytes == [] then [] else [Data(bytes[..n])] + Chunks(bytes[n..])
  {
  }

  /** Draining yields exactly what is owed, in priority order. */
  lemma {:induction false} DrainYieldsEverything(l: Line)
    requires l.Valid()
    ensures Drain(l) == Owed(l)
    decreases Remaining(l)
  {
    if l.Next().Some? {
      OwedUnfolds(l);
      DrainYieldsEverything(l.AfterNext());
    }
  }

  /** The data items, joined. */
  function DataOf(items: seq<Item>): seq<byte> {
    if items == [] then [] else ItemData(items[0]) + DataOf(items[1..])
  }

  lemma {:induction false} ChunksJoin(bytes: seq<byte>)
    ensures DataOf(Chunks(bytes)) == bytes
    ensures forall i :: 0 <= i < |Chunks(bytes)| ==>
      Chunks(bytes)[i].Data? && 0 < |Chunks(bytes)[i].bytes| <= READ_CHUNK
    decreases |bytes|
  {
    if bytes != [] {
      var n := Min(READ_CHUNK, |bytes|);
      ChunksJoin(bytes[n..]);
      assert Chunks(bytes)[1..] == Chunks(bytes[n..]);
      assert bytes[..n] + bytes[n..] == bytes;
    }
  }

  function Drained(l: Line): (d: Line)
    requires l.Valid()
    ensures d.Valid()
    decreases Remaining(l)
  {
    if l.Next().None? then l else Drained(l.AfterNext())
  }

  /** After the drain there is nothing left, and asking again changes nothing more. */
  lemma {:induction false} DrainedIsEmpty(l: Line)
    requires l.Valid()
    ensures var d := Drained(l);
      && d.Next().None? && d.AfterNext().Next().None?
      && d.queue.Pending() == [] && d.controls == [] && d.queue.Unreported() == 0
      && d.closeCode == l.closeCode && (l.closeCode.Some? ==> d.closeEmitted)
    decreases Remaining(l)
  {
    if l.Next().Some? { DrainedIsEmpty(l.AfterNext()); }
  }

  // ----- over whole runs ------------------------------------------------------------------

  datatype LineOp = SendBytes(bytes: seq<byte>) | SendControl(control: Control) | CloseOp(code: nat) | TakeNext

  function ApplyLine(l: Line, op: LineOp): (r: Line)
    requires l.Valid()
    ensures r.Valid()
  {
    match op
    case SendBytes(bytes) => l.PushBytes(bytes)
    case SendControl(c) => l.PushControl(c)
    case CloseOp(code) => l.CloseWith(code)
    case TakeNext => l.AfterNext()
  }

  function RunLine(l: Line, ops: seq<LineOp>): (r: Line)
    requires l.Valid()
    ensures r.Valid()
    decreases |ops|
  {
    if ops == [] then l else RunLine(ApplyLine(l, ops[0]), ops[1..])
  }

  /** What one operation hands out. */
  function Handed(l: Line, op: LineOp): seq<Item>
    requires l.Valid()
  {
    if op.TakeNext? && l.Next().Some? then [l.Next().value] else []
  }

  function Emitted(l: Line, ops: seq<LineOp>): seq<Item>
    requires l.Valid()
    decreases |ops|
  {
    if ops == [] then [] else Handed(l, ops[0]) + Emitted(ApplyLine(l, ops[0]), ops[1..])
  }

  function Sent(op: LineOp): seq<byte> {
    if op.SendBytes? then op.bytes else []
  }

  function Pushed(ops: seq<LineOp>): seq<byte> {
    if ops == [] then [] else Sent(ops[0]) + Pushed(ops[1..])
  }

  function GapOf(c: Control): nat {
    if c.GapNotice? then c.bytesDropped else 0
  }

  function GapSent(op: LineOp): nat {
    if op.SendControl? then GapOf(op.control) else 0
  }

  function GapsSent(ops: seq<LineOp>): nat {
    if ops == [] then 0 else GapSent(ops[0]) + GapsSent(ops[1..])
  }

  function GapsQueued(controls: seq<Control>): nat {
    if controls == [] then 0 else GapOf(controls[0]) + GapsQueued(controls[1..])
  }

  function ItemGap(i: Item): nat {
    if i.Frame? then GapOf(i.control) else 0
  }

  function ItemData(i: Item): seq<byte> {
    if i.Data? then i.bytes else []
  }

  function GapsIn(items: seq<Item>): nat {
    if items == [] then 0 else ItemGap(items[0]) + GapsIn(items[1..])
  }

  function ClosesIn(items: seq<Item>): nat {
    if items == [] then 0 else (if items[0].Close? then 1 else 0) + ClosesIn(items[1..])
  }

  lemma {:induction false} GapsQueuedAppend(controls: seq<Control>, c: Control)
    ensures GapsQueued(controls + [c]) == GapsQueued(controls) + GapOf(c)
  {
    if controls == [] {
      assert controls + [c] == [c];
    } else {
      GapsQueuedAppend(controls[1..], c);
      assert (controls + [c])[1..] == controls[1..] + [c];
    }
  }

  lemma {:induction false} DataAppend(a: seq<Item>, b: seq<Item>)
    ensures DataOf(a + b) == DataOf(a) + DataOf(b)
  {
    hide ItemData;
    if a == [] {
      assert a + b == b;
    } else {
      DataAppend(a[1..], b);
      var all := a + b;
      assert all[0] == a[0] && all[1..] == a[1..] + b;
      Associates(ItemData(a[0]), DataOf(a[1..]), DataOf(b));
    }
  }

  lemma Associates(x: seq<byte>, y: seq<byte>, z: seq<byte>)
    ensures x + (y + z) == x + y + z
  {
  }

  lemma {:induction false} CountsAppend(a: seq<Item>, b: seq<Item>)
    ensures GapsIn(a + b) == GapsIn(a) + GapsIn(b)
    ensures ClosesIn(a + b) == ClosesIn(a) + ClosesIn(b)
  {
    hide ItemGap;
    if a == [] {
      assert a + b == b;
    } else {
      CountsAppend(a[1..], b);
      assert (a + b)[0] == a[0] && (a + b)[1..] == a[1..] + b;
    }
  }

  lemma ItemsAppend(a: seq<Item>, b: seq<Item>)
    ensures DataOf(a + b) == DataOf(a) + DataOf(b)
    ensures GapsIn(a + b) == GapsIn(a) + GapsIn(b)
    ensures ClosesIn(a + b) == ClosesIn(a) + ClosesIn(b)
  {
    DataAppend(a, b);
    CountsAppend(a, b);
  }

  /** One operation moves each byte and each gap from one account to another. */
  lemma StepConserves(l: Line, op: LineOp)
    requires l.Valid()
    ensures var r := ApplyLine(l, op); var out := Handed(l, op);
      && |r.queue.pushed| == |l.queue.pushed| + |Sent(op)|
      && r.queue.taken == l.queue.taken + |DataOf(out)|
      && GapsIn(out) + l.queue.reported + GapsQueued(r.controls)
         == r.queue.reported + GapsQueued(l.controls) + GapSent(op)
      && r.queue.capacity == l.queue.capacity
  {
    match op
    case SendControl(c) => GapsQueuedAppend(l.controls, c);
    case SendBytes(_) => hide DataOf, GapsIn;
    case CloseOp(_) => hide DataOf, GapsIn;
    case TakeNext => TakeConserves(l);
  }

  lemma TakeConserves(l: Line)
    requires l.Valid()
    ensures var r := ApplyLine(l, TakeNext); var out := Handed(l, TakeNext);
      && |r.queue.pushed| == |l.queue.pushed|
      && r.queue.taken == l.queue.taken + |DataOf(out)|
      && GapsIn(out) + l.queue.reported + GapsQueued(r.controls) == r.queue.reported + GapsQueued(l.controls)
      && r.queue.capacity == l.queue.capacity
  {
  }

  /** Conservation over every run: each pushed byte has been delivered, is covered
      by a reported gap, is still unreported, or is still queued; and every gap
      handed out was either reported by the queue or sent as a control. */
  lemma {:induction false} BytesAreConserved(l: Line, ops: seq<LineOp>)
    requires l.Valid()
    ensures var r := RunLine(l, ops);
      && |r.queue.pushed| == |l.queue.pushed| + |Pushed(ops)|
      && r.queue.taken == l.queue.taken + |DataOf(Emitted(l, ops))|
      && GapsIn(Emitted(l, ops)) + l.queue.reported + GapsQueued(r.controls)
         == r.queue.reported + GapsQueued(l.controls) + GapsSent(ops)
      && |r.queue.pushed| == r.queue.taken + r.queue.reported + r.queue.Unreported() + r.queue.Queued()
      && r.queue.Queued() <= r.queue.capacity == l.queue.capacity
    decreases |ops|
  {
    if ops != [] {
      var next := ApplyLine(l, ops[0]);
      hide ApplyLine, Handed, Sent, GapOf;
      StepConserves(l, ops[0]);
      ItemsAppend(Handed(l, ops[0]), Emitted(next, ops[1..]));
      BytesAreConserved(next, ops[1..]);
    }
  }

  /** The first close code wins, over every run. */
  lemma {:induction false} FirstCloseCodeWins(l: Line, ops: seq<LineOp>)
    requires l.Valid() && l.closeCode.Some?
    ensures RunLine(l, ops).closeCode == l.closeCode
    decreases |ops|
  {
    if ops != [] { FirstCloseCodeWins(ApplyLine(l, ops[0]), ops[1..]); }
  }

  /** The close code is handed out at most once, and never after it was. */
  lemma {:induction false} CloseAtMostOnce(l: Line, ops: seq<LineOp>)
    requires l.Valid()
    ensures ClosesIn(Emitted(l, ops)) + (if l.closeEmitted then 1 else 0) <= 1
    decreases |ops|
  {
    if ops != [] {
      var next := ApplyLine(l, ops[0]);
      CloseAtMostOnce(next, ops[1..]);
      ItemsAppend(Handed(l, ops[0]), Emitted(next, ops[1..]));
      StepCloses(l, ops[0]);
      hide ApplyLine, Handed, ClosesIn;
    }
  }

  lemma StepCloses(l: Line, op: LineOp)
    requires l.Valid()
    ensures ClosesIn(Handed(l, op)) + (if l.closeEmitted then 1 else 0) == if ApplyLine(l, op).closeEmitted then 1 else 0
  {
  }

  // ----- the slow client --------------------------------------------------------------------

  predicate NobodyCloses(ops: seq<LineOp>) {
    forall i :: 0 <= i < |ops| ==> !ops[i].CloseOp?
  }

  /** Closed as too slow exactly when more than the limit is gone, and otherwise open. */
  predicate ClosedIfSlow(l: Line) {
    l.closeCode ==
      if l.queue.limit.Some? && l.queue.dropped > l.queue.limit.value then Some(CloseCodes.SLOW_CLIENT) else None
  }

  lemma StepClosesIfSlow(l: Line, op: LineOp)
    requires l.Valid() && ClosedIfSlow(l) && !op.CloseOp?
    ensures ClosedIfSlow(ApplyLine(l, op)) && ApplyLine(l, op).queue.limit == l.queue.limit
  {
    if op.SendBytes? { WatermarkExactly(l.queue, op.bytes); }
  }

  lemma {:induction false} RunClosesIfSlow(l: Line, ops: seq<LineOp>)
    requires l.Valid() && ClosedIfSlow(l) && NobodyCloses(ops)
    ensures ClosedIfSlow(RunLine(l, ops)) && RunLine(l, ops).queue.limit == l.queue.limit
    decreases |ops|
  {
    if ops != [] {
      assert !ops[0].CloseOp?;
      StepClosesIfSlow(l, ops[0]);
      hide ApplyLine, ClosedIfSlow;
      RunClosesIfSlow(ApplyLine(l, ops[0]), ops[1..]);
    }
  }

  /** Over every run that nothing else closes, a connection is closed as too slow exactly
      when a limit is set and more bytes than that were pushed since the start and are
      neither handed out nor waiting; no single push need lose that many. */
  lemma SlowClientExactly(capacity: nat, limit: Option<nat>, ops: seq<LineOp>)
    requires NobodyCloses(ops)
    ensures var start := NewLine(capacity, limit);
      var r := RunLine(start, ops);
      var lost := |Pushed(ops)| - |DataOf(Emitted(start, ops))| - |r.queue.Pending()|;
      && (r.closeCode == Some(CloseCodes.SLOW_CLIENT) <==> limit.Some? && lost > limit.value)
      && (r.closeCode.Some? ==> r.closeCode == Some(CloseCodes.SLOW_CLIENT))
  {
    RunClosesIfSlow(NewLine(capacity, limit), ops);
    BytesAreConserved(NewLine(capacity, limit), ops);
    hide RunLine, Emitted, Pushed, DataOf, GapsIn, GapsQueued, GapsSent;
  }

  // ----- the object -------------------------------------------------------------------------

  class Outbound {
    const conn: nat
    const queue: ByteQueue
    var controls: seq<Control>
    var closeCode: Option<nat>
    var closeEmitted: bool

    ghost predicate Valid()
      reads this, queue
    {
      queue.Valid()
    }

    ghost function View(): (l: Line)
      requires Valid()
      reads this, queue
      ensures l.Valid()
    {
      Line(queue.View(), controls, closeCode, closeEmitted)
    }

    constructor (conn: nat, capacity: nat, limit: Option<nat>)
      ensures Valid() && fresh(queue) && this.conn == conn
      ensures View() == NewLine(capacity, limit)
    {
      this.conn := conn;
      queue := new ByteQueue(capacity, limit);
      controls, closeCode, closeEmitted := [], None, false;
    }

    method PushBytes(bytes: seq<byte>)
      requires Valid()
      modifies this, queue
      ensures Valid() && View() == old(View()).PushBytes(bytes)
      ensures closeCode ==
        if old(closeCode).Some? then old(closeCode)
        else if (queue.capacityBytes == 0 || |old(queue.buf)| + |bytes| > queue.capacityBytes)
             && queue.maxDroppedBytes.Some? && queue.dropped > queue.maxDroppedBytes.value
        then Some(CloseCodes.SLOW_CLIENT)
        else None
    {
      var outcome := queue.Push(bytes);
      if outcome.HardWatermark? {
        CloseWith(CloseCodes.SLOW_CLIENT);
      }
    }

    method PushControl(c: Control)
      requires Valid()
      modifies this
      ensures Valid() && View() == old(View()).PushControl(c)
    {
      controls := controls + [c];
    }

    method CloseWith(code: nat)
      requires Valid()
      modifies this
      ensures Valid() && View() == old(View()).CloseWith(code)
    {
      if closeCode.None? {
        closeCode := Some(code);
      }
    }

    method TryNext() returns (item: Option<Item>)
      requires Valid()
      modifies this, queue
      ensures Valid() && View() == old(View()).AfterNext() && item == old(View()).Next()
    {
      var gap := queue.TakeUnreportedGap();
      if gap.Some? {
        return Some(Frame(GapNotice(gap.value)));
      }
      if controls != [] {
        item := Some(Frame(controls[0]));
        controls := controls[1..];
        return;
      }
      var bytes := queue.Take(READ_CHUNK);
      if bytes != [] {
        return Some(Data(bytes));
      }
      if closeCode.None? {
        return None;
      }
      if closeEmitted {
        return None;
      }
      closeEmitted := true;
      return Some(Close(closeCode.value));
    }
  }
}
