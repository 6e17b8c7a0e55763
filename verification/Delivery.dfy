/** The output path end to end: the replay window feeding one connection's lossy
    queue, and what a client that adds up gaps and bytes can conclude. */
module Delivery {
  import opened Bytes
  import opened RingBuf
  import opened Outbound
  import opened Kitty
  import CloseCodes
  import CapProxy

  /** What an attach replays: an explicit cursor is always honoured; without one the
      whole window is replayed when that is configured and anything is retained. */
  function ReplayFor(w: Window, since: Option<nat>, replayAll: bool): Option<Replay>
    requires w.Valid()
  {
    if since.Some? then Some(w.ReadSince(since.value))
    else if replayAll && w.capacity > 0 then Some(w.ReadSince(0))
    else None
  }

  /** Without a cursor the client gets everything retained, with a gap exactly for what is
      gone, where that is configured and anything can be retained, and nothing otherwise. */
  lemma CursorlessReplay(w: Window, replayAll: bool)
    requires w.Valid()
    ensures var r := ReplayFor(w, None, replayAll);
      if replayAll && w.capacity > 0 then
        && r.Some? && r.value.bytes == w.history[|w.history| - w.retained..]
        && Skipped(r.value) == |w.history| - w.retained
        && (r.value.Gap? <==> w.retained < |w.history|)
      else r.None?
  {
    ReplayMeaning(w, 0);
    if w.retained == |w.history| { assert w.history[0..] == w.history; }
  }

  /** A client that attaches without a cursor, or is told of a gap, starts afresh on the
      replay; any other continues where its cursor says. */
  predicate StartsFresh(since: Option<nat>, replay: Option<Replay>) {
    since.None? || (replay.Some? && replay.value.Gap?)
  }

  function Replayed(replay: Option<Replay>): seq<byte> {
    if replay.Some? then replay.value.bytes else []
  }

  /** The proxy's keyboard model once it is brought in line with the new client. */
  function ModelAfterAttach(m: Model, since: Option<nat>, replay: Option<Replay>): Model {
    if StartsFresh(since, replay) then CapProxy.Scan(FRESH_MODEL, Replayed(replay)).model else m
  }

  /** Where the client's own count starts. */
  function StartOffset(w: Window, since: Option<nat>, replayAll: bool): nat {
    if since.Some? then since.value
    else if replayAll && w.capacity > 0 then 0
    else |w.history|
  }

  /** A new connection's queue with the notice and the replay in it. */
  function AttachedLine(empty: Line, notice: Control, replay: Option<Replay>): (l: Line)
    requires empty.Valid()
    ensures l.Valid()
  {
    var noticed := empty.PushControl(notice);
    match replay
    case None => noticed
    case Some(Contiguous(bytes, _)) => noticed.PushBytes(bytes)
    case Some(Gap(n, bytes, _)) => noticed.PushControl(GapNotice(n)).PushBytes(bytes)
  }

  /** `s` is what `h` holds from offset `a` on. */
  ghost predicate At(h: seq<byte>, a: nat, s: seq<byte>) {
    a + |s| <= |h| && h[a..a + |s|] == s
  }

  lemma AtGrows(h: seq<byte>, a: nat, s: seq<byte>, more: seq<byte>)
    requires At(h, a, s)
    ensures At(h + more, a, s)
    ensures a + |s| == |h| ==> At(h + more, a, s + more)
  {
    assert (h + more)[a..a + |s|] == h[a..a + |s|];
  }

  lemma AtExtends(h: seq<byte>, a: nat, s: seq<byte>, b: seq<byte>)
    requires At(h, a, s) && At(h, a + |s|, b)
    ensures At(h, a, s + b)
  {
  }

  lemma AtTail(h: seq<byte>, a: nat)
    requires a <= |h|
    ensures At(h, a, h[a..])
  {
  }

  /** One connection against the stream, and what its client has added up so far. */
  datatype Link = Link(window: Window, line: Line, subscribed: bool,
                       start: nat, gaps: nat, delivered: seq<byte>) {
    function Cursor(): nat {
      start + gaps + |delivered|
    }

    /** Gaps promised to the client: told already, or waiting as a control. */
    function Promised(): nat {
      start + gaps + GapsQueued(line.controls)
    }

    /** Stream offset of the first byte ever pushed to this connection. */
    function Base(): int {
      Promised() - line.queue.reported
    }

    ghost predicate Inv() {
      && window.Valid() && line.Valid()
      && |delivered| == line.queue.taken
      && Base() >= 0
      && At(window.history, Base(), line.queue.pushed)
      && (subscribed ==> Base() + |line.queue.pushed| == |window.history|)
      && (gaps == 0 ==> At(window.history, start, delivered))
    }

    /** The client's cursor plus all it has yet to be told or sent is the stream's length. */
    predicate Accounted()
      requires line.Valid()
    {
      Cursor() + GapsQueued(line.controls) + line.queue.Unreported() + line.queue.Queued() == |window.history|
    }
  }

  function AttachLink(w: Window, since: Option<nat>, replayAll: bool, notice: Control,
                      capacity: nat, limit: Option<nat>): Link
    requires w.Valid()
  {
    Link(w, AttachedLine(NewLine(capacity, limit), notice, ReplayFor(w, since, replayAll)), true,
         StartOffset(w, since, replayAll), 0, [])
  }

  datatype LinkStep =
    | Output(bytes: seq<byte>)
    | Pull
    | Warn(secondsRemaining: nat, absolute: bool)
    | Announce(secondsRemaining: nat)
    | CloseLine(code: nat)
    | Unsubscribe
    | ClearWindow

  function Step(l: Link, s: LinkStep): Link
    requires l.line.Valid()
  {
    match s
    case Output(bytes) =>
      var written := l.(window := l.window.Write(bytes));
      if l.subscribed then written.(line := l.line.PushBytes(bytes)) else written
    case Pull =>
      var item := l.line.Next();
      var told := if item.Some? then ItemGap(item.value) else 0;
      var got := if item.Some? then ItemData(item.value) else [];
      l.(line := l.line.AfterNext(), gaps := l.gaps + told, delivered := l.delivered + got)
    case Warn(n, absolute) => l.(line := l.line.PushControl(TtlWarning(n, absolute)))
    case Announce(n) => l.(line := l.line.PushControl(ShuttingDown(n)))
    case CloseLine(code) => l.(line := l.line.CloseWith(code))
    case Unsubscribe => l.(subscribed := false)
    case ClearWindow => l.(window := l.window.Clear())
  }

  function Run(l: Link, steps: seq<LinkStep>): Link
    requires l.line.Valid()
    decreases |steps|
  {
    if steps == [] then l else StepKeepsLine(l, steps[0]); Run(Step(l, steps[0]), steps[1..])
  }

  lemma StepKeepsLine(l: Link, s: LinkStep)
    requires l.line.Valid()
    ensures Step(l, s).line.Valid()
  {
  }

  // ----- the invariant ------------------------------------------------------------------

  lemma AttachEstablishes(w: Window, since: Option<nat>, replayAll: bool, notice: Control,
                          capacity: nat, limit: Option<nat>)
    requires w.Valid() && notice.AttachNotice?
    requires StartOffset(w, since, replayAll) <= |w.history|
    ensures AttachLink(w, since, replayAll, notice, capacity, limit).Inv()
  {
    var l := AttachLink(w, since, replayAll, notice, capacity, limit);
    var replay := ReplayFor(w, since, replayAll);
    AttachedShape(NewLine(capacity, limit), notice, replay);
    assert At(w.history, l.start, []);
    if replay.Some? {
      ReplayMeaning(w, l.start);
      AtTail(w.history, l.start + Skipped(replay.value));
    } else {
      AtTail(w.history, |w.history|);
      assert w.history[|w.history|..] == [];
    }
  }

  lemma AttachedShape(empty: Line, notice: Control, replay: Option<Replay>)
    requires empty.Valid() && empty.queue.pushed == [] && empty.controls == [] && notice.AttachNotice?
    ensures var l := AttachedLine(empty, notice, replay);
      && l.queue.taken == empty.queue.taken && l.queue.reported == empty.queue.reported
      && l.queue.pushed == (if replay.Some? then replay.value.bytes else [])
      && GapsQueued(l.controls) == (if replay.Some? then Skipped(replay.value) else 0)
  {
    assert empty.controls + [notice] == [notice];
    GapsQueuedAppend([], notice);
    assert [] + [notice] == [notice];
    if replay.Some? && replay.value.Gap? {
      GapsQueuedAppend([notice], GapNotice(replay.value.bytesDropped));
    }
  }

  lemma StepKeepsInv(l: Link, s: LinkStep)
    requires l.Inv()
    ensures Step(l, s).Inv()
  {
    match s
    case Output(bytes) => OutputKeepsInv(l, bytes);
    case Pull => PullKeepsInv(l);
    case Warn(n, absolute) => GapsQueuedAppend(l.line.controls, TtlWarning(n, absolute));
    case Announce(n) => GapsQueuedAppend(l.line.controls, ShuttingDown(n));
    case _ =>
  }

  lemma OutputKeepsInv(l: Link, bytes: seq<byte>)
    requires l.Inv()
    ensures Step(l, Output(bytes)).Inv()
  {
    AtGrows(l.window.history, l.Base(), l.line.queue.pushed, bytes);
    if l.gaps == 0 { AtGrows(l.window.history, l.start, l.delivered, bytes); }
    hide At;
  }

  /** A data item is the stream at the client's own cursor. */
  lemma DataIsAtCursor(l: Link)
    requires l.Inv() && l.line.Next().Some? && l.line.Next().value.Data?
    ensures var b := l.line.Next().value.bytes;
      At(l.window.history, l.Cursor(), b)
  {
    var q := l.line.queue;
    var b := l.line.Next().value.bytes;
    assert q.reported == q.dropped && GapsQueued(l.line.controls) == 0;
    assert l.Cursor() == l.Base() + q.taken + q.dropped;
    assert b == q.pushed[q.taken + q.dropped..][..|b|];
  }

  lemma PullKeepsInv(l: Link)
    requires l.Inv()
    ensures Step(l, Pull).Inv()
  {
    hide At;
    var item := l.line.Next();
    if item.Some? && item.value.Data? {
      PullDataKeepsInv(l);
    } else {
      var r := Step(l, Pull);
      assert r.delivered == l.delivered;
      assert r.Base() == l.Base();
      assert r.line.queue.pushed == l.line.queue.pushed;
    }
  }

  lemma PullDataKeepsInv(l: Link)
    requires l.Inv() && l.line.Next().Some? && l.line.Next().value.Data?
    ensures Step(l, Pull).Inv()
  {
    hide At;
    var r := Step(l, Pull);
    var b := l.line.Next().value.bytes;
    DataIsAtCursor(l);
    assert r.line.queue == l.line.queue.Take(READ_CHUNK) && r.line.controls == l.line.controls;
    if l.gaps == 0 { AtExtends(l.window.history, l.start, l.delivered, b); }
  }

  lemma {:induction false} RunKeepsInv(l: Link, steps: seq<LinkStep>)
    requires l.Inv()
    ensures Run(l, steps).Inv()
    decreases |steps|
  {
    if steps != [] {
      StepKeepsInv(l, steps[0]);
      RunKeepsInv(Step(l, steps[0]), steps[1..]);
    }
  }

  // ----- what the client can conclude -------------------------------------------------------

  /** Along the run, every data item handed out is the stream at the offset the
      client has counted up to. */
  ghost predicate EveryItemAtCursor(l: Link, steps: seq<LinkStep>)
    requires l.line.Valid()
    decreases |steps|
  {
    steps == [] || (
      && (steps[0].Pull? && l.line.Next().Some? && l.line.Next().value.Data? ==>
            At(l.window.history, l.Cursor(), l.line.Next().value.bytes))
      && (StepKeepsLine(l, steps[0]); EveryItemAtCursor(Step(l, steps[0]), steps[1..])))
  }

  lemma {:induction false} ItemsFollowCursor(l: Link, steps: seq<LinkStep>)
    requires l.Inv()
    ensures EveryItemAtCursor(l, steps)
    decreases |steps|
  {
    if steps != [] {
      if steps[0].Pull? && l.line.Next().Some? && l.line.Next().value.Data? { DataIsAtCursor(l); }
      StepKeepsInv(l, steps[0]);
      ItemsFollowCursor(Step(l, steps[0]), steps[1..]);
    }
  }

  lemma SubscribedIsAccounted(l: Link)
    requires l.Inv() && l.subscribed
    ensures l.Accounted()
  {
  }

  /** End to end, from any attach with a cursor inside the stream and over any run
      of output, drains, warnings and closes, with any eviction in the window or the
      queue: each data item sits at the client's cursor, the cursor plus what is
      pending is the stream's length while subscribed, a client that has been told
      of no gap holds an exact slice of the stream, and one that has drained
      everything is at the end. */
  lemma EndToEnd(w: Window, since: Option<nat>, replayAll: bool, notice: Control,
                 capacity: nat, limit: Option<nat>, steps: seq<LinkStep>)
    requires w.Valid() && notice.AttachNotice?
    requires StartOffset(w, since, replayAll) <= |w.history|
    ensures var l := AttachLink(w, since, replayAll, notice, capacity, limit);
      var r := Run(l, steps);
      && EveryItemAtCursor(l, steps)
      && r.line.Valid()
      && (r.subscribed ==> r.Accounted())
      && (r.gaps == 0 ==> At(r.window.history, r.start, r.delivered))
      && (r.subscribed && r.line.Next().None? ==> r.Cursor() == |r.window.history|)
  {
    var l := AttachLink(w, since, replayAll, notice, capacity, limit);
    AttachEstablishes(w, since, replayAll, notice, capacity, limit);
    ItemsFollowCursor(l, steps);
    RunKeepsInv(l, steps);
    var r := Run(l, steps);
    if r.subscribed { SubscribedIsAccounted(r); }
  }

  /** The accounting holds at attach exactly for cursors inside the stream: one from
      a previous generation, past the end, never adds up. */
  lemma AccountedExactlyInsideStream(w: Window, since: Option<nat>, replayAll: bool, notice: Control,
                                     capacity: nat, limit: Option<nat>)
    requires w.Valid() && notice.AttachNotice?
    ensures var l := AttachLink(w, since, replayAll, notice, capacity, limit);
      l.line.Valid() && (l.Accounted() <==> l.start <= |w.history|)
  {
    var l := AttachLink(w, since, replayAll, notice, capacity, limit);
    var replay := ReplayFor(w, since, replayAll);
    AttachedShape(NewLine(capacity, limit), notice, replay);
    ReplayMeaning(w, l.start);
    var q := l.line.queue;
    assert q.Unreported() + q.Queued() == |q.pushed|;
  }

  // ----- the object --------------------------------------------------------------------------

  /** The I/O side of one session's output: proxy, window, current subscriber. */
  class SessionOutput {
    const proxy: CapProxy.CapabilityProxy
    const buffer: RingBuffer
    const replayAll: bool
    const backlogCapacity: nat
    const backlogLimit: Option<nat>
    var subscriber: Outbound?

    ghost predicate Valid()
      reads this, buffer, subscriber, if subscriber != null then {subscriber.queue} else {}
    {
      && buffer.Valid()
      && (subscriber != null ==> subscriber.Valid())
    }

    constructor (scrollbackBytes: nat, replayAll: bool, backlogCapacity: nat, backlogLimit: Option<nat>)
      ensures Valid() && subscriber == null && fresh(proxy) && fresh(buffer)
      ensures proxy.Model() == FRESH_MODEL && buffer.View() == NewWindow(scrollbackBytes)
      ensures this.replayAll == replayAll
      ensures this.backlogCapacity == backlogCapacity && this.backlogLimit == backlogLimit
    {
      proxy := new CapProxy.CapabilityProxy();
      buffer := new RingBuffer(scrollbackBytes);
      this.replayAll, this.backlogCapacity, this.backlogLimit := replayAll, backlogCapacity, backlogLimit;
      subscriber := null;
    }

    /** One chunk from the child: answered and stripped, retained, then forwarded.
        Returns the answers to write back to the child. */
    method OnOutput(bytes: seq<byte>) returns (response: seq<byte>)
      requires Valid()
      modifies proxy, buffer, subscriber, if subscriber != null then {subscriber.queue} else {}
      ensures Valid() && subscriber == old(subscriber)
      ensures var r := CapProxy.Scan(old(proxy.Model()), bytes);
        && response == r.responses && proxy.Model() == r.model
        && buffer.View() == old(buffer.View()).Write(r.kept)
        && (subscriber != null ==> subscriber.View() == old(subscriber.View()).PushBytes(r.kept))
    {
      var forwarded;
      forwarded, response := proxy.Process(bytes);
      var _ := buffer.Write(forwarded);
      if subscriber != null {
        subscriber.PushBytes(forwarded);
      }
    }

    method ReadReplay(since: Option<nat>) returns (replay: Option<Replay>)
      requires Valid()
      ensures replay == ReplayFor(buffer.View(), since, replayAll)
    {
      if since.Some? {
        var r := buffer.ReadSince(since.value);
        return Some(r);
      }
      if replayAll && buffer.capacity > 0 {
        var r := buffer.ReadSince(0);
        return Some(r);
      }
      return None;
    }

    /** Register a new subscriber and its replay in one step; the previous one is
        told it was taken over. Returns the stream offset the replay ends at. */
    method Attach(conn: nat, since: Option<nat>, notice: Control) returns (outbound: Outbound, streamOffset: nat)
      requires Valid()
      modifies this, proxy, subscriber
      ensures Valid() && subscriber == outbound
      ensures fresh(outbound) && fresh(outbound.queue) && outbound.conn == conn
      ensures buffer.View() == old(buffer.View()) && streamOffset == |buffer.View().history|
      ensures var replay := ReplayFor(buffer.View(), since, replayAll);
        && outbound.View() == AttachedLine(NewLine(backlogCapacity, backlogLimit), notice, replay)
        && proxy.Model() == ModelAfterAttach(old(proxy.Model()), since, replay)
      ensures proxy.answered == old(proxy.answered)
      ensures old(subscriber) != null ==>
        old(subscriber).Valid() && old(subscriber).View() == old(subscriber.View()).CloseWith(CloseCodes.TAKEOVER)
    {
      hide CapProxy.Scan, AttachedLine, ReplayFor, NewLine, RingBuffer.Valid, RingBuffer.View, Outbound.Valid, Outbound.View, Window.ReadSince, Line.CloseWith;
      streamOffset := buffer.written;
      var replay := ReadReplay(since);
      var previous := subscriber;
      outbound := new Outbound(conn, backlogCapacity, backlogLimit);
      subscriber := outbound;
      if previous != null {
        previous.CloseWith(CloseCodes.TAKEOVER);
      }
      if since.None? || (replay.Some? && replay.value.Gap?) {
        proxy.Resync(if replay.Some? then replay.value.bytes else []);
      }
      FillReplay(outbound, notice, replay);
    }
  }

  /** Put the notice and the replay into a new connection's queue. */
  method FillReplay(outbound: Outbound, notice: Control, replay: Option<Replay>)
    requires outbound.Valid()
    modifies outbound, outbound.queue
    ensures outbound.Valid() && outbound.View() == AttachedLine(old(outbound.View()), notice, replay)
  {
    outbound.PushControl(notice);
    match replay {
      case None =>
      case Some(Contiguous(bytes, _)) => outbound.PushBytes(bytes);
      case Some(Gap(n, bytes, _)) =>
        outbound.PushControl(GapNotice(n));
        outbound.PushBytes(bytes);
    }
  }
}
