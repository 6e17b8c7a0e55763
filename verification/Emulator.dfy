/** The proxy's keyboard model against the emulators of a session's clients: several
    clients that come and go with their own cursors, the window's real replays, and the
    connection's lossy queue. */
module Emulator {
  import opened Bytes
  import opened Kitty
  import opened CapProxy
  import opened Chunks
  import opened RingBuf
  import opened Outbound
  import Delivery
  import Answers

  type Client = nat

  /** A client's emulator: the stream offset it last started afresh at, and what it has
      been fed since. */
  datatype Terminal = Terminal(start: nat, fed: seq<byte>) {
    function Cursor(): nat { start + |fed| }
  }

  /** The attached client's queue; `base` is the stream offset of the first byte ever
      pushed to it. */
  datatype Connection = Connection(client: Client, line: Line, base: nat)

  /** `origin` is the stream offset the proxy's model was last started at. */
  datatype State = State(
    window: Window, model: Model, origin: nat, terminals: map<Client, Terminal>, current: Option<Connection>)

  datatype Config = Config(scrollback: nat, replayAll: bool, backlog: nat, limit: Option<nat>)

  datatype Event =
    | Output(chunk: seq<byte>)
    | Attach(client: Client, since: Option<nat>)
    | Pull
    | Tell(control: Control)
    | Detach

  const NOTICE := AttachNotice(true)

  // ----- the steps ---------------------------------------------------------------------------

  predicate IsGap(c: Control) {
    c.GapNotice?
  }

  /** The client has yet to be told of a gap, and starts afresh when it is. */
  predicate ResetDue(l: Line)
    requires l.Valid()
  {
    l.queue.Unreported() > 0 || exists i :: 0 <= i < |l.controls| && IsGap(l.controls[i])
  }

  /** Stream offset of the next byte the connection will hand out. */
  function NextOffset(conn: Connection): nat {
    conn.base + conn.line.queue.taken + conn.line.queue.dropped
  }

  /** A client without a cursor starts a new emulator; one whose cursor is where its
      emulator stands goes on with it; any other cursor is a new emulator's. */
  function TerminalFor(s: State, client: Client, since: Option<nat>, base: nat): Terminal {
    if since.None? then Terminal(base, [])
    else if client in s.terminals && s.terminals[client].Cursor() == since.value then s.terminals[client]
    else Terminal(since.value, [])
  }

  function BaseFor(s: State, since: Option<nat>, c: Config): int
    requires s.window.Valid()
  {
    |s.window.history| - |Delivery.Replayed(Delivery.ReplayFor(s.window, since, c.replayAll))|
  }

  function Connect(s: State, client: Client, since: Option<nat>, c: Config): State
    requires s.window.Valid()
  {
    ReplayIsSuffix(s.window, since, c.replayAll);
    var replay, base := Delivery.ReplayFor(s.window, since, c.replayAll), BaseFor(s, since, c);
    State(
      s.window,
      Delivery.ModelAfterAttach(s.model, since, replay),
      if Delivery.StartsFresh(since, replay) then base else s.origin,
      s.terminals[client := TerminalFor(s, client, since, base)],
      Some(Connection(client, Delivery.AttachedLine(NewLine(c.backlog, c.limit), NOTICE, replay), base)))
  }

  /** What an item does to the emulator: a gap restarts it, data is fed to it. */
  function Feed(t: Terminal, item: Item, next: nat): Terminal {
    match item
    case Data(bytes) => t.(fed := t.fed + bytes)
    case Frame(GapNotice(_)) => Terminal(next, [])
    case _ => t
  }

  predicate Sound(s: State) {
    && s.window.Valid()
    && (s.current.Some? ==> s.current.value.line.Valid() && s.current.value.client in s.terminals)
  }

  function TakeItem(s: State): State
    requires Sound(s)
  {
    if s.current.None? || s.current.value.line.Next().None? then s
    else
      var conn := s.current.value;
      var after := conn.(line := conn.line.AfterNext());
      s.(terminals := s.terminals[conn.client := Feed(s.terminals[conn.client], conn.line.Next().value, NextOffset(after))],
         current := Some(after))
  }

  function WithLine(s: State, line: Line): State
    requires s.current.Some?
  {
    s.(current := Some(s.current.value.(line := line)))
  }

  function Write(s: State, chunk: seq<byte>): State
    requires Sound(s)
  {
    var r := Scan(s.model, chunk);
    var written := s.(window := s.window.Write(r.kept), model := r.model);
    if s.current.None? then written else WithLine(written, s.current.value.line.PushBytes(r.kept))
  }

  function Step(s: State, e: Event, c: Config): (r: State)
    requires Sound(s)
    ensures Sound(r)
  {
    match e
    case Output(chunk) => Write(s, chunk)
    case Attach(client, since) => Connect(s, client, since, c)
    case Pull => TakeItem(s)
    case Tell(control) =>
      if s.current.None? || IsGap(control) then s else WithLine(s, s.current.value.line.PushControl(control))
    case Detach => s.(current := None)
  }

  function StartState(c: Config): State {
    State(NewWindow(c.scrollback), FRESH_MODEL, 0, map[], None)
  }

  function RunFrom(s: State, events: seq<Event>, c: Config): (r: State)
    requires Sound(s)
    ensures Sound(r)
    decreases |events|
  {
    if events == [] then s else Step(RunFrom(s, events[..|events| - 1], c), events[|events| - 1], c)
  }

  // ----- what each emulator has been fed --------------------------------------------------------

  /** Whatever the cursor, a replay is a suffix of the stream. */
  lemma ReplayIsSuffix(w: Window, since: Option<nat>, replayAll: bool)
    requires w.Valid()
    ensures var bytes := Delivery.Replayed(Delivery.ReplayFor(w, since, replayAll));
      |bytes| <= |w.history| && bytes == w.history[|w.history| - |bytes|..]
  {
  }

  /** Where the attached client's emulator starts, once it has been told of its gaps. */
  function StartOf(s: State): nat
    requires Sound(s) && s.current.Some?
  {
    if ResetDue(s.current.value.line) then NextOffset(s.current.value) else s.terminals[s.current.value.client].start
  }

  /** All it will then have been fed: what it has, unless a reset is due, and what is
      pending. */
  function OwedTo(s: State): seq<byte>
    requires Sound(s) && s.current.Some?
  {
    var conn := s.current.value;
    (if ResetDue(conn.line) then [] else s.terminals[conn.client].fed) + conn.line.queue.Pending()
  }

  ghost predicate TerminalFits(h: seq<byte>, t: Terminal) {
    t.fed == [] || Delivery.At(h, t.start, t.fed)
  }

  ghost predicate LineFits(s: State, conn: Connection)
    requires conn.line.Valid() && conn.client in s.terminals
  {
    && conn.base <= |s.window.history| && conn.line.queue.pushed == s.window.history[conn.base..]
    && (!ResetDue(conn.line) ==> s.terminals[conn.client].Cursor() == NextOffset(conn))
  }

  ghost predicate Fits(s: State) {
    && Sound(s)
    && (forall k :: k in s.terminals ==> TerminalFits(s.window.history, s.terminals[k]))
    && (s.current.Some? ==> LineFits(s, s.current.value))
  }

  lemma PushKeepsReset(l: Line, bytes: seq<byte>)
    requires l.Valid()
    ensures ResetDue(l.PushBytes(bytes)) <==> ResetDue(l) || l.queue.Overflow(bytes) > 0
    ensures l.PushBytes(bytes).queue == l.queue.Push(bytes)
  {
    assert l.PushBytes(bytes).controls == l.controls;
  }

  lemma WriteKeepsFits(s: State, chunk: seq<byte>)
    requires Fits(s)
    ensures Fits(Write(s, chunk))
  {
    var kept := Scan(s.model, chunk).kept;
    var h := s.window.history;
    forall k | k in s.terminals ensures TerminalFits(h + kept, s.terminals[k]) {
      assert TerminalFits(h, s.terminals[k]);
      if s.terminals[k].fed != [] { Delivery.AtGrows(h, s.terminals[k].start, s.terminals[k].fed, kept); }
    }
    if s.current.Some? {
      PushKeepsReset(s.current.value.line, kept);
      hide Scan, ResetDue;
      assert (h + kept)[s.current.value.base..] == h[s.current.value.base..] + kept;
    }
  }

  lemma AttachedLineShape(c: Config, replay: Option<Replay>)
    ensures var l := Delivery.AttachedLine(NewLine(c.backlog, c.limit), NOTICE, replay);
      && l.queue.pushed == Delivery.Replayed(replay) && l.queue.taken == 0 && l.queue.reported == 0
      && l.queue.dropped == NewQueue(c.backlog, c.limit).Overflow(Delivery.Replayed(replay))
      && (ResetDue(l) <==> (replay.Some? && replay.value.Gap?) || l.queue.dropped > 0)
  {
    var empty := NewLine(c.backlog, c.limit);
    Delivery.AttachedShape(empty, NOTICE, replay);
    var l := Delivery.AttachedLine(empty, NOTICE, replay);
    if replay.Some? && replay.value.Gap? {
      assert l.controls == [NOTICE, GapNotice(replay.value.bytesDropped)];
      assert IsGap(l.controls[1]);
    } else {
      assert l.controls == [NOTICE];
    }
  }

  lemma ConnectKeepsFits(s: State, client: Client, since: Option<nat>, c: Config)
    requires Fits(s)
    ensures Fits(Connect(s, client, since, c))
  {
    var r := Connect(s, client, since, c);
    ReplayIsSuffix(s.window, since, c.replayAll);
    AttachedLineShape(c, Delivery.ReplayFor(s.window, since, c.replayAll));
    if since.Some? { ContiguousBase(s, since, c); }
    hide Scan, ResetDue, Delivery.AttachedLine;
    forall k | k in r.terminals ensures TerminalFits(r.window.history, r.terminals[k]) {
      if k in s.terminals { assert TerminalFits(s.window.history, s.terminals[k]); }
    }
  }

  /** A contiguous replay begins at the cursor. */
  lemma ContiguousBase(s: State, since: Option<nat>, c: Config)
    requires s.window.Valid() && since.Some?
    ensures Delivery.ReplayFor(s.window, since, c.replayAll).Some?
    ensures Delivery.ReplayFor(s.window, since, c.replayAll).value.Contiguous? ==> BaseFor(s, since, c) == since.value
  {
  }

  lemma TakeKeepsFits(s: State)
    requires Fits(s)
    ensures Fits(TakeItem(s))
  {
    if s.current.Some? && s.current.value.line.Next().Some? {
      var conn := s.current.value;
      var item := conn.line.Next().value;
      if item.Data? {
        DataExtends(s, conn, item.bytes);
      } else if item.Frame? && IsGap(item.control) {
        GapRestarts(s, conn);
      } else {
        OtherItem(s, conn);
      }
    }
  }

  lemma DataExtends(s: State, conn: Connection, bytes: seq<byte>)
    requires Fits(s) && s.current == Some(conn) && conn.line.Next() == Some(Data(bytes))
    ensures Fits(TakeItem(s))
  {
    DataIsNext(conn, bytes);
    var h, t := s.window.history, s.terminals[conn.client];
    FedExtends(h, t, conn, bytes);
    hide Delivery.At, ResetDue, TerminalFits, Line.Next, Line.AfterNext;
  }

  lemma DataIsNext(conn: Connection, bytes: seq<byte>)
    requires conn.line.Valid() && conn.line.Next() == Some(Data(bytes))
    ensures !ResetDue(conn.line) && !ResetDue(conn.line.AfterNext())
    ensures var after := conn.(line := conn.line.AfterNext());
      && NextOffset(conn) + |bytes| == NextOffset(after) && after.line.queue.pushed == conn.line.queue.pushed
    ensures NextOffset(conn) - conn.base + |bytes| <= |conn.line.queue.pushed|
    ensures bytes == conn.line.queue.pushed[NextOffset(conn) - conn.base..][..|bytes|]
  {
  }

  lemma FedExtends(h: seq<byte>, t: Terminal, conn: Connection, bytes: seq<byte>)
    requires TerminalFits(h, t) && t.Cursor() == NextOffset(conn)
    requires conn.base <= |h| && conn.line.queue.pushed == h[conn.base..]
    requires NextOffset(conn) - conn.base + |bytes| <= |conn.line.queue.pushed|
    requires bytes == conn.line.queue.pushed[NextOffset(conn) - conn.base..][..|bytes|]
    ensures TerminalFits(h, t.(fed := t.fed + bytes))
  {
    assert Delivery.At(h, t.Cursor(), bytes);
    if t.fed == [] {
      assert t.fed + bytes == bytes;
    } else {
      Delivery.AtExtends(h, t.start, t.fed, bytes);
    }
  }

  lemma GapRestarts(s: State, conn: Connection)
    requires Fits(s) && s.current == Some(conn) && conn.line.Next().Some?
    requires conn.line.Next().value.Frame? && IsGap(conn.line.Next().value.control)
    ensures Fits(TakeItem(s))
  {
    hide ResetDue, Delivery.At;
  }

  lemma OtherItem(s: State, conn: Connection)
    requires Fits(s) && s.current == Some(conn) && conn.line.Next().Some? && !conn.line.Next().value.Data?
    requires conn.line.Next().value.Frame? ==> !IsGap(conn.line.Next().value.control)
    ensures Fits(TakeItem(s))
  {
    var r := TakeItem(s);
    assert r.terminals == s.terminals;
    OtherItemReset(conn.line);
    hide ResetDue, Delivery.At;
  }

  lemma OtherItemReset(l: Line)
    requires l.Valid() && l.Next().Some? && !l.Next().value.Data?
    requires l.Next().value.Frame? ==> !IsGap(l.Next().value.control)
    ensures ResetDue(l.AfterNext()) <==> ResetDue(l)
    ensures l.AfterNext().queue == l.queue
  {
    var after := l.AfterNext();
    if l.controls != [] {
      assert forall i :: 0 <= i < |after.controls| ==> after.controls[i] == l.controls[i + 1];
      if ResetDue(l) {
        var i :| 0 <= i < |l.controls| && IsGap(l.controls[i]);
        assert after.controls[i - 1] == l.controls[i];
      }
    }
  }

  lemma TellKeepsReset(l: Line, control: Control)
    requires l.Valid() && !IsGap(control)
    ensures ResetDue(l.PushControl(control)) <==> ResetDue(l)
  {
    var r := l.PushControl(control);
    assert forall i :: 0 <= i < |l.controls| ==> r.controls[i] == l.controls[i];
  }

  lemma StepKeepsFits(s: State, e: Event, c: Config)
    requires Fits(s)
    ensures Fits(Step(s, e, c))
  {
    match e
    case Output(chunk) => WriteKeepsFits(s, chunk);
    case Attach(client, since) => ConnectKeepsFits(s, client, since, c);
    case Pull => TakeKeepsFits(s);
    case Tell(control) =>
      if s.current.Some? && !IsGap(control) { TellKeepsReset(s.current.value.line, control); }
      hide ResetDue, Delivery.At;
    case Detach =>
  }

  // ----- the proxy's model ----------------------------------------------------------------------

  /** The proxy's model is that of an emulator fed the stream from its origin on. */
  ghost predicate Follows(s: State) {
    && Forwarded(s.window.history) && s.origin <= |s.window.history|
    && s.model == Scan(FRESH_MODEL, s.window.history[s.origin..]).model
  }

  /** What is kept of a chunk moves an emulator that has had the stream from `front` on as
      the chunk moves the proxy. */
  lemma KeptMoves(front: seq<byte>, m: Model, chunk: seq<byte>, kept: seq<byte>)
    requires Forwarded(front) && m == Scan(FRESH_MODEL, front).model
    requires Separable(chunk) && kept == Scan(m, chunk).kept
    ensures Scan(FRESH_MODEL, front + kept).model == Scan(m, chunk).model
  {
    hide Scan, Forwarded, Separable, Uncut;
    KeptIsForwarded(m, chunk);
    ForwardedIsUncut(front);
    ChunksCompose(FRESH_MODEL, front, kept);
  }

  lemma ForwardedIsUncut(h: seq<byte>)
    requires Forwarded(h)
    ensures Uncut(h)
  {
    SeparableIsUncut(h);
  }

  lemma WriteKeepsFollowing(s: State, chunk: seq<byte>)
    requires Sound(s) && Follows(s) && Separable(chunk)
    ensures Follows(Write(s, chunk))
  {
    hide Scan, Forwarded, Separable, Uncut;
    var h, kept := s.window.history, Scan(s.model, chunk).kept;
    KeptIsForwarded(s.model, chunk);
    ForwardedComposes(h, kept);
    SuffixIsForwarded(h, s.origin);
    KeptMoves(h[s.origin..], s.model, chunk, kept);
    assert (h + kept)[s.origin..] == h[s.origin..] + kept;
  }

  lemma StepKeepsFollowing(s: State, e: Event, c: Config)
    requires Sound(s) && Follows(s) && (e.Output? ==> Separable(e.chunk))
    ensures Follows(Step(s, e, c))
  {
    match e
    case Output(chunk) => WriteKeepsFollowing(s, chunk);
    case Attach(client, since) => ReplayIsSuffix(s.window, since, c.replayAll); hide Scan, Forwarded;
    case _ => hide Scan, Forwarded;
  }

  predicate SeparableOutput(events: seq<Event>) {
    forall i :: 0 <= i < |events| && events[i].Output? ==> Separable(events[i].chunk)
  }

  lemma {:induction false} RunKeeps(s: State, events: seq<Event>, c: Config)
    requires Fits(s) && Follows(s) && SeparableOutput(events)
    ensures Fits(RunFrom(s, events, c)) && Follows(RunFrom(s, events, c))
    decreases |events|
  {
    if events != [] {
      var before, e := events[..|events| - 1], events[|events| - 1];
      assert SeparableOutput(before);
      RunKeeps(s, before, c);
      hide Fits, Follows, Step, Separable;
      StepKeepsFits(RunFrom(s, before, c), e, c);
      StepKeepsFollowing(RunFrom(s, before, c), e, c);
    }
  }

  lemma StartFits(c: Config)
    ensures Fits(StartState(c)) && Follows(StartState(c))
  {
  }

  ghost predicate Reachable(s: State, c: Config) {
    exists events :: SeparableOutput(events) && s == RunFrom(StartState(c), events, c)
  }

  lemma ReachableKeeps(s: State, c: Config)
    requires Reachable(s, c)
    ensures Fits(s) && Follows(s)
  {
    hide Fits, Follows;
    var events :| SeparableOutput(events) && s == RunFrom(StartState(c), events, c);
    StartFits(c);
    RunKeeps(StartState(c), events, c);
  }

  // ----- when the two agree -----------------------------------------------------------------------

  /** What the attached client's emulator will be, once it has all it is owed, against
      the proxy's model. */
  ghost predicate Agrees(s: State)
    requires Sound(s) && s.current.Some?
  {
    Scan(FRESH_MODEL, OwedTo(s)).model == s.model
  }

  lemma PendingIsStream(h: seq<byte>, q: Queue, base: nat)
    requires q.Valid() && base <= |h| && q.pushed == h[base..]
    ensures q.Pending() == h[base + q.taken + q.dropped..]
  {
    assert h[base..][q.taken + q.dropped..] == h[base + q.taken + q.dropped..];
  }

  lemma FedAndPending(h: seq<byte>, t: Terminal, pending: seq<byte>)
    requires TerminalFits(h, t) && t.Cursor() <= |h| && pending == h[t.Cursor()..]
    ensures t.fed + pending == h[t.start..]
  {
    if t.fed == [] {
      assert [] + pending == pending;
    } else {
      assert h[t.start..] == h[t.start..t.Cursor()] + h[t.Cursor()..];
    }
  }

  lemma OwedIsStream(s: State)
    requires Fits(s) && s.current.Some?
    ensures StartOf(s) <= |s.window.history| && OwedTo(s) == s.window.history[StartOf(s)..]
  {
    var conn := s.current.value;
    PendingIsStream(s.window.history, conn.line.queue, conn.base);
    hide TerminalFits, ResetDue, Queue.Pending;
    if !ResetDue(conn.line) {
      FedAndPending(s.window.history, s.terminals[conn.client], conn.line.queue.Pending());
    } else {
      assert [] + conn.line.queue.Pending() == conn.line.queue.Pending();
    }
  }

  /** The client's emulator and the proxy's model start at one place in the stream. */
  predicate InLine(s: State)
    requires Sound(s) && s.current.Some?
  {
    StartOf(s) == s.origin
  }

  /** Over every run of separable output, attaches of any clients with any cursors, drains
      and detaches, with any eviction from the window and the queue: the attached client
      is owed the stream from where its emulator starts, the proxy's model is that of an
      emulator fed the stream from the proxy's own origin, so the two agree whenever those
      are one place, and then the emulator meets nothing the proxy would have answered. */
  lemma ProxyMirrorsEmulator(s: State, c: Config)
    requires Reachable(s, c) && s.current.Some?
    ensures Sound(s)
    ensures StartOf(s) <= |s.window.history| && OwedTo(s) == s.window.history[StartOf(s)..]
    ensures s.origin <= |s.window.history| && s.model == Scan(FRESH_MODEL, s.window.history[s.origin..]).model
    ensures InLine(s) ==> Agrees(s) && Scan(FRESH_MODEL, OwedTo(s)) == Scanned(OwedTo(s), [], 0, s.model)
  {
    ReachableKeeps(s, c);
    OwedIsStream(s);
    SuffixIsForwarded(s.window.history, StartOf(s));
    QueryFreeIsKept(FRESH_MODEL, OwedTo(s));
    hide Scan, OwedTo, StartOf, Fits, Separable, QueryFree;
  }

  // ----- keeping in line ----------------------------------------------------------------------------

  predicate IsCurrent(s: State, client: Client) {
    s.current.Some? && s.current.value.client == client
  }

  /** In line while attached; away, its emulator still starts at the proxy's origin. */
  predicate LinedUp(s: State, client: Client)
    requires Sound(s)
  {
    if IsCurrent(s, client) then InLine(s) else client in s.terminals && s.terminals[client].start == s.origin
  }

  /** What a chunk makes the attached client's queue drop. */
  function Lost(s: State, chunk: seq<byte>): nat
    requires Sound(s) && s.current.Some?
  {
    s.current.value.line.queue.Overflow(Scan(s.model, chunk).kept)
  }

  function ReplayOf(s: State, since: Option<nat>, c: Config): Option<Replay>
    requires s.window.Valid()
  {
    Delivery.ReplayFor(s.window, since, c.replayAll)
  }

  /** What the queue of a new connection drops of its own replay. */
  function ReplayLost(s: State, since: Option<nat>, c: Config): nat
    requires s.window.Valid()
  {
    NewQueue(c.backlog, c.limit).Overflow(Delivery.Replayed(ReplayOf(s, since, c)))
  }

  /** Where an attach leaves the client's emulator and the proxy's origin. */
  lemma AttachLines(s: State, client: Client, since: Option<nat>, c: Config)
    requires Fits(s)
    ensures var r := Step(s, Attach(client, since), c);
      var replay, base := ReplayOf(s, since, c), BaseFor(s, since, c);
      && IsCurrent(r, client) && base >= 0
      && r.origin == (if Delivery.StartsFresh(since, replay) then base else s.origin)
      && StartOf(r) == if (replay.Some? && replay.value.Gap?) || ReplayLost(s, since, c) > 0
                       then base + ReplayLost(s, since, c) else TerminalFor(s, client, since, base).start
  {
    ReplayIsSuffix(s.window, since, c.replayAll);
    AttachedLineShape(c, ReplayOf(s, since, c));
    hide ResetDue, Delivery.AttachedLine, Scan;
  }

  /** A client that starts afresh is in line exactly when its queue held the whole replay. */
  lemma FreshAttachLinesUpExactly(s: State, client: Client, since: Option<nat>, c: Config)
    requires Fits(s) && Delivery.StartsFresh(since, ReplayOf(s, since, c))
    ensures InLine(Step(s, Attach(client, since), c)) <==> ReplayLost(s, since, c) == 0
  {
    AttachLines(s, client, since, c);
    hide Step, StartOf, BaseFor, ReplayLost;
  }

  /** A client that goes on where its cursor says, with nothing lost of the replay, is in
      line exactly when its emulator starts at the proxy's origin. */
  lemma ContinuedAttachLinesUpExactly(s: State, client: Client, since: nat, c: Config)
    requires Fits(s) && ReplayOf(s, Some(since), c).value.Contiguous? && ReplayLost(s, Some(since), c) == 0
    ensures InLine(Step(s, Attach(client, Some(since)), c)) <==>
      s.origin == (if client in s.terminals && s.terminals[client].Cursor() == since then s.terminals[client].start else since)
  {
    AttachLines(s, client, Some(since), c);
    hide Step, StartOf, BaseFor, ReplayLost;
  }

  /** A chunk takes the attached client out of line exactly when its queue drops anything. */
  lemma OutputLinesUpExactly(s: State, chunk: seq<byte>)
    requires Fits(s) && s.current.Some? && InLine(s)
    ensures InLine(Write(s, chunk)) <==> Lost(s, chunk) == 0
  {
    OwedStart(s);
    WriteStart(s, chunk);
    hide Write, StartOf, Scan, Fits, ResetDue;
  }

  lemma OwedStart(s: State)
    requires Fits(s) && s.current.Some?
    ensures StartOf(s) <= NextOffset(s.current.value)
  {
  }

  lemma WriteStart(s: State, chunk: seq<byte>)
    requires Fits(s) && s.current.Some?
    ensures Write(s, chunk).origin == s.origin
    ensures StartOf(Write(s, chunk)) ==
      if Lost(s, chunk) > 0 then NextOffset(s.current.value) + Lost(s, chunk) else StartOf(s)
  {
    PushKeepsReset(s.current.value.line, Scan(s.model, chunk).kept);
    hide ResetDue, Scan, TerminalFits, LineFits;
  }

  /** Nothing that takes the client out of line: while attached its queue drops nothing,
      it is told of its gaps before it goes or is replaced, it comes back at its own cursor
      or starts afresh, and no other client starts afresh. */
  predicate Harmless(s: State, e: Event, client: Client, c: Config)
    requires Sound(s)
  {
    match e
    case Output(chunk) => IsCurrent(s, client) ==> Lost(s, chunk) == 0
    case Attach(other, since) =>
      if other == client then
        && ReplayLost(s, since, c) == 0
        && (Delivery.StartsFresh(since, ReplayOf(s, since, c))
            || (since.Some? && client in s.terminals && s.terminals[client].Cursor() == since.value
                && (IsCurrent(s, client) ==> !ResetDue(s.current.value.line))))
      else
        && !Delivery.StartsFresh(since, ReplayOf(s, since, c))
        && (IsCurrent(s, client) ==> !ResetDue(s.current.value.line))
    case Detach => IsCurrent(s, client) ==> !ResetDue(s.current.value.line)
    case _ => true
  }

  lemma TakeKeepsStart(s: State)
    requires Fits(s) && s.current.Some?
    ensures TakeItem(s).current.Some? && StartOf(TakeItem(s)) == StartOf(s) && TakeItem(s).origin == s.origin
    ensures TakeItem(s).current.value.client == s.current.value.client
    ensures forall k :: k in TakeItem(s).terminals && k != s.current.value.client ==>
      k in s.terminals && TakeItem(s).terminals[k] == s.terminals[k]
    ensures forall k :: k in s.terminals ==> k in TakeItem(s).terminals
  {
    var l := s.current.value.line;
    if l.Next().Some? {
      if l.Next().value.Data? {
        assert !ResetDue(l) && !ResetDue(l.AfterNext());
      } else if l.Next().value.Frame? && IsGap(l.Next().value.control) {
        assert ResetDue(l) by { if l.queue.Unreported() == 0 { assert IsGap(l.controls[0]); } }
      } else {
        OtherItemReset(l);
      }
    }
    hide ResetDue, TerminalFits, LineFits;
  }

  lemma HarmlessKeepsLine(s: State, e: Event, client: Client, c: Config)
    requires Fits(s) && LinedUp(s, client) && Harmless(s, e, client, c)
    ensures LinedUp(Step(s, e, c), client)
  {
    match e
    case Output(chunk) =>
      if IsCurrent(s, client) { OutputLinesUpExactly(s, chunk); }
      hide Scan, ResetDue, Fits;
    case Attach(other, since) =>
      if other == client { ReturnKeepsLine(s, client, since, c); } else { OtherKeepsLine(s, other, since, client, c); }
      hide Step, Fits, InLine;
    case Pull =>
      if s.current.Some? { TakeKeepsStart(s); }
      hide TakeItem, StartOf, Fits;
    case Tell(control) =>
      if s.current.Some? && !IsGap(control) { TellKeepsReset(s.current.value.line, control); }
      hide ResetDue, Fits;
    case Detach => hide ResetDue, Fits;
  }

  lemma ReturnKeepsLine(s: State, client: Client, since: Option<nat>, c: Config)
    requires Fits(s) && LinedUp(s, client) && Harmless(s, Attach(client, since), client, c)
    ensures LinedUp(Step(s, Attach(client, since), c), client)
  {
    AttachLines(s, client, since, c);
    hide Step, StartOf, BaseFor, ReplayLost;
    if Delivery.StartsFresh(since, ReplayOf(s, since, c)) {
      FreshAttachLinesUpExactly(s, client, since, c);
    } else {
      ContinuedAttachLinesUpExactly(s, client, since.value, c);
      LinedUpStart(s, client, since.value);
    }
  }

  lemma OtherKeepsLine(s: State, other: Client, since: Option<nat>, client: Client, c: Config)
    requires Fits(s) && LinedUp(s, client) && other != client && Harmless(s, Attach(other, since), client, c)
    ensures LinedUp(Step(s, Attach(other, since), c), client)
  {
    AttachLines(s, other, since, c);
    assert IsCurrent(s, client) ==> client in s.terminals;
    hide BaseFor, ReplayLost, ResetDue, Delivery.AttachedLine, Fits;
  }

  /** A lined-up client at its own cursor: its emulator starts at the origin. */
  lemma LinedUpStart(s: State, client: Client, since: nat)
    requires Fits(s) && LinedUp(s, client) && client in s.terminals && s.terminals[client].Cursor() == since
    requires IsCurrent(s, client) ==> !ResetDue(s.current.value.line)
    ensures s.terminals[client].start == s.origin
  {
  }

  predicate AllHarmless(s: State, events: seq<Event>, client: Client, c: Config)
    requires Sound(s)
    decreases |events|
  {
    events == [] || (
      && AllHarmless(s, events[..|events| - 1], client, c)
      && Harmless(RunFrom(s, events[..|events| - 1], c), events[|events| - 1], client, c))
  }

  /** A client stays in line, attached or away, as long as nothing happens that takes it
      out; so from the attach that started it afresh on, it and the proxy agree whenever it
      is attached. */
  lemma {:induction false} StaysInLine(s: State, events: seq<Event>, client: Client, c: Config)
    requires Fits(s) && Follows(s) && SeparableOutput(events)
    requires LinedUp(s, client) && AllHarmless(s, events, client, c)
    ensures LinedUp(RunFrom(s, events, c), client)
    ensures IsCurrent(RunFrom(s, events, c), client) ==> Agrees(RunFrom(s, events, c))
    decreases |events|
  {
    if events != [] {
      var before, e := events[..|events| - 1], events[|events| - 1];
      assert SeparableOutput(before);
      StaysInLine(s, before, client, c);
      RunKeeps(s, before, c);
      hide Fits, Follows, Step, LinedUp, Harmless, Agrees, Separable;
      HarmlessKeepsLine(RunFrom(s, before, c), e, client, c);
    }
    RunKeeps(s, events, c);
    hide Fits, Follows, Step, LinedUp, Harmless, AllHarmless, Agrees, Separable;
    if IsCurrent(RunFrom(s, events, c), client) { LinedUpAgrees(RunFrom(s, events, c), client); }
  }

  lemma LinedUpAgrees(s: State, client: Client)
    requires Fits(s) && Follows(s) && IsCurrent(s, client) && LinedUp(s, client)
    ensures Agrees(s)
  {
    OwedIsStream(s);
    hide Scan, OwedTo, StartOf, Forwarded;
  }

  // ----- agreement, once reached, lasts ---------------------------------------------------------------

  /** The client stays attached and its queue drops nothing. */
  predicate Steady(s: State, e: Event)
    requires Sound(s)
  {
    s.current.Some? && match e
      case Output(chunk) => Separable(chunk) && Lost(s, chunk) == 0
      case Attach(_, _) => false
      case Detach => false
      case _ => true
  }

  predicate AllSteady(s: State, events: seq<Event>, c: Config)
    requires Sound(s)
    decreases |events|
  {
    events == [] || (
      && AllSteady(s, events[..|events| - 1], c)
      && Steady(RunFrom(s, events[..|events| - 1], c), events[|events| - 1]))
  }

  ghost predicate InAgreement(s: State) {
    Fits(s) && Follows(s) && s.current.Some? && Agrees(s)
  }

  lemma WriteKeepsAgreement(s: State, chunk: seq<byte>)
    requires InAgreement(s) && Separable(chunk) && Lost(s, chunk) == 0
    ensures InAgreement(Write(s, chunk))
  {
    hide Scan, Forwarded, Separable, Uncut, ResetDue, TerminalFits, LineFits, StartOf, OwedTo;
    var h, kept, from := s.window.history, Scan(s.model, chunk).kept, StartOf(s);
    WriteKeepsFits(s, chunk);
    WriteKeepsFollowing(s, chunk);
    OwedIsStream(s);
    OwedIsStream(Write(s, chunk));
    WriteStart(s, chunk);
    SuffixIsForwarded(h, from);
    KeptMoves(h[from..], s.model, chunk, kept);
    assert (h + kept)[from..] == h[from..] + kept;
  }

  lemma SteadyKeepsAgreement(s: State, e: Event, c: Config)
    requires InAgreement(s) && Steady(s, e)
    ensures InAgreement(Step(s, e, c))
  {
    StepKeepsFits(s, e, c);
    StepKeepsFollowing(s, e, c);
    OwedIsStream(s);
    hide Scan, Fits, Follows, Separable, StartOf, OwedTo, ResetDue, TakeItem, Write;
    match e
    case Output(chunk) => WriteKeepsAgreement(s, chunk);
    case Pull => TakeKeepsStart(s); TakeKeepsStream(s); OwedIsStream(TakeItem(s));
    case Tell(control) =>
      if !IsGap(control) { TellKeepsStart(s, control); OwedIsStream(Step(s, e, c)); }
  }

  lemma TakeKeepsStream(s: State)
    requires Sound(s)
    ensures TakeItem(s).window == s.window && TakeItem(s).model == s.model
  {
    hide ResetDue, Line.Next, Line.AfterNext;
  }

  lemma TellKeepsStart(s: State, control: Control)
    requires Sound(s) && s.current.Some? && !IsGap(control)
    ensures StartOf(WithLine(s, s.current.value.line.PushControl(control))) == StartOf(s)
  {
    TellKeepsReset(s.current.value.line, control);
    hide ResetDue;
  }

  lemma {:induction false} SteadyRunKeepsAgreement(s: State, events: seq<Event>, c: Config)
    requires InAgreement(s) && AllSteady(s, events, c)
    ensures InAgreement(RunFrom(s, events, c))
    decreases |events|
  {
    assert Sound(s);
    hide InAgreement, Steady, Step;
    if events != [] {
      SteadyRunKeepsAgreement(s, events[..|events| - 1], c);
      SteadyKeepsAgreement(RunFrom(s, events[..|events| - 1], c), events[|events| - 1], c);
    }
  }

  ghost predicate AgreesAfter(s: State, events: seq<Event>, c: Config)
    requires Sound(s)
  {
    RunFrom(s, events, c).current.Some? && Agrees(RunFrom(s, events, c))
  }

  /** While a client stays attached and its queue drops nothing, it and the proxy agree
      after every further output exactly when they agree now. */
  lemma AgreementLastsExactly(s: State, c: Config)
    requires Reachable(s, c) && s.current.Some?
    ensures Sound(s)
    ensures (forall events :: AllSteady(s, events, c) ==> AgreesAfter(s, events, c)) <==> Agrees(s)
  {
    ReachableKeeps(s, c);
    hide Fits, Follows, Agrees, Steady, Step, Reachable;
    assert AllSteady(s, [], c) && RunFrom(s, [], c) == s;
    assert AgreesAfter(s, [], c) <==> Agrees(s);
    if Agrees(s) {
      forall events | AllSteady(s, events, c) ensures AgreesAfter(s, events, c) {
        SteadyRunKeepsAgreement(s, events, c);
      }
    }
  }

  // ----- out of line --------------------------------------------------------------------------------

  /** Two emulators that start at `a` and at `b` end alike on this stream. */
  ghost predicate EndAlike(h: seq<byte>, a: nat, b: nat) {
    Forwarded(h) && a <= |h| && b <= |h| ==>
      Scan(FRESH_MODEL, h[a..]).model == Scan(FRESH_MODEL, h[b..]).model
  }

  function Text(n: nat): (r: seq<byte>)
    ensures |r| == n && forall i :: 0 <= i < n ==> r[i] != ESC
  {
    seq(n, _ => 0x20)
  }

  /** A push of the first keyboard flag. */
  const PUSH: seq<byte> := [ESC, LEFT_BRACKET, GREATER, DIGIT_0 + 1, LOWER_U]

  lemma PushMeans(t: seq<byte>)
    ensures Meaning(PUSH + t) == Change(5, PushFlags(1))
  {
    var params := [DIGIT_0 + 1];
    assert Answers.Csi([GREATER], params, LOWER_U) == PUSH;
    Answers.CsiMeaning([GREATER], params, LOWER_U, t);
    assert FirstIn(params, PARAM_SEPARATORS, 0) == 1;
    assert params[0..1] == params;
    assert params[..0] == [];
    assert Dec(params) == 1;
    assert ValuesFrom(params, 0) == [1];
  }

  lemma PushMoves(m: Model, t: seq<byte>)
    ensures Scan(m, PUSH + t) == Keep(PUSH, Scan(Apply(m, PushFlags(1)), t))
  {
    PushMeans(t);
    assert (PUSH + t)[..5] == PUSH && (PUSH + t)[5..] == t;
  }

  lemma PushedModel(m: Model)
    ensures Apply(m, PushFlags(1)).Active().flags == 1
    ensures FRESH_MODEL.Active().flags == 0
  {
    assert Known(1) == 1 by { assert (1 as bv16) & 0x1f == 1; }
  }

  lemma TextMovesNothing(m: Model, n: nat)
    ensures Scan(m, Text(n)) == Scanned(Text(n), [], 0, m)
  {
    NoEscape(Text(n));
    PlainTextIsKept(m, Text(n));
  }

  /** Text, the push, and text again. */
  function Witness(a: nat, b: nat): seq<byte> {
    Text(a) + (PUSH + Text(b))
  }

  lemma WitnessIsForwarded(a: nat, b: nat)
    ensures Forwarded(Witness(a, b))
  {
    PushMeans(Text(b));
    RecognisedDecidesItself(PUSH + Text(b));
    assert (PUSH + Text(b))[5..] == Text(b);
    assert Forwarded([]);
    assert Text(b) + [] == Text(b);
    PlainInFront(Text(b), []);
    assert Forwarded(PUSH + Text(b));
    PlainInFront(Text(a), PUSH + Text(b));
  }

  lemma WitnessEnds(a: nat, b: nat)
    requires a < b
    ensures |Witness(a, b)| == a + 5 + b
    ensures Witness(a, b)[a..] == PUSH + Text(b)
    ensures forall i :: 0 <= i < |Witness(a, b)[b..]| ==> Witness(a, b)[b..][i] != ESC
  {
    assert Witness(a, b)[a..] == PUSH + Text(b);
    forall i | 0 <= i < |Witness(a, b)[b..]| ensures Witness(a, b)[b..][i] != ESC {
      assert Witness(a, b)[b..][i] == (PUSH + Text(b))[b - a + i];
    }
  }

  lemma PlainKeepsFresh(h: seq<byte>)
    requires forall i :: 0 <= i < |h| ==> h[i] != ESC
    ensures Scan(FRESH_MODEL, h).model == FRESH_MODEL
  {
    NoEscape(h);
    PlainTextIsKept(FRESH_MODEL, h);
  }

  lemma PushThenText(b: nat)
    ensures Scan(FRESH_MODEL, PUSH + Text(b)).model == Apply(FRESH_MODEL, PushFlags(1))
    ensures Apply(FRESH_MODEL, PushFlags(1)) != FRESH_MODEL
  {
    PushMoves(FRESH_MODEL, Text(b));
    TextMovesNothing(Apply(FRESH_MODEL, PushFlags(1)), b);
    PushedModel(FRESH_MODEL);
    hide Scan, Apply;
  }

  lemma WitnessTells(a: nat, b: nat)
    requires a < b
    ensures !EndAlike(Witness(a, b), a, b)
  {
    hide Scan, Forwarded, Witness, Apply, Text;
    WitnessIsForwarded(a, b);
    WitnessEnds(a, b);
    PushThenText(b);
    PlainKeepsFresh(Witness(a, b)[b..]);
  }

  /** The condition cannot be weakened: emulators that start at different places end alike
      on every stream exactly when the places are one. */
  lemma StartsAlikeExactly(a: nat, b: nat)
    ensures (forall h :: EndAlike(h, a, b)) <==> a == b
  {
    if a < b {
      WitnessTells(a, b);
    } else if b < a {
      WitnessTells(b, a);
      EndAlikeSwaps(Witness(b, a), a, b);
      assert !EndAlike(Witness(b, a), a, b);
    } else {
      hide Scan, Forwarded;
    }
  }

  lemma EndAlikeSwaps(h: seq<byte>, a: nat, b: nat)
    ensures EndAlike(h, a, b) <==> EndAlike(h, b, a)
  {
  }

  /** Another client that starts afresh takes this one out of line unless the two
      emulators start at one place. */
  lemma OtherFreshLinesUpExactly(s: State, other: Client, since: Option<nat>, client: Client, c: Config)
    requires Fits(s) && other != client && client in s.terminals && Delivery.StartsFresh(since, ReplayOf(s, since, c))
    ensures LinedUp(Step(s, Attach(other, since), c), client) <==> s.terminals[client].start == BaseFor(s, since, c)
  {
    AttachLines(s, other, since, c);
    hide BaseFor, ReplayLost, ResetDue, Delivery.AttachedLine, Fits;
  }

  // ----- two ways out of line -------------------------------------------------------------------------

  /** A client attached without a cursor, with nothing replayed. */
  lemma BareAttach(s: State, client: Client, c: Config)
    requires Fits(s) && Follows(s) && !c.replayAll
    ensures var r, h := Step(s, Attach(client, None), c), |s.window.history|;
      && Fits(r) && Follows(r) && IsCurrent(r, client)
      && r.window == s.window && r.model == FRESH_MODEL && r.origin == h
      && r.terminals == s.terminals[client := Terminal(h, [])]
      && r.current.value.base == h && !ResetDue(r.current.value.line)
      && r.current.value.line.queue == NewQueue(c.backlog, c.limit)
  {
    StepKeepsFits(s, Attach(client, None), c);
    StepKeepsFollowing(s, Attach(client, None), c);
    AttachedLineShape(c, None);
    assert Scan(FRESH_MODEL, []) == Scanned([], [], 0, FRESH_MODEL);
    hide Fits, Follows, ResetDue;
  }

  /** The child pushes a keyboard flag while the client is attached. */
  lemma PushWritten(s: State)
    requires Fits(s) && Follows(s) && s.current.Some?
    ensures Separable(PUSH)
    ensures var r := Write(s, PUSH);
      && Fits(r) && Follows(r) && r.window == s.window.Write(PUSH)
      && r.model == Apply(s.model, PushFlags(1)) && r.origin == s.origin && r.terminals == s.terminals
      && r.current == Some(s.current.value.(line := s.current.value.line.PushBytes(PUSH)))
  {
    PushIsSeparable();
    WriteKeepsFits(s, PUSH);
    WriteKeepsFollowing(s, PUSH);
    PushMoves(s.model, []);
    assert PUSH + [] == PUSH;
    assert Scan(Apply(s.model, PushFlags(1)), []) == Scanned([], [], 0, Apply(s.model, PushFlags(1)));
    hide Fits, Follows;
  }

  lemma PushIsSeparable()
    ensures Separable(PUSH)
  {
    PushMeans([]);
    assert PUSH + [] == PUSH;
    RecognisedDecidesItself(PUSH);
    assert PUSH[5..] == [];
  }

  /** Between two contiguous spells of one client another starts afresh: the first comes
      back at its own cursor, its emulator is fed a push the proxy has forgotten, and the
      two disagree. From any reachable state. */
  lemma ReturnAfterAnotherDisagrees(s: State, a: Client, b: Client, c: Config)
    requires Reachable(s, c) && a != b && !c.replayAll && c.backlog >= 5 && s.window.capacity >= 5
    ensures Sound(s)
    ensures var r := Step(Step(Step(Step(s,
        Attach(a, None), c), Output(PUSH), c), Attach(b, None), c), Attach(a, Some(|s.window.history|)), c);
      && IsCurrent(r, a) && OwedTo(r) == PUSH && r.model == FRESH_MODEL
      && StartOf(r) == |s.window.history| < r.origin && !Agrees(r)
  {
    ReachableKeeps(s, c);
    var h := |s.window.history|;
    BareAttach(s, a, c);
    var s1 := Step(s, Attach(a, None), c);
    PushWritten(s1);
    var s2 := Step(s1, Output(PUSH), c);
    BareAttach(s2, b, c);
    var s3 := Step(s2, Attach(b, None), c);
    hide Scan, ResetDue, Fits, Follows, Reachable, Write, Connect;
    assert s3.terminals[a] == Terminal(h, []);
    PushReplayed(s, s3, a, c);
  }

  lemma PushReplayed(s: State, t: State, a: Client, c: Config)
    requires Fits(t) && Follows(t) && s.window.Valid() && c.backlog >= 5 && s.window.capacity >= 5
    requires t.window == s.window.Write(PUSH) && t.model == FRESH_MODEL && t.origin == |t.window.history|
    requires a in t.terminals && t.terminals[a] == Terminal(|s.window.history|, [])
    ensures var r := Step(t, Attach(a, Some(|s.window.history|)), c);
      && IsCurrent(r, a) && OwedTo(r) == PUSH && r.model == FRESH_MODEL
      && StartOf(r) == |s.window.history| < r.origin && !Agrees(r)
  {
    var h := |s.window.history|;
    var replay := ReplayOf(t, Some(h), c);
    assert t.window.Earliest() <= h && t.window.history[h..] == PUSH;
    assert replay == Some(Contiguous(PUSH, h + 5));
    assert ReplayLost(t, Some(h), c) == 0;
    AttachLines(t, a, Some(h), c);
    StepKeepsFits(t, Attach(a, Some(h)), c);
    OwedIsStream(Step(t, Attach(a, Some(h)), c));
    PushMoves(FRESH_MODEL, []);
    assert PUSH + [] == PUSH;
    assert Scan(Apply(FRESH_MODEL, PushFlags(1)), []) == Scanned([], [], 0, Apply(FRESH_MODEL, PushFlags(1)));
    PushedModel(FRESH_MODEL);
    hide ResetDue, Fits, Follows, StartOf, OwedTo, BaseFor, ReplayLost, Scan;
  }

  /** The client's own queue overflows and drops a push on the way: the client restarts its
      emulator on the gap, the proxy does not, and the two disagree. From any reachable
      state. */
  lemma OverflowDisagrees(s: State, a: Client, n: nat, c: Config)
    requires Reachable(s, c) && !c.replayAll && n >= c.backlog
    ensures Sound(s)
    ensures var r := Step(Step(Step(s, Attach(a, None), c), Output(PUSH), c), Output(Text(n)), c);
      && IsCurrent(r, a) && r.origin == |s.window.history| < StartOf(r)
      && r.model == Apply(FRESH_MODEL, PushFlags(1)) && !Agrees(r)
  {
    ReachableKeeps(s, c);
    BareAttach(s, a, c);
    var s1 := Step(s, Attach(a, None), c);
    PushWritten(s1);
    var s2 := Step(s1, Output(PUSH), c);
    hide Scan, ResetDue, Fits, Follows, Reachable, Connect;
    PushDropped(s, s2, n, c);
  }

  lemma TextIsSeparable(n: nat)
    ensures Separable(Text(n))
  {
    assert Text(n) + [] == Text(n);
    assert Forwarded([]);
    PlainInFront(Text(n), []);
  }

  /** A queue that gets five bytes and then more than it can hold has lost the five. */
  lemma FiveLost(conn: Connection, push: seq<byte>, text: seq<byte>, backlog: nat, limit: Option<nat>)
    requires conn.line.Valid() && conn.line.queue == NewQueue(backlog, limit).Push(push)
    requires |push| == 5 && |text| >= backlog
    ensures var after := conn.(line := conn.line.PushBytes(text));
      ResetDue(after.line) && NextOffset(after) == conn.base + 5 + |text| - backlog
  {
    var after := conn.line.PushBytes(text);
    assert after.queue == conn.line.queue.Push(text);
    assert after.queue.Unreported() == 5 + |text| - backlog;
  }

  lemma TextWritten(t: State, n: nat)
    requires Fits(t) && Follows(t) && t.current.Some?
    ensures var r := Write(t, Text(n));
      && Fits(r) && Follows(r) && r.window.history == t.window.history + Text(n)
      && r.model == t.model && r.origin == t.origin
      && r.current == Some(t.current.value.(line := t.current.value.line.PushBytes(Text(n))))
  {
    TextIsSeparable(n);
    TextMovesNothing(t.model, n);
    WriteKeepsFits(t, Text(n));
    WriteKeepsFollowing(t, Text(n));
    hide Fits, Follows, Scan, Separable;
  }

  lemma PushDropped(s: State, t: State, n: nat, c: Config)
    requires Fits(t) && Follows(t) && t.current.Some? && n >= c.backlog
    requires t.window.history == s.window.history + PUSH && t.origin == |s.window.history|
    requires t.model == Apply(FRESH_MODEL, PushFlags(1))
    requires t.current.value.base == |s.window.history|
    requires t.current.value.line.queue == NewQueue(c.backlog, c.limit).Push(PUSH)
    ensures var r := Step(t, Output(Text(n)), c);
      && r.current.Some? && r.current.value.client == t.current.value.client
      && r.origin == |s.window.history| < StartOf(r) && r.model == t.model && !Agrees(r)
  {
    var h := |s.window.history|;
    TextWritten(t, n);
    FiveLost(t.current.value, PUSH, Text(n), c.backlog, c.limit);
    var r := Write(t, Text(n));
    hide Write, ResetDue, Fits, Follows, Scan, OwedTo, NextOffset, Apply;
    assert StartOf(r) == h + 5 + n - c.backlog;
    OwedIsStream(r);
    assert r.window.history[h + 5..] == Text(n);
    TailOfText(r.window.history, h + 5, StartOf(r), n);
    PushedModel(FRESH_MODEL);
  }

  lemma TailOfText(h: seq<byte>, from: nat, k: nat, n: nat)
    requires from <= k <= |h| && h[from..] == Text(n)
    ensures Scan(FRESH_MODEL, h[k..]).model == FRESH_MODEL
  {
    assert h[k..] == Text(n)[k - from..];
    NoEscape(h[k..]);
    PlainTextIsKept(FRESH_MODEL, h[k..]);
  }
}
