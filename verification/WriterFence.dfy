/** Client input on its way to the child: the connection fence, the bounded input
    queue and the writer thread, interleaved one atomic action at a time. */
module WriterFence {
  import opened Bytes
  import TermFilter

  const INPUT_QUEUE_CHUNKS: nat := 64

  datatype Chunk = Chunk(conn: nat, bytes: seq<byte>, runtimeOriginated: bool)

  /** A chunk the writer has dealt with, and whether it wrote it. */
  datatype Handled = Handled(chunk: Chunk, written: bool)

  /** What the writer holds: a chunk just received, or one that passed the fence. */
  datatype Hand = Empty | Received(chunk: Chunk) | Cleared(chunk: Chunk)

  /** `inFlight` are client writes past the fence check but not yet queued;
      `accepted` is everything ever queued, `done` what the writer dealt with. */
  datatype Input = Input(
    owner: nat, nextConn: nat, alive: bool, filtering: bool, stopped: bool,
    inFlight: seq<Chunk>, queue: seq<Chunk>, hand: Hand,
    accepted: seq<Chunk>, done: seq<Handled>)

  const START := Input(0, 1, true, true, false, [], [], Empty, [], [])

  datatype Action =
    | Attach
    | Detach(conn: nat)
    | Renew
    | Teardown
    | BeginWrite(conn: nat, bytes: seq<byte>)
    | Enqueue(index: nat)
    | Answer(bytes: seq<byte>)
    | Receive
    | CheckFence
    | WriteOut(ok: bool)

  function Filter(filtering: bool, bytes: seq<byte>): seq<byte> {
    if filtering then TermFilter.FilterScan(bytes).kept else bytes
  }

  predicate HasRoom(s: Input) {
    |s.queue| < INPUT_QUEUE_CHUNKS && !s.stopped
  }

  function Queue(s: Input, c: Chunk): Input {
    if HasRoom(s) then s.(queue := s.queue + [c], accepted := s.accepted + [c]) else s
  }

  /** The writer forwards runtime answers regardless of the fence. */
  predicate PassesFence(s: Input, c: Chunk) {
    c.runtimeOriginated || s.owner == c.conn
  }

  /** One atomic action; one that is not possible leaves the state alone. */
  function Step(s: Input, a: Action): Input {
    match a
    case Attach => s.(owner := s.nextConn, nextConn := s.nextConn + 1)
    case Detach(conn) => if s.owner == conn then s.(owner := 0) else s
    case Renew => s.(owner := 0)
    case Teardown => s.(owner := 0, alive := false)
    case BeginWrite(conn, bytes) =>
      if !s.alive || conn == 0 || s.owner != conn || Filter(s.filtering, bytes) == [] then s
      else s.(inFlight := s.inFlight + [Chunk(conn, Filter(s.filtering, bytes), false)])
    case Enqueue(i) =>
      if i >= |s.inFlight| then s
      else Queue(s, s.inFlight[i]).(inFlight := s.inFlight[..i] + s.inFlight[i + 1..])
    case Answer(bytes) => Queue(s, Chunk(s.owner, bytes, true))
    case Receive =>
      if s.stopped || s.hand != Empty || s.queue == [] then s
      else s.(hand := Received(s.queue[0]), queue := s.queue[1..])
    case CheckFence =>
      if !s.hand.Received? then s
      else if PassesFence(s, s.hand.chunk) then s.(hand := Cleared(s.hand.chunk))
      else s.(hand := Empty, done := s.done + [Handled(s.hand.chunk, false)])
    case WriteOut(ok) =>
      if !s.hand.Cleared? || s.stopped then s
      else if ok then s.(hand := Empty, done := s.done + [Handled(s.hand.chunk, true)])
      else s.(stopped := true)
  }

  function Run(s: Input, actions: seq<Action>): Input {
    if actions == [] then s else Step(Run(s, actions[..|actions| - 1]), actions[|actions| - 1])
  }

  // ----- the invariant ---------------------------------------------------------------

  predicate IsClient(c: Chunk) { !c.runtimeOriginated }

  function InHand(h: Hand): seq<Chunk> {
    if h.Empty? then [] else [h.chunk]
  }

  function Chunks(done: seq<Handled>): (r: seq<Chunk>)
    ensures |r| == |done|
    ensures forall i :: 0 <= i < |r| ==> r[i] == done[i].chunk
  {
    seq(|done|, i requires 0 <= i < |done| => done[i].chunk)
  }

  /** The chunk belongs to a connection that was handed out. */
  predicate Assigned(s: Input, c: Chunk) {
    IsClient(c) ==> 1 <= c.conn < s.nextConn
  }

  /** No client chunk was written out of connection order. */
  ghost predicate Ascending(done: seq<Handled>) {
    forall i, j ::
      0 <= i < j < |done| && done[i].written && done[j].written && IsClient(done[i].chunk) && IsClient(done[j].chunk)
      ==> done[i].chunk.conn <= done[j].chunk.conn
  }

  /** Once one of a connection's chunks is skipped, none of its chunks is written. */
  ghost predicate SkipsAreFinal(done: seq<Handled>) {
    forall i, j ::
      0 <= i < j < |done| && !done[i].written && done[j].written && IsClient(done[i].chunk) && IsClient(done[j].chunk)
      ==> done[i].chunk.conn != done[j].chunk.conn
  }

  /** A client connection that can still be written without breaking the order. */
  ghost predicate Open(done: seq<Handled>, conn: nat) {
    forall i :: 0 <= i < |done| && IsClient(done[i].chunk) ==>
      if done[i].written then done[i].chunk.conn <= conn else done[i].chunk.conn != conn
  }

  ghost predicate Inv(s: Input) {
    && s.owner < s.nextConn
    && s.accepted == Chunks(s.done) + InHand(s.hand) + s.queue
    && (forall i :: 0 <= i < |s.inFlight| ==> Assigned(s, s.inFlight[i]) && IsClient(s.inFlight[i]))
    && (forall i :: 0 <= i < |s.accepted| ==> Assigned(s, s.accepted[i]))
    && (forall i :: 0 <= i < |s.done| ==> s.done[i].chunk.runtimeOriginated ==> s.done[i].written)
    && Ascending(s.done) && SkipsAreFinal(s.done)
    && (s.owner != 0 ==> Open(s.done, s.owner))
    && (s.hand.Cleared? && IsClient(s.hand.chunk) ==> Open(s.done, s.hand.chunk.conn))
    && (s.hand.Cleared? && IsClient(s.hand.chunk) && s.owner != 0 ==> s.hand.chunk.conn <= s.owner)
    && |s.queue| <= INPUT_QUEUE_CHUNKS
  }

  lemma DoneIsAccepted(s: Input, i: nat)
    requires Inv(s) && i < |s.done|
    ensures Assigned(s, s.done[i].chunk)
  {
    assert s.accepted[i] == Chunks(s.done)[i];
  }

  lemma HandIsAccepted(s: Input)
    requires Inv(s) && !s.hand.Empty?
    ensures Assigned(s, s.hand.chunk)
  {
    assert s.accepted[|s.done|] == s.hand.chunk;
  }

  lemma AttachKeepsInv(s: Input)
    requires Inv(s)
    ensures Inv(Step(s, Attach))
  {
    forall i | 0 <= i < |s.done| ensures Assigned(s, s.done[i].chunk) { DoneIsAccepted(s, i); }
    if !s.hand.Empty? { HandIsAccepted(s); }
  }

  lemma QueueKeepsInv(s: Input, c: Chunk)
    requires Inv(s) && Assigned(s, c)
    ensures Inv(Queue(s, c))
  {
    var r := Queue(s, c);
    if HasRoom(s) {
      assert r.accepted == Chunks(r.done) + InHand(r.hand) + r.queue;
    }
  }

  lemma DoneAppends(done: seq<Handled>, h: Handled)
    ensures Chunks(done + [h]) == Chunks(done) + [h.chunk]
  {
  }

  lemma CheckKeepsInv(s: Input)
    requires Inv(s) && s.hand.Received?
    ensures Inv(Step(s, CheckFence))
  {
    HandIsAccepted(s);
    if PassesFence(s, s.hand.chunk) { ClearKeepsInv(s); } else { SkipKeepsInv(s); }
  }

  lemma ClearKeepsInv(s: Input)
    requires Inv(s) && s.hand.Received? && PassesFence(s, s.hand.chunk) && Assigned(s, s.hand.chunk)
    ensures Inv(Step(s, CheckFence))
  {
    hide Ascending, SkipsAreFinal, Chunks, Open;
  }

  lemma SkipKeepsInv(s: Input)
    requires Inv(s) && s.hand.Received? && !PassesFence(s, s.hand.chunk) && Assigned(s, s.hand.chunk)
    ensures Inv(Step(s, CheckFence))
  {
    var r := Step(s, CheckFence);
    DoneAppends(s.done, Handled(s.hand.chunk, false));
    hide Chunks;
    assert r.accepted == Chunks(r.done) + InHand(r.hand) + r.queue;
  }

  lemma WriteKeepsInv(s: Input, ok: bool)
    requires Inv(s) && s.hand.Cleared? && !s.stopped
    ensures Inv(Step(s, WriteOut(ok)))
  {
    var r := Step(s, WriteOut(ok));
    if ok {
      DoneAppends(s.done, Handled(s.hand.chunk, true));
      assert r.accepted == Chunks(r.done) + InHand(r.hand) + r.queue;
    }
  }

  lemma EnqueueKeepsInv(s: Input, i: nat)
    requires Inv(s) && i < |s.inFlight|
    ensures Inv(Step(s, Enqueue(i)))
  {
    hide Ascending, SkipsAreFinal, Chunks, Open;
    QueueKeepsInv(s, s.inFlight[i]);
    var rest := s.inFlight[..i] + s.inFlight[i + 1..];
    forall k | 0 <= k < |rest| ensures Assigned(s, rest[k]) && IsClient(rest[k]) {
      assert rest[k] == if k < i then s.inFlight[k] else s.inFlight[k + 1];
    }
  }

  lemma ReceiveKeepsInv(s: Input)
    requires Inv(s)
    ensures Inv(Step(s, Receive))
  {
    hide Ascending, SkipsAreFinal, Chunks, Open;
    var r := Step(s, Receive);
    if r != s { assert r.accepted == Chunks(r.done) + InHand(r.hand) + r.queue; }
  }

  /** Closing the fence, or a client write that only passes it, keeps everything. */
  lemma FenceMoveKeepsInv(s: Input, a: Action)
    requires Inv(s) && (a.Detach? || a.Renew? || a.Teardown? || a.BeginWrite?)
    ensures Inv(Step(s, a))
  {
    hide Ascending, SkipsAreFinal, Chunks, Open, Filter;
  }

  lemma StepKeepsInv(s: Input, a: Action)
    requires Inv(s)
    ensures Inv(Step(s, a))
  {
    hide Inv;
    match a
    case Attach => AttachKeepsInv(s);
    case Answer(bytes) => QueueKeepsInv(s, Chunk(s.owner, bytes, true));
    case Enqueue(i) => if i < |s.inFlight| { EnqueueKeepsInv(s, i); }
    case Receive => ReceiveKeepsInv(s);
    case CheckFence => if s.hand.Received? { CheckKeepsInv(s); }
    case WriteOut(ok) => if s.hand.Cleared? && !s.stopped { WriteKeepsInv(s, ok); }
    case _ => FenceMoveKeepsInv(s, a);
  }

  lemma {:induction false} RunKeepsInv(filtering: bool, actions: seq<Action>)
    ensures Inv(Run(START.(filtering := filtering), actions))
    decreases |actions|
  {
    if actions != [] {
      RunKeepsInv(filtering, actions[..|actions| - 1]);
      StepKeepsInv(Run(START.(filtering := filtering), actions[..|actions| - 1]), actions[|actions| - 1]);
    }
  }

  // ----- what the child receives ---------------------------------------------------------

  /** The chunks written, in order. */
  function WrittenChunks(done: seq<Handled>): seq<Chunk> {
    if done == [] then []
    else
      var last := done[|done| - 1];
      WrittenChunks(done[..|done| - 1]) + (if last.written then [last.chunk] else [])
  }

  /** The chunks of one client connection, in order. */
  function OfConn(chunks: seq<Chunk>, conn: nat): seq<Chunk> {
    if chunks == [] then []
    else
      var last := chunks[|chunks| - 1];
      OfConn(chunks[..|chunks| - 1], conn) + (if IsClient(last) && last.conn == conn then [last] else [])
  }

  function RuntimeOnly(chunks: seq<Chunk>): seq<Chunk> {
    if chunks == [] then []
    else
      var last := chunks[|chunks| - 1];
      RuntimeOnly(chunks[..|chunks| - 1]) + (if last.runtimeOriginated then [last] else [])
  }

  ghost predicate NonDecreasing(chunks: seq<Chunk>) {
    forall i, j :: 0 <= i < j < |chunks| && IsClient(chunks[i]) && IsClient(chunks[j])
      ==> chunks[i].conn <= chunks[j].conn
  }

  lemma {:induction false} WrittenIsAmong(done: seq<Handled>, c: Chunk)
    requires c in WrittenChunks(done)
    ensures exists i :: 0 <= i < |done| && done[i] == Handled(c, true)
    decreases |done|
  {
    var last := done[|done| - 1];
    if !(last.written && last.chunk == c) {
      assert c in WrittenChunks(done[..|done| - 1]);
      WrittenIsAmong(done[..|done| - 1], c);
      var i :| 0 <= i < |done| - 1 && done[..|done| - 1][i] == Handled(c, true);
      assert done[i] == Handled(c, true);
    } else {
      assert done[|done| - 1] == Handled(c, true);
    }
  }

  lemma {:induction false} AscendingWritten(done: seq<Handled>)
    requires Ascending(done)
    ensures NonDecreasing(WrittenChunks(done))
    decreases |done|
  {
    if done != [] {
      var before := done[..|done| - 1];
      AscendingWritten(before);
      var last := done[|done| - 1];
      var w := WrittenChunks(before);
      if last.written {
        forall i | 0 <= i < |w| && IsClient(w[i]) && IsClient(last.chunk)
          ensures w[i].conn <= last.chunk.conn
        {
          WrittenIsAmong(before, w[i]);
          var k :| 0 <= k < |before| && before[k] == Handled(w[i], true);
          assert done[k] == before[k];
        }
      }
    }
  }

  lemma {:induction false} OfConnAppend(a: seq<Chunk>, b: seq<Chunk>, conn: nat)
    ensures OfConn(a + b, conn) == OfConn(a, conn) + OfConn(b, conn)
    decreases |b|
  {
    if b == [] {
      assert a + b == a;
    } else {
      OfConnAppend(a, b[..|b| - 1], conn);
      assert (a + b)[..|a + b| - 1] == a + b[..|b| - 1];
    }
  }

  lemma {:induction false} RuntimeAppend(a: seq<Chunk>, b: seq<Chunk>)
    ensures RuntimeOnly(a + b) == RuntimeOnly(a) + RuntimeOnly(b)
    decreases |b|
  {
    if b == [] {
      assert a + b == a;
    } else {
      RuntimeAppend(a, b[..|b| - 1]);
      assert (a + b)[..|a + b| - 1] == a + b[..|b| - 1];
    }
  }

  ghost predicate SomeSkipped(done: seq<Handled>, conn: nat) {
    exists i :: 0 <= i < |done| && !done[i].written && IsClient(done[i].chunk) && done[i].chunk.conn == conn
  }

  lemma OfConnOne(c: Chunk, conn: nat)
    ensures OfConn([c], conn) == if IsClient(c) && c.conn == conn then [c] else []
    ensures OfConn([], conn) == []
    ensures RuntimeOnly([c]) == if c.runtimeOriginated then [c] else []
  {
    assert [c][..0] == [];
  }

  lemma SkippedEarlier(done: seq<Handled>, conn: nat)
    requires done != []
    ensures SomeSkipped(done[..|done| - 1], conn) ==> SomeSkipped(done, conn)
    ensures var last := done[|done| - 1];
      SkipsAreFinal(done) && SomeSkipped(done[..|done| - 1], conn) && last.written && IsClient(last.chunk)
      ==> last.chunk.conn != conn
    ensures var last := done[|done| - 1];
      !last.written && IsClient(last.chunk) && last.chunk.conn == conn ==> SomeSkipped(done, conn)
    ensures SkipsAreFinal(done) ==> SkipsAreFinal(done[..|done| - 1])
  {
    var before := done[..|done| - 1];
    if SomeSkipped(before, conn) {
      var i :| 0 <= i < |before| && !before[i].written && IsClient(before[i].chunk) && before[i].chunk.conn == conn;
      assert done[i] == before[i];
    }
  }

  lemma PrefixStays(w: seq<Chunk>, h: seq<Chunk>, d: seq<Chunk>)
    requires w <= h
    ensures w <= h + d && w + [] == w && h + [] == h
  {
  }

  lemma WrittenUnfolds(done: seq<Handled>, conn: nat)
    requires done != []
    ensures var before, last := done[..|done| - 1], done[|done| - 1];
      var d := if IsClient(last.chunk) && last.chunk.conn == conn then [last.chunk] else [];
      && OfConn(Chunks(done), conn) == OfConn(Chunks(before), conn) + d
      && OfConn(WrittenChunks(done), conn) == OfConn(WrittenChunks(before), conn) + (if last.written then d else [])
  {
    hide OfConn, Chunks;
    var before, last := done[..|done| - 1], done[|done| - 1];
    OfConnOne(last.chunk, conn);
    OfConnAppend(WrittenChunks(before), if last.written then [last.chunk] else [], conn);
    DoneAppends(before, last);
    assert done == before + [last];
    OfConnAppend(Chunks(before), [last.chunk], conn);
  }

  /** What was written of a connection is a prefix of what was dealt with. */
  lemma {:induction false} WrittenOfConnIsPrefix(done: seq<Handled>, conn: nat)
    requires SkipsAreFinal(done)
    ensures OfConn(WrittenChunks(done), conn) <= OfConn(Chunks(done), conn)
    ensures !SomeSkipped(done, conn) ==> OfConn(WrittenChunks(done), conn) == OfConn(Chunks(done), conn)
    decreases |done|
  {
    hide SomeSkipped, SkipsAreFinal, OfConn, Chunks, WrittenChunks;
    if done == [] {
      NothingDone(conn);
    } else {
      var before, last := done[..|done| - 1], done[|done| - 1];
      SkippedEarlier(done, conn);
      WrittenOfConnIsPrefix(before, conn);
      WrittenUnfolds(done, conn);
      var w, h := OfConn(WrittenChunks(before), conn), OfConn(Chunks(before), conn);
      var d := if IsClient(last.chunk) && last.chunk.conn == conn then [last.chunk] else [];
      PrefixStays(w, h, d);
    }
  }

  lemma NothingDone(conn: nat)
    ensures OfConn(WrittenChunks([]), conn) == [] == OfConn(Chunks([]), conn)
  {
    assert Chunks([]) == [];
  }

  lemma {:induction false} RuntimeAllWritten(done: seq<Handled>)
    requires forall i :: 0 <= i < |done| ==> done[i].chunk.runtimeOriginated ==> done[i].written
    ensures RuntimeOnly(WrittenChunks(done)) == RuntimeOnly(Chunks(done))
    decreases |done|
  {
    if done == [] {
      assert Chunks([]) == [];
    } else {
      var before, last := done[..|done| - 1], done[|done| - 1];
      assert forall i :: 0 <= i < |before| ==> before[i] == done[i];
      RuntimeAllWritten(before);
      hide RuntimeOnly, Chunks;
      DoneAppends(before, last);
      assert done == before + [last];
      OfConnOne(last.chunk, 0);
      RuntimeAppend(WrittenChunks(before), if last.written then [last.chunk] else []);
      RuntimeAppend(Chunks(before), [last.chunk]);
      if !last.written {
        assert RuntimeOnly(Chunks(before)) + [] == RuntimeOnly(Chunks(before));
      }
    }
  }

  /** Over every interleaving: the client chunks written carry non-decreasing
      connection numbers; each connection's written chunks are a prefix of its
      accepted ones; and the runtime's answers are all written or still waiting, in
      the order they were accepted. */
  lemma WriterFenceHolds(filtering: bool, actions: seq<Action>)
    ensures var s := Run(START.(filtering := filtering), actions);
      && NonDecreasing(WrittenChunks(s.done))
      && (forall conn: nat :: OfConn(WrittenChunks(s.done), conn) <= OfConn(s.accepted, conn))
      && RuntimeOnly(WrittenChunks(s.done)) + RuntimeOnly(InHand(s.hand) + s.queue) == RuntimeOnly(s.accepted)
  {
    var s := Run(START.(filtering := filtering), actions);
    RunKeepsInv(filtering, actions);
    AscendingWritten(s.done);
    var waiting := InHand(s.hand) + s.queue;
    assert s.accepted == Chunks(s.done) + waiting;
    forall conn: nat ensures OfConn(WrittenChunks(s.done), conn) <= OfConn(s.accepted, conn) {
      WrittenOfConnIsPrefix(s.done, conn);
      OfConnAppend(Chunks(s.done), waiting, conn);
    }
    RuntimeAllWritten(s.done);
    RuntimeAppend(Chunks(s.done), waiting);
  }

  // ----- that the writer writes ------------------------------------------------------------

  /** One whole turn of the writer in which a write succeeds. */
  function Turn(s: Input): Input {
    Step(Step(Step(s, Receive), CheckFence), WriteOut(true))
  }

  /** What may happen between turns while connection `conn` stays the owner: client writes,
      their queueing, answers of the runtime, and other connections leaving. */
  predicate Quiet(a: Action, conn: nat) {
    a.BeginWrite? || a.Enqueue? || a.Answer? || (a.Detach? && a.conn != conn)
  }

  datatype Beat = WriterTurn | Other(action: Action)

  function Beats(s: Input, beats: seq<Beat>): Input
    decreases |beats|
  {
    if beats == [] then s
    else
      var before, last := Beats(s, beats[..|beats| - 1]), beats[|beats| - 1];
      if last.WriterTurn? then Turn(before) else Step(before, last.action)
  }

  function TurnsIn(beats: seq<Beat>): nat
    decreases |beats|
  {
    if beats == [] then 0 else TurnsIn(beats[..|beats| - 1]) + if beats[|beats| - 1].WriterTurn? then 1 else 0
  }

  predicate AllQuiet(beats: seq<Beat>, conn: nat) {
    forall i :: 0 <= i < |beats| && beats[i].Other? ==> Quiet(beats[i].action, conn)
  }

  /** The writer is between two turns. */
  predicate Ready(s: Input) {
    !s.stopped && s.hand == Empty
  }

  lemma TurnKeepsInv(s: Input)
    requires Inv(s)
    ensures Inv(Turn(s))
  {
    hide Inv, Step;
    StepKeepsInv(s, Receive);
    StepKeepsInv(Step(s, Receive), CheckFence);
    StepKeepsInv(Step(Step(s, Receive), CheckFence), WriteOut(true));
  }

  lemma TurnDeals(s: Input)
    requires Ready(s)
    ensures Ready(Turn(s)) && Turn(s).owner == s.owner && Turn(s).accepted == s.accepted
    ensures |Turn(s).done| == |s.done| + if s.queue == [] then 0 else 1
  {
  }

  lemma QuietKeeps(s: Input, a: Action)
    requires Inv(s) && Ready(s) && Quiet(a, s.owner)
    ensures Inv(Step(s, a)) && Ready(Step(s, a)) && Step(s, a).owner == s.owner
    ensures Step(s, a).done == s.done && s.accepted <= Step(s, a).accepted
  {
    StepKeepsInv(s, a);
    hide Inv, Filter;
  }

  lemma {:induction false} BeatsDeal(s: Input, beats: seq<Beat>)
    requires Inv(s) && Ready(s) && AllQuiet(beats, s.owner)
    ensures var r := Beats(s, beats);
      && Inv(r) && Ready(r) && r.owner == s.owner && s.accepted <= r.accepted
      && |r.done| >= |s.done| + Min(TurnsIn(beats), |s.queue|)
    decreases |beats|
  {
    if beats != [] {
      var before, last := beats[..|beats| - 1], beats[|beats| - 1];
      assert forall i :: 0 <= i < |before| ==> before[i] == beats[i];
      BeatsDeal(s, before);
      var m := Beats(s, before);
      NothingElseWaits(s);
      NothingElseWaits(m);
      hide Inv, Ready, Turn, Step, Quiet, AllQuiet;
      if last.WriterTurn? { TurnKeepsInv(m); TurnDeals(m); } else { QuietBeat(beats, s.owner); QuietKeeps(m, last.action); }
    }
  }

  lemma QuietBeat(beats: seq<Beat>, conn: nat)
    requires beats != [] && AllQuiet(beats, conn) && beats[|beats| - 1].Other?
    ensures Quiet(beats[|beats| - 1].action, conn)
  {
  }

  lemma NothingElseWaits(s: Input)
    requires Inv(s) && Ready(s)
    ensures |s.accepted| == |s.done| + |s.queue|
  {
  }

  /** Nothing of the present owner was ever skipped. */
  lemma OwnerIsWritten(s: Input)
    requires Inv(s) && s.owner != 0
    ensures OfConn(WrittenChunks(s.done), s.owner) == OfConn(Chunks(s.done), s.owner)
  {
    WrittenOfConnIsPrefix(s.done, s.owner);
    hide OfConn, WrittenChunks, Chunks, Ascending, SkipsAreFinal;
  }

  lemma DealtWith(s: Input, accepted: seq<Chunk>)
    requires Inv(s) && accepted <= s.accepted && |accepted| <= |s.done|
    ensures accepted <= Chunks(s.done)
  {
    var d := Chunks(s.done);
    assert |d| <= |s.accepted| && forall i :: 0 <= i < |d| ==> s.accepted[i] == d[i];
    hide Inv;
  }

  /** While the owner stays and writes succeed, as many turns as there are chunks waiting
      write every chunk that connection had accepted, whatever is written and answered in
      between. */
  lemma WaitingIsWritten(filtering: bool, actions: seq<Action>, beats: seq<Beat>)
    requires var s := Run(START.(filtering := filtering), actions);
      Ready(s) && s.owner != 0 && AllQuiet(beats, s.owner) && TurnsIn(beats) >= |s.queue|
    ensures var s := Run(START.(filtering := filtering), actions);
      var r := Beats(s, beats);
      && r.owner == s.owner
      && OfConn(s.accepted, s.owner) <= OfConn(WrittenChunks(r.done), s.owner)
      && RuntimeOnly(s.accepted) <= RuntimeOnly(WrittenChunks(r.done))
  {
    var s := Run(START.(filtering := filtering), actions);
    RunKeepsInv(filtering, actions);
    BeatsDeal(s, beats);
    var r := Beats(s, beats);
    NothingElseWaits(s);
    DealtWith(r, s.accepted);
    OwnerIsWritten(r);
    RuntimeIsWritten(r);
    hide *;
    var rest := Chunks(r.done)[|s.accepted|..];
    assert Chunks(r.done) == s.accepted + rest;
    OfConnAppend(s.accepted, rest, s.owner);
    RuntimeAppend(s.accepted, rest);
  }

  lemma RuntimeIsWritten(s: Input)
    requires Inv(s)
    ensures RuntimeOnly(WrittenChunks(s.done)) == RuntimeOnly(Chunks(s.done))
  {
    RuntimeAllWritten(s.done);
  }

  /** A failed write is the writer's last: nothing is written after it. */
  lemma {:induction false} StoppedForGood(s: Input, actions: seq<Action>)
    requires s.stopped
    ensures Continue(s, actions).stopped && WrittenChunks(Continue(s, actions).done) == WrittenChunks(s.done)
    decreases |actions|
  {
    hide WrittenChunks;
    if actions != [] {
      StoppedForGood(s, actions[..|actions| - 1]);
      StoppedStep(Continue(s, actions[..|actions| - 1]), actions[|actions| - 1]);
    }
  }

  function Continue(s: Input, actions: seq<Action>): Input
    decreases |actions|
  {
    if actions == [] then s else Step(Continue(s, actions[..|actions| - 1]), actions[|actions| - 1])
  }

  lemma StoppedStep(s: Input, a: Action)
    requires s.stopped
    ensures Step(s, a).stopped && WrittenChunks(Step(s, a).done) == WrittenChunks(s.done)
  {
    if a.CheckFence? && s.hand.Received? {
      var h := Handled(s.hand.chunk, false);
      assert (s.done + [h])[..|s.done|] == s.done;
    }
    hide Filter;
  }

  /** `conn` does not own the session, and nothing of it is past the fence. */
  predicate ShutOut(s: Input, conn: nat) {
    && s.owner != conn && 0 < conn < s.nextConn
    && (s.hand.Cleared? ==> s.hand.chunk.runtimeOriginated || s.hand.chunk.conn != conn)
  }

  lemma StepShutsOut(s: Input, a: Action, conn: nat)
    requires ShutOut(s, conn)
    ensures ShutOut(Step(s, a), conn)
    ensures OfConn(WrittenChunks(Step(s, a).done), conn) == OfConn(WrittenChunks(s.done), conn)
  {
    hide Filter, OfConn, WrittenChunks;
    if Step(s, a).done != s.done {
      var last := Step(s, a).done[|s.done|];
      assert Step(s, a).done == s.done + [last];
      OneMoreDone(s.done, last, conn);
    }
  }

  lemma OneMoreDone(done: seq<Handled>, last: Handled, conn: nat)
    requires last.written ==> last.chunk.runtimeOriginated || last.chunk.conn != conn
    ensures OfConn(WrittenChunks(done + [last]), conn) == OfConn(WrittenChunks(done), conn)
  {
    assert (done + [last])[..|done|] == done;
    OfConnAppend(WrittenChunks(done), if last.written then [last.chunk] else [], conn);
    OfConnOne(last.chunk, conn);
    hide OfConn;
  }

  lemma {:induction false} RunShutsOut(s: Input, later: seq<Action>, conn: nat)
    requires ShutOut(s, conn)
    ensures ShutOut(Continue(s, later), conn)
    ensures OfConn(WrittenChunks(Continue(s, later).done), conn) == OfConn(WrittenChunks(s.done), conn)
    decreases |later|
  {
    hide Step, ShutOut, OfConn, WrittenChunks;
    if later != [] {
      RunShutsOut(s, later[..|later| - 1], conn);
      StepShutsOut(Continue(s, later[..|later| - 1]), later[|later| - 1], conn);
    }
  }

  /** A connection that is replaced, leaves, is renewed away or torn down never has another
      byte written, whatever it or others send and however long, beyond a chunk the writer
      had already taken past the fence. */
  lemma EvictedWritesNothing(s: Input, a: Action, later: seq<Action>)
    requires 0 < s.owner < s.nextConn && (a.Attach? || a == Detach(s.owner) || a.Renew? || a.Teardown?)
    requires s.hand.Cleared? ==> s.hand.chunk.runtimeOriginated || s.hand.chunk.conn != s.owner
    ensures var r := Continue(Step(s, a), later);
      OfConn(WrittenChunks(r.done), s.owner) == OfConn(WrittenChunks(s.done), s.owner)
  {
    RunShutsOut(Step(s, a), later, s.owner);
    hide OfConn, WrittenChunks, Continue;
  }

  // ----- the object -------------------------------------------------------------------------

  datatype InputResult = Ok | Evicted | Backpressure

  /** What a client's write comes to. */
  function Verdict(s: Input, conn: nat, bytes: seq<byte>): InputResult {
    var filtered := Filter(s.filtering, bytes);
    if !s.alive || s.owner != conn || (filtered != [] && s.stopped) then Evicted
    else if filtered != [] && |s.queue| >= INPUT_QUEUE_CHUNKS then Backpressure
    else Ok
  }

  /** The input side of one session. `Attach` and `Detach` are the fence moves made
      under the state lock; `WriterTurn` is one turn of the writer thread's loop. */
  class SessionInput {
    var ownerConn: nat
    var nextConn: nat
    var alive: bool
    var stopped: bool
    var queue: seq<Chunk>
    const filter: TermFilter.TermFilter?
    ghost var hand: Hand
    ghost var accepted: seq<Chunk>
    ghost var done: seq<Handled>

    ghost function View(): Input
      reads this
    {
      Input(ownerConn, nextConn, alive, filter != null, stopped, [], queue, hand, accepted, done)
    }

    constructor (filtering: bool)
      ensures View() == START.(filtering := filtering)
      ensures filter != null ==> fresh(filter)
    {
      ownerConn, nextConn, alive, stopped, queue := 0, 1, true, false, [];
      hand, accepted, done := Empty, [], [];
      if filtering {
        filter := new TermFilter.TermFilter();
      } else {
        filter := null;
      }
    }

    method Attach() returns (conn: nat)
      modifies this
      ensures View() == Step(old(View()), Action.Attach) && conn == ownerConn == old(nextConn)
    {
      conn := nextConn;
      nextConn := nextConn + 1;
      ownerConn := conn;
    }

    method Detach(conn: nat)
      modifies this
      ensures View() == Step(old(View()), Action.Detach(conn))
    {
      if ownerConn != conn {
        return;
      }
      ownerConn := 0;
    }

    /** Fence, filter, queue. `Ok` exactly when the chunk was queued or filtered to nothing,
        `Backpressure` exactly when the queue was full and open, `Evicted` off the fence
        or when the writer is gone. */
    method WriteInput(conn: nat, bytes: seq<byte>) returns (r: InputResult)
      requires conn != 0
      modifies this, filter
      ensures View() == Step(Step(old(View()), BeginWrite(conn, bytes)), Enqueue(0))
      ensures r == Verdict(old(View()), conn, bytes)
      ensures var filtered := Filter(filter != null, bytes);
        && (r.Evicted? <==> old(!alive) || old(ownerConn) != conn || (filtered != [] && old(stopped)))
        && (r.Backpressure? <==>
              old(alive) && old(ownerConn) == conn && filtered != [] && old(!stopped) && old(|queue|) >= INPUT_QUEUE_CHUNKS)
      ensures accepted == old(accepted) +
        if r.Ok? && Filter(filter != null, bytes) != [] then [Chunk(conn, Filter(filter != null, bytes), false)] else []
    {
      if !alive || ownerConn != conn {
        return Evicted;
      }
      var filtered := bytes;
      if filter != null {
        filtered := filter.Filter(bytes);
      }
      if filtered == [] {
        return Ok;
      }
      var sent := TrySend(Chunk(conn, filtered, false));
      if sent {
        r := Ok;
      } else if stopped {
        r := Evicted;
      } else {
        r := Backpressure;
      }
    }

    method AnswerChild(bytes: seq<byte>)
      modifies this
      ensures View() == Step(old(View()), Answer(bytes))
      ensures queue == old(queue) +
        if old(|queue|) < INPUT_QUEUE_CHUNKS && old(!stopped) then [Chunk(ownerConn, bytes, true)] else []
    {
      var _ := TrySend(Chunk(ownerConn, bytes, true));
    }

    method TrySend(c: Chunk) returns (sent: bool)
      modifies this
      ensures View() == Queue(old(View()), c) && sent == HasRoom(old(View()))
    {
      sent := |queue| < INPUT_QUEUE_CHUNKS && !stopped;
      if sent {
        queue := queue + [c];
        accepted := accepted + [c];
      }
    }

    /** Receive, check the fence, write; `ok` is whether the write would succeed. */
    method WriterTurn(ok: bool) returns (written: Option<seq<byte>>)
      requires !stopped && hand == Empty && queue != []
      modifies this
      ensures View() == Step(Step(Step(old(View()), Receive), CheckFence), WriteOut(ok))
      ensures var c := old(queue)[0];
        var passes := c.runtimeOriginated || c.conn == old(ownerConn);
        && written == (if passes && ok then Some(c.bytes) else None)
        && stopped == (passes && !ok)
        && queue == old(queue)[1..] && ownerConn == old(ownerConn) && accepted == old(accepted)
      ensures written.Some? <==> |done| == |old(done)| + 1 && done[|old(done)|].written
    {
      var chunk := queue[0];
      queue := queue[1..];
      if !chunk.runtimeOriginated && ownerConn != chunk.conn {
        done := done + [Handled(chunk, false)];
        return None;
      }
      if !ok {
        stopped := true;
        hand := Cleared(chunk);
        return None;
      }
      done := done + [Handled(chunk, true)];
      return Some(chunk.bytes);
    }
  }
}
