/** Chunk boundaries: which bytes settle an inspection, when a chunk is cut by
    its end, and what follows for scans of concatenated or stripped output. */
module Chunks {
  import opened Bytes
  import opened ControlStrings
  import opened Kitty
  import opened CapProxy

  // ----- how many bytes settle an inspection -----------------------------------

  /** The number of bytes that settle what the sequence at the head of `s` means;
      `None` when the end of `s` cuts it short. */
  function DecidedAfter(s: seq<byte>): (w: Option<nat>)
    requires |s| >= 1 && s[0] == ESC
  {
    if |s| < 2 then None
    else if s[1] == LEFT_BRACKET then CsiDecidedAfter(s)
    else if s[1] == RIGHT_BRACKET then DecidedBy(s, 2)
    else Some(2)
  }

  function CsiDecidedAfter(s: seq<byte>): Option<nat>
    requires |s| >= 2
  {
    if |s| == 2 then None
    else if LeadingColon(s) then Some(3)
    else
      var e := ParamsEnd(s, ParamsStart(s));
      if e < |s| && e <= MAX_SEQUENCE_LEN then Some(e + 1)
      else if e == MAX_SEQUENCE_LEN + 1 then Some(e)
      else None
  }

  lemma {:induction false} ParamsEndIs(s: seq<byte>, from: nat, r: nat)
    requires from <= r <= |s| && (r == from || r <= MAX_SEQUENCE_LEN + 1)
    requires ParamRun(s[from..r])
    requires r == |s| || r > MAX_SEQUENCE_LEN || !IsParam(s[r])
    ensures ParamsEnd(s, from) == r
    decreases r - from
  {
    if from < r {
      assert s[from] == s[from..r][0];
      assert s[from + 1..r] == s[from..r][1..];
      ParamsEndIs(s, from + 1, r);
    }
  }

  lemma CsiStable(s: seq<byte>, t: seq<byte>)
    requires |s| >= 2 && CsiDecidedAfter(s).Some?
    ensures 2 <= CsiDecidedAfter(s).value <= |s|
    ensures var u := s[..CsiDecidedAfter(s).value] + t;
      CsiVerdict(u) == CsiVerdict(s) && CsiDecidedAfter(u) == CsiDecidedAfter(s)
  {
    var w := CsiDecidedAfter(s).value;
    var u := s[..w] + t;
    assert w >= 3 && u[2] == s[2];
    if !LeadingColon(s) {
      var start := ParamsStart(s);
      var e := ParamsEnd(s, start);
      assert ParamsStart(u) == start && Marker(u) == Marker(s);
      assert e <= w && s[..w][start..e] == s[start..e];
      assert u[start..e] == s[start..e];
      assert e < w ==> u[e] == s[e];
      ParamsEndIs(u, start, e);
      hide Dispatch;
    }
  }

  /** Appending to the deciding bytes changes nothing: not the meaning, not the
      reply, not how much is consumed. */
  lemma DecidedIsStable(s: seq<byte>, t: seq<byte>)
    requires |s| >= 1 && s[0] == ESC && DecidedAfter(s).Some?
    ensures 2 <= DecidedAfter(s).value <= |s|
    ensures var u := s[..DecidedAfter(s).value] + t;
      Meaning(u) == Meaning(s) && DecidedAfter(u) == DecidedAfter(s)
  {
    var w := DecidedAfter(s).value;
    var u := s[..w] + t;
    if s[1] == LEFT_BRACKET {
      CsiStable(s, t);
      assert u[1] == s[1];
    } else if s[1] == RIGHT_BRACKET {
      ControlStrings.DecidedIsStable(s, 2, t);
      assert u[0] == s[0];
      assert w >= 2;
      if w == 2 {
        assert Find(s, 2).Unterminated?;
      }
      assert u[1] == s[1];
      var f := Find(s, 2);
      if f.Terminated? {
        assert u[2..f.bodyEnd] == s[2..f.bodyEnd];
      }
    }
  }

  /** A sequence that is recognised is settled by exactly its own bytes. */
  lemma RecognisedDecidesItself(s: seq<byte>)
    requires |s| >= 1 && s[0] == ESC && !Meaning(s).Unknown?
    ensures DecidedAfter(s) == Some(Meaning(s).len)
  {
  }

  // ----- chunk composition -------------------------------------------------------

  /** Every sequence the scan looks at is settled before the chunk ends. */
  predicate Uncut(s: seq<byte>)
    decreases |s|
  {
    s == [] || ((s[0] == ESC ==> DecidedAfter(s).Some?) && Uncut(s[Advance(s)..]))
  }

  lemma FirstOfConcat(m: Model, a: seq<byte>, b: seq<byte>)
    requires a != [] && (a[0] == ESC ==> DecidedAfter(a).Some?)
    ensures First(m, a + b) == First(m, a) && Advance(a + b) == Advance(a)
    ensures (a + b)[Advance(a)..] == a[Advance(a)..] + b
  {
    if a[0] == ESC {
      var w := DecidedAfter(a).value;
      DecidedIsStable(a, a[w..] + b);
      assert a[..w] + (a[w..] + b) == a + b;
      if !Meaning(a).Unknown? {
        RecognisedDecidesItself(a);
        assert (a + b)[..Meaning(a).len] == a[..Meaning(a).len];
      }
    }
    assert (a + b)[..1] == a[..1];
  }

  /** Processing two chunks in one go or one after the other is the same, whenever
      the first is not cut by its end. */
  lemma {:induction false} ChunksCompose(m: Model, a: seq<byte>, b: seq<byte>)
    requires Uncut(a)
    ensures Scan(m, a + b) == Then(Scan(m, a), Scan(Scan(m, a).model, b))
    decreases |a|
  {
    if a == [] {
      assert a + b == b;
      assert Scan(m, a) == Scanned([], [], 0, m);
    } else {
      var first, rest := First(m, a), a[Advance(a)..];
      FirstOfConcat(m, a, b);
      ScanUnfolds(m, a + b);
      ScanUnfolds(m, a);
      ChunksCompose(first.model, rest, b);
      ThenAssociates(first, Scan(first.model, rest), Scan(Scan(m, a).model, b));
    }
  }

  lemma {:induction false} UncutComposes(a: seq<byte>, b: seq<byte>)
    requires Uncut(a) && Uncut(b)
    ensures Uncut(a + b)
    decreases |a|
  {
    if a == [] {
      assert a + b == b;
    } else {
      DecidedInConcat(a, b);
      hide DecidedAfter, Meaning;
      UncutComposes(a[Advance(a)..], b);
    }
  }

  lemma DecidedInConcat(a: seq<byte>, b: seq<byte>)
    requires a != [] && (a[0] == ESC ==> DecidedAfter(a).Some?)
    ensures a[0] == ESC ==> DecidedAfter(a + b) == DecidedAfter(a) && Meaning(a + b) == Meaning(a)
    ensures Advance(a + b) == Advance(a) && (a + b)[Advance(a)..] == a[Advance(a)..] + b
  {
    FirstOfConcat(FRESH_MODEL, a, b);
    hide DecidedAfter, Meaning;
    if a[0] == ESC { DecidedWithin(a, b); }
  }

  /** Every chunk that ends inside a recognised sequence is cut: no proper beginning of
      one is settled. */
  lemma PrefixIsCut(s: seq<byte>, k: nat)
    requires |s| >= 1 && s[0] == ESC && !Meaning(s).Unknown? && Meaning(s).len == |s|
    requires 1 <= k < |s|
    ensures DecidedAfter(s[..k]).None? && !Uncut(s[..k])
  {
    var p := s[..k];
    RecognisedDecidesItself(s);
    assert p + s[k..] == s && p[0] == ESC;
    hide Meaning, DecidedAfter;
    if DecidedAfter(p).Some? { DecidedWithin(p, s[k..]); }
  }

  lemma DecidedWithin(p: seq<byte>, t: seq<byte>)
    requires |p| >= 1 && p[0] == ESC && DecidedAfter(p).Some?
    ensures DecidedAfter(p + t) == DecidedAfter(p) && DecidedAfter(p).value <= |p|
    ensures Meaning(p + t) == Meaning(p)
  {
    var w := DecidedAfter(p).value;
    DecidedIsStable(p, p[w..] + t);
    hide Meaning, DecidedAfter;
    assert p[..w] + (p[w..] + t) == p + t;
  }

  /** A recognised control sequence holds no second `ESC`. */
  lemma CsiHasOneEscape(s: seq<byte>)
    requires |s| >= 2 && s[0] == ESC && s[1] == LEFT_BRACKET && !Meaning(s).Unknown?
    ensures forall i :: 1 <= i < Meaning(s).len ==> s[i] != ESC
  {
    var start := ParamsStart(s);
    var e := ParamsEnd(s, start);
    forall i | start <= i < e ensures s[i] != ESC {
      assert s[i] == s[start..e][i - start];
      assert IsParam(s[start..e][i - start]);
    }
  }

  lemma NoEscape(s: seq<byte>)
    requires forall i :: 0 <= i < |s| ==> s[i] != ESC
    ensures ESC !in s
  {
  }

  predicate OneEscape(s: seq<byte>) {
    forall i :: 1 <= i < |s| ==> s[i] != ESC
  }

  /** And it matters for every query of this form, wherever it is split: in one chunk
      it is removed and answered, over two it is kept whole and never answered. */
  lemma CutQueryIsLost(m: Model, a: seq<byte>, b: seq<byte>)
    requires a != [] && b != [] && IsCsiQuery(a + b)
    ensures Scan(m, a + b) == Scanned([], Render(m, Meaning(a + b).reply), 1, m)
    ensures Then(Scan(m, a), Scan(Scan(m, a).model, b)) == Scanned(a + b, [], 0, m)
    ensures !Uncut(a)
  {
    hide *;
    OneQuery(m, a + b);
    CutHalves(a, b);
    EscapeAndText(m, a);
    PlainTextIsKept(m, b);
    BothKept(a, m, b, m);
  }

  predicate IsCsiQuery(s: seq<byte>) {
    |s| >= 2 && s[0] == ESC && s[1] == LEFT_BRACKET && Meaning(s).Query? && Meaning(s).len == |s|
  }

  lemma CutHalves(a: seq<byte>, b: seq<byte>)
    requires a != [] && b != [] && IsCsiQuery(a + b)
    ensures a[0] == ESC && Meaning(a).Unknown? && OneEscape(a) && ESC !in b && !Uncut(a)
  {
    var s := a + b;
    CsiHasOneEscape(s);
    PrefixIsCut(s, |a|);
    hide Meaning, DecidedAfter, Uncut;
    assert s[..|a|] == a;
    UndecidedIsUnknown(a);
    assert forall i :: 0 <= i < |b| ==> b[i] == s[|a| + i];
    NoEscape(b);
  }

  lemma EscapeAndText(m: Model, a: seq<byte>)
    requires |a| >= 1 && a[0] == ESC && Meaning(a).Unknown? && OneEscape(a)
    ensures Scan(m, a) == Scanned(a, [], 0, m)
  {
    NoEscape(a[1..]);
    PlainTextIsKept(m, a[1..]);
    hide Meaning, OneEscape;
    assert a[..1] + a[1..] == a;
  }

  lemma UndecidedIsUnknown(s: seq<byte>)
    requires |s| >= 1 && s[0] == ESC && DecidedAfter(s).None?
    ensures Meaning(s).Unknown?
  {
    if !Meaning(s).Unknown? { RecognisedDecidesItself(s); }
  }

  lemma OneQuery(m: Model, s: seq<byte>)
    requires IsCsiQuery(s)
    ensures Scan(m, s) == Scanned([], Render(m, Meaning(s).reply), 1, m)
  {
    assert s[|s|..] == [];
    assert Scan(m, []) == Scanned([], [], 0, m);
    assert Render(m, Meaning(s).reply) + [] == Render(m, Meaning(s).reply);
  }

  // ----- stripping ---------------------------------------------------------------

  /** None of the first `n` bytes opens anything but a string terminator, so the
      scan keeps them all. */
  predicate Inert(s: seq<byte>, n: nat) {
    n <= |s| && forall j :: 0 <= j < n && s[j] == ESC ==> j + 1 < n && s[j + 1] == BACKSLASH
  }

  /** Removing the queries cannot join what stood on either side of one into a new
      sequence: wherever the scan passes an `ESC` it does not recognise, the bytes
      that settled so are kept in place. */
  predicate Separable(s: seq<byte>)
    decreases |s|
  {
    s == [] || (
      && (s[0] == ESC ==> DecidedAfter(s).Some?)
      && (s[0] == ESC && Meaning(s).Unknown? ==>
            2 <= DecidedAfter(s).value <= |s| && Inert(s[1..], DecidedAfter(s).value - 1))
      && Separable(s[Advance(s)..]))
  }

  lemma {:induction false} SeparableIsUncut(s: seq<byte>)
    requires Separable(s)
    ensures Uncut(s)
    decreases |s|
  {
    if s != [] { SeparableIsUncut(s[Advance(s)..]); }
  }

  /** Chunks in which every `ESC` opens a recognised sequence are separable. */
  predicate AllRecognised(s: seq<byte>)
    decreases |s|
  {
    s == [] || ((s[0] == ESC ==> !Meaning(s).Unknown?) && AllRecognised(s[Advance(s)..]))
  }

  lemma {:induction false} RecognisedIsSeparable(s: seq<byte>)
    requires AllRecognised(s)
    ensures Separable(s)
    decreases |s|
  {
    if s != [] {
      if s[0] == ESC { RecognisedDecidesItself(s); }
      RecognisedIsSeparable(s[Advance(s)..]);
    }
  }

  lemma {:induction false} InertPrefixIsKept(m: Model, s: seq<byte>, n: nat)
    requires Inert(s, n)
    ensures n <= |Scan(m, s).kept| && Scan(m, s).kept[..n] == s[..n]
    decreases n
  {
    if n > 0 {
      assert s[0] == ESC ==> s[1] == BACKSLASH;
      assert Advance(s) == 1 && First(m, s) == Scanned(s[..1], [], 0, m);
      ScanUnfolds(m, s);
      forall j | 0 <= j < n - 1 && s[1..][j] == ESC
        ensures j + 1 < n - 1 && s[1..][j + 1] == BACKSLASH
      {
        assert s[j + 1] == ESC;
      }
      InertPrefixIsKept(m, s[1..], n - 1);
      var tail := Scan(m, s[1..]).kept;
      assert Scan(m, s).kept == s[..1] + tail;
      assert (s[..1] + tail)[..n] == s[..1] + tail[..n - 1];
    }
  }

  /** The kept part of one separable chunk: scanning it again finds no query,
      keeps all of it, and moves the kitty model exactly as the original did. */
  ghost predicate StripSettled(m: Model, s: seq<byte>) {
    var kept := Scan(m, s).kept;
    Scan(m, kept) == Scanned(kept, [], 0, Scan(m, s).model) && Separable(kept)
  }

  lemma SettledAfterKept(m: Model, s: seq<byte>, rest: seq<byte>, w: nat)
    requires |s| >= 1 && s[0] == ESC && DecidedAfter(s) == Some(w) && w <= |s|
    requires rest != [] && rest[0] == ESC && w <= |rest| && rest[..w] == s[..w]
    ensures Meaning(rest) == Meaning(s) && DecidedAfter(rest) == Some(w)
  {
    DecidedIsStable(s, rest[w..]);
    assert s[..w] + rest[w..] == rest;
  }

  lemma {:induction false} StripPreservesModel(m: Model, s: seq<byte>)
    requires Separable(s)
    ensures StripSettled(m, s)
    decreases |s|
  {
    if s != [] {
      var n, first := Advance(s), First(m, s);
      StripPreservesModel(first.model, s[n..]);
      hide Scan, StripSettled, Separable, Inert;
      if s[0] == ESC && Meaning(s).Query? {
        StripQuery(m, s);
      } else if s[0] == ESC && Meaning(s).Change? {
        StripChange(m, s);
      } else {
        StripByte(m, s);
      }
    }
  }

  lemma StripQuery(m: Model, s: seq<byte>)
    requires s != [] && s[0] == ESC && Meaning(s).Query? && StripSettled(m, s[Advance(s)..])
    ensures StripSettled(m, s)
  {
    ScanUnfolds(m, s);
    hide Meaning, Separable;
    assert Scan(m, s).kept == Scan(m, s[Advance(s)..]).kept;
  }

  lemma StripChange(m: Model, s: seq<byte>)
    requires s != [] && s[0] == ESC && Meaning(s).Change? && StripSettled(First(m, s).model, s[Advance(s)..])
    ensures StripSettled(m, s)
  {
    var n, first := Advance(s), First(m, s);
    var tail := Scan(first.model, s[n..]).kept;
    ScanUnfolds(m, s);
    RecognisedDecidesItself(s);
    hide Meaning, DecidedAfter, Inert;
    var kept := s[..n] + tail;
    assert Scan(m, s).kept == kept && kept[..n] == s[..n] && kept[n..] == tail;
    SettledAfterKept(m, s, kept, n);
    ScanUnfolds(m, kept);
  }

  lemma StripByte(m: Model, s: seq<byte>)
    requires s != [] && Separable(s) && (s[0] == ESC ==> Meaning(s).Unknown?) && StripSettled(m, s[1..])
    ensures StripSettled(m, s)
  {
    var tail := Scan(m, s[1..]).kept;
    ScanUnfolds(m, s);
    var kept := s[..1] + tail;
    assert Scan(m, s).kept == kept && kept[1..] == tail && kept[..1] == s[..1];
    if s[0] == ESC {
      var w := DecidedAfter(s).value;
      InertPrefixIsKept(m, s[1..], w - 1);
      KeptBeginning(s, tail, w);
      SettledAfterKept(m, s, kept, w);
      InertTransfers(s[1..], tail, w - 1);
    }
    hide Meaning, DecidedAfter, Inert;
    ScanUnfolds(m, kept);
  }

  lemma KeptBeginning(s: seq<byte>, tail: seq<byte>, w: nat)
    requires 1 <= w <= |s| && w - 1 <= |tail| && tail[..w - 1] == s[1..][..w - 1]
    ensures w <= |s[..1] + tail| && (s[..1] + tail)[..w] == s[..w]
  {
    assert (s[..1] + tail)[..w] == s[..1] + tail[..w - 1];
    assert s[..w] == s[..1] + s[1..][..w - 1];
  }

  lemma InertTransfers(s: seq<byte>, tail: seq<byte>, n: nat)
    requires Inert(s, n) && n <= |tail| && tail[..n] == s[..n]
    ensures Inert(tail, n)
  {
    forall j | 0 <= j < n && tail[j] == ESC ensures j + 1 < n && tail[j + 1] == BACKSLASH {
      assert tail[j] == tail[..n][j] == s[..n][j] == s[j];
      assert tail[j + 1] == tail[..n][j + 1] == s[..n][j + 1] == s[j + 1];
    }
  }

  // ----- the partition of a chunk --------------------------------------------------

  datatype Piece = Piece(bytes: seq<byte>, removed: bool)

  /** The chunk cut where the scan moved. */
  function Pieces(s: seq<byte>): seq<Piece>
    decreases |s|
  {
    if s == [] then [] else
    [Piece(s[..Advance(s)], s[0] == ESC && Meaning(s).Query?)] + Pieces(s[Advance(s)..])
  }

  function Join(pieces: seq<Piece>): seq<byte> {
    if pieces == [] then [] else pieces[0].bytes + Join(pieces[1..])
  }

  function JoinKept(pieces: seq<Piece>): seq<byte> {
    if pieces == [] then []
    else if pieces[0].removed then JoinKept(pieces[1..])
    else pieces[0].bytes + JoinKept(pieces[1..])
  }

  function CountRemoved(pieces: seq<Piece>): nat {
    if pieces == [] then 0 else (if pieces[0].removed then 1 else 0) + CountRemoved(pieces[1..])
  }

  ghost predicate IsWholeQuery(b: seq<byte>) {
    |b| >= 1 && b[0] == ESC && Meaning(b).Query? && Meaning(b).len == |b|
  }

  lemma RemovedIsWholeQuery(s: seq<byte>)
    requires |s| >= 1 && s[0] == ESC && Meaning(s).Query?
    ensures IsWholeQuery(s[..Advance(s)])
  {
    RecognisedDecidesItself(s);
    DecidedIsStable(s, []);
    assert s[..Advance(s)] + [] == s[..Advance(s)];
  }

  lemma {:induction false} PiecesJoin(s: seq<byte>)
    ensures Join(Pieces(s)) == s
    decreases |s|
  {
    if s != [] {
      PiecesJoin(s[Advance(s)..]);
      assert Pieces(s)[1..] == Pieces(s[Advance(s)..]);
      assert s[..Advance(s)] + s[Advance(s)..] == s;
    }
  }

  ghost predicate RemovedWhole(p: Piece) {
    p.removed ==> IsWholeQuery(p.bytes)
  }

  /** Every removed piece is one complete query. */
  lemma {:induction false} RemovedAreWhole(s: seq<byte>, i: nat)
    requires i < |Pieces(s)|
    ensures RemovedWhole(Pieces(s)[i])
    decreases |s|
  {
    var rest := Pieces(s[Advance(s)..]);
    assert Pieces(s)[1..] == rest;
    if i == 0 {
      if s[0] == ESC && Meaning(s).Query? { RemovedIsWholeQuery(s); }
    } else {
      RemovedAreWhole(s[Advance(s)..], i - 1);
    }
  }

  /** The kept pieces, in order, are the output; the answers count the removed ones. */
  lemma {:induction false} ScanKeepsTheRest(m: Model, s: seq<byte>)
    ensures JoinKept(Pieces(s)) == Scan(m, s).kept
    ensures CountRemoved(Pieces(s)) == Scan(m, s).answered
    decreases |s|
  {
    if s != [] {
      var n, first := Advance(s), First(m, s);
      ScanUnfolds(m, s);
      ScanKeepsTheRest(first.model, s[n..]);
      assert Pieces(s)[1..] == Pieces(s[n..]);
      assert [] + Scan(first.model, s[n..]).kept == Scan(first.model, s[n..]).kept;
    }
  }

  // ----- the client's emulator -------------------------------------------------------

  /** The proxy over a run of chunks: its model at the end, and all it forwarded. */
  function Forward(m: Model, chunks: seq<seq<byte>>): (Model, seq<byte>)
    decreases |chunks|
  {
    if chunks == [] then (m, []) else
    var r := Scan(m, chunks[0]);
    var rest := Forward(r.model, chunks[1..]);
    (rest.0, r.kept + rest.1)
  }

  predicate AllSeparable(chunks: seq<seq<byte>>) {
    forall i :: 0 <= i < |chunks| ==> Separable(chunks[i])
  }

  /** An emulator moved by the forwarded bytes alone ends in the proxy's model, and
      meets no query the proxy would answer. */
  lemma {:induction false} EmulatorFollows(m: Model, chunks: seq<seq<byte>>)
    requires AllSeparable(chunks)
    ensures var (model, forwarded) := Forward(m, chunks);
      Scan(m, forwarded) == Scanned(forwarded, [], 0, model)
    decreases |chunks|
  {
    if chunks != [] {
      var r := Scan(m, chunks[0]);
      assert Separable(chunks[0]);
      StripPreservesModel(m, chunks[0]);
      SeparableIsUncut(r.kept);
      var rest := Forward(r.model, chunks[1..]);
      EmulatorFollows(r.model, chunks[1..]);
      ChunksCompose(m, r.kept, rest.1);
    }
  }

  // ----- suffixes of what was forwarded ---------------------------------------------------------

  /** Nothing in it would be answered. */
  predicate QueryFree(s: seq<byte>)
    decreases |s|
  {
    s == [] || ((s[0] == ESC ==> !Meaning(s).Query?) && QueryFree(s[Advance(s)..]))
  }

  /** What may have been forwarded: separable, and with nothing left to answer. */
  predicate Forwarded(s: seq<byte>) {
    Separable(s) && QueryFree(s)
  }

  lemma {:induction false} UnansweredIsQueryFree(m: Model, s: seq<byte>)
    requires Scan(m, s).answered == 0
    ensures QueryFree(s)
    decreases |s|
  {
    if s != [] {
      ScanUnfolds(m, s);
      hide Meaning, Scan;
      UnansweredIsQueryFree(First(m, s).model, s[Advance(s)..]);
    }
  }

  lemma HeadIsKept(m: Model, s: seq<byte>)
    requires s != [] && QueryFree(s)
    ensures First(m, s) == Scanned(s[..Advance(s)], [], 0, First(m, s).model) && QueryFree(s[Advance(s)..])
  {
    hide Meaning, Apply;
  }

  /** A kept head in front of a tail that is kept whole. */
  lemma KeptWhole(m: Model, s: seq<byte>, first: Scanned, n: nat)
    requires s != [] && n == Advance(s) && first == First(m, s) == Scanned(s[..n], [], 0, first.model)
    requires Scan(first.model, s[n..]) == Scanned(s[n..], [], 0, Scan(first.model, s[n..]).model)
    ensures Scan(m, s) == Scanned(s, [], 0, Scan(m, s).model)
  {
    hide Scan, First, Advance;
    ScanUnfolds(m, s);
    assert s[..n] + s[n..] == s;
    assert Scan(m, s) == Then(first, Scan(first.model, s[n..]));
  }

  lemma {:induction false} QueryFreeIsKept(m: Model, s: seq<byte>)
    requires QueryFree(s)
    ensures Scan(m, s) == Scanned(s, [], 0, Scan(m, s).model)
    decreases |s|
  {
    if s != [] {
      hide *;
      HeadIsKept(m, s);
      QueryFreeIsKept(First(m, s).model, s[Advance(s)..]);
      KeptWhole(m, s, First(m, s), Advance(s));
    }
  }

  /** What the proxy keeps of a separable chunk can be forwarded. */
  lemma KeptIsForwarded(m: Model, s: seq<byte>)
    requires Separable(s)
    ensures Forwarded(Scan(m, s).kept)
    ensures Scan(m, Scan(m, s).kept).model == Scan(m, s).model
  {
    StripPreservesModel(m, s);
    UnansweredIsQueryFree(m, Scan(m, s).kept);
  }

  lemma {:induction false} ForwardedComposes(a: seq<byte>, b: seq<byte>)
    requires Forwarded(a) && Forwarded(b)
    ensures Forwarded(a + b)
    decreases |a|
  {
    if a == [] {
      assert a + b == b;
    } else {
      DecidedInConcat(a, b);
      if a[0] == ESC && Meaning(a).Unknown? {
        var w := DecidedAfter(a).value;
        assert (a + b)[1..][..w - 1] == a[1..][..w - 1];
        InertTransfers(a[1..], (a + b)[1..], w - 1);
      }
      hide DecidedAfter, Meaning, Inert;
      ForwardedComposes(a[Advance(a)..], b);
    }
  }

  lemma {:induction false} PlainInFront(p: seq<byte>, t: seq<byte>)
    requires Forwarded(t) && forall i :: 0 <= i < |p| ==> p[i] != ESC
    ensures Forwarded(p + t)
    decreases |p|
  {
    if p == [] {
      assert p + t == t;
    } else {
      assert (p + t)[1..] == p[1..] + t;
      PlainInFront(p[1..], t);
    }
  }

  /** A recognised sequence that is passed on holds no second `ESC`. */
  lemma ChangeHasOneEscape(s: seq<byte>)
    requires |s| >= 1 && s[0] == ESC && Meaning(s).Change?
    ensures forall i :: 1 <= i < Meaning(s).len ==> s[i] != ESC
  {
    if s[1] == LEFT_BRACKET { CsiHasOneEscape(s); }
  }

  /** Cut off anywhere at the front, the rest could have been forwarded as well. */
  lemma {:induction false} SuffixIsForwarded(s: seq<byte>, k: nat)
    requires Forwarded(s) && k <= |s|
    ensures Forwarded(s[k..])
    decreases |s|
  {
    if k == 0 {
      assert s[0..] == s;
    } else {
      var n := Advance(s);
      RestIsForwarded(s);
      if k >= n {
        hide *;
        SuffixIsForwarded(s[n..], k - n);
        assert s[n..][k - n..] == s[k..];
      } else {
        InsideIsPlain(s, k);
        hide *;
        PlainInFront(s[k..n], s[n..]);
        assert s[k..n] + s[n..] == s[k..];
      }
    }
  }

  lemma RestIsForwarded(s: seq<byte>)
    requires Forwarded(s) && s != []
    ensures Forwarded(s[Advance(s)..])
  {
    hide Meaning, DecidedAfter, Inert;
  }

  lemma InsideIsPlain(s: seq<byte>, k: nat)
    requires Forwarded(s) && s != [] && 1 <= k < Advance(s)
    ensures forall i :: 0 <= i < Advance(s) - k ==> s[k..Advance(s)][i] != ESC
  {
    ChangeHasOneEscape(s);
    hide Meaning, Separable;
  }

  /** All that the proxy forwards of separable chunks can be. */
  lemma {:induction false} ForwardIsForwarded(m: Model, chunks: seq<seq<byte>>)
    requires AllSeparable(chunks)
    ensures Forwarded(Forward(m, chunks).1)
    decreases |chunks|
  {
    if chunks != [] {
      var r := Scan(m, chunks[0]);
      assert Separable(chunks[0]);
      KeptIsForwarded(m, chunks[0]);
      hide Scan, Separable, QueryFree;
      ForwardIsForwarded(r.model, chunks[1..]);
      ForwardedComposes(r.kept, Forward(r.model, chunks[1..]).1);
    }
  }

  /** After an attach that starts the client afresh, resynchronising on the replay
      keeps the two together: whatever suffix of the forwarded stream is replayed, none
      of it included, the proxy's model is that of an emulator fed the replay and then
      everything forwarded since, which meets no query on the way. */
  lemma FreshAttachAgrees(m: Model, before: seq<seq<byte>>, from: nat, after: seq<seq<byte>>)
    requires AllSeparable(before) && AllSeparable(after) && from <= |Forward(m, before).1|
    ensures var replay := Forward(m, before).1[from..];
      var (model, forwarded) := Forward(Scan(FRESH_MODEL, replay).model, after);
      Scan(FRESH_MODEL, replay + forwarded) == Scanned(replay + forwarded, [], 0, model)
  {
    ForwardIsForwarded(m, before);
    ReplayAgrees(Forward(m, before).1, from, after);
  }

  lemma ReplayAgrees(history: seq<byte>, from: nat, after: seq<seq<byte>>)
    requires Forwarded(history) && AllSeparable(after) && from <= |history|
    ensures var replay := history[from..];
      var (model, forwarded) := Forward(Scan(FRESH_MODEL, replay).model, after);
      Scan(FRESH_MODEL, replay + forwarded) == Scanned(replay + forwarded, [], 0, model)
  {
    SuffixIsForwarded(history, from);
    FedAndForwarded(history[from..], after);
  }

  lemma FedAndForwarded(fed: seq<byte>, after: seq<seq<byte>>)
    requires Forwarded(fed) && AllSeparable(after)
    ensures var (model, forwarded) := Forward(Scan(FRESH_MODEL, fed).model, after);
      Scan(FRESH_MODEL, fed + forwarded) == Scanned(fed + forwarded, [], 0, model)
  {
    var now := Scan(FRESH_MODEL, fed).model;
    var (model, forwarded) := Forward(now, after);
    SeparableIsUncut(fed);
    QueryFreeIsKept(FRESH_MODEL, fed);
    EmulatorFollows(now, after);
    ChunksCompose(FRESH_MODEL, fed, forwarded);
    BothKept(fed, now, forwarded, model);
    hide *;
  }

  lemma BothKept(a: seq<byte>, m: Model, b: seq<byte>, n: Model)
    ensures Then(Scanned(a, [], 0, m), Scanned(b, [], 0, n)) == Scanned(a + b, [], 0, n)
  {
  }

  /** Stripping is not idempotent in general: removing a query can join what
      stood around it into another one. */
  lemma StripNotIdempotent()
    ensures var s := [ESC, ESC, LEFT_BRACKET, LOWER_C, LEFT_BRACKET, LOWER_C];
      && Scan(FRESH_MODEL, s).kept == [ESC, LEFT_BRACKET, LOWER_C]
      && Scan(FRESH_MODEL, Scan(FRESH_MODEL, s).kept).kept == []
      && !Separable(s)
  {
    var s := [ESC, ESC, LEFT_BRACKET, LOWER_C, LEFT_BRACKET, LOWER_C];
    var q := [ESC, LEFT_BRACKET, LOWER_C];
    var r := [LEFT_BRACKET, LOWER_C];
    assert s[1..] == q + r;
    assert Meaning(s).Unknown?;
    PlainQuery([]);
    assert q + [] == q;
    PlainQuery(r);
    PlainTextIsKept(FRESH_MODEL, []);
    PlainTextIsKept(FRESH_MODEL, r);
    assert Scan(FRESH_MODEL, q).kept == Scan(FRESH_MODEL, q[3..]).kept;
    assert Scan(FRESH_MODEL, s[1..]).kept == Scan(FRESH_MODEL, s[1..][3..]).kept;
    assert s[1..][3..] == r;
    assert Scan(FRESH_MODEL, s).kept == s[..1] + Scan(FRESH_MODEL, s[1..]).kept;
    assert s[1..][0] == ESC;
  }

  /** The shortest device-attributes request, whatever follows it. */
  lemma PlainQuery(t: seq<byte>)
    ensures var q := [ESC, LEFT_BRACKET, LOWER_C] + t;
      Meaning(q) == Query(3, Fixed(B("\U{001b}[?65;4;1;2;6;21;22;17;28c"))) && q[3..] == t
  {
    var q := [ESC, LEFT_BRACKET, LOWER_C] + t;
    assert ParamsEnd(q, 2) == 2;
    assert q[2..2] == [];
    var none: seq<byte> := [];
    assert none[0..0] == [];
    assert ValuesFrom([], 0) == [0] by { assert GroupValue([]) == 0; }
  }
}
