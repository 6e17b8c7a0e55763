/** The filter on client input: deletes the reply shapes the capability proxy
    emits, and only those. */
module TermFilter {
  import opened Bytes
  import opened ControlStrings

  // ----- what counts as a reply ------------------------------------------------

  /** Parameter bytes, private markers and intermediates. */
  predicate IsBody(b: byte) {
    0x20 <= b <= 0x3f
  }

  predicate BodyRun(s: seq<byte>) {
    forall i :: 0 <= i < |s| ==> IsBody(s[i])
  }

  predicate IsFinal(b: byte) {
    0x40 <= b <= 0x7e
  }

  function BodyEnd(s: seq<byte>, from: nat): (r: nat)
    requires from <= |s|
    ensures from <= r <= |s|
    ensures r == from || r <= MAX_SEQUENCE_LEN + 1
    ensures forall i :: from <= i < r ==> IsBody(s[i])
    ensures r < |s| && r <= MAX_SEQUENCE_LEN ==> !IsBody(s[r])
    decreases |s| - from
  {
    if from < |s| && from <= MAX_SEQUENCE_LEN && IsBody(s[from]) then BodyEnd(s, from + 1) else from
  }

  /** A control sequence only a terminal sends as an answer: any `c` or `n`, a `u`
      led by `?`, a `{` marked by `*`. */
  predicate IsCsiReply(body: seq<byte>, final: byte) {
    || final == LOWER_C
    || final == LOWER_N
    || (final == LOWER_U && |body| > 0 && body[0] == QUESTION)
    || (final == LEFT_BRACE && STAR in body)
  }

  function CsiReply(s: seq<byte>): Option<nat>
    requires |s| >= 2
  {
    var e := BodyEnd(s, 2);
    if e < |s| && e <= MAX_SEQUENCE_LEN && IsFinal(s[e]) && IsCsiReply(s[2..e], s[e]) then Some(e + 1) else None
  }

  /** How many leading bytes are digits. */
  function DigitRun(s: seq<byte>): (n: nat)
    ensures n <= |s| && AllDigits(s[..n])
    ensures n < |s| ==> !IsDigit(s[n])
  {
    if s == [] || !IsDigit(s[0]) then 0
    else
      var n := DigitRun(s[1..]);
      assert s[..n + 1] == [s[0]] + s[1..][..n];
      1 + n
  }

  predicate IsColourReply(payload: seq<byte>) {
    var j := DigitRun(payload);
    && payload[..j] in {B("10"), B("11"), B("12")}
    && (StartsWith(payload[j..], B(";rgb:")) || StartsWith(payload[j..], B(";rgba:")))
  }

  predicate IsChecksumReply(payload: seq<byte>) {
    StartsWith(payload[DigitRun(payload)..], B("!~"))
  }

  function StringReply(s: seq<byte>): Option<nat>
    requires |s| >= 2
  {
    var f := Find(s, 2);
    if f.Unterminated? then None
    else if s[1] == RIGHT_BRACKET && IsColourReply(s[2..f.bodyEnd]) then Some(f.len)
    else if s[1] == UPPER_P && IsChecksumReply(s[2..f.bodyEnd]) then Some(f.len)
    else None
  }

  /** Length of the reply at the head of `s`, if there is one. */
  function Classify(s: seq<byte>): (r: Option<nat>)
    requires |s| >= 1 && s[0] == ESC
    ensures r.Some? ==> 2 <= r.value <= |s|
  {
    if |s| < 2 then None
    else if s[1] == LEFT_BRACKET then CsiReply(s)
    else StringReply(s)
  }

  // ----- the filtered chunk ------------------------------------------------------

  datatype Filtered = Filtered(kept: seq<byte>, sequences: nat, bytes: nat)

  function Then(a: Filtered, b: Filtered): Filtered {
    Filtered(a.kept + b.kept, a.sequences + b.sequences, a.bytes + b.bytes)
  }

  function Advance(s: seq<byte>): (n: nat)
    requires s != []
    ensures 1 <= n <= |s|
  {
    if s[0] == ESC && Classify(s).Some? then Classify(s).value else 1
  }

  function First(s: seq<byte>): Filtered
    requires s != []
  {
    if s[0] == ESC && Classify(s).Some? then Filtered([], 1, Classify(s).value)
    else Filtered(s[..1], 0, 0)
  }

  function FilterScan(s: seq<byte>): Filtered
    decreases |s|
  {
    if s == [] then Filtered([], 0, 0) else Then(First(s), FilterScan(s[Advance(s)..]))
  }

  lemma ThenAssociates(a: Filtered, b: Filtered, c: Filtered)
    ensures Then(Then(a, b), c) == Then(a, Then(b, c))
  {
    assert a.kept + b.kept + c.kept == a.kept + (b.kept + c.kept);
  }

  lemma {:induction false} PlainInputIsKept(s: seq<byte>)
    requires ESC !in s
    ensures FilterScan(s) == Filtered(s, 0, 0)
    decreases |s|
  {
    if s != [] {
      PlainInputIsKept(s[1..]);
      assert s[..1] + s[1..] == s;
    }
  }

  /** Every byte is either kept or counted as stripped, and nothing is stripped
      without a sequence being counted. */
  lemma {:induction false} StrippedBytesAccounted(s: seq<byte>)
    ensures |FilterScan(s).kept| + FilterScan(s).bytes == |s|
    ensures FilterScan(s).sequences == 0 <==> FilterScan(s).kept == s
    ensures 2 * FilterScan(s).sequences <= FilterScan(s).bytes
    decreases |s|
  {
    if s != [] {
      StrippedBytesAccounted(s[Advance(s)..]);
      if FilterScan(s).sequences == 0 {
        assert s[..1] + s[1..] == s;
      }
    }
  }

  // ----- exactly which control sequences are deleted ---------------------------------

  lemma {:induction false} BodyEndIs(s: seq<byte>, from: nat, r: nat)
    requires from <= r < |s| && r <= MAX_SEQUENCE_LEN && !IsBody(s[r])
    requires forall i :: from <= i < r ==> IsBody(s[i])
    ensures BodyEnd(s, from) == r
    decreases r - from
  {
    if from < r { BodyEndIs(s, from + 1, r); }
  }

  /** A complete control sequence within the bound is deleted exactly when it is a
      reply; every other one, the keys and mouse reports among them, is kept byte
      for byte whatever follows it. */
  lemma CsiIsFiltered(body: seq<byte>, final: byte, t: seq<byte>)
    requires BodyRun(body) && |body| + 2 <= MAX_SEQUENCE_LEN && IsFinal(final)
    ensures var s := [ESC, LEFT_BRACKET] + body + [final];
      FilterScan(s + t).kept == if IsCsiReply(body, final) then FilterScan(t).kept else s + FilterScan(t).kept
  {
    hide FilterScan, Classify;
    var tail := [LEFT_BRACKET] + body + [final];
    var s := [ESC, LEFT_BRACKET] + body + [final];
    CsiClassified(body, final, t);
    if IsCsiReply(body, final) {
      RemoveReply(s, t);
    } else {
      PlainPrefixIsKept(tail, t);
      assert s == [ESC] + tail;
      assert s + t == [ESC] + (tail + t);
      KeepOne(ESC, tail + t);
      assert [ESC] + (tail + FilterScan(t).kept) == s + FilterScan(t).kept;
    }
  }

  /** The same by the bytes alone: device attributes and status answers go whatever their
      body, a `u` goes when it is led by `?`, a `{` when it is marked by `*`, and nothing
      else does: not the cursor report, an arrow, a `~` key, a key report or a mouse
      report. */
  lemma KeysAreKept(body: seq<byte>, final: byte, t: seq<byte>)
    requires BodyRun(body) && |body| + 2 <= MAX_SEQUENCE_LEN && IsFinal(final)
    ensures var s := [ESC, LEFT_BRACKET] + body + [final];
      var out, rest := FilterScan(s + t).kept, FilterScan(t).kept;
      && (final == LOWER_C || final == LOWER_N ==> out == rest)
      && (final == LOWER_U ==> out == if body != [] && body[0] == QUESTION then rest else s + rest)
      && (final == LEFT_BRACE ==> out == if exists i :: 0 <= i < |body| && body[i] == STAR then rest else s + rest)
      && (final !in [LOWER_C, LOWER_N, LOWER_U, LEFT_BRACE] ==> out == s + rest)
  {
    CsiIsFiltered(body, final, t);
    hide FilterScan, BodyRun;
  }

  lemma CsiUndecided(body: seq<byte>, u: seq<byte>)
    requires BodyRun(body)
    requires u == [] || (!IsBody(u[0]) && !IsFinal(u[0])) || |body| + 2 > MAX_SEQUENCE_LEN
    ensures Classify([ESC, LEFT_BRACKET] + body + u).None?
  {
    var s := [ESC, LEFT_BRACKET] + body + u;
    forall i | 2 <= i < |body| + 2 ensures IsBody(s[i]) { assert s[i] == body[i - 2]; }
    if |body| + 2 <= MAX_SEQUENCE_LEN {
      if u != [] {
        assert s[|body| + 2] == u[0];
        BodyEndIs(s, 2, |body| + 2);
      } else {
        BodyToTheEnd(s, 2);
      }
    } else {
      BodyOverlong(s, 2);
    }
  }

  lemma {:induction false} BodyToTheEnd(s: seq<byte>, from: nat)
    requires from <= |s| <= MAX_SEQUENCE_LEN && forall i :: from <= i < |s| ==> IsBody(s[i])
    ensures BodyEnd(s, from) == |s|
    decreases |s| - from
  {
    if from < |s| { BodyToTheEnd(s, from + 1); }
  }

  lemma {:induction false} BodyOverlong(s: seq<byte>, from: nat)
    requires from <= MAX_SEQUENCE_LEN + 1 <= |s| && forall i :: from <= i < MAX_SEQUENCE_LEN + 1 ==> IsBody(s[i])
    ensures BodyEnd(s, from) == MAX_SEQUENCE_LEN + 1
    decreases MAX_SEQUENCE_LEN + 1 - from
  {
    if from <= MAX_SEQUENCE_LEN { BodyOverlong(s, from + 1); }
  }

  /** A control sequence cut off by the end of the input or by a byte that has no place in
      it, or longer than the bound, is kept whatever it began as. */
  lemma BrokenIsKept(body: seq<byte>, u: seq<byte>)
    requires BodyRun(body)
    requires u == [] || (!IsBody(u[0]) && !IsFinal(u[0])) || |body| + 2 > MAX_SEQUENCE_LEN
    ensures FilterScan([ESC, LEFT_BRACKET] + body + u).kept == [ESC, LEFT_BRACKET] + body + FilterScan(u).kept
  {
    hide *;
    CsiUndecided(body, u);
    NoEscapeInBody(body);
    assert [ESC, LEFT_BRACKET] + body == [ESC] + ([LEFT_BRACKET] + body);
    EscapeThenPlain([LEFT_BRACKET] + body, u);
  }

  lemma NoEscapeInBody(body: seq<byte>)
    requires BodyRun(body)
    ensures forall i :: 0 <= i < |[LEFT_BRACKET] + body| ==> ([LEFT_BRACKET] + body)[i] != ESC
  {
    assert forall i :: 0 < i < |[LEFT_BRACKET] + body| ==> ([LEFT_BRACKET] + body)[i] == body[i - 1];
  }

  lemma EscapeThenPlain(middle: seq<byte>, u: seq<byte>)
    requires Classify([ESC] + middle + u).None? && forall i :: 0 <= i < |middle| ==> middle[i] != ESC
    ensures FilterScan([ESC] + middle + u).kept == [ESC] + middle + FilterScan(u).kept
  {
    hide FilterScan, Classify;
    assert [ESC] + middle + u == [ESC] + (middle + u);
    KeepOne(ESC, middle + u);
    PlainPrefixIsKept(middle, u);
  }

  predicate IsStringReply(kind: byte, body: seq<byte>) {
    (kind == RIGHT_BRACKET && IsColourReply(body)) || (kind == UPPER_P && IsChecksumReply(body))
  }

  /** A complete control string within the bound, of any kind and with either
      terminator, is deleted exactly when it is a reply, and kept byte for byte
      otherwise. */
  lemma StringIsFiltered(kind: byte, body: seq<byte>, terminator: seq<byte>, t: seq<byte>)
    requires kind != LEFT_BRACKET && kind != ESC
    requires terminator == [BEL] || terminator == [ESC, BACKSLASH]
    requires |body| + 2 <= MAX_SEQUENCE_LEN && BEL !in body && ESC !in body
    ensures var s := [ESC, kind] + body + terminator;
      FilterScan(s + t).kept == if IsStringReply(kind, body) then FilterScan(t).kept else s + FilterScan(t).kept
  {
    hide FilterScan, Classify;
    var s := [ESC, kind] + body + terminator;
    StringClassified(kind, body, terminator, t);
    if IsStringReply(kind, body) {
      RemoveReply(s, t);
    } else {
      var middle := [kind] + body;
      assert s + t == [ESC] + (middle + (terminator + t));
      KeepOne(ESC, middle + (terminator + t));
      PlainPrefixIsKept(middle, terminator + t);
      TerminatorIsKept(terminator, t);
      assert [ESC] + (middle + (terminator + FilterScan(t).kept)) == s + FilterScan(t).kept;
    }
  }

  lemma {:induction false} DigitsThen(s: seq<byte>, k: nat)
    requires k < |s| && AllDigits(s[..k]) && !IsDigit(s[k])
    ensures DigitRun(s) == k
    decreases k
  {
    if k > 0 {
      assert s[0] == s[..k][0];
      assert s[1..][..k - 1] == s[..k][1..];
      DigitsThen(s[1..], k - 1);
    }
  }

  /** The two ways a colour report with code `code` can begin. */
  predicate ReportsColour(body: seq<byte>, code: string)
    requires forall i :: 0 <= i < |code| ==> code[i] as int < 128
  {
    StartsWith(body, B(code + ";rgb:")) || StartsWith(body, B(code + ";rgba:"))
  }

  lemma ColourPrefix(body: seq<byte>, code: seq<byte>, rest: seq<byte>)
    requires |code| == 2 && AllDigits(code) && rest != [] && !IsDigit(rest[0])
    ensures StartsWith(body, code + rest) <==>
      DigitRun(body) == 2 && body[..2] == code && StartsWith(body[2..], rest)
  {
    if StartsWith(body, code + rest) {
      assert body[..|code + rest|] == code + rest;
      assert body[..2] == code;
      assert body[2] == (code + rest)[2] == rest[0];
      DigitsThen(body, 2);
      assert body[2..][..|rest|] == (code + rest)[2..] == rest;
    }
    if DigitRun(body) == 2 && body[..2] == code && StartsWith(body[2..], rest) {
      assert body[..2 + |rest|] == body[..2] + body[2..][..|rest|];
    }
  }

  lemma CodePrefix(body: seq<byte>, code: string)
    requires code in ["10", "11", "12"]
    ensures ReportsColour(body, code) <==>
      DigitRun(body) == 2 && body[..2] == B(code) && (StartsWith(body[2..], B(";rgb:")) || StartsWith(body[2..], B(";rgba:")))
  {
    hide StartsWith, DigitRun;
    assert B(code + ";rgb:") == B(code) + B(";rgb:");
    assert B(code + ";rgba:") == B(code) + B(";rgba:");
    ColourPrefix(body, B(code), B(";rgb:"));
    ColourPrefix(body, B(code), B(";rgba:"));
  }

  lemma ColourRepliesAre(body: seq<byte>)
    ensures IsColourReply(body) <==> exists code :: code in ["10", "11", "12"] && ReportsColour(body, code)
  {
    CodePrefix(body, "10");
    CodePrefix(body, "11");
    CodePrefix(body, "12");
    hide StartsWith, ReportsColour;
    if IsColourReply(body) {
      assert DigitRun(body) == 2;
      var code := if body[..2] == B("10") then "10" else if body[..2] == B("11") then "11" else "12";
      assert code in ["10", "11", "12"] && ReportsColour(body, code);
    }
  }

  lemma ChecksumRepliesAre(body: seq<byte>)
    ensures IsChecksumReply(body) <==> exists k :: 0 <= k <= |body| && AllDigits(body[..k]) && StartsWith(body[k..], B("!~"))
  {
    if IsChecksumReply(body) {
      assert AllDigits(body[..DigitRun(body)]);
    }
    forall k | 0 <= k <= |body| && AllDigits(body[..k]) && StartsWith(body[k..], B("!~")) ensures IsChecksumReply(body) {
      assert body[k] == body[k..][..2][0] == B("!~")[0];
      DigitsThen(body, k);
    }
  }

  /** The same by the bytes alone: a colour report of codes 10, 11 and 12, or a checksum
      report after any digits; palette reports and every other string are kept. */
  lemma OtherStringsAreKept(kind: byte, body: seq<byte>, terminator: seq<byte>, t: seq<byte>)
    requires kind != LEFT_BRACKET && kind != ESC
    requires terminator == [BEL] || terminator == [ESC, BACKSLASH]
    requires |body| + 2 <= MAX_SEQUENCE_LEN && BEL !in body && ESC !in body
    ensures var s := [ESC, kind] + body + terminator;
      var out, rest := FilterScan(s + t).kept, FilterScan(t).kept;
      && (kind == RIGHT_BRACKET ==>
            out == if exists code :: code in ["10", "11", "12"] && ReportsColour(body, code) then rest else s + rest)
      && (kind == UPPER_P ==>
            out == if exists k :: 0 <= k <= |body| && AllDigits(body[..k]) && StartsWith(body[k..], B("!~")) then rest
                   else s + rest)
      && (kind != RIGHT_BRACKET && kind != UPPER_P ==> out == s + rest)
  {
    StringIsFiltered(kind, body, terminator, t);
    ColourRepliesAre(body);
    ChecksumRepliesAre(body);
    hide FilterScan, IsColourReply, IsChecksumReply, ReportsColour, StartsWith;
  }

  lemma StringClassified(kind: byte, body: seq<byte>, terminator: seq<byte>, t: seq<byte>)
    requires kind != LEFT_BRACKET
    requires terminator == [BEL] || terminator == [ESC, BACKSLASH]
    requires |body| + 2 <= MAX_SEQUENCE_LEN && BEL !in body && ESC !in body
    ensures var s := [ESC, kind] + body + terminator;
      Classify(s + t) == if IsStringReply(kind, body) then Some(|s|) else None
  {
    var s := [ESC, kind] + body + terminator;
    var all := s + t;
    var e := |body| + 2;
    assert all[e] == terminator[0];
    assert all[e] == ESC ==> all[e + 1] == terminator[1];
    forall i | 2 <= i < e ensures !IsTerminator(all, i) {
      assert all[i] == body[i - 2];
    }
    FindIs(all, 2, e);
    assert all[2..e] == body;
  }

  lemma TerminatorIsKept(terminator: seq<byte>, t: seq<byte>)
    requires terminator == [BEL] || terminator == [ESC, BACKSLASH]
    ensures FilterScan(terminator + t).kept == terminator + FilterScan(t).kept
  {
    if terminator == [BEL] {
      KeepOne(BEL, t);
    } else {
      assert terminator + t == [ESC] + ([BACKSLASH] + t);
      KeepOne(ESC, [BACKSLASH] + t);
      KeepOne(BACKSLASH, t);
      assert [ESC] + ([BACKSLASH] + FilterScan(t).kept) == terminator + FilterScan(t).kept;
    }
  }

  lemma RemoveReply(s: seq<byte>, t: seq<byte>)
    requires s != [] && s[0] == ESC && Classify(s + t) == Some(|s|)
    ensures FilterScan(s + t).kept == FilterScan(t).kept
  {
    hide Classify;
    assert (s + t)[|s|..] == t;
    assert FilterScan(s + t) == Then(First(s + t), FilterScan(t));
    assert [] + FilterScan(t).kept == FilterScan(t).kept;
  }

  lemma CsiClassified(body: seq<byte>, final: byte, t: seq<byte>)
    requires BodyRun(body) && |body| + 2 <= MAX_SEQUENCE_LEN && IsFinal(final)
    ensures var s := [ESC, LEFT_BRACKET] + body + [final];
      Classify(s + t) == if IsCsiReply(body, final) then Some(|s|) else None
  {
    var s := [ESC, LEFT_BRACKET] + body + [final];
    var all := s + t;
    forall i | 2 <= i < |body| + 2 ensures IsBody(all[i]) {
      assert all[i] == body[i - 2];
    }
    assert all[|body| + 2] == final;
    BodyEndIs(all, 2, |body| + 2);
    assert all[2..|body| + 2] == body;
  }

  lemma KeepOne(b: byte, t: seq<byte>)
    requires b == ESC ==> Classify([b] + t).None?
    ensures FilterScan([b] + t).kept == [b] + FilterScan(t).kept
  {
    hide Classify;
    var s := [b] + t;
    assert s[..1] == [b] && s[1..] == t;
    assert FilterScan(s) == Then(Filtered(s[..1], 0, 0), FilterScan(s[1..]));
  }

  lemma {:induction false} PlainPrefixIsKept(s: seq<byte>, t: seq<byte>)
    requires forall i :: 0 <= i < |s| ==> s[i] != ESC
    ensures FilterScan(s + t).kept == s + FilterScan(t).kept
    decreases |s|
  {
    hide FilterScan, Classify;
    if s == [] {
      assert s + t == t;
      assert s + FilterScan(t).kept == FilterScan(t).kept;
    } else {
      PlainPrefixIsKept(s[1..], t);
      KeepOne(s[0], s[1..] + t);
      assert s + t == [s[0]] + (s[1..] + t);
      assert s + FilterScan(t).kept == [s[0]] + (s[1..] + FilterScan(t).kept);
    }
  }

  // ----- the object --------------------------------------------------------------

  /** `goal` is what was done followed by what the rest yields. */
  ghost predicate Left(goal: Filtered, done: Filtered, rest: seq<byte>) {
    goal == Then(done, FilterScan(rest))
  }

  lemma LeftAtStart(s: seq<byte>)
    ensures Left(FilterScan(s), Filtered([], 0, 0), s)
  {
    hide FilterScan;
    assert [] + FilterScan(s).kept == FilterScan(s).kept;
  }

  lemma LeftAtEnd(goal: Filtered, done: Filtered)
    ensures Left(goal, done, []) ==> goal == done
  {
    assert done.kept + [] == done.kept;
  }

  /** One move of the loop: what it collects, and what is left after it. */
  lemma FilterStep(goal: Filtered, done: Filtered, out: Option<seq<byte>>, chunk: seq<byte>, c: nat, i: nat)
    returns (n: nat, next: Filtered)
    requires c <= i < |chunk| && Left(goal, done, chunk[i..]) && done.kept == Collected(out, chunk, c, i)
    ensures i + n <= |chunk| && Left(goal, next, chunk[i + n..])
    ensures chunk[i] == ESC && Classify(chunk[i..]).Some? ==>
      && n == Classify(chunk[i..]).value
      && next == Filtered(Collected(Some(done.kept), chunk, i + n, i + n), done.sequences + 1, done.bytes + n)
    ensures !(chunk[i] == ESC && Classify(chunk[i..]).Some?) ==>
      n == 1 && next == Filtered(Collected(out, chunk, c, i + n), done.sequences, done.bytes)
  {
    var s := chunk[i..];
    n, next := Advance(s), Then(done, First(s));
    ThenAssociates(done, First(s), FilterScan(s[n..]));
    CollectMore(out, chunk, c, i, n);
  }

  class TermFilter {
    var strippedSequences: nat
    var strippedBytes: nat

    constructor ()
      ensures strippedSequences == 0 && strippedBytes == 0
    {
      strippedSequences, strippedBytes := 0, 0;
    }

    /** One input chunk in, what is left of it out. */
    method Filter(chunk: seq<byte>) returns (kept: seq<byte>)
      modifies this
      ensures kept == FilterScan(chunk).kept
      ensures strippedSequences == old(strippedSequences) + FilterScan(chunk).sequences
      ensures strippedBytes == old(strippedBytes) + FilterScan(chunk).bytes
    {
      if ESC !in chunk {
        PlainInputIsKept(chunk);
        return chunk;
      }
      var out := FilterChunk(chunk);
      kept := if out.Some? then out.value else chunk;
    }

    /** The scanning loop: `None` when nothing was removed. */
    method FilterChunk(chunk: seq<byte>) returns (out: Option<seq<byte>>)
      modifies this
      ensures (if out.Some? then out.value else chunk) == FilterScan(chunk).kept
      ensures strippedSequences == old(strippedSequences) + FilterScan(chunk).sequences
      ensures strippedBytes == old(strippedBytes) + FilterScan(chunk).bytes
    {
      hide Classify, FilterScan, Left, Collected, First, Advance, Then;
      ghost var goal := FilterScan(chunk);
      ghost var done := Filtered([], 0, 0);
      LeftAtStart(chunk);
      CollectEnds(None, chunk, 0);
      out := None;
      var i: nat, copiedUpto: nat := 0, 0;
      while i < |chunk|
        invariant copiedUpto <= i <= |chunk|
        invariant out.None? ==> copiedUpto == 0
        invariant done.kept == Collected(out, chunk, copiedUpto, i)
        invariant strippedSequences == old(strippedSequences) + done.sequences
        invariant strippedBytes == old(strippedBytes) + done.bytes
        invariant Left(goal, done, chunk[i..])
        decreases |chunk| - i
      {
        ghost var n;
        n, done := FilterStep(goal, done, out, chunk, copiedUpto, i);
        if chunk[i] != ESC {
          i := i + 1;
          continue;
        }
        var reply := ClassifySlice(chunk[i..]);
        if reply.Some? {
          out := Some(Collected(out, chunk, copiedUpto, i));
          strippedSequences := strippedSequences + 1;
          strippedBytes := strippedBytes + reply.value;
          i := i + reply.value;
          copiedUpto := i;
        } else {
          i := i + 1;
        }
      }
      LeftAtEnd(goal, done);
      CollectEnds(out, chunk, copiedUpto);
      if out.Some? {
        out := Some(out.value + chunk[copiedUpto..]);
      }
    }
  }

  method ClassifySlice(s: seq<byte>) returns (r: Option<nat>)
    requires |s| >= 1 && s[0] == ESC
    ensures r == Classify(s)
  {
    if |s| < 2 {
      return None;
    }
    if s[1] == LEFT_BRACKET {
      r := ClassifyCsi(s);
    } else if s[1] == RIGHT_BRACKET {
      r := ClassifyOsc(s);
    } else if s[1] == UPPER_P {
      r := ClassifyDcs(s);
    } else {
      r := None;
    }
  }

  method ClassifyCsi(s: seq<byte>) returns (r: Option<nat>)
    requires |s| >= 2
    ensures r == CsiReply(s)
  {
    var i := 2;
    while i < |s| && i <= MAX_SEQUENCE_LEN
      invariant 2 <= i <= |s|
      invariant BodyEnd(s, i) == BodyEnd(s, 2)
    {
      var b := s[i];
      if IsBody(b) {
        i := i + 1;
      } else if IsFinal(b) {
        if b == LOWER_C || b == LOWER_N || (b == LOWER_U && s[2] == QUESTION) || (b == LEFT_BRACE && STAR in s[2..i]) {
          return Some(i + 1);
        }
        return None;
      } else {
        return None;
      }
    }
    return None;
  }

  method CountDigits(s: seq<byte>) returns (j: nat)
    ensures j == DigitRun(s)
  {
    j := 0;
    while j < |s| && IsDigit(s[j])
      invariant j <= |s|
      invariant DigitRun(s) == j + DigitRun(s[j..])
    {
      assert s[j..][1..] == s[j + 1..];
      j := j + 1;
    }
  }

  lemma ColourReplyNeedsSeparator(payload: seq<byte>)
    requires IsColourReply(payload)
    ensures var j := DigitRun(payload); 0 < j < |payload| && payload[j] == SEMICOLON
  {
    var j := DigitRun(payload);
    if StartsWith(payload[j..], B(";rgb:")) {
      assert payload[j..][..5][0] == B(";rgb:")[0];
    } else {
      assert payload[j..][..6][0] == B(";rgba:")[0];
    }
  }

  method ClassifyOsc(s: seq<byte>) returns (r: Option<nat>)
    requires |s| >= 2 && s[1] == RIGHT_BRACKET
    ensures r == StringReply(s)
  {
    hide Find, StartsWith, B;
    var f := StringSequence(s, 2);
    if f.Unterminated? {
      return None;
    }
    var payload := s[2..f.bodyEnd];
    var j := CountDigits(payload);
    if j == 0 || j >= |payload| || payload[j] != SEMICOLON {
      if IsColourReply(payload) { ColourReplyNeedsSeparator(payload); }
      return None;
    }
    var ps := payload[..j];
    if (ps == B("10") || ps == B("11") || ps == B("12"))
      && (StartsWith(payload[j..], B(";rgb:")) || StartsWith(payload[j..], B(";rgba:")))
    {
      return Some(f.len);
    }
    return None;
  }

  method ClassifyDcs(s: seq<byte>) returns (r: Option<nat>)
    requires |s| >= 2 && s[1] == UPPER_P
    ensures r == StringReply(s)
  {
    var f := StringSequence(s, 2);
    if f.Unterminated? {
      return None;
    }
    var payload := s[2..f.bodyEnd];
    var j := CountDigits(payload);
    if StartsWith(payload[j..], B("!~")) {
      return Some(f.len);
    }
    return None;
  }
}
