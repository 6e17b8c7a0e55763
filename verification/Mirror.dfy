/** The two directions mirror each other: whatever the proxy answers, the filter
    deletes from a client's echo of it. */
module Mirror {
  import opened Bytes
  import opened ControlStrings
  import opened Kitty
  import CapProxy
  import TermFilter

  /** The filter removes `u` whole when it stands in front of `t`. */
  ghost predicate Eaten(u: seq<byte>, t: seq<byte>) {
    TermFilter.FilterScan(u + t).kept == TermFilter.FilterScan(t).kept
  }

  lemma ClassifiedIsEaten(u: seq<byte>, t: seq<byte>)
    requires |u| >= 2 && u[0] == ESC
    requires TermFilter.Classify(u + t) == Some(|u|)
    ensures Eaten(u, t)
  {
    hide TermFilter.FilterScan, TermFilter.Classify;
    TermFilter.RemoveReply(u, t);
  }

  /** A reply in control-sequence form. */
  lemma CsiEaten(body: seq<byte>, final: byte, t: seq<byte>)
    requires TermFilter.BodyRun(body) && |body| + 2 <= MAX_SEQUENCE_LEN
    requires TermFilter.IsFinal(final) && TermFilter.IsCsiReply(body, final)
    ensures Eaten([ESC, LEFT_BRACKET] + body + [final], t)
  {
    TermFilter.CsiIsFiltered(body, final, t);
  }

  /** `u` written as introducer, body and final byte. */
  lemma CsiReplyEaten(u: seq<byte>, t: seq<byte>)
    requires 3 <= |u| <= MAX_SEQUENCE_LEN && u[0] == ESC && u[1] == LEFT_BRACKET
    requires TermFilter.BodyRun(u[2..|u| - 1])
    requires TermFilter.IsFinal(u[|u| - 1]) && TermFilter.IsCsiReply(u[2..|u| - 1], u[|u| - 1])
    ensures Eaten(u, t)
  {
    CsiEaten(u[2..|u| - 1], u[|u| - 1], t);
    assert u == [ESC, LEFT_BRACKET] + u[2..|u| - 1] + [u[|u| - 1]];
  }

  lemma {:induction false} LeadingDigits(digits: seq<byte>, rest: seq<byte>)
    requires AllDigits(digits) && (rest == [] || !IsDigit(rest[0]))
    ensures TermFilter.DigitRun(digits + rest) == |digits|
    ensures (digits + rest)[..|digits|] == digits && (digits + rest)[|digits|..] == rest
    decreases |digits|
  {
    if digits == [] {
      assert digits + rest == rest;
    } else {
      assert IsDigit((digits + rest)[0]);
      assert (digits + rest)[1..] == digits[1..] + rest;
      LeadingDigits(digits[1..], rest);
    }
  }

  /** A control string whose body the filter recognises, with either terminator. */
  lemma StringEaten(kind: byte, body: seq<byte>, terminator: seq<byte>, t: seq<byte>)
    requires TermFilter.IsStringReply(kind, body)
    requires terminator == [BEL] || terminator == [ESC, BACKSLASH]
    requires |body| + 2 <= MAX_SEQUENCE_LEN && BEL !in body && ESC !in body
    ensures Eaten([ESC, kind] + body + terminator, t)
  {
    var u := [ESC, kind] + body + terminator;
    TermFilter.StringClassified(kind, body, terminator, t);
    ClassifiedIsEaten(u, t);
  }

  // ----- each shape the proxy emits ---------------------------------------------------

  lemma ChecksumEaten(id: u16, t: seq<byte>)
    ensures Eaten(CapProxy.ChecksumReport(id), t)
  {
    hide Eaten, CapProxy.ChecksumReport, B, StartsWith;
    var digits, tail := Decimal(id as nat), B("!~0000");
    DecimalLength(id as nat, 5);
    ChecksumTail();
    LeadingDigits(digits, tail);
    var body := digits + tail;
    forall i | 0 <= i < |body| ensures body[i] >= 0x20 {
      if i < |digits| { assert body[i] == digits[i]; }
    }
    StringEaten(UPPER_P, body, [ESC, BACKSLASH], t);
    ChecksumShape(id);
  }

  lemma ChecksumTail()
    ensures var tail := B("!~0000");
      |tail| == 6 && !IsDigit(tail[0]) && StartsWith(tail, B("!~")) && forall i :: 0 <= i < |tail| ==> tail[i] >= 0x20
  {
    assert B("!~0000")[..2] == B("!~");
  }

  lemma ChecksumShape(id: u16)
    ensures CapProxy.ChecksumReport(id) == [ESC, UPPER_P] + (Decimal(id as nat) + B("!~0000")) + [ESC, BACKSLASH]
  {
    assert B("\U{001b}P") == [ESC, UPPER_P];
    assert B("!~0000\U{001b}\\") == B("!~0000") + [ESC, BACKSLASH];
  }

  lemma KittyFlagsEaten(m: Model, t: seq<byte>)
    ensures Eaten(CapProxy.Render(m, CapProxy.KittyFlags), t)
  {
    hide Eaten, CapProxy.Render;
    var digits := Decimal(m.Active().flags as nat);
    DecimalLength(m.Active().flags as nat, 5);
    var body := [QUESTION] + digits;
    assert TermFilter.BodyRun(body);
    CsiEaten(body, LOWER_U, t);
    KittyFlagsShape(m);
  }

  lemma KittyFlagsShape(m: Model)
    ensures CapProxy.Render(m, CapProxy.KittyFlags)
            == [ESC, LEFT_BRACKET] + ([QUESTION] + Decimal(m.Active().flags as nat)) + [LOWER_U]
  {
    assert B("\U{001b}[?") == [ESC, LEFT_BRACKET, QUESTION];
  }

  lemma TwoDigits(n: nat)
    requires 10 <= n <= 12
    ensures Decimal(n) == if n == 10 then B("10") else if n == 11 then B("11") else B("12")
  {
    assert Decimal(n / 10) == [DIGIT_0 + 1];
  }

  lemma ColourReportEaten(slot: nat, terminator: seq<byte>, t: seq<byte>)
    requires terminator == [BEL] || terminator == [ESC, BACKSLASH]
    ensures Eaten(CapProxy.ColourReport(slot, terminator), t)
  {
    if slot > 2 {
      assert [] + t == t;
      return;
    }
    hide Eaten, CapProxy.ColourReport;
    var body := ColourBody(slot);
    ColourBodyIsReply(slot);
    StringEaten(RIGHT_BRACKET, body, terminator, t);
    ColourShape(slot, terminator);
  }

  function ColourBody(slot: nat): seq<byte> {
    Decimal(10 + slot) + ([SEMICOLON] + (if slot == 1 then CapProxy.BACKGROUND else CapProxy.FOREGROUND))
  }

  lemma ColourTail(slot: nat)
    ensures var tail := [SEMICOLON] + (if slot == 1 then CapProxy.BACKGROUND else CapProxy.FOREGROUND);
      |tail| == 19 && StartsWith(tail, B(";rgb:")) && forall i :: 0 <= i < |tail| ==> tail[i] >= 0x20
  {
    var tail := [SEMICOLON] + (if slot == 1 then CapProxy.BACKGROUND else CapProxy.FOREGROUND);
    assert tail[..5] == B(";rgb:");
  }

  lemma ColourBodyIsReply(slot: nat)
    requires slot <= 2
    ensures TermFilter.IsColourReply(ColourBody(slot))
    ensures |ColourBody(slot)| == 21 && BEL !in ColourBody(slot) && ESC !in ColourBody(slot)
  {
    hide StartsWith, B;
    var digits := Decimal(10 + slot);
    TwoDigits(10 + slot);
    var tail := [SEMICOLON] + (if slot == 1 then CapProxy.BACKGROUND else CapProxy.FOREGROUND);
    ColourTail(slot);
    LeadingDigits(digits, tail);
    forall i | 0 <= i < |digits + tail| ensures (digits + tail)[i] >= 0x20 {
      if i < |digits| { assert (digits + tail)[i] == digits[i]; }
    }
  }

  lemma ColourShape(slot: nat, terminator: seq<byte>)
    requires slot <= 2
    ensures CapProxy.ColourReport(slot, terminator) == [ESC, RIGHT_BRACKET] + ColourBody(slot) + terminator
  {
    assert B("\U{001b}]") == [ESC, RIGHT_BRACKET];
  }

  lemma {:induction false} FaceRepliesEaten(slot: nat, groups: seq<seq<byte>>, terminator: seq<byte>, t: seq<byte>)
    requires terminator == [BEL] || terminator == [ESC, BACKSLASH]
    ensures var r := CapProxy.FaceReplies(slot, groups, terminator);
      r.Some? ==> Eaten(r.value, t)
    decreases |groups|
  {
    hide TermFilter.FilterScan;
    var r := CapProxy.FaceReplies(slot, groups, terminator);
    if r.Some? {
      if groups == [] {
        assert [] + t == t;
      } else {
        FaceRepliesEaten(slot + 1, groups[1..], terminator, t);
        if CapProxy.IsQueryGroup(groups[0]) {
          var report := CapProxy.ColourReport(slot, terminator);
          var rest := CapProxy.FaceReplies(slot + 1, groups[1..], terminator).value;
          ColourReportEaten(slot, terminator, rest + t);
          assert r.value == report + rest;
          assert report + (rest + t) == r.value + t;
        }
      }
    }
  }

  /** A literal reply, read character by character. */
  lemma LiteralEaten(str: string, t: seq<byte>)
    requires 3 <= |str| <= MAX_SEQUENCE_LEN && str[0] == '\U{001b}' && str[1] == '['
    requires forall i :: 2 <= i < |str| - 1 ==> ' ' <= str[i] <= '?'
    requires
      || str[|str| - 1] == 'c'
      || str[|str| - 1] == 'n'
      || (str[|str| - 1] == '{' && exists i :: 2 <= i < |str| - 1 && str[i] == '*')
    ensures (forall i :: 0 <= i < |str| ==> str[i] < '\U{0100}') && Eaten(B(str), t)
  {
    hide Eaten;
    forall i | 0 <= i < |str| ensures str[i] < '\U{0100}' {
      assert i == 0 || i == 1 || i == |str| - 1 || ' ' <= str[i] <= '?';
    }
    var u := B(str);
    var body := u[2..|u| - 1];
    forall i | 0 <= i < |body| ensures TermFilter.IsBody(body[i]) {
      assert body[i] == u[i + 2] && u[i + 2] as int == str[i + 2] as int;
    }
    if str[|str| - 1] == '{' {
      var i :| 2 <= i < |str| - 1 && str[i] == '*';
      assert body[i - 2] == u[i] == STAR;
    }
    CsiReplyEaten(u, t);
  }

  predicate IsFixedReply(u: seq<byte>) {
    || u == B("\U{001b}[?65;4;1;2;6;21;22;17;28c")
    || u == B("\U{001b}[>65;20;1c")
    || u == B("\U{001b}[0n")
    || u == B("\U{001b}[?10n")
    || u == B("\U{001b}[?21n")
    || u == B("\U{001b}[?27;1;0;0n")
    || u == B("\U{001b}[?53n")
    || u == B("\U{001b}[?57;1n")
    || u == B("\U{001b}[0*{")
    || u == B("\U{001b}[?70n")
    || u == B("\U{001b}[?83n")
  }

  lemma FixedCsiEaten(u: seq<byte>, t: seq<byte>)
    requires IsFixedReply(u)
    ensures Eaten(u, t)
  {
    hide Eaten;
    LiteralEaten("\U{001b}[?65;4;1;2;6;21;22;17;28c", t);
    LiteralEaten("\U{001b}[>65;20;1c", t);
    LiteralEaten("\U{001b}[0n", t);
    LiteralEaten("\U{001b}[?10n", t);
    LiteralEaten("\U{001b}[?21n", t);
    LiteralEaten("\U{001b}[?27;1;0;0n", t);
    LiteralEaten("\U{001b}[?53n", t);
    LiteralEaten("\U{001b}[?57;1n", t);
    assert "\U{001b}[0*{"[3] == '*';
    LiteralEaten("\U{001b}[0*{", t);
    LiteralEaten("\U{001b}[?70n", t);
    LiteralEaten("\U{001b}[?83n", t);
  }

  lemma StatusEaten(p: seq<u16>, t: seq<byte>)
    requires |p| >= 1
    ensures CapProxy.PrivateStatus(p).Some? ==> Eaten(CapProxy.PrivateStatus(p).value, t)
  {
    hide TermFilter.FilterScan;
    if p[0] == 63 {
      ChecksumEaten(if |p| > 1 then p[1] else 0, t);
    } else if CapProxy.PrivateStatus(p).Some? {
      FixedCsiEaten(CapProxy.PrivateStatus(p).value, t);
    }
  }

  lemma DispatchEaten(m: Model, marker: Option<byte>, params: seq<byte>, final: byte, len: nat, t: seq<byte>)
    requires CapProxy.ParamRun(params)
    ensures var v := CapProxy.Dispatch(marker, params, final, len);
      v.Query? ==> Eaten(CapProxy.Render(m, v.reply), t)
  {
    hide Eaten;
    var v := CapProxy.Dispatch(marker, params, final, len);
    if v.Query? {
      var p := CapProxy.ParamList(params).value;
      if v.reply.KittyFlags? {
        KittyFlagsEaten(m, t);
      } else if marker == Some(QUESTION) && final == LOWER_N {
        StatusEaten(p, t);
      } else {
        FixedCsiEaten(v.reply.bytes, t);
      }
    }
  }

  /** Every single answer is deleted, in every kitty state. */
  lemma AnswerEaten(m: Model, s: seq<byte>, t: seq<byte>)
    requires |s| >= 1 && s[0] == ESC && CapProxy.Meaning(s).Query?
    ensures Eaten(CapProxy.Render(m, CapProxy.Meaning(s).reply), t)
  {
    hide Eaten, CapProxy.Dispatch;
    if s[1] == LEFT_BRACKET {
      var start := CapProxy.ParamsStart(s);
      var e := CapProxy.ParamsEnd(s, start);
      DispatchEaten(m, CapProxy.Marker(s), s[start..e], s[e], e + 1, t);
    } else {
      var f := Find(s, 2);
      var payload := s[2..f.bodyEnd];
      var terminator := if s[f.len - 1] == BEL then [BEL] else [ESC, BACKSLASH];
      PayloadEaten(payload, terminator, t);
    }
  }

  lemma PayloadEaten(payload: seq<byte>, terminator: seq<byte>, t: seq<byte>)
    requires terminator == [BEL] || terminator == [ESC, BACKSLASH]
    ensures CapProxy.PayloadReplies(payload, terminator).Some? ==>
      Eaten(CapProxy.PayloadReplies(payload, terminator).value, t)
  {
    hide Eaten;
    var sep := FirstIn(payload, {SEMICOLON}, 0);
    if CapProxy.PayloadReplies(payload, terminator).Some? {
      var ps := CapProxy.ParseDecimal(payload[..sep]).value;
      FaceRepliesEaten(ps - 10, CapProxy.NonEmpty(Split(payload[sep + 1..], {SEMICOLON})), terminator, t);
    }
  }

  lemma {:induction false} ResponsesEaten(m: Model, s: seq<byte>, t: seq<byte>)
    ensures Eaten(CapProxy.Scan(m, s).responses, t)
    decreases |s|
  {
    hide TermFilter.FilterScan, CapProxy.Meaning;
    if s == [] {
      assert [] + t == t;
    } else {
      var first, n := CapProxy.First(m, s), CapProxy.Advance(s);
      CapProxy.ScanUnfolds(m, s);
      var rest := CapProxy.Scan(first.model, s[n..]).responses;
      ResponsesEaten(first.model, s[n..], t);
      if s[0] == ESC && CapProxy.Meaning(s).Query? {
        AnswerEaten(m, s, rest + t);
        assert first.responses + (rest + t) == CapProxy.Scan(m, s).responses + t;
      } else {
        assert CapProxy.Scan(m, s).responses == rest;
      }
    }
  }

  /** In every kitty state and for every chunk, the filter deletes the whole
      concatenated response: a client's echo of it never reaches the child. */
  lemma FilterMirrorsProxy(m: Model, chunk: seq<byte>)
    ensures TermFilter.FilterScan(CapProxy.Scan(m, chunk).responses).kept == []
  {
    ResponsesEaten(m, chunk, []);
    var r := CapProxy.Scan(m, chunk).responses;
    assert r + [] == r;
  }
}
