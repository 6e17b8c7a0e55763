/** The queries the proxy answers, as a table, and its agreement with the scan: what
    each complete control sequence yields, whatever follows it. */
module Answers {
  import opened Bytes
  import opened ControlStrings
  import opened Kitty
  import opened CapProxy
  import Chunks

  type Ascii = s: string | forall i :: 0 <= i < |s| ==> s[i] < '\U{0100}' witness ""

  /** A query by its private marker, final byte and first parameter, and its answer. */
  datatype Row = Row(marker: string, final: char, first: nat, reply: Ascii)

  /** Device attributes, the ready status, and the private statuses. */
  const TABLE: seq<Row> := [
    Row("", 'c', 0, "\U{001b}[?65;4;1;2;6;21;22;17;28c"),
    Row(">", 'c', 0, "\U{001b}[>65;20;1c"),
    Row("", 'n', 5, "\U{001b}[0n"),
    Row("?", 'n', 15, "\U{001b}[?10n"),
    Row("?", 'n', 25, "\U{001b}[?21n"),
    Row("?", 'n', 26, "\U{001b}[?27;1;0;0n"),
    Row("?", 'n', 55, "\U{001b}[?53n"),
    Row("?", 'n', 56, "\U{001b}[?57;1n"),
    Row("?", 'n', 62, "\U{001b}[0*{"),
    Row("?", 'n', 75, "\U{001b}[?70n"),
    Row("?", 'n', 85, "\U{001b}[?83n")]

  function Csi(marker: seq<byte>, params: seq<byte>, final: byte): seq<byte> {
    [ESC, LEFT_BRACKET] + marker + params + [final]
  }

  /** A complete control sequence within the scan bound; without a marker a colon
      cannot come first. */
  predicate WellFormed(marker: seq<byte>, params: seq<byte>, final: byte) {
    && |marker| <= 1 && (marker != [] ==> LESS <= marker[0] <= QUESTION)
    && ParamRun(params) && IsFinal(final)
    && |marker| + |params| + 2 <= MAX_SEQUENCE_LEN
    && (marker == [] && params != [] ==> params[0] != COLON)
  }

  /** The j-th parameter as a number; absent ones are zero. */
  function Value(params: seq<byte>, j: nat): nat {
    var groups := Split(params, PARAM_SEPARATORS);
    if j < |groups| && AllDigits(groups[j]) then Min(Dec(groups[j]), U16_MAX) else 0
  }

  predicate Refused(params: seq<byte>) {
    |Split(params, PARAM_SEPARATORS)| > MAX_GROUPS
  }

  predicate Matches(row: Row, marker: seq<byte>, params: seq<byte>, final: byte) {
    && |row.marker| == |marker| && (marker != [] ==> row.marker[0] as int == marker[0] as int)
    && row.final as int == final as int && Value(params, 0) == row.first
  }

  predicate IsChecksumQuery(marker: seq<byte>, params: seq<byte>, final: byte) {
    marker == [QUESTION] && final == LOWER_N && Value(params, 0) == 63
  }

  predicate IsKittyQuery(marker: seq<byte>, final: byte) {
    marker == [QUESTION] && final == LOWER_U
  }

  predicate IsStateChange(marker: seq<byte>, final: byte) {
    || (final == LOWER_U && marker != [] && marker != [QUESTION])
    || (marker == [QUESTION] && (final == LOWER_H || final == LOWER_L))
  }

  /** A list that names one of the screen-switching modes. */
  predicate NamesScreenMode(params: seq<byte>) {
    exists j :: 0 <= j < |Split(params, PARAM_SEPARATORS)| && Value(params, j) in {47, 1047, 1049}
  }

  /** What each state-changing sequence does: push, set (mode 1 when none is given) and
      pop on the active screen, and the switch between the two. */
  function StateChange(marker: seq<byte>, params: seq<byte>, final: byte): Effect
    requires IsStateChange(marker, final) && |marker| == 1
  {
    var first := Value(params, 0) as u16;
    if marker == [QUESTION] then
      if NamesScreenMode(params) then SelectScreen(final == LOWER_H) else Nothing
    else if marker == [GREATER] then PushFlags(first)
    else if marker == [LESS] then PopFlags(first)
    else SetFlags(first, if |Split(params, PARAM_SEPARATORS)| > 1 then Value(params, 1) as u16 else 1)
  }

  lemma ModesAreNamed(params: seq<byte>)
    requires ParamRun(params) && !Refused(params)
    ensures ParamList(params).Some?
    ensures SwitchesScreen(ParamList(params).value) <==> NamesScreenMode(params)
    ensures |ParamList(params).value| == |Split(params, PARAM_SEPARATORS)|
  {
    ParamListMeaning(params);
    var p := ParamList(params).value;
    assert forall j :: 0 <= j < |p| ==> p[j] as nat == Value(params, j);
    if SwitchesScreen(p) {
      var j :| 0 <= j < |p| && (p[j] == 47 || p[j] == 1047 || p[j] == 1049);
      assert Value(params, j) in {47, 1047, 1049};
    }
    if NamesScreenMode(params) {
      var j :| 0 <= j < |Split(params, PARAM_SEPARATORS)| && Value(params, j) in {47, 1047, 1049};
      assert p[j] == 47 || p[j] == 1047 || p[j] == 1049;
    }
  }

  lemma CsiMeaning(marker: seq<byte>, params: seq<byte>, final: byte, t: seq<byte>)
    requires WellFormed(marker, params, final)
    ensures var s := Csi(marker, params, final);
      Meaning(s + t) == Dispatch(MarkerOf(marker), params, final, |s|)
  {
    var s := Csi(marker, params, final);
    var all := s + t;
    var start := 2 + |marker|;
    var e := start + |params|;
    assert all[e] == final;
    assert all[start..e] == params;
    assert all[2] == if marker != [] then marker[0] else if params != [] then params[0] else final;
    assert Marker(all) == if marker == [] then None else Some(marker[0]);
    Chunks.ParamsEndIs(all, start, e);
  }

  lemma FirstTwo(params: seq<byte>)
    requires ParamRun(params)
    ensures ParamList(params).None? <==> Refused(params)
    ensures var p := ParamList(params);
      p.Some? ==>
        && p.value[0] as nat == Value(params, 0)
        && (if |p.value| > 1 then p.value[1] else 0) as nat == Value(params, 1)
  {
    ParamListMeaning(params);
  }

  /** What the scan does with an answered query: nothing of it is kept. */
  lemma AnsweredFirst(m: Model, s: seq<byte>, t: seq<byte>, reply: Reply)
    requires s != [] && s[0] == ESC && Meaning(s + t) == Query(|s|, reply)
    ensures Scan(m, s + t) == Answered(Render(m, reply), Scan(m, t))
  {
    assert (s + t)[|s|..] == t;
  }

  lemma PassedOver(m: Model, s: seq<byte>, t: seq<byte>, effect: Effect)
    requires s != [] && s[0] == ESC && Meaning(s + t) == Change(|s|, effect)
    ensures Scan(m, s + t) == Keep(s, Scan(Apply(m, effect), t))
  {
    assert (s + t)[..|s|] == s && (s + t)[|s|..] == t;
  }

  function MarkerOf(marker: seq<byte>): Option<byte> {
    if marker == [] then None else Some(marker[0])
  }

  lemma TableDispatch(k: nat, marker: seq<byte>, params: seq<byte>, final: byte, len: nat)
    requires k < |TABLE| && WellFormed(marker, params, final) && !Refused(params)
    requires Matches(TABLE[k], marker, params, final)
    ensures Dispatch(MarkerOf(marker), params, final, len) == Query(len, Fixed(B(TABLE[k].reply)))
  {
    FirstTwo(params);
    hide Value, Refused, Decimal;
  }

  /** Every row of the table: a matching sequence, however its numbers are written, is
      removed and answered with the row's reply, whatever stands behind it. */
  lemma TableIsAnswered(m: Model, k: nat, marker: seq<byte>, params: seq<byte>, final: byte, t: seq<byte>)
    requires k < |TABLE| && WellFormed(marker, params, final) && !Refused(params)
    requires Matches(TABLE[k], marker, params, final)
    ensures Scan(m, Csi(marker, params, final) + t) == Answered(B(TABLE[k].reply), Scan(m, t))
  {
    CsiMeaning(marker, params, final, t);
    TableDispatch(k, marker, params, final, |Csi(marker, params, final)|);
    hide Dispatch, Meaning, Scan, Refused, WellFormed, Matches;
    AnsweredFirst(m, Csi(marker, params, final), t, Fixed(B(TABLE[k].reply)));
  }

  lemma ChecksumDispatch(marker: seq<byte>, params: seq<byte>, final: byte, len: nat)
    requires WellFormed(marker, params, final) && !Refused(params) && IsChecksumQuery(marker, params, final)
    ensures Value(params, 1) <= U16_MAX
    ensures Dispatch(MarkerOf(marker), params, final, len) == Query(len, Fixed(ChecksumReport(Value(params, 1) as u16)))
  {
    FirstTwo(params);
    hide Value, Refused, Decimal, ChecksumReport;
  }

  lemma ChecksumText(id: u16)
    ensures ChecksumReport(id) == [ESC, UPPER_P] + Decimal(id as nat) + B("!~0000") + [ESC, BACKSLASH]
  {
    hide Decimal;
    assert B("\U{001b}P") == [ESC, UPPER_P];
    assert B("!~0000\U{001b}\\") == B("!~0000") + [ESC, BACKSLASH];
  }

  /** The macro checksum query carries its memory id through, zero when there is none. */
  lemma ChecksumIsAnswered(m: Model, marker: seq<byte>, params: seq<byte>, final: byte, t: seq<byte>)
    requires WellFormed(marker, params, final) && !Refused(params) && IsChecksumQuery(marker, params, final)
    ensures Scan(m, Csi(marker, params, final) + t) ==
      Answered([ESC, UPPER_P] + Decimal(Value(params, 1)) + B("!~0000") + [ESC, BACKSLASH], Scan(m, t))
  {
    CsiMeaning(marker, params, final, t);
    ChecksumDispatch(marker, params, final, |Csi(marker, params, final)|);
    hide Dispatch, Meaning, Scan, Refused, WellFormed, ChecksumReport, Value, Decimal;
    var id := Value(params, 1) as u16;
    AnsweredFirst(m, Csi(marker, params, final), t, Fixed(ChecksumReport(id)));
    ChecksumText(id);
  }

  lemma KittyDispatch(marker: seq<byte>, params: seq<byte>, final: byte, len: nat)
    requires WellFormed(marker, params, final) && !Refused(params) && IsKittyQuery(marker, final)
    ensures Dispatch(MarkerOf(marker), params, final, len) == Query(len, KittyFlags)
  {
    FirstTwo(params);
    hide Value, Refused;
  }

  /** The keyboard query is answered with the flags of the active screen. */
  lemma KittyIsAnswered(m: Model, marker: seq<byte>, params: seq<byte>, final: byte, t: seq<byte>)
    requires WellFormed(marker, params, final) && !Refused(params) && IsKittyQuery(marker, final)
    ensures Scan(m, Csi(marker, params, final) + t) ==
      Answered([ESC, LEFT_BRACKET, QUESTION] + Decimal(m.Active().flags as nat) + [LOWER_U], Scan(m, t))
  {
    CsiMeaning(marker, params, final, t);
    KittyDispatch(marker, params, final, |Csi(marker, params, final)|);
    hide Dispatch, Meaning, Scan, Refused, WellFormed, Decimal;
    AnsweredFirst(m, Csi(marker, params, final), t, KittyFlags);
    assert B("\U{001b}[?") == [ESC, LEFT_BRACKET, QUESTION];
  }

  predicate IsAnswered(marker: seq<byte>, params: seq<byte>, final: byte) {
    && !Refused(params)
    && (IsChecksumQuery(marker, params, final) || IsKittyQuery(marker, final)
        || exists k :: 0 <= k < |TABLE| && Matches(TABLE[k], marker, params, final))
  }

  /** What any other sequence does to the model. */
  function EffectOf(marker: seq<byte>, params: seq<byte>, final: byte): Effect
    requires WellFormed(marker, params, final)
  {
    if Refused(params) || !IsStateChange(marker, final) then Nothing else StateChange(marker, params, final)
  }

  lemma OthersDispatch(marker: seq<byte>, params: seq<byte>, final: byte, len: nat)
    requires WellFormed(marker, params, final) && !IsAnswered(marker, params, final)
    ensures Dispatch(MarkerOf(marker), params, final, len) == Change(len, EffectOf(marker, params, final))
  {
    FirstTwo(params);
    if !Refused(params) {
      NoRowNoQuery(marker, params, final, len);
      ModesAreNamed(params);
      hide Value, NamesScreenMode, SwitchesScreen, IsAnswered, PrivateStatus, Matches;
    }
  }

  /** And nothing else is answered: every other complete control sequence, and every
      one with more than 24 groups, reaches the client byte for byte, moving the
      model exactly when it is a state change. */
  lemma OthersPassThrough(m: Model, marker: seq<byte>, params: seq<byte>, final: byte, t: seq<byte>)
    requires WellFormed(marker, params, final) && !IsAnswered(marker, params, final)
    ensures Scan(m, Csi(marker, params, final) + t) ==
      Keep(Csi(marker, params, final), Scan(Apply(m, EffectOf(marker, params, final)), t))
  {
    CsiMeaning(marker, params, final, t);
    OthersDispatch(marker, params, final, |Csi(marker, params, final)|);
    hide Dispatch, Meaning, Scan, IsAnswered, EffectOf, WellFormed;
    PassedOver(m, Csi(marker, params, final), t, EffectOf(marker, params, final));
  }

  lemma NoRowNoQuery(marker: seq<byte>, params: seq<byte>, final: byte, len: nat)
    requires WellFormed(marker, params, final) && !Refused(params) && !IsAnswered(marker, params, final)
    ensures Dispatch(MarkerOf(marker), params, final, len).Change?
  {
    FirstTwo(params);
    assert !Matches(TABLE[0], marker, params, final) && !Matches(TABLE[1], marker, params, final);
    assert !Matches(TABLE[2], marker, params, final) && !Matches(TABLE[3], marker, params, final);
    assert !Matches(TABLE[4], marker, params, final) && !Matches(TABLE[5], marker, params, final);
    assert !Matches(TABLE[6], marker, params, final) && !Matches(TABLE[7], marker, params, final);
    assert !Matches(TABLE[8], marker, params, final) && !Matches(TABLE[9], marker, params, final);
    assert !Matches(TABLE[10], marker, params, final);
    hide Value, Refused, IsAnswered, WellFormed;
  }

  // ----- colour queries ---------------------------------------------------------------------

  /** The declared dark palette: foreground, background, and the cursor in the
      foreground's colour. */
  const PALETTE: seq<Ascii> := ["c7c7", "1e1e", "c7c7"]

  function Osc(payload: seq<byte>, terminator: seq<byte>): seq<byte> {
    [ESC, RIGHT_BRACKET] + payload + terminator
  }

  /** `rgb:` and one component three times. */
  function Colour(component: Ascii): seq<byte> {
    B("rgb:") + B(component) + [SLASH] + B(component) + [SLASH] + B(component)
  }

  lemma PaletteIsDeclared()
    ensures FOREGROUND == Colour("c7c7") && BACKGROUND == Colour("1e1e") && CURSOR == Colour("c7c7")
  {
  }

  /** The report of a slot; slots past the cursor have none. */
  function Report(slot: nat, terminator: seq<byte>): seq<byte> {
    if slot > 2 then []
    else Osc(Decimal(10 + slot) + [SEMICOLON] + Colour(PALETTE[slot]), terminator)
  }

  lemma ReportIs(slot: nat, terminator: seq<byte>)
    ensures ColourReport(slot, terminator) == Report(slot, terminator)
  {
    PaletteIsDeclared();
    hide Colour, Decimal;
    assert B("\U{001b}]") == [ESC, RIGHT_BRACKET];
  }

  /** Empty groups take no slot; a query group yields its slot's report. */
  function Reports(slot: nat, groups: seq<seq<byte>>, terminator: seq<byte>): seq<byte>
    decreases |groups|
  {
    if groups == [] then []
    else if groups[0] == [] then Reports(slot, groups[1..], terminator)
    else (if IsQueryGroup(groups[0]) then Report(slot, terminator) else []) + Reports(slot + 1, groups[1..], terminator)
  }

  predicate SetsColour(slot: nat, groups: seq<seq<byte>>)
    decreases |groups|
  {
    groups != [] && (
      if groups[0] == [] then SetsColour(slot, groups[1..])
      else IsSet(slot, groups[0]) || SetsColour(slot + 1, groups[1..]))
  }

  lemma {:induction false} RepliesAreReports(slot: nat, groups: seq<seq<byte>>, terminator: seq<byte>)
    ensures FaceReplies(slot, NonEmpty(groups), terminator) ==
      if SetsColour(slot, groups) then None else Some(Reports(slot, groups, terminator))
    decreases |groups|
  {
    hide ColourReport, Report, IsSet, IsQueryGroup;
    if groups != [] {
      if groups[0] == [] {
        RepliesAreReports(slot, groups[1..], terminator);
      } else {
        RepliesAreReports(slot + 1, groups[1..], terminator);
        ReportIs(slot, terminator);
        assert NonEmpty(groups)[0] == groups[0] && NonEmpty(groups)[1..] == NonEmpty(groups[1..]);
        var later := Reports(slot + 1, groups[1..], terminator);
        assert [] + later == later;
      }
    }
  }

  /** Nothing in it could end a control string. */
  predicate Bare(s: seq<byte>) {
    forall i :: 0 <= i < |s| ==> s[i] != BEL && s[i] != ESC
  }

  /** A string for the colour slots: a decimal code from 10 to 12, however padded, and
      its groups. */
  predicate IsColourString(digits: seq<byte>, rest: seq<byte>, terminator: seq<byte>) {
    && AllDigits(digits) && digits != [] && 10 <= Dec(digits) <= 12
    && (terminator == [BEL] || terminator == [ESC, BACKSLASH])
    && Bare(rest) && |digits| + |rest| + 3 <= MAX_SEQUENCE_LEN
  }

  lemma ColourPayload(digits: seq<byte>, rest: seq<byte>, payload: seq<byte>, terminator: seq<byte>)
    requires IsColourString(digits, rest, terminator) && payload == digits + [SEMICOLON] + rest
    ensures |payload| + 2 <= MAX_SEQUENCE_LEN && Bare(payload)
    ensures AllDigits(digits) && Dec(digits) >= 10
    ensures PayloadReplies(payload, terminator)
         == FaceReplies(Dec(digits) - 10, NonEmpty(Split(rest, {SEMICOLON})), terminator)
  {
    FirstAfter(digits, rest, 0);
    hide Dec, FaceReplies, Split;
    assert payload[..|digits|] == digits && payload[|digits| + 1..] == rest;
  }

  lemma {:induction false} FirstAfter(digits: seq<byte>, rest: seq<byte>, from: nat)
    requires AllDigits(digits) && from <= |digits|
    ensures FirstIn(digits + [SEMICOLON] + rest, {SEMICOLON}, from) == |digits|
    decreases |digits| - from
  {
    var payload := digits + [SEMICOLON] + rest;
    if from < |digits| {
      assert payload[from] == digits[from];
      FirstAfter(digits, rest, from + 1);
    } else {
      assert payload[|digits|] == SEMICOLON;
    }
  }

  /** A colour string of any number of groups, with either terminator: if one of them
      sets a live slot it is kept whole for the client; otherwise it is removed and
      answered, one report of the declared palette for each query group in its slot. */
  lemma ColourIsAnswered(m: Model, digits: seq<byte>, rest: seq<byte>, terminator: seq<byte>, t: seq<byte>)
    requires IsColourString(digits, rest, terminator)
    ensures var s, groups := Osc(digits + [SEMICOLON] + rest, terminator), Split(rest, {SEMICOLON});
      Scan(m, s + t) ==
        if SetsColour(Dec(digits) - 10, groups) then Keep(s, Scan(m, t))
        else Answered(Reports(Dec(digits) - 10, groups, terminator), Scan(m, t))
  {
    hide *;
    var payload := digits + [SEMICOLON] + rest;
    ColourMeaning(digits, rest, payload, terminator, t);
    ColourPayload(digits, rest, payload, terminator);
    var reply := if SetsColour(Dec(digits) - 10, Split(rest, {SEMICOLON})) then None
                 else Some(Reports(Dec(digits) - 10, Split(rest, {SEMICOLON}), terminator));
    StringFollows(m, payload, terminator, t, reply);
  }

  /** What a complete control string comes to, given what it means. */
  lemma StringFollows(m: Model, payload: seq<byte>, terminator: seq<byte>, t: seq<byte>, reply: Option<seq<byte>>)
    requires (terminator == [BEL] || terminator == [ESC, BACKSLASH]) && Bare(payload)
    requires Meaning(Osc(payload, terminator) + t) ==
      if reply.None? then Unknown else Query(|Osc(payload, terminator)|, Fixed(reply.value))
    ensures Scan(m, Osc(payload, terminator) + t) ==
      if reply.None? then Keep(Osc(payload, terminator), Scan(m, t)) else Answered(reply.value, Scan(m, t))
  {
    hide Meaning, Scan, Osc;
    if reply.None? {
      StringIsKept(m, payload, terminator, t);
    } else {
      QueryIsAnswered(m, payload, terminator, t, reply.value);
    }
  }

  lemma ColourMeaning(digits: seq<byte>, rest: seq<byte>, payload: seq<byte>, terminator: seq<byte>, t: seq<byte>)
    requires IsColourString(digits, rest, terminator) && payload == digits + [SEMICOLON] + rest
    ensures terminator == [BEL] || terminator == [ESC, BACKSLASH]
    ensures var s, groups := Osc(payload, terminator), Split(rest, {SEMICOLON});
      Meaning(s + t) ==
        if SetsColour(Dec(digits) - 10, groups) then Unknown
        else Query(|s|, Fixed(Reports(Dec(digits) - 10, groups, terminator)))
  {
    hide *;
    ColourPayload(digits, rest, payload, terminator);
    Terminators(digits, rest, terminator);
    RepliesAreReports(Dec(digits) - 10, Split(rest, {SEMICOLON}), terminator);
    OscMeaning(payload, terminator, t);
  }

  lemma Terminators(digits: seq<byte>, rest: seq<byte>, terminator: seq<byte>)
    requires IsColourString(digits, rest, terminator)
    ensures terminator == [BEL] || terminator == [ESC, BACKSLASH]
  {
  }

  lemma QueryIsAnswered(m: Model, payload: seq<byte>, terminator: seq<byte>, t: seq<byte>, reply: seq<byte>)
    requires Meaning(Osc(payload, terminator) + t) == Query(|Osc(payload, terminator)|, Fixed(reply))
    ensures Scan(m, Osc(payload, terminator) + t) == Answered(reply, Scan(m, t))
  {
    hide Meaning, Scan;
    AnsweredFirst(m, Osc(payload, terminator), t, Fixed(reply));
  }

  lemma {:induction false} PlainIsKept(m: Model, p: seq<byte>, t: seq<byte>)
    requires forall i :: 0 <= i < |p| ==> p[i] != ESC
    ensures Scan(m, p + t) == Keep(p, Scan(m, t))
    decreases |p|
  {
    if p == [] {
      assert p + t == t;
    } else {
      hide Scan;
      assert p == [p[0]] + p[1..];
      assert p + t == [p[0]] + (p[1..] + t);
      OneByteKept(m, p[0], p[1..] + t);
      PlainIsKept(m, p[1..], t);
      KeepTwice([p[0]], p[1..], Scan(m, t));
    }
  }

  lemma OneByteKept(m: Model, b: byte, t: seq<byte>)
    requires b != ESC
    ensures Scan(m, [b] + t) == Keep([b], Scan(m, t))
  {
    assert ([b] + t)[..1] == [b] && ([b] + t)[1..] == t;
  }

  lemma EscapeIsKept(m: Model, t: seq<byte>)
    requires Meaning([ESC] + t).Unknown?
    ensures Scan(m, [ESC] + t) == Keep([ESC], Scan(m, t))
  {
    assert ([ESC] + t)[..1] == [ESC] && ([ESC] + t)[1..] == t;
  }

  lemma KeepTwice(a: seq<byte>, b: seq<byte>, r: Scanned)
    ensures Keep(a, Keep(b, r)) == Keep(a + b, r)
  {
    assert a + (b + r.kept) == a + b + r.kept;
  }

  lemma TerminatorIsKept(m: Model, terminator: seq<byte>, t: seq<byte>)
    requires terminator == [BEL] || terminator == [ESC, BACKSLASH]
    ensures Scan(m, terminator + t) == Keep(terminator, Scan(m, t))
  {
    hide Scan, Meaning;
    if terminator == [BEL] {
      PlainIsKept(m, terminator, t);
    } else {
      assert terminator + t == [ESC] + ([BACKSLASH] + t);
      EndIsNoQuery(t);
      EscapeIsKept(m, [BACKSLASH] + t);
      PlainIsKept(m, [BACKSLASH], t);
      KeepTwice([ESC], [BACKSLASH], Scan(m, t));
      assert [ESC] + [BACKSLASH] == terminator;
    }
  }

  lemma EndIsNoQuery(t: seq<byte>)
    ensures Meaning([ESC] + ([BACKSLASH] + t)).Unknown?
  {
    assert ([ESC] + ([BACKSLASH] + t))[1] == BACKSLASH;
  }

  /** A complete control string that is no query is kept whole. */
  lemma StringIsKept(m: Model, payload: seq<byte>, terminator: seq<byte>, t: seq<byte>)
    requires terminator == [BEL] || terminator == [ESC, BACKSLASH]
    requires Bare(payload) && Meaning(Osc(payload, terminator) + t).Unknown?
    ensures Scan(m, Osc(payload, terminator) + t) == Keep(Osc(payload, terminator), Scan(m, t))
  {
    var s, middle := Osc(payload, terminator), [RIGHT_BRACKET] + payload;
    assert s + t == [ESC] + (middle + (terminator + t));
    EscapeIsKept(m, middle + (terminator + t));
    PlainIsKept(m, middle, terminator + t);
    TerminatorIsKept(m, terminator, t);
    hide Scan, Meaning;
    KeepTwice(middle, terminator, Scan(m, t));
    KeepTwice([ESC], middle + terminator, Scan(m, t));
    assert [ESC] + (middle + terminator) == s;
  }

  lemma OscMeaning(payload: seq<byte>, terminator: seq<byte>, t: seq<byte>)
    requires terminator == [BEL] || terminator == [ESC, BACKSLASH]
    requires |payload| + 2 <= MAX_SEQUENCE_LEN && Bare(payload)
    ensures var s := Osc(payload, terminator);
      var replies := PayloadReplies(payload, terminator);
      Meaning(s + t) == if replies.None? then Unknown else Query(|s|, Fixed(replies.value))
  {
    var s := Osc(payload, terminator);
    var all := s + t;
    var e := 2 + |payload|;
    forall i | 2 <= i < e ensures !IsTerminator(all, i) {
      assert all[i] == payload[i - 2];
    }
    assert all[e] == terminator[0];
    assert IsTerminator(all, e);
    FindIs(all, 2, e);
    assert all[2..e] == payload;
  }

  /** The code in front of the groups is one of the three the runtime answers for. */
  predicate ColourCode(payload: seq<byte>, k: nat) {
    && 1 <= k < |payload| && payload[k] == SEMICOLON
    && AllDigits(payload[..k]) && 10 <= Dec(payload[..k]) <= 12
  }

  /** Every other operating-system command is kept whole. */
  lemma OtherOscPasses(m: Model, payload: seq<byte>, terminator: seq<byte>, t: seq<byte>)
    requires terminator == [BEL] || terminator == [ESC, BACKSLASH]
    requires |payload| + 2 <= MAX_SEQUENCE_LEN && Bare(payload)
    requires forall k :: 0 <= k < |payload| ==> !ColourCode(payload, k)
    ensures Scan(m, Osc(payload, terminator) + t) == Keep(Osc(payload, terminator), Scan(m, t))
  {
    NoCodeNoReply(payload, terminator);
    hide *;
    OscMeaning(payload, terminator, t);
    StringFollows(m, payload, terminator, t, None);
  }

  lemma NoCodeNoReply(payload: seq<byte>, terminator: seq<byte>)
    requires forall k :: 0 <= k < |payload| ==> !ColourCode(payload, k)
    ensures PayloadReplies(payload, terminator).None?
  {
    hide FaceReplies, SplitFrom;
    var sep := FirstIn(payload, {SEMICOLON}, 0);
    if sep < |payload| { assert !ColourCode(payload, sep); }
  }

  /** The command with one group, for the slot its code names: a group that begins with a
      question mark is answered with the slot's report, one that sets a colour is kept, and
      any other is taken out without an answer. */
  lemma OneGroupTold(m: Model, digits: seq<byte>, group: seq<byte>, terminator: seq<byte>, t: seq<byte>)
    requires IsColourString(digits, group, terminator) && group != [] && Free(group, {SEMICOLON})
    ensures var s := Osc(digits + [SEMICOLON] + group, terminator);
      Scan(m, s + t) ==
        if group[0] == QUESTION then Answered(Report(Dec(digits) - 10, terminator), Scan(m, t))
        else if IsColour(group) then Keep(s, Scan(m, t))
        else Answered([], Scan(m, t))
  {
    ColourIsAnswered(m, digits, group, terminator, t);
    OneGroup(group);
    OneGroupReports(Dec(digits) - 10, group, terminator);
    hide Scan, Report, IsColour, SplitFrom;
  }

  lemma OneGroup(group: seq<byte>)
    requires Free(group, {SEMICOLON})
    ensures Split(group, {SEMICOLON}) == [group]
  {
    assert FirstIn(group, {SEMICOLON}, 0) == |group|;
    assert group[0..|group|] == group;
  }

  lemma OneGroupReports(slot: nat, group: seq<byte>, terminator: seq<byte>)
    requires group != [] && slot <= 2
    ensures SetsColour(slot, [group]) <==> group[0] != QUESTION && IsColour(group)
    ensures Reports(slot, [group], terminator) == if group[0] == QUESTION then Report(slot, terminator) else []
  {
    hide IsColour, Report;
    assert [group][1..] == [];
    assert Reports(slot + 1, [], terminator) == [];
    assert Report(slot, terminator) + [] == Report(slot, terminator);
  }

  /** Groups past the cursor's slot neither set nor ask for anything. */
  lemma {:induction false} PastTheCursor(slot: nat, groups: seq<seq<byte>>, terminator: seq<byte>)
    requires slot > 2
    ensures FaceReplies(slot, groups, terminator) == Some([])
    decreases |groups|
  {
    if groups != [] {
      PastTheCursor(slot + 1, groups[1..], terminator);
      assert ColourReport(slot, terminator) + [] == [];
    }
  }
}
