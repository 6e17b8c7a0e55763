/** The capability-query proxy: what each escape sequence means, the scan of one
    output chunk, and the object that carries it out. Control sequences follow
    section 5.4 of ECMA-48. */
module CapProxy {
  import opened Bytes
  import opened ControlStrings
  import opened Kitty

  const MAX_GROUPS: nat := 24
  const PARAM_SEPARATORS: set<byte> := {SEMICOLON, COLON}

  const FOREGROUND := B("rgb:c7c7/c7c7/c7c7")
  const BACKGROUND := B("rgb:1e1e/1e1e/1e1e")
  const CURSOR := FOREGROUND

  // ----- numeric parameters ----------------------------------------------------

  predicate IsParam(b: byte) {
    DIGIT_0 <= b <= SEMICOLON
  }

  predicate ParamRun(s: seq<byte>) {
    forall i :: 0 <= i < |s| ==> IsParam(s[i])
  }

  /** The value of one group: its decimal value, saturated. */
  function GroupValue(group: seq<byte>): (v: u16)
    ensures AllDigits(group) ==> v as nat == Min(Dec(group), U16_MAX)
  {
    if AllDigits(group) then Min(Dec(group), U16_MAX) as u16 else 0
  }

  function ValuesFrom(params: seq<byte>, from: nat): (r: seq<u16>)
    requires from <= |params|
    ensures |r| >= 1
    decreases |params| - from
  {
    var i := FirstIn(params, PARAM_SEPARATORS, from);
    [GroupValue(params[from..i])] + if i == |params| then [] else ValuesFrom(params, i + 1)
  }

  /** The parameter list, or `None` past the limit the client dispatches. */
  function ParamList(params: seq<byte>): (r: Option<seq<u16>>)
    requires ParamRun(params)
    ensures r.Some? ==> 1 <= |r.value| <= MAX_GROUPS
  {
    var values := ValuesFrom(params, 0);
    if |values| > MAX_GROUPS then None else Some(values)
  }

  /** Each group's decimal value, saturated, in order. */
  ghost predicate ValuesOf(groups: seq<seq<byte>>, values: seq<u16>) {
    |values| == |groups|
    && forall j :: 0 <= j < |groups| ==> AllDigits(groups[j]) && values[j] as nat == Min(Dec(groups[j]), U16_MAX)
  }

  lemma {:induction false} ValuesMatchGroups(params: seq<byte>, from: nat)
    requires from <= |params|
    ensures var groups, values := SplitFrom(params, PARAM_SEPARATORS, from), ValuesFrom(params, from);
      |values| == |groups| && forall j :: 0 <= j < |groups| ==> values[j] == GroupValue(groups[j])
    decreases |params| - from
  {
    hide GroupValue;
    var i := FirstIn(params, PARAM_SEPARATORS, from);
    if i < |params| { ValuesMatchGroups(params, i + 1); }
  }

  /** Between its separators a parameter list has digits only. */
  lemma {:induction false} GroupsAreDigits(params: seq<byte>, from: nat, j: nat)
    requires ParamRun(params) && from <= |params| && j < |SplitFrom(params, PARAM_SEPARATORS, from)|
    ensures AllDigits(SplitFrom(params, PARAM_SEPARATORS, from)[j])
    decreases |params| - from
  {
    if j == 0 {
      GroupIsDigits(params, from);
    } else {
      hide ParamRun, AllDigits;
      GroupsAreDigits(params, FirstIn(params, PARAM_SEPARATORS, from) + 1, j - 1);
    }
  }

  lemma GroupIsDigits(params: seq<byte>, from: nat)
    requires ParamRun(params) && from <= |params|
    ensures AllDigits(params[from..FirstIn(params, PARAM_SEPARATORS, from)])
  {
    var i := FirstIn(params, PARAM_SEPARATORS, from);
    forall j | from <= j < i ensures IsDigit(params[j]) {
      assert IsParam(params[j]) && params[j] !in PARAM_SEPARATORS;
    }
  }

  /** The list is refused exactly when it has more than 24 groups; otherwise each
      group yields the smaller of its decimal value and 65535, and the groups and the
      separators between them are the whole list. */
  lemma ParamListMeaning(params: seq<byte>)
    requires ParamRun(params)
    ensures var groups := Split(params, PARAM_SEPARATORS);
      && TotalLength(groups) + |groups| - 1 == |params|
      && (forall j :: 0 <= j < |groups| ==> Free(groups[j], PARAM_SEPARATORS))
      && (ParamList(params).None? <==> |groups| > MAX_GROUPS)
      && (ParamList(params).Some? ==> ValuesOf(groups, ParamList(params).value))
  {
    ValuesMatchGroups(params, 0);
    SplitAccounts(params, PARAM_SEPARATORS, 0);
    var groups := Split(params, PARAM_SEPARATORS);
    forall j | 0 <= j < |groups| ensures AllDigits(groups[j]) {
      GroupsAreDigits(params, 0, j);
    }
    hide AllDigits, GroupValue, Dec, Free, SplitFrom, ValuesFrom;
  }

  method ParseGroup(params: seq<byte>, pos: nat) returns (value: u16, i: nat)
    requires ParamRun(params) && pos <= |params|
    ensures i == FirstIn(params, PARAM_SEPARATORS, pos)
    ensures value == GroupValue(params[pos..i])
  {
    var total: u32 := 0;
    i := pos;
    assert params[pos..pos] == [];
    while i < |params| && params[i] != SEMICOLON && params[i] != COLON
      invariant pos <= i <= FirstIn(params, PARAM_SEPARATORS, pos)
      invariant total as nat == Min(Dec(params[pos..i]), U16_MAX)
    {
      ghost var run := params[pos..i + 1];
      assert run[..|run| - 1] == params[pos..i];
      var scaled: u32 := total * 10 + (params[i] - DIGIT_0) as u32;
      total := if scaled <= 0xffff then scaled else 0xffff;
      i := i + 1;
    }
    value := total as u16;
  }

  /** One group's turn of the loop. */
  lemma ValuesUnfold(params: seq<byte>, from: nat, before: seq<u16>)
    requires from <= |params|
    ensures var i := FirstIn(params, PARAM_SEPARATORS, from);
      before + ValuesFrom(params, from)
        == before + [GroupValue(params[from..i])] + if i == |params| then [] else ValuesFrom(params, i + 1)
  {
    hide GroupValue, FirstIn;
  }

  method ParseParams(params: seq<byte>) returns (r: Option<seq<u16>>)
    requires ParamRun(params)
    ensures r == ParamList(params)
  {
    hide ValuesFrom, GroupValue, ParamRun, FirstIn, AllDigits, Dec;
    var pars := new u16[MAX_GROUPS](_ => 0);
    var count := 0;
    var pos := 0;
    while true
      invariant pos <= |params| && count <= MAX_GROUPS
      invariant ValuesFrom(params, 0) == pars[..count] + ValuesFrom(params, pos)
      decreases |params| - pos
    {
      if count == MAX_GROUPS {
        return None;
      }
      var value, i := ParseGroup(params, pos);
      ghost var before := pars[..count];
      ValuesUnfold(params, pos, before);
      pars[count] := value;
      count := count + 1;
      assert pars[..count] == before + [value];
      if i == |params| {
        assert pars[..count] + [] == pars[..count];
        return Some(pars[..count]);
      }
      pos := i + 1;
    }
  }

  // ----- colour queries ----------------------------------------------------------

  /** Strict decimal that fits 32 bits. */
  function ParseDecimal(digits: seq<byte>): Option<nat> {
    if digits == [] || !AllDigits(digits) || Dec(digits) >= U32_LIMIT then None else Some(Dec(digits))
  }

  method ParseDecimalLoop(digits: seq<byte>) returns (r: Option<nat>)
    ensures r == ParseDecimal(digits)
  {
    if |digits| == 0 {
      return None;
    }
    var value: u32 := 0;
    for i := 0 to |digits|
      invariant AllDigits(digits[..i]) && value as nat == Dec(digits[..i])
    {
      if !IsDigit(digits[i]) {
        return None;
      }
      assert digits[..i + 1][..i] == digits[..i];
      var next := value as nat * 10 + (digits[i] - DIGIT_0) as nat;
      if next >= U32_LIMIT {
        if AllDigits(digits) { DecPrefixMonotone(digits, i + 1); }
        return None;
      }
      value := next as u32;
    }
    assert digits[..|digits|] == digits;
    return Some(value as nat);
  }

  /** Length of the run of hex digits at `from`, at most `limit`. */
  function HexRun(data: seq<byte>, from: nat, limit: nat): (n: nat)
    requires from <= |data|
    ensures n <= limit && from + n <= |data|
    ensures n > 0 <==> limit > 0 && from < |data| && IsHexDigit(data[from])
    decreases limit
  {
    if limit == 0 || from == |data| || !IsHexDigit(data[from]) then 0
    else 1 + HexRun(data, from + 1, limit - 1)
  }

  /** Where the walk continues: past the run, past the byte that ended it early,
      and past one slash. */
  function AfterRun(data: seq<byte>, from: nat): (next: nat)
    requires from <= |data|
    ensures from <= next <= |data|
  {
    var n := HexRun(data, from, 4);
    var stop := if n < 4 && from + n < |data| then from + n + 1 else from + n;
    if stop < |data| && data[stop] == SLASH then stop + 1 else stop
  }

  method HexDigits(data: seq<byte>, idx: nat) returns (count: nat, next: nat)
    requires idx <= |data|
    ensures count == HexRun(data, idx, 4) && next == AfterRun(data, idx)
  {
    count, next := 0, idx;
    while count < 4 && next < |data|
      invariant count <= 4 && next == idx + count <= |data|
      invariant HexRun(data, idx, 4) == count + HexRun(data, next, 4 - count)
      decreases 4 - count
    {
      var c := data[next];
      next := next + 1;
      if IsHexDigit(c) {
        count := count + 1;
      } else {
        break;
      }
    }
    if next < |data| && data[next] == SLASH {
      next := next + 1;
    }
  }

  /** A colour value the client would apply: `#` and 3, 6, 9 or 12 more bytes, or
      `rgb:` with a hex digit at one of the three places the walk looks. */
  predicate IsColour(spec: seq<byte>) {
    if |spec| > 0 && spec[0] == HASH then
      |spec| - 1 in {3, 6, 9, 12}
    else
      StartsWith(spec, B("rgb:")) &&
      var second := AfterRun(spec, 4);
      var third := AfterRun(spec, second);
      HexAt(spec, 4) || HexAt(spec, second) || HexAt(spec, third)
  }

  predicate HexAt(spec: seq<byte>, i: nat) {
    i < |spec| && IsHexDigit(spec[i])
  }

  /** The byte the walk looks at after a byte at `i` that is no digit: the next one, or the
      one after it if that is a slash. */
  function NextPlace(spec: seq<byte>, i: nat): nat {
    if i + 1 < |spec| && spec[i + 1] == SLASH then i + 2 else i + 1
  }

  lemma NoRunSkipsOne(spec: seq<byte>, i: nat)
    requires i <= |spec| && !HexAt(spec, i)
    ensures AfterRun(spec, i) == if i == |spec| then i else NextPlace(spec, i)
  {
  }

  /** A `#` specification is a colour exactly with 3, 6, 9 or 12 bytes after it, whatever
      they are; an `rgb:` one exactly with a hex digit at the first place or, past bytes
      that are none and the slashes behind them, at the second or third; nothing else is. */
  lemma ColoursAre(spec: seq<byte>)
    ensures IsColour(spec) <==>
      || (|spec| in [4, 7, 10, 13] && spec[0] == HASH)
      || (StartsWith(spec, B("rgb:"))
          && (HexAt(spec, 4) || HexAt(spec, NextPlace(spec, 4)) || HexAt(spec, NextPlace(spec, NextPlace(spec, 4)))))
  {
    if StartsWith(spec, B("rgb:")) {
      assert spec[0] == spec[..4][0] == B("rgb:")[0] != HASH;
      if !HexAt(spec, 4) {
        NoRunSkipsOne(spec, 4);
        var second := AfterRun(spec, 4);
        if !HexAt(spec, second) { NoRunSkipsOne(spec, second); }
      }
    }
  }

  method IsColourLoop(spec: seq<byte>) returns (r: bool)
    ensures r == IsColour(spec)
  {
    if |spec| > 0 && spec[0] == HASH {
      return |spec| - 1 == 3 || |spec| - 1 == 6 || |spec| - 1 == 9 || |spec| - 1 == 12;
    }
    if !StartsWith(spec, B("rgb:")) {
      return false;
    }
    var idx := 4;
    var count;
    for k := 0 to 3
      invariant k == 0 ==> idx == 4
      invariant k >= 1 ==> !HexAt(spec, 4)
      invariant k == 1 ==> idx == AfterRun(spec, 4)
      invariant k >= 2 ==> !HexAt(spec, AfterRun(spec, 4))
      invariant k == 2 ==> idx == AfterRun(spec, AfterRun(spec, 4))
      invariant k == 3 ==> !HexAt(spec, AfterRun(spec, AfterRun(spec, 4)))
      invariant idx <= |spec|
    {
      count, idx := HexDigits(spec, idx);
      if count > 0 {
        return true;
      }
    }
    return false;
  }

  /** Empty groups do not count as slots. */
  function NonEmpty(groups: seq<seq<byte>>): (r: seq<seq<byte>>)
    ensures forall j :: 0 <= j < |r| ==> r[j] != []
  {
    if groups == [] then []
    else if groups[0] == [] then NonEmpty(groups[1..])
    else [groups[0]] + NonEmpty(groups[1..])
  }

  predicate IsQueryGroup(group: seq<byte>) {
    |group| > 0 && group[0] == QUESTION
  }

  /** A group that sets a live colour slot. */
  predicate IsSet(slot: nat, group: seq<byte>) {
    !IsQueryGroup(group) && slot <= 2 && IsColour(group)
  }

  /** The report for one slot (0 foreground, 1 background, 2 cursor); nothing past those. */
  function ColourReport(slot: nat, terminator: seq<byte>): seq<byte> {
    if slot > 2 then [] else
    var colour := if slot == 0 then FOREGROUND else if slot == 1 then BACKGROUND else CURSOR;
    B("\U{001b}]") + Decimal(10 + slot) + [SEMICOLON] + colour + terminator
  }

  /** The reports for the groups from `slot` on, or `None` if one of them is a set. */
  function FaceReplies(slot: nat, groups: seq<seq<byte>>, terminator: seq<byte>): Option<seq<byte>>
    decreases |groups|
  {
    if groups == [] then Some([])
    else if IsSet(slot, groups[0]) then None
    else
      var rest := FaceReplies(slot + 1, groups[1..], terminator);
      if rest.Some? && IsQueryGroup(groups[0]) then Some(ColourReport(slot, terminator) + rest.value) else rest
  }

  /** A sequence is left to the client exactly when one of its groups is a set. */
  lemma {:induction false} RefusedExactlyForSets(slot: nat, groups: seq<seq<byte>>, terminator: seq<byte>)
    ensures FaceReplies(slot, groups, terminator).None? <==>
      exists j :: 0 <= j < |groups| && IsSet(slot + j, groups[j])
    decreases |groups|
  {
    if groups != [] {
      RefusedExactlyForSets(slot + 1, groups[1..], terminator);
      forall j | 0 <= j < |groups| && IsSet(slot + j, groups[j])
        ensures FaceReplies(slot, groups, terminator).None?
      {
        if j > 0 { assert groups[1..][j - 1] == groups[j] && IsSet(slot + 1 + (j - 1), groups[1..][j - 1]); }
      }
      if FaceReplies(slot + 1, groups[1..], terminator).None? {
        var j :| 0 <= j < |groups[1..]| && IsSet(slot + 1 + j, groups[1..][j]);
        assert groups[j + 1] == groups[1..][j] && IsSet(slot + (j + 1), groups[j + 1]);
      }
    }
  }

  /** `response` in front of whatever the remaining groups yield. */
  function Prefixed(response: seq<byte>, rest: Option<seq<byte>>): Option<seq<byte>> {
    if rest.None? then None else Some(response + rest.value)
  }

  /** The groups after the one at `pos`. */
  function Later(rest: seq<byte>, pos: nat): seq<seq<byte>>
    requires pos <= |rest|
  {
    var i := FirstIn(rest, {SEMICOLON}, pos);
    if i == |rest| then [] else SplitFrom(rest, {SEMICOLON}, i + 1)
  }

  lemma NonEmptyUnfold(rest: seq<byte>, pos: nat)
    requires pos <= |rest|
    ensures var group := rest[pos..FirstIn(rest, {SEMICOLON}, pos)];
      NonEmpty(SplitFrom(rest, {SEMICOLON}, pos))
      == if group == [] then NonEmpty(Later(rest, pos)) else [group] + NonEmpty(Later(rest, pos))
  {
    var groups := SplitFrom(rest, {SEMICOLON}, pos);
    assert groups[1..] == Later(rest, pos);
  }

  /** One group's turn: a report when a query, a refusal when a set, else nothing. */
  lemma FaceRepliesUnfold(slot: nat, group: seq<byte>, later: seq<seq<byte>>, terminator: seq<byte>, response: seq<byte>)
    requires group != []
    ensures var now := Prefixed(response, FaceReplies(slot, [group] + later, terminator));
      var tail := FaceReplies(slot + 1, later, terminator);
      && (IsSet(slot, group) ==> now == None)
      && (IsQueryGroup(group) ==> now == Prefixed(response + ColourReport(slot, terminator), tail))
      && (!IsSet(slot, group) && !IsQueryGroup(group) ==> now == Prefixed(response, tail))
  {
    var groups := [group] + later;
    assert groups[0] == group && groups[1..] == later;
    var tail := FaceReplies(slot + 1, later, terminator);
    if IsQueryGroup(group) && tail.Some? {
      assert response + (ColourReport(slot, terminator) + tail.value)
          == response + ColourReport(slot, terminator) + tail.value;
    }
  }

  method GroupEnd(rest: seq<byte>, pos: nat) returns (i: nat)
    requires pos <= |rest|
    ensures i == FirstIn(rest, {SEMICOLON}, pos)
  {
    i := pos;
    while i < |rest| && rest[i] != SEMICOLON
      invariant pos <= i <= FirstIn(rest, {SEMICOLON}, pos)
    {
      i := i + 1;
    }
  }

  method OscFaceColour(base: nat, rest: seq<byte>, terminator: seq<byte>) returns (r: Option<seq<byte>>)
    ensures r == FaceReplies(base, NonEmpty(Split(rest, {SEMICOLON})), terminator)
  {
    hide SplitFrom, FirstIn, IsColour, ColourReport;
    ghost var goal := FaceReplies(base, NonEmpty(Split(rest, {SEMICOLON})), terminator);
    var response := [];
    assert goal.Some? ==> response + goal.value == goal.value;
    var slot := base;
    var pos := 0;
    while true
      invariant pos <= |rest|
      invariant goal == Prefixed(response, FaceReplies(slot, NonEmpty(SplitFrom(rest, {SEMICOLON}, pos)), terminator))
      decreases |rest| - pos
    {
      NonEmptyUnfold(rest, pos);
      var i := GroupEnd(rest, pos);
      var group := rest[pos..i];
      if group != [] {
        FaceRepliesUnfold(slot, group, NonEmpty(Later(rest, pos)), terminator, response);
        if group[0] == QUESTION {
          response := response + ColourReport(slot, terminator);
        } else if slot <= 2 {
          var colour := IsColourLoop(group);
          if colour {
            return None;
          }
        }
        slot := slot + 1;
      }
      if i == |rest| {
        assert response + [] == response;
        return Some(response);
      }
      pos := i + 1;
    }
  }

  // ----- what one escape sequence means --------------------------------------------

  datatype Reply = Fixed(bytes: seq<byte>) | KittyFlags

  datatype Verdict =
    | Query(len: nat, reply: Reply)
    | Change(len: nat, effect: Effect)
    | Unknown

  function Render(m: Model, reply: Reply): seq<byte> {
    match reply
    case Fixed(bytes) => bytes
    case KittyFlags => B("\U{001b}[?") + Decimal(m.Active().flags as nat) + [LOWER_U]
  }

  function OscQuery(s: seq<byte>): Option<(nat, seq<byte>)>
    requires |s| >= 2
  {
    var f := Find(s, 2);
    if f.Unterminated? then None
    else
      var payload := s[2..f.bodyEnd];
      var terminator := if s[f.len - 1] == BEL then [BEL] else [ESC, BACKSLASH];
      var replies := PayloadReplies(payload, terminator);
      if replies.None? then None else Some((f.len, replies.value))
  }

  function PayloadReplies(payload: seq<byte>, terminator: seq<byte>): Option<seq<byte>> {
    var sep := FirstIn(payload, {SEMICOLON}, 0);
    if sep == |payload| then None
    else
      var ps := ParseDecimal(payload[..sep]);
      if ps.None? || !(10 <= ps.value <= 12) then None
      else FaceReplies(ps.value - 10, NonEmpty(Split(payload[sep + 1..], {SEMICOLON})), terminator)
  }

  /** The byte after `CSI` when it is a private marker. */
  function Marker(s: seq<byte>): Option<byte> {
    if |s| > 2 && LESS <= s[2] <= QUESTION then Some(s[2]) else None
  }

  function ParamsStart(s: seq<byte>): nat {
    if Marker(s).Some? then 3 else 2
  }

  /** Index of the first byte from `from` that is not a parameter byte, within the bound. */
  function ParamsEnd(s: seq<byte>, from: nat): (r: nat)
    requires from <= |s|
    ensures from <= r <= |s|
    ensures r == from || r <= MAX_SEQUENCE_LEN + 1
    ensures ParamRun(s[from..r])
    ensures r < |s| && r <= MAX_SEQUENCE_LEN ==> !IsParam(s[r])
    decreases |s| - from
  {
    if from < |s| && from <= MAX_SEQUENCE_LEN && IsParam(s[from]) then
      var r := ParamsEnd(s, from + 1);
      assert s[from..r] == [s[from]] + s[from + 1..r];
      r
    else from
  }

  predicate IsFinal(b: byte) {
    0x40 <= b <= 0x7e
  }

  /** A colon straight after `CSI` aborts the sequence. */
  predicate LeadingColon(s: seq<byte>) {
    |s| > 2 && s[2] == COLON
  }

  function CsiVerdict(s: seq<byte>): Verdict
    requires |s| >= 2
  {
    if LeadingColon(s) then Unknown
    else
      var start := ParamsStart(s);
      var e := ParamsEnd(s, start);
      if e < |s| && e <= MAX_SEQUENCE_LEN && IsFinal(s[e]) then
        Dispatch(Marker(s), s[start..e], s[e], e + 1)
      else Unknown
  }

  function Dispatch(marker: Option<byte>, params: seq<byte>, final: byte, len: nat): (v: Verdict)
    requires ParamRun(params)
    ensures !v.Unknown? && v.len == len
  {
    var list := ParamList(params);
    if list.None? then Change(len, Nothing)
    else
      var p := list.value;
      if marker == None && final == LOWER_C && p[0] == 0 then
        Query(len, Fixed(B("\U{001b}[?65;4;1;2;6;21;22;17;28c")))
      else if marker == Some(GREATER) && final == LOWER_C && p[0] == 0 then
        Query(len, Fixed(B("\U{001b}[>65;20;1c")))
      else if marker == None && final == LOWER_N && p[0] == 5 then
        Query(len, Fixed(B("\U{001b}[0n")))
      else if marker == Some(QUESTION) && final == LOWER_N then
        var status := PrivateStatus(p);
        if status.None? then Change(len, Nothing) else Query(len, Fixed(status.value))
      else if marker == Some(QUESTION) && final == LOWER_U then Query(len, KittyFlags)
      else if marker == Some(GREATER) && final == LOWER_U then Change(len, PushFlags(p[0]))
      else if marker == Some(EQUALS) && final == LOWER_U then
        Change(len, SetFlags(p[0], if |p| > 1 then p[1] else 1))
      else if marker == Some(LESS) && final == LOWER_U then Change(len, PopFlags(p[0]))
      else if marker == Some(QUESTION) && final == LOWER_H && SwitchesScreen(p) then
        Change(len, SelectScreen(true))
      else if marker == Some(QUESTION) && final == LOWER_L && SwitchesScreen(p) then
        Change(len, SelectScreen(false))
      else Change(len, Nothing)
  }

  predicate SwitchesScreen(pars: seq<u16>) {
    exists i :: 0 <= i < |pars| && (pars[i] == 47 || pars[i] == 1047 || pars[i] == 1049)
  }

  /** The private statuses the client answers; the macro checksum echoes its id. */
  function PrivateStatus(p: seq<u16>): Option<seq<byte>>
    requires |p| >= 1
  {
    if p[0] == 15 then Some(B("\U{001b}[?10n"))
    else if p[0] == 25 then Some(B("\U{001b}[?21n"))
    else if p[0] == 26 then Some(B("\U{001b}[?27;1;0;0n"))
    else if p[0] == 55 then Some(B("\U{001b}[?53n"))
    else if p[0] == 56 then Some(B("\U{001b}[?57;1n"))
    else if p[0] == 62 then Some(B("\U{001b}[0*{"))
    else if p[0] == 63 then Some(ChecksumReport(if |p| > 1 then p[1] else 0))
    else if p[0] == 75 then Some(B("\U{001b}[?70n"))
    else if p[0] == 85 then Some(B("\U{001b}[?83n"))
    else None
  }

  function ChecksumReport(id: u16): seq<byte> {
    B("\U{001b}P") + Decimal(id as nat) + B("!~0000\U{001b}\\")
  }

  /** What the sequence opened by the `ESC` at the head of `s` means. */
  function Meaning(s: seq<byte>): (v: Verdict)
    requires |s| >= 1 && s[0] == ESC
    ensures v.Query? || v.Change? ==> 2 <= v.len <= |s|
  {
    if |s| < 2 then Unknown
    else if s[1] == LEFT_BRACKET then CsiVerdict(s)
    else if s[1] == RIGHT_BRACKET then
      var query := OscQuery(s);
      if query.None? then Unknown else Query(query.value.0, Fixed(query.value.1))
    else if s[1] == LOWER_C then Change(2, FullReset)
    else Unknown
  }

  // ----- the scan of one chunk ---------------------------------------------------

  /** What one chunk yields: the output kept, the answers, how many, and the model after. */
  datatype Scanned = Scanned(kept: seq<byte>, responses: seq<byte>, answered: nat, model: Model)

  /** `first` kept in front of `r`. */
  function Keep(first: seq<byte>, r: Scanned): Scanned {
    r.(kept := first + r.kept)
  }

  function Answered(response: seq<byte>, r: Scanned): Scanned {
    r.(responses := response + r.responses, answered := 1 + r.answered)
  }

  function Scan(m: Model, s: seq<byte>): Scanned
    decreases |s|
  {
    if s == [] then Scanned([], [], 0, m)
    else if s[0] != ESC then Keep(s[..1], Scan(m, s[1..]))
    else match Meaning(s)
      case Query(len, reply) => Answered(Render(m, reply), Scan(m, s[len..]))
      case Change(len, effect) => Keep(s[..len], Scan(Apply(m, effect), s[len..]))
      case Unknown => Keep(s[..1], Scan(m, s[1..]))
  }

  /** `a` followed by `b`. */
  function Then(a: Scanned, b: Scanned): Scanned {
    Scanned(a.kept + b.kept, a.responses + b.responses, a.answered + b.answered, b.model)
  }

  lemma ThenAssociates(a: Scanned, b: Scanned, c: Scanned)
    ensures Then(Then(a, b), c) == Then(a, Then(b, c))
  {
    assert a.kept + b.kept + c.kept == a.kept + (b.kept + c.kept);
    assert a.responses + b.responses + c.responses == a.responses + (b.responses + c.responses);
  }

  /** How far the scan moves from the head of `s`. */
  function Advance(s: seq<byte>): (n: nat)
    requires s != []
    ensures 1 <= n <= |s|
  {
    if s[0] != ESC then 1
    else match Meaning(s)
      case Query(len, _) => len
      case Change(len, _) => len
      case Unknown => 1
  }

  /** What that one move yields. */
  function First(m: Model, s: seq<byte>): Scanned
    requires s != []
  {
    if s[0] == ESC && Meaning(s).Query? then Scanned([], Render(m, Meaning(s).reply), 1, m)
    else if s[0] == ESC && Meaning(s).Change? then
      Scanned(s[..Meaning(s).len], [], 0, Apply(m, Meaning(s).effect))
    else Scanned(s[..1], [], 0, m)
  }

  lemma ScanUnfolds(m: Model, s: seq<byte>)
    requires s != []
    ensures Scan(m, s) == Then(First(m, s), Scan(First(m, s).model, s[Advance(s)..]))
    ensures s[0] == ESC ==> First(m, s).model == After(m, Meaning(s))
  {
  }

  /** No chunk takes the kitty model out of its bounds. */
  lemma {:induction false} ScanKeepsValid(m: Model, s: seq<byte>)
    requires m.Valid()
    ensures Scan(m, s).model.Valid()
    decreases |s|
  {
    if s != [] {
      if s[0] == ESC && Meaning(s).Change? { ApplyKeepsValid(m, Meaning(s).effect); }
      ScanUnfolds(m, s);
      ScanKeepsValid(First(m, s).model, s[Advance(s)..]);
    }
  }

  lemma {:induction false} PlainTextIsKept(m: Model, s: seq<byte>)
    requires ESC !in s
    ensures Scan(m, s) == Scanned(s, [], 0, m)
    decreases |s|
  {
    if s != [] {
      PlainTextIsKept(m, s[1..]);
      assert s[..1] + s[1..] == s;
    }
  }

  // ----- the object ------------------------------------------------------------

  /** The result of looking at one slice, as the scanning loop consumes it. */
  datatype Inspection =
    | Answer(consume: nat, response: seq<byte>)
    | Observed(len: nat)
    | Unrecognised

  function Outcome(m: Model, v: Verdict): Inspection {
    match v
    case Query(len, reply) => Answer(len, Render(m, reply))
    case Change(len, _) => Observed(len)
    case Unknown => Unrecognised
  }

  function After(m: Model, v: Verdict): Model {
    if v.Change? then Apply(m, v.effect) else m
  }

  /** `goal` is what was done followed by the scan of what is left. */
  ghost predicate Left(goal: Scanned, done: Scanned, m: Model, rest: seq<byte>) {
    goal == Then(done, Scan(m, rest))
  }

  lemma LeftAtStart(m: Model, s: seq<byte>)
    ensures Left(Scan(m, s), Scanned([], [], 0, m), m, s)
  {
    var r := Scan(m, s);
    assert [] + r.kept == r.kept && [] + r.responses == r.responses;
  }

  lemma LeftAtEnd(goal: Scanned, done: Scanned, m: Model)
    ensures Left(goal, done, m, []) ==> goal == done.(model := m)
  {
    assert done.kept + [] == done.kept && done.responses + [] == done.responses;
  }

  /** One move of the loop: what it collects, and what is left after it. */
  lemma ScanStep(goal: Scanned, done: Scanned, m: Model, out: Option<seq<byte>>, chunk: seq<byte>, c: nat, i: nat)
    returns (n: nat, next: Scanned)
    requires c <= i < |chunk| && Left(goal, done, m, chunk[i..]) && done.kept == Collected(out, chunk, c, i)
    ensures i + n <= |chunk| && Left(goal, next, next.model, chunk[i + n..])
    ensures chunk[i] != ESC ==>
      n == 1 && next == Scanned(Collected(out, chunk, c, i + n), done.responses, done.answered, m)
    ensures chunk[i] == ESC ==> next.model == After(m, Meaning(chunk[i..]))
    ensures chunk[i] == ESC ==> match Outcome(m, Meaning(chunk[i..]))
      case Answer(consume, response) =>
        n == consume && next.kept == Collected(Some(done.kept), chunk, i + n, i + n)
        && next.responses == done.responses + response && next.answered == done.answered + 1
      case Observed(len) =>
        n == len && next.kept == Collected(out, chunk, c, i + n)
        && next.responses == done.responses && next.answered == done.answered
      case Unrecognised =>
        n == 1 && next.kept == Collected(out, chunk, c, i + n)
        && next.responses == done.responses && next.answered == done.answered
  {
    var s := chunk[i..];
    var first := First(m, s);
    n, next := Advance(s), Then(done, first);
    ScanUnfolds(m, s);
    ThenAssociates(done, first, Scan(first.model, s[n..]));
    CollectMore(out, chunk, c, i, n);
    assert done.responses + [] == done.responses;
  }

  class CapabilityProxy {
    var answered: nat
    var normal: Screen
    var alternate: Screen
    var altActive: bool

    function Model(): Kitty.Model
      reads this
    {
      Kitty.Model(normal, alternate, altActive)
    }

    constructor ()
      ensures Model() == FRESH_MODEL && answered == 0
    {
      answered := 0;
      normal, alternate, altActive := FRESH_SCREEN, FRESH_SCREEN, false;
    }

    /** One output chunk in; the output worth keeping and the bytes to write back out. */
    method Process(chunk: seq<byte>) returns (kept: seq<byte>, responses: seq<byte>)
      modifies this
      ensures var r := Scan(old(Model()), chunk);
        kept == r.kept && responses == r.responses
        && Model() == r.model && answered == old(answered) + r.answered
    {
      if ESC !in chunk {
        PlainTextIsKept(Model(), chunk);
        return chunk, [];
      }
      var out;
      out, responses := ScanChunk(chunk);
      kept := if out.Some? then out.value else chunk;
    }

    /** The scanning loop: `None` when nothing was removed. */
    method ScanChunk(chunk: seq<byte>) returns (out: Option<seq<byte>>, responses: seq<byte>)
      modifies this
      ensures var r := Scan(old(Model()), chunk);
        (if out.Some? then out.value else chunk) == r.kept && responses == r.responses
        && Model() == r.model && answered == old(answered) + r.answered
    {
      hide Scan, Meaning, Left, Collected;
      ghost var goal := Scan(Model(), chunk);
      ghost var done := Scanned([], [], 0, Model());
      LeftAtStart(Model(), chunk);
      CollectEnds(None, chunk, 0);
      out, responses := None, [];
      var i: nat, copiedUpto: nat := 0, 0;
      while i < |chunk|
        invariant copiedUpto <= i <= |chunk|
        invariant out.None? ==> copiedUpto == 0
        invariant done.kept == Collected(out, chunk, copiedUpto, i)
        invariant done.responses == responses && done.model == Model()
        invariant answered == old(answered) + done.answered
        invariant Left(goal, done, Model(), chunk[i..])
        decreases |chunk| - i
      {
        ghost var n;
        n, done := ScanStep(goal, done, Model(), out, chunk, copiedUpto, i);
        if chunk[i] != ESC {
          i := i + 1;
          continue;
        }
        var seen := Inspect(chunk[i..]);
        match seen {
          case Answer(consume, response) =>
            out := Some(Collected(out, chunk, copiedUpto, i));
            responses := responses + response;
            answered := answered + 1;
            i := i + consume;
            copiedUpto := i;
          case Observed(len) => i := i + len;
          case Unrecognised => i := i + 1;
        }
      }
      LeftAtEnd(goal, done, Model());
      CollectEnds(out, chunk, copiedUpto);
      if out.Some? {
        out := Some(out.value + chunk[copiedUpto..]);
      }
    }

    /** Reset, then observe `replay`: the model of a fresh proxy that processed it. */
    method Resync(replay: seq<byte>)
      modifies this
      ensures Model() == Scan(FRESH_MODEL, replay).model && answered == old(answered)
    {
      ResetEmulatorModel();
      var before := answered;
      var _, _ := Process(replay);
      answered := before;
    }

    method ResetEmulatorModel()
      modifies this
      ensures Model() == FRESH_MODEL && answered == old(answered)
    {
      normal, alternate, altActive := FRESH_SCREEN, FRESH_SCREEN, false;
    }

    method Inspect(s: seq<byte>) returns (r: Inspection)
      requires |s| >= 1 && s[0] == ESC
      modifies this
      ensures answered == old(answered)
      ensures r == Outcome(old(Model()), Meaning(s))
      ensures Model() == After(old(Model()), Meaning(s))
    {
      if |s| < 2 {
        return Unrecognised;
      }
      if s[1] == LEFT_BRACKET {
        r := InspectCsi(s);
      } else if s[1] == RIGHT_BRACKET {
        var query := ClassifyOscQuery(s);
        r := if query.Some? then Answer(query.value.0, query.value.1) else Unrecognised;
      } else if s[1] == LOWER_C {
        ResetEmulatorModel();
        r := Observed(2);
      } else {
        r := Unrecognised;
      }
    }

    method InspectCsi(s: seq<byte>) returns (r: Inspection)
      requires |s| >= 2
      modifies this
      ensures answered == old(answered)
      ensures r == Outcome(old(Model()), CsiVerdict(s))
      ensures Model() == After(old(Model()), CsiVerdict(s))
    {
      var marker := Marker(s);
      var start := if marker.Some? then 3 else 2;
      if marker.None? && |s| > 2 && s[2] == COLON {
        return Unrecognised;
      }
      var i := start;
      while i < |s| && i <= MAX_SEQUENCE_LEN
        invariant start <= i <= |s|
        invariant ParamsEnd(s, i) == ParamsEnd(s, start)
        invariant ParamRun(s[start..i])
      {
        var b := s[i];
        if IsParam(b) {
          assert s[start..i + 1] == s[start..i] + [b];
          i := i + 1;
        } else if IsFinal(b) {
          r := DispatchCsi(marker, s[start..i], b, i + 1);
          return;
        } else {
          return Unrecognised;
        }
      }
      return Unrecognised;
    }

    method DispatchCsi(marker: Option<byte>, params: seq<byte>, final: byte, len: nat) returns (r: Inspection)
      requires ParamRun(params)
      modifies this
      ensures answered == old(answered)
      ensures r == Outcome(old(Model()), Dispatch(marker, params, final, len))
      ensures Model() == After(old(Model()), Dispatch(marker, params, final, len))
    {
      var list := ParseParams(params);
      if list.None? {
        return Observed(len);
      }
      var p := list.value;
      if marker == None && final == LOWER_C && p[0] == 0 {
        r := Answer(len, B("\U{001b}[?65;4;1;2;6;21;22;17;28c"));
      } else if marker == Some(GREATER) && final == LOWER_C && p[0] == 0 {
        r := Answer(len, B("\U{001b}[>65;20;1c"));
      } else if marker == None && final == LOWER_N && p[0] == 5 {
        r := Answer(len, B("\U{001b}[0n"));
      } else if marker == Some(QUESTION) && final == LOWER_N {
        var status := PrivateStatus(p);
        r := if status.None? then Observed(len) else Answer(len, status.value);
      } else if marker == Some(QUESTION) && final == LOWER_U {
        r := Answer(len, Render(Model(), KittyFlags));
      } else if marker == Some(GREATER) && final == LOWER_U {
        KittyPush(p[0]);
        r := Observed(len);
      } else if marker == Some(EQUALS) && final == LOWER_U {
        KittySet(p[0], if |p| > 1 then p[1] else 1);
        r := Observed(len);
      } else if marker == Some(LESS) && final == LOWER_U {
        KittyPop(p[0]);
        r := Observed(len);
      } else if marker == Some(QUESTION) && (final == LOWER_H || final == LOWER_L) {
        BufferModes(p, final == LOWER_H);
        r := Observed(len);
      } else {
        r := Observed(len);
      }
    }

    method SetActive(screen: Screen)
      modifies `normal, `alternate
      ensures Model() == old(Model()).WithActive(screen)
    {
      if altActive { alternate := screen; } else { normal := screen; }
    }

    method KittyPush(raw: u16)
      modifies this
      ensures answered == old(answered)
      ensures Model() == Apply(old(Model()), PushFlags(raw))
    {
      var screen := Model().Active();
      var stack := screen.stack;
      if |stack| >= STACK_LIMIT {
        stack := stack[1..];
      }
      stack := stack + [screen.flags];
      SetActive(Screen(Known(raw), stack));
    }

    method KittySet(raw: u16, mode: u16)
      modifies this
      ensures answered == old(answered)
      ensures Model() == Apply(old(Model()), SetFlags(raw, mode))
    {
      var given := Known(raw);
      var screen := Model().Active();
      match mode as int {
        case 1 => SetActive(screen.(flags := given));
        case 2 => SetActive(screen.(flags := Union(screen.flags, given)));
        case 3 => SetActive(screen.(flags := Without(screen.flags, given)));
        case _ => 
      }
    }

    method KittyPop(raw: u16)
      modifies this
      ensures answered == old(answered)
      ensures Model() == Apply(old(Model()), PopFlags(raw))
    {
      var count := if raw == 0 then 1 else raw as nat;
      var screen := Model().Active();
      if count > |screen.stack| {
        SetActive(FRESH_SCREEN);
        return;
      }
      var flags, stack := screen.flags, screen.stack;
      for k := 0 to count
        invariant stack == screen.stack[..|screen.stack| - k]
        invariant k > 0 ==> flags == screen.stack[|screen.stack| - k]
      {
        flags := stack[|stack| - 1];
        stack := stack[..|stack| - 1];
      }
      SetActive(Screen(flags, stack));
    }

    method BufferModes(pars: seq<u16>, on: bool)
      modifies this
      ensures answered == old(answered)
      ensures Model() == if SwitchesScreen(pars) then Apply(old(Model()), SelectScreen(on)) else old(Model())
    {
      var any := false;
      for i := 0 to |pars|
        invariant any <==> exists j :: 0 <= j < i && (pars[j] == 47 || pars[j] == 1047 || pars[j] == 1049)
      {
        any := any || pars[i] == 47 || pars[i] == 1047 || pars[i] == 1049;
      }
      if any { altActive := on; }
    }
  }

  method ClassifyOscQuery(s: seq<byte>) returns (r: Option<(nat, seq<byte>)>)
    requires |s| >= 2
    ensures r == OscQuery(s)
  {
    var f := StringSequence(s, 2);
    if f.Unterminated? {
      return None;
    }
    var terminator := if s[f.len - 1] == BEL then [BEL] else [ESC, BACKSLASH];
    var replies := ClassifyPayload(s[2..f.bodyEnd], terminator);
    r := if replies.None? then None else Some((f.len, replies.value));
  }

  method ClassifyPayload(payload: seq<byte>, terminator: seq<byte>) returns (r: Option<seq<byte>>)
    ensures r == PayloadReplies(payload, terminator)
  {
    hide FaceReplies, ParseDecimal, SplitFrom, NonEmpty, Dec, AllDigits;
    var sep := 0;
    while sep < |payload| && payload[sep] != SEMICOLON
      invariant sep <= FirstIn(payload, {SEMICOLON}, 0)
    {
      sep := sep + 1;
    }
    if sep == |payload| {
      return None;
    }
    var ps := ParseDecimalLoop(payload[..sep]);
    if ps.None? || !(10 <= ps.value <= 12) {
      return None;
    }
    r := OscFaceColour(ps.value - 10, payload[sep + 1..], terminator);
  }
}
