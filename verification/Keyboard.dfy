/** The keyboard sequences as the child sees them: what each does to the flags the next
    keyboard query is answered with, on the bytes. */
module Keyboard {
  import opened Bytes
  import opened ControlStrings
  import opened Kitty
  import opened CapProxy
  import opened Answers

  /** The keyboard query, and the answer that reports `flags`. */
  const ASK: seq<byte> := [ESC, LEFT_BRACKET, QUESTION, LOWER_U]

  function Says(flags: nat): seq<byte> {
    [ESC, LEFT_BRACKET, QUESTION] + Decimal(flags) + [LOWER_U]
  }

  /** Parameters a sequence with a marker can carry within the bound. */
  predicate Carried(params: seq<byte>) {
    ParamRun(params) && |params| + 3 <= MAX_SEQUENCE_LEN && !Refused(params)
  }

  lemma NoParams()
    ensures Carried([]) && Value([], 0) == 0
  {
    assert Split([], PARAM_SEPARATORS) == [[]];
  }

  lemma AskIsAnswered(m: Model)
    ensures Scan(m, ASK) == Scanned([], Says(m.Active().flags as nat), 1, m)
  {
    NoParams();
    KittyIsAnswered(m, [QUESTION], [], LOWER_U, []);
    hide Decimal, Meaning, Refused;
    assert Csi([QUESTION], [], LOWER_U) + [] == ASK;
    assert Says(m.Active().flags as nat) + [] == Says(m.Active().flags as nat);
  }

  /** A state-changing sequence, then the query. */
  lemma ChangeThenAsk(m: Model, marker: byte, params: seq<byte>, final: byte)
    requires Carried(params) && IsStateChange([marker], final) && WellFormed([marker], params, final)
    ensures var s := Csi([marker], params, final);
      var r := Apply(m, StateChange([marker], params, final));
      Scan(m, s + ASK) == Scanned(s, Says(r.Active().flags as nat), 1, r)
  {
    NotAnswered(marker, params, final);
    OthersPassThrough(m, [marker], params, final, ASK);
    AskIsAnswered(Apply(m, EffectOf([marker], params, final)));
    hide Scan, Says, Refused, Value, NamesScreenMode, Apply;
    assert Csi([marker], params, final) + [] == Csi([marker], params, final);
  }

  lemma NotAnswered(marker: byte, params: seq<byte>, final: byte)
    requires IsStateChange([marker], final)
    ensures !IsAnswered([marker], params, final)
  {
    hide Value, Refused;
  }

  // ----- push and set ---------------------------------------------------------------------

  function Push(params: seq<byte>): seq<byte> {
    Csi([GREATER], params, LOWER_U)
  }

  function PopBytes(params: seq<byte>): seq<byte> {
    Csi([LESS], params, LOWER_U)
  }

  /** After a push the query is answered with the known ones of the pushed flags. */
  lemma PushIsSeen(m: Model, params: seq<byte>) returns (f: bv16)
    requires Carried(params)
    ensures var r := Scan(m, Push(params) + ASK);
      r.kept == Push(params) && r.responses == Says(f as nat)
    ensures f <= KNOWN_MASK && forall k :: 0 <= k < 5 ==> (Has(f, k) <==> Has(Value(params, 0) as u16 as bv16, k))
  {
    ChangeThenAsk(m, GREATER, params, LOWER_U);
    var raw := Value(params, 0) as u16;
    f := Known(raw);
    hide Scan, Says, Value, Refused, Known, Has;
    forall k | 0 <= k < 5 ensures Has(f, k) <==> Has(raw as bv16, k) { KnownHas(raw, k); }
  }

  /** A set with no mode, or mode 1, assigns; 2 adds; 3 removes; any other does nothing. */
  lemma SetIsSeen(m: Model, params: seq<byte>) returns (f: bv16)
    requires Carried(params)
    ensures var s := Csi([EQUALS], params, LOWER_U);
      var r := Scan(m, s + ASK);
      r.kept == s && r.responses == Says(f as nat)
    ensures var mode := if |Split(params, PARAM_SEPARATORS)| > 1 then Value(params, 1) else 1;
      forall k :: 0 <= k < 5 ==>
        var had, given := Has(m.Active().flags, k), Has(Value(params, 0) as u16 as bv16, k);
        Has(f, k) <==>
          if mode == 1 then given else if mode == 2 then had || given else if mode == 3 then had && !given else had
  {
    ChangeThenAsk(m, EQUALS, params, LOWER_U);
    var raw, mode := Value(params, 0) as u16, if |Split(params, PARAM_SEPARATORS)| > 1 then Value(params, 1) as u16 else 1;
    f := m.Active().Assign(raw, mode).flags;
    hide Scan, Says, Value, Refused, Has, Known, Union, Without;
    forall k | 0 <= k < 5
      ensures Has(f, k) <==>
        if mode == 1 then Has(raw as bv16, k)
        else if mode == 2 then Has(m.Active().flags, k) || Has(raw as bv16, k)
        else if mode == 3 then Has(m.Active().flags, k) && !Has(raw as bv16, k)
        else Has(m.Active().flags, k)
    {
      SetIsFlagwise(m.Active(), raw, mode, k);
    }
  }

  // ----- push and pop ---------------------------------------------------------------------

  function Pushes(lists: seq<seq<byte>>): seq<byte>
    decreases |lists|
  {
    if lists == [] then [] else Pushes(lists[..|lists| - 1]) + Push(lists[|lists| - 1])
  }

  function Raws(lists: seq<seq<byte>>): (r: seq<u16>)
    ensures |r| == |lists|
    decreases |lists|
  {
    if lists == [] then [] else Raws(lists[..|lists| - 1]) + [Value(lists[|lists| - 1], 0) as u16]
  }

  predicate AllCarried(lists: seq<seq<byte>>) {
    forall i :: 0 <= i < |lists| ==> Carried(lists[i])
  }

  lemma PushScans(m: Model, params: seq<byte>, t: seq<byte>)
    requires Carried(params)
    ensures Scan(m, Push(params) + t) ==
      Keep(Push(params), Scan(m.WithActive(m.Active().Push(Value(params, 0) as u16)), t))
  {
    NotAnswered(GREATER, params, LOWER_U);
    OthersPassThrough(m, [GREATER], params, LOWER_U, t);
    hide Scan, Refused, Value, NamesScreenMode;
  }

  lemma {:induction false} PushesScan(m: Model, lists: seq<seq<byte>>, t: seq<byte>)
    requires AllCarried(lists)
    ensures Scan(m, Pushes(lists) + t) ==
      Keep(Pushes(lists), Scan(m.WithActive(PushAll(m.Active(), Raws(lists))), t))
    decreases |lists|
  {
    hide Scan, Carried, Push, Screen.Push, Value;
    if lists == [] {
      assert [] + t == t;
      assert m.WithActive(m.Active()) == m;
      assert Keep([], Scan(m, t)) == Scan(m, t);
    } else {
      var before, last := lists[..|lists| - 1], lists[|lists| - 1];
      assert forall i :: 0 <= i < |before| ==> before[i] == lists[i];
      assert Pushes(lists) + t == Pushes(before) + (Push(last) + t);
      PushesScan(m, before, Push(last) + t);
      var half := m.WithActive(PushAll(m.Active(), Raws(before)));
      PushScans(half, last, t);
      assert Raws(lists)[..|lists| - 1] == Raws(before);
      KeepTwice(Pushes(before), Push(last), Scan(half.WithActive(half.Active().Push(Value(last, 0) as u16)), t));
    }
  }

  lemma PoppedFlags(s: Screen, raws: seq<u16>, count: nat)
    requires s.Valid() && |raws| == Max(count, 1)
    ensures PushAll(s, raws).Pop(count).flags == if |raws| <= STACK_LIMIT then s.flags else 0
  {
    PopUndoesPushes(s, raws);
    PopOfZero(PushAll(s, raws));
    hide PushAll, Newest;
  }

  lemma PopOfZero(s: Screen)
    ensures s.Pop(0) == s.Pop(1)
  {
  }

  lemma PopThenAsk(m: Model, count: seq<byte>)
    requires Carried(count)
    ensures Scan(m, PopBytes(count) + ASK) ==
      Scanned(PopBytes(count), Says(m.Active().Pop(Value(count, 0)).flags as nat), 1,
              m.WithActive(m.Active().Pop(Value(count, 0))))
  {
    ChangeThenAsk(m, LESS, count, LOWER_U);
    hide Scan, Says, Refused, Value, Screen.Pop;
  }

  /** Pushes, one pop, and the query. A pop with no number, or zero, counts as one: where
      the count is the number of pushes, the answer is the flags from before them, or zero
      when the stack cannot hold that many. */
  lemma PopIsSeen(m: Model, lists: seq<seq<byte>>, count: seq<byte>)
    requires m.Valid() && AllCarried(lists) && Carried(count)
    requires |lists| == Max(Value(count, 0), 1)
    ensures var s := Pushes(lists) + PopBytes(count);
      var r := Scan(m, s + ASK);
      && r.kept == s
      && r.responses == Says(if |lists| <= STACK_LIMIT then m.Active().flags as nat else 0)
  {
    hide Scan, Says, Refused, Pushes, PopBytes, Raws, PushAll, Carried, AllCarried, Value, Screen.Pop, Screen.Valid;
    var pushed := m.WithActive(PushAll(m.Active(), Raws(lists)));
    assert Pushes(lists) + PopBytes(count) + ASK == Pushes(lists) + (PopBytes(count) + ASK);
    PushesScan(m, lists, PopBytes(count) + ASK);
    PopThenAsk(pushed, count);
    PoppedFlags(m.Active(), Raws(lists), Value(count, 0));
  }

  /** A pop past the bottom clears. */
  lemma EmptyPopIsSeen(m: Model, count: seq<byte>)
    requires m.Active().stack == [] && Carried(count)
    ensures var r := Scan(m, PopBytes(count) + ASK);
      r.kept == PopBytes(count) && r.responses == Says(0) && r.model.Active() == FRESH_SCREEN
  {
    ChangeThenAsk(m, LESS, count, LOWER_U);
    hide Scan, Says, Value, Refused;
  }

  // ----- the two screens ------------------------------------------------------------------

  /** The screen modes select which screen's flags are reported; other modes do not. */
  lemma SwitchIsSeen(m: Model, params: seq<byte>, on: bool)
    requires Carried(params)
    ensures var s := Csi([QUESTION], params, if on then LOWER_H else LOWER_L);
      var r := Scan(m, s + ASK);
      && r.kept == s && r.model.normal == m.normal && r.model.alternate == m.alternate
      && r.responses == Says(
           (if !NamesScreenMode(params) then m.Active() else if on then m.alternate else m.normal).flags as nat)
  {
    hide Scan, Says, Value, Refused, NamesScreenMode;
    ChangeThenAsk(m, QUESTION, params, if on then LOWER_H else LOWER_L);
  }

  /** A full reset forgets both screens. */
  lemma ResetIsSeen(m: Model)
    ensures Scan(m, [ESC, LOWER_C] + ASK) == Scanned([ESC, LOWER_C], Says(0), 1, FRESH_MODEL)
  {
    var s: seq<byte> := [ESC, LOWER_C];
    assert (s + ASK)[..2] == s && (s + ASK)[2..] == ASK;
    PassedOver(m, s, ASK, FullReset);
    AskIsAnswered(FRESH_MODEL);
    hide Scan, Says;
    assert s + [] == s;
  }
}
