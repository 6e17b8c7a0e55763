/** The kitty keyboard model of the capability proxy: one bounded stack of saved
    flags per screen, and which of the two screens is active. */
module Kitty {
  import opened Bytes

  const STACK_LIMIT: nat := 16
  const KNOWN_MASK: bv16 := 0x1f

  /** The known flags of a parameter value. */
  function Known(raw: u16): (r: bv16)
    ensures r <= KNOWN_MASK
  {
    raw as bv16 & KNOWN_MASK
  }

  function Union(a: bv16, b: bv16): (r: bv16)
    ensures a <= KNOWN_MASK && b <= KNOWN_MASK ==> r <= KNOWN_MASK
  {
    a | b
  }

  function Without(a: bv16, b: bv16): (r: bv16)
    ensures a <= KNOWN_MASK ==> r <= KNOWN_MASK
  {
    a & !b
  }

  /** One screen: the flags in force and the saved ones, oldest first. */
  datatype Screen = Screen(flags: bv16, stack: seq<bv16>) {
    predicate Valid() {
      && |stack| <= STACK_LIMIT
      && flags <= KNOWN_MASK
      && forall i :: 0 <= i < |stack| ==> stack[i] <= KNOWN_MASK
    }

    function Push(raw: u16): Screen {
      var kept := if |stack| >= STACK_LIMIT then stack[1..] else stack;
      Screen(Known(raw), kept + [flags])
    }

    /** Mode 1 assigns, 2 adds, 3 removes; any other mode is ignored. */
    function Assign(raw: u16, mode: u16): Screen {
      var given := Known(raw);
      if mode == 1 then this.(flags := given)
      else if mode == 2 then this.(flags := Union(flags, given))
      else if mode == 3 then this.(flags := Without(flags, given))
      else this
    }

    /** A count of zero pops one entry; a count past the bottom clears. */
    function Pop(count: nat): Screen {
      var n := if count == 0 then 1 else count;
      if n > |stack| then FRESH_SCREEN
      else Screen(stack[|stack| - n], stack[..|stack| - n])
    }
  }

  const FRESH_SCREEN := Screen(0, [])

  datatype Model = Model(normal: Screen, alternate: Screen, altActive: bool) {
    predicate Valid() { normal.Valid() && alternate.Valid() }

    function Active(): Screen { if altActive then alternate else normal }

    function WithActive(screen: Screen): Model {
      if altActive then this.(alternate := screen) else this.(normal := screen)
    }
  }

  const FRESH_MODEL := Model(FRESH_SCREEN, FRESH_SCREEN, false)

  /** What a sequence that passes through does to the model. */
  datatype Effect =
    | Nothing
    | PushFlags(raw: u16)
    | SetFlags(raw: u16, mode: u16)
    | PopFlags(count: u16)
    | SelectScreen(alt: bool)
    | FullReset

  function Apply(m: Model, e: Effect): Model {
    match e
    case Nothing => m
    case PushFlags(raw) => m.WithActive(m.Active().Push(raw))
    case SetFlags(raw, mode) => m.WithActive(m.Active().Assign(raw, mode))
    case PopFlags(count) => m.WithActive(m.Active().Pop(count as nat))
    case SelectScreen(alt) => m.(altActive := alt)
    case FullReset => FRESH_MODEL
  }

  function Run(m: Model, effects: seq<Effect>): Model
    decreases |effects|
  {
    if effects == [] then m else Run(Apply(m, effects[0]), effects[1..])
  }

  /** The five flags, one bit each. */
  function Bit(k: nat): bv16
    requires k < 5
  {
    if k == 0 then 1 else if k == 1 then 2 else if k == 2 then 4 else if k == 3 then 8 else 16
  }

  predicate Has(flags: bv16, k: nat)
    requires k < 5
  {
    Meets(flags, Bit(k))
  }

  predicate Meets(flags: bv16, mask: bv16) {
    flags & mask != 0
  }

  /** Flag by flag: assigning leaves the given ones, adding the union, removing what
      was not given; another mode leaves everything, and no mode touches the stack. */
  lemma SetIsFlagwise(s: Screen, raw: u16, mode: u16, k: nat)
    requires k < 5
    ensures var r, given := s.Assign(raw, mode), Has(raw as bv16, k);
      && r.stack == s.stack
      && (Has(r.flags, k) <==>
            if mode == 1 then given
            else if mode == 2 then Has(s.flags, k) || given
            else if mode == 3 then Has(s.flags, k) && !given
            else Has(s.flags, k))
  {
    hide Known, Union, Without, Has, Meets, Bit;
    KnownHas(raw, k);
    UnionHas(s.flags, Known(raw), k);
    WithoutHas(s.flags, Known(raw), k);
  }

  lemma KnownHas(raw: u16, k: nat)
    requires k < 5
    ensures Has(Known(raw), k) <==> Has(raw as bv16, k)
  {
    KnownBit(raw, Bit(k));
    hide Bit, Meets, Known;
  }

  lemma UnionHas(a: bv16, b: bv16, k: nat)
    requires k < 5
    ensures Has(Union(a, b), k) <==> Has(a, k) || Has(b, k)
  {
    UnionBit(a, b, Bit(k));
    hide Bit, Meets, Union;
  }

  lemma WithoutHas(a: bv16, b: bv16, k: nat)
    requires k < 5
    ensures Has(Without(a, b), k) <==> Has(a, k) && !Has(b, k)
  {
    WithoutBit(a, b, Bit(k));
    hide Bit, Meets, Without;
  }

  predicate OneBit(b: bv16) {
    b == 1 || b == 2 || b == 4 || b == 8 || b == 16
  }

  lemma KnownBit(raw: u16, b: bv16)
    requires OneBit(b)
    ensures Meets(Known(raw), b) <==> Meets(raw as bv16, b)
  {
  }

  lemma UnionBit(x: bv16, y: bv16, b: bv16)
    ensures Meets(Union(x, y), b) <==> Meets(x, b) || Meets(y, b)
  {
    hide Meets, Union;
    if Meets(Union(x, y), b) {
      FromUnion(x, y, b);
    } else if Meets(x, b) {
      LeftOfUnion(x, y, b);
    } else if Meets(y, b) {
      RightOfUnion(x, y, b);
    }
  }

  lemma FromUnion(x: bv16, y: bv16, b: bv16)
    requires Meets(Union(x, y), b)
    ensures Meets(x, b) || Meets(y, b)
  {
  }

  lemma LeftOfUnion(x: bv16, y: bv16, b: bv16)
    requires Meets(x, b)
    ensures Meets(Union(x, y), b)
  {
  }

  lemma RightOfUnion(x: bv16, y: bv16, b: bv16)
    requires Meets(y, b)
    ensures Meets(Union(x, y), b)
  {
  }

  lemma WithoutBit(x: bv16, y: bv16, b: bv16)
    requires OneBit(b)
    ensures Meets(Without(x, y), b) <==> Meets(x, b) && !Meets(y, b)
  {
    hide Meets, Without, OneBit;
    if Meets(Without(x, y), b) {
      FromWithout(x, y, b);
    } else if Meets(x, b) && !Meets(y, b) {
      StaysWithout(x, y, b);
    }
  }

  lemma FromWithout(x: bv16, y: bv16, b: bv16)
    requires OneBit(b) && Meets(Without(x, y), b)
    ensures Meets(x, b) && !Meets(y, b)
  {
  }

  lemma StaysWithout(x: bv16, y: bv16, b: bv16)
    requires Meets(x, b) && !Meets(y, b)
    ensures Meets(Without(x, y), b)
  {
  }

  lemma PushKeepsValid(s: Screen, raw: u16)
    requires s.Valid()
    ensures s.Push(raw).Valid()
  {
    var r := s.Push(raw);
    forall i | 0 <= i < |r.stack| ensures r.stack[i] <= KNOWN_MASK {
      assert r.stack[i] == s.flags || r.stack[i] in s.stack;
    }
  }

  lemma ApplyKeepsValid(m: Model, e: Effect)
    requires m.Valid()
    ensures Apply(m, e).Valid()
  {
    if e.PushFlags? { PushKeepsValid(m.Active(), e.raw); }
  }

  /** In every reachable model both stacks hold at most 16 entries and every
      value is one of the known flag combinations. */
  lemma {:induction false} ReachableModelsAreValid(effects: seq<Effect>)
    ensures Run(FRESH_MODEL, effects).Valid()
  {
    RunKeepsValid(FRESH_MODEL, effects);
  }

  lemma {:induction false} RunKeepsValid(m: Model, effects: seq<Effect>)
    requires m.Valid()
    ensures Run(m, effects).Valid()
    decreases |effects|
  {
    if effects != [] {
      ApplyKeepsValid(m, effects[0]);
      RunKeepsValid(Apply(m, effects[0]), effects[1..]);
    }
  }

  /** Keyboard operations alone never touch the screen that is not active. */
  lemma {:induction false} OtherScreenUntouched(m: Model, effects: seq<Effect>)
    requires forall i :: 0 <= i < |effects| ==> !effects[i].SelectScreen? && !effects[i].FullReset?
    ensures var r := Run(m, effects);
      && r.altActive == m.altActive
      && (m.altActive ==> r.normal == m.normal)
      && (!m.altActive ==> r.alternate == m.alternate)
    decreases |effects|
  {
    if effects != [] {
      assert !effects[0].SelectScreen? && !effects[0].FullReset?;
      OtherScreenUntouched(Apply(m, effects[0]), effects[1..]);
    }
  }

  // ----- pushes and pops -------------------------------------------------------

  function PushAll(s: Screen, raws: seq<u16>): Screen {
    if raws == [] then s else PushAll(s, raws[..|raws| - 1]).Push(raws[|raws| - 1])
  }

  /** The flags in force before each push: what an unbounded stack would hold. */
  function Saved(s: Screen, raws: seq<u16>): (r: seq<bv16>)
    ensures |r| == |raws|
  {
    if raws == [] then []
    else Saved(s, raws[..|raws| - 1]) + [PushAll(s, raws[..|raws| - 1]).flags]
  }

  lemma {:induction false} PushesKeepNewest(s: Screen, raws: seq<u16>)
    requires |s.stack| <= STACK_LIMIT
    ensures PushAll(s, raws).stack == Newest(s.stack + Saved(s, raws), STACK_LIMIT)
    decreases |raws|
  {
    if raws == [] {
      assert s.stack + Saved(s, raws) == s.stack;
    } else {
      var before := raws[..|raws| - 1];
      PushesKeepNewest(s, before);
      assert s.stack + Saved(s, raws) == s.stack + Saved(s, before) + [PushAll(s, before).flags];
    }
  }

  lemma {:induction false} FirstSavedIsInitial(s: Screen, raws: seq<u16>)
    requires raws != []
    ensures Saved(s, raws)[0] == s.flags
    decreases |raws|
  {
    if |raws| > 1 {
      FirstSavedIsInitial(s, raws[..|raws| - 1]);
    } else {
      assert raws[..0] == [];
    }
  }

  /** `n` pushes followed by a pop of `n` restore the flags whenever the bounded
      stack could hold all `n`, and clear the screen otherwise; the whole screen
      comes back exactly when nothing was pushed off the bottom. */
  lemma PopUndoesPushes(s: Screen, raws: seq<u16>)
    requires |s.stack| <= STACK_LIMIT && raws != []
    ensures var r := PushAll(s, raws).Pop(|raws|); var n := |raws|;
      && (n <= STACK_LIMIT ==> r.flags == s.flags && r.stack == Newest(s.stack, STACK_LIMIT - n))
      && (n > STACK_LIMIT ==> r == FRESH_SCREEN)
      && (n <= STACK_LIMIT ==> (r == s <==> |s.stack| + n <= STACK_LIMIT))
  {
    PushesKeepNewest(s, raws);
    FirstSavedIsInitial(s, raws);
    NewestOfTwo(s.stack, Saved(s, raws));
    hide PushAll, Saved, Known;
  }

  /** Taking the newer part off the newest entries leaves the newest older ones. */
  lemma NewestOfTwo(older: seq<bv16>, newer: seq<bv16>)
    requires |older| <= STACK_LIMIT
    ensures var kept := Newest(older + newer, STACK_LIMIT);
      0 < |newer| <= STACK_LIMIT ==>
        && |kept| >= |newer| && kept[|kept| - |newer|] == newer[0]
        && kept[..|kept| - |newer|] == Newest(older, STACK_LIMIT - |newer|)
  {
    var all, kept := older + newer, Newest(older + newer, STACK_LIMIT);
    if 0 < |newer| <= STACK_LIMIT {
      assert kept == all[|all| - |kept|..];
      assert kept[|kept| - |newer|] == all[|older|];
      assert kept[..|kept| - |newer|] == older[|all| - |kept|..];
    }
  }

  // ----- the bound against an unbounded stack ---------------------------------

  /** A push onto a stack with no limit. */
  function PushUnbounded(s: Screen, raw: u16): Screen {
    Screen(Known(raw), s.stack + [s.flags])
  }

  function ApplyUnbounded(s: Screen, e: Effect): Screen {
    match e
    case PushFlags(raw) => PushUnbounded(s, raw)
    case SetFlags(raw, mode) => s.Assign(raw, mode)
    case PopFlags(count) => s.Pop(count as nat)
    case FullReset => FRESH_SCREEN
    case _ => s
  }

  function ApplyBounded(s: Screen, e: Effect): Screen {
    match e
    case PushFlags(raw) => s.Push(raw)
    case _ => ApplyUnbounded(s, e)
  }

  function RunBounded(s: Screen, effects: seq<Effect>): Screen
    decreases |effects|
  {
    if effects == [] then s else RunBounded(ApplyBounded(s, effects[0]), effects[1..])
  }

  function RunUnbounded(s: Screen, effects: seq<Effect>): Screen
    decreases |effects|
  {
    if effects == [] then s else RunUnbounded(ApplyUnbounded(s, effects[0]), effects[1..])
  }

  /** No pop of the run asks for more than the bounded stack still holds,
      unless it would run past the bottom of the unbounded one as well. */
  predicate PopsReachable(bounded: Screen, unbounded: Screen, effects: seq<Effect>)
    decreases |effects|
  {
    effects == [] || (
      && (effects[0].PopFlags? ==>
            var n := if effects[0].count == 0 then 1 else effects[0].count as nat;
            n <= |bounded.stack| || n > |unbounded.stack|)
      && PopsReachable(ApplyBounded(bounded, effects[0]), ApplyUnbounded(unbounded, effects[0]), effects[1..]))
  }

  predicate IsSuffix(a: seq<bv16>, b: seq<bv16>) {
    |a| <= |b| && a == b[|b| - |a|..]
  }

  lemma StepKeepsWindow(bounded: Screen, unbounded: Screen, e: Effect)
    requires bounded.flags == unbounded.flags && IsSuffix(bounded.stack, unbounded.stack)
    requires PopsReachable(bounded, unbounded, [e])
    ensures var b, u := ApplyBounded(bounded, e), ApplyUnbounded(unbounded, e);
      b.flags == u.flags && IsSuffix(b.stack, u.stack)
  {
    hide Known, Union, Without;
    match e
    case PushFlags(raw) =>
      hide PopsReachable;
      PushKeepsSuffix(bounded.stack, unbounded.stack, bounded.flags);
    case PopFlags(count) =>
      PopKeepsWindow(bounded, unbounded, count);
    case _ =>
      hide PopsReachable;
  }

  lemma PopKeepsWindow(bounded: Screen, unbounded: Screen, count: u16)
    requires bounded.flags == unbounded.flags && IsSuffix(bounded.stack, unbounded.stack)
    requires var n := if count == 0 then 1 else count as nat; n <= |bounded.stack| || n > |unbounded.stack|
    ensures var b, u := bounded.Pop(count as nat), unbounded.Pop(count as nat);
      b.flags == u.flags && IsSuffix(b.stack, u.stack)
  {
    var n := if count == 0 then 1 else count as nat;
    if n <= |bounded.stack| { PopKeepsSuffix(bounded.stack, unbounded.stack, n); }
  }

  lemma PushKeepsSuffix(a: seq<bv16>, b: seq<bv16>, x: bv16)
    requires IsSuffix(a, b)
    ensures IsSuffix((if |a| >= STACK_LIMIT then a[1..] else a) + [x], b + [x])
  {
    var c := (if |a| >= STACK_LIMIT then a[1..] else a) + [x];
    assert (b + [x])[|b| + 1 - |c|..] == c;
  }

  lemma PopKeepsSuffix(a: seq<bv16>, b: seq<bv16>, n: nat)
    requires IsSuffix(a, b) && 1 <= n <= |a|
    ensures a[|a| - n] == b[|b| - n] && IsSuffix(a[..|a| - n], b[..|b| - n])
  {
    assert b[..|b| - n][|b| - |a|..] == a[..|a| - n];
  }

  /** The bounded stack is an exact window on the unbounded one: along any run
      whose pops stay inside what the bound retained, the flags agree and the
      bounded entries are the newest unbounded ones. */
  lemma {:induction false} BoundedIsWindow(bounded: Screen, unbounded: Screen, effects: seq<Effect>)
    requires bounded.flags == unbounded.flags && IsSuffix(bounded.stack, unbounded.stack)
    requires PopsReachable(bounded, unbounded, effects)
    ensures var b, u := RunBounded(bounded, effects), RunUnbounded(unbounded, effects);
      b.flags == u.flags && IsSuffix(b.stack, u.stack)
    decreases |effects|
  {
    if effects != [] {
      StepKeepsWindow(bounded, unbounded, effects[0]);
      BoundedIsWindow(ApplyBounded(bounded, effects[0]), ApplyUnbounded(unbounded, effects[0]), effects[1..]);
    }
  }

  /** The depth an unbounded stack reaches never exceeds the limit. */
  predicate StaysShallow(s: Screen, effects: seq<Effect>)
    decreases |effects|
  {
    |s.stack| <= STACK_LIMIT && (effects == [] || StaysShallow(ApplyUnbounded(s, effects[0]), effects[1..]))
  }

  lemma {:induction false} ShallowRunsAgree(s: Screen, effects: seq<Effect>)
    requires StaysShallow(s, effects)
    ensures RunBounded(s, effects) == RunUnbounded(s, effects)
    decreases |effects|
  {
    if effects != [] {
      assert |ApplyUnbounded(s, effects[0]).stack| <= STACK_LIMIT;
      ShallowRunsAgree(ApplyUnbounded(s, effects[0]), effects[1..]);
    }
  }

  /** Between switches the active screen of the model goes through exactly the bounded
      run, and the other screen stays as it is. */
  lemma {:induction false} ModelRunsOnActive(m: Model, effects: seq<Effect>)
    requires forall i :: 0 <= i < |effects| ==> !effects[i].SelectScreen? && !effects[i].FullReset?
    ensures Run(m, effects) == m.WithActive(RunBounded(m.Active(), effects))
    decreases |effects|
  {
    if effects != [] {
      assert !effects[0].SelectScreen? && !effects[0].FullReset?;
      ModelRunsOnActive(Apply(m, effects[0]), effects[1..]);
      assert Apply(m, effects[0]) == m.WithActive(ApplyBounded(m.Active(), effects[0]));
      hide ApplyBounded, Apply;
    }
  }
}
