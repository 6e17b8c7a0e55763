/** The control-string scan both directions share (section 5.6 of ECMA-48):
    a body ended by BEL or by ST (`ESC \`), looked for through a fixed index. */
module ControlStrings {
  import opened Bytes

  const MAX_SEQUENCE_LEN: nat := 256

  datatype ControlString = Unterminated | Terminated(bodyEnd: nat, len: nat)

  predicate IsTerminator(s: seq<byte>, i: nat)
    requires i < |s|
  {
    s[i] == BEL || (s[i] == ESC && i + 1 < |s| && s[i + 1] == BACKSLASH)
  }

  /** Where the scan from `from` stops: at a terminator, at the end, or at the bound. */
  function StopIndex(s: seq<byte>, from: nat): (r: nat)
    requires from <= |s|
    ensures from <= r <= |s|
    ensures r == from || r <= MAX_SEQUENCE_LEN + 1
    ensures forall i :: from <= i < r ==> !IsTerminator(s, i)
    ensures r < |s| && r <= MAX_SEQUENCE_LEN ==> IsTerminator(s, r)
    decreases |s| - from
  {
    if from < |s| && from <= MAX_SEQUENCE_LEN && !IsTerminator(s, from) then
      StopIndex(s, from + 1)
    else from
  }

  function Find(s: seq<byte>, body: nat): (r: ControlString)
    requires body <= |s|
    ensures r.Terminated? ==>
      && body <= r.bodyEnd < r.len <= |s| && r.bodyEnd <= MAX_SEQUENCE_LEN
      && IsTerminator(s, r.bodyEnd)
      && r.len == r.bodyEnd + (if s[r.bodyEnd] == BEL then 1 else 2)
      && forall i :: body <= i < r.bodyEnd ==> !IsTerminator(s, i)
    ensures r.Unterminated? ==> forall i :: body <= i < |s| && i <= MAX_SEQUENCE_LEN ==> !IsTerminator(s, i)
  {
    var e := StopIndex(s, body);
    if e < |s| && e <= MAX_SEQUENCE_LEN then
      Terminated(e, if s[e] == BEL then e + 1 else e + 2)
    else Unterminated
  }

  method StringSequence(s: seq<byte>, body: nat) returns (r: ControlString)
    requires body <= |s|
    ensures r == Find(s, body)
  {
    var i := body;
    while i < |s| && i <= MAX_SEQUENCE_LEN
      invariant body <= i <= |s|
      invariant StopIndex(s, i) == StopIndex(s, body)
    {
      if s[i] == BEL {
        return Terminated(i, i + 1);
      }
      if s[i] == ESC && i + 1 < |s| && s[i + 1] == BACKSLASH {
        return Terminated(i, i + 2);
      }
      i := i + 1;
    }
    return Unterminated;
  }

  lemma {:induction false} StopIndexIs(s: seq<byte>, from: nat, r: nat)
    requires from <= r < |s| && r <= MAX_SEQUENCE_LEN && IsTerminator(s, r)
    requires forall i :: from <= i < r ==> !IsTerminator(s, i)
    ensures StopIndex(s, from) == r
    decreases r - from
  {
    if from < r { StopIndexIs(s, from + 1, r); }
  }

  lemma FindIs(s: seq<byte>, body: nat, e: nat)
    requires body <= e < |s| && e <= MAX_SEQUENCE_LEN && IsTerminator(s, e)
    requires forall i :: body <= i < e ==> !IsTerminator(s, i)
    ensures Find(s, body) == Terminated(e, if s[e] == BEL then e + 1 else e + 2)
  {
    StopIndexIs(s, body, e);
  }

  /** A terminated string is recognised from its own bytes, whatever follows. */
  lemma TerminatedIsStable(s: seq<byte>, body: nat, t: seq<byte>)
    requires body <= |s|
    requires Find(s, body).Terminated?
    ensures Find(s[..Find(s, body).len] + t, body) == Find(s, body)
  {
    var f := Find(s, body);
    var u := s[..f.len] + t;
    assert forall i :: 0 <= i < f.len ==> u[i] == s[i];
    assert forall i :: body <= i < f.bodyEnd ==> i + 1 < f.len && IsTerminator(u, i) == IsTerminator(s, i);
    FindIs(u, body, f.bodyEnd);
  }

  /** How many bytes settle the search: the string itself, or enough of them to
      show that no terminator starts at or before the bound; `None` when the end
      of the input could still be hiding one. */
  function DecidedBy(s: seq<byte>, body: nat): Option<nat>
    requires body <= |s|
  {
    var f := Find(s, body);
    if f.Terminated? then Some(f.len)
    else if |s| <= MAX_SEQUENCE_LEN then None
    else if s[MAX_SEQUENCE_LEN] != ESC then Some(MAX_SEQUENCE_LEN + 1)
    else if |s| > MAX_SEQUENCE_LEN + 1 then Some(MAX_SEQUENCE_LEN + 2)
    else None
  }

  lemma DecidedIsStable(s: seq<byte>, body: nat, t: seq<byte>)
    requires body <= MAX_SEQUENCE_LEN && body <= |s| && DecidedBy(s, body).Some?
    ensures 0 < DecidedBy(s, body).value <= |s| && body <= DecidedBy(s, body).value
    ensures var u := s[..DecidedBy(s, body).value] + t;
      Find(u, body) == Find(s, body) && DecidedBy(u, body) == DecidedBy(s, body)
  {
    var f := Find(s, body);
    var u := s[..DecidedBy(s, body).value] + t;
    if f.Terminated? {
      TerminatedIsStable(s, body, t);
    } else {
      var w := DecidedBy(s, body).value;
      assert forall i :: 0 <= i < w ==> u[i] == s[i];
      forall i | body <= i < |u| && i <= MAX_SEQUENCE_LEN
        ensures !IsTerminator(u, i)
      {
        assert !IsTerminator(s, i);
      }
    }
  }
}
