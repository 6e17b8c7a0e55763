/** Bytes, the ASCII constants both byte scanners use, and decimal notation. */
module Bytes {

  newtype byte = x: int | 0 <= x < 0x100
  newtype u16 = x: int | 0 <= x < 0x1_0000
  newtype u32 = x: int | 0 <= x < 0x1_0000_0000

  const U16_MAX: nat := 0xffff
  const U32_LIMIT: nat := 0x1_0000_0000

  const BEL: byte := 0x07
  const ESC: byte := 0x1b
  const STAR: byte := 0x2a
  const SLASH: byte := 0x2f
  const DIGIT_0: byte := 0x30
  const DIGIT_9: byte := 0x39
  const COLON: byte := 0x3a
  const SEMICOLON: byte := 0x3b
  const LESS: byte := 0x3c
  const EQUALS: byte := 0x3d
  const GREATER: byte := 0x3e
  const QUESTION: byte := 0x3f
  const LEFT_BRACKET: byte := 0x5b
  const BACKSLASH: byte := 0x5c
  const RIGHT_BRACKET: byte := 0x5d
  const UPPER_P: byte := 0x50
  const LOWER_C: byte := 0x63
  const LOWER_H: byte := 0x68
  const LOWER_L: byte := 0x6c
  const LOWER_N: byte := 0x6e
  const LOWER_U: byte := 0x75
  const LEFT_BRACE: byte := 0x7b
  const HASH: byte := 0x23

  datatype Option<+T> = None | Some(value: T)

  /** The bytes of an ASCII literal. */
  function B(s: string): (r: seq<byte>)
    requires forall i :: 0 <= i < |s| ==> s[i] < '\U{0100}'
    ensures |r| == |s|
    ensures forall i :: 0 <= i < |s| ==> r[i] as int == s[i] as int
  {
    seq(|s|, i requires 0 <= i < |s| => s[i] as int as byte)
  }

  function Max(a: nat, b: nat): nat {
    if a < b then b else a
  }

  function Min(a: nat, b: nat): nat {
    if a <= b then a else b
  }

  /** The newest `limit` elements of a history, oldest first. */
  function Newest<T>(s: seq<T>, limit: nat): (r: seq<T>)
    ensures |r| == Min(|s|, limit)
  {
    if |s| <= limit then s else s[|s| - limit..]
  }

  /** Dropping `a` elements of a suffix and `b` of what follows it, the suffix first. */
  lemma Slide<T>(history: seq<T>, k: nat, more: seq<T>, a: nat, b: nat)
    requires k + a <= |history| && b <= |more| && (b > 0 ==> k + a == |history|)
    ensures history[k..][a..] + more[b..] == (history + more)[k + a + b..]
  {
    if b > 0 {
      assert history[k..][a..] == [] && (history + more)[|history| + b..] == more[b..];
    } else {
      assert history[k..][a..] == history[k + a..] && more[0..] == more;
    }
  }

  lemma SubsetIsSmaller<T>(a: set<T>, b: set<T>)
    requires a <= b
    ensures |a| <= |b|
    decreases b
  {
    if a != b {
      var x :| x in b && x !in a;
      SubsetIsSmaller(a, b - {x});
    }
  }

  predicate IsDigit(b: byte) {
    DIGIT_0 <= b <= DIGIT_9
  }

  predicate AllDigits(s: seq<byte>) {
    forall i :: 0 <= i < |s| ==> IsDigit(s[i])
  }

  predicate IsHexDigit(b: byte) {
    IsDigit(b) || 0x41 <= b <= 0x46 || 0x61 <= b <= 0x66
  }

  predicate StartsWith(s: seq<byte>, prefix: seq<byte>) {
    |prefix| <= |s| && s[..|prefix|] == prefix
  }

  /** The number a run of decimal digits denotes. */
  function Dec(digits: seq<byte>): nat
    requires AllDigits(digits)
  {
    if digits == [] then 0
    else Dec(digits[..|digits| - 1]) * 10 + (digits[|digits| - 1] - DIGIT_0) as nat
  }

  /** The shortest decimal notation of `n`. */
  function Decimal(n: nat): (r: seq<byte>)
    ensures r != [] && AllDigits(r)
  {
    if n < 10 then [DIGIT_0 + n as byte]
    else Decimal(n / 10) + [DIGIT_0 + (n % 10) as byte]
  }

  lemma {:induction false} DecimalRoundTrip(n: nat)
    ensures Dec(Decimal(n)) == n
  {
    if n < 10 {
      assert Decimal(n)[..0] == [];
      assert Dec(Decimal(n)[..0]) == 0;
    } else {
      DecimalRoundTrip(n / 10);
      assert Decimal(n)[..|Decimal(n)| - 1] == Decimal(n / 10);
    }
  }

  function Pow10(d: nat): nat {
    if d == 0 then 1 else 10 * Pow10(d - 1)
  }

  lemma {:induction false} DecimalLength(n: nat, d: nat)
    requires 1 <= d && n < Pow10(d)
    ensures |Decimal(n)| <= d
  {
    if 10 <= n {
      assert d > 1;
      DecimalLength(n / 10, d - 1);
    }
  }

  /** Dropping trailing digits never makes the number larger. */
  lemma {:induction false} DecPrefixMonotone(digits: seq<byte>, n: nat)
    requires AllDigits(digits) && n <= |digits|
    ensures Dec(digits[..n]) <= Dec(digits)
    decreases |digits|
  {
    if n < |digits| {
      var shorter := digits[..|digits| - 1];
      DecPrefixMonotone(shorter, n);
      assert shorter[..n] == digits[..n];
    } else {
      assert digits[..n] == digits;
    }
  }

  // ----- splitting -----------------------------------------------------------

  /** Index of the first separator at or after `from`, or `|s|`. */
  function FirstIn(s: seq<byte>, seps: set<byte>, from: nat): (r: nat)
    requires from <= |s|
    ensures from <= r <= |s|
    ensures forall i :: from <= i < r ==> s[i] !in seps
    ensures r < |s| ==> s[r] in seps
    decreases |s| - from
  {
    if from == |s| || s[from] in seps then from else FirstIn(s, seps, from + 1)
  }

  /** The groups from index `from` on: split at every separator, so an input
      without one is a single group and a trailing separator opens an empty one. */
  function SplitFrom(s: seq<byte>, seps: set<byte>, from: nat): (r: seq<seq<byte>>)
    requires from <= |s|
    ensures |r| >= 1
    decreases |s| - from
  {
    var i := FirstIn(s, seps, from);
    [s[from..i]] + if i == |s| then [] else SplitFrom(s, seps, i + 1)
  }

  function Split(s: seq<byte>, seps: set<byte>): (r: seq<seq<byte>>) {
    SplitFrom(s, seps, 0)
  }

  function TotalLength(groups: seq<seq<byte>>): nat {
    if groups == [] then 0 else |groups[0]| + TotalLength(groups[1..])
  }

  predicate Free(group: seq<byte>, seps: set<byte>) {
    forall i :: 0 <= i < |group| ==> group[i] !in seps
  }

  /** No group holds a separator, and the groups' bytes plus one separator
      between neighbours account for the whole input. */
  lemma {:induction false} SplitAccounts(s: seq<byte>, seps: set<byte>, from: nat)
    requires from <= |s|
    ensures var groups := SplitFrom(s, seps, from);
      && (forall j :: 0 <= j < |groups| ==> Free(groups[j], seps))
      && TotalLength(groups) + |groups| - 1 == |s| - from
    decreases |s| - from
  {
    var i := FirstIn(s, seps, from);
    var groups := SplitFrom(s, seps, from);
    var rest := if i == |s| then [] else SplitFrom(s, seps, i + 1);
    assert groups == [s[from..i]] + rest;
    assert groups[0] == s[from..i] && groups[1..] == rest;
    assert Free(s[from..i], seps);
    if i < |s| {
      SplitAccounts(s, seps, i + 1);
    }
  }

  // ----- copying around removed spans -------------------------------------------

  /** The output collected so far: what was copied out, and the run since. */
  function Collected(out: Option<seq<byte>>, chunk: seq<byte>, copiedUpto: nat, i: nat): seq<byte>
    requires copiedUpto <= i <= |chunk|
  {
    (if out.None? then [] else out.value) + chunk[copiedUpto..i]
  }

  lemma CollectMore(out: Option<seq<byte>>, chunk: seq<byte>, copiedUpto: nat, i: nat, n: nat)
    requires copiedUpto <= i <= i + n <= |chunk|
    ensures Collected(out, chunk, copiedUpto, i) + chunk[i..][..n] == Collected(out, chunk, copiedUpto, i + n)
    ensures Collected(out, chunk, copiedUpto, i) + [] == Collected(Some(Collected(out, chunk, copiedUpto, i)), chunk, i + n, i + n)
    ensures chunk[i..][n..] == chunk[i + n..]
  {
    assert chunk[copiedUpto..i + n] == chunk[copiedUpto..i] + chunk[i..][..n];
  }

  lemma CollectEnds(out: Option<seq<byte>>, chunk: seq<byte>, copiedUpto: nat)
    requires copiedUpto <= |chunk|
    ensures Collected(None, chunk, 0, 0) == []
    ensures chunk[0..] == chunk && chunk[|chunk|..] == []
    ensures Collected(out, chunk, copiedUpto, |chunk|)
            == (if out.None? then [] else out.value) + chunk[copiedUpto..]
    ensures out.None? && copiedUpto == 0 ==> Collected(out, chunk, copiedUpto, |chunk|) == chunk
  {
  }
}
