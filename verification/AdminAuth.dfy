/** The admin plane's per-source failure backoff. Times are in milliseconds. */
module AdminAuth {
  import opened Bytes
  import opened Tracking

  const MAX_ADMIN_CREDENTIAL_BYTES: nat := 1024
  const MAX_ADMIN_FAILURE_BACKOFF: nat := 5000
  const MAX_TRACKED_ADMIN_SOURCES: nat := 256
  const ADMIN_FAILURE_MEMORY: nat := 60000
  const MAX_COUNT: nat := 0xFFFF_FFFF

  /** The record of a source: its consecutive failures. */
  type Failures = Entries<nat>

  /** `pending` are the attempts that asked, found no block, and have yet to be counted. */
  datatype State = State(failures: Failures, pending: map<nat, Source>)

  const START := State(map[], map[])

  function Pow2(n: nat): nat {
    if n == 0 then 1 else 2 * Pow2(n - 1)
  }

  /** How long the n-th consecutive failure blocks its source. */
  function Delay(n: nat, base: nat): nat
    requires n >= 1
  {
    Min(base * Pow2(Min(n - 1, 10)), MAX_ADMIN_FAILURE_BACKOFF)
  }

  /** The backoff doubles from failure to failure until it reaches its ceiling or its
      eleventh value, and stays there. */
  lemma DelayDoubles(n: nat, base: nat)
    requires n >= 1
    ensures Delay(n + 1, base) == if n <= 10 then Min(2 * Delay(n, base), MAX_ADMIN_FAILURE_BACKOFF) else Delay(n, base)
    ensures Delay(n, base) <= Delay(n + 1, base) <= MAX_ADMIN_FAILURE_BACKOFF
    ensures base >= 1 ==> Delay(n, base) >= 1
  {
    var e := Min(n - 1, 10);
    Pow2Positive(e);
    if n <= 10 {
      assert Pow2(Min(n, 10)) == 2 * Pow2(e);
      assert base * (2 * Pow2(e)) == 2 * (base * Pow2(e));
    }
    if base >= 1 { assert base * Pow2(e) >= 1; }
  }

  /** The first failure blocks for the base, the second for twice that, up to the
      ceiling. */
  lemma FirstDelays(base: nat)
    ensures Delay(1, base) == Min(base, MAX_ADMIN_FAILURE_BACKOFF)
    ensures Delay(2, base) == Min(2 * base, MAX_ADMIN_FAILURE_BACKOFF)
    ensures Delay(11, base) == Min(1024 * base, MAX_ADMIN_FAILURE_BACKOFF)
    ensures forall n :: n >= 11 ==> Delay(n, base) == Delay(11, base)
  {
    assert Pow2(0) == 1 && Pow2(1) == 2;
    assert Pow2(10) == 1024 by {
      assert Pow2(4) == 16;
      assert Pow2(7) == 8 * Pow2(4);
      assert Pow2(10) == 8 * Pow2(7);
    }
  }

  lemma {:induction false} Pow2Positive(n: nat)
    ensures Pow2(n) >= 1
  {
    if n > 0 { Pow2Positive(n - 1); }
  }

  // ----- the steps ---------------------------------------------------------------------------

  ghost function Roomy(m: Failures, source: Source, now: nat, victim: Option<Source>): Failures {
    MakeRoom(Prune(m, now, ADMIN_FAILURE_MEMORY), source, now, MAX_TRACKED_ADMIN_SOURCES, victim)
  }

  function FailuresOf(m: Failures, source: Source): nat {
    if source in m then m[source].data else 0
  }

  /** Count a failure and arm the next block. */
  function Count(m: Failures, source: Source, now: nat, base: nat): Failures {
    var n := Min(FailuresOf(m, source) + 1, MAX_COUNT);
    m[source := Entry(Some(now + Delay(n, base)), now, n)]
  }

  ghost function Record(m: Failures, source: Source, now: nat, victim: Option<Source>, base: nat): Failures {
    var roomy := Roomy(m, source, now, victim);
    if HasSlot(roomy, source, MAX_TRACKED_ADMIN_SOURCES) then Count(roomy, source, now, base) else roomy
  }

  predicate IsPending(s: State, attempt: nat, source: Source) {
    attempt in s.pending && s.pending[attempt] == source
  }

  /** Asking and counting are two steps under two locks. A blocked attempt is turned
      away and never counted; a success clears its own source. */
  ghost function Step(s: State, e: Event, base: nat): State {
    match e
    case Ask(attempt, source, at) =>
      if attempt in s.pending then s
      else if Retry(s.failures, source, at).Some? then s.(failures := Look(s.failures, source, at))
      else State(Look(s.failures, source, at), s.pending[attempt := source])
    case Fail(attempt, source, at, victim) =>
      if IsPending(s, attempt, source) then
        State(Record(s.failures, source, at, victim, base), s.pending - {attempt})
      else s
    case Succeed(source, _) => s.(failures := s.failures - {source})
  }

  ghost function Run(s: State, events: seq<Event>, base: nat): State
    decreases |events|
  {
    if events == [] then s else Step(Run(s, events[..|events| - 1], base), events[|events| - 1], base)
  }

  /** The event counts a failure: its attempt is pending and its source gets a slot. */
  ghost predicate Counts(s: State, e: Event) {
    && e.Fail? && IsPending(s, e.attempt, e.source)
    && HasSlot(Roomy(s.failures, e.source, e.at, e.victim), e.source, MAX_TRACKED_ADMIN_SOURCES)
  }

  // ----- the bound ---------------------------------------------------------------------------

  lemma RecordKeepsBound(m: Failures, source: Source, now: nat, victim: Option<Source>, base: nat)
    requires |m| <= MAX_TRACKED_ADMIN_SOURCES
    ensures |Record(m, source, now, victim, base)| <= MAX_TRACKED_ADMIN_SOURCES
  {
    KeptUnchanged(m, source, now, ADMIN_FAILURE_MEMORY, MAX_TRACKED_ADMIN_SOURCES, victim);
    var roomy := Roomy(m, source, now, victim);
    hide Prune, MakeRoom, Delay;
    if HasSlot(roomy, source, MAX_TRACKED_ADMIN_SOURCES) {
      AddWithinCap(roomy, source, Count(roomy, source, now, base)[source], MAX_TRACKED_ADMIN_SOURCES);
    }
  }

  lemma {:induction false} TrackedSourcesBounded(events: seq<Event>, base: nat)
    ensures |Run(START, events, base).failures| <= MAX_TRACKED_ADMIN_SOURCES
    decreases |events|
  {
    if events != [] {
      var s, e := Run(START, events[..|events| - 1], base), events[|events| - 1];
      TrackedSourcesBounded(events[..|events| - 1], base);
      hide Run, Record;
      match e
      case Ask(_, source, at) => SmallerKeys(s.failures, Look(s.failures, source, at));
      case Fail(_, source, at, victim) => RecordKeepsBound(s.failures, source, at, victim, base);
      case Succeed(source, _) => SmallerKeys(s.failures, s.failures - {source});
    }
  }

  // ----- arming and moving a block ---------------------------------------------------------------

  ghost predicate BlockedUntil(m: Failures, source: Source, deadline: nat, failures: nat) {
    source in m && m[source].until == Some(deadline) && m[source].data == failures
  }

  /** The record survives until it is counted again: it is blocked or not yet forgotten. */
  predicate Remembered(m: Failures, source: Source, now: nat) {
    source in m && (Blocked(m[source], now) || now - m[source].lastSeen < ADMIN_FAILURE_MEMORY)
  }

  /** A counted failure arms the block of its consecutive number: one more than what is
      on record, and the first one when nothing is remembered. */
  lemma CountedArms(s: State, e: Event, base: nat)
    requires Counts(s, e)
    ensures var n := if Remembered(s.failures, e.source, e.at) then Min(s.failures[e.source].data + 1, MAX_COUNT) else 1;
      n >= 1 && BlockedUntil(Step(s, e, base).failures, e.source, e.at + Delay(n, base), n)
  {
    RoomyRemembers(s.failures, e.source, e.at, e.victim);
    hide Delay, Roomy, Remembered;
  }

  /** A source with nothing remembered is told of the base, or the ceiling if that is
      less, as soon as its first failure is counted. */
  lemma FirstFailureBlocks(s: State, e: Event, base: nat)
    requires Counts(s, e) && base >= 1 && !Remembered(s.failures, e.source, e.at)
    ensures Retry(Step(s, e, base).failures, e.source, e.at) == Some(Min(base, MAX_ADMIN_FAILURE_BACKOFF))
  {
    CountedArms(s, e, base);
    FirstDelays(base);
    hide Step, Delay, Counts, Remembered;
  }

  lemma RoomyRemembers(m: Failures, source: Source, now: nat, victim: Option<Source>)
    ensures FailuresOf(Roomy(m, source, now, victim), source) == if Remembered(m, source, now) then m[source].data else 0
  {
    var pruned := Prune(m, now, ADMIN_FAILURE_MEMORY);
    assert source in pruned <==> Remembered(m, source, now);
  }

  /** What takes a running block off its deadline. */
  predicate Moves(s: State, e: Event, source: Source) {
    e.source == source && (e.Succeed? || (e.Fail? && IsPending(s, e.attempt, source)))
  }

  lemma StepKeepsBlock(s: State, e: Event, base: nat, source: Source, deadline: nat, failures: nat)
    requires BlockedUntil(s.failures, source, deadline, failures) && e.at < deadline && !Moves(s, e, source)
    ensures BlockedUntil(Step(s, e, base).failures, source, deadline, failures)
  {
    if e.Fail? && IsPending(s, e.attempt, e.source) {
      RecordSpares(s.failures, e.source, e.at, e.victim, base, source);
    }
    hide Record;
  }

  /** One step before its deadline leaves a block exactly as it is, unless it is a
      success of its source or counts an attempt of its source that was let through
      before the block was armed; such a count escalates the block. */
  lemma BlockMovedExactly(s: State, e: Event, base: nat, source: Source, deadline: nat, failures: nat)
    requires BlockedUntil(s.failures, source, deadline, failures) && e.at < deadline && failures < MAX_COUNT
    ensures BlockedUntil(Step(s, e, base).failures, source, deadline, failures) <==> !Moves(s, e, source)
    ensures Moves(s, e, source) && e.Fail? ==>
      Counts(s, e)
      && BlockedUntil(Step(s, e, base).failures, source, e.at + Delay(failures + 1, base), failures + 1)
  {
    if !Moves(s, e, source) {
      StepKeepsBlock(s, e, base, source, deadline, failures);
    } else if e.Fail? {
      RunningBlockHasSlot(s, e, deadline, failures);
      CountedArms(s, e, base);
    }
    hide Record, Delay, Roomy;
  }

  lemma RunningBlockHasSlot(s: State, e: Event, deadline: nat, failures: nat)
    requires e.Fail? && IsPending(s, e.attempt, e.source)
    requires BlockedUntil(s.failures, e.source, deadline, failures) && e.at < deadline
    ensures Counts(s, e)
  {
    BlockedSurvives(s.failures, e.source, e.at, ADMIN_FAILURE_MEMORY, MAX_TRACKED_ADMIN_SOURCES, e.victim, e.source);
  }

  lemma RecordSpares(m: Failures, source: Source, now: nat, victim: Option<Source>, base: nat, k: Source)
    requires k in m && Blocked(m[k], now) && k != source
    ensures var r := Record(m, source, now, victim, base); k in r && r[k] == m[k]
  {
    BlockedSurvives(m, source, now, ADMIN_FAILURE_MEMORY, MAX_TRACKED_ADMIN_SOURCES, victim, k);
    hide Roomy, Delay;
  }

  // ----- a block over a whole run -----------------------------------------------------------------

  predicate NonePending(s: State, source: Source) {
    forall x :: x in s.pending ==> !IsPending(s, x, source)
  }

  predicate NoOtherPending(s: State, source: Source, attempt: nat) {
    forall x :: x in s.pending && x != attempt ==> !IsPending(s, x, source)
  }

  predicate Undisturbed(events: seq<Event>, source: Source, deadline: nat) {
    AllBefore(events, deadline) && NoSuccess(events, source)
  }

  lemma StepKeepsNonePending(s: State, e: Event, base: nat, source: Source, deadline: nat, failures: nat)
    requires BlockedUntil(s.failures, source, deadline, failures) && e.at < deadline && NonePending(s, source)
    ensures NonePending(Step(s, e, base), source)
  {
    hide Record;
  }

  lemma {:induction false} BlockHolds(s: State, events: seq<Event>, base: nat, source: Source, deadline: nat, failures: nat)
    requires BlockedUntil(s.failures, source, deadline, failures) && NonePending(s, source)
    requires Undisturbed(events, source, deadline)
    ensures BlockedUntil(Run(s, events, base).failures, source, deadline, failures)
    ensures NonePending(Run(s, events, base), source)
    decreases |events|
  {
    if events != [] {
      var before, e := events[..|events| - 1], events[|events| - 1];
      BlockHolds(s, before, base, source, deadline, failures);
      var t := Run(s, before, base);
      assert !Moves(t, e, source);
      hide Step, BlockedUntil, NonePending;
      StepKeepsBlock(t, e, base, source, deadline, failures);
      StepKeepsNonePending(t, e, base, source, deadline, failures);
    }
  }

  /** A running block keeps its deadline and its number against all traffic, from any
      source and in any interleaving, exactly when no attempt of its source was let
      through before it was armed and has yet to be counted. */
  lemma BlockHoldsExactly(s: State, base: nat, source: Source, deadline: nat, failures: nat)
    requires BlockedUntil(s.failures, source, deadline, failures) && deadline >= 1 && failures < MAX_COUNT
    ensures (forall later :: Undisturbed(later, source, deadline) ==>
              BlockedUntil(Run(s, later, base).failures, source, deadline, failures))
            <==> NonePending(s, source)
  {
    hide Step, BlockedUntil;
    if NonePending(s, source) {
      forall later | Undisturbed(later, source, deadline)
        ensures BlockedUntil(Run(s, later, base).failures, source, deadline, failures)
      {
        BlockHolds(s, later, base, source, deadline, failures);
      }
    } else {
      var x :| x in s.pending && IsPending(s, x, source);
      var e := Fail(x, source, deadline - 1, None);
      BlockMovedExactly(s, e, base, source, deadline, failures);
      RunOne(s, e, base);
      assert Undisturbed([e], source, deadline);
    }
  }

  lemma RunOne(s: State, e: Event, base: nat)
    ensures Run(s, [e], base) == Step(s, e, base)
  {
    hide Step;
    assert [e][..0] == [];
  }

  /** At least as far on, and at least as high, as first armed. */
  ghost predicate BlockedPast(m: Failures, source: Source, deadline: nat, failures: nat) {
    source in m && m[source].until.Some? && m[source].until.value >= deadline && failures <= m[source].data <= MAX_COUNT
  }

  lemma {:induction false} DelayMonotone(n: nat, k: nat, base: nat)
    requires 1 <= n <= k
    ensures Delay(n, base) <= Delay(k, base)
    decreases k
  {
    if n < k {
      DelayMonotone(n, k - 1, base);
      DelayDoubles(k - 1, base);
    }
  }

  lemma StepKeepsPast(s: State, e: Event, base: nat, source: Source, start: nat, n: nat)
    requires n >= 1 && BlockedPast(s.failures, source, start + Delay(n, base), n)
    requires start <= e.at < start + Delay(n, base) && !(e.Succeed? && e.source == source)
    ensures BlockedPast(Step(s, e, base).failures, source, start + Delay(n, base), n)
    ensures forall x :: IsPending(Step(s, e, base), x, source) ==> IsPending(s, x, source)
  {
    var m := s.failures;
    if Moves(s, e, source) {
      RunningBlockHasSlot(s, e, m[source].until.value, m[source].data);
      CountedArms(s, e, base);
      DelayMonotone(n, Min(m[source].data + 1, MAX_COUNT), base);
    } else {
      StepKeepsBlock(s, e, base, source, m[source].until.value, m[source].data);
    }
    hide Delay, Record, Roomy;
  }

  /** While a block runs, whatever moves it, no attempt of its source is let through. */
  lemma {:induction false} RunKeepsPast(s: State, events: seq<Event>, base: nat, source: Source, start: nat, n: nat)
    requires n >= 1 && BlockedPast(s.failures, source, start + Delay(n, base), n)
    requires AllSince(events, start) && Undisturbed(events, source, start + Delay(n, base))
    ensures BlockedPast(Run(s, events, base).failures, source, start + Delay(n, base), n)
    ensures forall x :: IsPending(Run(s, events, base), x, source) ==> IsPending(s, x, source)
    decreases |events|
  {
    if events != [] {
      var before, e := events[..|events| - 1], events[|events| - 1];
      RunKeepsPast(s, before, base, source, start, n);
      assert start <= e.at < start + Delay(n, base) && !(e.Succeed? && e.source == source);
      hide Step, BlockedPast, Delay, IsPending, AllSince, Undisturbed;
      StepKeepsPast(Run(s, before, base), e, base, source, start, n);
    }
  }

  /** The delay a counted failure armed. */
  ghost function Armed(s: State, e: Event, base: nat): nat
    requires Counts(s, e)
  {
    Delay(if Remembered(s.failures, e.source, e.at) then Min(s.failures[e.source].data + 1, MAX_COUNT) else 1, base)
  }

  lemma ArmedIsPast(s: State, e: Event, base: nat) returns (n: nat)
    requires Counts(s, e)
    ensures n >= 1 && Delay(n, base) == Armed(s, e, base)
    ensures BlockedUntil(Step(s, e, base).failures, e.source, e.at + Armed(s, e, base), n)
    ensures BlockedPast(Step(s, e, base).failures, e.source, e.at + Armed(s, e, base), n)
    ensures forall x :: IsPending(Step(s, e, base), x, e.source) <==> IsPending(s, x, e.source) && x != e.attempt
  {
    CountedArms(s, e, base);
    n := if Remembered(s.failures, e.source, e.at) then Min(s.failures[e.source].data + 1, MAX_COUNT) else 1;
    hide Delay, Record, Roomy;
  }

  /** `next` is counted after `e`, for the same source and with no success of it between. */
  ghost predicate Follows(s: State, e: Event, between: seq<Event>, next: Event, base: nat) {
    && Counts(s, e) && Counts(Run(Step(s, e, base), between, base), next)
    && next.source == e.source && e.at <= next.at
    && AllSince(between, e.at) && AllBefore(between, next.at + 1) && NoSuccess(between, e.source)
  }

  /** Two counted failures of a source come closer than the delay armed by the first
      only if the second's attempt had asked before the first was counted. */
  lemma CloseCountsOverlap(s: State, e: Event, between: seq<Event>, next: Event, base: nat)
    requires Follows(s, e, between, next, base) && next.at < e.at + Armed(s, e, base)
    ensures IsPending(s, next.attempt, e.source) && next.attempt != e.attempt
  {
    var n := ArmedIsPast(s, e, base);
    assert Undisturbed(between, e.source, e.at + Armed(s, e, base));
    assert IsPending(Run(Step(s, e, base), between, base), next.attempt, e.source);
    hide Step, Run, Counts, Armed, Delay, BlockedPast, AllSince, Undisturbed, IsPending;
    RunKeepsPast(Step(s, e, base), between, base, e.source, e.at, n);
  }

  ghost predicate Spaced(s: State, e: Event, base: nat)
    requires Counts(s, e)
  {
    forall between, next :: Follows(s, e, between, next, base) ==> next.at >= e.at + Armed(s, e, base)
  }

  /** After a counted failure the next one of its source is at least the armed delay
      away, in every interleaving, exactly when no other attempt of the source is
      pending at that moment. */
  lemma SpacedExactly(s: State, e: Event, base: nat)
    requires Counts(s, e) && base >= 1
    ensures Spaced(s, e, base) <==> NoOtherPending(s, e.source, e.attempt)
  {
    if NoOtherPending(s, e.source, e.attempt) {
      forall between, next | Follows(s, e, between, next, base) ensures next.at >= e.at + Armed(s, e, base) {
        if next.at < e.at + Armed(s, e, base) { CloseCountsOverlap(s, e, between, next, base); }
      }
    } else {
      var x :| x in s.pending && x != e.attempt && IsPending(s, x, e.source);
      OverlapCountsAtOnce(s, e, x, base);
    }
  }

  lemma OverlapCountsAtOnce(s: State, e: Event, x: nat, base: nat)
    requires Counts(s, e) && base >= 1 && x != e.attempt && IsPending(s, x, e.source)
    ensures Follows(s, e, [], Fail(x, e.source, e.at, None), base) && e.at < e.at + Armed(s, e, base)
  {
    var n := ArmedIsPast(s, e, base);
    DelayDoubles(n, base);
    hide Counts, Delay, Armed, Roomy;
    RunningBlockHasSlot(Step(s, e, base), Fail(x, e.source, e.at, None), e.at + Armed(s, e, base), n);
  }

  /** During a block every attempt of its source is told of at least the time left to
      the armed deadline; of exactly that time, and of nothing from the deadline on,
      when no other attempt was pending as the block was armed. */
  lemma BlockLastsExactly(s: State, e: Event, later: seq<Event>, base: nat, at: nat)
    requires Counts(s, e) && AllSince(later, e.at) && AllBefore(later, at + 1) && NoSuccess(later, e.source)
    ensures var deadline, told := e.at + Armed(s, e, base), Retry(Run(Step(s, e, base), later, base).failures, e.source, at);
      && (at < deadline ==> told.Some? && told.value >= deadline - at)
      && (NoOtherPending(s, e.source, e.attempt) && AllBefore(later, deadline) ==>
            told == if at < deadline then Some(deadline - at) else None)
  {
    var n := ArmedIsPast(s, e, base);
    var armed, deadline := Step(s, e, base), e.at + Armed(s, e, base);
    assert NoOtherPending(s, e.source, e.attempt) ==> NonePending(armed, e.source);
    hide Step, Run, Counts, Armed, Delay, IsPending, NoOtherPending, NonePending, AllSince;
    if at < deadline {
      assert Undisturbed(later, e.source, deadline);
      RunKeepsPast(armed, later, base, e.source, e.at, n);
    }
    if NonePending(armed, e.source) && AllBefore(later, deadline) {
      assert Undisturbed(later, e.source, deadline);
      BlockHolds(armed, later, base, e.source, deadline, n);
    }
  }

  /** A let-through failure goes uncounted only when every one of the 256 records is
      under an active block. */
  lemma UncountedOnlyWhenFull(s: State, e: Event)
    requires |s.failures| <= MAX_TRACKED_ADMIN_SOURCES && e.Fail? && IsPending(s, e.attempt, e.source)
    requires VictimFits(Prune(s.failures, e.at, ADMIN_FAILURE_MEMORY), e.source, e.at, MAX_TRACKED_ADMIN_SOURCES, e.victim)
    ensures !Counts(s, e) <==>
      e.source !in s.failures && |s.failures| == MAX_TRACKED_ADMIN_SOURCES && AllBlocked(s.failures, e.at)
  {
    var pruned := Prune(s.failures, e.at, ADMIN_FAILURE_MEMORY);
    SmallerKeys(s.failures, pruned);
    NoSlotMeansAllBlocked(pruned, e.source, e.at, MAX_TRACKED_ADMIN_SOURCES, e.victim);
    if |pruned| == MAX_TRACKED_ADMIN_SOURCES {
      SameSizeSameKeys(pruned.Keys, s.failures.Keys);
      assert pruned == s.failures;
    } else if AllBlocked(s.failures, e.at) {
      assert pruned == s.failures;
    }
  }

  lemma SameSizeSameKeys(a: set<Source>, b: set<Source>)
    requires a <= b && |a| == |b|
    ensures a == b
  {
    if a != b {
      var x :| x in b && x !in a;
      SubsetIsSmaller(a, b - {x});
    }
  }

  lemma RecordUnfolds(m: Failures, source: Source, now: nat, victim: Option<Source>, base: nat)
    ensures var roomy := Roomy(m, source, now, victim);
      Record(m, source, now, victim, base) ==
        if HasSlot(roomy, source, MAX_TRACKED_ADMIN_SOURCES) then Count(roomy, source, now, base) else roomy
  {
  }

  // ----- the object ---------------------------------------------------------------------------

  datatype Outcome = Accepted | TooLarge | Busy | Throttled(retryAfter: nat) | Invalid

  class AdminAuthenticator {
    var failures: Failures
    ghost var pending: map<nat, Source>
    var inFlight: nat
    const maxInFlight: nat
    const base: nat

    ghost function View(): State
      reads this
    {
      State(failures, pending)
    }

    constructor (maxInFlight: nat, base: nat)
      requires maxInFlight >= 1 && base >= 1
      ensures View() == START && inFlight == 0 && this.maxInFlight == maxInFlight && this.base == base
    {
      failures, pending, inFlight, this.maxInFlight, this.base := map[], map[], 0, maxInFlight, base;
    }

    /** The first half of a failed attempt, under the lock. */
    method BlockedFor(ghost attempt: nat, source: Source, now: nat) returns (retry: Option<nat>)
      requires attempt !in pending
      modifies this`failures, this`pending
      ensures View() == Step(old(View()), Ask(attempt, source, now), base)
      ensures retry == Retry(old(failures), source, now)
      ensures retry.None? ==> IsPending(View(), attempt, source)
      ensures retry.Some? ==> pending == old(pending)
    {
      retry := None;
      if source in failures {
        var until := failures[source].until;
        failures := failures[source := failures[source].(lastSeen := now)];
        if until.Some? && until.value > now {
          retry := Some(until.value - now);
        }
      }
      if retry.None? {
        pending := pending[attempt := source];
      }
    }

    /** The second half, with the lock taken again. */
    method RecordFailure(ghost attempt: nat, source: Source, now: nat)
      returns (ghost victim: Option<Source>, delay: Option<nat>)
      requires IsPending(View(), attempt, source)
      modifies this`failures, this`pending
      ensures View() == Step(old(View()), Fail(attempt, source, now, victim), base)
      ensures VictimFits(Prune(old(failures), now, ADMIN_FAILURE_MEMORY), source, now, MAX_TRACKED_ADMIN_SOURCES, victim)
      ensures delay.Some? <==> Counts(old(View()), Fail(attempt, source, now, victim))
      ensures delay.Some? ==> source in failures && failures[source].until == Some(now + delay.value)
    {
      hide Record, Roomy, Prune;
      ghost var m := failures;
      pending := pending - {attempt};
      victim := MakeRoomFor(source, now);
      RecordUnfolds(m, source, now, victim, base);
      if source !in failures && |failures| >= MAX_TRACKED_ADMIN_SOURCES {
        return victim, None;
      }
      delay := ArmBlock(source, now);
    }

    method MakeRoomFor(source: Source, now: nat) returns (ghost victim: Option<Source>)
      modifies this`failures
      ensures failures == Roomy(old(failures), source, now, victim)
      ensures VictimFits(Prune(old(failures), now, ADMIN_FAILURE_MEMORY), source, now, MAX_TRACKED_ADMIN_SOURCES, victim)
    {
      failures := Prune(failures, now, ADMIN_FAILURE_MEMORY);
      hide Prune, MakeRoom, VictimFits;
      failures, victim := EvictForRoom(failures, source, now, MAX_TRACKED_ADMIN_SOURCES);
    }

    method ArmBlock(source: Source, now: nat) returns (delay: Option<nat>)
      modifies this`failures
      ensures failures == Count(old(failures), source, now, base)
      ensures delay.Some? && source in failures && failures[source].until == Some(now + delay.value)
    {
      hide Delay;
      var n := Min(FailuresOf(failures, source) + 1, MAX_COUNT);
      delay := Some(Delay(n, base));
      failures := failures[source := Entry(Some(now + delay.value), now, n)];
    }

    /** The shared tail of every failed attempt: two steps, two readings of the clock. */
    method CountOrThrottle(ghost attempt: nat, source: Source, asked: nat, now: nat, failure: Outcome)
      returns (ghost victim: Option<Source>, r: Outcome)
      requires attempt !in pending && asked <= now
      modifies this`failures, this`pending
      ensures View() == Step(Step(old(View()), Ask(attempt, source, asked), base), Fail(attempt, source, now, victim), base)
      ensures r == if Retry(old(failures), source, asked).Some?
                   then Throttled(Retry(old(failures), source, asked).value) else failure
    {
      victim := None;
      hide Record;
      var retry := BlockedFor(attempt, source, asked);
      if retry.Some? {
        return victim, Throttled(retry.value);
      }
      var delay;
      victim, delay := RecordFailure(attempt, source, now);
      r := failure;
    }

    /** A correct credential is never throttled, whatever its source's record says; it
        can only be turned away for size or for lack of a verification slot. */
    method VerifyCredential(ghost attempt: nat, size: nat, matches: bool, source: Source, asked: nat, now: nat)
      returns (ghost victim: Option<Source>, r: Outcome)
      requires attempt !in pending && asked <= now
      modifies this`failures, this`pending
      ensures r.Accepted? <==> size <= MAX_ADMIN_CREDENTIAL_BYTES && inFlight < maxInFlight && matches
      ensures r.Busy? <==> size <= MAX_ADMIN_CREDENTIAL_BYTES && inFlight >= maxInFlight
      ensures r.Throttled? ==> Retry(old(failures), source, asked) == Some(r.retryAfter)
      ensures View() ==
        if r.Busy? then old(View())
        else if r.Accepted? then Step(old(View()), Succeed(source, now), base)
        else Step(Step(old(View()), Ask(attempt, source, asked), base), Fail(attempt, source, now, victim), base)
    {
      victim := None;
      if size > MAX_ADMIN_CREDENTIAL_BYTES {
        victim, r := CountOrThrottle(attempt, source, asked, now, TooLarge);
        return;
      }
      if inFlight >= maxInFlight {
        return victim, Busy;
      }
      if matches {
        failures := failures - {source};
        return victim, Accepted;
      }
      victim, r := CountOrThrottle(attempt, source, asked, now, Invalid);
    }
  }
}
