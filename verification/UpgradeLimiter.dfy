/** The per-address limiter of failed WebSocket upgrades. Times are in milliseconds. */
module UpgradeLimiter {
  import opened Bytes
  import opened Tracking

  const UPGRADE_FAILURE_LIMIT: nat := 5
  const UPGRADE_FAILURE_WINDOW: nat := 60000
  const UPGRADE_FAILURE_BAN: nat := 60000
  const MAX_TRACKED_SOURCES: nat := 4096

  datatype Limits = Limits(limit: nat, window: nat, ban: nat)

  const DEFAULTS := Limits(UPGRADE_FAILURE_LIMIT, UPGRADE_FAILURE_WINDOW, UPGRADE_FAILURE_BAN)

  /** Failures counted since the window began. */
  datatype Window = Window(start: nat, failures: nat)

  type State = Entries<Window>

  ghost function Roomy(s: State, source: Source, now: nat, victim: Option<Source>, l: Limits): State {
    MakeRoom(Prune(s, now, Max(l.window, l.ban)), source, now, MAX_TRACKED_SOURCES, victim)
  }

  /** The window a failure falls into, this failure counted: an expired one restarts. */
  function Hit(s: State, source: Source, now: nat, l: Limits): Window {
    var w := if source in s then s[source].data else Window(now, 0);
    if now - w.start >= l.window then Window(now, 1) else w.(failures := w.failures + 1)
  }

  /** Count a failure; the one that reaches the limit starts a ban and a new window. */
  function Count(s: State, source: Source, now: nat, l: Limits): State {
    var w := Hit(s, source, now, l);
    var until := if source in s then s[source].until else None;
    s[source := if w.failures >= l.limit then Entry(Some(now + l.ban), now, Window(now, 0)) else Entry(until, now, w)]
  }

  ghost function Record(s: State, source: Source, now: nat, victim: Option<Source>, l: Limits): State {
    var roomy := Roomy(s, source, now, victim, l);
    if HasSlot(roomy, source, MAX_TRACKED_SOURCES) then Count(roomy, source, now, l) else roomy
  }

  /** Whether this failure starts a ban. */
  ghost predicate StartsBan(s: State, source: Source, now: nat, victim: Option<Source>, l: Limits) {
    var roomy := Roomy(s, source, now, victim, l);
    HasSlot(roomy, source, MAX_TRACKED_SOURCES) && Hit(roomy, source, now, l).failures >= l.limit
  }

  ghost function Step(s: State, e: Event, l: Limits): State {
    match e
    case Ask(_, source, at) => Look(s, source, at)
    case Fail(_, source, at, victim) => Record(s, source, at, victim, l)
    case Succeed(source, _) => s - {source}
  }

  ghost function Run(s: State, events: seq<Event>, l: Limits): State
    decreases |events|
  {
    if events == [] then s else Step(Run(s, events[..|events| - 1], l), events[|events| - 1], l)
  }

  // ----- the bound ---------------------------------------------------------------------------

  lemma StepKeepsBound(s: State, e: Event, l: Limits)
    requires |s| <= MAX_TRACKED_SOURCES
    ensures |Step(s, e, l)| <= MAX_TRACKED_SOURCES
  {
    match e
    case Ask(_, source, at) => SmallerKeys(s, Look(s, source, at));
    case Succeed(source, _) => SmallerKeys(s, s - {source});
    case Fail(_, source, at, victim) =>
      KeptUnchanged(s, source, at, Max(l.window, l.ban), MAX_TRACKED_SOURCES, victim);
      var roomy := Roomy(s, source, at, victim, l);
      hide Prune, MakeRoom;
      if HasSlot(roomy, source, MAX_TRACKED_SOURCES) {
        AddWithinCap(roomy, source, Count(roomy, source, at, l)[source], MAX_TRACKED_SOURCES);
      }
  }

  lemma {:induction false} TrackedSourcesBounded(events: seq<Event>, l: Limits)
    ensures |Run(map[], events, l)| <= MAX_TRACKED_SOURCES
    decreases |events|
  {
    if events != [] {
      TrackedSourcesBounded(events[..|events| - 1], l);
      StepKeepsBound(Run(map[], events[..|events| - 1], l), events[|events| - 1], l);
    }
  }

  // ----- the ban -----------------------------------------------------------------------------

  ghost predicate BannedPast(s: State, source: Source, deadline: nat) {
    source in s && s[source].until.Some? && s[source].until.value >= deadline
  }

  ghost predicate BannedTo(s: State, source: Source, deadline: nat) {
    source in s && s[source].until == Some(deadline)
  }

  lemma StepKeepsBan(s: State, e: Event, l: Limits, source: Source, deadline: nat)
    requires e.at < deadline && !(e.Succeed? && e.source == source)
    ensures BannedPast(s, source, deadline) && e.at + l.ban >= deadline ==> BannedPast(Step(s, e, l), source, deadline)
    ensures BannedTo(s, source, deadline) && !(e.Fail? && e.source == source) ==> BannedTo(Step(s, e, l), source, deadline)
  {
    if e.Fail? && BannedPast(s, source, deadline) {
      assert Blocked(s[source], e.at);
      BlockedSurvives(s, e.source, e.at, Max(l.window, l.ban), MAX_TRACKED_SOURCES, e.victim, source);
    }
  }

  /** Until its deadline a ban survives any churn: no check, no failure of another
      address and no eviction moves it, and failures of its own that were already under
      way can only push it out. */
  lemma {:induction false} BanHolds(s: State, events: seq<Event>, l: Limits, source: Source, started: nat)
    requires BannedTo(s, source, started + l.ban)
    requires AllBefore(events, started + l.ban) && NoSuccess(events, source)
    requires AllSince(events, started)
    ensures BannedPast(Run(s, events, l), source, started + l.ban)
    ensures NoFailure(events, source) ==> BannedTo(Run(s, events, l), source, started + l.ban)
    decreases |events|
  {
    hide Step;
    if events != [] {
      var before, e := events[..|events| - 1], events[|events| - 1];
      BanHolds(s, before, l, source, started);
      StepKeepsBan(Run(s, before, l), e, l, source, started + l.ban);
    }
  }

  /** What a banned address is told: exactly the time left, and nothing from the
      deadline on. */
  lemma BanLastsExactly(s: State, events: seq<Event>, l: Limits, source: Source, started: nat, at: nat)
    requires BannedTo(s, source, started + l.ban) && started <= at
    requires AllBefore(events, started + l.ban) && NoSuccess(events, source) && NoFailure(events, source)
    requires AllSince(events, started)
    ensures Retry(Run(s, events, l), source, at) ==
      if at < started + l.ban then Some(started + l.ban - at) else None
  {
    BanHolds(s, events, l, source, started);
  }

  // ----- when a ban starts ---------------------------------------------------------------------

  /** Failures of `source` at or after `from`. */
  function FailuresSince(events: seq<Event>, source: Source, from: nat): nat {
    if events == [] then 0
    else
      var e := events[|events| - 1];
      FailuresSince(events[..|events| - 1], source, from)
        + if e.Fail? && e.source == source && e.at >= from then 1 else 0
  }

  /** A counter never runs ahead of the failures that really happened in its window. */
  ghost predicate CountsReal(s: State, events: seq<Event>) {
    forall k :: k in s ==> s[k].data.failures <= FailuresSince(events, k, s[k].data.start)
  }

  /** The clock does not go back. */
  predicate Ordered(events: seq<Event>) {
    events == [] || (
      && Ordered(events[..|events| - 1])
      && AllBefore(events[..|events| - 1], events[|events| - 1].at + 1))
  }

  ghost predicate StartedBefore(s: State, events: seq<Event>) {
    forall k :: k in s && events != [] ==> s[k].data.start <= events[|events| - 1].at
  }

  lemma OneMore(before: seq<Event>, e: Event, k: Source, from: nat)
    ensures FailuresSince(before + [e], k, from)
         == FailuresSince(before, k, from) + if e.Fail? && e.source == k && e.at >= from then 1 else 0
  {
    assert (before + [e])[..|before|] == before;
  }

  lemma StepCountsReal(s: State, before: seq<Event>, e: Event, l: Limits)
    requires CountsReal(s, before) && forall k :: k in s ==> s[k].data.start <= e.at
    ensures CountsReal(Step(s, e, l), before + [e])
    ensures forall k :: k in Step(s, e, l) ==> Step(s, e, l)[k].data.start <= e.at
  {
    var r := Step(s, e, l);
    if e.Fail? {
      KeptUnchanged(s, e.source, e.at, Max(l.window, l.ban), MAX_TRACKED_SOURCES, e.victim);
    }
    hide Prune, MakeRoom;
    forall k | k in r ensures r[k].data.failures <= FailuresSince(before + [e], k, r[k].data.start) && r[k].data.start <= e.at {
      OneMore(before, e, k, r[k].data.start);
      hide FailuresSince;
      if k in s {
        assert s[k].data.failures <= FailuresSince(before, k, s[k].data.start);
      }
    }
  }

  lemma {:induction false} RunCountsReal(events: seq<Event>, l: Limits)
    requires Ordered(events)
    ensures CountsReal(Run(map[], events, l), events) && StartedBefore(Run(map[], events, l), events)
    decreases |events|
  {
    hide Step;
    if events != [] {
      var before, e := events[..|events| - 1], events[|events| - 1];
      RunCountsReal(before, l);
      assert before != [] ==> before[|before| - 1].at <= e.at;
      StepCountsReal(Run(map[], before, l), before, e, l);
      assert before + [e] == events;
    }
  }

  /** No address is banned for less: a ban means that the limit of failures really
      happened, all of them less than a window ago. */
  lemma BanIsEarned(events: seq<Event>, l: Limits, attempt: nat, source: Source, at: nat, victim: Option<Source>)
    returns (from: nat)
    requires Ordered(events) && AllBefore(events, at + 1)
    requires l.window >= 1 && StartsBan(Run(map[], events, l), source, at, victim, l)
    ensures from <= at < from + l.window
    ensures FailuresSince(events + [Fail(attempt, source, at, victim)], source, from) >= l.limit
  {
    var s := Run(map[], events, l);
    RunCountsReal(events, l);
    KeptUnchanged(s, source, at, Max(l.window, l.ban), MAX_TRACKED_SOURCES, victim);
    var roomy := Roomy(s, source, at, victim, l);
    from := Hit(roomy, source, at, l).start;
    hide Prune, MakeRoom, Run;
    OneMore(events, Fail(attempt, source, at, victim), source, from);
    hide FailuresSince;
    if source in roomy {
      assert s[source].data.failures <= FailuresSince(events, source, s[source].data.start);
    }
  }

  /** The limiter counts `n` failures of the address in the window that began at `first`;
      no ban on record reaches past that time. */
  ghost predicate Counting(s: State, source: Source, first: nat, n: nat) {
    && source in s && s[source].data == Window(first, n) && s[source].lastSeen >= first
    && (s[source].until.Some? ==> s[source].until.value <= first)
  }

  /** The map has room throughout. */
  ghost predicate NeverFull(s: State, events: seq<Event>, l: Limits)
    decreases |events|
  {
    |Run(s, events, l)| < MAX_TRACKED_SOURCES && (events == [] || NeverFull(s, events[..|events| - 1], l))
  }

  /** A failure that opens a window: the address has no record, or one that is under no ban
      and whose window has run out. */
  predicate Opens(s: State, e: Event, l: Limits) {
    e.Fail? && (e.source in s ==> !Blocked(s[e.source], e.at) && s[e.source].data.start + l.window <= e.at)
  }

  lemma OpeningFailure(s: State, e: Event, l: Limits)
    requires Opens(s, e, l) && |s| < MAX_TRACKED_SOURCES && l.limit >= 2 && l.window >= 1
    ensures Counting(Step(s, e, l), e.source, e.at, 1)
  {
    KeptUnchanged(s, e.source, e.at, Max(l.window, l.ban), MAX_TRACKED_SOURCES, e.victim);
  }

  lemma StillTracked(s: State, source: Source, now: nat, other: Source, victim: Option<Source>, l: Limits, first: nat)
    requires source in s && s[source].lastSeen >= first && now < first + l.window && |s| < MAX_TRACKED_SOURCES
    ensures var r := Roomy(s, other, now, victim, l); source in r && r[source] == s[source]
  {
    SmallerKeys(s, Prune(s, now, Max(l.window, l.ban)));
  }

  lemma StepKeepsCounting(s: State, e: Event, l: Limits, source: Source, first: nat, n: nat)
    requires Counting(s, source, first, n) && |s| < MAX_TRACKED_SOURCES
    requires first <= e.at < first + l.window && !(e.Succeed? && e.source == source)
    requires e.Fail? && e.source == source ==> n + 1 < l.limit
    ensures Counting(Step(s, e, l), source, first, n + if e.Fail? && e.source == source then 1 else 0)
  {
    if e.Fail? { StillTracked(s, source, e.at, e.source, e.victim, l, first); }
    hide Roomy;
  }

  lemma {:induction false} RunKeepsCounting(
    s: State, events: seq<Event>, l: Limits, source: Source, first: nat, n: nat)
    requires Counting(s, source, first, n) && NeverFull(s, events, l)
    requires AllSince(events, first) && AllBefore(events, first + l.window) && NoSuccess(events, source)
    requires n + FailuresSince(events, source, first) < l.limit
    ensures Counting(Run(s, events, l), source, first, n + FailuresSince(events, source, first))
    decreases |events|
  {
    if events != [] {
      var before, e := events[..|events| - 1], events[|events| - 1];
      RunKeepsCounting(s, before, l, source, first, n);
      assert first <= e.at < first + l.window && !(e.Succeed? && e.source == source);
      assert |Run(s, before, l)| < MAX_TRACKED_SOURCES;
      hide Step, Counting, NeverFull, AllSince, AllBefore, NoSuccess;
      StepKeepsCounting(Run(s, before, l), e, l, source, first, n + FailuresSince(before, source, first));
    }
  }

  /** From any count on: an address that fails again and again within one window is banned
      at exactly the failure that reaches the limit, whatever other addresses do in the
      meantime, as long as the map has room. */
  lemma CountReachesLimit(
    s: State, source: Source, first: nat, n: nat, later: seq<Event>, l: Limits, at: nat, victim: Option<Source>)
    requires Counting(s, source, first, n) && NeverFull(s, later, l)
    requires AllSince(later, first) && AllBefore(later, first + l.window) && NoSuccess(later, source)
    requires n + FailuresSince(later, source, first) < l.limit
    requires first <= at < first + l.window
    ensures var k, r := n + FailuresSince(later, source, first), Run(s, later, l);
      && Counting(r, source, first, k)
      && (StartsBan(r, source, at, victim, l) <==> k + 1 == l.limit)
  {
    hide Step;
    RunKeepsCounting(s, later, l, source, first, n);
    var r := Run(s, later, l);
    assert |r| < MAX_TRACKED_SOURCES;
    StillTracked(r, source, at, source, victim, l, first);
    hide Roomy, Run, FailuresSince;
  }

  /** So an address whose failure opens a window, on record before or not, is banned at
      exactly the failure that reaches the limit, the opening one counted. */
  lemma BurstBansAtLimit(s: State, opening: Event, later: seq<Event>, l: Limits, at: nat, victim: Option<Source>)
    requires Opens(s, opening, l) && |s| < MAX_TRACKED_SOURCES
    requires NeverFull(Step(s, opening, l), later, l)
    requires AllSince(later, opening.at) && AllBefore(later, opening.at + l.window) && NoSuccess(later, opening.source)
    requires 1 + FailuresSince(later, opening.source, opening.at) < l.limit
    requires opening.at <= at < opening.at + l.window
    ensures var n, r := 1 + FailuresSince(later, opening.source, opening.at), Run(Step(s, opening, l), later, l);
      && Counting(r, opening.source, opening.at, n)
      && (StartsBan(r, opening.source, at, victim, l) <==> n + 1 == l.limit)
  {
    hide Step, Run, Roomy, NeverFull;
    OpeningFailure(s, opening, l);
    CountReachesLimit(Step(s, opening, l), opening.source, opening.at, 1, later, l, at, victim);
  }

  // ----- the object ---------------------------------------------------------------------------

  class UpgradeFailureLimiter {
    var entries: State
    const limits: Limits

    constructor (limits: Limits)
      ensures entries == map[] && this.limits == limits
    {
      entries, this.limits := map[], limits;
    }

    constructor Default()
      ensures entries == map[] && limits == DEFAULTS
    {
      entries, limits := map[], DEFAULTS;
    }

    method CheckAt(ghost attempt: nat, source: Source, now: nat) returns (retry: Option<nat>)
      modifies this
      ensures entries == Step(old(entries), Ask(attempt, source, now), limits)
      ensures retry == Retry(old(entries), source, now)
    {
      if source !in entries {
        return None;
      }
      var until := entries[source].until;
      entries := entries[source := entries[source].(lastSeen := now)];
      retry := if until.Some? && until.value > now then Some(until.value - now) else None;
    }

    /** Returns whether this failure started a ban. */
    method RecordFailureAt(ghost attempt: nat, source: Source, now: nat)
      returns (ghost victim: Option<Source>, banned: bool)
      modifies this
      ensures entries == Step(old(entries), Fail(attempt, source, now, victim), limits)
      ensures VictimFits(Prune(old(entries), now, Max(limits.window, limits.ban)), source, now, MAX_TRACKED_SOURCES, victim)
      ensures banned <==> StartsBan(old(entries), source, now, victim, limits)
      ensures banned ==> Retry(entries, source, now) == if limits.ban > 0 then Some(limits.ban) else None
    {
      hide Prune, MakeRoom, VictimFits;
      entries := Prune(entries, now, Max(limits.window, limits.ban));
      entries, victim := EvictForRoom(entries, source, now, MAX_TRACKED_SOURCES);
      if source !in entries && |entries| >= MAX_TRACKED_SOURCES {
        return victim, false;
      }
      banned := CountHit(source, now);
    }

    method CountHit(source: Source, now: nat) returns (banned: bool)
      modifies this
      ensures entries == Count(old(entries), source, now, limits)
      ensures banned <==> Hit(old(entries), source, now, limits).failures >= limits.limit
      ensures banned ==> Retry(entries, source, now) == if limits.ban > 0 then Some(limits.ban) else None
    {
      var e := if source in entries then entries[source] else Entry(None, now, Window(now, 0));
      e := e.(lastSeen := now);
      if now - e.data.start >= limits.window {
        e := e.(data := Window(now, 0));
      }
      e := e.(data := e.data.(failures := e.data.failures + 1));
      banned := e.data.failures >= limits.limit;
      if banned {
        e := Entry(Some(now + limits.ban), now, Window(now, 0));
      }
      entries := entries[source := e];
    }

    method OnSuccess(source: Source, ghost now: nat)
      modifies this
      ensures entries == Step(old(entries), Succeed(source, now), limits)
    {
      entries := entries - {source};
    }
  }
}
