/** A bounded map of per-source records in which a record under an active block is
    never dropped: what the admin throttle and the upgrade limiter share. */
module Tracking {
  import opened Bytes

  type Source = string

  datatype Entry<T> = Entry(until: Option<nat>, lastSeen: nat, data: T)

  type Entries<T> = map<Source, Entry<T>>

  predicate Blocked<T>(e: Entry<T>, now: nat) {
    e.until.Some? && e.until.value > now
  }

  /** The remaining block of a source, if any. */
  function Retry<T>(m: Entries<T>, source: Source, now: nat): Option<nat> {
    if source in m && Blocked(m[source], now) then Some(m[source].until.value - now) else None
  }

  /** Asking refreshes the record, blocked or not. */
  function Look<T>(m: Entries<T>, source: Source, now: nat): Entries<T> {
    if source in m then m[source := m[source].(lastSeen := now)] else m
  }

  /** What a limiter sees of one attempt of a source: it asks whether it is blocked, and
      later, if it failed, it is counted; or it succeeds. Between the two anything may
      happen. `victim` is the record evicted for it, if one has to go. */
  datatype Event =
    | Ask(attempt: nat, source: Source, at: nat)
    | Fail(attempt: nat, source: Source, at: nat, victim: Option<Source>)
    | Succeed(source: Source, at: nat)

  predicate AllBefore(events: seq<Event>, deadline: nat) {
    forall i :: 0 <= i < |events| ==> events[i].at < deadline
  }

  predicate AllSince(events: seq<Event>, start: nat) {
    forall i :: 0 <= i < |events| ==> start <= events[i].at
  }

  predicate NoSuccess(events: seq<Event>, source: Source) {
    forall i :: 0 <= i < |events| ==> !(events[i].Succeed? && events[i].source == source)
  }

  predicate NoFailure(events: seq<Event>, source: Source) {
    forall i :: 0 <= i < |events| ==> !(events[i].Fail? && events[i].source == source)
  }

  /** Keep what is blocked or was seen less than `memory` ago. */
  function Prune<T>(m: Entries<T>, now: nat, memory: nat): Entries<T> {
    map k | k in m && (Blocked(m[k], now) || now - m[k].lastSeen < memory) :: m[k]
  }

  /** A least recently seen record among those not blocked. */
  ghost predicate IsVictim<T>(m: Entries<T>, now: nat, v: Source) {
    && v in m && !Blocked(m[v], now)
    && forall k :: k in m && !Blocked(m[k], now) ==> m[v].lastSeen <= m[k].lastSeen
  }

  predicate AllBlocked<T>(m: Entries<T>, now: nat) {
    forall k :: k in m ==> Blocked(m[k], now)
  }

  /** Make space for `source` by evicting `victim`, when the map is full and does not
      have it yet. Of several records seen at the same instant any one may go, so the
      choice is the caller's; anything but a true victim is not evicted. */
  ghost function MakeRoom<T>(m: Entries<T>, source: Source, now: nat, cap: nat, victim: Option<Source>): Entries<T> {
    if source in m || |m| < cap || victim.None? || !IsVictim(m, now, victim.value) then m else m - {victim.value}
  }

  /** The victim is one the code would pick: none only if every record is blocked. */
  ghost predicate VictimFits<T>(m: Entries<T>, source: Source, now: nat, cap: nat, victim: Option<Source>) {
    source in m || |m| < cap || (if victim.Some? then IsVictim(m, now, victim.value) else AllBlocked(m, now))
  }

  /** Whether the source has, or can be given, a slot. */
  predicate HasSlot<T>(m: Entries<T>, source: Source, cap: nat) {
    source in m || |m| < cap
  }

  lemma SmallerKeys<T>(m: Entries<T>, r: Entries<T>)
    requires r.Keys <= m.Keys
    ensures |r| <= |m|
  {
    SubsetIsSmaller(r.Keys, m.Keys);
    assert |r.Keys| == |r| && |m.Keys| == |m|;
  }

  /** Neither pruning nor eviction touches a record under an active block. */
  lemma BlockedSurvives<T>(m: Entries<T>, source: Source, now: nat, memory: nat, cap: nat, victim: Option<Source>, k: Source)
    requires k in m && Blocked(m[k], now)
    ensures var r := MakeRoom(Prune(m, now, memory), source, now, cap, victim); k in r && r[k] == m[k]
  {
  }

  /** Asking keeps a record alive: it is not pruned for the whole memory after it, and while
      any unblocked record was last seen before it, it is not the one evicted. */
  lemma AskingKeepsAlive<T>(m: Entries<T>, source: Source, at: nat, now: nat, memory: nat, other: Source)
    requires source in m && now - at < memory
    requires other in m && other != source && !Blocked(m[other], now) && m[other].lastSeen < at
    ensures var r := Look(m, source, at);
      && source in Prune(r, now, memory)
      && !IsVictim(r, now, source)
      && r[source].until == m[source].until && r[source].data == m[source].data
  {
    assert other in Look(m, source, at);
  }

  /** Whatever is kept is kept unchanged. */
  lemma KeptUnchanged<T>(m: Entries<T>, source: Source, now: nat, memory: nat, cap: nat, victim: Option<Source>)
    ensures var r := MakeRoom(Prune(m, now, memory), source, now, cap, victim);
      && |r| <= |m|
      && forall k :: k in r ==> k in m && r[k] == m[k]
  {
    var pruned := Prune(m, now, memory);
    SmallerKeys(m, pruned);
    SmallerKeys(pruned, MakeRoom(pruned, source, now, cap, victim));
  }

  /** A source goes without a slot only when the map is full of active blocks. */
  lemma NoSlotMeansAllBlocked<T>(m: Entries<T>, source: Source, now: nat, cap: nat, victim: Option<Source>)
    requires |m| <= cap && VictimFits(m, source, now, cap, victim)
    ensures !HasSlot(MakeRoom(m, source, now, cap, victim), source, cap) <==>
      source !in m && |m| == cap && AllBlocked(m, now)
  {
    if source !in m && |m| == cap && victim.Some? && IsVictim(m, now, victim.value) {
      var r := m - {victim.value};
      assert r.Keys == m.Keys - {victim.value};
      assert |r.Keys| == |m.Keys| - 1;
    }
  }

  /** Adding one record where there was a slot stays within the bound. */
  lemma AddWithinCap<T>(m: Entries<T>, source: Source, e: Entry<T>, cap: nat)
    requires |m| <= cap && HasSlot(m, source, cap)
    ensures |m[source := e]| <= cap
  {
    var r := m[source := e];
    assert r.Keys == m.Keys + {source};
    if source in m { assert r.Keys == m.Keys; }
  }

  method FindVictim<T>(m: Entries<T>, now: nat) returns (victim: Option<Source>)
    ensures victim.Some? ==> IsVictim(m, now, victim.value)
    ensures victim.None? <==> AllBlocked(m, now)
  {
    victim := None;
    var todo := m.Keys;
    while todo != {}
      invariant todo <= m.Keys
      invariant victim.Some? ==> victim.value in m && !Blocked(m[victim.value], now)
      invariant forall k :: k in m && k !in todo && !Blocked(m[k], now) ==>
        victim.Some? && m[victim.value].lastSeen <= m[k].lastSeen
      decreases |todo|
    {
      var k :| k in todo;
      todo := todo - {k};
      if !Blocked(m[k], now) && (victim.None? || m[k].lastSeen < m[victim.value].lastSeen) {
        victim := Some(k);
      }
    }
  }

  method EvictForRoom<T>(m: Entries<T>, source: Source, now: nat, cap: nat)
    returns (r: Entries<T>, ghost victim: Option<Source>)
    ensures r == MakeRoom(m, source, now, cap, victim) && VictimFits(m, source, now, cap, victim)
  {
    r, victim := m, None;
    if source !in m && |m| >= cap {
      var evicted := FindVictim(m, now);
      victim := evicted;
      if evicted.Some? {
        r := m - {evicted.value};
      }
    }
  }
}
