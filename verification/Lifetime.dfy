/** How long a session and its connection last: the two lifetimes checked on a timer,
    their warnings, and the missed pings of a half-open connection. */
module Lifetime {
  import opened Bytes

  datatype Policy = Policy(absoluteTtl: nat, idleTtl: nat, warningLead: nat, missedPingLimit: nat)

  /** `owner` is the attached connection's number, zero when there is none; `subscriber`
      is the connection that output and warnings go to. */
  datatype Session = Session(
    createdAt: nat, owner: nat, subscriber: Option<nat>, nextConn: nat, missed: nat, lastActivity: nat,
    alive: bool, warnedAbsolute: bool, warnedIdle: bool)

  function NewSession(at: nat): Session {
    Session(at, 0, None, 1, 0, at, true, false, false)
  }

  datatype Decision = Expire(absolute: bool) | Warn(absolute: bool, remaining: nat) | Leave

  function AbsoluteDeadline(s: Session, p: Policy): nat {
    s.createdAt + p.absoluteTtl
  }

  /** The idle lifetime runs only while nobody is attached. */
  function IdleDeadline(s: Session, p: Policy): Option<nat> {
    if s.owner == 0 then Some(s.lastActivity + p.idleTtl) else None
  }

  function Decide(s: Session, now: nat, p: Policy): Decision {
    var deadline, idle := AbsoluteDeadline(s, p), IdleDeadline(s, p);
    if !s.alive then Leave
    else if now >= deadline then Expire(true)
    else if idle.Some? && now >= idle.value then Expire(false)
    else if !s.warnedAbsolute && now + p.warningLead >= deadline then Warn(true, deadline - now)
    else if !s.warnedIdle && idle.Some? && now + p.warningLead >= idle.value then Warn(false, idle.value - now)
    else Leave
  }

  /** `due` is what the timer has decided under the lock and not yet done. */
  datatype State = State(session: Session, due: Decision)

  /** `Look` decides under the session's lock, `Act` does what was decided after the lock is
      gone; `End` is a teardown from elsewhere. */
  datatype Event =
    | Attach(at: nat)
    | Detach(conn: nat)
    | Renew
    | End
    | Pong(conn: nat, at: nat)
    | MissedPing(conn: nat)
    | Traffic(at: nat)
    | Look(at: nat)
    | Act

  function Left(s: Session): Session {
    s.(owner := 0, subscriber := None)
  }

  /** The warning is marked as given where it is decided. */
  function Marked(s: Session, d: Decision): Session {
    if !d.Warn? then s else if d.absolute then s.(warnedAbsolute := true) else s.(warnedIdle := true)
  }

  function Acted(s: Session, d: Decision): Session {
    if d.Expire? then Left(s).(alive := false) else s
  }

  /** The connection a decided warning is pushed to. */
  function Told(s: Session, d: Decision): Option<nat> {
    if d.Warn? then s.subscriber else None
  }

  function Touch(s: Session, e: Event, p: Policy): Session {
    match e
    case Attach(at) =>
      if s.alive then
        s.(owner := s.nextConn, subscriber := Some(s.nextConn), nextConn := s.nextConn + 1, missed := 0, lastActivity := at)
      else s
    case Detach(conn) => if s.owner == conn then Left(s).(missed := 0) else s
    case Renew => if s.alive then Left(s).(missed := 0) else s
    case End => Left(s).(alive := false)
    case Pong(conn, at) => s.(lastActivity := at, missed := if s.owner == conn then 0 else s.missed)
    case MissedPing(conn) =>
      if s.owner != conn then s
      else if s.missed + 1 < p.missedPingLimit then s.(missed := s.missed + 1)
      else Left(s).(missed := s.missed + 1)
    case Traffic(at) => s.(lastActivity := at)
    case _ => s
  }

  /** One timer: it looks again only once it has done what it decided. */
  function Step(m: State, e: Event, p: Policy): State {
    match e
    case Look(at) =>
      if m.due.Leave? then State(Marked(m.session, Decide(m.session, at, p)), Decide(m.session, at, p)) else m
    case Act => State(Acted(m.session, m.due), Leave)
    case _ => m.(session := Touch(m.session, e, p))
  }

  function Run(created: nat, events: seq<Event>, p: Policy): State
    decreases |events|
  {
    if events == [] then State(NewSession(created), Leave)
    else Step(Run(created, events[..|events| - 1], p), events[|events| - 1], p)
  }

  /** The timer looks, having nothing left to do. */
  predicate Looks(m: State, e: Event) {
    e.Look? && m.due.Leave?
  }

  // ----- the absolute lifetime -----------------------------------------------------------------

  lemma {:induction false} CreatedOnce(created: nat, events: seq<Event>, p: Policy)
    ensures Run(created, events, p).session.createdAt == created
    decreases |events|
  {
    if events != [] { CreatedOnce(created, events[..|events| - 1], p); }
  }

  /** The timer has looked inside the last `warningLead` before the deadline. */
  predicate LookedInTime(created: nat, events: seq<Event>, p: Policy)
    decreases |events|
  {
    events != [] && (
      var before, e := events[..|events| - 1], events[|events| - 1];
      || LookedInTime(created, before, p)
      || (Looks(Run(created, before, p), e)
          && created + p.absoluteTtl - p.warningLead <= e.at < created + p.absoluteTtl))
  }

  lemma {:induction false} WarnedWhenLooked(created: nat, events: seq<Event>, p: Policy)
    ensures var m := Run(created, events, p);
      m.session.alive && !m.due.Expire? ==> (m.session.warnedAbsolute <==> LookedInTime(created, events, p))
    decreases |events|
  {
    if events != [] {
      var before := events[..|events| - 1];
      WarnedWhenLooked(created, before, p);
      CreatedOnce(created, before, p);
      hide Run, LookedInTime;
      WarnedUnfolds(created, before, events[|events| - 1], events, p);
    }
  }

  lemma WarnedUnfolds(created: nat, before: seq<Event>, e: Event, events: seq<Event>, p: Policy)
    requires events != [] && before == events[..|events| - 1] && e == events[|events| - 1]
    requires var m := Run(created, before, p);
      && m.session.createdAt == created
      && (m.session.alive && !m.due.Expire? ==> (m.session.warnedAbsolute <==> LookedInTime(created, before, p)))
    ensures var m := Run(created, events, p);
      m.session.alive && !m.due.Expire? ==> (m.session.warnedAbsolute <==> LookedInTime(created, events, p))
  {
  }

  /** A live session looked at from its absolute deadline on is decided to have ended,
      attached or not, and never as too old before; its warning was marked as given exactly
      when the timer had looked at it in the last lead before the deadline. */
  lemma AbsoluteCapHolds(created: nat, events: seq<Event>, p: Policy, now: nat)
    ensures var m := Run(created, events, p);
      && (m.session.alive ==> (Decide(m.session, now, p) == Expire(true) <==> now >= created + p.absoluteTtl))
      && (m.session.alive && !m.due.Expire? ==> (m.session.warnedAbsolute <==> LookedInTime(created, events, p)))
  {
    CreatedOnce(created, events, p);
    WarnedWhenLooked(created, events, p);
  }

  // ----- the idle lifetime ---------------------------------------------------------------------

  predicate IsActivity(e: Event) {
    e.Attach? || e.Pong? || e.Traffic?
  }

  predicate ActivityWithin(events: seq<Event>, last: nat) {
    forall k :: 0 <= k < |events| && IsActivity(events[k]) ==> events[k].at <= last
  }

  /** Only activity need come in the order of its times: a look may carry an old clock
      reading. */
  predicate Ordered(created: nat, events: seq<Event>) {
    && (forall i, j :: 0 <= i < j < |events| && IsActivity(events[i]) && IsActivity(events[j]) ==>
          events[i].at <= events[j].at)
    && (forall k :: 0 <= k < |events| && IsActivity(events[k]) ==> created <= events[k].at)
  }

  lemma LastActivityIs(m: State, e: Event, p: Policy)
    requires Step(m, e, p).session.alive
    ensures m.session.alive
    ensures Step(m, e, p).session.lastActivity == if IsActivity(e) then e.at else m.session.lastActivity
  {
    hide Decide;
  }

  lemma OrderedUnfolds(created: nat, events: seq<Event>, before: seq<Event>, e: Event, last: nat)
    requires Ordered(created, events) && |events| == |before| + 1 && e == events[|before|]
    requires forall k :: 0 <= k < |before| ==> events[k] == before[k]
    ensures Ordered(created, before)
    ensures IsActivity(e) ==> ActivityWithin(events, e.at) && created <= e.at
    ensures !IsActivity(e) && ActivityWithin(before, last) ==> ActivityWithin(events, last)
  {
  }

  lemma {:induction false} ActivityIsKept(created: nat, events: seq<Event>, p: Policy)
    requires Ordered(created, events)
    ensures var s := Run(created, events, p).session;
      s.alive ==> ActivityWithin(events, s.lastActivity) && created <= s.lastActivity
    decreases |events|
  {
    if events != [] {
      var before, e := events[..|events| - 1], events[|events| - 1];
      var m := Run(created, before, p);
      OrderedUnfolds(created, events, before, e, m.session.lastActivity);
      ActivityIsKept(created, before, p);
      hide Step, Ordered, ActivityWithin;
      if Step(m, e, p).session.alive { LastActivityIs(m, e, p); }
    }
  }

  /** The timer decides to end a session for idleness only while nobody is attached and
      nothing has happened for the whole idle lifetime: no attach, no pong, no input or
      output. */
  lemma IdleMeansQuiet(created: nat, events: seq<Event>, p: Policy, now: nat)
    requires Ordered(created, events)
    requires Decide(Run(created, events, p).session, now, p) == Expire(false)
    ensures Run(created, events, p).session.owner == 0
    ensures forall k :: 0 <= k < |events| && IsActivity(events[k]) ==> events[k].at + p.idleTtl <= now
    ensures now < created + p.absoluteTtl
  {
    CreatedOnce(created, events, p);
    ActivityIsKept(created, events, p);
  }

  /** When the session last saw an attach, a pong, or any input or output; at first, when
      it was created. */
  function LastActive(created: nat, events: seq<Event>): nat
    decreases |events|
  {
    if events == [] then created
    else if IsActivity(events[|events| - 1]) then events[|events| - 1].at
    else LastActive(created, events[..|events| - 1])
  }

  lemma {:induction false} ActivityIsLast(created: nat, events: seq<Event>, p: Policy)
    ensures var s := Run(created, events, p).session; s.alive ==> s.lastActivity == LastActive(created, events)
    decreases |events|
  {
    if events != [] {
      var before, e := events[..|events| - 1], events[|events| - 1];
      ActivityIsLast(created, before, p);
      hide Step;
      if Step(Run(created, before, p), e, p).session.alive { LastActivityIs(Run(created, before, p), e, p); }
    }
  }

  /** What a look at a live session decides, told from its history: the end by age from its
      deadline on; before that the idle end exactly when nobody is attached and the idle
      lifetime has passed since the last activity; else each warning exactly inside its
      lead, once, with the time that is left, the one for age first. */
  lemma LookDecidesExactly(created: nat, events: seq<Event>, p: Policy, now: nat)
    requires Run(created, events, p).session.alive && Run(created, events, p).due.Leave?
    ensures var s := Run(created, events, p).session;
      var d, ends, idle := Decide(s, now, p), created + p.absoluteTtl, LastActive(created, events) + p.idleTtl;
      && (d == Expire(true) <==> ends <= now)
      && (d == Expire(false) <==> now < ends && s.owner == 0 && idle <= now)
      && (d.Warn? && d.absolute <==>
            && ends <= now + p.warningLead && now < ends && !(s.owner == 0 && idle <= now)
            && WarningsIn(created, events, p, true) == 0)
      && (d.Warn? && !d.absolute <==>
            && s.owner == 0 && idle <= now + p.warningLead && now < idle && now < ends
            && WarningsIn(created, events, p, false) == 0
            && !(ends <= now + p.warningLead && WarningsIn(created, events, p, true) == 0))
      && (d.Warn? ==> now + d.remaining == if d.absolute then ends else idle)
  {
    CreatedOnce(created, events, p);
    ActivityIsLast(created, events, p);
    EachWarningOnce(created, events, p, true);
    EachWarningOnce(created, events, p, false);
    hide Run, WarningsIn, DeliveredIn, LastActive;
  }

  /** An owner that leaves, is renewed away or misses its last ping leaves a live session
      whose idle lifetime runs from its last activity. */
  lemma LeavingStartsIdle(m: State, e: Event, p: Policy, now: nat)
    requires m.session.alive && m.session.owner != 0 && m.due.Leave?
    requires || e == Detach(m.session.owner) || e == Renew
             || (e == MissedPing(m.session.owner) && m.session.missed + 1 >= p.missedPingLimit)
    requires now < AbsoluteDeadline(m.session, p)
    ensures var r := Step(m, e, p).session;
      r.alive && (Decide(r, now, p) == Expire(false) <==> m.session.lastActivity + p.idleTtl <= now)
    ensures Decide(m.session, now, p) != Expire(false)
  {
  }

  // ----- between the look and the act ------------------------------------------------------------

  predicate SubscribedIsOwner(s: Session) {
    s.nextConn >= 1 && s.subscriber == if s.owner == 0 then None else Some(s.owner)
  }

  lemma StepKeepsSubscriber(m: State, e: Event, p: Policy)
    requires SubscribedIsOwner(m.session)
    ensures SubscribedIsOwner(Step(m, e, p).session)
  {
    hide Decide;
  }

  lemma {:induction false} RunKeepsSubscriber(created: nat, events: seq<Event>, p: Policy)
    ensures SubscribedIsOwner(Run(created, events, p).session)
    decreases |events|
  {
    if events != [] {
      var before := events[..|events| - 1];
      RunKeepsSubscriber(created, before, p);
      hide Step, SubscribedIsOwner;
      StepKeepsSubscriber(Run(created, before, p), events[|events| - 1], p);
    }
  }

  predicate IsIdle(d: Decision) {
    !d.Leave? && !d.absolute
  }

  /** The look that made the decision now due. */
  function DecidedAt(created: nat, events: seq<Event>, p: Policy): (k: nat)
    requires !Run(created, events, p).due.Leave?
    ensures k < |events| && Looks(Run(created, events[..k], p), events[k])
    ensures Decide(Run(created, events[..k], p).session, events[k].at, p) == Run(created, events, p).due
    decreases |events|
  {
    var n := |events| - 1;
    var before := events[..n];
    if Looks(Run(created, before, p), events[n]) then n
    else
      var k := DecidedAt(created, before, p);
      assert before[..k] == events[..k];
      k
  }

  /** The state after the first `k` events. */
  function After(created: nat, events: seq<Event>, k: nat, p: Policy): State
    requires k <= |events|
  {
    Run(created, events[..k], p)
  }

  /** The `k`-th event is an attach, and its connection has owned the session ever since. */
  predicate Stands(created: nat, events: seq<Event>, k: nat, p: Policy) {
    && k < |events| && events[k].Attach?
    && forall j :: k < j <= |events| ==>
         After(created, events, j, p).session.owner == After(created, events, k, p).session.nextConn
  }

  lemma AfterUnfolds(created: nat, before: seq<Event>, e: Event, k: nat, p: Policy)
    requires k <= |before|
    ensures After(created, before + [e], k, p) == After(created, before, k, p)
  {
    assert (before + [e])[..k] == before[..k];
    hide Run;
  }

  lemma AfterAll(created: nat, events: seq<Event>, p: Policy)
    ensures After(created, events, |events|, p) == Run(created, events, p)
  {
    assert events[..|events|] == events;
  }

  lemma StandsUnfolds(created: nat, before: seq<Event>, e: Event, k: nat, p: Policy)
    requires Stands(created, before, k, p)
    requires Run(created, before + [e], p).session.owner == Run(created, before, p).session.owner
    ensures Stands(created, before + [e], k, p)
  {
    hide Run, After;
    AfterAll(created, before + [e], p);
    AfterAll(created, before, p);
    forall j | k <= j <= |before| ensures After(created, before + [e], j, p) == After(created, before, j, p) {
      AfterUnfolds(created, before, e, j, p);
    }
  }

  /** Nobody owned the session when the decision was taken. */
  lemma IdleAtLook(created: nat, events: seq<Event>, p: Policy)
    requires IsIdle(Run(created, events, p).due)
    ensures Run(created, events[..DecidedAt(created, events, p)], p).session.owner == 0
  {
  }

  lemma OwnerMoves(m: State, e: Event, p: Policy)
    ensures var r := Step(m, e, p);
      && (Looks(m, e) && IsIdle(r.due) ==> r.session.owner == 0)
      && (!Looks(m, e) && IsIdle(r.due) ==> r.due == m.due)
      && (r.session.owner != m.session.owner && r.session.owner != 0 ==> e.Attach? && r.session.owner == m.session.nextConn)
  {
  }

  lemma LastStands(created: nat, before: seq<Event>, e: Event, p: Policy)
    requires e.Attach? && Run(created, before + [e], p).session.owner == Run(created, before, p).session.nextConn
    ensures Stands(created, before + [e], |before|, p)
  {
    hide Run, After;
    AfterAll(created, before + [e], p);
    AfterUnfolds(created, before, e, |before|, p);
    AfterAll(created, before, p);
  }

  lemma {:induction false} OwnerAttached(created: nat, events: seq<Event>, p: Policy) returns (k: nat)
    requires IsIdle(Run(created, events, p).due) && Run(created, events, p).session.owner != 0
    ensures DecidedAt(created, events, p) < k && Stands(created, events, k, p)
    decreases |events|
  {
    hide Step, Stands, After;
    var n := |events| - 1;
    var before, e := events[..n], events[n];
    var m, r := Run(created, before, p), Run(created, events, p);
    assert events == before + [e];
    OwnerMoves(m, e, p);
    if r.session.owner == m.session.owner {
      k := OwnerAttached(created, before, p);
      StandsUnfolds(created, before, e, k, p);
    } else {
      k := n;
      LastStands(created, before, e, p);
    }
  }

  /** An idle decision meets a client exactly when one attached between the look and the act
      and stands until it: a warning then reaches that client, an end tears down an attached
      session. */
  lemma IdleActHitsExactly(created: nat, events: seq<Event>, p: Policy)
    requires IsIdle(Run(created, events, p).due)
    ensures Run(created, events[..DecidedAt(created, events, p)], p).session.owner == 0
    ensures var m, at := Run(created, events, p), DecidedAt(created, events, p);
      m.session.owner != 0 <==> exists k :: at < k && Stands(created, events, k, p)
    ensures var m := Run(created, events, p);
      m.due.Warn? ==> Told(m.session, m.due) == if m.session.owner != 0 then Some(m.session.owner) else None
    ensures var m := Run(created, events, p);
      m.due.Expire? ==> Step(m, Act, p).session == Left(m.session).(alive := false)
  {
    var m, at := Run(created, events, p), DecidedAt(created, events, p);
    RunKeepsSubscriber(created, events, p);
    IdleAtLook(created, events, p);
    if m.session.owner != 0 {
      var k := OwnerAttached(created, events, p);
    }
    forall k | at < k && Stands(created, events, k, p) ensures m.session.owner != 0 {
      RunKeepsSubscriber(created, events[..k], p);
      AfterAll(created, events, p);
    }
  }

  /** The two inputs: from any state with an idle decision at hand, an attach that falls
      between the look and the act gets the warning, or has its session ended under it. */
  lemma AttachBetween(m: State, at: nat, t: nat, p: Policy)
    requires m.due.Leave? && IsIdle(Decide(m.session, at, p))
    ensures var d, attached := Decide(m.session, at, p), Step(Step(m, Look(at), p), Attach(t), p);
      && m.session.owner == 0 && attached.due == d
      && attached.session.alive && attached.session.owner == m.session.nextConn
      && (d.Warn? ==> Told(attached.session, attached.due) == Some(m.session.nextConn))
      && (d.Expire? ==> !Step(attached, Act, p).session.alive)
  {
  }

  /** Both inputs exist. */
  lemma IdleDecisionsExist()
    ensures var p := Policy(1000, 10, 2, 3);
      && Decide(Run(0, [], p).session, 9, p) == Warn(false, 1)
      && Decide(Run(0, [], p).session, 10, p) == Expire(false)
  {
  }

  // ----- the warnings ------------------------------------------------------------------------------

  function OneIf(b: bool): nat {
    if b then 1 else 0
  }

  predicate IsWarning(d: Decision, absolute: bool) {
    d.Warn? && d.absolute == absolute
  }

  /** Warnings of the one kind that were decided. */
  function WarningsIn(created: nat, events: seq<Event>, p: Policy, absolute: bool): nat
    decreases |events|
  {
    if events == [] then 0
    else
      var before, e := events[..|events| - 1], events[|events| - 1];
      var m := Run(created, before, p);
      WarningsIn(created, before, p, absolute)
        + OneIf(Looks(m, e) && IsWarning(Decide(m.session, e.at, p), absolute))
  }

  /** Warnings of the one kind that had a subscriber to go to when the timer acted. */
  function DeliveredIn(created: nat, events: seq<Event>, p: Policy, absolute: bool): nat
    decreases |events|
  {
    if events == [] then 0
    else
      var before, e := events[..|events| - 1], events[|events| - 1];
      var m := Run(created, before, p);
      DeliveredIn(created, before, p, absolute)
        + OneIf(e.Act? && IsWarning(m.due, absolute) && Told(m.session, m.due).Some?)
  }

  predicate Warned(s: Session, absolute: bool) {
    if absolute then s.warnedAbsolute else s.warnedIdle
  }

  /** Each of the two warnings is decided at most once in the life of a session, and reaches
      a client at most once. */
  lemma {:induction false} EachWarningOnce(created: nat, events: seq<Event>, p: Policy, absolute: bool)
    ensures var m := Run(created, events, p);
      && WarningsIn(created, events, p, absolute) == OneIf(Warned(m.session, absolute))
      && DeliveredIn(created, events, p, absolute) + OneIf(IsWarning(m.due, absolute))
           <= WarningsIn(created, events, p, absolute)
    decreases |events|
  {
    if events != [] {
      EachWarningOnce(created, events[..|events| - 1], p, absolute);
      WarningCounts(Run(created, events[..|events| - 1], p), events[|events| - 1], p, absolute);
      hide Step, Decide, Told, Looks;
    }
  }

  lemma WarningCounts(m: State, e: Event, p: Policy, absolute: bool)
    ensures var r := Step(m, e, p);
      && OneIf(Warned(r.session, absolute)) == OneIf(Warned(m.session, absolute))
           + OneIf(Looks(m, e) && IsWarning(Decide(m.session, e.at, p), absolute))
      && OneIf(IsWarning(r.due, absolute))
           + OneIf(e.Act? && IsWarning(m.due, absolute) && Told(m.session, m.due).Some?)
         <= OneIf(IsWarning(m.due, absolute))
           + OneIf(Looks(m, e) && IsWarning(Decide(m.session, e.at, p), absolute))
  {
  }

  /** A session left alone and warned, taken up and left alone once more is decided to end
      as idle without a second warning. From any state in which its first warning is due. */
  lemma SecondIdleEndUnwarned(m: State, at: nat, t: nat, p: Policy)
    requires m.due.Leave? && Decide(m.session, at, p).Warn? && !Decide(m.session, at, p).absolute
    requires t + p.idleTtl < AbsoluteDeadline(m.session, p) && p.warningLead < p.idleTtl
    ensures var taken := Step(Step(Step(m, Look(at), p), Act, p), Attach(t), p);
      var left := Step(taken, Detach(taken.session.owner), p);
      && left.session.alive && left.session.owner == 0 && left.due.Leave?
      && Decide(left.session, t + p.idleTtl, p) == Expire(false)
      && forall now :: !IsWarning(Decide(left.session, now, p), false)
  {
  }

  // ----- half-open connections -----------------------------------------------------------------

  /** Pings the owner missed since it attached or last answered. */
  function MissedInARow(created: nat, events: seq<Event>, p: Policy): nat
    decreases |events|
  {
    if events == [] then 0
    else
      var before, e := events[..|events| - 1], events[|events| - 1];
      var s := Run(created, before, p).session;
      if e.MissedPing? && e.conn == s.owner then MissedInARow(created, before, p) + 1
      else if (e.Attach? && s.alive) || (e.Pong? && e.conn == s.owner) then 0
      else MissedInARow(created, before, p)
  }

  lemma {:induction false} MissesAreCounted(created: nat, events: seq<Event>, p: Policy)
    ensures var s := Run(created, events, p).session;
      s.owner != 0 ==> s.missed == MissedInARow(created, events, p)
    decreases |events|
  {
    hide Decide;
    if events != [] { MissesAreCounted(created, events[..|events| - 1], p); }
  }

  /** Of the owner's and every replaced connection's events only the owner's count: it is
      detached at exactly the limit-th ping missed in a row, its session lives on, and no
      pong, missed ping or detach of another connection moves it or its count. */
  lemma DetachedExactlyAtLimit(created: nat, events: seq<Event>, p: Policy, at: nat, other: nat)
    requires Run(created, events, p).session.owner != 0
    ensures var s := Run(created, events, p).session;
      var r := Touch(s, MissedPing(s.owner), p);
      && (r.owner == 0 <==> MissedInARow(created, events, p) + 1 >= p.missedPingLimit)
      && (r.owner != 0 ==> r.owner == s.owner)
      && (r.owner == 0 <==> r.subscriber.None?)
      && r.alive == s.alive
    ensures var s := Run(created, events, p).session;
      other != s.owner ==>
        forall e :: e in [MissedPing(other), Pong(other, at), Detach(other)] ==>
          Touch(s, e, p).owner == s.owner && Touch(s, e, p).missed == s.missed == MissedInARow(created, events, p)
  {
    MissesAreCounted(created, events, p);
    RunKeepsSubscriber(created, events, p);
    hide Run, MissedInARow;
  }

  // ----- the object ----------------------------------------------------------------------------

  class SessionClock {
    const createdAt: nat
    const policy: Policy
    var owner: nat
    var subscriber: Option<nat>
    var nextConn: nat
    var missed: nat
    var lastActivity: nat
    var alive: bool
    var warnedAbsolute: bool
    var warnedIdle: bool

    ghost function View(): Session
      reads this
    {
      Session(createdAt, owner, subscriber, nextConn, missed, lastActivity, alive, warnedAbsolute, warnedIdle)
    }

    constructor (at: nat, policy: Policy)
      ensures View() == NewSession(at) && this.policy == policy
    {
      createdAt, this.policy := at, policy;
      owner, subscriber, nextConn, missed, lastActivity := 0, None, 1, 0, at;
      alive, warnedAbsolute, warnedIdle := true, false, false;
    }

    /** Counts as liveness even for a connection already replaced. */
    method OnPong(conn: nat, now: nat)
      modifies this
      ensures View() == Touch(old(View()), Pong(conn, now), policy)
    {
      if owner == conn {
        missed := 0;
      }
      lastActivity := now;
    }

    /** True once the connection counts as detached. */
    method OnMissedPing(conn: nat) returns (detached: bool)
      modifies this
      ensures View() == Touch(old(View()), MissedPing(conn), policy)
      ensures detached <==> old(owner) != conn || old(missed) + 1 >= policy.missedPingLimit
    {
      if owner != conn {
        return true;
      }
      missed := missed + 1;
      if missed < policy.missedPingLimit {
        return false;
      }
      owner, subscriber := 0, None;
      return true;
    }

    /** One look of the timer, under the lock: what to do, with a warning marked as given. */
    method LookAt(now: nat) returns (d: Decision)
      modifies this
      ensures d == Decide(old(View()), now, policy)
      ensures View() == Marked(old(View()), d)
    {
      if !alive {
        return Leave;
      }
      var deadline := createdAt + policy.absoluteTtl;
      var idle := if owner == 0 then Some(lastActivity + policy.idleTtl) else None;
      if now >= deadline {
        return Expire(true);
      } else if idle.Some? && now >= idle.value {
        return Expire(false);
      } else if !warnedAbsolute && now + policy.warningLead >= deadline {
        warnedAbsolute := true;
        return Warn(true, deadline - now);
      } else if !warnedIdle && idle.Some? && now + policy.warningLead >= idle.value {
        warnedIdle := true;
        return Warn(false, idle.value - now);
      } else {
        return Leave;
      }
    }

    /** What was decided, done after the lock is gone: the warning goes to whoever is
        subscribed by now, an expired session ends whoever owns it by now. */
    method ActOn(d: Decision) returns (told: Option<nat>)
      modifies this
      ensures told == Told(old(View()), d)
      ensures View() == Acted(old(View()), d)
    {
      told := None;
      match d
      case Leave =>
      case Warn(_, _) => told := subscriber;
      case Expire(_) => alive, owner, subscriber := false, 0, None;
    }
  }
}
