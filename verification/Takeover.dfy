/** The takeover budget of one session, and the attach decision that charges it. */
module Takeover {
  import opened Bytes

  datatype Policy = Policy(maxTakeovers: nat, window: nat) {
    predicate Valid() { maxTakeovers > 0 && window > 0 }
  }

  /** The limiter's fields. */
  datatype Budget = Budget(generation: nat, windowStart: nat, count: nat, firstOfGeneration: bool)

  function NewBudget(generation: nat, now: nat): Budget {
    Budget(generation, now, 0, true)
  }

  /** The budget a decision is taken on: reset by a new generation, and by a window
      that has run out. */
  function Current(b: Budget, generation: nat, now: nat, p: Policy): Budget {
    var g := if b.generation != generation then NewBudget(generation, now) else b;
    if !g.firstOfGeneration && now >= g.windowStart + p.window then g.(windowStart := now, count := 0) else g
  }

  predicate Allowed(b: Budget, generation: nat, now: nat, p: Policy) {
    var c := Current(b, generation, now, p);
    c.firstOfGeneration || c.count < p.maxTakeovers
  }

  function Charged(b: Budget, generation: nat, now: nat, p: Policy): Budget {
    var c := Current(b, generation, now, p);
    if c.firstOfGeneration then c.(firstOfGeneration := false)
    else if c.count < p.maxTakeovers then c.(count := c.count + 1)
    else c
  }

  class TakeoverLimiter {
    var generation: nat
    var windowStart: nat
    var count: nat
    var firstAttachOfGeneration: bool

    function View(): Budget
      reads this
    {
      Budget(generation, windowStart, count, firstAttachOfGeneration)
    }

    constructor (generation: nat, now: nat)
      ensures View() == NewBudget(generation, now)
    {
      this.generation, windowStart, count, firstAttachOfGeneration := generation, now, 0, true;
    }

    method Allow(generation: nat, now: nat, p: Policy) returns (ok: bool)
      modifies this
      ensures ok == Allowed(old(View()), generation, now, p)
      ensures View() == Charged(old(View()), generation, now, p)
    {
      if this.generation != generation {
        this.generation, windowStart, count, firstAttachOfGeneration := generation, now, 0, true;
      }
      if firstAttachOfGeneration {
        firstAttachOfGeneration := false;
        return true;
      }
      if now >= windowStart + p.window {
        windowStart, count := now, 0;
      }
      if count >= p.maxTakeovers {
        return false;
      }
      count := count + 1;
      return true;
    }
  }

  // ----- the session around it ----------------------------------------------------------

  /** The part of a session's state an attach decides on. */
  datatype Session = Session(
    alive: bool, generation: nat, owner: nat, nextConn: nat, subscriber: Option<nat>, budget: Budget)

  function NewSession(generation: nat, now: nat): Session {
    Session(true, generation, 0, 1, None, NewBudget(generation, now))
  }

  datatype Outcome = SessionDead | Unauthorized | RateLimited | Attached(conn: nat, preempted: bool)

  /** An attach and a renewal ask whether the session is alive before they take its lock,
      and not again under it: one that asked early enough goes on with a dead session. */
  predicate FoundAlive(s: Session, early: bool) {
    s.alive || early
  }

  /** The decision of an attach presenting `generation` at time `now`. */
  function Decide(s: Session, early: bool, generation: nat, now: nat, p: Policy): Outcome {
    if !FoundAlive(s, early) then SessionDead
    else if s.generation != generation then Unauthorized
    else if s.owner != 0 && !Allowed(s.budget, generation, now, p) then RateLimited
    else Attached(s.nextConn, s.owner != 0)
  }

  /** The session after it: the budget is charged by every attach of the right
      generation, preempting or not. */
  function AfterAttach(s: Session, early: bool, generation: nat, now: nat, p: Policy): Session {
    if !FoundAlive(s, early) || s.generation != generation then s
    else
      var charged := s.(budget := Charged(s.budget, generation, now, p));
      if Decide(s, early, generation, now, p).Attached? then
        charged.(owner := s.nextConn, nextConn := s.nextConn + 1, subscriber := Some(s.nextConn))
      else charged
  }

  datatype Event =
    | AttachAt(generation: nat, now: nat, early: bool)
    | Release(conn: nat)
    | Renew(early: bool)
    | End

  function Step(s: Session, e: Event, p: Policy): Session {
    match e
    case AttachAt(generation, now, early) => AfterAttach(s, early, generation, now, p)
    case Release(conn) => if s.owner == conn then s.(owner := 0, subscriber := None) else s
    case Renew(early) =>
      if FoundAlive(s, early) then s.(generation := s.generation + 1, owner := 0, subscriber := None) else s
    case End => s.(alive := false, owner := 0, subscriber := None)
  }

  function Run(s: Session, events: seq<Event>, p: Policy): Session
    decreases |events|
  {
    if events == [] then s else Run(Step(s, events[0], p), events[1..], p)
  }

  /** Every attach of the stretch is turned away when its turn comes. */
  predicate AllRefused(s: Session, events: seq<Event>, p: Policy)
    decreases |events|
  {
    events == [] || (
      && events[0].AttachAt? && !Decide(s, events[0].early, events[0].generation, events[0].now, p).Attached?
      && AllRefused(Step(s, events[0], p), events[1..], p))
  }

  /** However many takeovers are refused, the incumbent keeps the session, its number and
      its subscription. */
  lemma {:induction false} RefusalsKeepIncumbent(s: Session, events: seq<Event>, p: Policy)
    requires AllRefused(s, events, p)
    ensures Run(s, events, p) == s.(budget := Run(s, events, p).budget)
    decreases |events|
  {
    if events != [] { RefusalsKeepIncumbent(Step(s, events[0], p), events[1..], p); }
  }

  /** Nobody owns a session before the first attach of its generation. */
  ghost predicate Inv(s: Session) {
    && s.owner < s.nextConn
    && (s.subscriber == if s.owner == 0 then None else Some(s.owner))
    && (s.budget.generation != s.generation || s.budget.firstOfGeneration ==> s.owner == 0)
    && s.budget.generation <= s.generation
  }

  lemma StepKeepsInv(s: Session, e: Event, p: Policy)
    requires Inv(s)
    ensures Inv(Step(s, e, p))
  {
  }

  lemma {:induction false} RunKeepsInv(s: Session, events: seq<Event>, p: Policy)
    requires Inv(s)
    ensures Inv(Run(s, events, p))
    decreases |events|
  {
    if events != [] {
      StepKeepsInv(s, events[0], p);
      RunKeepsInv(Step(s, events[0], p), events[1..], p);
    }
  }

  /** After any history a renewal is refused exactly when it finds the session dead;
      otherwise, whatever the budget was, the next attach presenting the new generation
      preempts nobody and succeeds unless it finds the session dead, and the old generation
      is turned away. */
  lemma FirstAttachAfterRenewSucceeds(
    generation: nat, start: nat, events: seq<Event>, early: bool, late: bool, now: nat, p: Policy)
    ensures var before := Run(NewSession(generation, start), events, p);
      var s := Step(before, Renew(early), p);
      && (s == before <==> !FoundAlive(before, early))
      && (s != before ==>
            && Allowed(s.budget, s.generation, now, p)
            && Decide(s, late, s.generation, now, p) == (if FoundAlive(s, late) then Attached(s.nextConn, false) else SessionDead)
            && !Decide(s, late, before.generation, now, p).Attached?)
  {
    RunKeepsInv(NewSession(generation, start), events, p);
  }

  /** No attach of the stretch acts on what it saw before the session ended. */
  predicate NoneEarly(events: seq<Event>) {
    forall i :: 0 <= i < |events| && events[i].AttachAt? ==> !events[i].early
  }

  lemma {:induction false} DeadStaysFree(s: Session, events: seq<Event>, p: Policy)
    requires NoneEarly(events) && (!s.alive ==> s.owner == 0)
    ensures !Run(s, events, p).alive ==> Run(s, events, p).owner == 0
    decreases |events|
  {
    if events != [] { DeadStaysFree(Step(s, events[0], p), events[1..], p); }
  }

  lemma {:induction false} RunLast(s: Session, events: seq<Event>, e: Event, p: Policy)
    ensures Run(s, events + [e], p) == Step(Run(s, events, p), e, p)
    decreases |events|
  {
    if events == [] {
      assert [] + [e] == [e] && [e][1..] == [];
    } else {
      assert (events + [e])[1..] == events[1..] + [e];
      hide Step;
      RunLast(Step(s, events[0], p), events[1..], e, p);
    }
  }

  /** A dead session gets an owner exactly from an attach that asked before it died:
      without one it has none in any history, and right after its end each such attach of
      its generation is accepted. */
  lemma DeadOwnedExactly(generation: nat, start: nat, events: seq<Event>, e: Event, p: Policy)
    requires NoneEarly(events) && e.AttachAt?
    ensures var s := Run(NewSession(generation, start), events, p);
      var r := Run(NewSession(generation, start), events + [e], p);
      !s.alive ==> s.owner == 0 && !r.alive && (r.owner != 0 <==> e.early && e.generation == s.generation)
  {
    DeadStaysFree(NewSession(generation, start), events, p);
    RunKeepsInv(NewSession(generation, start), events, p);
    RunLast(NewSession(generation, start), events, e, p);
  }

  // ----- the rate ------------------------------------------------------------------------

  /** Accepted preemptions of a run. */
  function Preemptions(s: Session, events: seq<Event>, p: Policy): nat
    decreases |events|
  {
    if events == [] then 0 else PreemptsNow(s, events[0], p) + Preemptions(Step(s, events[0], p), events[1..], p)
  }

  function PreemptsNow(s: Session, e: Event, p: Policy): nat {
    if e.AttachAt? && Decide(s, e.early, e.generation, e.now, p).Attached? && s.owner != 0 then 1 else 0
  }

  /** Attach times in order, all within `[from, from + window)`, and no renewal. */
  predicate WithinSpan(events: seq<Event>, from: nat, p: Policy)
    decreases |events|
  {
    events == [] || (
      && !events[0].Renew?
      && (events[0].AttachAt? ==> from <= events[0].now < from + p.window)
      && WithinSpan(events[1..], from, p))
  }

  /** While no window can run out, what is left of the budget bounds the preemptions. */
  lemma {:induction false} WithinOneWindow(s: Session, events: seq<Event>, from: nat, p: Policy)
    requires Inv(s) && p.Valid() && WithinSpan(events, from, p)
    requires s.budget.generation == s.generation && !s.budget.firstOfGeneration
    requires from + p.window <= s.budget.windowStart + p.window
    ensures Preemptions(s, events, p) + s.budget.count <= Max(p.maxTakeovers, s.budget.count)
    decreases |events|
  {
    if events != [] {
      StepKeepsInv(s, events[0], p);
      WithinOneWindow(Step(s, events[0], p), events[1..], from, p);
    }
  }

  lemma {:induction false} WithinTwoWindows(s: Session, events: seq<Event>, from: nat, p: Policy)
    requires Inv(s) && p.Valid() && WithinSpan(events, from, p)
    requires s.budget.generation == s.generation && !s.budget.firstOfGeneration
    requires s.budget.count <= p.maxTakeovers
    ensures Preemptions(s, events, p) + s.budget.count <= 2 * p.maxTakeovers
    decreases |events|
  {
    if events != [] {
      var r := Step(s, events[0], p);
      StepKeepsInv(s, events[0], p);
      if r.budget.windowStart == s.budget.windowStart {
        WithinTwoWindows(r, events[1..], from, p);
      } else {
        WithinOneWindow(r, events[1..], from, p);
      }
    }
  }

  predicate CountBounded(s: Session, p: Policy) {
    s.budget.count <= p.maxTakeovers
  }

  lemma {:induction false} RunKeepsCount(s: Session, events: seq<Event>, p: Policy)
    requires CountBounded(s, p)
    ensures CountBounded(Run(s, events, p), p)
    decreases |events|
  {
    if events != [] { RunKeepsCount(Step(s, events[0], p), events[1..], p); }
  }

  /** Before the generation's first attach nothing is owned, so nothing is preempted
      until that attach has happened. */
  lemma {:induction false} SpanIsBounded(s: Session, events: seq<Event>, from: nat, p: Policy)
    requires Inv(s) && p.Valid() && CountBounded(s, p) && WithinSpan(events, from, p)
    ensures Preemptions(s, events, p) <= 2 * p.maxTakeovers
    decreases |events|
  {
    if events != [] {
      if s.budget.generation == s.generation && !s.budget.firstOfGeneration {
        WithinTwoWindows(s, events, from, p);
      } else {
        StepKeepsInv(s, events[0], p);
        SpanIsBounded(Step(s, events[0], p), events[1..], from, p);
      }
    }
  }

  /** In any history, every stretch without a renewal whose attaches all fall inside
      one window's length holds at most twice the budget of accepted preemptions. */
  lemma TakeoverRate(generation: nat, start: nat, before: seq<Event>, events: seq<Event>, from: nat, p: Policy)
    requires p.Valid() && WithinSpan(events, from, p)
    ensures Preemptions(Run(NewSession(generation, start), before, p), events, p) <= 2 * p.maxTakeovers
  {
    RunKeepsInv(NewSession(generation, start), before, p);
    RunKeepsCount(NewSession(generation, start), before, p);
    SpanIsBounded(Run(NewSession(generation, start), before, p), events, from, p);
  }

  // ----- refused exactly ---------------------------------------------------------------------

  /** The times of the attaches presenting the session's generation since it began. */
  function Asks(generation: nat, start: nat, events: seq<Event>, p: Policy): seq<nat>
    decreases |events|
  {
    if events == [] then []
    else
      var before, e := events[..|events| - 1], events[|events| - 1];
      var s, asks := Run(NewSession(generation, start), before, p), Asks(generation, start, before, p);
      match e
      case AttachAt(g, now, early) => if FoundAlive(s, early) && g == s.generation then asks + [now] else asks
      case Renew(early) => if FoundAlive(s, early) then [] else asks
      case _ => asks
  }

  /** When the first window began: with the session, or with the first attach of a later
      generation. */
  function Origin(renewed: bool, start: nat, asks: seq<nat>): nat {
    if renewed && asks != [] then asks[0] else start
  }

  /** When the window in force began: a later attach that finds it run out begins the next. */
  function WindowStart(origin: nat, asks: seq<nat>, p: Policy): nat
    decreases |asks|
  {
    if |asks| <= 1 then origin
    else
      var w, last := WindowStart(origin, asks[..|asks| - 1], p), asks[|asks| - 1];
      if last >= w + p.window then last else w
  }

  /** How many attaches after the generation's first have come since then. */
  function SinceWindow(origin: nat, asks: seq<nat>, p: Policy): nat
    decreases |asks|
  {
    if |asks| <= 1 then 0
    else if asks[|asks| - 1] >= WindowStart(origin, asks[..|asks| - 1], p) + p.window then 1
    else SinceWindow(origin, asks[..|asks| - 1], p) + 1
  }

  /** The budget against the history of the generation. */
  ghost predicate Tallied(b: Budget, generation: nat, renewed: bool, start: nat, asks: seq<nat>, p: Policy) {
    if asks == [] then if renewed then b.generation != generation else b == NewBudget(generation, start)
    else
      && b.generation == generation && !b.firstOfGeneration
      && b.windowStart == WindowStart(Origin(renewed, start, asks), asks, p)
      && b.count == Min(SinceWindow(Origin(renewed, start, asks), asks, p), p.maxTakeovers)
  }

  lemma AskTallies(b: Budget, generation: nat, renewed: bool, start: nat, asks: seq<nat>, now: nat, p: Policy)
    requires Tallied(b, generation, renewed, start, asks, p)
    ensures Tallied(Charged(b, generation, now, p), generation, renewed, start, asks + [now], p)
  {
    assert (asks + [now])[..|asks|] == asks;
    if asks != [] { assert (asks + [now])[0] == asks[0]; }
  }

  lemma {:induction false} HistoryTallies(generation: nat, start: nat, events: seq<Event>, p: Policy)
    ensures var s := Run(NewSession(generation, start), events, p);
      && s.generation >= generation && s.budget.generation <= s.generation
      && Tallied(s.budget, s.generation, s.generation > generation, start, Asks(generation, start, events, p), p)
    decreases |events|
  {
    if events != [] {
      var before, e := events[..|events| - 1], events[|events| - 1];
      HistoryTallies(generation, start, before, p);
      assert events == before + [e];
      RunLast(NewSession(generation, start), before, e, p);
      var s := Run(NewSession(generation, start), before, p);
      hide Tallied, Run, Allowed;
      if e.AttachAt? {
        AskTallies(s.budget, s.generation, s.generation > generation, start, Asks(generation, start, before, p), e.now, p);
      } else if e.Renew? && FoundAlive(s, e.early) {
        RenewTallies(s.budget, s.generation, start, p);
      }
    }
  }

  lemma RenewTallies(b: Budget, generation: nat, start: nat, p: Policy)
    requires b.generation <= generation
    ensures Tallied(b, generation + 1, true, start, [], p)
  {
  }

  /** For every policy and history: an attach of the present generation that meets an owner
      is refused exactly when the window has not run out and at least the budget's number of
      attaches after the generation's first have come since it began, or the budget is
      nothing at all. */
  lemma RefusedExactly(generation: nat, start: nat, events: seq<Event>, early: bool, now: nat, p: Policy)
    requires Run(NewSession(generation, start), events, p).owner != 0
    requires FoundAlive(Run(NewSession(generation, start), events, p), early)
    ensures var s, asks := Run(NewSession(generation, start), events, p), Asks(generation, start, events, p);
      var origin := Origin(s.generation > generation, start, asks);
      && asks != []
      && (Decide(s, early, s.generation, now, p) == RateLimited <==>
            p.maxTakeovers == 0
            || (now < WindowStart(origin, asks, p) + p.window && SinceWindow(origin, asks, p) >= p.maxTakeovers))
      && (Decide(s, early, s.generation, now, p) != RateLimited ==>
            Decide(s, early, s.generation, now, p) == Attached(s.nextConn, true))
  {
    HistoryTallies(generation, start, events, p);
    RunKeepsInv(NewSession(generation, start), events, p);
    hide Run, Asks, WindowStart, SinceWindow;
  }

  // ----- the bound is reached ----------------------------------------------------------------

  function Repeat(now: nat, n: nat): (r: seq<Event>)
    ensures |r| == n && forall i :: 0 <= i < n ==> r[i] == AttachAt(1, now, false)
  {
    seq(n, _ => AttachAt(1, now, false))
  }

  lemma {:induction false} PreemptionsAppend(s: Session, a: seq<Event>, b: seq<Event>, p: Policy)
    ensures Preemptions(s, a + b, p) == Preemptions(s, a, p) + Preemptions(Run(s, a, p), b, p)
    ensures Run(s, a + b, p) == Run(Run(s, a, p), b, p)
    decreases |a|
  {
    hide Step, PreemptsNow;
    if a == [] {
      assert a + b == b;
    } else {
      assert (a + b)[0] == a[0] && (a + b)[1..] == a[1..] + b;
      PreemptionsAppend(Step(s, a[0], p), a[1..], b, p);
    }
  }

  /** An owned session of generation 1 whose window began at `w` and has room for `n`. */
  predicate HasRoomFor(s: Session, w: nat, n: nat, p: Policy) {
    && s.alive && s.generation == 1 && s.owner != 0 && s.nextConn > 0
    && s.budget.generation == 1 && !s.budget.firstOfGeneration && s.budget.windowStart == w
    && s.budget.count + n <= p.maxTakeovers
  }

  lemma {:induction false} BurstPreempts(s: Session, w: nat, now: nat, n: nat, p: Policy)
    requires HasRoomFor(s, w, n, p) && now < w + p.window
    ensures Preemptions(s, Repeat(now, n), p) == n && HasRoomFor(Run(s, Repeat(now, n), p), w, 0, p)
    decreases n
  {
    if n > 0 {
      assert Repeat(now, n)[1..] == Repeat(now, n - 1);
      BurstPreempts(Step(s, AttachAt(1, now, false), p), w, now, n - 1, p);
    }
  }

  /** The same where the first of them opens a new window. */
  lemma NewWindowPreempts(s: Session, w: nat, now: nat, n: nat, p: Policy)
    requires HasRoomFor(s, w, 0, p) && now >= w + p.window && n <= p.maxTakeovers && p.window > 0
    ensures Preemptions(s, Repeat(now, n), p) == n
  {
    if n > 0 {
      assert Repeat(now, n)[1..] == Repeat(now, n - 1);
      BurstPreempts(Step(s, AttachAt(1, now, false), p), now, now, n - 1, p);
    }
  }

  lemma {:induction false} SpanOfTwo(now: nat, n: nat, m: nat, from: nat, p: Policy)
    requires from <= now && now + 1 < from + p.window
    ensures WithinSpan(Repeat(now, n) + Repeat(now + 1, m), from, p)
    decreases n + m
  {
    var events := Repeat(now, n) + Repeat(now + 1, m);
    if n > 0 {
      assert events[1..] == Repeat(now, n - 1) + Repeat(now + 1, m);
      SpanOfTwo(now, n - 1, m, from, p);
    } else if m > 0 {
      assert events[1..] == Repeat(now, 0) + Repeat(now + 1, m - 1);
      SpanOfTwo(now, 0, m - 1, from, p);
    }
  }

  /** The factor two is reached for every budget and every window of two or more: a budget
      spent at the end of one window and again at the start of the next. */
  lemma RateIsTight(p: Policy)
    requires p.window >= 2
    ensures var owned := Run(NewSession(1, 0), [AttachAt(1, 0, false)], p);
      var events := Repeat(p.window - 1, p.maxTakeovers) + Repeat(p.window, p.maxTakeovers);
      WithinSpan(events, p.window - 1, p) && Preemptions(owned, events, p) == 2 * p.maxTakeovers
  {
    var owned := Run(NewSession(1, 0), [AttachAt(1, 0, false)], p);
    assert [AttachAt(1, 0, false)][1..] == [];
    assert owned == Step(NewSession(1, 0), AttachAt(1, 0, false), p);
    var n := p.maxTakeovers;
    BurstPreempts(owned, 0, p.window - 1, n, p);
    NewWindowPreempts(Run(owned, Repeat(p.window - 1, n), p), 0, p.window, n, p);
    PreemptionsAppend(owned, Repeat(p.window - 1, n), Repeat(p.window, n), p);
    SpanOfTwo(p.window - 1, n, n, p.window - 1, p);
  }
}
