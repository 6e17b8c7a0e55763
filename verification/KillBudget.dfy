/** The tracking budget every session's kill domain draws on: a cap per session, a
    global ceiling, and a counter changed by compare-and-swap. */
module KillBudget {
  import opened Bytes

  type Pid = int

  datatype Limits = Limits(perSession: nat, maxGlobal: nat, fdBudget: nat)

  /** Where the limit on open files cannot be read there is no bound from it. */
  const NO_BUDGET: nat := 0xFFFF_FFFF_FFFF_FFFF

  /** What an operator's limits leave once descriptors are kept back for other sockets. */
  function LimitsFor(perSession: nat, maxGlobal: nat, headroom: nat, openFiles: Option<nat>): Limits {
    Limits(perSession, maxGlobal,
           if openFiles.None? then NO_BUDGET else if openFiles.value < headroom then 0 else openFiles.value - headroom)
  }

  function Ceiling(l: Limits): nat {
    Min(l.maxGlobal, l.fdBudget)
  }

  /** A session's list, and the counter value its reservation under way has read. */
  datatype Session = Session(tracked: seq<Pid>, seen: Option<nat>)

  datatype State = State(count: nat, sessions: seq<Session>)

  datatype Action =
    | Open
    | Look(session: nat)
    | Swap(session: nat, pid: Pid)
    | Release(session: nat)

  /** Read the counter, or refuse: past the session's cap, or past the ceiling. */
  function Read(s: State, i: nat, l: Limits): State
    requires i < |s.sessions|
  {
    var x := s.sessions[i];
    s.(sessions := s.sessions[i := x.(seen := if s.count < Ceiling(l) then Some(s.count) else None)])
  }

  function Step(s: State, a: Action, l: Limits): State {
    match a
    case Open => s.(sessions := s.sessions + [Session([], None)])
    case Look(i) =>
      if i < |s.sessions| && s.sessions[i].seen.None? && |s.sessions[i].tracked| < l.perSession then Read(s, i, l) else s
    case Swap(i, pid) =>
      if i >= |s.sessions| || s.sessions[i].seen.None? then s
      else if s.sessions[i].seen.value == s.count then
        State(s.count + 1, s.sessions[i := Session(s.sessions[i].tracked + [pid], None)])
      else Read(s, i, l)
    case Release(i) =>
      if i >= |s.sessions| || s.sessions[i].seen.Some? || |s.sessions[i].tracked| > s.count then s
      else State(s.count - |s.sessions[i].tracked|, s.sessions[i := Session([], None)])
  }

  function Run(actions: seq<Action>, l: Limits): State {
    if actions == [] then State(0, [])
    else Step(Run(actions[..|actions| - 1], l), actions[|actions| - 1], l)
  }

  function Total(sessions: seq<Session>): nat {
    if sessions == [] then 0 else Total(sessions[..|sessions| - 1]) + |sessions[|sessions| - 1].tracked|
  }

  lemma {:induction false} TotalWith(sessions: seq<Session>, i: nat, x: Session)
    requires i < |sessions|
    ensures Total(sessions[i := x]) == Total(sessions) - |sessions[i].tracked| + |x.tracked|
    decreases |sessions|
  {
    var n := |sessions| - 1;
    if i == n {
      assert sessions[i := x][..n] == sessions[..n];
    } else {
      assert sessions[i := x][..n] == sessions[..n][i := x];
      TotalWith(sessions[..n], i, x);
    }
  }

  ghost predicate SessionFine(x: Session, l: Limits) {
    && |x.tracked| <= l.perSession
    && (x.seen.Some? ==> |x.tracked| < l.perSession && x.seen.value < Ceiling(l))
  }

  ghost predicate Inv(s: State, l: Limits) {
    && s.count == Total(s.sessions) <= Ceiling(l)
    && forall i :: 0 <= i < |s.sessions| ==> SessionFine(s.sessions[i], l)
  }

  lemma StepKeepsInv(s: State, a: Action, l: Limits)
    requires Inv(s, l)
    ensures Inv(Step(s, a, l), l)
  {
    var r := Step(s, a, l);
    match a
    case Open =>
      assert r.sessions[..|s.sessions|] == s.sessions;
    case _ =>
      if a.session < |s.sessions| {
        TotalWith(s.sessions, a.session, r.sessions[a.session]);
        assert s.sessions[a.session := s.sessions[a.session]] == s.sessions;
        assert SessionFine(s.sessions[a.session], l);
      }
  }

  /** Over every interleaving of reservations and releases the counter is exactly the
      number of tracked processes of all open sessions, never passes the ceiling, and
      no session passes its own cap. */
  lemma {:induction false} BudgetHolds(actions: seq<Action>, l: Limits)
    ensures var s := Run(actions, l);
      && s.count == Total(s.sessions) <= Ceiling(l)
      && forall i :: 0 <= i < |s.sessions| ==> |s.sessions[i].tracked| <= l.perSession
    ensures Inv(Run(actions, l), l)
    decreases |actions|
  {
    if actions != [] {
      BudgetHolds(actions[..|actions| - 1], l);
      StepKeepsInv(Run(actions[..|actions| - 1], l), actions[|actions| - 1], l);
    }
    assert forall i :: 0 <= i < |Run(actions, l).sessions| ==> SessionFine(Run(actions, l).sessions[i], l);
  }

  lemma {:induction false} PartOfTotal(sessions: seq<Session>, i: nat)
    requires i < |sessions|
    ensures |sessions[i].tracked| <= Total(sessions)
    decreases |sessions|
  {
    if i < |sessions| - 1 { PartOfTotal(sessions[..|sessions| - 1], i); }
  }

  /** The counter cannot go below zero: a release always finds what it gives back, and
      gives back all of it. */
  lemma ReleaseGivesAllBack(actions: seq<Action>, l: Limits, i: nat)
    requires i < |Run(actions, l).sessions| && Run(actions, l).sessions[i].seen.None?
    ensures var s, r := Run(actions, l), Step(Run(actions, l), Release(i), l);
      && |s.sessions[i].tracked| <= s.count
      && r.count == s.count - |s.sessions[i].tracked| && r.sessions[i].tracked == []
      && forall j :: 0 <= j < |s.sessions| && j != i ==> r.sessions[j] == s.sessions[j]
  {
    BudgetHolds(actions, l);
    PartOfTotal(Run(actions, l).sessions, i);
  }

  /** A reservation that nobody interferes with tracks the process exactly when both
      the session and the domain have room, and otherwise changes nothing. */
  lemma QuietReservation(s: State, i: nat, pid: Pid, l: Limits)
    requires i < |s.sessions| && s.sessions[i].seen.None?
    ensures var r := Step(Step(s, Look(i), l), Swap(i, pid), l);
      if |s.sessions[i].tracked| < l.perSession && s.count < Ceiling(l) then
        r == State(s.count + 1, s.sessions[i := Session(s.sessions[i].tracked + [pid], None)])
      else r == s
  {
    assert s.sessions[i := s.sessions[i].(seen := None)] == s.sessions;
  }

  class GlobalTracking {
    var count: nat
    const limits: Limits

    constructor (perSession: nat, maxGlobal: nat, headroom: nat, openFiles: Option<nat>)
      ensures count == 0 && limits == LimitsFor(perSession, maxGlobal, headroom, openFiles)
      ensures openFiles.Some? ==> Ceiling(limits) + headroom <= Max(openFiles.value, headroom)
      ensures openFiles.Some? && headroom <= openFiles.value <= maxGlobal + headroom ==>
        Ceiling(limits) + headroom == openFiles.value
      ensures openFiles.Some? && openFiles.value > maxGlobal + headroom ==> Ceiling(limits) == maxGlobal
      ensures openFiles.None? && maxGlobal <= NO_BUDGET ==> Ceiling(limits) == maxGlobal
    {
      count, limits := 0, LimitsFor(perSession, maxGlobal, headroom, openFiles);
    }

    method Reserve() returns (ok: bool)
      modifies this
      ensures ok <==> old(count) < Ceiling(limits)
      ensures count == old(count) + if ok then 1 else 0
    {
      if count >= Ceiling(limits) {
        return false;
      }
      count := count + 1;
      return true;
    }

    method GiveBack(n: nat)
      requires n <= count
      modifies this
      ensures count == old(count) - n
    {
      count := count - n;
    }
  }
}
