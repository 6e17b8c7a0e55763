/** The teardown ladder over a process table: SIGTERM, a bounded wait, SIGKILL, a
    second bounded wait, reaping, and the report of what is left. Times are in
    milliseconds. */
module KillDomain {
  import opened Bytes
  import KillBudget

  const TIER1_POLL_STEP: nat := 25
  const TIER1_KILL_WAIT: nat := 500

  type Pid = KillBudget.Pid

  datatype Signal = Term | Kill

  /** A signal on record, with the time it was sent. */
  datatype Stamp = Stamp(signal: Signal, at: nat)

  datatype Life = Running | Zombie | Gone

  /** A process: its group, whether the runtime is its parent and may signal it, how it
      answers SIGTERM, and the signals it received and when. No pid is ever used twice. */
  datatype Process = Process(
    group: Pid, own: bool, permitted: bool, trapsTerm: bool, life: Life, got: set<Stamp>)

  type Table = map<Pid, Process>

  /** What processes do by themselves. */
  datatype Change =
    | Exits(pid: Pid)
    | Forks(parent: Pid, child: Pid, trapsTerm: bool)
    | Moves(pid: Pid, group: Pid)
    | Collected(pid: Pid)

  /** The table, the clock, and what will happen during each coming sleep. */
  datatype World = World(table: Table, now: nat, script: seq<seq<Change>>)

  datatype Domain = Domain(leader: Option<Pid>, tracked: seq<Pid>)

  // ----- signals, reaping and time ------------------------------------------------------------

  datatype Touch = Send(signal: Signal, at: nat) | Reap

  /** SIGKILL ends a running process it may reach; SIGTERM one that does not trap it.
      Only an exited child of one's own can be reaped. */
  function Touched(p: Process, x: Touch): Process {
    match x
    case Send(signal, at) =>
      if p.life != Running || !p.permitted then p
      else p.(got := p.got + {Stamp(signal, at)}, life := if signal == Kill || !p.trapsTerm then Zombie else Running)
    case Reap => if p.own && p.life == Zombie then p.(life := Gone) else p
  }

  function TouchOne(t: Table, pid: Pid, x: Touch): Table {
    if pid in t then t[pid := Touched(t[pid], x)] else t
  }

  /** One pid after another, as the tracked list has them. */
  function TouchAll(t: Table, pids: seq<Pid>, x: Touch): Table {
    if pids == [] then t else TouchAll(TouchOne(t, pids[0], x), pids[1..], x)
  }

  function SignalGroup(t: Table, group: Pid, signal: Signal, at: nat): Table {
    map pid | pid in t :: if t[pid].group == group then Touched(t[pid], Send(signal, at)) else t[pid]
  }

  function SignalLeader(t: Table, d: Domain, signal: Signal, at: nat): Table {
    if d.leader.Some? then SignalGroup(t, d.leader.value, signal, at) else t
  }

  function SignalDomain(t: Table, d: Domain, signal: Signal, at: nat): Table {
    TouchAll(SignalLeader(t, d, signal, at), d.tracked, Send(signal, at))
  }

  function Happen(t: Table, c: Change): Table {
    match c
    case Exits(pid) => if pid in t && t[pid].life == Running then t[pid := t[pid].(life := Zombie)] else t
    case Forks(parent, child, trapsTerm) =>
      if parent in t && t[parent].life == Running && child !in t then
        t[child := Process(t[parent].group, false, t[parent].permitted, trapsTerm, Running, {})]
      else t
    case Moves(pid, group) => if pid in t && t[pid].life == Running then t[pid := t[pid].(group := group)] else t
    case Collected(pid) => if pid in t && !t[pid].own && t[pid].life == Zombie then t[pid := t[pid].(life := Gone)] else t
  }

  function HappenAll(t: Table, changes: seq<Change>): Table
    decreases |changes|
  {
    if changes == [] then t else HappenAll(Happen(t, changes[0]), changes[1..])
  }

  function Sleep(w: World): World {
    if w.script == [] then w.(now := w.now + TIER1_POLL_STEP)
    else World(HappenAll(w.table, w.script[0]), w.now + TIER1_POLL_STEP, w.script[1..])
  }

  // ----- probes -------------------------------------------------------------------------------

  /** An unreaped zombie still accepts a signal. */
  predicate PidAlive(t: Table, pid: Pid) {
    pid in t && t[pid].life != Gone
  }

  predicate Member(t: Table, pid: Pid, group: Pid) {
    PidAlive(t, pid) && t[pid].group == group
  }

  /** A group counts as alive while a member has not exited, or when it has members and
      none may be signalled, so that nothing can be told about them. */
  predicate GroupAlive(t: Table, group: Pid) {
    && (exists pid :: pid in t && Member(t, pid, group))
    && ((forall pid :: pid in t && Member(t, pid, group) ==> !t[pid].permitted)
        || (exists pid :: pid in t && Member(t, pid, group) && t[pid].life == Running))
  }

  predicate LeaderAlive(t: Table, d: Domain) {
    d.leader.Some? && GroupAlive(t, d.leader.value)
  }

  function AlivePids(t: Table, pids: seq<Pid>): seq<Pid> {
    if pids == [] then []
    else (if PidAlive(t, pids[0]) then [pids[0]] else []) + AlivePids(t, pids[1..])
  }

  predicate AnyAlive(t: Table, d: Domain) {
    AlivePids(t, d.tracked) != [] || LeaderAlive(t, d)
  }

  // ----- the ladder ---------------------------------------------------------------------------

  /** Poll until nothing is alive or the deadline has come. */
  function Wait(w: World, d: Domain, deadline: nat): (r: (World, bool))
    decreases if w.now < deadline then deadline - w.now else 0
  {
    var reaped := w.(table := TouchAll(w.table, d.tracked, Reap));
    if !AnyAlive(reaped.table, d) then (reaped, true)
    else if w.now >= deadline then (reaped, false)
    else Wait(Sleep(reaped), d, deadline)
  }

  function Escalate(w: World, d: Domain): World {
    var killed := w.(table := SignalDomain(w.table, d, Kill, w.now));
    Wait(killed, d, w.now + TIER1_KILL_WAIT).0
  }

  function Survivors(t: Table, d: Domain): seq<Pid> {
    var alive := AlivePids(t, d.tracked);
    if LeaderAlive(t, d) && d.leader.value !in alive then alive + [d.leader.value] else alive
  }

  function Terminate(w: World, d: Domain, grace: nat): (World, seq<Pid>) {
    var termed := w.(table := SignalDomain(w.table, d, Term, w.now));
    var (waited, drained) := Wait(termed, d, w.now + grace);
    var ended := if drained then waited else Escalate(waited, d);
    var reaped := ended.(table := TouchAll(ended.table, d.tracked, Reap));
    (reaped, Survivors(reaped.table, d))
  }

  // ----- bounded in time ------------------------------------------------------------------------

  lemma {:induction false} WaitIsBounded(w: World, d: Domain, deadline: nat)
    ensures var r := Wait(w, d, deadline);
      && w.now <= r.0.now
      && (r.0.now == w.now || r.0.now < deadline + TIER1_POLL_STEP)
      && (!r.1 ==> r.0.now >= deadline)
      && (r.0.now - w.now) % TIER1_POLL_STEP == 0
    decreases if w.now < deadline then deadline - w.now else 0
  {
    var reaped := w.(table := TouchAll(w.table, d.tracked, Reap));
    if AnyAlive(reaped.table, d) && w.now < deadline {
      WaitIsBounded(Sleep(reaped), d, deadline);
    }
  }

  /** Whatever the processes do, a teardown takes less than the grace, the kill wait and
      one poll step together. */
  lemma TeardownIsBounded(w: World, d: Domain, grace: nat)
    ensures var r := Terminate(w, d, grace).0;
      w.now <= r.now < w.now + grace + TIER1_KILL_WAIT + TIER1_POLL_STEP
  {
    hide Wait, SignalDomain, TouchAll;
    var termed := w.(table := SignalDomain(w.table, d, Term, w.now));
    WaitIsBounded(termed, d, w.now + grace);
    var waited := Wait(termed, d, w.now + grace).0;
    WaitIsBounded(waited.(table := SignalDomain(waited.table, d, Kill, waited.now)), d, waited.now + TIER1_KILL_WAIT);
  }

  /** And whoever is reported had all of it: the whole grace after SIGTERM and the whole wait
      after SIGKILL. */
  lemma SurvivorsHadTheirTime(w: World, d: Domain, grace: nat)
    requires Terminate(w, d, grace).1 != []
    ensures Terminate(w, d, grace).0.now >= w.now + grace + TIER1_KILL_WAIT
  {
    hide SignalDomain, TouchAll, Survivors, AnyAlive;
    var termed := w.(table := SignalDomain(w.table, d, Term, w.now));
    WaitIsBounded(termed, d, w.now + grace);
    DrainedIsQuiet(termed, d, w.now + grace);
    var (waited, drained) := Wait(termed, d, w.now + grace);
    if !drained {
      var killed := waited.(table := SignalDomain(waited.table, d, Kill, waited.now));
      WaitIsBounded(killed, d, waited.now + TIER1_KILL_WAIT);
      DrainedIsQuiet(killed, d, waited.now + TIER1_KILL_WAIT);
      hide Wait;
    }
    hide Wait;
  }

  /** A wait that ends early ends with nothing to report, and reaping again finds nothing. */
  lemma {:induction false} DrainedIsQuiet(w: World, d: Domain, deadline: nat)
    ensures var (r, drained) := Wait(w, d, deadline);
      drained ==> Survivors(TouchAll(r.table, d.tracked, Reap), d) == []
    decreases if w.now < deadline then deadline - w.now else 0
  {
    var reaped := w.(table := TouchAll(w.table, d.tracked, Reap));
    if !AnyAlive(reaped.table, d) {
      ReapTwice(w.table, d.tracked);
      hide TouchAll, LeaderAlive;
    } else if w.now < deadline {
      hide TouchAll, AnyAlive, Survivors;
      SleepTakesTime(reaped);
      DrainedIsQuiet(Sleep(reaped), d, deadline);
    }
  }

  lemma ReapTwice(t: Table, pids: seq<Pid>)
    ensures TouchAll(TouchAll(t, pids, Reap), pids, Reap) == TouchAll(t, pids, Reap)
  {
    var once := TouchAll(t, pids, Reap);
    var twice := TouchAll(once, pids, Reap);
    TouchAllEverywhere(t, pids, Reap);
    TouchAllEverywhere(once, pids, Reap);
    hide TouchAll;
    assert twice.Keys == once.Keys;
    forall pid | pid in once ensures twice[pid] == once[pid] {
      assert pid in t;
    }
    assert twice == once;
  }

  // ----- touching one after another ---------------------------------------------------------------

  lemma {:induction false} TouchAllAt(t: Table, pids: seq<Pid>, x: Touch, pid: Pid)
    ensures TouchAll(t, pids, x).Keys == t.Keys
    ensures pid in t ==> TouchAll(t, pids, x)[pid] == if pid in pids then Touched(t[pid], x) else t[pid]
    decreases |pids|
  {
    if pids != [] {
      TouchAllAt(TouchOne(t, pids[0], x), pids[1..], x, pid);
    }
  }

  lemma TouchAllEverywhere(t: Table, pids: seq<Pid>, x: Touch)
    ensures TouchAll(t, pids, x).Keys == t.Keys
    ensures forall pid :: pid in t ==> TouchAll(t, pids, x)[pid] == if pid in pids then Touched(t[pid], x) else t[pid]
  {
    forall pid ensures TouchAll(t, pids, x).Keys == t.Keys &&
      (pid in t ==> TouchAll(t, pids, x)[pid] == if pid in pids then Touched(t[pid], x) else t[pid])
    {
      TouchAllAt(t, pids, x, pid);
    }
  }

  lemma {:induction false} AlivePidIs(t: Table, pids: seq<Pid>, pid: Pid)
    ensures pid in AlivePids(t, pids) <==> pid in pids && PidAlive(t, pid)
    decreases |pids|
  {
    if pids != [] { AlivePidIs(t, pids[1..], pid); }
  }

  // ----- the report ---------------------------------------------------------------------------

  /** The report is empty exactly when every tracked pid is gone and the leader's group
      has nothing alive in it; where the tracked pids are the runtime's own children and
      the group may be signalled, exactly when none of them is running. */
  lemma ReportIsExact(w: World, d: Domain, grace: nat)
    ensures var (r, survivors) := Terminate(w, d, grace);
      && (survivors == [] <==> (forall pid :: pid in d.tracked ==> !PidAlive(r.table, pid)) && !LeaderAlive(r.table, d))
      && (Reachable(r.table, d) ==> (survivors == [] <==> NothingRuns(r.table, d)))
  {
    var (r, survivors) := Terminate(w, d, grace);
    ReapedOwn(w, d, grace);
    hide Terminate;
    NoSurvivors(r.table, d);
    if Reachable(r.table, d) { NothingAliveIsNothingRunning(r.table, d); }
  }

  lemma NoSurvivors(t: Table, d: Domain)
    ensures Survivors(t, d) == [] <==> (forall pid :: pid in d.tracked ==> !PidAlive(t, pid)) && !LeaderAlive(t, d)
  {
    hide LeaderAlive, PidAlive;
    var alive := AlivePids(t, d.tracked);
    if alive != [] {
      AlivePidIs(t, d.tracked, alive[0]);
    } else {
      forall pid | pid in d.tracked ensures !PidAlive(t, pid) {
        AlivePidIs(t, d.tracked, pid);
      }
    }
  }

  /** Whom the report names: every tracked pid still there, and the leader while its group
      counts as alive. */
  lemma ReportNames(w: World, d: Domain, grace: nat, pid: Pid)
    ensures var (r, survivors) := Terminate(w, d, grace);
      pid in survivors <==>
        (pid in d.tracked && PidAlive(r.table, pid)) || (d.leader == Some(pid) && GroupAlive(r.table, pid))
  {
    var (r, survivors) := Terminate(w, d, grace);
    ReapedOwn(w, d, grace);
    hide Terminate, GroupAlive, PidAlive;
    AlivePidIs(r.table, d.tracked, pid);
  }

  lemma NothingAliveIsNothingRunning(t: Table, d: Domain)
    requires Reachable(t, d)
    requires forall pid :: pid in d.tracked && pid in t && t[pid].own ==> t[pid].life != Zombie
    ensures NothingRuns(t, d) <==> (forall pid :: pid in d.tracked ==> !PidAlive(t, pid)) && !LeaderAlive(t, d)
  {
    if !LeaderAlive(t, d) && d.leader.Some? {
      forall pid | pid in t && t[pid].group == d.leader.value ensures t[pid].life != Running {
        if t[pid].life == Running { assert Member(t, pid, d.leader.value); }
      }
    }
  }

  lemma ReapedOwn(w: World, d: Domain, grace: nat)
    ensures var (r, survivors) := Terminate(w, d, grace);
      && survivors == Survivors(r.table, d)
      && forall pid :: pid in d.tracked && pid in r.table && r.table[pid].own ==> r.table[pid].life != Zombie
  {
    hide Wait, Survivors, SignalDomain, TouchAll;
    var termed := w.(table := SignalDomain(w.table, d, Term, w.now));
    var (waited, drained) := Wait(termed, d, w.now + grace);
    var ended := if drained then waited else Escalate(waited, d);
    TouchAllEverywhere(ended.table, d.tracked, Reap);
  }

  /** Tracked pids are the runtime's own children; they and the group may be signalled. */
  ghost predicate Reachable(t: Table, d: Domain) {
    && (forall pid :: pid in d.tracked ==> pid in t && t[pid].own && t[pid].permitted)
    && (d.leader.Some? ==> forall pid :: pid in t && t[pid].group == d.leader.value ==> t[pid].permitted)
  }

  ghost predicate NothingRuns(t: Table, d: Domain) {
    && (forall pid :: pid in d.tracked && pid in t ==> t[pid].life != Running)
    && (d.leader.Some? ==> forall pid :: pid in t && t[pid].group == d.leader.value ==> t[pid].life != Running)
  }

  // ----- convergence --------------------------------------------------------------------------

  /** Nothing outside the leader's group moves into it. */
  predicate NoneJoin(script: seq<seq<Change>>, d: Domain) {
    forall i, j :: 0 <= i < |script| && 0 <= j < |script[i]| && script[i][j].Moves? ==> d.leader != Some(script[i][j].group)
  }

  predicate NoneJoins(changes: seq<Change>, d: Domain) {
    forall j :: 0 <= j < |changes| && changes[j].Moves? ==> d.leader != Some(changes[j].group)
  }

  lemma HappenKeeps(t: Table, c: Change, d: Domain)
    requires c.Moves? ==> d.leader != Some(c.group)
    ensures Reachable(t, d) ==> Reachable(Happen(t, c), d)
    ensures Reachable(t, d) && NothingRuns(t, d) ==> NothingRuns(Happen(t, c), d)
  {
  }

  lemma {:induction false} HappenAllKeeps(t: Table, changes: seq<Change>, d: Domain)
    requires Reachable(t, d) && NoneJoins(changes, d)
    ensures Reachable(HappenAll(t, changes), d)
    ensures NothingRuns(t, d) ==> NothingRuns(HappenAll(t, changes), d)
    decreases |changes|
  {
    hide Reachable, NothingRuns, Happen;
    if changes != [] {
      HappenKeeps(t, changes[0], d);
      HappenAllKeeps(Happen(t, changes[0]), changes[1..], d);
    }
  }

  lemma TouchesKeep(t: Table, d: Domain, x: Touch)
    requires Reachable(t, d)
    ensures Reachable(TouchAll(t, d.tracked, x), d)
    ensures NothingRuns(t, d) ==> NothingRuns(TouchAll(t, d.tracked, x), d)
  {
    TouchAllEverywhere(t, d.tracked, x);
  }

  lemma SignalKeeps(t: Table, d: Domain, signal: Signal, at: nat)
    requires Reachable(t, d)
    ensures Reachable(SignalDomain(t, d, signal, at), d)
    ensures signal == Kill ==> NothingRuns(SignalDomain(t, d, signal, at), d)
  {
    TouchAllEverywhere(SignalLeader(t, d, signal, at), d.tracked, Send(signal, at));
  }

  lemma {:induction false} WaitKeeps(w: World, d: Domain, deadline: nat)
    requires Reachable(w.table, d) && NoneJoin(w.script, d)
    ensures var r := Wait(w, d, deadline);
      && Reachable(r.0.table, d) && NoneJoin(r.0.script, d)
      && (NothingRuns(w.table, d) ==> NothingRuns(r.0.table, d))
      && (r.1 ==> NothingRuns(r.0.table, d))
    decreases if w.now < deadline then deadline - w.now else 0
  {
    var reaped := w.(table := TouchAll(w.table, d.tracked, Reap));
    TouchesKeep(w.table, d, Reap);
    if !AnyAlive(reaped.table, d) {
      DrainedMeansNothingRuns(reaped.table, d);
    } else if w.now < deadline {
      SleepKeeps(reaped, d);
      hide Reachable, NothingRuns, NoneJoin, AnyAlive, Sleep;
      assert Sleep(reaped).now > w.now by { SleepTakesTime(reaped); }
      WaitKeeps(Sleep(reaped), d, deadline);
    }
  }

  lemma SleepTakesTime(w: World)
    ensures Sleep(w).now == w.now + TIER1_POLL_STEP
  {
  }

  lemma SleepKeeps(w: World, d: Domain)
    requires Reachable(w.table, d) && NoneJoin(w.script, d)
    ensures Reachable(Sleep(w).table, d) && NoneJoin(Sleep(w).script, d)
    ensures NothingRuns(w.table, d) ==> NothingRuns(Sleep(w).table, d)
  {
    if w.script != [] {
      assert NoneJoins(w.script[0], d);
      HappenAllKeeps(w.table, w.script[0], d);
      hide Reachable, NothingRuns, HappenAll;
    }
  }

  lemma DrainedMeansNothingRuns(t: Table, d: Domain)
    requires !AnyAlive(t, d) && Reachable(t, d)
    ensures NothingRuns(t, d)
  {
    forall pid | pid in d.tracked ensures !PidAlive(t, pid) {
      AlivePidIs(t, d.tracked, pid);
    }
    if d.leader.Some? {
      forall pid | pid in t && t[pid].group == d.leader.value ensures t[pid].life != Running {
        if t[pid].life == Running { assert Member(t, pid, d.leader.value); }
      }
    }
  }

  /** Where the tracked pids are the runtime's own children, what belongs to the session
      may be signalled and nothing joins its group, every teardown ends with nothing
      tracked and nothing in the leader's group running, and an empty report, whatever
      traps SIGTERM, forks, exits or leaves meanwhile. */
  lemma TeardownConverges(w: World, d: Domain, grace: nat)
    requires Reachable(w.table, d) && NoneJoin(w.script, d)
    ensures var (r, survivors) := Terminate(w, d, grace);
      survivors == [] && NothingRuns(r.table, d) && Reachable(r.table, d)
  {
    ReportIsExact(w, d, grace);
    hide Wait, Reachable, NothingRuns, NoneJoin, SignalDomain, TouchAll, Survivors;
    var termed := w.(table := SignalDomain(w.table, d, Term, w.now));
    SignalKeeps(w.table, d, Term, w.now);
    WaitKeeps(termed, d, w.now + grace);
    var (waited, drained) := Wait(termed, d, w.now + grace);
    if !drained {
      SignalKeeps(waited.table, d, Kill, waited.now);
      WaitKeeps(waited.(table := SignalDomain(waited.table, d, Kill, waited.now)), d, waited.now + TIER1_KILL_WAIT);
    }
    var ended := if drained then waited else Escalate(waited, d);
    TouchesKeep(ended.table, d, Reap);
  }

  /** A tracked zombie that is somebody else's child is reported as a survivor: the
      assumption on the tracked pids cannot be dropped. */
  lemma ForeignZombieIsReported(pid: Pid, now: nat, grace: nat)
    ensures var w := World(map[pid := Process(pid, false, true, false, Running, {})], now, []);
      var (r, survivors) := Terminate(w, Domain(None, [pid]), grace);
      survivors == [pid] && pid in r.table && r.table[pid].life == Zombie
  {
    var d := Domain(None, [pid]);
    var z := map[pid := Process(pid, false, true, false, Zombie, {Stamp(Term, now)})];
    var w := World(map[pid := Process(pid, false, true, false, Running, {})], now, []);
    forall t: Table, x ensures TouchAll(t, [pid], x) == TouchOne(t, pid, x) {
      assert [pid][1..] == [];
      assert TouchAll(t, [pid], x) == TouchAll(TouchOne(t, pid, x), [], x);
    }
    assert {} + {Stamp(Term, now)} == {Stamp(Term, now)};
    assert SignalDomain(w.table, d, Term, now) == TouchOne(w.table, pid, Send(Term, now)) == z;
    assert TouchAll(z, [pid], Reap) == TouchOne(z, pid, Reap) == z;
    forall at ensures SignalDomain(z, d, Kill, at) == z {
      assert TouchOne(z, pid, Send(Kill, at)) == z;
    }
    assert AlivePids(z, [pid]) == [pid] + AlivePids(z, []);
    StuckWait(World(z, now, []), d, now + grace);
    var waited := Wait(World(z, now, []), d, now + grace).0;
    StuckWait(waited, d, waited.now + TIER1_KILL_WAIT);
  }

  lemma {:induction false} StuckWait(w: World, d: Domain, deadline: nat)
    requires w.script == [] && TouchAll(w.table, d.tracked, Reap) == w.table && AnyAlive(w.table, d)
    ensures var r := Wait(w, d, deadline); !r.1 && r.0.table == w.table && r.0.script == []
    decreases if w.now < deadline then deadline - w.now else 0
  {
    if w.now < deadline { StuckWait(Sleep(w), d, deadline); }
  }

  // ----- nothing else is touched ------------------------------------------------------------------

  /** What the script alone makes of one process. */
  function Alone(p: Process, pid: Pid, c: Change): Process {
    match c
    case Exits(x) => if x == pid && p.life == Running then p.(life := Zombie) else p
    case Moves(x, group) => if x == pid && p.life == Running then p.(group := group) else p
    case Collected(x) => if x == pid && !p.own && p.life == Zombie then p.(life := Gone) else p
    case Forks(_, _, _) => p
  }

  function AloneAll(p: Process, pid: Pid, changes: seq<Change>): Process
    decreases |changes|
  {
    if changes == [] then p else AloneAll(Alone(p, pid, changes[0]), pid, changes[1..])
  }

  function AloneFor(p: Process, pid: Pid, script: seq<seq<Change>>): Process
    decreases |script|
  {
    if script == [] then p else AloneFor(AloneAll(p, pid, script[0]), pid, script[1..])
  }

  lemma {:induction false} HappenAllAt(t: Table, changes: seq<Change>, pid: Pid)
    requires pid in t
    ensures pid in HappenAll(t, changes) && HappenAll(t, changes)[pid] == AloneAll(t[pid], pid, changes)
    decreases |changes|
  {
    if changes != [] { HappenAllAt(Happen(t, changes[0]), changes[1..], pid); }
  }

  lemma {:induction false} AloneStaysOut(p: Process, pid: Pid, changes: seq<Change>, d: Domain)
    requires d.leader != Some(p.group) && NoneJoins(changes, d)
    ensures d.leader != Some(AloneAll(p, pid, changes).group)
    decreases |changes|
  {
    if changes != [] {
      assert changes[0].Moves? ==> d.leader != Some(changes[0].group);
      AloneStaysOut(Alone(p, pid, changes[0]), pid, changes[1..], d);
    }
  }

  ghost predicate Outside(w: World, d: Domain, pid: Pid) {
    pid in w.table && pid !in d.tracked && d.leader != Some(w.table[pid].group) && NoneJoin(w.script, d)
  }

  /** How far the script has got, and what it alone made of the process. */
  ghost predicate Followed(w: World, r: World, pid: Pid) {
    && |r.script| <= |w.script| && r.script == w.script[|w.script| - |r.script|..]
    && pid in w.table && pid in r.table
    && r.table[pid] == AloneFor(w.table[pid], pid, w.script[..|w.script| - |r.script|])
  }

  lemma FollowedAtOnce(w: World, r: World, pid: Pid)
    requires pid in w.table && pid in r.table && r.table[pid] == w.table[pid] && r.script == w.script
    ensures Followed(w, r, pid)
  {
  }

  lemma {:induction false} AloneForSplit(p: Process, pid: Pid, a: seq<seq<Change>>, b: seq<seq<Change>>)
    ensures AloneFor(p, pid, a + b) == AloneFor(AloneFor(p, pid, a), pid, b)
    decreases |a|
  {
    if a == [] {
      assert a + b == b;
    } else {
      assert (a + b)[1..] == a[1..] + b;
      AloneForSplit(AloneAll(p, pid, a[0]), pid, a[1..], b);
    }
  }

  lemma FollowedThrough(w: World, m: World, r: World, pid: Pid)
    requires Followed(w, m, pid) && Followed(m, r, pid)
    ensures Followed(w, r, pid)
  {
    var i, j := |w.script| - |m.script|, |m.script| - |r.script|;
    assert w.script[..i + j] == w.script[..i] + m.script[..j];
    AloneForSplit(w.table[pid], pid, w.script[..i], m.script[..j]);
  }

  lemma SignalSpares(w: World, d: Domain, signal: Signal, pid: Pid)
    requires Outside(w, d, pid)
    ensures var r := w.(table := SignalDomain(w.table, d, signal, w.now)); Outside(r, d, pid) && Followed(w, r, pid)
  {
    TouchAllAt(SignalLeader(w.table, d, signal, w.now), d.tracked, Send(signal, w.now), pid);
    FollowedAtOnce(w, w.(table := SignalDomain(w.table, d, signal, w.now)), pid);
  }

  lemma ReapSpares(w: World, d: Domain, pid: Pid)
    requires Outside(w, d, pid)
    ensures var r := w.(table := TouchAll(w.table, d.tracked, Reap)); Outside(r, d, pid) && Followed(w, r, pid)
  {
    TouchAllAt(w.table, d.tracked, Reap, pid);
    FollowedAtOnce(w, w.(table := TouchAll(w.table, d.tracked, Reap)), pid);
  }

  lemma SleepSpares(w: World, d: Domain, pid: Pid)
    requires Outside(w, d, pid)
    ensures Outside(Sleep(w), d, pid) && Followed(w, Sleep(w), pid)
  {
    if w.script == [] {
      FollowedAtOnce(w, Sleep(w), pid);
    } else {
      HappenAllAt(w.table, w.script[0], pid);
      assert NoneJoins(w.script[0], d);
      AloneStaysOut(w.table[pid], pid, w.script[0], d);
      assert w.script[..1] == [w.script[0]];
      assert AloneFor(w.table[pid], pid, [w.script[0]]) == AloneFor(AloneAll(w.table[pid], pid, w.script[0]), pid, []);
    }
  }

  lemma {:induction false} WaitSpares(w: World, d: Domain, deadline: nat, pid: Pid)
    requires Outside(w, d, pid)
    ensures var r := Wait(w, d, deadline).0; Outside(r, d, pid) && Followed(w, r, pid)
    decreases if w.now < deadline then deadline - w.now else 0
  {
    var reaped := w.(table := TouchAll(w.table, d.tracked, Reap));
    ReapSpares(w, d, pid);
    if AnyAlive(reaped.table, d) && w.now < deadline {
      SleepSpares(reaped, d, pid);
      SleepTakesTime(reaped);
      hide Outside, Followed, Sleep;
      WaitSpares(Sleep(reaped), d, deadline, pid);
      FollowedThrough(w, reaped, Sleep(reaped), pid);
      FollowedThrough(w, Sleep(reaped), Wait(w, d, deadline).0, pid);
    }
  }

  /** A process neither tracked nor in the leader's group comes out of a teardown as it
      would have without one: it was sent no signal and reaped by nobody but its own
      parent. */
  lemma OutsidersUntouched(w: World, d: Domain, grace: nat, pid: Pid)
    requires Outside(w, d, pid)
    ensures Followed(w, Terminate(w, d, grace).0, pid)
  {
    hide Outside, Followed, Wait, SignalDomain, TouchAll, Survivors;
    var termed := w.(table := SignalDomain(w.table, d, Term, w.now));
    SignalSpares(w, d, Term, pid);
    WaitSpares(termed, d, w.now + grace, pid);
    var (waited, drained) := Wait(termed, d, w.now + grace);
    FollowedThrough(w, termed, waited, pid);
    if !drained {
      var killed := waited.(table := SignalDomain(waited.table, d, Kill, waited.now));
      SignalSpares(waited, d, Kill, pid);
      WaitSpares(killed, d, waited.now + TIER1_KILL_WAIT, pid);
      FollowedThrough(w, waited, killed, pid);
      FollowedThrough(w, killed, Escalate(waited, d), pid);
    }
    var ended := if drained then waited else Escalate(waited, d);
    ReapSpares(ended, d, pid);
    FollowedThrough(w, ended, Terminate(w, d, grace).0, pid);
  }

  // ----- when SIGKILL is used ---------------------------------------------------------------------

  /** Every SIGKILL on record was on record before, or was sent at `from` or later. */
  ghost predicate KillsFrom(t: Table, r: Table, from: nat) {
    forall pid, at: nat :: pid in r && Stamp(Kill, at) in r[pid].got ==>
      at >= from || (pid in t && Stamp(Kill, at) in t[pid].got)
  }

  /** Every SIGKILL on record was on record before. */
  ghost predicate NoNewKill(t: Table, r: Table) {
    forall pid, at: nat :: pid in r && Stamp(Kill, at) in r[pid].got ==> pid in t && Stamp(Kill, at) in t[pid].got
  }

  lemma {:induction false} HappenSendsNothing(t: Table, changes: seq<Change>)
    ensures NoNewKill(t, HappenAll(t, changes))
    decreases |changes|
  {
    if changes != [] { HappenSendsNothing(Happen(t, changes[0]), changes[1..]); }
  }

  lemma ReapSendsNothing(t: Table, d: Domain)
    ensures NoNewKill(t, TouchAll(t, d.tracked, Reap))
  {
    TouchAllEverywhere(t, d.tracked, Reap);
  }

  lemma {:induction false} WaitSendsNothing(w: World, d: Domain, deadline: nat)
    ensures NoNewKill(w.table, Wait(w, d, deadline).0.table)
    decreases if w.now < deadline then deadline - w.now else 0
  {
    var reaped := w.(table := TouchAll(w.table, d.tracked, Reap));
    ReapSendsNothing(w.table, d);
    if AnyAlive(reaped.table, d) && w.now < deadline {
      if w.script != [] { HappenSendsNothing(reaped.table, w.script[0]); }
      hide AnyAlive, TouchAll, HappenAll;
      WaitSendsNothing(Sleep(reaped), d, deadline);
    }
  }

  lemma KillIsStamped(t: Table, d: Domain, at: nat)
    ensures KillsFrom(t, SignalDomain(t, d, Kill, at), at)
  {
    TouchAllEverywhere(SignalLeader(t, d, Kill, at), d.tracked, Send(Kill, at));
  }

  lemma TermIsNoKill(t: Table, d: Domain, at: nat)
    ensures NoNewKill(t, SignalDomain(t, d, Term, at))
  {
    TouchAllEverywhere(SignalLeader(t, d, Term, at), d.tracked, Send(Term, at));
  }

  /** Every SIGKILL of a teardown is sent when the whole grace has passed, and only if
      something was still alive then. */
  lemma KillOnlyAfterGrace(w: World, d: Domain, grace: nat)
    ensures var r := Terminate(w, d, grace).0;
      KillsFrom(w.table, r.table, w.now + grace)
    ensures var (waited, drained) := Wait(w.(table := SignalDomain(w.table, d, Term, w.now)), d, w.now + grace);
      drained ==> NoNewKill(w.table, Terminate(w, d, grace).0.table)
  {
    hide Wait, AnyAlive, Survivors, TouchAll, SignalDomain;
    var termed := w.(table := SignalDomain(w.table, d, Term, w.now));
    TermIsNoKill(w.table, d, w.now);
    WaitSendsNothing(termed, d, w.now + grace);
    WaitIsBounded(termed, d, w.now + grace);
    var (waited, drained) := Wait(termed, d, w.now + grace);
    if drained {
      ReapSendsNothing(waited.table, d);
    } else {
      var killed := waited.(table := SignalDomain(waited.table, d, Kill, waited.now));
      KillIsStamped(waited.table, d, waited.now);
      WaitSendsNothing(killed, d, waited.now + TIER1_KILL_WAIT);
      ReapSendsNothing(Escalate(waited, d).table, d);
    }
  }

  /** The tracked pids and the group's members all end on SIGTERM. */
  ghost predicate HonourTerm(t: Table, d: Domain) {
    forall pid :: pid in t && (pid in d.tracked || d.leader == Some(t[pid].group)) ==> !t[pid].trapsTerm
  }

  lemma TermEnds(t: Table, d: Domain, at: nat)
    requires Reachable(t, d) && HonourTerm(t, d)
    ensures NothingRuns(SignalDomain(t, d, Term, at), d)
  {
    TouchAllEverywhere(SignalLeader(t, d, Term, at), d.tracked, Send(Term, at));
  }

  /** Once nothing runs, reaping finds everything drained. */
  lemma ReapingDrains(t: Table, d: Domain)
    requires Reachable(t, d) && NothingRuns(t, d)
    ensures var r := TouchAll(t, d.tracked, Reap); Reachable(r, d) && NothingRuns(r, d) && !AnyAlive(r, d)
  {
    TouchesKeep(t, d, Reap);
    ReapedAreNoZombies(t, d);
    hide TouchAll, Reachable, NothingRuns, AnyAlive;
    NothingAliveIsNothingRunning(TouchAll(t, d.tracked, Reap), d);
    NotAnyAlive(TouchAll(t, d.tracked, Reap), d);
  }

  /** A session whose processes honour SIGTERM is gone at the first look: no SIGKILL,
      no waiting. */
  lemma HonouringSessionsEndAtOnce(w: World, d: Domain, grace: nat)
    requires Reachable(w.table, d) && HonourTerm(w.table, d)
    ensures var (r, survivors) := Terminate(w, d, grace);
      r.now == w.now && survivors == [] && NothingRuns(r.table, d) && NoNewKill(w.table, r.table)
  {
    ReportIsExact(w, d, grace);
    hide SignalDomain, HonourTerm, Reachable, NothingRuns, AnyAlive, Survivors, TouchAll, LeaderAlive;
    var termed := w.(table := SignalDomain(w.table, d, Term, w.now));
    TermEnds(w.table, d, w.now);
    TermIsNoKill(w.table, d, w.now);
    SignalKeeps(w.table, d, Term, w.now);
    var reaped := termed.(table := TouchAll(termed.table, d.tracked, Reap));
    ReapingDrains(termed.table, d);
    ReapSendsNothing(termed.table, d);
    assert Wait(termed, d, w.now + grace) == (reaped, true);
    var again := reaped.(table := TouchAll(reaped.table, d.tracked, Reap));
    ReapingDrains(reaped.table, d);
    ReapSendsNothing(reaped.table, d);
    assert Terminate(w, d, grace).0 == again;
  }

  lemma ReapedAreNoZombies(t: Table, d: Domain)
    ensures var r := TouchAll(t, d.tracked, Reap);
      forall pid :: pid in d.tracked && pid in r && r[pid].own ==> r[pid].life != Zombie
  {
    TouchAllEverywhere(t, d.tracked, Reap);
  }

  lemma NotAnyAlive(t: Table, d: Domain)
    requires forall pid :: pid in d.tracked ==> !PidAlive(t, pid)
    ensures AnyAlive(t, d) <==> LeaderAlive(t, d)
  {
    if AlivePids(t, d.tracked) != [] { AlivePidIs(t, d.tracked, AlivePids(t, d.tracked)[0]); }
  }

  // ----- the objects ----------------------------------------------------------------------------

  /** The process-signalling surface the ladder uses. */
  class ProcessTable {
    var world: World

    constructor (world: World)
      ensures this.world == world
    {
      this.world := world;
    }

    method SendGroup(group: Pid, signal: Signal)
      modifies this
      ensures world == old(world).(table := SignalGroup(old(world).table, group, signal, old(world).now))
    {
      world := world.(table := SignalGroup(world.table, group, signal, world.now));
    }

    method TouchPid(pid: Pid, x: Touch)
      requires x.Send? ==> x.at == world.now
      modifies this
      ensures world == old(world).(table := TouchOne(old(world).table, pid, x))
    {
      world := world.(table := TouchOne(world.table, pid, x));
    }

    method SleepStep()
      modifies this
      ensures world == Sleep(old(world))
    {
      world := Sleep(world);
    }
  }

  class SessionKillDomain {
    var leader: Option<Pid>
    var tracked: seq<Pid>
    const processes: ProcessTable
    const budget: KillBudget.GlobalTracking

    ghost function View(): Domain
      reads this
    {
      Domain(leader, tracked)
    }

    constructor (processes: ProcessTable, budget: KillBudget.GlobalTracking)
      ensures View() == Domain(None, []) && this.processes == processes && this.budget == budget
    {
      leader, tracked, this.processes, this.budget := None, [], processes, budget;
    }

    /** Fail-closed: at a cap nothing is tracked, and the caller ends the session. */
    method Track(pid: Pid) returns (ok: bool)
      modifies this`tracked, budget
      ensures ok <==> |old(tracked)| < budget.limits.perSession && old(budget.count) < KillBudget.Ceiling(budget.limits)
      ensures tracked == if ok then old(tracked) + [pid] else old(tracked)
      ensures budget.count == old(budget.count) + |tracked| - |old(tracked)|
    {
      if |tracked| >= budget.limits.perSession {
        return false;
      }
      ok := budget.Reserve();
      if ok {
        tracked := tracked + [pid];
      }
    }

    /** The leader is on record even when it could not be tracked, so that its group can
        still be signalled. */
    method SetLeader(pid: Pid) returns (ok: bool)
      modifies this, budget
      ensures leader == Some(pid)
      ensures ok <==> |old(tracked)| < budget.limits.perSession && old(budget.count) < KillBudget.Ceiling(budget.limits)
      ensures tracked == if ok then old(tracked) + [pid] else old(tracked)
      ensures budget.count == old(budget.count) + |tracked| - |old(tracked)|
    {
      leader := Some(pid);
      ok := Track(pid);
    }

    method ReleaseAll()
      requires |tracked| <= budget.count
      modifies this`tracked, budget
      ensures tracked == [] && budget.count == old(budget.count) - |old(tracked)|
    {
      budget.GiveBack(|tracked|);
      tracked := [];
    }

    method TouchTracked(x: Touch)
      requires x.Send? ==> x.at == processes.world.now
      modifies processes
      ensures processes.world == old(processes.world).(table := TouchAll(old(processes.world).table, tracked, x))
    {
      var i := 0;
      ghost var start := processes.world;
      while i < |tracked|
        invariant 0 <= i <= |tracked|
        invariant TouchAll(processes.world.table, tracked[i..], x) == TouchAll(start.table, tracked, x)
        invariant processes.world.now == start.now && processes.world.script == start.script
      {
        processes.TouchPid(tracked[i], x);
        assert tracked[i..][1..] == tracked[i + 1..];
        i := i + 1;
      }
    }

    method SignalAll(signal: Signal)
      modifies processes
      ensures processes.world == old(processes.world).(table := SignalDomain(old(processes.world).table, View(), signal, old(processes.world).now))
    {
      if leader.Some? {
        processes.SendGroup(leader.value, signal);
      }
      TouchTracked(Send(signal, processes.world.now));
    }

    method StillAlive() returns (alive: bool)
      ensures alive <==> AnyAlive(processes.world.table, View())
    {
      alive := false;
      var i := 0;
      while i < |tracked| && !alive
        invariant 0 <= i <= |tracked|
        invariant alive ==> AlivePids(processes.world.table, tracked) != []
        invariant !alive ==> AlivePids(processes.world.table, tracked) == AlivePids(processes.world.table, tracked[i..])
      {
        alive := PidAlive(processes.world.table, tracked[i]);
        assert tracked[i..][1..] == tracked[i + 1..];
        i := i + 1;
      }
      if !alive && leader.Some? {
        alive := GroupAlive(processes.world.table, leader.value);
      }
    }

    method WaitUntilDrained(allowed: nat) returns (drained: bool)
      modifies processes
      ensures (processes.world, drained) == Wait(old(processes.world), View(), old(processes.world).now + allowed)
    {
      var deadline := processes.world.now + allowed;
      ghost var start := processes.world;
      hide AnyAlive, TouchAll;
      while true
        invariant Wait(processes.world, View(), deadline) == Wait(start, View(), deadline)
        decreases if processes.world.now < deadline then deadline - processes.world.now else 0
      {
        TouchTracked(Reap);
        var alive := StillAlive();
        if !alive {
          return true;
        }
        if processes.world.now >= deadline {
          return false;
        }
        processes.SleepStep();
      }
    }

    method TerminateTier1(grace: nat) returns (survivors: seq<Pid>)
      modifies processes
      ensures (processes.world, survivors) == Terminate(old(processes.world), View(), grace)
    {
      hide Wait, SignalDomain, TouchAll;
      SignalAll(Term);
      var drained := WaitUntilDrained(grace);
      if !drained {
        SignalAll(Kill);
        var _ := WaitUntilDrained(TIER1_KILL_WAIT);
      }
      TouchTracked(Reap);
      survivors := AlivePids(processes.world.table, tracked);
      if leader.Some? && GroupAlive(processes.world.table, leader.value) && leader.value !in survivors {
        survivors := survivors + [leader.value];
      }
    }
  }
}
