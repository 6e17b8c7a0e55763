/** The session manager and the attach-token store: name claims, capacity,
    generations, and the one stored token per session. A published session has an
    identity of its own; a caller holds the session it looked up, while the map, the
    claims and the tokens go by name. */
module Manager {
  import opened Bytes

  type Name = string
  type SessionId = nat
  type Caller = nat

  /** A session once published; it stays itself whatever becomes of its name. */
  datatype Session = Session(name: Name, generation: nat, alive: bool)

  /** The single retained hash of a name; tokens stand for their hashes. */
  datatype Stored = Stored(token: nat, generation: nat, expiresAt: nat)

  /** A spawn in flight: the generation it will publish, and whether it has minted. */
  datatype Spawn = Spawn(generation: nat, minted: bool)

  /** How far a caller has got with the session it holds: only looked up, torn down
      and about to remove the name, or renewed and about to mint. */
  datatype Stage = Looked | Torn | Bumped(generation: nat)

  /** A session a caller holds, and whether it was alive when it was looked up. */
  datatype Handle = Handle(session: SessionId, name: Name, stage: Stage, seenAlive: bool)

  datatype State = State(
    sessions: map<SessionId, Session>, mapped: map<Name, SessionId>, claimed: map<Name, Spawn>,
    tokens: map<Name, Stored>, held: map<Caller, Handle>, nextSession: nat, nextToken: nat, now: nat)

  const START := State(map[], map[], map[], map[], map[], 0, 0, 0)

  datatype Config = Config(maxSessions: nat, tokenTtl: nat)

  datatype Action =
    | ClaimName(name: Name, generation: nat)
    | Abandon(name: Name)
    | Mint(name: Name)
    | Publish(name: Name)
    | Get(caller: Caller, name: Name)
    | Drop(caller: Caller)
    | Teardown(caller: Caller)
    | Forget(caller: Caller)
    | Bump(caller: Caller)
    | MintRenewed(caller: Caller)
    | Verify(name: Name, generation: nat, token: nat)
    | Tick(elapsed: nat)

  // ----- the steps ---------------------------------------------------------------------------

  predicate IsAlive(s: State, id: SessionId) {
    id in s.sessions && s.sessions[id].alive
  }

  /** The session published under `name` is running. */
  predicate IsLive(s: State, name: Name) {
    name in s.mapped && IsAlive(s, s.mapped[name])
  }

  /** What the capacity check counts: the running sessions the map still names. */
  function Live(s: State): set<Name> {
    set n | n in s.mapped && IsAlive(s, s.mapped[n])
  }

  predicate ClaimAccepted(s: State, name: Name, c: Config) {
    name !in s.mapped && name !in s.claimed && |Live(s)| + |s.claimed| + 1 <= c.maxSessions
  }

  predicate Verifies(s: State, name: Name, generation: nat, token: nat) {
    && name in s.tokens
    && s.tokens[name].expiresAt > s.now
    && s.tokens[name].generation == generation
    && s.tokens[name].token == token
  }

  predicate CanMint(s: State, name: Name, c: Config) {
    name in s.claimed && !s.claimed[name].minted && c.tokenTtl > 0
  }

  predicate CanPublish(s: State, name: Name) {
    name in s.claimed && s.claimed[name].minted
  }

  predicate Holds(s: State, caller: Caller, stage: Stage) {
    caller in s.held && s.held[caller].stage == stage && s.held[caller].session in s.sessions
  }

  /** A renewal is refused when its session was dead as it looked it up. */
  predicate CanBump(s: State, caller: Caller) {
    Holds(s, caller, Looked) && s.held[caller].seenAlive
  }

  predicate RenewalPending(s: State, caller: Caller) {
    caller in s.held && s.held[caller].stage.Bumped?
  }

  function FreshHandle(s: State, name: Name): Handle
    requires name in s.mapped
  {
    Handle(s.mapped[name], name, Looked, IsAlive(s, s.mapped[name]))
  }

  function WithToken(s: State, name: Name, generation: nat, c: Config): State {
    s.(tokens := s.tokens[name := Stored(s.nextToken, generation, s.now + c.tokenTtl)], nextToken := s.nextToken + 1)
  }

  function WithStage(s: State, caller: Caller, stage: Stage): State
    requires caller in s.held
  {
    s.(held := s.held[caller := s.held[caller].(stage := stage)])
  }

  function PublishClaim(s: State, name: Name): State {
    if !CanPublish(s, name) then s
    else
      s.(claimed := s.claimed - {name},
         sessions := s.sessions[s.nextSession := Session(name, s.claimed[name].generation, true)],
         mapped := s.mapped[name := s.nextSession],
         nextSession := s.nextSession + 1)
  }

  /** The session held dies. Its name's token goes only if it was not dead before. */
  function TearDown(s: State, caller: Caller): State {
    if !Holds(s, caller, Looked) then s
    else
      var h := s.held[caller];
      var x := s.sessions[h.session];
      WithStage(s, caller, Torn).(
        sessions := s.sessions[h.session := x.(alive := false)],
        tokens := if x.alive then s.tokens - {h.name} else s.tokens)
  }

  /** The name goes, whichever session it names by then. */
  function ForgetName(s: State, caller: Caller): State {
    if !Holds(s, caller, Torn) then s
    else s.(mapped := s.mapped - {s.held[caller].name}, held := s.held - {caller})
  }

  /** The first half of a renewal, under the session's lock: the next generation, and
      the name's token revoked. Whether the session is alive is not asked again. */
  function BumpGeneration(s: State, caller: Caller): State {
    if !CanBump(s, caller) then s
    else
      var h := s.held[caller];
      var x := s.sessions[h.session];
      WithStage(s, caller, Bumped(x.generation + 1)).(
        sessions := s.sessions[h.session := x.(generation := x.generation + 1)],
        tokens := s.tokens - {h.name})
  }

  /** The second half, with the lock gone. */
  function MintForRenewal(s: State, caller: Caller, c: Config): State {
    if !RenewalPending(s, caller) then s
    else
      var h := s.held[caller];
      var r := s.(held := s.held - {caller});
      if c.tokenTtl > 0 then WithToken(r, h.name, h.stage.generation, c) else r
  }

  /** One atomic action; one that is not possible leaves the state alone. */
  function Step(s: State, a: Action, c: Config): State {
    match a
    case ClaimName(name, generation) =>
      if ClaimAccepted(s, name, c) then s.(claimed := s.claimed[name := Spawn(generation, false)]) else s
    case Abandon(name) =>
      if name in s.claimed && !s.claimed[name].minted then s.(claimed := s.claimed - {name}) else s
    case Mint(name) =>
      if CanMint(s, name, c) then
        WithToken(s, name, s.claimed[name].generation, c).(claimed := s.claimed[name := s.claimed[name].(minted := true)])
      else s
    case Publish(name) => PublishClaim(s, name)
    case Get(caller, name) =>
      if caller !in s.held && name in s.mapped then
        s.(held := s.held[caller := FreshHandle(s, name)])
      else s
    case Drop(caller) =>
      if caller in s.held && s.held[caller].stage == Looked then s.(held := s.held - {caller}) else s
    case Teardown(caller) => TearDown(s, caller)
    case Forget(caller) => ForgetName(s, caller)
    case Bump(caller) => BumpGeneration(s, caller)
    case MintRenewed(caller) => MintForRenewal(s, caller, c)
    case Verify(name, generation, token) =>
      if !Verifies(s, name, generation, token) && name in s.tokens && s.tokens[name].expiresAt <= s.now then
        s.(tokens := s.tokens - {name})
      else s
    case Tick(elapsed) => s.(now := s.now + elapsed)
  }

  function RunFrom(s: State, actions: seq<Action>, c: Config): State
    decreases |actions|
  {
    if actions == [] then s else Step(RunFrom(s, actions[..|actions| - 1], c), actions[|actions| - 1], c)
  }

  function Run(actions: seq<Action>, c: Config): State {
    RunFrom(START, actions, c)
  }

  lemma RunLast(s: State, before: seq<Action>, a: Action, c: Config)
    ensures RunFrom(s, before + [a], c) == Step(RunFrom(s, before, c), a, c)
  {
    hide Step;
    assert (before + [a])[..|before|] == before;
  }

  lemma {:induction false} RunAppends(s: State, a: seq<Action>, b: seq<Action>, c: Config)
    ensures RunFrom(s, a + b, c) == RunFrom(RunFrom(s, a, c), b, c)
    decreases |b|
  {
    hide Step;
    if b == [] {
      assert a + b == a;
    } else {
      assert (a + b)[..|a + b| - 1] == a + b[..|b| - 1];
      RunAppends(s, a, b[..|b| - 1], c);
    }
  }

  // ----- what always holds ---------------------------------------------------------------------

  ghost predicate MapFits(s: State) {
    forall n :: n in s.mapped ==> s.mapped[n] in s.sessions && s.sessions[s.mapped[n]].name == n
  }

  ghost predicate HandleFits(s: State, h: Handle) {
    && h.session in s.sessions && s.sessions[h.session].name == h.name
    && (h.stage == Torn ==> !s.sessions[h.session].alive)
  }

  ghost predicate HandlesFit(s: State) {
    forall k :: k in s.held ==> HandleFits(s, s.held[k])
  }

  /** Names and identities fit together, and what was torn down stays dead. */
  ghost predicate NamesFit(s: State) {
    MapFits(s) && HandlesFit(s) && forall id :: id in s.sessions ==> id < s.nextSession
  }

  ghost predicate Admitted(s: State, c: Config) {
    && s.claimed.Keys !! s.mapped.Keys
    && |Live(s)| + |s.claimed| <= c.maxSessions
  }

  ghost predicate Inv(s: State, c: Config) {
    NamesFit(s) && Admitted(s, c)
  }

  /** A session keeps its name, and never comes back to life. */
  ghost predicate SessionsKept(s: State, r: State) {
    forall id :: id in s.sessions ==>
      id in r.sessions && r.sessions[id].name == s.sessions[id].name && (r.sessions[id].alive ==> s.sessions[id].alive)
  }

  lemma StepKeepsSessions(s: State, a: Action, c: Config)
    requires forall id :: id in s.sessions ==> id < s.nextSession
    ensures SessionsKept(s, Step(s, a, c))
    ensures forall id :: id in Step(s, a, c).sessions ==> id < Step(s, a, c).nextSession
  {
  }

  /** The map names only sessions it named before, or the one just published. */
  lemma StepMaps(s: State, a: Action, c: Config)
    ensures var r := Step(s, a, c);
      forall n :: n in r.mapped ==>
        || (n in s.mapped && r.mapped[n] == s.mapped[n])
        || (a == Publish(n) && CanPublish(s, n) && r.mapped[n] == s.nextSession
            && s.nextSession in r.sessions && r.sessions[s.nextSession] == Session(n, s.claimed[n].generation, true))
  {
  }

  /** A handle is as it was, fresh from the map, or one stage further on. */
  lemma StepHandles(s: State, a: Action, c: Config)
    ensures var r := Step(s, a, c);
      forall k :: k in r.held ==>
        || (k in s.held && r.held[k] == s.held[k])
        || (a.Get? && a.name in s.mapped && r.held[k] == FreshHandle(s, a.name))
        || (k in s.held && r.held[k] == s.held[k].(stage := r.held[k].stage)
            && (r.held[k].stage == Torn ==> s.held[k].session in r.sessions && !r.sessions[s.held[k].session].alive))
  {
  }

  lemma StepKeepsNames(s: State, a: Action, c: Config)
    requires NamesFit(s)
    ensures NamesFit(Step(s, a, c))
  {
    StepKeepsSessions(s, a, c);
    StepMaps(s, a, c);
    StepHandles(s, a, c);
    var r := Step(s, a, c);
    hide Step, CanPublish;
    forall n | n in r.mapped ensures r.mapped[n] in r.sessions && r.sessions[r.mapped[n]].name == n {
    }
    forall k | k in r.held ensures HandleFits(r, r.held[k]) {
      HandleStillFits(s, r, r.held[k], a, k);
    }
  }

  lemma HandleStillFits(s: State, r: State, h: Handle, a: Action, k: Caller)
    requires MapFits(s) && HandlesFit(s) && SessionsKept(s, r)
    requires
      || (k in s.held && h == s.held[k])
      || (a.Get? && a.name in s.mapped && h == FreshHandle(s, a.name))
      || (k in s.held && h == s.held[k].(stage := h.stage)
          && (h.stage == Torn ==> s.held[k].session in r.sessions && !r.sessions[s.held[k].session].alive))
    ensures HandleFits(r, h)
  {
    if k in s.held { assert HandleFits(s, s.held[k]); }
  }

  lemma Total(s: State, r: State, c: Config)
    requires Admitted(s, c) && r.claimed.Keys !! r.mapped.Keys
    requires |Live(r)| + |r.claimed.Keys| <= |Live(s)| + |s.claimed.Keys|
    ensures Admitted(r, c)
  {
  }

  /** Publishing turns a claim into a live session: nobody is displaced, and what the
      capacity check counts stays the same. */
  lemma PublishKeepsTotal(s: State, name: Name, c: Config)
    requires Inv(s, c) && CanPublish(s, name)
    ensures name !in s.mapped
    ensures |Live(PublishClaim(s, name))| == |Live(s)| + 1 && |PublishClaim(s, name).claimed| == |s.claimed| - 1
    ensures Admitted(PublishClaim(s, name), c)
  {
    var r := PublishClaim(s, name);
    assert name in s.claimed.Keys && name !in s.mapped.Keys;
    LiveAfterPublish(s, name);
    assert r.claimed.Keys == s.claimed.Keys - {name};
    assert name !in Live(s);
    assert r.claimed.Keys !! r.mapped.Keys;
    assert |r.claimed.Keys| == |s.claimed.Keys| - 1;
    hide *;
    Total(s, r, c);
  }

  lemma LiveAfterPublish(s: State, name: Name)
    requires NamesFit(s) && CanPublish(s, name) && name !in s.mapped
    ensures Live(PublishClaim(s, name)) == Live(s) + {name}
  {
  }

  lemma ClaimKeepsTotal(s: State, name: Name, generation: nat, c: Config)
    requires Admitted(s, c)
    ensures Admitted(Step(s, ClaimName(name, generation), c), c)
    ensures ClaimAccepted(s, name, c) ==> |Step(s, ClaimName(name, generation), c).claimed| == |s.claimed| + 1
    ensures Live(Step(s, ClaimName(name, generation), c)) == Live(s)
  {
    var r := Step(s, ClaimName(name, generation), c);
    SameLive(s, r);
    hide Live;
    if ClaimAccepted(s, name, c) { OneMoreClaim(s.claimed, name, Spawn(generation, false)); }
  }

  lemma SameLive(s: State, r: State)
    requires r.mapped == s.mapped && r.sessions == s.sessions
    ensures Live(r) == Live(s)
  {
  }

  lemma OneMoreClaim(claimed: map<Name, Spawn>, name: Name, spawn: Spawn)
    requires name !in claimed
    ensures |claimed[name := spawn]| == |claimed| + 1
  {
    assert claimed[name := spawn].Keys == claimed.Keys + {name};
    assert |claimed[name := spawn].Keys| == |claimed.Keys| + 1;
  }

  /** No other step takes a slot. */
  lemma OtherStepsShrink(s: State, a: Action, c: Config)
    requires !a.ClaimName? && !a.Publish?
    ensures var r := Step(s, a, c);
      r.claimed.Keys <= s.claimed.Keys && r.mapped.Keys <= s.mapped.Keys && Live(r) <= Live(s)
  {
  }

  lemma StepKeepsAdmitted(s: State, a: Action, c: Config)
    requires Inv(s, c)
    ensures Admitted(Step(s, a, c), c)
  {
    if a.ClaimName? {
      ClaimKeepsTotal(s, a.name, a.generation, c);
    } else if a.Publish? {
      if CanPublish(s, a.name) { PublishKeepsTotal(s, a.name, c); }
    } else {
      OtherStepsShrink(s, a, c);
      hide Step, Live, NamesFit;
      var r := Step(s, a, c);
      SubsetIsSmaller(r.claimed.Keys, s.claimed.Keys);
      SubsetIsSmaller(Live(r), Live(s));
      Total(s, r, c);
    }
  }

  /** Over every interleaving: the running sessions the map names plus the outstanding
      claims stay within the limit, and no name is both claimed and published. */
  lemma {:induction false} AdmissionHolds(actions: seq<Action>, c: Config)
    ensures Inv(Run(actions, c), c)
    decreases |actions|
  {
    hide Step;
    if actions == [] {
      assert Live(START) == {};
    } else {
      AdmissionHolds(actions[..|actions| - 1], c);
      hide Admitted, NamesFit;
      StepKeepsNames(Run(actions[..|actions| - 1], c), actions[|actions| - 1], c);
      StepKeepsAdmitted(Run(actions[..|actions| - 1], c), actions[|actions| - 1], c);
    }
  }

  /** An abandoned claim leaves no trace: the name and the slot are free again. */
  lemma AbandonGivesBack(s: State, name: Name, generation: nat, c: Config)
    requires ClaimAccepted(s, name, c)
    ensures Step(Step(s, ClaimName(name, generation), c), Abandon(name), c) == s
  {
    assert s.claimed[name := Spawn(generation, false)] - {name} == s.claimed;
  }

  /** A claim stands, for whoever made it, until it is published or abandoned. */
  lemma {:induction false} ClaimStands(s: State, later: seq<Action>, name: Name, c: Config)
    requires name in s.claimed
    requires Publish(name) !in later && Abandon(name) !in later
    ensures var r := RunFrom(s, later, c);
      name in r.claimed && r.claimed[name].generation == s.claimed[name].generation
    decreases |later|
  {
    if later != [] {
      var most, last := later[..|later| - 1], later[|later| - 1];
      assert last in later;
      ClaimStands(s, most, name, c);
      ClaimSurvives(RunFrom(s, most, c), last, name, c);
    }
  }

  lemma ClaimSurvives(s: State, a: Action, name: Name, c: Config)
    requires name in s.claimed && a != Publish(name) && a != Abandon(name)
    ensures var r := Step(s, a, c); name in r.claimed && r.claimed[name].generation == s.claimed[name].generation
  {
  }

  // ----- sessions that run without a name --------------------------------------------------------

  function Running(s: State): set<SessionId> {
    set id | id in s.sessions && s.sessions[id].alive
  }

  predicate IsNamed(s: State, id: SessionId) {
    id in s.sessions && s.sessions[id].name in s.mapped && s.mapped[s.sessions[id].name] == id
  }

  /** Running, but under no name: no caller can find such a session any more. */
  function Orphans(s: State): set<SessionId> {
    set id | id in Running(s) && !IsNamed(s, id)
  }

  function NamedIds(s: State, names: set<Name>): set<SessionId>
    requires forall n :: n in names ==> n in s.mapped
  {
    set n | n in names :: s.mapped[n]
  }

  lemma {:induction false} NamedIdsCount(s: State, names: set<Name>)
    requires NamesFit(s) && forall n :: n in names ==> n in s.mapped
    ensures |NamedIds(s, names)| == |names|
    decreases names
  {
    if names != {} {
      var n :| n in names;
      NamedIdsCount(s, names - {n});
      assert s.mapped[n] !in NamedIds(s, names - {n});
      assert NamedIds(s, names) == NamedIds(s, names - {n}) + {s.mapped[n]};
    }
  }

  /** What really runs is what the capacity check counts plus the orphans. */
  lemma RunningSplits(s: State)
    requires NamesFit(s)
    ensures |Running(s)| == |Live(s)| + |Orphans(s)|
  {
    var named := NamedIds(s, Live(s));
    NamedIdsCount(s, Live(s));
    NamedAreRunning(s);
    hide *;
    assert Running(s) == named + Orphans(s);
  }

  lemma NamedAreRunning(s: State)
    requires NamesFit(s)
    ensures forall n :: n in Live(s) ==> n in s.mapped
    ensures NamedIds(s, Live(s)) + Orphans(s) == Running(s)
    ensures NamedIds(s, Live(s)) !! Orphans(s)
  {
    forall id | id in Running(s) && id !in Orphans(s) ensures id in NamedIds(s, Live(s)) {
      assert s.sessions[id].name in Live(s);
    }
  }

  /** A removal that takes the name of a running session away. */
  predicate Orphaning(s: State, a: Action) {
    a.Forget? && Holds(s, a.caller, Torn) && IsLive(s, s.held[a.caller].name)
  }

  predicate OrphanFree(s: State, actions: seq<Action>, c: Config)
    decreases |actions|
  {
    actions == [] || (
      && OrphanFree(s, actions[..|actions| - 1], c)
      && !Orphaning(RunFrom(s, actions[..|actions| - 1], c), actions[|actions| - 1]))
  }

  lemma StepOrphans(s: State, a: Action, c: Config)
    requires Inv(s, c)
    ensures Orphaning(s, a) ==> s.mapped[s.held[a.caller].name] in Orphans(Step(s, a, c))
    ensures !Orphaning(s, a) ==> Orphans(Step(s, a, c)) <= Orphans(s)
  {
    hide TearDown, BumpGeneration, MintForRenewal, WithToken, ForgetName, PublishClaim, Live, Orphans, MapFits, HandlesFit;
    var r := Step(s, a, c);
    if a.Forget? {
      ForgetOrphans(s, a.caller);
    } else if a.Publish? {
      if CanPublish(s, a.name) {
        assert a.name in s.claimed.Keys && a.name !in s.mapped.Keys;
        PublishOrphans(s, a.name);
      } else {
        PublishNothing(s, a.name);
      }
    } else {
      StepKeepsSessions(s, a, c);
      OtherStepsKeepMap(s, a, c);
      SameMapOrphans(s, r);
    }
  }

  lemma PublishNothing(s: State, name: Name)
    requires !CanPublish(s, name)
    ensures PublishClaim(s, name) == s
  {
  }

  lemma OtherStepsKeepMap(s: State, a: Action, c: Config)
    requires !a.Publish? && !a.Forget?
    ensures Step(s, a, c).mapped == s.mapped
    ensures forall id :: id in Step(s, a, c).sessions ==> id in s.sessions
  {
    hide Live, ClaimAccepted, Verifies, CanMint;
    match a
    case Teardown(_) =>
    case Bump(_) =>
    case MintRenewed(_) => hide Holds;
    case _ => hide Holds, RenewalPending;
  }

  lemma SameMapOrphans(s: State, r: State)
    requires r.mapped == s.mapped && SessionsKept(s, r)
    requires forall id :: id in r.sessions ==> id in s.sessions
    ensures Orphans(r) <= Orphans(s)
  {
  }

  lemma ForgetOrphans(s: State, caller: Caller)
    requires NamesFit(s)
    ensures Orphaning(s, Forget(caller)) ==> s.mapped[s.held[caller].name] in Orphans(ForgetName(s, caller))
    ensures !Orphaning(s, Forget(caller)) ==> Orphans(ForgetName(s, caller)) <= Orphans(s)
  {
  }

  lemma PublishOrphans(s: State, name: Name)
    requires NamesFit(s) && CanPublish(s, name) && name !in s.mapped
    ensures Orphans(PublishClaim(s, name)) <= Orphans(s)
  {
  }

  lemma {:induction false} OrphanFreeRun(s: State, actions: seq<Action>, c: Config)
    requires Inv(s, c) && Orphans(s) == {} && OrphanFree(s, actions, c)
    ensures Inv(RunFrom(s, actions, c), c) && Orphans(RunFrom(s, actions, c)) == {}
    decreases |actions|
  {
    hide Step, Inv, Orphans, Orphaning;
    if actions != [] {
      var before, a := actions[..|actions| - 1], actions[|actions| - 1];
      OrphanFreeRun(s, before, c);
      var t := RunFrom(s, before, c);
      StepOrphans(t, a, c);
      StepKeepsInv(t, a, c);
    }
  }

  lemma StepKeepsInv(s: State, a: Action, c: Config)
    requires Inv(s, c)
    ensures Inv(Step(s, a, c), c)
  {
    hide Step, NamesFit, Admitted;
    StepKeepsNames(s, a, c);
    StepKeepsAdmitted(s, a, c);
  }

  lemma {:induction false} RunKeepsInv(s: State, actions: seq<Action>, c: Config)
    requires Inv(s, c)
    ensures Inv(RunFrom(s, actions, c), c)
    decreases |actions|
  {
    hide Step, Inv;
    if actions != [] {
      RunKeepsInv(s, actions[..|actions| - 1], c);
      StepKeepsInv(RunFrom(s, actions[..|actions| - 1], c), actions[|actions| - 1], c);
    }
  }

  predicate WithinCap(s: State, c: Config) {
    |Running(s)| + |s.claimed| <= c.maxSessions
  }

  /** The cap on what really runs holds in every history whose removals find dead
      sessions. */
  lemma CapHolds(actions: seq<Action>, c: Config)
    requires OrphanFree(START, actions, c)
    ensures WithinCap(Run(actions, c), c)
  {
    AdmissionHolds([], c);
    assert Orphans(START) == {};
    OrphanFreeRun(START, actions, c);
    RunningSplits(Run(actions, c));
  }

  ghost predicate PassesCap(s: State, later: seq<Action>, c: Config) {
    OrphanFree(s, later, c) && !WithinCap(RunFrom(s, later, c), c)
  }

  /** Exactly when the cap can be passed: from a reachable state, without one more
      removal going wrong, if and only if a session already runs without a name. */
  lemma CapPassedExactlyWithOrphans(actions: seq<Action>, c: Config)
    ensures var s := Run(actions, c);
      (exists later :: PassesCap(s, later, c)) <==> Orphans(s) != {}
  {
    hide Orphans, WithinCap, OrphanFree;
    var s := Run(actions, c);
    AdmissionHolds(actions, c);
    hide Run;
    if Orphans(s) != {} {
      var later := FillUp(s, c);
      assert PassesCap(s, later, c);
    } else {
      forall later ensures !PassesCap(s, later, c) {
        if OrphanFree(s, later, c) { NoOrphansWithinCap(s, later, c); }
      }
    }
  }

  lemma NoOrphansWithinCap(s: State, later: seq<Action>, c: Config)
    requires Inv(s, c) && Orphans(s) == {} && OrphanFree(s, later, c)
    ensures WithinCap(RunFrom(s, later, c), c)
  {
    OrphanFreeRun(s, later, c);
    RunningSplits(RunFrom(s, later, c));
  }

  lemma FreshName(names: set<Name>) returns (n: Name)
    ensures n !in names
  {
    var longest := LongerThanAll(names);
    n := seq(longest, _ => 'a');
  }

  lemma {:induction false} LongerThanAll(names: set<Name>) returns (length: nat)
    ensures forall n :: n in names ==> |n| < length
    decreases names
  {
    length := 0;
    if names != {} {
      var n :| n in names;
      var rest := LongerThanAll(names - {n});
      length := Max(rest, |n| + 1);
    }
  }

  /** New claims until the capacity check refuses the next one: with an orphan about,
      that is one session too many. */
  lemma {:induction false} FillUp(s: State, c: Config) returns (later: seq<Action>)
    requires Inv(s, c) && Orphans(s) != {}
    ensures OrphanFree(s, later, c) && !WithinCap(RunFrom(s, later, c), c)
    decreases c.maxSessions - |Live(s)| - |s.claimed|
  {
    if |Live(s)| + |s.claimed| < c.maxSessions {
      var name := FreshName(s.mapped.Keys + s.claimed.Keys);
      var a := ClaimName(name, 1);
      ClaimKeepsTotal(s, name, 1, c);
      ClaimKeepsOrphans(s, name, 1, c);
      StepKeepsInv(s, a, c);
      var t := Step(s, a, c);
      assert name !in s.mapped.Keys && name !in s.claimed.Keys;
      assert ClaimAccepted(s, name, c);
      hide Step, Orphans, Live, WithinCap, Inv;
      var rest := FillUp(t, c);
      later := [a] + rest;
      assert [a][..0] == [];
      assert [] + [a] == [a];
      RunLast(s, [], a, c);
      RunAppends(s, [a], rest, c);
      OrphanFreeAppends(s, [a], rest, c);
    } else {
      later := [];
      RunningSplits(s);
      hide Orphans;
      assert |Orphans(s)| > 0;
    }
  }

  lemma ClaimKeepsOrphans(s: State, name: Name, generation: nat, c: Config)
    ensures Orphans(Step(s, ClaimName(name, generation), c)) == Orphans(s)
  {
  }

  lemma {:induction false} OrphanFreeAppends(s: State, a: seq<Action>, b: seq<Action>, c: Config)
    requires OrphanFree(s, a, c) && OrphanFree(RunFrom(s, a, c), b, c)
    ensures OrphanFree(s, a + b, c)
    decreases |b|
  {
    hide Step, Orphaning;
    if b == [] {
      assert a + b == a;
    } else {
      assert (a + b)[..|a + b| - 1] == a + b[..|b| - 1];
      OrphanFreeAppends(s, a, b[..|b| - 1], c);
      RunAppends(s, a, b[..|b| - 1], c);
    }
  }
}
