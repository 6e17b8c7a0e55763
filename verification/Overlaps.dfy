/** What callers that act on one session at the same time can do to it. */
module Overlaps {
  import opened Bytes
  import opened Manager
  import opened Tokens

  lemma {:induction false} RunFirst(s: State, actions: seq<Action>, c: Config)
    requires actions != []
    ensures RunFrom(s, actions, c) == RunFrom(Step(s, actions[0], c), actions[1..], c)
  {
    hide Step;
    assert actions == [actions[0]] + actions[1..];
    RunAppends(s, [actions[0]], actions[1..], c);
    assert [actions[0]][..0] == [];
    assert RunFrom(s, [actions[0]], c) == Step(RunFrom(s, [], c), actions[0], c);
  }

  lemma RunTwo(s: State, x: Action, y: Action, c: Config)
    ensures RunFrom(s, [x, y], c) == Step(Step(s, x, c), y, c)
  {
    hide Step;
    RunFirst(s, [x, y], c);
    RunFirst(Step(s, x, c), [y], c);
    assert [x, y][1..] == [y] && [y][1..] == [];
  }

  lemma RunThree(s: State, x: Action, y: Action, z: Action, c: Config)
    ensures RunFrom(s, [x, y, z], c) == Step(Step(Step(s, x, c), y, c), z, c)
  {
    hide Step;
    RunFirst(s, [x, y, z], c);
    RunTwo(Step(s, x, c), y, z, c);
    assert [x, y, z][1..] == [y, z];
  }

  predicate BothFree(s: State, a: Caller, b: Caller) {
    a != b && a !in s.held && b !in s.held
  }

  function BothLook(a: Caller, b: Caller, name: Name): seq<Action> {
    [Get(a, name), Get(b, name)]
  }

  lemma BothLooked(s: State, a: Caller, b: Caller, name: Name, c: Config)
    requires name in s.mapped && BothFree(s, a, b)
    ensures var h := FreshHandle(s, name);
      RunFrom(s, BothLook(a, b, name), c) == s.(held := s.held[a := h][b := h])
  {
    RunTwo(s, Get(a, name), Get(b, name), c);
  }

  /** Claim, mint and publish in a row. */
  function Respawn(name: Name, generation: nat): seq<Action> {
    [ClaimName(name, generation), Mint(name), Publish(name)]
  }

  lemma Respawned(s: State, name: Name, generation: nat, c: Config)
    requires ClaimAccepted(s, name, c) && c.tokenTtl > 0
    ensures var r := RunFrom(s, Respawn(name, generation), c);
      && r.mapped == s.mapped[name := s.nextSession]
      && r.sessions == s.sessions[s.nextSession := Session(name, generation, true)]
      && r.claimed == s.claimed && r.held == s.held && name in r.tokens
  {
    RunThree(s, ClaimName(name, generation), Mint(name), Publish(name), c);
    hide RunFrom;
    assert s.claimed[name := Spawn(generation, false)][name := Spawn(generation, true)] - {name} == s.claimed;
  }

  /** A kill that looked a session up, is overtaken by a whole restart of it, and only
      then goes on: it finds its own session dead, revokes nothing, and removes the
      name of the restarted one. */
  function LateKill(a: Caller, b: Caller, name: Name, generation: nat): seq<Action> {
    BothLook(a, b, name) + [Teardown(b), Forget(b)] + Respawn(name, generation) + [Teardown(a), Forget(a)]
  }

  /** From any reachable state: the restarted session is left running without a name,
      its token stays stored, and the agreement is gone. */
  lemma LateKillOrphans(s: State, a: Caller, b: Caller, name: Name, generation: nat, c: Config)
    requires Inv(s, c) && IsLive(s, name) && BothFree(s, a, b) && c.tokenTtl > 0
    ensures var r := RunFrom(s, LateKill(a, b, name, generation), c);
      && s.nextSession in Orphans(r) && name in r.tokens && name !in r.mapped
      && !Agreement(r)
  {
    hide Step, Inv, Orphans, IsLive, Agreement;
    var s1 := RunFrom(s, BothLook(a, b, name), c);
    IsLiveMapped(s, name, c);
    BothLooked(s, a, b, name, c);
    RunKeepsInv(s, BothLook(a, b, name), c);
    IsLiveSame(s, s1, name);
    var s2 := RunFrom(s1, [Teardown(b), Forget(b)], c);
    KilledBy(s1, b, name, c);
    RunAppends(s, BothLook(a, b, name), [Teardown(b), Forget(b)], c);
    SlotIsFree(s1, s2, name, c);
    LateEnd(s2, a, name, generation, s.mapped[name], c);
    var killed := BothLook(a, b, name) + [Teardown(b), Forget(b)];
    RunAppends(s, killed, Respawn(name, generation), c);
    RunAppends(s, killed + Respawn(name, generation), [Teardown(a), Forget(a)], c);
  }

  lemma IsLiveMapped(s: State, name: Name, c: Config)
    requires Inv(s, c) && IsLive(s, name)
    ensures name in s.mapped && name !in s.claimed && s.mapped[name] < s.nextSession
  {
    assert name in s.mapped.Keys;
  }

  lemma IsLiveSame(s: State, r: State, name: Name)
    requires r.sessions == s.sessions && r.mapped == s.mapped
    ensures IsLive(r, name) <==> IsLive(s, name)
  {
  }

  /** The restart's second half and the late kill's. */
  lemma LateEnd(s: State, a: Caller, name: Name, generation: nat, dead: SessionId, c: Config)
    requires ClaimAccepted(s, name, c) && c.tokenTtl > 0
    requires a in s.held && s.held[a].session == dead && s.held[a].name == name && s.held[a].stage == Looked
    requires dead in s.sessions && !s.sessions[dead].alive && dead < s.nextSession
    ensures var r := RunFrom(RunFrom(s, Respawn(name, generation), c), [Teardown(a), Forget(a)], c);
      s.nextSession in Orphans(r) && name in r.tokens && name !in r.mapped && !Agreement(r)
  {
    hide Step, RunFrom, Orphans, Agreement, Live;
    Respawned(s, name, generation, c);
    LateTeardown(RunFrom(s, Respawn(name, generation), c), a, name, s.nextSession, c);
  }

  lemma KilledBy(s: State, b: Caller, name: Name, c: Config)
    requires IsLive(s, name) && b in s.held && s.held[b] == FreshHandle(s, name)
    ensures var r := RunFrom(s, [Teardown(b), Forget(b)], c);
      && r.mapped == s.mapped - {name} && r.claimed == s.claimed && r.held == s.held - {b}
      && r.nextSession == s.nextSession
      && r.sessions == s.sessions[s.mapped[name] := s.sessions[s.mapped[name]].(alive := false)]
  {
    RunTwo(s, Teardown(b), Forget(b), c);
    hide RunFrom;
    assert s.held[b := s.held[b].(stage := Torn)] - {b} == s.held - {b};
  }

  lemma SlotIsFree(s: State, r: State, name: Name, c: Config)
    requires Inv(s, c) && IsLive(s, name) && r.mapped == s.mapped - {name} && r.claimed == s.claimed
    requires r.sessions == s.sessions[s.mapped[name] := s.sessions[s.mapped[name]].(alive := false)]
    ensures ClaimAccepted(r, name, c)
  {
    assert Live(r) <= Live(s) - {name};
    assert name in s.mapped.Keys && name !in s.claimed.Keys;
    SubsetIsSmaller(Live(r), Live(s) - {name});
    assert name in Live(s);
    hide Live, NamesFit;
    assert |Live(s) - {name}| == |Live(s)| - 1;
  }

  lemma LateTeardown(s: State, a: Caller, name: Name, id: SessionId, c: Config)
    requires Holds(s, a, Looked) && s.held[a].name == name && s.held[a].session != id
    requires !s.sessions[s.held[a].session].alive
    requires name in s.mapped && s.mapped[name] == id && id in s.sessions && s.sessions[id].alive
    requires s.sessions[id].name == name && name in s.tokens && name !in s.claimed
    ensures var r := RunFrom(s, [Teardown(a), Forget(a)], c);
      id in Orphans(r) && name in r.tokens && name !in r.mapped && !Agreement(r)
  {
    RunTwo(s, Teardown(a), Forget(a), c);
    hide RunFrom;
    var r := Step(Step(s, Teardown(a), c), Forget(a), c);
    assert r.mapped == s.mapped - {name};
    assert !Backed(r, name, r.tokens[name].generation);
  }

  /** So from any reachable state with a running session the cap can be passed. */
  lemma LateKillPassesCap(actions: seq<Action>, a: Caller, b: Caller, name: Name, generation: nat, c: Config)
    returns (later: seq<Action>)
    requires IsLive(Run(actions, c), name) && BothFree(Run(actions, c), a, b) && c.tokenTtl > 0
    ensures !WithinCap(Run(actions + LateKill(a, b, name, generation) + later, c), c)
  {
    hide Step, Orphans, WithinCap, LateKill, OrphanFree;
    var s, kill := Run(actions, c), LateKill(a, b, name, generation);
    AdmissionHolds(actions, c);
    LateKillOrphans(s, a, b, name, generation, c);
    RunKeepsInv(s, kill, c);
    later := FillUp(RunFrom(s, kill, c), c);
    RunAppends(START, actions, kill, c);
    RunAppends(START, actions + kill, later, c);
  }

  /** Two renewals of one session whose mints come in the other order than their bumps
      leave a token of the older generation stored. */
  lemma CrossedRenewalsBreak(s: State, a: Caller, b: Caller, name: Name, c: Config)
    requires IsLive(s, name) && BothFree(s, a, b) && c.tokenTtl > 0 && name !in s.claimed
    ensures var r := RunFrom(s, BothLook(a, b, name) + [Bump(a), Bump(b)] + [MintRenewed(b), MintRenewed(a)], c);
      var g := s.sessions[s.mapped[name]].generation;
      && LiveAt(r, name, g + 2) && name in r.tokens && r.tokens[name].generation == g + 1
      && !Agreement(r)
  {
    hide Step, LiveAt;
    BothLooked(s, a, b, name, c);
    var s1 := RunFrom(s, BothLook(a, b, name), c);
    RunAppends(s, BothLook(a, b, name), [Bump(a), Bump(b)], c);
    BothBumped(s, s1, a, b, name, c);
    var s2 := RunFrom(s1, [Bump(a), Bump(b)], c);
    RunAppends(s, BothLook(a, b, name) + [Bump(a), Bump(b)], [MintRenewed(b), MintRenewed(a)], c);
    CrossedMints(s2, a, b, name, s.sessions[s.mapped[name]].generation, c);
  }

  lemma BothBumped(s: State, s1: State, a: Caller, b: Caller, name: Name, c: Config)
    requires IsLive(s, name) && BothFree(s, a, b) && name !in s.claimed
    requires var h := FreshHandle(s, name); s1 == s.(held := s.held[a := h][b := h])
    ensures var r := RunFrom(s1, [Bump(a), Bump(b)], c);
      var g := s.sessions[s.mapped[name]].generation;
      && LiveAt(r, name, g + 2) && name !in r.claimed && a in r.held && b in r.held
      && r.held[a] == Handle(s.mapped[name], name, Bumped(g + 1), true)
      && r.held[b] == Handle(s.mapped[name], name, Bumped(g + 2), true)
  {
    RunTwo(s1, Bump(a), Bump(b), c);
    hide RunFrom;
    var id, g := s.mapped[name], s.sessions[s.mapped[name]].generation;
    var s2 := Step(s1, Bump(a), c);
    assert s2.held == s1.held[a := Handle(id, name, Bumped(g + 1), true)];
    assert s2.sessions == s.sessions[id := s.sessions[id].(generation := g + 1)];
  }

  lemma CrossedMints(s: State, a: Caller, b: Caller, name: Name, g: nat, c: Config)
    requires a != b && c.tokenTtl > 0 && LiveAt(s, name, g + 2) && name !in s.claimed && a in s.held && b in s.held
    requires s.held[a].name == s.held[b].name == name
    requires s.held[a].stage == Bumped(g + 1) && s.held[b].stage == Bumped(g + 2)
    ensures var r := RunFrom(s, [MintRenewed(b), MintRenewed(a)], c);
      LiveAt(r, name, g + 2) && name in r.tokens && r.tokens[name].generation == g + 1 && !Agreement(r)
  {
    RunTwo(s, MintRenewed(b), MintRenewed(a), c);
    hide RunFrom;
    var r := Step(Step(s, MintRenewed(b), c), MintRenewed(a), c);
    SameBacking(s, r, name, g + 1);
    assert !Backed(s, name, g + 1);
  }

  /** A renewal overtaken by a teardown leaves a token stored for a dead session. */
  lemma KilledRenewalBreaks(s: State, a: Caller, b: Caller, name: Name, c: Config)
    requires IsLive(s, name) && BothFree(s, a, b) && c.tokenTtl > 0 && name !in s.claimed
    ensures var r := RunFrom(s, BothLook(a, b, name) + [Bump(a), Teardown(b), MintRenewed(a)], c);
      !IsLive(r, name) && name in r.tokens && !Agreement(r)
  {
    BothLooked(s, a, b, name, c);
    var s1 := RunFrom(s, BothLook(a, b, name), c);
    RunAppends(s, BothLook(a, b, name), [Bump(a), Teardown(b), MintRenewed(a)], c);
    RunThree(s1, Bump(a), Teardown(b), MintRenewed(a), c);
    hide RunFrom;
    var s2 := Step(Step(s1, Bump(a), c), Teardown(b), c);
    assert s2.mapped == s.mapped && !s2.sessions[s.mapped[name]].alive && s2.held[a].stage.Bumped?;
    hide Step;
    MintForDead(s2, a, name, c);
  }

  /** A renewal that found its session alive bumps it after a teardown, and stores a token
      for it: no other renewal or teardown comes between its two halves, and no name is
      claimed. */
  lemma DeadRenewalBreaks(s: State, a: Caller, b: Caller, name: Name, c: Config)
    requires IsLive(s, name) && BothFree(s, a, b) && c.tokenTtl > 0 && name !in s.claimed
    requires NoRenewalOn(s, name)
    ensures var torn := Step(RunFrom(s, BothLook(a, b, name), c), Teardown(b), c);
      && NoRenewalOn(RunFrom(s, BothLook(a, b, name), c), name) && NoRenewalOn(torn, name)
      && CanBump(torn, a) && !Waits(torn, Bump(a))
    ensures var r := RunFrom(s, BothLook(a, b, name) + [Teardown(b), Bump(a), MintRenewed(a)], c);
      !IsLive(r, name) && name in r.tokens && !Agreement(r)
  {
    BothLooked(s, a, b, name, c);
    var s1 := RunFrom(s, BothLook(a, b, name), c);
    RunAppends(s, BothLook(a, b, name), [Teardown(b), Bump(a), MintRenewed(a)], c);
    RunThree(s1, Teardown(b), Bump(a), MintRenewed(a), c);
    hide RunFrom;
    var s2 := Step(Step(s1, Teardown(b), c), Bump(a), c);
    assert s2.mapped == s.mapped && !s2.sessions[s.mapped[name]].alive && s2.held[a].stage.Bumped?;
    hide Step;
    MintForDead(s2, a, name, c);
  }

  lemma MintForDead(s: State, a: Caller, name: Name, c: Config)
    requires RenewalPending(s, a) && s.held[a].name == name && c.tokenTtl > 0
    requires name !in s.claimed && !IsLive(s, name)
    ensures var r := Step(s, MintRenewed(a), c); !IsLive(r, name) && name in r.tokens && !Agreement(r)
  {
    var r := Step(s, MintRenewed(a), c);
    assert !Backed(r, name, r.tokens[name].generation);
  }
}
