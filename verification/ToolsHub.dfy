/** The hub of reverse-attached Macs: attach grants, loopback keys, the one socket of
    each session, and why the last one went away. Evicting a socket and closing it
    are two steps; everything else takes one. */
module ToolsHub {
  import opened Bytes
  import opened CloseCodes

  const MAX_MISSED_PINGS: nat := 3

  type Name = string
  type SocketId = nat

  datatype Grant = Grant(secret: nat, expiresAt: nat)

  datatype Detach = Detach(code: nat, at: nat)

  /** A socket task: its session, silent ping intervals, close code, and whether the
      task has finished. */
  datatype Socket = Socket(session: Name, missed: nat, code: Option<nat>, exited: bool)

  /** `owed` are sockets displaced from the map and not yet told so. */
  datatype State = State(
    grants: map<Name, Grant>, keys: map<Name, nat>, attached: map<Name, SocketId>,
    detaches: map<Name, Detach>, sockets: map<SocketId, Socket>, owed: map<SocketId, nat>,
    nextSocket: nat, nextSecret: nat, now: nat)

  const START := State(map[], map[], map[], map[], map[], map[], 0, 0, 0)

  datatype Action =
    | Mint(name: Name, ttl: nat)
    | Verify(name: Name, secret: nat)
    | IssueKey(name: Name, drawn: bool)
    | Attach(name: Name)
    | CloseEvicted(socket: SocketId)
    | Revoke(name: Name, code: nat)
    | ForgetSession(name: Name)
    | Frame(socket: SocketId)
    | PingTick(socket: SocketId)
    | Exit(socket: SocketId)
    | Sweep(exist: set<Name>)
    | CloseAll(code: nat)
    | Tick(elapsed: nat)

  // ----- the steps ---------------------------------------------------------------------------

  predicate IsOpen(s: State, k: SocketId) {
    k in s.sockets && s.sockets[k].code.None?
  }

  predicate IsCurrent(s: State, k: SocketId) {
    k in s.sockets && Maps(s.attached, s.sockets[k].session, k)
  }

  /** Idempotent close: a code already chosen stays. */
  function CloseOne(x: Socket, code: nat): Socket {
    if x.code.Some? then x else x.(code := Some(code))
  }

  function CloseSocket(s: State, k: SocketId, code: nat): State {
    if k in s.sockets then s.(sockets := s.sockets[k := CloseOne(s.sockets[k], code)]) else s
  }

  predicate Maps(attached: map<Name, SocketId>, name: Name, k: SocketId) {
    name in attached && attached[name] == k
  }

  function ClosedFor(
    sockets: map<SocketId, Socket>, attached: map<Name, SocketId>, names: set<Name>, code: nat
  ): map<SocketId, Socket> {
    map k | k in sockets ::
      if sockets[k].session in names && Maps(attached, sockets[k].session, k) then CloseOne(sockets[k], code) else sockets[k]
  }

  function Recorded(detaches: map<Name, Detach>, names: set<Name>, detach: Detach): map<Name, Detach> {
    map n | n in detaches.Keys + names :: if n in names then detach else detaches[n]
  }

  /** Drop the grants of `names`, close their attached sockets, record the detaches. */
  function RevokeAll(s: State, names: set<Name>, code: nat): State {
    s.(grants := s.grants - names,
       attached := s.attached - names,
       sockets := ClosedFor(s.sockets, s.attached, names, code),
       detaches := Recorded(s.detaches, names * (s.grants.Keys + s.attached.Keys), Detach(code, s.now)))
  }

  function ForgetAll(s: State, names: set<Name>): State {
    var r := RevokeAll(s, names, SESSION_ENDED);
    r.(keys := r.keys - names, detaches := r.detaches - names)
  }

  function Expired(s: State): set<Name> {
    set n | n in s.grants && s.grants[n].expiresAt <= s.now
  }

  function Known(s: State): set<Name> {
    s.grants.Keys + s.attached.Keys + s.keys.Keys + s.detaches.Keys
  }

  function DropClosed(s: State): State {
    s.(attached := map n | n in s.attached && IsOpen(s, s.attached[n]) :: s.attached[n])
  }

  function SweepAll(s: State, exist: set<Name>): State {
    var revoked := RevokeAll(s, Expired(s), TTL_EXPIRED);
    DropClosed(ForgetAll(revoked, Known(revoked) - exist))
  }

  predicate Verifies(s: State, name: Name, secret: nat) {
    name in s.grants && s.grants[name].expiresAt > s.now && s.grants[name].secret == secret
  }

  function Install(s: State, name: Name): State {
    s.(attached := s.attached[name := s.nextSocket],
       sockets := s.sockets[s.nextSocket := Socket(name, 0, None, false)],
       owed := if name in s.attached then s.owed[s.attached[name] := TAKEOVER] else s.owed,
       nextSocket := s.nextSocket + 1)
  }

  /** The socket task ends: close normally unless a code was chosen before, and leave
      the map, recording why, only if this is still the session's socket. */
  function Finish(s: State, k: SocketId): State {
    if k !in s.sockets || s.sockets[k].exited then s
    else
      var x := CloseOne(s.sockets[k], NORMAL);
      var r := s.(sockets := s.sockets[k := x.(exited := true)]);
      if IsCurrent(s, k) then
        r.(attached := s.attached - {x.session}, detaches := s.detaches[x.session := Detach(x.code.value, s.now)])
      else r
  }

  function Ping(s: State, k: SocketId): State {
    if !IsOpen(s, k) then s
    else
      var x := s.sockets[k].(missed := s.sockets[k].missed + 1);
      s.(sockets := s.sockets[k := if x.missed > MAX_MISSED_PINGS then x.(code := Some(LIVENESS_TIMEOUT)) else x])
  }

  function Hear(s: State, k: SocketId): State {
    if IsOpen(s, k) then s.(sockets := s.sockets[k := s.sockets[k].(missed := 0)]) else s
  }

  function Owe(s: State, code: nat): State {
    s.(attached := map[],
       owed := s.owed + map k | k in s.attached.Values :: code)
  }

  /** One action under the operator's ceiling on grant lifetimes. */
  function Step(s: State, a: Action, maxTtl: nat): State {
    match a
    case Mint(name, ttl) =>
      if ttl == 0 || ttl > maxTtl then s
      else s.(grants := s.grants[name := Grant(s.nextSecret, s.now + ttl)], nextSecret := s.nextSecret + 1)
    case Verify(name, secret) =>
      if !Verifies(s, name, secret) && name in Expired(s) then s.(grants := s.grants - {name}) else s
    case IssueKey(name, drawn) =>
      if drawn then s.(keys := s.keys[name := s.nextSecret], nextSecret := s.nextSecret + 1)
      else s.(keys := s.keys - {name})
    case Attach(name) => Install(s, name)
    case CloseEvicted(k) => if k in s.owed then CloseSocket(s.(owed := s.owed - {k}), k, s.owed[k]) else s
    case Revoke(name, code) => RevokeAll(s, {name}, code)
    case ForgetSession(name) => ForgetAll(s, {name})
    case Frame(k) => Hear(s, k)
    case PingTick(k) => Ping(s, k)
    case Exit(k) => Finish(s, k)
    case Sweep(exist) => SweepAll(s, exist)
    case CloseAll(code) => Owe(s, code)
    case Tick(elapsed) => s.(now := s.now + elapsed)
  }

  function RunFrom(s: State, actions: seq<Action>, maxTtl: nat): State
    decreases |actions|
  {
    if actions == [] then s
    else Step(RunFrom(s, actions[..|actions| - 1], maxTtl), actions[|actions| - 1], maxTtl)
  }

  // ----- one Mac per session ------------------------------------------------------------------

  ghost predicate SocketFine(s: State, k: SocketId)
    requires k in s.sockets
  {
    && k < s.nextSocket
    && (s.sockets[k].code.None? ==> IsCurrent(s, k) || k in s.owed)
    && (IsCurrent(s, k) ==> k !in s.owed && !s.sockets[k].exited)
    && (s.sockets[k].exited ==> s.sockets[k].code.Some?)
    && (s.sockets[k].code.None? ==> s.sockets[k].missed <= MAX_MISSED_PINGS)
  }

  ghost predicate Inv(s: State) {
    && (forall n :: n in s.attached ==> s.attached[n] in s.sockets && s.sockets[s.attached[n]].session == n)
    && (forall k :: k in s.owed ==> k in s.sockets)
    && (forall k :: k in s.sockets ==> SocketFine(s, k))
  }

  lemma RevokeKeepsInv(s: State, names: set<Name>, code: nat)
    requires Inv(s)
    ensures Inv(RevokeAll(s, names, code))
  {
  }

  lemma ForgetKeepsInv(s: State, names: set<Name>)
    requires Inv(s)
    ensures Inv(ForgetAll(s, names))
  {
    hide RevokeAll;
    RevokeKeepsInv(s, names, SESSION_ENDED);
    SameSocketsKeepInv(RevokeAll(s, names, SESSION_ENDED), ForgetAll(s, names));
  }

  lemma SweepKeepsInv(s: State, exist: set<Name>)
    requires Inv(s)
    ensures Inv(SweepAll(s, exist))
  {
    hide RevokeAll;
    var revoked := RevokeAll(s, Expired(s), TTL_EXPIRED);
    RevokeKeepsInv(s, Expired(s), TTL_EXPIRED);
    var forgotten := ForgetAll(revoked, Known(revoked) - exist);
    RevokeKeepsInv(revoked, Known(revoked) - exist, SESSION_ENDED);
    hide ForgetAll, Expired, Known;
  }

  lemma InstallKeepsInv(s: State, name: Name)
    requires Inv(s)
    ensures Inv(Install(s, name))
  {
    var r := Install(s, name);
    assert s.nextSocket !in s.sockets;
    forall k | k in r.sockets ensures SocketFine(r, k) {
      if k in s.sockets { assert SocketFine(s, k); }
    }
  }

  lemma FinishKeepsInv(s: State, k: SocketId)
    requires Inv(s)
    ensures Inv(Finish(s, k))
  {
    if k in s.sockets && !s.sockets[k].exited {
      var r := Finish(s, k);
      FinishUnmaps(s, k);
      FinishSpares(s, k);
      assert SocketFine(s, k);
      hide Finish, IsCurrent;
      forall j | j in r.sockets ensures SocketFine(r, j) {
        assert SocketFine(s, j);
        hide Inv;
      }
    }
  }

  lemma FinishUnmaps(s: State, k: SocketId)
    requires k in s.sockets && !s.sockets[k].exited
    ensures var r := Finish(s, k);
      && r.sockets.Keys == s.sockets.Keys && r.owed == s.owed && r.nextSocket == s.nextSocket
      && !IsCurrent(r, k) && r.sockets[k].code.Some? && r.sockets[k].session == s.sockets[k].session
      && (forall n :: n in r.attached ==> n in s.attached && r.attached[n] == s.attached[n])
  {
  }

  lemma FinishSpares(s: State, k: SocketId)
    requires k in s.sockets && !s.sockets[k].exited
    ensures forall j :: j != k ==> (IsCurrent(Finish(s, k), j) <==> IsCurrent(s, j))
    ensures forall j :: j != k && j in s.sockets ==> Finish(s, k).sockets[j] == s.sockets[j]
  {
  }

  lemma PingKeepsInv(s: State, k: SocketId)
    requires Inv(s)
    ensures Inv(Ping(s, k))
  {
    var r := Ping(s, k);
    forall j | j in r.sockets ensures SocketFine(r, j) {
      assert SocketFine(s, j);
    }
  }

  lemma OweKeepsInv(s: State, code: nat)
    requires Inv(s)
    ensures Inv(Owe(s, code))
  {
    var r := Owe(s, code);
    forall j | j in r.sockets ensures SocketFine(r, j) {
      assert SocketFine(s, j);
    }
  }

  lemma CloseEvictedKeepsInv(s: State, k: SocketId)
    requires Inv(s) && k in s.owed
    ensures Inv(CloseSocket(s.(owed := s.owed - {k}), k, s.owed[k]))
  {
    var r := CloseSocket(s.(owed := s.owed - {k}), k, s.owed[k]);
    forall j | j in r.sockets ensures SocketFine(r, j) {
      assert SocketFine(s, j);
    }
  }

  lemma StepKeepsInv(s: State, a: Action, maxTtl: nat)
    requires Inv(s)
    ensures Inv(Step(s, a, maxTtl))
  {
    hide RevokeAll, ForgetAll, SweepAll, Install, Finish, Ping, Hear, Owe, CloseSocket, Inv;
    match a
    case Revoke(name, code) => RevokeKeepsInv(s, {name}, code);
    case ForgetSession(name) => ForgetKeepsInv(s, {name});
    case Sweep(exist) => SweepKeepsInv(s, exist);
    case Attach(name) => InstallKeepsInv(s, name);
    case Exit(k) => FinishKeepsInv(s, k);
    case PingTick(k) => PingKeepsInv(s, k);
    case CloseAll(code) => OweKeepsInv(s, code);
    case CloseEvicted(k) => if k in s.owed { CloseEvictedKeepsInv(s, k); }
    case Frame(k) => FrameKeepsInv(s, k);
    case _ => SameSocketsKeepInv(s, Step(s, a, maxTtl));
  }

  lemma FrameKeepsInv(s: State, k: SocketId)
    requires Inv(s)
    ensures Inv(Hear(s, k))
  {
    var r := Hear(s, k);
    forall j | j in r.sockets ensures SocketFine(r, j) {
      assert SocketFine(s, j);
    }
  }

  lemma SameSocketsKeepInv(s: State, r: State)
    requires Inv(s) && r.sockets == s.sockets && r.attached == s.attached && r.owed == s.owed && r.nextSocket == s.nextSocket
    ensures Inv(r)
  {
    forall j | j in r.sockets ensures SocketFine(r, j) {
      assert SocketFine(s, j);
    }
  }

  lemma {:induction false} RunKeepsInv(s: State, actions: seq<Action>, maxTtl: nat)
    requires Inv(s)
    ensures Inv(RunFrom(s, actions, maxTtl))
    decreases |actions|
  {
    hide Inv, Step;
    if actions != [] {
      RunKeepsInv(s, actions[..|actions| - 1], maxTtl);
      StepKeepsInv(RunFrom(s, actions[..|actions| - 1], maxTtl), actions[|actions| - 1], maxTtl);
    }
  }

  /** In every history, two open sockets of one session that nobody has evicted are
      the same socket, and it is the mapped one. */
  lemma OneMacPerSession(actions: seq<Action>, maxTtl: nat, x: SocketId, y: SocketId)
    ensures var s := RunFrom(START, actions, maxTtl);
      IsOpen(s, x) && IsOpen(s, y) && s.sockets[x].session == s.sockets[y].session && x !in s.owed && y !in s.owed ==>
        x == y && IsCurrent(s, x)
  {
    RunKeepsInv(START, actions, maxTtl);
  }

  // ----- close codes --------------------------------------------------------------------------

  /** What every step keeps of a socket. */
  ghost predicate SocketKept(x: Socket, y: Socket) {
    y.session == x.session && (x.code.Some? ==> y.code == x.code) && (x.exited ==> y.exited)
  }

  lemma ClosedOne(sockets: map<SocketId, Socket>, attached: map<Name, SocketId>, names: set<Name>, code: nat, k: SocketId)
    requires k in sockets
    ensures var r := ClosedFor(sockets, attached, names, code);
      k in r && (r[k] == sockets[k] || r[k] == CloseOne(sockets[k], code))
  {
  }

  /** A revocation, a forgotten session or a sweep does nothing to a socket but close it. */
  lemma BulkCloses(s: State, a: Action, maxTtl: nat, k: SocketId)
    requires k in s.sockets && (a.Revoke? || a.ForgetSession? || a.Sweep?)
    ensures var r := Step(s, a, maxTtl);
      && k in r.sockets && SocketKept(s.sockets[k], r.sockets[k])
      && (r.sockets[k].code.None? ==> r.sockets[k] == s.sockets[k])
  {
    hide ClosedFor, Recorded, Known, Expired, Maps;
    if a.Sweep? {
      var revoked := RevokeAll(s, Expired(s), TTL_EXPIRED);
      ClosedOne(s.sockets, s.attached, Expired(s), TTL_EXPIRED, k);
      ClosedOne(revoked.sockets, revoked.attached, Known(revoked) - a.exist, SESSION_ENDED, k);
    } else {
      ClosedOne(s.sockets, s.attached, {a.name}, if a.Revoke? then a.code else SESSION_ENDED, k);
    }
  }

  lemma BulkOpensNone(s: State, a: Action, maxTtl: nat)
    requires a.Revoke? || a.ForgetSession? || a.Sweep?
    ensures Step(s, a, maxTtl).sockets.Keys == s.sockets.Keys
  {
  }

  /** What a step does to one socket: besides a frame or a ping tick it only closes. */
  ghost predicate SocketGoesOn(s: State, r: State, k: SocketId, heard: bool, pinged: bool) {
    && (k in s.sockets ==> k in r.sockets && SocketKept(s.sockets[k], r.sockets[k]))
    && (IsOpen(r, k) ==>
          && (k in s.sockets ==> IsOpen(s, k))
          && r.sockets[k].missed ==
               if k !in s.sockets || heard then 0 else s.sockets[k].missed + if pinged then 1 else 0)
  }

  lemma InstallGoesOn(s: State, name: Name, k: SocketId)
    requires k in s.sockets ==> k < s.nextSocket
    ensures SocketGoesOn(s, Install(s, name), k, false, false)
  {
  }

  lemma FinishGoesOn(s: State, x: SocketId, k: SocketId)
    ensures SocketGoesOn(s, Finish(s, x), k, false, false)
  {
  }

  lemma PingGoesOn(s: State, x: SocketId, k: SocketId)
    ensures SocketGoesOn(s, Ping(s, x), k, false, x == k)
  {
  }

  lemma HearGoesOn(s: State, x: SocketId, k: SocketId)
    ensures SocketGoesOn(s, Hear(s, x), k, x == k, false)
  {
  }

  lemma SameGoesOn(s: State, r: State, k: SocketId, heard: bool, pinged: bool)
    requires r.sockets == s.sockets && !heard && !pinged
    ensures SocketGoesOn(s, r, k, heard, pinged)
  {
  }

  lemma BulkGoesOn(s: State, a: Action, maxTtl: nat, k: SocketId)
    requires a.Revoke? || a.ForgetSession? || a.Sweep?
    ensures SocketGoesOn(s, Step(s, a, maxTtl), k, false, false)
  {
    if k in s.sockets { BulkCloses(s, a, maxTtl, k); } else { BulkOpensNone(s, a, maxTtl); }
    hide Step;
  }

  lemma OneStep(s: State, a: Action, maxTtl: nat, k: SocketId)
    requires Inv(s)
    ensures SocketGoesOn(s, Step(s, a, maxTtl), k, a == Frame(k), a == PingTick(k))
  {
    if k in s.sockets { assert SocketFine(s, k); }
    hide Inv, SocketFine, Install, Finish, Ping, Hear, Owe, CloseSocket, RevokeAll, ForgetAll, SweepAll, SocketGoesOn, Verifies;
    match a
    case Attach(name) => InstallGoesOn(s, name, k);
    case Exit(x) => FinishGoesOn(s, x, k);
    case PingTick(x) => PingGoesOn(s, x, k);
    case Frame(x) => HearGoesOn(s, x, k);
    case CloseEvicted(x) =>
      if x in s.owed {
        ToldGoesOn(s, s.(owed := s.owed - {x}), x, s.owed[x], k);
      } else {
        SameGoesOn(s, s, k, false, false);
      }
    case Revoke(_, _) => BulkGoesOn(s, a, maxTtl, k);
    case ForgetSession(_) => BulkGoesOn(s, a, maxTtl, k);
    case Sweep(_) => BulkGoesOn(s, a, maxTtl, k);
    case CloseAll(code) => OweTouchesNone(s, code); SameGoesOn(s, Owe(s, code), k, false, false);
    case _ => SameGoesOn(s, Step(s, a, maxTtl), k, false, false);
  }

  lemma OweTouchesNone(s: State, code: nat)
    ensures Owe(s, code).sockets == s.sockets
  {
  }

  lemma ToldGoesOn(s: State, r: State, x: SocketId, code: nat, k: SocketId)
    requires r.sockets == s.sockets
    ensures SocketGoesOn(s, CloseSocket(r, x, code), k, false, false)
  {
  }

  lemma StepKeepsCodes(s: State, a: Action, maxTtl: nat, k: SocketId)
    requires Inv(s) && k in s.sockets
    ensures k in Step(s, a, maxTtl).sockets && SocketKept(s.sockets[k], Step(s, a, maxTtl).sockets[k])
  {
    OneStep(s, a, maxTtl, k);
    hide Step, SocketKept, Inv;
  }

  /** The first close code chosen for a socket is the one it keeps. */
  lemma {:induction false} FirstCodeStands(s: State, later: seq<Action>, maxTtl: nat, k: SocketId)
    requires Inv(s) && k in s.sockets && s.sockets[k].code.Some?
    ensures var r := RunFrom(s, later, maxTtl); k in r.sockets && r.sockets[k].code == s.sockets[k].code
    decreases |later|
  {
    hide Inv, Step;
    if later != [] {
      var most := later[..|later| - 1];
      FirstCodeStands(s, most, maxTtl, k);
      RunKeepsInv(s, most, maxTtl);
      StepKeepsCodes(RunFrom(s, most, maxTtl), later[|later| - 1], maxTtl, k);
    }
  }

  /** An evicted incumbent is told of the takeover, unless it had its code already;
      the newcomer is then the session's only open socket that is not evicted. */
  lemma EvictedIsTold(s: State, name: Name, maxTtl: nat)
    requires Inv(s) && name in s.attached
    ensures var incumbent, r := s.attached[name], Step(s, Attach(name), maxTtl);
      && incumbent in r.owed && r.owed[incumbent] == TAKEOVER
      && var told := Step(r, CloseEvicted(incumbent), maxTtl);
         && incumbent in told.sockets && incumbent !in told.owed
         && told.sockets[incumbent].code ==
              (if s.sockets[incumbent].code.Some? then s.sockets[incumbent].code else Some(TAKEOVER))
         && told.attached == s.attached[name := s.nextSocket] && IsOpen(told, s.nextSocket)
  {
    assert SocketFine(s, s.attached[name]);
  }

  // ----- the end of a socket task ---------------------------------------------------------------

  /** A finishing task removes and records something exactly when its socket is still
      the session's; it then records the code the socket was closed with. */
  lemma ExitTouchesOnlyItsOwn(s: State, k: SocketId, maxTtl: nat)
    requires Inv(s) && k in s.sockets && !s.sockets[k].exited
    ensures var r := Step(s, Exit(k), maxTtl);
      var name := s.sockets[k].session;
      && (r.attached != s.attached <==> IsCurrent(s, k))
      && (!IsCurrent(s, k) ==> r.detaches == s.detaches)
      && (IsCurrent(s, k) ==>
            && r.attached == s.attached - {name} && name !in r.attached
            && r.detaches == s.detaches[name := Detach(r.sockets[k].code.value, s.now)])
      && r.sockets[k].code == (if s.sockets[k].code.Some? then s.sockets[k].code else Some(NORMAL))
      && r.grants == s.grants && r.keys == s.keys
  {
    hide Inv, RevokeAll, ForgetAll, SweepAll, Install, Ping, Hear, Owe;
  }

  /** A socket displaced once is never mapped again, so whenever its task ends, however
      many steps later, its cleanup leaves every mapping and every record alone. */
  lemma {:induction false} SupersededExitIsSilent(s: State, later: seq<Action>, maxTtl: nat, k: SocketId)
    requires Inv(s) && k in s.sockets && !IsCurrent(s, k)
    ensures var r := RunFrom(s, later, maxTtl);
      && k in r.sockets && !IsCurrent(r, k)
      && Step(r, Exit(k), maxTtl).attached == r.attached && Step(r, Exit(k), maxTtl).detaches == r.detaches
    decreases |later|
  {
    ExitWhenSuperseded(RunFrom(s, later, maxTtl), maxTtl, k);
    hide Inv, Step, IsCurrent;
    if later != [] {
      var most := later[..|later| - 1];
      SupersededExitIsSilent(s, most, maxTtl, k);
      RunKeepsInv(s, most, maxTtl);
      StepKeepsCodes(RunFrom(s, most, maxTtl), later[|later| - 1], maxTtl, k);
      NeverMappedAgain(RunFrom(s, most, maxTtl), later[|later| - 1], maxTtl, k);
    }
  }

  lemma ExitWhenSuperseded(r: State, maxTtl: nat, k: SocketId)
    ensures !IsCurrent(r, k) ==>
      Step(r, Exit(k), maxTtl).attached == r.attached && Step(r, Exit(k), maxTtl).detaches == r.detaches
  {
  }

  lemma NeverMappedAgain(s: State, a: Action, maxTtl: nat, k: SocketId)
    requires Inv(s) && k in s.sockets && !IsCurrent(s, k)
    ensures !IsCurrent(Step(s, a, maxTtl), k)
  {
    StepKeepsCodes(s, a, maxTtl, k);
    assert SocketFine(s, k);
    StepAttached(s, a, maxTtl);
    hide Inv, SocketFine, Step;
  }

  /** Only an attach adds to the map, and only its own new socket. */
  lemma StepAttached(s: State, a: Action, maxTtl: nat)
    ensures forall n :: n in Step(s, a, maxTtl).attached ==>
      || (n in s.attached && Step(s, a, maxTtl).attached[n] == s.attached[n])
      || (a == Attach(n) && Step(s, a, maxTtl).attached[n] == s.nextSocket)
  {
    hide ClosedFor, Recorded, Known, Expired, CloseOne;
  }

  // ----- sweeping -----------------------------------------------------------------------------

  /** After a sweep no map mentions an expired grant, a session that no longer exists,
      or a closed socket. */
  lemma SweepLeavesNothingStale(s: State, exist: set<Name>)
    ensures var r := SweepAll(s, exist);
      && Expired(r) == {}
      && Known(r) <= exist
      && forall n :: n in r.attached ==> IsOpen(r, r.attached[n])
  {
    var revoked := RevokeAll(s, Expired(s), TTL_EXPIRED);
    RevokedExpired(s);
    hide RevokeAll;
    var gone := Known(revoked) - exist;
    ForgetEffect(revoked, gone);
  }

  lemma RevokedExpired(s: State)
    ensures Expired(RevokeAll(s, Expired(s), TTL_EXPIRED)) == {}
  {
  }

  lemma ForgetEffect(s: State, names: set<Name>)
    ensures var r := ForgetAll(s, names);
      && r.grants == s.grants - names && r.keys == s.keys - names && r.attached == s.attached - names
      && r.detaches == s.detaches - names && r.now == s.now
  {
  }

  /** A session that exists, whose grant has not run out and whose socket is open,
      goes through a sweep untouched. */
  lemma SweepKeepsTheRest(s: State, exist: set<Name>, n: Name)
    requires Inv(s) && n in exist && n !in Expired(s)
    requires n in s.attached ==> IsOpen(s, s.attached[n])
    ensures var r := SweepAll(s, exist);
      && (n in r.grants <==> n in s.grants) && (n in s.grants ==> r.grants[n] == s.grants[n])
      && (n in r.keys <==> n in s.keys) && (n in s.keys ==> r.keys[n] == s.keys[n])
      && (n in r.detaches <==> n in s.detaches) && (n in s.detaches ==> r.detaches[n] == s.detaches[n])
      && (n in r.attached <==> n in s.attached)
      && (n in s.attached ==> r.attached[n] == s.attached[n] && r.sockets[s.attached[n]] == s.sockets[s.attached[n]])
  {
    RevokeSpares(s, Expired(s), TTL_EXPIRED, n);
    var revoked := RevokeAll(s, Expired(s), TTL_EXPIRED);
    RevokeKeepsInv(s, Expired(s), TTL_EXPIRED);
    RevokeSpares(revoked, Known(revoked) - exist, SESSION_ENDED, n);
    hide RevokeAll, Known, Inv;
  }

  /** A sweep tells whom it takes away why: a Mac whose grant ran out, and otherwise one
      whose session is gone; only the first is put on record, and only while the session
      exists. */
  lemma SweepTells(s: State, exist: set<Name>, n: Name)
    requires Inv(s) && n in s.attached && IsOpen(s, s.attached[n]) && (n in Expired(s) || n !in exist)
    ensures var r, k := SweepAll(s, exist), s.attached[n];
      && n !in r.attached && k in r.sockets
      && r.sockets[k].code == Some(if n in Expired(s) then TTL_EXPIRED else SESSION_ENDED)
      && (n !in exist ==> n !in r.detaches)
      && (n in exist ==> n in r.detaches && r.detaches[n] == Detach(TTL_EXPIRED, s.now))
  {
    var revoked := RevokeAll(s, Expired(s), TTL_EXPIRED);
    hide Expired, Inv;
    SweptFirst(s, Expired(s), n);
    SweptSecond(revoked, Known(revoked) - exist, n, s.attached[n]);
    hide RevokeAll, Known;
  }

  lemma SweptFirst(s: State, expired: set<Name>, n: Name)
    requires Inv(s) && n in s.attached && IsOpen(s, s.attached[n])
    ensures var r, k := RevokeAll(s, expired, TTL_EXPIRED), s.attached[n];
      && k in r.sockets && r.sockets[k].session == n
      && (n in expired ==>
            n !in r.attached && r.sockets[k].code == Some(TTL_EXPIRED) && n in r.detaches && r.detaches[n] == Detach(TTL_EXPIRED, s.now))
      && (n !in expired ==> n in r.attached && r.attached[n] == k && r.sockets[k].code.None?)
  {
  }

  lemma SweptSecond(s: State, gone: set<Name>, n: Name, k: SocketId)
    requires k in s.sockets && s.sockets[k].session == n
    requires n in s.attached ==> s.attached[n] == k && s.sockets[k].code.None?
    ensures var r := ForgetAll(s, gone);
      && k in r.sockets
      && (n in gone ==> n !in r.attached && n !in r.detaches)
      && (n !in gone ==> (n in r.attached <==> n in s.attached) && (n in s.detaches ==> n in r.detaches && r.detaches[n] == s.detaches[n]))
      && r.sockets[k].code == if n in gone && n in s.attached then Some(SESSION_ENDED) else s.sockets[k].code
  {
  }

  /** Closing the hub empties the map, and every Mac in it is told the reason given, unless
      it had its code already. */
  lemma EveryoneIsTold(s: State, code: nat, n: Name, maxTtl: nat)
    requires Inv(s) && n in s.attached
    ensures var r, k := Step(s, CloseAll(code), maxTtl), s.attached[n];
      && r.attached == map[] && k in r.owed && r.owed[k] == code
      && var told := Step(r, CloseEvicted(k), maxTtl);
         k in told.sockets && told.sockets[k].code == if s.sockets[k].code.Some? then s.sockets[k].code else Some(code)
  {
    hide SocketFine;
    assert s.attached[n] in s.attached.Values;
  }

  lemma RevokeSpares(s: State, names: set<Name>, code: nat, n: Name)
    requires Inv(s) && n !in names
    ensures var r := RevokeAll(s, names, code);
      && (n in r.grants <==> n in s.grants) && (n in s.grants ==> r.grants[n] == s.grants[n])
      && r.keys == s.keys
      && (n in r.detaches <==> n in s.detaches) && (n in s.detaches ==> r.detaches[n] == s.detaches[n])
      && (n in r.attached <==> n in s.attached)
      && (n in s.attached ==> r.attached[n] == s.attached[n] && r.sockets[s.attached[n]] == s.sockets[s.attached[n]])
  {
  }

  // ----- secrets ------------------------------------------------------------------------------

  ghost predicate SecretsFresh(s: State, r: State, name: Name) {
    && s.nextSecret <= r.nextSecret
    && (name in r.grants ==>
          || (name in s.grants && r.grants[name] == s.grants[name])
          || (r.grants[name].secret == s.nextSecret < r.nextSecret))
  }

  lemma StepSecrets(s: State, a: Action, maxTtl: nat, name: Name)
    ensures SecretsFresh(s, Step(s, a, maxTtl), name)
  {
    hide ClosedFor, Recorded, Known, Install, Finish, Ping, Hear, Owe, CloseSocket;
    match a
    case Mint(_, _) =>
    case Verify(_, _) =>
    case Revoke(_, _) =>
    case ForgetSession(_) =>
    case Sweep(_) =>
    case _ => OtherStepsKeepSecrets(s, a, maxTtl); hide Step;
  }

  lemma OtherStepsKeepSecrets(s: State, a: Action, maxTtl: nat)
    requires !a.Mint? && !a.Verify? && !a.Revoke? && !a.ForgetSession? && !a.Sweep?
    ensures Step(s, a, maxTtl).grants == s.grants && s.nextSecret <= Step(s, a, maxTtl).nextSecret
  {
    hide ClosedFor, Recorded, Known, Expired, CloseOne, IsCurrent, IsOpen, Maps, Verifies, RevokeAll, ForgetAll, SweepAll;
    match a
    case Attach(_) => hide Finish, Ping, Hear, Owe, CloseSocket;
    case Exit(_) => hide Install, Ping, Hear, Owe, CloseSocket;
    case PingTick(_) => hide Install, Finish, Hear, Owe, CloseSocket;
    case CloseEvicted(_) => hide Install, Finish, Ping, Hear, Owe;
    case _ => hide Install, Finish, Ping, CloseSocket;
  }

  /** A rotated or revoked secret never verifies again, in any later state. */
  lemma {:induction false} OldSecretsNeverVerify(s: State, later: seq<Action>, maxTtl: nat, name: Name, secret: nat)
    requires secret < s.nextSecret && (name in s.grants ==> s.grants[name].secret != secret)
    ensures var r := RunFrom(s, later, maxTtl);
      && secret < r.nextSecret && (name in r.grants ==> r.grants[name].secret != secret)
      && !Verifies(r, name, secret)
    decreases |later|
  {
    hide Step;
    if later != [] {
      var most := later[..|later| - 1];
      OldSecretsNeverVerify(s, most, maxTtl, name, secret);
      StepSecrets(RunFrom(s, most, maxTtl), later[|later| - 1], maxTtl, name);
    }
  }

  /** Rotation, revocation and the end of the session each retire every secret there
      was; a rotation within the lifetime bounds leaves the newest one working. */
  lemma RotationRetires(s: State, a: Action, later: seq<Action>, maxTtl: nat, name: Name, secret: nat)
    requires secret < s.nextSecret
    requires || a == ForgetSession(name) || (a.Revoke? && a.name == name)
             || (a.Mint? && a.name == name && 0 < a.ttl <= maxTtl)
    ensures !Verifies(RunFrom(Step(s, a, maxTtl), later, maxTtl), name, secret)
    ensures a.Mint? ==> Verifies(Step(s, a, maxTtl), name, s.nextSecret)
  {
    OldSecretsNeverVerify(Step(s, a, maxTtl), later, maxTtl, name, secret);
  }

  /** Nothing that replaces or drops the grant of `name` before its time. */
  predicate SparesGrant(a: Action, name: Name, maxTtl: nat) {
    && (a.Mint? && a.name == name ==> a.ttl == 0 || a.ttl > maxTtl)
    && (a.Revoke? || a.ForgetSession? ==> a.name != name)
    && (a.Sweep? ==> name in a.exist)
  }

  /** The grant of `name` is the one minted until it expires, and none after that. */
  predicate HoldsGrant(s: State, name: Name, grant: Grant) {
    if s.now < grant.expiresAt then name in s.grants && s.grants[name] == grant
    else name in s.grants ==> s.grants[name] == grant
  }

  lemma StepHoldsGrant(s: State, a: Action, maxTtl: nat, name: Name, grant: Grant)
    requires HoldsGrant(s, name, grant) && SparesGrant(a, name, maxTtl)
    ensures HoldsGrant(Step(s, a, maxTtl), name, grant)
  {
    hide ClosedFor, Recorded, Known, DropClosed, Install, Finish, Ping, Hear, CloseSocket;
    match a
    case Sweep(exist) => SweepHoldsGrant(s, exist, name, grant);
    case Attach(n) => InstallKeepsGrants(s, n);
    case Exit(k) => FinishKeepsGrants(s, k);
    case Frame(k) => HearKeepsGrants(s, k);
    case PingTick(k) => HearKeepsGrants(s, k);
    case CloseEvicted(k) => if k in s.owed { CloseKeepsGrants(s.(owed := s.owed - {k}), k, s.owed[k]); }
    case _ =>
  }

  lemma SweepHoldsGrant(s: State, exist: set<Name>, name: Name, grant: Grant)
    requires HoldsGrant(s, name, grant) && name in exist
    ensures HoldsGrant(SweepAll(s, exist), name, grant)
  {
    hide ClosedFor, Recorded, Known;
  }

  lemma InstallKeepsGrants(s: State, name: Name)
    ensures Install(s, name).grants == s.grants && Install(s, name).now == s.now
  {
  }

  lemma FinishKeepsGrants(s: State, k: SocketId)
    ensures Finish(s, k).grants == s.grants && Finish(s, k).now == s.now
  {
  }

  lemma HearKeepsGrants(s: State, k: SocketId)
    ensures Hear(s, k).grants == s.grants && Hear(s, k).now == s.now
    ensures Ping(s, k).grants == s.grants && Ping(s, k).now == s.now
  {
  }

  lemma CloseKeepsGrants(s: State, k: SocketId, code: nat)
    ensures CloseSocket(s, k, code).grants == s.grants && CloseSocket(s, k, code).now == s.now
  {
  }

  lemma {:induction false} RunHoldsGrant(s: State, later: seq<Action>, maxTtl: nat, name: Name, grant: Grant)
    requires HoldsGrant(s, name, grant)
    requires forall i :: 0 <= i < |later| ==> SparesGrant(later[i], name, maxTtl)
    ensures HoldsGrant(RunFrom(s, later, maxTtl), name, grant)
    decreases |later|
  {
    hide Step, HoldsGrant, SparesGrant;
    if later != [] {
      var most := later[..|later| - 1];
      assert forall i :: 0 <= i < |most| ==> most[i] == later[i];
      RunHoldsGrant(s, most, maxTtl, name, grant);
      StepHoldsGrant(RunFrom(s, most, maxTtl), later[|later| - 1], maxTtl, name, grant);
    }
  }

  /** A secret lives for exactly the lifetime it was minted with: over any later run that
      does not rotate, revoke or forget it and sweeps only while its session exists, it
      verifies as long as that time has not passed, and no longer. */
  lemma SecretLivesExactly(s: State, name: Name, ttl: nat, later: seq<Action>, maxTtl: nat)
    requires 0 < ttl <= maxTtl
    requires forall i :: 0 <= i < |later| ==> SparesGrant(later[i], name, maxTtl)
    ensures var r := RunFrom(Step(s, Mint(name, ttl), maxTtl), later, maxTtl);
      Verifies(r, name, s.nextSecret) <==> r.now < s.now + ttl
  {
    var minted := Step(s, Mint(name, ttl), maxTtl);
    RunHoldsGrant(minted, later, maxTtl, name, Grant(s.nextSecret, s.now + ttl));
    hide RunFrom, SparesGrant;
  }

  // ----- liveness -----------------------------------------------------------------------------

  /** Ping intervals of an open socket since the last frame it received. */
  function Silent(actions: seq<Action>, maxTtl: nat, k: SocketId): nat {
    if actions == [] then 0
    else
      var before, a := actions[..|actions| - 1], actions[|actions| - 1];
      if a == Frame(k) then 0
      else if a == PingTick(k) && IsOpen(RunFrom(START, before, maxTtl), k) then Silent(before, maxTtl, k) + 1
      else Silent(before, maxTtl, k)
  }

  /** What a step does to a socket's count of silent intervals. */
  lemma StepMissed(s: State, a: Action, maxTtl: nat, k: SocketId)
    requires Inv(s) && IsOpen(Step(s, a, maxTtl), k)
    ensures Step(s, a, maxTtl).sockets[k].missed ==
      if k !in s.sockets || a == Frame(k) then 0
      else s.sockets[k].missed + if a == PingTick(k) then 1 else 0
    ensures k in s.sockets ==> IsOpen(s, k)
  {
    OneStep(s, a, maxTtl, k);
    hide Step, Inv, SocketKept;
  }

  lemma {:induction false} MissedCountsSilence(actions: seq<Action>, maxTtl: nat, k: SocketId)
    ensures var s := RunFrom(START, actions, maxTtl);
      && (k in s.sockets && IsOpen(s, k) ==> s.sockets[k].missed == Silent(actions, maxTtl, k))
      && (k !in s.sockets ==> Silent(actions, maxTtl, k) == 0)
    decreases |actions|
  {
    hide Step, Inv;
    if actions != [] {
      var before, a := actions[..|actions| - 1], actions[|actions| - 1];
      MissedCountsSilence(before, maxTtl, k);
      InvAtStart();
      RunKeepsInv(START, before, maxTtl);
      var s := RunFrom(START, before, maxTtl);
      if k in s.sockets { StepKeepsCodes(s, a, maxTtl, k); }
      if IsOpen(Step(s, a, maxTtl), k) { StepMissed(s, a, maxTtl, k); }
    }
  }

  lemma InvAtStart()
    ensures Inv(START)
  {
  }

  /** A ping tick closes a socket for silence exactly at the fourth interval in a row
      without a frame. */
  lemma SilenceClosesExactly(actions: seq<Action>, maxTtl: nat, k: SocketId)
    requires IsOpen(RunFrom(START, actions, maxTtl), k)
    ensures var r := Step(RunFrom(START, actions, maxTtl), PingTick(k), maxTtl);
      && k in r.sockets
      && (r.sockets[k].code == Some(LIVENESS_TIMEOUT) <==> Silent(actions, maxTtl, k) == MAX_MISSED_PINGS)
      && (r.sockets[k].code.Some? ==> r.sockets[k].code == Some(LIVENESS_TIMEOUT))
  {
    MissedCountsSilence(actions, maxTtl, k);
    RunKeepsInv(START, actions, maxTtl);
    assert SocketFine(RunFrom(START, actions, maxTtl), k);
  }

  // ----- the object ---------------------------------------------------------------------------

  lemma RevokeNone(s: State, code: nat)
    ensures RevokeAll(s, {}, code) == s
  {
    var r := RevokeAll(s, {}, code);
    assert r.grants == s.grants && r.attached == s.attached && r.sockets == s.sockets && r.detaches == s.detaches;
  }

  lemma ClosedSplit(
    sockets: map<SocketId, Socket>, attached: map<Name, SocketId>, n: Name, names: set<Name>, code: nat)
    requires n in names
    ensures ClosedFor(ClosedFor(sockets, attached, {n}, code), attached - {n}, names - {n}, code)
         == ClosedFor(sockets, attached, names, code)
  {
  }

  lemma RecordedSplit(detaches: map<Name, Detach>, n: Name, names: set<Name>, mapped: set<Name>, detach: Detach)
    requires n in names
    ensures Recorded(Recorded(detaches, {n} * mapped, detach), (names - {n}) * (mapped - {n}), detach)
         == Recorded(detaches, names * mapped, detach)
  {
  }

  /** Revoking names one after another is revoking them together. */
  lemma RevokeSplit(s: State, n: Name, names: set<Name>, code: nat)
    requires n in names
    ensures RevokeAll(RevokeAll(s, {n}, code), names - {n}, code) == RevokeAll(s, names, code)
  {
    hide ClosedFor, Recorded;
    ClosedSplit(s.sockets, s.attached, n, names, code);
    var mapped := s.grants.Keys + s.attached.Keys;
    RecordedSplit(s.detaches, n, names, mapped, Detach(code, s.now));
    assert (s.grants - {n}).Keys + (s.attached - {n}).Keys == mapped - {n};
    assert s.grants - {n} - (names - {n}) == s.grants - names;
    assert s.attached - {n} - (names - {n}) == s.attached - names;
  }

  lemma ForgetNone(s: State)
    ensures ForgetAll(s, {}) == s
  {
    RevokeNone(s, SESSION_ENDED);
    assert s.keys - {} == s.keys && s.detaches - {} == s.detaches;
  }

  lemma ForgetSplit(s: State, n: Name, names: set<Name>)
    requires n in names
    ensures ForgetAll(ForgetAll(s, {n}), names - {n}) == ForgetAll(s, names)
  {
    hide ClosedFor;
    var rest := names - {n};
    ClosedSplit(s.sockets, s.attached, n, names, SESSION_ENDED);
    assert s.keys - {n} - rest == s.keys - names;
    assert s.grants - {n} - rest == s.grants - names;
    assert s.attached - {n} - rest == s.attached - names;
    ForgottenDetaches(s, {n});
    ForgottenDetaches(ForgetAll(s, {n}), rest);
    ForgottenDetaches(s, names);
    hide Recorded;
    assert s.detaches - {n} - rest == s.detaches - names;
  }

  lemma ForgottenDetaches(s: State, names: set<Name>)
    ensures ForgetAll(s, names).detaches == s.detaches - names
  {
  }

  lemma RevokeOne(s: State, name: Name, code: nat)
    requires Inv(s)
    ensures var r := RevokeAll(s, {name}, code);
      && (name in s.attached ==> s.attached[name] in s.sockets)
      && r == s.(
           grants := s.grants - {name}, attached := s.attached - {name},
           sockets := if name in s.attached then CloseSocket(s, s.attached[name], code).sockets else s.sockets,
           detaches := if name in s.grants || name in s.attached
                       then s.detaches[name := Detach(code, s.now)] else s.detaches)
  {
    var closed := if name in s.attached then CloseSocket(s, s.attached[name], code).sockets else s.sockets;
    assert ClosedFor(s.sockets, s.attached, {name}, code) == closed;
    hide Inv, ClosedFor;
    assert Recorded(s.detaches, {name} * (s.grants.Keys + s.attached.Keys), Detach(code, s.now))
        == if name in s.grants || name in s.attached then s.detaches[name := Detach(code, s.now)] else s.detaches;
  }

  /** The order inside forgetting: the key first, then the revocation, then the record. */
  lemma ForgetOne(s: State, name: Name)
    ensures var revoked := RevokeAll(s.(keys := s.keys - {name}), {name}, SESSION_ENDED);
      ForgetAll(s, {name}) == revoked.(detaches := revoked.detaches - {name})
  {
  }

  class ToolsHub {
    var grants: map<Name, Grant>
    var keys: map<Name, nat>
    var attached: map<Name, SocketId>
    var detaches: map<Name, Detach>
    var sockets: map<SocketId, Socket>
    var nextSocket: nat
    var nextSecret: nat
    ghost var owed: map<SocketId, nat>
    const maxTtl: nat

    ghost function View(now: nat): State
      reads this
    {
      State(grants, keys, attached, detaches, sockets, owed, nextSocket, nextSecret, now)
    }

    constructor (maxTtl: nat)
      ensures View(0) == START && this.maxTtl == maxTtl
    {
      grants, keys, attached, detaches, sockets, owed := map[], map[], map[], map[], map[], map[];
      nextSocket, nextSecret, this.maxTtl := 0, 0, maxTtl;
    }

    /** Refuse rather than cap a lifetime the operator does not allow. */
    method MintWithTtl(name: Name, ttl: nat, now: nat) returns (secret: Option<nat>)
      modifies this
      ensures View(now) == Step(old(View(now)), Mint(name, ttl), maxTtl)
      ensures secret.Some? <==> 0 < ttl <= maxTtl
      ensures secret.Some? ==> Verifies(View(now), name, secret.value)
    {
      if ttl == 0 || ttl > maxTtl {
        return None;
      }
      secret := Some(nextSecret);
      grants := grants[name := Grant(nextSecret, now + ttl)];
      nextSecret := nextSecret + 1;
    }

    method VerifySecret(name: Name, secret: nat, now: nat) returns (ok: bool)
      modifies this
      ensures View(now) == Step(old(View(now)), Verify(name, secret), maxTtl)
      ensures ok <==> Verifies(old(View(now)), name, secret)
    {
      if name in grants && grants[name].expiresAt > now && grants[name].secret == secret {
        return true;
      }
      if name in grants && grants[name].expiresAt <= now {
        grants := grants - {name};
      }
      return false;
    }

    /** The previous key stops working, also when no new one could be drawn. */
    method IssueLoopbackKey(name: Name, drawn: bool, ghost now: nat) returns (key: Option<nat>)
      modifies this
      ensures View(now) == Step(old(View(now)), IssueKey(name, drawn), maxTtl)
      ensures key.Some? <==> drawn
      ensures key.Some? ==> name in keys && keys[name] == key.value && forall n :: n in old(keys) && n != name ==> n in keys && keys[n] == old(keys)[n]
      ensures key.None? ==> name !in keys
    {
      if !drawn {
        keys := keys - {name};
        return None;
      }
      key := Some(nextSecret);
      keys := keys[name := nextSecret];
      nextSecret := nextSecret + 1;
    }

    /** Map a verified socket as the session's Mac; hand back the one it displaces. */
    method InstallSocket(name: Name, ghost now: nat) returns (socket: SocketId, evicted: Option<SocketId>)
      modifies this
      ensures View(now) == Step(old(View(now)), Attach(name), maxTtl)
      ensures attached[name] == socket
      ensures evicted == if name in old(attached) then Some(old(attached)[name]) else None
    {
      socket := nextSocket;
      evicted := if name in attached then Some(attached[name]) else None;
      if name in attached {
        owed := owed[attached[name] := TAKEOVER];
      }
      attached := attached[name := socket];
      sockets := sockets[socket := Socket(name, 0, None, false)];
      nextSocket := nextSocket + 1;
    }

    method TellEvicted(socket: SocketId, ghost now: nat)
      requires socket in sockets && socket in owed && owed[socket] == TAKEOVER
      modifies this
      ensures View(now) == Step(old(View(now)), CloseEvicted(socket), maxTtl)
    {
      CloseIfOpen(socket, TAKEOVER, now);
      owed := owed - {socket};
    }

    /** The first code wins. */
    method CloseIfOpen(socket: SocketId, code: nat, ghost now: nat)
      requires socket in sockets
      modifies this`sockets
      ensures View(now) == CloseSocket(old(View(now)), socket, code)
    {
      if sockets[socket].code.None? {
        sockets := sockets[socket := sockets[socket].(code := Some(code))];
      }
      assert sockets == old(sockets)[socket := CloseOne(old(sockets)[socket], code)];
    }

    /** Drop the grant and close any live attach; report whether there was anything. */
    method RevokeSession(name: Name, code: nat, now: nat) returns (revoked: bool)
      requires Inv(View(now))
      modifies this
      ensures Inv(View(now)) && View(now) == RevokeAll(old(View(now)), {name}, code)
      ensures revoked <==> name in old(grants) || name in old(attached)
    {
      ghost var s := View(now);
      RevokeKeepsInv(s, {name}, code);
      RevokeOne(s, name, code);
      hide Inv, RevokeAll;
      var socket := if name in attached then Some(attached[name]) else None;
      revoked := name in grants || name in attached;
      grants := grants - {name};
      attached := attached - {name};
      if socket.Some? {
        CloseIfOpen(socket.value, code, now);
      }
      if revoked {
        detaches := detaches[name := Detach(code, now)];
      }
    }

    method Forget(name: Name, now: nat)
      requires Inv(View(now))
      modifies this
      ensures Inv(View(now)) && View(now) == ForgetAll(old(View(now)), {name})
    {
      ghost var s := View(now);
      hide RevokeAll;
      ForgetKeepsInv(s, {name});
      ForgetOne(s, name);
      SameSocketsKeepInv(s, s.(keys := s.keys - {name}));
      hide ForgetAll, Inv;
      keys := keys - {name};
      var _ := RevokeSession(name, SESSION_ENDED, now);
      detaches := detaches - {name};
    }

    /** The socket task's last act. */
    method FinishSocket(socket: SocketId, now: nat)
      requires socket in sockets && !sockets[socket].exited
      modifies this
      ensures View(now) == Step(old(View(now)), Exit(socket), maxTtl)
    {
      CloseIfOpen(socket, NORMAL, now);
      var x := sockets[socket];
      sockets := sockets[socket := x.(exited := true)];
      if x.session in attached && attached[x.session] == socket {
        attached := attached - {x.session};
        detaches := detaches[x.session := Detach(x.code.value, now)];
      }
    }

    /** One ping interval without a frame; true when the socket is to stop. */
    method MissPing(socket: SocketId, ghost now: nat) returns (stop: bool)
      requires socket in sockets
      modifies this
      ensures View(now) == Step(old(View(now)), PingTick(socket), maxTtl)
      ensures stop <==> sockets[socket].code.Some?
    {
      var x := sockets[socket];
      if x.code.Some? {
        return true;
      }
      sockets := sockets[socket := x.(missed := x.missed + 1)];
      if x.missed + 1 > MAX_MISSED_PINGS {
        sockets := sockets[socket := x.(missed := x.missed + 1, code := Some(LIVENESS_TIMEOUT))];
        return true;
      }
      return false;
    }

    /** Revoke expired grants, forget vanished sessions, unmap closed sockets: name by
        name, with the effect of doing all of it at once. */
    method SweepNow(exist: set<Name>, now: nat)
      requires Inv(View(now))
      modifies this
      ensures Inv(View(now)) && View(now) == Step(old(View(now)), Sweep(exist), maxTtl)
    {
      ghost var s := View(now);
      hide RevokeAll, DropClosed;
      var expired := set n | n in grants && grants[n].expiresAt <= now;
      assert expired == Expired(s);
      var todo := expired;
      while todo != {}
        invariant Inv(View(now)) && RevokeAll(View(now), todo, TTL_EXPIRED) == RevokeAll(s, expired, TTL_EXPIRED)
      {
        var n :| n in todo;
        RevokeSplit(View(now), n, todo, TTL_EXPIRED);
        var _ := RevokeSession(n, TTL_EXPIRED, now);
        todo := todo - {n};
      }
      RevokeNone(View(now), TTL_EXPIRED);
      ghost var revoked := View(now);
      var gone := (grants.Keys + attached.Keys + keys.Keys + detaches.Keys) - exist;
      assert gone == Known(revoked) - exist;
      todo := gone;
      hide ForgetAll;
      while todo != {}
        invariant Inv(View(now)) && ForgetAll(View(now), todo) == ForgetAll(revoked, gone)
      {
        var n :| n in todo;
        ForgetSplit(View(now), n, todo);
        Forget(n, now);
        todo := todo - {n};
      }
      ForgetNone(View(now));
      SweepKeepsInv(s, exist);
      UnmapClosed(now);
    }

    method UnmapClosed(ghost now: nat)
      modifies this`attached
      ensures View(now) == DropClosed(old(View(now)))
    {
      attached := map n | n in attached && attached[n] in sockets && sockets[attached[n]].code.None? :: attached[n];
    }
  }
}
