/** The token store and the manager as objects, each method one step of the machine. */
module ManagerObjects {
  import opened Bytes
  import opened Manager

  datatype AdmissionResult = Claimed | AlreadyExists | CapacityExceeded(limit: nat)

  /** The token store: one retained hash per session name. */
  class TokenStore {
    var entries: map<Name, Stored>
    var nextToken: nat
    const ttl: nat

    constructor (ttl: nat)
      ensures entries == map[] && nextToken == 0 && this.ttl == ttl
    {
      entries, nextToken, this.ttl := map[], 0, ttl;
    }

    /** Refused, with nothing changed, when the lifetime is zero. */
    method MintForSession(name: Name, generation: nat, now: nat) returns (token: Option<nat>)
      modifies this
      ensures token.None? <==> ttl == 0
      ensures token.None? ==> entries == old(entries) && nextToken == old(nextToken)
      ensures token.Some? ==>
        && token.value == old(nextToken) && nextToken == old(nextToken) + 1
        && entries == old(entries)[name := Stored(token.value, generation, now + ttl)]
    {
      if ttl == 0 {
        return None;
      }
      token := Some(nextToken);
      entries := entries[name := Stored(nextToken, generation, now + ttl)];
      nextToken := nextToken + 1;
    }

    method RevokeSession(name: Name)
      modifies this
      ensures entries == old(entries) - {name} && nextToken == old(nextToken)
    {
      entries := entries - {name};
    }

    /** Tokens stay reusable until expiry or revocation; an expired hash is removed
        when it is observed. */
    method VerifyToken(name: Name, generation: nat, token: nat, now: nat) returns (ok: bool)
      modifies this
      ensures ok <==> name in old(entries) && old(entries)[name].expiresAt > now
                      && old(entries)[name].generation == generation && old(entries)[name].token == token
      ensures entries == if name in old(entries) && old(entries)[name].expiresAt <= now
                         then old(entries) - {name} else old(entries)
      ensures nextToken == old(nextToken)
    {
      if name in entries {
        var stored := entries[name];
        if stored.expiresAt > now && stored.generation == generation && stored.token == token {
          return true;
        }
        if stored.expiresAt <= now {
          entries := entries - {name};
        }
      }
      return false;
    }
  }

  /** The manager, with the sessions its callers hold. */
  class SessionManager {
    var sessions: map<SessionId, Session>
    var mapped: map<Name, SessionId>
    var claimed: map<Name, Spawn>
    var held: map<Caller, Handle>
    var nextSession: nat
    const tokens: TokenStore
    const config: Config

    ghost predicate Valid()
      reads this, tokens
    {
      tokens.ttl == config.tokenTtl
    }

    ghost function View(now: nat): State
      reads this, tokens
    {
      State(sessions, mapped, claimed, tokens.entries, held, nextSession, tokens.nextToken, now)
    }

    constructor (config: Config)
      ensures Valid() && fresh(tokens) && View(0) == START && this.config == config
    {
      sessions, mapped, claimed, held, nextSession := map[], map[], map[], map[], 0;
      tokens := new TokenStore(config.tokenTtl);
      this.config := config;
    }

    /** Claim the name and a capacity slot in one step. */
    method ClaimName(name: Name, generation: nat, ghost now: nat) returns (r: AdmissionResult)
      requires Valid()
      modifies this
      ensures Valid() && View(now) == Step(old(View(now)), Action.ClaimName(name, generation), config)
      ensures r.Claimed? <==> ClaimAccepted(old(View(now)), name, config)
      ensures r.AlreadyExists? <==> name in old(mapped) || name in old(claimed)
    {
      if name in mapped || name in claimed {
        return AlreadyExists;
      }
      ghost var s := View(now);
      var before := claimed;
      OneMoreClaim(before, name, Spawn(generation, false));
      claimed := claimed[name := Spawn(generation, false)];
      var live := set n | n in mapped && mapped[n] in sessions && sessions[mapped[n]].alive;
      assert live == Live(s);
      hide Live;
      if |live| + |claimed| > config.maxSessions {
        claimed := before;
        return CapacityExceeded(config.maxSessions);
      }
      return Claimed;
    }

    /** What dropping the claim guard does before anything was minted. */
    method Abandon(name: Name, ghost now: nat)
      requires Valid() && name in claimed && !claimed[name].minted
      modifies this
      ensures Valid() && View(now) == Step(old(View(now)), Action.Abandon(name), config)
    {
      claimed := claimed - {name};
    }

    method MintForSpawn(name: Name, now: nat) returns (token: Option<nat>)
      requires Valid() && name in claimed && !claimed[name].minted
      modifies this, tokens
      ensures Valid() && View(now) == Step(old(View(now)), Mint(name), config)
      ensures token.Some? <==> config.tokenTtl > 0
    {
      var spawn := claimed[name];
      token := tokens.MintForSession(name, spawn.generation, now);
      if token.Some? {
        claimed := claimed[name := spawn.(minted := true)];
      }
    }

    /** Publish the session and release its claim in one step. */
    method Publish(name: Name, ghost now: nat) returns (displaced: Option<SessionId>)
      requires Valid() && name in claimed && claimed[name].minted
      modifies this
      ensures Valid() && View(now) == Step(old(View(now)), Action.Publish(name), config)
      ensures displaced == if name in old(mapped) then Some(old(mapped)[name]) else None
      ensures Inv(old(View(now)), config) ==> displaced.None?
    {
      ghost var s := View(now);
      if Inv(s, config) { PublishKeepsTotal(s, name, config); }
      displaced := if name in mapped then Some(mapped[name]) else None;
      var generation := claimed[name].generation;
      claimed := claimed - {name};
      sessions := sessions[nextSession := Session(name, generation, true)];
      mapped := mapped[name := nextSession];
      nextSession := nextSession + 1;
    }

    /** Look a session up and hold it. */
    method GetSession(caller: Caller, name: Name, ghost now: nat) returns (session: Option<SessionId>)
      requires Valid() && caller !in held
      modifies this
      ensures Valid() && View(now) == Step(old(View(now)), Get(caller, name), config)
      ensures session == if name in old(mapped) then Some(old(mapped)[name]) else None
    {
      if name !in mapped {
        return None;
      }
      session := Some(mapped[name]);
      held := held[caller := Handle(mapped[name], name, Looked, mapped[name] in sessions && sessions[mapped[name]].alive)];
    }

    /** End the session held; revoke its name's token unless it was dead already. */
    method TeardownHeld(caller: Caller, ghost now: nat)
      requires Valid() && caller in held && held[caller].stage == Looked && held[caller].session in sessions
      modifies this, tokens
      ensures Valid() && View(now) == Step(old(View(now)), Teardown(caller), config)
    {
      var h := held[caller];
      var x := sessions[h.session];
      sessions := sessions[h.session := x.(alive := false)];
      held := held[caller := h.(stage := Torn)];
      if x.alive {
        tokens.RevokeSession(h.name);
      }
    }

    /** Remove the name, whoever has it by now. */
    method ForgetHeld(caller: Caller, ghost now: nat)
      requires Valid() && caller in held && held[caller].stage == Torn && held[caller].session in sessions
      modifies this
      ensures Valid() && View(now) == Step(old(View(now)), Forget(caller), config)
    {
      mapped := mapped - {held[caller].name};
      held := held - {caller};
    }

    /** The part of a renewal made under the session's lock; refused for a session that
        was dead when it was looked up. */
    method BumpHeld(caller: Caller, ghost now: nat) returns (generation: Option<nat>)
      requires Valid() && caller in held && held[caller].stage == Looked && held[caller].session in sessions
      modifies this, tokens
      ensures Valid() && View(now) == Step(old(View(now)), Bump(caller), config)
      ensures generation ==
        if old(held)[caller].seenAlive then Some(old(sessions)[old(held)[caller].session].generation + 1) else None
    {
      var h := held[caller];
      if !h.seenAlive {
        return None;
      }
      var x := sessions[h.session];
      var next := x.generation + 1;
      sessions := sessions[h.session := x.(generation := next)];
      held := held[caller := h.(stage := Bumped(next))];
      tokens.RevokeSession(h.name);
      generation := Some(next);
    }

    /** The mint after the lock is gone. */
    method MintHeld(caller: Caller, now: nat) returns (token: Option<nat>)
      requires Valid() && caller in held && held[caller].stage.Bumped?
      modifies this, tokens
      ensures Valid() && View(now) == Step(old(View(now)), MintRenewed(caller), config)
      ensures token.Some? <==> config.tokenTtl > 0
    {
      var h := held[caller];
      held := held - {caller};
      token := tokens.MintForSession(h.name, h.stage.generation, now);
    }
  }
}
