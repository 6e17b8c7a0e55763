/** Stored tokens against the generations of the sessions they are for: exactly when the
    two agree, a discipline that keeps them so, and which token verifies. */
module Tokens {
  import opened Bytes
  import opened Manager

  // ----- tokens and generations --------------------------------------------------------------

  predicate LiveAt(s: State, name: Name, generation: nat) {
    IsLive(s, name) && s.sessions[s.mapped[name]].generation == generation
  }

  /** The session or the spawn a stored token belongs to. */
  predicate Backed(s: State, name: Name, generation: nat) {
    (name in s.claimed && s.claimed[name] == Spawn(generation, true)) || LiveAt(s, name, generation)
  }

  ghost predicate Agreement(s: State) {
    forall name :: name in s.tokens ==> Backed(s, name, s.tokens[name].generation)
  }

  /** A removal takes the name of a running session away while its token is stored. */
  predicate StrandsToken(s: State, a: Action) {
    Orphaning(s, a) && s.held[a.caller].name in s.tokens
  }

  /** A renewal mints for a generation the name no longer stands for. */
  predicate MintsStale(s: State, a: Action, c: Config) {
    && a.MintRenewed? && RenewalPending(s, a.caller) && c.tokenTtl > 0
    && !Backed(s, s.held[a.caller].name, s.held[a.caller].stage.generation)
  }

  predicate Breaks(s: State, a: Action, c: Config) {
    StrandsToken(s, a) || MintsStale(s, a, c)
  }

  /** The name and generation a step mints for, if it mints. */
  function MintedBy(s: State, a: Action, c: Config): Option<(Name, nat)> {
    if a.Mint? && CanMint(s, a.name, c) then Some((a.name, s.claimed[a.name].generation))
    else if a.MintRenewed? && RenewalPending(s, a.caller) && c.tokenTtl > 0 then
      Some((s.held[a.caller].name, s.held[a.caller].stage.generation))
    else None
  }

  /** The step revokes the stored token of `name`. */
  predicate Revokes(s: State, a: Action, name: Name) {
    || (a.Bump? && CanBump(s, a.caller) && s.held[a.caller].name == name)
    || (a.Teardown? && Holds(s, a.caller, Looked) && s.held[a.caller].name == name
        && s.sessions[s.held[a.caller].session].alive)
  }

  /** Where a stored token comes from: the step just minted it, or it stood before and
      was not revoked. */
  ghost predicate TokenFrom(s: State, r: State, a: Action, name: Name, c: Config) {
    && s.nextToken <= r.nextToken
    && (name in r.tokens ==>
          if MintedBy(s, a, c).Some? && MintedBy(s, a, c).value.0 == name then
            r.tokens[name] == Stored(s.nextToken, MintedBy(s, a, c).value.1, s.now + c.tokenTtl) && s.nextToken < r.nextToken
          else
            name in s.tokens && r.tokens[name] == s.tokens[name] && !Revokes(s, a, name))
  }

  lemma StepTokens(s: State, a: Action, name: Name, c: Config)
    ensures TokenFrom(s, Step(s, a, c), a, name, c)
  {
    match a
    case Mint(_) => hide Holds, RenewalPending;
    case Teardown(_) => hide CanMint;
    case Bump(_) => hide CanMint;
    case MintRenewed(_) => hide CanMint, Holds;
    case _ => hide CanMint, RenewalPending;
  }

  lemma MintIsFresh(s: State, a: Action, c: Config)
    requires MintedBy(s, a, c).Some?
    ensures var (name, generation) := MintedBy(s, a, c).value;
      var r := Step(s, a, c);
      name in r.tokens && r.tokens[name] == Stored(s.nextToken, generation, s.now + c.tokenTtl) && r.now == s.now
  {
  }

  /** Whatever backs a token goes on backing it, unless the step revokes the token or
      removes a running session's name. */
  lemma BackingStays(s: State, a: Action, name: Name, generation: nat, c: Config)
    requires Inv(s, c) && Backed(s, name, generation)
    requires !Revokes(s, a, name) && !(Orphaning(s, a) && s.held[a.caller].name == name)
    ensures Backed(Step(s, a, c), name, generation)
  {
    if name in s.claimed && s.claimed[name] == Spawn(generation, true) {
      ClaimBacks(s, a, name, generation, c);
    } else {
      LiveBacks(s, a, name, generation, c);
    }
  }

  lemma ClaimBacks(s: State, a: Action, name: Name, generation: nat, c: Config)
    requires NamesFit(s) && name in s.claimed && s.claimed[name] == Spawn(generation, true)
    ensures Backed(Step(s, a, c), name, generation)
  {
  }

  lemma LiveBacks(s: State, a: Action, name: Name, generation: nat, c: Config)
    requires Inv(s, c) && LiveAt(s, name, generation)
    requires !Revokes(s, a, name) && !(Orphaning(s, a) && s.held[a.caller].name == name)
    ensures LiveAt(Step(s, a, c), name, generation)
  {
    hide TearDown, BumpGeneration, MintForRenewal, WithToken, ForgetName, PublishClaim, Revokes, HandlesFit;
    match a
    case Publish(n) =>
      NamesFitOf(s, c);
      PublishBacks(s, n, name, generation);
    case Teardown(k) =>
      TeardownBacks(s, k, name, generation);
    case Bump(k) =>
      BumpBacks(s, k, name, generation);
    case Forget(k) =>
      ForgetBacks(s, k, name, generation);
    case MintRenewed(k) =>
      MintBacks(s, k, name, generation, c);
    case Mint(n) =>
      OtherBacks(s, a, name, generation, c);
    case _ =>
  }

  lemma PublishBacks(s: State, n: Name, name: Name, generation: nat)
    requires NamesFit(s) && s.claimed.Keys !! s.mapped.Keys && LiveAt(s, name, generation)
    ensures LiveAt(PublishClaim(s, n), name, generation)
  {
    if CanPublish(s, n) { assert n in s.claimed.Keys && n !in s.mapped.Keys; }
  }

  lemma TeardownBacks(s: State, k: Caller, name: Name, generation: nat)
    requires NamesFit(s) && LiveAt(s, name, generation) && !Revokes(s, Teardown(k), name)
    ensures LiveAt(TearDown(s, k), name, generation)
  {
    if Holds(s, k, Looked) { assert HandleFits(s, s.held[k]); }
  }

  lemma BumpBacks(s: State, k: Caller, name: Name, generation: nat)
    requires NamesFit(s) && LiveAt(s, name, generation) && !Revokes(s, Bump(k), name)
    ensures LiveAt(BumpGeneration(s, k), name, generation)
  {
    if Holds(s, k, Looked) { assert HandleFits(s, s.held[k]); }
  }

  lemma ForgetBacks(s: State, k: Caller, name: Name, generation: nat)
    requires LiveAt(s, name, generation) && !(Orphaning(s, Forget(k)) && s.held[k].name == name)
    ensures LiveAt(ForgetName(s, k), name, generation)
  {
  }

  lemma MintBacks(s: State, k: Caller, name: Name, generation: nat, c: Config)
    requires LiveAt(s, name, generation)
    ensures LiveAt(MintForRenewal(s, k, c), name, generation)
  {
  }

  lemma OtherBacks(s: State, a: Action, name: Name, generation: nat, c: Config)
    requires LiveAt(s, name, generation) && a.Mint?
    ensures LiveAt(Step(s, a, c), name, generation)
  {
  }

  lemma MintIsBacked(s: State, a: Action, c: Config)
    requires NamesFit(s) && MintedBy(s, a, c).Some? && !MintsStale(s, a, c)
    ensures var (name, generation) := MintedBy(s, a, c).value; Backed(Step(s, a, c), name, generation)
  {
  }

  lemma StepKeepsAgreement(s: State, a: Action, c: Config)
    requires Inv(s, c) && Agreement(s) && !Breaks(s, a, c)
    ensures Agreement(Step(s, a, c))
  {
    hide Step, Inv, Backed, Revokes, MintedBy, MintsStale, Orphaning;
    var r := Step(s, a, c);
    forall name | name in r.tokens ensures Backed(r, name, r.tokens[name].generation) {
      StepTokens(s, a, name, c);
      if MintedBy(s, a, c).Some? && MintedBy(s, a, c).value.0 == name {
        NamesFitOf(s, c);
        MintIsBacked(s, a, c);
      } else {
        BackingStays(s, a, name, s.tokens[name].generation, c);
      }
    }
  }

  lemma NamesFitOf(s: State, c: Config)
    requires Inv(s, c)
    ensures NamesFit(s) && s.claimed.Keys !! s.mapped.Keys
  {
  }

  lemma BreakingBreaks(s: State, a: Action, c: Config)
    requires Inv(s, c) && Agreement(s) && Breaks(s, a, c)
    ensures !Agreement(Step(s, a, c))
  {
    var r := Step(s, a, c);
    var name := s.held[a.caller].name;
    if StrandsToken(s, a) {
      assert name in s.mapped.Keys && name !in s.claimed.Keys;
      assert name in r.tokens && name !in r.mapped && name !in r.claimed;
    } else {
      MintIsFresh(s, a, c);
      SameBacking(s, r, name, r.tokens[name].generation);
    }
    assert !Backed(r, name, r.tokens[name].generation);
  }

  lemma SameBacking(s: State, r: State, name: Name, generation: nat)
    requires r.claimed == s.claimed && r.mapped == s.mapped && r.sessions == s.sessions
    ensures Backed(r, name, generation) <==> Backed(s, name, generation)
  {
  }

  lemma StepAgreesExactly(s: State, a: Action, c: Config)
    requires Inv(s, c) && Agreement(s)
    ensures Agreement(Step(s, a, c)) <==> !Breaks(s, a, c)
  {
    hide Step, Inv, Agreement, Breaks;
    if Breaks(s, a, c) {
      BreakingBreaks(s, a, c);
    } else {
      StepKeepsAgreement(s, a, c);
    }
  }

  ghost predicate AgreesThroughout(actions: seq<Action>, c: Config)
    decreases |actions|
  {
    Agreement(Run(actions, c)) && (actions == [] || AgreesThroughout(actions[..|actions| - 1], c))
  }

  predicate NeverBreaks(actions: seq<Action>, c: Config)
    decreases |actions|
  {
    actions == [] || (
      && NeverBreaks(actions[..|actions| - 1], c)
      && !Breaks(Run(actions[..|actions| - 1], c), actions[|actions| - 1], c))
  }

  /** Stored tokens and generations agree all along a history exactly when no removal
      in it takes a running session's name while its token is stored, and no renewal
      mints for a generation the name no longer stands for. */
  lemma {:induction false} AgreementExactly(actions: seq<Action>, c: Config)
    ensures AgreesThroughout(actions, c) <==> NeverBreaks(actions, c)
    decreases |actions|
  {
    hide Step, Breaks, Agreement, Inv;
    if actions == [] {
      NothingStored();
    } else {
      var before, a := actions[..|actions| - 1], actions[|actions| - 1];
      AgreementExactly(before, c);
      AdmissionHolds(before, c);
      if AgreesThroughout(before, c) {
        assert Agreement(Run(before, c));
        StepAgreesExactly(Run(before, c), a, c);
      }
    }
  }

  lemma NothingStored()
    ensures Agreement(START)
  {
  }

  // ----- waiting is enough -----------------------------------------------------------------------

  predicate NoHandleOn(s: State, name: Name) {
    forall k :: k in s.held ==> s.held[k].name != name
  }

  predicate NoRenewalOn(s: State, name: Name) {
    forall k :: k in s.held && s.held[k].stage.Bumped? ==> s.held[k].name != name
  }

  /** A name is claimed only when nobody holds a session of that name any more, a
      renewal finds its session alive, and nobody tears down or renews a session while
      a renewal of it has yet to mint. */
  predicate Waits(s: State, a: Action) {
    && (a.ClaimName? ==> NoHandleOn(s, a.name))
    && ((a.Teardown? || a.Bump?) && Holds(s, a.caller, Looked) ==> NoRenewalOn(s, s.held[a.caller].name))
    && (a.Bump? && CanBump(s, a.caller) ==> s.sessions[s.held[a.caller].session].alive)
  }

  predicate Patient(actions: seq<Action>, c: Config)
    decreases |actions|
  {
    actions == [] || (
      && Patient(actions[..|actions| - 1], c)
      && Waits(Run(actions[..|actions| - 1], c), actions[|actions| - 1]))
  }

  /** What a held session's name stands for in a patient history: that session, or
      nothing at all. */
  ghost predicate HandleTidy(s: State, h: Handle) {
    && h.name !in s.claimed
    && (h.name in s.mapped ==> s.mapped[h.name] == h.session)
    && (IsAlive(s, h.session) ==> h.name in s.mapped)
    && (h.stage.Bumped? ==> LiveAt(s, h.name, h.stage.generation))
  }

  ghost predicate Tidy(s: State) {
    && (forall k :: k in s.held ==> HandleTidy(s, s.held[k]))
    && (forall j, k :: RenewalPending(s, j) && RenewalPending(s, k) && s.held[j].name == s.held[k].name ==> j == k)
  }

  lemma TidyNeverBreaks(s: State, a: Action, c: Config)
    requires NamesFit(s) && Tidy(s)
    ensures !Breaks(s, a, c) && !Orphaning(s, a)
  {
    if a.Forget? && Holds(s, a.caller, Torn) {
      assert HandleFits(s, s.held[a.caller]) && HandleTidy(s, s.held[a.caller]);
    }
    if a.MintRenewed? && RenewalPending(s, a.caller) {
      assert HandleTidy(s, s.held[a.caller]);
    }
  }

  /** A handle nobody moved keeps its place, and what it stands for. */
  lemma HandleStaysTidy(s: State, a: Action, k: Caller, c: Config)
    requires Inv(s, c) && Tidy(s) && Waits(s, a)
    requires k in s.held && k in Step(s, a, c).held && Step(s, a, c).held[k] == s.held[k]
    ensures HandleTidy(Step(s, a, c), s.held[k])
  {
    var h, r := s.held[k], Step(s, a, c);
    TidyNeverBreaks(s, a, c);
    StepMaps(s, a, c);
    StepClaims(s, a, c);
    StepKeepsSessions(s, a, c);
    assert HandleTidy(s, h) && HandleFits(s, h);
    if IsAlive(s, h.session) { NameStays(s, a, h.name, c); }
    if h.stage.Bumped? {
      BumpedIsNotRevoked(s, a, k);
      LiveBacks(s, a, h.name, h.stage.generation, c);
    }
    ClaimWaits(s, a, k);
    hide Step, Tidy, Waits, Orphaning, Inv, Revokes, Breaks;
  }

  lemma ClaimWaits(s: State, a: Action, k: Caller)
    requires Waits(s, a) && k in s.held
    ensures a.ClaimName? ==> a.name != s.held[k].name
  {
  }

  /** Only a removal, and then an orphaning one, takes a running session's name. */
  lemma NameStays(s: State, a: Action, name: Name, c: Config)
    requires IsLive(s, name) && !Orphaning(s, a)
    ensures name in Step(s, a, c).mapped
  {
  }

  lemma StepClaims(s: State, a: Action, c: Config)
    ensures forall n :: n in Step(s, a, c).claimed ==> n in s.claimed || (a.ClaimName? && a.name == n)
  {
  }

  lemma BumpedIsNotRevoked(s: State, a: Action, k: Caller)
    requires Waits(s, a) && k in s.held && s.held[k].stage.Bumped?
    ensures !Revokes(s, a, s.held[k].name)
  {
  }

  lemma StepKeepsTidy(s: State, a: Action, c: Config)
    requires Inv(s, c) && Tidy(s) && Waits(s, a)
    ensures Tidy(Step(s, a, c))
  {
    var r := Step(s, a, c);
    StepStages(s, a, c);
    forall k | k in r.held ensures HandleTidy(r, r.held[k]) {
      if k in s.held && r.held[k] == s.held[k] {
        HandleStaysTidy(s, a, k, c);
      } else {
        MovedHandleTidy(s, a, k, c);
      }
    }
    hide Step, HandleTidy, Inv;
  }

  /** Only a caller's own step moves its handle, and only a bump makes it a renewal. */
  lemma StepStages(s: State, a: Action, c: Config)
    ensures var r := Step(s, a, c);
      forall k :: k in r.held && !(k in s.held && r.held[k] == s.held[k]) ==>
        && (a.Get? || a.Teardown? || a.Bump?) && a.caller == k
        && (r.held[k].stage.Bumped? ==> a.Bump? && Holds(s, k, Looked) && r.held[k].name == s.held[k].name)
  {
  }

  lemma MovedHandleTidy(s: State, a: Action, k: Caller, c: Config)
    requires Inv(s, c) && Tidy(s) && Waits(s, a)
    requires k in Step(s, a, c).held && !(k in s.held && Step(s, a, c).held[k] == s.held[k])
    ensures HandleTidy(Step(s, a, c), Step(s, a, c).held[k])
  {
    StepStages(s, a, c);
    if a.Get? {
      assert a.name in s.mapped.Keys && a.name !in s.claimed.Keys;
    } else {
      assert HandleTidy(s, s.held[k]) && HandleFits(s, s.held[k]);
    }
  }

  /** Waiting keeps everything: in a patient history nothing is orphaned, so the cap
      holds, and tokens and generations agree throughout. */
  lemma {:induction false} PatientRuns(actions: seq<Action>, c: Config)
    requires Patient(actions, c)
    ensures Tidy(Run(actions, c)) && NeverBreaks(actions, c) && OrphanFree(START, actions, c)
    decreases |actions|
  {
    hide Step, Tidy, Waits, Breaks, Orphaning, Inv;
    if actions == [] {
      NothingHeld();
    } else {
      var before, a := actions[..|actions| - 1], actions[|actions| - 1];
      PatientRuns(before, c);
      AdmissionHolds(before, c);
      NamesFitOf(Run(before, c), c);
      TidyNeverBreaks(Run(before, c), a, c);
      StepKeepsTidy(Run(before, c), a, c);
    }
  }

  lemma NothingHeld()
    ensures Tidy(START)
  {
  }

  lemma PatientRunsAgree(actions: seq<Action>, c: Config)
    requires Patient(actions, c)
    ensures AgreesThroughout(actions, c) && WithinCap(Run(actions, c), c)
  {
    PatientRuns(actions, c);
    AgreementExactly(actions, c);
    CapHolds(actions, c);
  }

  // ----- which token verifies --------------------------------------------------------------------

  /** The token last minted for `name` with no revocation since. */
  function LatestMint(actions: seq<Action>, name: Name, c: Config): Option<Stored>
    decreases |actions|
  {
    if actions == [] then None
    else
      var before, a := actions[..|actions| - 1], actions[|actions| - 1];
      var s := Run(before, c);
      var minted := MintedBy(s, a, c);
      if minted.Some? && minted.value.0 == name then Some(Stored(s.nextToken, minted.value.1, s.now + c.tokenTtl))
      else if Revokes(s, a, name) then None
      else LatestMint(before, name, c)
  }

  lemma {:induction false} StoredIsLatest(actions: seq<Action>, name: Name, c: Config)
    ensures name in Run(actions, c).tokens ==> LatestMint(actions, name, c) == Some(Run(actions, c).tokens[name])
    decreases |actions|
  {
    hide Step, MintedBy, Revokes;
    if actions != [] {
      StoredIsLatest(actions[..|actions| - 1], name, c);
      StepTokens(Run(actions[..|actions| - 1], c), actions[|actions| - 1], name, c);
    }
  }

  /** A token that verifies is the latest mint for its name, unexpired, with no
      revocation since; and in a history that never breaks the agreement it belongs to
      the running session of that name at exactly the presented generation, or to the
      spawn about to publish it. */
  lemma VerifiedTokenIsCurrent(actions: seq<Action>, name: Name, generation: nat, token: nat, c: Config)
    requires Verifies(Run(actions, c), name, generation, token)
    ensures var latest := LatestMint(actions, name, c);
      && latest.Some? && latest.value.token == token && latest.value.generation == generation
      && latest.value.expiresAt > Run(actions, c).now
    ensures NeverBreaks(actions, c) ==> Backed(Run(actions, c), name, generation)
    ensures Patient(actions, c) && name !in Run(actions, c).claimed ==> LiveAt(Run(actions, c), name, generation)
  {
    StoredIsLatest(actions, name, c);
    AgreementExactly(actions, c);
    if Patient(actions, c) { PatientRuns(actions, c); }
    hide Step, Run, LatestMint, NeverBreaks, Patient, OrphanFree;
  }

  /** The step neither mints for `name` nor revokes its token. */
  predicate SparesToken(s: State, a: Action, name: Name, c: Config) {
    && !(MintedBy(s, a, c).Some? && MintedBy(s, a, c).value.0 == name)
    && !Revokes(s, a, name)
  }

  predicate AllSpareToken(s: State, later: seq<Action>, name: Name, c: Config)
    decreases |later|
  {
    later == [] || (
      && AllSpareToken(s, later[..|later| - 1], name, c)
      && SparesToken(RunFrom(s, later[..|later| - 1], c), later[|later| - 1], name, c))
  }

  /** The token of `name` is the one given until it expires, and no other after that. */
  predicate HoldsToken(s: State, name: Name, x: Stored) {
    if s.now < x.expiresAt then name in s.tokens && s.tokens[name] == x
    else name in s.tokens ==> s.tokens[name] == x
  }

  lemma TimePasses(s: State, a: Action, c: Config)
    ensures Step(s, a, c).now >= s.now
  {
    hide CanMint, Holds, RenewalPending, CanBump, ClaimAccepted, Verifies, CanPublish;
  }

  lemma UnexpiredStays(s: State, a: Action, name: Name, c: Config)
    requires SparesToken(s, a, name, c) && name in s.tokens && s.now < s.tokens[name].expiresAt
    ensures name in Step(s, a, c).tokens
  {
    match a
    case Mint(_) => hide Holds, RenewalPending;
    case Teardown(_) => hide CanMint;
    case Bump(_) => hide CanMint;
    case MintRenewed(_) => hide CanMint, Holds;
    case _ => hide CanMint, RenewalPending;
  }

  lemma StepHoldsToken(s: State, a: Action, name: Name, x: Stored, c: Config)
    requires HoldsToken(s, name, x) && SparesToken(s, a, name, c)
    ensures HoldsToken(Step(s, a, c), name, x)
  {
    StepTokens(s, a, name, c);
    TimePasses(s, a, c);
    if s.now < x.expiresAt { UnexpiredStays(s, a, name, c); }
    hide Step, MintedBy, Revokes;
  }

  lemma {:induction false} RunHoldsToken(s: State, later: seq<Action>, name: Name, x: Stored, c: Config)
    requires HoldsToken(s, name, x) && AllSpareToken(s, later, name, c)
    ensures HoldsToken(RunFrom(s, later, c), name, x)
    decreases |later|
  {
    hide Step, HoldsToken, SparesToken;
    if later != [] {
      RunHoldsToken(s, later[..|later| - 1], name, x, c);
      StepHoldsToken(RunFrom(s, later[..|later| - 1], c), later[|later| - 1], name, x, c);
    }
  }

  /** A minted token verifies for exactly the configured lifetime: over any later run with
      no mint and no revocation for its name, as long as that time has not passed, at the
      generation it was minted for, and no longer. */
  lemma TokenLivesExactly(s: State, a: Action, later: seq<Action>, generation: nat, c: Config)
    requires MintedBy(s, a, c).Some? && AllSpareToken(Step(s, a, c), later, MintedBy(s, a, c).value.0, c)
    ensures var r, minted := RunFrom(Step(s, a, c), later, c), MintedBy(s, a, c).value;
      Verifies(r, minted.0, generation, s.nextToken) <==> generation == minted.1 && r.now < s.now + c.tokenTtl
  {
    var (name, g) := MintedBy(s, a, c).value;
    MintIsFresh(s, a, c);
    RunHoldsToken(Step(s, a, c), later, name, Stored(s.nextToken, g, s.now + c.tokenTtl), c);
    hide Step, RunFrom, MintedBy;
  }

  /** A token no longer stored is stored in no later state. */
  lemma {:induction false} OldTokensNeverVerify(s: State, later: seq<Action>, name: Name, token: nat, c: Config)
    requires token < s.nextToken && (name in s.tokens ==> s.tokens[name].token != token)
    ensures var r := RunFrom(s, later, c);
      token < r.nextToken && (name in r.tokens ==> r.tokens[name].token != token)
    decreases |later|
  {
    hide Step, MintedBy, Revokes;
    if later != [] {
      var most, last := later[..|later| - 1], later[|later| - 1];
      OldTokensNeverVerify(s, most, name, token, c);
      StepTokens(RunFrom(s, most, c), last, name, c);
    }
  }

  /** A renewal, or the teardown of a running session, ends every token its name ever
      had: none of them verifies in any later state. */
  lemma RevocationIsFinal(s: State, a: Action, later: seq<Action>, name: Name, generation: nat, token: nat, c: Config)
    requires Revokes(s, a, name) && token < s.nextToken
    ensures !Verifies(RunFrom(Step(s, a, c), later, c), name, generation, token)
  {
    StepTokens(s, a, name, c);
    OldTokensNeverVerify(Step(s, a, c), later, name, token, c);
    hide Step, RunFrom;
  }
}
