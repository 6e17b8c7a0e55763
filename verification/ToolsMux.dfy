/** The request multiplexer of one attached Mac: loopback calls share a socket, each
    under a rewritten JSON-RPC id. The check for a closed socket, the entry into the
    pending table, the send and the wake-up are separate steps of a call. */
module ToolsMux {
  import opened Bytes

  const MAX_INFLIGHT_PER_SESSION: nat := 64

  /** A JSON-RPC id as the loopback caller wrote it (JSON-RPC 2.0, section 4). */
  datatype JsonId = Number(value: int) | Text(text: string) | Null

  type Body = seq<byte>

  datatype CallError = NotAttached | TooManyInFlight | Timeout

  datatype Outcome = Reply(id: JsonId, body: Body) | Failed(id: JsonId, error: CallError)

  /** Where one call stands. `original` is the caller's id, `id` the rewritten one. */
  datatype Phase =
    | Checked(original: JsonId)
    | Refused(original: JsonId, error: CallError)
    | Waiting(original: JsonId, id: nat)
    | Answered(original: JsonId, id: nat, body: Body)
    | Dropped(original: JsonId, id: nat)
    | Done(original: JsonId, id: nat, outcome: Outcome)

  predicate Entered(p: Phase) {
    !p.Checked? && !p.Refused?
  }

  predicate Decided(p: Phase) {
    p.Refused? || p.Done?
  }

  type Call = nat

  datatype State = State(
    calls: map<Call, Phase>, pending: map<nat, Call>, nextId: nat, closeCode: Option<nat>)

  const START := State(map[], map[], 1, None)

  datatype Action =
    | Check(call: Call, original: JsonId)
    | Enter(call: Call)
    | SendFails(call: Call)
    | MacReply(id: nat, body: Body)
    | Wake(call: Call)
    | GiveUp(call: Call)
    | Close(code: nat)
    | FailPending

  predicate InFlight(s: State, call: Call) {
    call in s.calls && Entered(s.calls[call]) && !s.calls[call].Done?
  }

  /** The call moves to phase `p` and its id leaves the table. */
  function Leave(s: State, call: Call, p: Phase): State
    requires Entered(p)
  {
    s.(calls := s.calls[call := p], pending := s.pending - {p.id})
  }

  function Finish(s: State, call: Call, outcome: Outcome): State
    requires InFlight(s, call)
  {
    Leave(s, call, Done(s.calls[call].original, s.calls[call].id, outcome))
  }

  function Start(s: State, call: Call, original: JsonId): State {
    if call in s.calls then s
    else s.(calls := s.calls[call := if s.closeCode.Some? then Refused(original, NotAttached) else Checked(original)])
  }

  function Admit(s: State, call: Call): State {
    if call !in s.calls || !s.calls[call].Checked? then s
    else if |s.pending| >= MAX_INFLIGHT_PER_SESSION then
      s.(calls := s.calls[call := Refused(s.calls[call].original, TooManyInFlight)])
    else
      s.(calls := s.calls[call := Waiting(s.calls[call].original, s.nextId)],
         pending := s.pending[s.nextId := call],
         nextId := s.nextId + 1)
  }

  function Answer(s: State, id: nat, body: Body): State {
    if id in s.pending && s.pending[id] in s.calls then
      Leave(s, s.pending[id], Answered(s.calls[s.pending[id]].original, id, body))
    else s
  }

  /** How a call that wakes up ends: with its reply, or because its sender is gone. */
  function Collect(s: State, call: Call): State {
    if !InFlight(s, call) || s.calls[call].Waiting? then s
    else
      var p := s.calls[call];
      Finish(s, call, if p.Answered? then Reply(p.original, p.body) else Failed(p.original, NotAttached))
  }

  function Release(s: State): State {
    if s.closeCode.None? then s
    else s.(calls := map call | call in s.calls :: Drop(s.calls[call]), pending := map[])
  }

  function Drop(p: Phase): Phase {
    if p.Waiting? then Dropped(p.original, p.id) else p
  }

  /** One atomic action; one that is not possible leaves the state alone. */
  function Step(s: State, a: Action): State {
    match a
    case Check(call, original) => Start(s, call, original)
    case Enter(call) => Admit(s, call)
    case SendFails(call) => if InFlight(s, call) then Finish(s, call, Failed(s.calls[call].original, NotAttached)) else s
    case MacReply(id, body) => Answer(s, id, body)
    case Wake(call) => Collect(s, call)
    case GiveUp(call) => if InFlight(s, call) then Finish(s, call, Failed(s.calls[call].original, Timeout)) else s
    case Close(code) => if s.closeCode.Some? then s else s.(closeCode := Some(code))
    case FailPending => Release(s)
  }

  function RunFrom(s: State, actions: seq<Action>): State
    decreases |actions|
  {
    if actions == [] then s
    else Step(RunFrom(s, actions[..|actions| - 1]), actions[|actions| - 1])
  }

  function Run(actions: seq<Action>): State {
    RunFrom(START, actions)
  }

  // ----- the invariant ---------------------------------------------------------------------

  predicate HasId(s: State, call: Call, id: nat) {
    call in s.calls && Entered(s.calls[call]) && s.calls[call].id == id
  }

  predicate WaitsUnder(s: State, call: Call, id: nat) {
    call in s.calls && s.calls[call].Waiting? && s.calls[call].id == id
  }

  /** The table lists exactly the calls that wait, each under its own id. */
  ghost predicate Listed(s: State) {
    && (forall id :: id in s.pending ==> WaitsUnder(s, s.pending[id], id))
    && (forall call: Call, id: nat :: WaitsUnder(s, call, id) ==> id in s.pending && s.pending[id] == call)
  }

  ghost predicate IdsUnique(s: State) {
    && (forall call: Call, id: nat :: HasId(s, call, id) ==> 1 <= id < s.nextId)
    && (forall x: Call, y: Call, id: nat :: HasId(s, x, id) && HasId(s, y, id) ==> x == y)
  }

  /** What the caller gets back, once there is something. */
  function OutcomeOf(p: Phase): Option<Outcome> {
    match p
    case Done(_, _, outcome) => Some(outcome)
    case Refused(original, error) => Some(Failed(original, error))
    case _ => None
  }

  /** Every outcome, a reply or an error, carries the id its own caller sent. */
  ghost predicate RepliesRestored(s: State) {
    forall call :: call in s.calls && OutcomeOf(s.calls[call]).Some? ==>
      OutcomeOf(s.calls[call]).value.id == s.calls[call].original
  }

  ghost predicate Inv(s: State) {
    && Listed(s) && IdsUnique(s) && RepliesRestored(s)
    && 1 <= s.nextId && |s.pending| <= MAX_INFLIGHT_PER_SESSION
  }

  lemma LeaveKeepsIds(s: State, call: Call, p: Phase)
    requires InFlight(s, call) && Entered(p) && !p.Waiting? && p.id == s.calls[call].id
    ensures HasId(s, call, p.id)
    ensures forall c: Call, id: nat :: HasId(Leave(s, call, p), c, id) ==> HasId(s, c, id)
    ensures forall c: Call, id: nat :: WaitsUnder(Leave(s, call, p), c, id) <==> WaitsUnder(s, c, id) && c != call
  {
  }

  lemma LeaveKeepsInv(s: State, call: Call, p: Phase)
    requires Inv(s) && InFlight(s, call) && Entered(p) && !p.Waiting?
    requires p.id == s.calls[call].id
    requires p.Done? ==> p.outcome.id == p.original
    ensures Inv(Leave(s, call, p))
  {
    var r := Leave(s, call, p);
    LeaveKeepsIds(s, call, p);
    hide HasId, WaitsUnder, InFlight;
    assert RepliesRestored(r);
    hide RepliesRestored;
    WaitingHasId(s);
    RemovalShrinks(s.pending, p.id);
  }

  /** Who has which id, and who waits, decide the invariant. */
  lemma SameIdsKeepInv(s: State, r: State)
    requires Inv(s) && RepliesRestored(r) && r.pending == s.pending && r.nextId == s.nextId
    requires forall c: Call, id: nat :: HasId(r, c, id) <==> HasId(s, c, id)
    requires forall c: Call, id: nat :: WaitsUnder(r, c, id) <==> WaitsUnder(s, c, id)
    ensures Inv(r)
  {
    hide HasId, WaitsUnder;
  }

  lemma WaitingHasId(s: State)
    ensures forall call: Call, id: nat :: WaitsUnder(s, call, id) ==> HasId(s, call, id)
  {
  }

  lemma RemovalShrinks(m: map<nat, Call>, id: nat)
    ensures |m - {id}| <= |m|
  {
    assert (m - {id}).Keys == m.Keys - {id};
    assert |(m - {id}).Keys| <= |m.Keys|;
  }

  lemma AdmitKeepsInv(s: State, call: Call)
    requires Inv(s)
    ensures Inv(Admit(s, call))
  {
    var r := Admit(s, call);
    if call in s.calls && s.calls[call].Checked? {
      if |s.pending| >= MAX_INFLIGHT_PER_SESSION {
        SameIdsKeepInv(s, r);
      } else {
        AdmittedKeepsInv(s, call, s.calls[call].original);
      }
    }
  }

  function Admitted(s: State, call: Call, original: JsonId): State {
    s.(calls := s.calls[call := Waiting(original, s.nextId)], pending := s.pending[s.nextId := call], nextId := s.nextId + 1)
  }

  lemma AdmittedIds(s: State, call: Call, original: JsonId)
    requires call in s.calls && s.calls[call].Checked? && s.calls[call].original == original
    ensures var r := Admitted(s, call, original);
      && (forall c: Call, id: nat :: HasId(r, c, id) <==> HasId(s, c, id) || (c == call && id == s.nextId))
      && (forall c: Call, id: nat :: WaitsUnder(r, c, id) <==> WaitsUnder(s, c, id) || (c == call && id == s.nextId))
      && (forall id: nat :: !HasId(s, call, id)) && (RepliesRestored(s) ==> RepliesRestored(r))
  {
  }

  lemma AdmittedKeepsInv(s: State, call: Call, original: JsonId)
    requires Inv(s) && call in s.calls && s.calls[call].Checked? && s.calls[call].original == original
    requires |s.pending| < MAX_INFLIGHT_PER_SESSION
    ensures Inv(Admitted(s, call, original))
  {
    AdmittedIds(s, call, original);
    WaitingHasId(s);
    hide HasId, WaitsUnder, RepliesRestored;
    var r := Admitted(s, call, original);
    assert s.nextId !in s.pending;
    assert r.pending.Keys == s.pending.Keys + {s.nextId};
    assert |r.pending.Keys| == |s.pending.Keys| + 1;
  }

  lemma StartKeepsInv(s: State, call: Call, original: JsonId)
    requires Inv(s)
    ensures Inv(Start(s, call, original))
  {
    SameIdsKeepInv(s, Start(s, call, original));
  }

  lemma AnswerKeepsInv(s: State, id: nat, body: Body)
    requires Inv(s)
    ensures Inv(Answer(s, id, body))
  {
    if id in s.pending {
      hide Leave, IdsUnique, RepliesRestored;
      var call := s.pending[id];
      assert WaitsUnder(s, call, id);
      LeaveKeepsInv(s, call, Answered(s.calls[call].original, id, body));
    }
  }

  lemma ReleaseKeepsInv(s: State)
    requires Inv(s)
    ensures Inv(Release(s))
  {
    var r := Release(s);
    if s.closeCode.Some? {
      forall c: Call, id: nat ensures HasId(r, c, id) <==> HasId(s, c, id) { }
      forall c: Call, id: nat ensures !WaitsUnder(r, c, id) { }
      assert RepliesRestored(r);
      hide HasId, WaitsUnder;
    }
  }

  lemma CollectKeepsInv(s: State, call: Call)
    requires Inv(s)
    ensures Inv(Collect(s, call))
  {
    if InFlight(s, call) && !s.calls[call].Waiting? {
      hide Leave, Inv;
      var p := s.calls[call];
      LeaveKeepsInv(s, call, Done(p.original, p.id, if p.Answered? then Reply(p.original, p.body) else Failed(p.original, NotAttached)));
    }
  }

  lemma StepKeepsInv(s: State, a: Action)
    requires Inv(s)
    ensures Inv(Step(s, a))
  {
    hide Leave, Start, Admit, Answer, Collect, Release;
    match a
    case Check(call, original) => StartKeepsInv(s, call, original);
    case Enter(call) => AdmitKeepsInv(s, call);
    case MacReply(id, body) => AnswerKeepsInv(s, id, body);
    case Wake(call) => CollectKeepsInv(s, call);
    case SendFails(call) =>
      hide Inv;
      if InFlight(s, call) {
        LeaveKeepsInv(s, call, Done(s.calls[call].original, s.calls[call].id, Failed(s.calls[call].original, NotAttached)));
      }
    case GiveUp(call) =>
      hide Inv;
      if InFlight(s, call) {
        LeaveKeepsInv(s, call, Done(s.calls[call].original, s.calls[call].id, Failed(s.calls[call].original, Timeout)));
      }
    case FailPending => ReleaseKeepsInv(s);
    case Close(_) => SameIdsKeepInv(s, Step(s, a));
  }

  /** Over every interleaving: the table and the waiting calls agree, at most 64 are
      pending, no two calls ever had one id, and replies carry the caller's own id. */
  lemma {:induction false} MuxInvariant(actions: seq<Action>)
    ensures Inv(Run(actions))
    decreases |actions|
  {
    if actions != [] {
      MuxInvariant(actions[..|actions| - 1]);
      StepKeepsInv(Run(actions[..|actions| - 1]), actions[|actions| - 1]);
    }
  }

  // ----- at most one outcome ------------------------------------------------------------------

  /** What a call keeps: its caller's id, its rewritten id once it has one, and its
      outcome once it has one. */
  ghost predicate Kept(p: Phase, q: Phase) {
    && q.original == p.original
    && (Entered(p) ==> Entered(q) && q.id == p.id)
    && (Decided(p) ==> q == p)
  }

  lemma StepKeepsCalls(s: State, a: Action, call: Call)
    requires Inv(s) && call in s.calls
    ensures call in Step(s, a).calls && Kept(s.calls[call], Step(s, a).calls[call])
  {
    if a.MacReply? {
      AnswerKeepsCalls(s, a.id, a.body, call);
    } else {
      OwnSteps(s, a, call, []);
    }
  }

  /** A call goes on from where it was, and comes by no reply it did not have. */
  ghost predicate GoesOn(s: State, r: State, call: Call, body: Body) {
    && (call in s.calls ==> call in r.calls && Kept(s.calls[call], r.calls[call]))
    && (call in r.calls && HasBody(r.calls[call], body) ==> Inherits(s, call, r.calls[call], body))
  }

  lemma StartGoesOn(s: State, begun: Call, original: JsonId, call: Call, body: Body)
    ensures GoesOn(s, Start(s, begun, original), call, body)
  {
  }

  lemma AdmitGoesOn(s: State, entering: Call, call: Call, body: Body)
    ensures GoesOn(s, Admit(s, entering), call, body)
  {
  }

  lemma FinishGoesOn(s: State, ending: Call, outcome: Outcome, call: Call, body: Body)
    requires InFlight(s, ending)
    requires outcome.Reply? ==> HasBody(s.calls[ending], outcome.body)
    ensures GoesOn(s, Finish(s, ending, outcome), call, body)
  {
  }

  lemma ReleaseGoesOn(s: State, call: Call, body: Body)
    ensures GoesOn(s, Release(s), call, body)
  {
  }

  lemma CollectGoesOn(s: State, waking: Call, call: Call, body: Body)
    ensures GoesOn(s, Collect(s, waking), call, body)
  {
    if InFlight(s, waking) && !s.calls[waking].Waiting? {
      var p := s.calls[waking];
      FinishGoesOn(s, waking, if p.Answered? then Reply(p.original, p.body) else Failed(p.original, NotAttached), call, body);
      hide Finish, GoesOn;
    } else {
      SameGoesOn(s, s, call, body);
    }
  }

  lemma SameGoesOn(s: State, r: State, call: Call, body: Body)
    requires r.calls == s.calls
    ensures GoesOn(s, r, call, body)
  {
  }

  lemma OwnSteps(s: State, a: Action, call: Call, body: Body)
    requires !a.MacReply?
    ensures GoesOn(s, Step(s, a), call, body)
  {
    hide Start, Admit, Finish, Release, Collect, GoesOn;
    match a
    case Check(x, original) => StartGoesOn(s, x, original, call, body);
    case Enter(x) => AdmitGoesOn(s, x, call, body);
    case SendFails(x) =>
      if InFlight(s, x) { FinishGoesOn(s, x, Failed(s.calls[x].original, NotAttached), call, body); } else { SameGoesOn(s, s, call, body); }
    case GiveUp(x) =>
      if InFlight(s, x) { FinishGoesOn(s, x, Failed(s.calls[x].original, Timeout), call, body); } else { SameGoesOn(s, s, call, body); }
    case Wake(x) => CollectGoesOn(s, x, call, body);
    case FailPending => ReleaseGoesOn(s, call, body);
    case Close(_) => SameGoesOn(s, Step(s, a), call, body);
  }

  lemma AnswerKeepsCalls(s: State, id: nat, body: Body, call: Call)
    requires Inv(s) && call in s.calls
    ensures call in Answer(s, id, body).calls && Kept(s.calls[call], Answer(s, id, body).calls[call])
  {
    hide IdsUnique, RepliesRestored;
    if id in s.pending { assert WaitsUnder(s, s.pending[id], id); }
    hide Listed;
  }

  lemma {:induction false} AtMostOneOutcome(before: seq<Action>, later: seq<Action>, call: Call)
    requires call in Run(before).calls
    ensures call in Run(before + later).calls
    ensures Kept(Run(before).calls[call], Run(before + later).calls[call])
    decreases |later|
  {
    hide Step, Inv;
    if later == [] {
      assert before + later == before;
    } else {
      var most, last := later[..|later| - 1], later[|later| - 1];
      AtMostOneOutcome(before, most, call);
      assert (before + later)[..|before + later| - 1] == before + most;
      MuxInvariant(before + most);
      StepKeepsCalls(Run(before + most), last, call);
    }
  }

  // ----- replies find their own call ----------------------------------------------------------

  /** The call was waiting under `id` when the Mac answered that id with `body`. */
  ghost predicate AnsweredAt(actions: seq<Action>, k: nat, call: Call, id: nat, body: Body) {
    && k < |actions| && actions[k] == MacReply(id, body)
    && var s := Run(actions[..k]);
       call in s.calls && s.calls[call].Waiting? && s.calls[call].id == id
  }

  predicate HasBody(p: Phase, body: Body) {
    || (p.Answered? && p.body == body)
    || (p.Done? && p.outcome.Reply? && p.outcome.body == body)
  }

  predicate Inherits(s: State, call: Call, q: Phase, body: Body) {
    Entered(q) && call in s.calls && Entered(s.calls[call]) && s.calls[call].id == q.id && HasBody(s.calls[call], body)
  }

  predicate AnswersNow(s: State, a: Action, call: Call, q: Phase, body: Body) {
    Entered(q) && a == MacReply(q.id, body) && call in s.calls && s.calls[call].Waiting? && s.calls[call].id == q.id
  }

  lemma StepAnswers(s: State, a: Action, call: Call, body: Body)
    requires Inv(s) && call in Step(s, a).calls && HasBody(Step(s, a).calls[call], body)
    ensures var q := Step(s, a).calls[call]; Inherits(s, call, q, body) || AnswersNow(s, a, call, q, body)
  {
    if a.MacReply? {
      AnswerAnswers(s, a.id, a.body, call, body);
    } else {
      OwnSteps(s, a, call, body);
      hide Step;
    }
  }

  lemma AnswerAnswers(s: State, id: nat, reply: Body, call: Call, body: Body)
    requires Inv(s) && call in Answer(s, id, reply).calls && HasBody(Answer(s, id, reply).calls[call], body)
    ensures var q := Answer(s, id, reply).calls[call];
      Inherits(s, call, q, body) || AnswersNow(s, MacReply(id, reply), call, q, body)
  {
    hide IdsUnique, RepliesRestored;
    if id in s.pending { assert WaitsUnder(s, s.pending[id], id); }
    hide Listed;
  }

  /** A call that has a reply got it from the Mac answering exactly the id under which
      that call waited, and its caller sees its own id again. */
  lemma {:induction false} ReplyFindsItsCall(actions: seq<Action>, call: Call, body: Body) returns (k: nat)
    requires call in Run(actions).calls && HasBody(Run(actions).calls[call], body)
    ensures Entered(Run(actions).calls[call])
    ensures AnsweredAt(actions, k, call, Run(actions).calls[call].id, body)
    ensures Run(actions).calls[call].Done? ==> Run(actions).calls[call].outcome == Reply(Run(actions).calls[call].original, body)
    decreases |actions|
  {
    hide Step, HasBody;
    var before, a := actions[..|actions| - 1], actions[|actions| - 1];
    var s, q := Run(before), Run(actions).calls[call];
    MuxInvariant(before);
    MuxInvariant(actions);
    StepAnswers(s, a, call, body);
    if Inherits(s, call, q, body) {
      k := ReplyFindsItsCall(before, call, body);
      assert actions[..k] == before[..k];
    } else {
      k := |before|;
      assert actions[..k] == before;
    }
    RestoredId(Run(actions), call, body);
  }

  lemma RestoredId(s: State, call: Call, body: Body)
    requires Inv(s) && call in s.calls && HasBody(s.calls[call], body)
    ensures s.calls[call].Done? ==> s.calls[call].outcome == Reply(s.calls[call].original, body)
  {
  }

  /** The Mac answering one id twice is the Mac answering it once. */
  lemma SecondReplyIgnored(actions: seq<Action>, id: nat, first: Body, second: Body)
    ensures var s := Step(Run(actions), MacReply(id, first)); Step(s, MacReply(id, second)) == s
  {
    MuxInvariant(actions);
  }

  // ----- close --------------------------------------------------------------------------------

  /** The first close code of the run, if any. */
  function FirstClose(actions: seq<Action>): Option<nat> {
    if actions == [] then None
    else if actions[0].Close? then Some(actions[0].code)
    else FirstClose(actions[1..])
  }

  lemma {:induction false} FirstCloseLast(actions: seq<Action>)
    requires actions != []
    ensures var before, a := actions[..|actions| - 1], actions[|actions| - 1];
      FirstClose(actions) == if FirstClose(before).None? && a.Close? then Some(a.code) else FirstClose(before)
    decreases |actions|
  {
    if |actions| == 1 {
      assert actions[1..] == [] && actions[..0] == [];
    } else {
      assert actions[1..][..|actions| - 2] == actions[..|actions| - 1][1..];
      FirstCloseLast(actions[1..]);
    }
  }

  lemma {:induction false} FirstCloseCodeWins(actions: seq<Action>)
    ensures Run(actions).closeCode == FirstClose(actions)
    decreases |actions|
  {
    if actions != [] {
      FirstCloseLast(actions);
      FirstCloseCodeWins(actions[..|actions| - 1]);
    }
  }

  /** Closing releases every waiting caller: each is told that no Mac is attached. */
  lemma CloseReleasesEveryone(actions: seq<Action>, code: nat, call: Call)
    requires call in Run(actions).calls && Run(actions).calls[call].Waiting?
    ensures var s := Step(Step(Run(actions), Close(code)), FailPending);
      && s.pending == map[]
      && InFlight(s, call) && Step(s, Wake(call)).calls[call] ==
           Done(s.calls[call].original, s.calls[call].id, Failed(s.calls[call].original, NotAttached))
  {
  }

  ghost predicate Quiet(s: State) {
    && s.closeCode.Some? && s.pending == map[]
    && forall call :: call in s.calls ==> !s.calls[call].Checked?
  }

  lemma StepKeepsQuiet(s: State, a: Action)
    requires Quiet(s)
    ensures Quiet(Step(s, a))
  {
  }

  predicate Stays(s: State, later: seq<Action>) {
    RunFrom(s, later).pending == map[]
  }

  lemma {:induction false} QuietRun(s: State, later: seq<Action>)
    requires Quiet(s)
    ensures Quiet(RunFrom(s, later)) && RunFrom(s, later).nextId == s.nextId
    decreases |later|
  {
    if later != [] {
      QuietRun(s, later[..|later| - 1]);
      StepKeepsQuiet(RunFrom(s, later[..|later| - 1]), later[|later| - 1]);
    }
  }

  /** A closed socket whose waiters were released stays empty in every later run exactly
      when no call stands between its closed check and its entry into the table. */
  lemma ClosedStaysEmptyExactly(s: State)
    requires s.closeCode.Some? && s.pending == map[]
    ensures (forall later :: Stays(s, later)) <==> (forall call :: call in s.calls ==> !s.calls[call].Checked?)
  {
    if forall call :: call in s.calls ==> !s.calls[call].Checked? {
      forall later ensures Stays(s, later) {
        QuietRun(s, later);
      }
    } else {
      var call :| call in s.calls && s.calls[call].Checked?;
      var later := [Enter(call)];
      assert later[..0] == [];
      assert RunFrom(s, later) == Admit(s, call);
      assert !Stays(s, later);
    }
  }

  /** The run that gets there: the check, then the close, then the entry. */
  lemma LateEntry(s: State, call: Call, original: JsonId, code: nat)
    requires s.closeCode.None? && call !in s.calls
    ensures var r := Step(Step(Step(Step(s, Check(call, original)), Close(code)), FailPending), Enter(call));
      && r.closeCode == Some(code) && r.pending == map[s.nextId := call]
      && Step(r, GiveUp(call)).pending == map[]
      && Step(r, GiveUp(call)).calls[call] == Done(original, s.nextId, Failed(original, Timeout))
  {
    var r := Step(Step(Step(Step(s, Check(call, original)), Close(code)), FailPending), Enter(call));
    assert r.pending == map[s.nextId := call];
  }

  /** No call is ever stuck: whatever its Mac does or does not do, its own two steps
      decide it, with an outcome under the id of its caller. */
  lemma EveryCallCanEnd(actions: seq<Action>, call: Call)
    requires call in Run(actions).calls
    ensures var r := Run(actions + [Enter(call), GiveUp(call)]);
      call in r.calls && OutcomeOf(r.calls[call]).Some?
      && OutcomeOf(r.calls[call]).value.id == Run(actions).calls[call].original
  {
    MuxInvariant(actions);
    RunLast(actions, Enter(call));
    RunLast(actions + [Enter(call)], GiveUp(call));
    assert actions + [Enter(call), GiveUp(call)] == actions + [Enter(call)] + [GiveUp(call)];
    EnterThenGiveUp(Run(actions), call);
    hide Run, Step, Inv;
  }

  lemma RunLast(before: seq<Action>, a: Action)
    ensures Run(before + [a]) == Step(Run(before), a)
  {
    hide Step;
    assert (before + [a])[..|before|] == before;
  }

  lemma EnterThenGiveUp(s: State, call: Call)
    requires Inv(s) && call in s.calls
    ensures var r := Step(Step(s, Enter(call)), GiveUp(call));
      call in r.calls && OutcomeOf(r.calls[call]).Some? && OutcomeOf(r.calls[call]).value.id == s.calls[call].original
  {
    hide Listed, IdsUnique;
    var e := Admit(s, call);
    assert call in e.calls && !e.calls[call].Checked? && e.calls[call].original == s.calls[call].original;
    AdmitKeepsInv(s, call);
    hide Admit;
    if InFlight(e, call) {
      assert Step(e, GiveUp(call)).calls[call] == Done(e.calls[call].original, e.calls[call].id, Failed(e.calls[call].original, Timeout));
    }
  }

  // ----- the object ---------------------------------------------------------------------------

  class Attached {
    var pending: map<nat, Call>
    var nextId: nat
    var closed: bool
    var code: nat
    var calls: map<Call, Phase>

    ghost function View(): State
      reads this
    {
      State(calls, pending, nextId, if closed then Some(code) else None)
    }

    constructor ()
      ensures View() == START
    {
      pending, nextId, closed, code, calls := map[], 1, false, 0, map[];
    }

    /** The first half of a call: refuse at once on a closed socket. */
    method BeginCall(call: Call, original: JsonId) returns (ok: bool)
      requires call !in calls
      modifies this
      ensures View() == Step(old(View()), Check(call, original))
      ensures ok <==> old(!closed)
    {
      if closed {
        calls := calls[call := Refused(original, NotAttached)];
        return false;
      }
      calls := calls[call := Checked(original)];
      return true;
    }

    /** The second half: take an id and a slot, or refuse past the bound. */
    method EnterCall(call: Call) returns (id: Option<nat>)
      requires call in calls && calls[call].Checked?
      modifies this
      ensures View() == Step(old(View()), Enter(call))
      ensures id.Some? <==> old(|pending|) < MAX_INFLIGHT_PER_SESSION
      ensures id.Some? ==> id.value == old(nextId) && pending == old(pending)[id.value := call]
    {
      var original := calls[call].original;
      if |pending| >= MAX_INFLIGHT_PER_SESSION {
        calls := calls[call := Refused(original, TooManyInFlight)];
        return None;
      }
      var rewritten := nextId;
      nextId := nextId + 1;
      pending := pending[rewritten := call];
      calls := calls[call := Waiting(original, rewritten)];
      return Some(rewritten);
    }

    method OnMacReply(id: nat, body: Body)
      requires Inv(View())
      modifies this
      ensures View() == Step(old(View()), MacReply(id, body))
    {
      if id in pending {
        var call := pending[id];
        pending := pending - {id};
        calls := calls[call := Answered(calls[call].original, id, body)];
      }
    }

    /** What the caller returns with: the reply that came, its sender dropped, or a
        failure of its own (the send failed, or the wait timed out). */
    method FinishCall(call: Call, failure: Option<CallError>) returns (outcome: Outcome)
      requires InFlight(View(), call)
      requires failure.None? ==> !calls[call].Waiting?
      requires failure.Some? ==> failure.value.Timeout? || failure.value.NotAttached?
      modifies this
      ensures View() == Step(old(View()),
        if failure.None? then Wake(call) else if failure.value.Timeout? then GiveUp(call) else SendFails(call))
      ensures calls[call].Done? && calls[call].outcome == outcome
      ensures outcome.id == old(calls[call].original)
    {
      var p := calls[call];
      if failure.Some? {
        outcome := Failed(p.original, failure.value);
      } else if p.Answered? {
        outcome := Reply(p.original, p.body);
      } else {
        outcome := Failed(p.original, NotAttached);
      }
      pending := pending - {p.id};
      calls := calls[call := Done(p.original, p.id, outcome)];
    }

    /** Idempotent; the first code wins. */
    method CloseWith(closeCode: nat)
      modifies this
      ensures View() == if old(closed) then old(View()) else Step(Step(old(View()), Close(closeCode)), FailPending)
    {
      if closed {
        return;
      }
      closed, code := true, closeCode;
      calls := map call | call in calls :: Drop(calls[call]);
      pending := map[];
    }
  }
}
