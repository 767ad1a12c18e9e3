/**
 * The approval gate (core/approval.py) under concurrent requests and answers: what happens under the gate's lock is one
 * step, and so is the end of a wait.
 */
module Approval {
  import opened Collections
  import opened CanonicalJson

  datatype ProposedAction = ProposedAction(kind: string, target: string, payload: string, summary: string)

  /** The text that is hashed stands for its hash: hashing is taken to be injective. */
  type Hash = string

  function DataOf(actions: seq<ProposedAction>): (r: seq<ActionData>)
    ensures |r| == |actions|
  {
    seq(|actions|, k requires 0 <= k < |actions| => ActionData(actions[k].kind, actions[k].target, actions[k].payload))
  }

  /** `compute_actions_hash`: the canonical JSON of kind, target and payload of every action. */
  function PayloadHash(actions: seq<ProposedAction>): Hash {
    ListText(DataOf(actions))
  }

  datatype Request = Request(id: string, source: string, runId: string, actions: seq<ProposedAction>) {
    function Kinds(): set<string> {
      set k | 0 <= k < |actions| :: actions[k].kind
    }

    function Hash(): Hash {
      PayloadHash(actions)
    }
  }

  datatype Mode = Auto | Interactive | Deny

  datatype Reason = AutoWhitelist | UserApproved | UserDenied | Timeout | DenyMode | NonWhitelistedKind

  datatype Verdict = Verdict(approved: bool, mode: Mode, reason: Reason, requestId: string)

  datatype Config = Config(mode: Mode, whitelist: set<string>, hasChannel: bool)

  /** `set` is the event; `result` the latest matching answer. */
  datatype Entry = Entry(set_: bool, result: bool)

  /** Where a call of `request` is. */
  datatype Phase =
    | Registering
    | Waiting
    | Woken
    | TimedOut
    | Removing(approved: bool, reason: Reason)
    | Recording(approved: bool, reason: Reason)
    | Done(verdict: Verdict)

  /** `channel`: a channel given with the call; `forced`: the override asked for an interactive decision, or failed. */
  datatype Call = Call(req: Request, channel: bool, forced: bool, phase: Phase, entry: Entry)

  datatype Audit = Audit(call: nat, requestId: string, source: string, runId: string, hash: Hash, kinds: set<string>, count: nat,
                         mode: Mode, approved: bool, reason: Reason)

  /** An answer and the call whose wait it matched. */
  datatype Answer = Answer(id: string, approved: bool, hash: Option<Hash>, matched: Option<nat>)

  /** Calls are numbered; `answers` is a record of all answers that nothing computes with. */
  datatype State = State(config: Config, calls: map<nat, Call>, pending: map<string, nat>, audit: seq<Audit>, answers: seq<Answer>)

  datatype Action =
    | Ask(n: nat, req: Request, channel: bool, forced: bool)
    | Register(n: nat)
    | Wake(n: nat)
    | TimeOut(n: nat)
    | Read(n: nat)
    | Remove(n: nat)
    | Record(n: nat)
    | Resolve(id: string, approved: bool, hash: Option<Hash>)

  function Fresh(config: Config): State {
    State(config, map[], map[], [], [])
  }

  /** What the mode settles without asking anybody. */
  function AtOnce(config: Config, req: Request, channel: bool, forced: bool): Option<(bool, Reason)> {
    if config.mode.Deny? then Some((false, DenyMode))
    else if config.mode.Auto? && !forced then
      if req.Kinds() <= config.whitelist then Some((true, AutoWhitelist))
      else if !channel && !config.hasChannel then Some((false, NonWhitelistedKind))
      else None
    else None
  }

  function FirstPhase(config: Config, req: Request, channel: bool, forced: bool): Phase {
    match AtOnce(config, req, channel, forced)
    case None => Registering
    case Some((approved, reason)) => Recording(approved, reason)
  }

  function At(s: State, n: nat, phase: Phase): State
    requires n in s.calls
  {
    s.(calls := s.calls[n := s.calls[n].(phase := phase)])
  }

  /** The call an answer reaches: the one registered under its id, when the hash is that call's. */
  function Matched(s: State, id: string, hash: Option<Hash>): Option<nat> {
    if id in s.pending && s.pending[id] in s.calls && hash == Some(s.calls[s.pending[id]].req.Hash()) then Some(s.pending[id])
    else None
  }

  function Answered(s: State, id: string, approved: bool, hash: Option<Hash>): State {
    var m := Matched(s, id, hash);
    var logged := s.(answers := s.answers + [Answer(id, approved, hash, m)]);
    if m.None? then logged else logged.(calls := s.calls[m.value := s.calls[m.value].(entry := Entry(true, approved))])
  }

  function AuditOf(config: Config, n: nat, req: Request, approved: bool, reason: Reason): Audit {
    Audit(n, req.id, req.source, req.runId, req.Hash(), req.Kinds(), |req.actions|, config.mode, approved, reason)
  }

  /** The effect of an action; one that is not possible changes nothing. */
  function Step(s: State, a: Action): State {
    match a
    case Resolve(id, approved, hash) => Answered(s, id, approved, hash)
    case Ask(n, req, channel, forced) =>
      if n in s.calls then s
      else s.(calls := s.calls[n := Call(req, channel, forced, FirstPhase(s.config, req, channel, forced), Entry(false, false))])
    case _ => if a.n in s.calls then CallStep(s, a, s.calls[a.n]) else s
  }

  function CallStep(s: State, a: Action, c: Call): State
    requires !a.Resolve? && !a.Ask? && a.n in s.calls && s.calls[a.n] == c
  {
    match a
    case Register(n) => if c.phase.Registering? then At(s.(pending := s.pending[c.req.id := n]), n, Waiting) else s
    case Wake(n) => if c.phase.Waiting? && c.entry.set_ then At(s, n, Woken) else s
    case TimeOut(n) => if c.phase.Waiting? then At(s, n, TimedOut) else s
    case Read(n) =>
      if c.phase.Woken? then At(s, n, Removing(c.entry.result, if c.entry.result then UserApproved else UserDenied))
      else if c.phase.TimedOut? then At(s, n, Removing(false, Timeout)) else s
    case Remove(n) =>
      if c.phase.Removing? then At(s.(pending := s.pending - {c.req.id}), n, Recording(c.phase.approved, c.phase.reason)) else s
    case Record(n) =>
      if c.phase.Recording? then
        At(s.(audit := s.audit + [AuditOf(s.config, n, c.req, c.phase.approved, c.phase.reason)]), n,
           Done(Verdict(c.phase.approved, s.config.mode, c.phase.reason, c.req.id)))
      else s
  }

  function Run(s: State, acts: seq<Action>): State
    decreases |acts|
  {
    if acts == [] then s else Run(Step(s, acts[0]), acts[1..])
  }

  lemma {:induction false} RunAppend(s: State, a: seq<Action>, b: seq<Action>)
    ensures Run(s, a + b) == Run(Run(s, a), b)
    decreases |a|
  {
    if a == [] {
      assert a + b == b;
    } else {
      assert (a + b)[1..] == a[1..] + b;
      RunAppend(Step(s, a[0]), a[1..], b);
    }
  }

  // ---- what a verdict stands for --------------------------------------------------------------

  predicate IsAnswer(a: Answer, n: nat, req: Request, approved: bool) {
    a.matched == Some(n) && a.approved == approved && a.id == req.id && a.hash == Some(req.Hash())
  }

  /** An answer with this call's own id and hash arrived while it was registered. */
  ghost predicate WasAnswered(s: State, n: nat, req: Request, approved: bool) {
    exists k :: 0 <= k < |s.answers| && IsAnswer(s.answers[k], n, req, approved)
  }

  /** A decision is the mode's own, a timeout, or an answer somebody gave. */
  ghost predicate Founded(s: State, n: nat, c: Call, approved: bool, reason: Reason) {
    match AtOnce(s.config, c.req, c.channel, c.forced)
    case Some(d) => (approved, reason) == d
    case None =>
      || (!approved && reason == Timeout)
      || (approved && reason == UserApproved && WasAnswered(s, n, c.req, true))
      || (!approved && reason == UserDenied && WasAnswered(s, n, c.req, false))
  }

  ghost predicate CallOk(s: State, n: nat) {
    n in s.calls ==>
      var c := s.calls[n];
      && (c.entry.set_ ==> WasAnswered(s, n, c.req, c.entry.result))
      && (c.phase.Registering? || c.phase.Waiting? || c.phase.Woken? || c.phase.TimedOut? || c.phase.Removing? ==>
            AtOnce(s.config, c.req, c.channel, c.forced).None?)
      && (c.phase.Woken? ==> c.entry.set_)
      && (c.phase.Removing? || c.phase.Recording? ==> Founded(s, n, c, c.phase.approved, c.phase.reason))
      && (c.phase.Done? ==>
            && Founded(s, n, c, c.phase.verdict.approved, c.phase.verdict.reason)
            && c.phase.verdict.mode == s.config.mode && c.phase.verdict.requestId == c.req.id)
  }

  /** A call is registered under its own request's id. */
  ghost predicate PendingOk(s: State) {
    forall id :: id in s.pending ==> s.pending[id] in s.calls && s.calls[s.pending[id]].req.id == id
  }

  ghost predicate Inv(s: State) {
    PendingOk(s) && forall n :: CallOk(s, n)
  }

  lemma AnswersGrow(s: State, t: State)
    requires s.answers <= t.answers
    ensures forall n, req, approved :: WasAnswered(s, n, req, approved) ==> WasAnswered(t, n, req, approved)
  {
    forall n, req, approved | WasAnswered(s, n, req, approved) ensures WasAnswered(t, n, req, approved) {
      var k :| 0 <= k < |s.answers| && IsAnswer(s.answers[k], n, req, approved);
      assert IsAnswer(t.answers[k], n, req, approved);
    }
  }

  /** A call that is not touched stays as it is. */
  lemma UntouchedCallOk(s: State, t: State, n: nat)
    requires CallOk(s, n) && s.answers <= t.answers && s.config == t.config
    requires (n in s.calls <==> n in t.calls) && (n in s.calls ==> s.calls[n] == t.calls[n])
    ensures CallOk(t, n)
  {
    AnswersGrow(s, t);
  }

  lemma StepKeepsPending(s: State, a: Action)
    requires PendingOk(s)
    ensures PendingOk(Step(s, a))
  {
  }

  lemma ResolveKeepsInv(s: State, a: Action)
    requires Inv(s) && a.Resolve?
    ensures Inv(Step(s, a))
  {
    var t := Step(s, a);
    StepKeepsPending(s, a);
    var m := Matched(s, a.id, a.hash);
    if m.Some? {
      assert IsAnswer(t.answers[|s.answers|], m.value, s.calls[m.value].req, a.approved);
    }
    forall n: nat ensures CallOk(t, n) {
      assert CallOk(s, n);
      if m == Some(n) {
        AnswersGrow(s, t);
      } else {
        UntouchedCallOk(s, t, n);
      }
    }
  }

  lemma AskedCallOk(s: State, a: Action)
    requires a.Ask? && CallOk(s, a.n)
    ensures CallOk(Step(s, a), a.n)
  {
  }

  /** The steps that only move the call on. */
  lemma MovedCallOk(s: State, a: Action)
    requires a.Register? || a.Wake? || a.TimeOut? || a.Remove?
    requires CallOk(s, a.n)
    ensures CallOk(Step(s, a), a.n)
  {
    if a.n in s.calls {
      SameFounding(s, Step(s, a), a.n);
    }
  }

  lemma SameFounding(s: State, t: State, n: nat)
    requires s.answers == t.answers && s.config == t.config && n in s.calls && n in t.calls
    requires s.calls[n].req == t.calls[n].req && s.calls[n].channel == t.calls[n].channel && s.calls[n].forced == t.calls[n].forced
    ensures forall approved, reason :: Founded(s, n, s.calls[n], approved, reason) ==> Founded(t, n, t.calls[n], approved, reason)
    ensures forall req, approved :: WasAnswered(s, n, req, approved) <==> WasAnswered(t, n, req, approved)
  {
  }

  lemma DecidedCallOk(s: State, a: Action)
    requires a.Read? || a.Record?
    requires CallOk(s, a.n)
    ensures CallOk(Step(s, a), a.n)
  {
    if a.n in s.calls {
      SameFounding(s, Step(s, a), a.n);
    }
  }

  lemma CallStepKeepsInv(s: State, a: Action)
    requires Inv(s) && !a.Resolve?
    ensures Inv(Step(s, a))
  {
    var t := Step(s, a);
    StepKeepsPending(s, a);
    assert CallOk(s, a.n);
    if a.Ask? {
      AskedCallOk(s, a);
    } else if a.Read? || a.Record? {
      DecidedCallOk(s, a);
    } else {
      MovedCallOk(s, a);
    }
    TouchesOne(s, a);
    forall n: nat ensures CallOk(t, n) {
      assert CallOk(s, n);
      if n != a.n {
        UntouchedCallOk(s, t, n);
      }
    }
  }

  /** A step of one call leaves every other call alone. */
  lemma TouchesOne(s: State, a: Action)
    requires !a.Resolve?
    ensures var t := Step(s, a);
      && t.config == s.config && t.answers == s.answers
      && forall n :: n != a.n ==> (n in s.calls <==> n in t.calls) && (n in s.calls ==> s.calls[n] == t.calls[n])
  {
  }

  lemma {:induction false} RunKeepsInv(s: State, acts: seq<Action>)
    requires Inv(s)
    ensures Inv(Run(s, acts))
    decreases |acts|
  {
    if acts != [] {
      if acts[0].Resolve? {
        ResolveKeepsInv(s, acts[0]);
      } else {
        CallStepKeepsInv(s, acts[0]);
      }
      RunKeepsInv(Step(s, acts[0]), acts[1..]);
    }
  }

  lemma {:induction false} ConfigStays(s: State, acts: seq<Action>)
    ensures Run(s, acts).config == s.config
    decreases |acts|
  {
    if acts != [] {
      ConfigStays(Step(s, acts[0]), acts[1..]);
    }
  }

  /**
   * In every interleaving a call that is done was approved only by the whitelist in auto mode, without a forced
   * interactive decision and for whitelisted kinds alone, or by an approving answer with its own id and hash that
   * arrived while it was registered; deny mode approves nothing.
   */
  lemma ApprovalsAreFounded(config: Config, acts: seq<Action>, n: nat)
    requires n in Run(Fresh(config), acts).calls && Run(Fresh(config), acts).calls[n].phase.Done?
    ensures var s := Run(Fresh(config), acts);
      var c := s.calls[n];
      var v := c.phase.verdict;
      && (v.approved <==> v.reason == AutoWhitelist || v.reason == UserApproved)
      && (v.reason == AutoWhitelist <==> config.mode == Auto && !c.forced && c.req.Kinds() <= config.whitelist)
      && (v.reason == UserApproved ==> config.mode != Deny && WasAnswered(s, n, c.req, true))
      && (v.reason == UserDenied ==> WasAnswered(s, n, c.req, false))
      && (v.reason == DenyMode <==> config.mode == Deny)
      && v.requestId == c.req.id && v.mode == config.mode
  {
    RunKeepsInv(Fresh(config), acts);
    ConfigStays(Fresh(config), acts);
    assert CallOk(Run(Fresh(config), acts), n);
  }

  /** An answer that matches was given for exactly the kinds, targets and payloads of the call's actions, in order. */
  lemma HashBindsActions(a: Request, b: Request)
    ensures a.Hash() == b.Hash() <==>
      |a.actions| == |b.actions|
      && forall k :: 0 <= k < |a.actions| ==>
           && a.actions[k].kind == b.actions[k].kind && a.actions[k].target == b.actions[k].target
           && a.actions[k].payload == b.actions[k].payload
  {
    var x, y := DataOf(a.actions), DataOf(b.actions);
    ListsApart(x, y);
    if x == y {
      forall k | 0 <= k < |a.actions|
        ensures a.actions[k].kind == b.actions[k].kind && a.actions[k].target == b.actions[k].target
        ensures a.actions[k].payload == b.actions[k].payload
      {
        assert x[k] == y[k];
      }
    }
  }

  // ---- answers that count, and answers that come too late -------------------------------------

  /** The phases of a call in which it is registered. */
  predicate Registered(phase: Phase) {
    phase.Waiting? || phase.Woken? || phase.TimedOut? || phase.Removing?
  }

  /** Whoever is registered under an id is between registration and removal. */
  ghost predicate RegisteredOk(s: State) {
    forall id :: id in s.pending ==> s.pending[id] in s.calls && Registered(s.calls[s.pending[id]].phase)
  }

  lemma StepKeepsRegistered(s: State, a: Action)
    requires PendingOk(s) && RegisteredOk(s)
    ensures RegisteredOk(Step(s, a))
  {
    var t := Step(s, a);
    forall id | id in t.pending ensures t.pending[id] in t.calls && Registered(t.calls[t.pending[id]].phase) {
      if id in s.pending {
        assert s.pending[id] in s.calls && s.calls[s.pending[id]].req.id == id;
      }
    }
  }

  lemma {:induction false} RunKeepsRegistered(s: State, acts: seq<Action>)
    requires PendingOk(s) && RegisteredOk(s)
    ensures RegisteredOk(Run(s, acts)) && PendingOk(Run(s, acts))
    decreases |acts|
  {
    if acts != [] {
      StepKeepsPending(s, acts[0]);
      StepKeepsRegistered(s, acts[0]);
      RunKeepsRegistered(Step(s, acts[0]), acts[1..]);
    }
  }

  predicate SamePhase(s: State, t: State, n: nat) {
    (n in s.calls <==> n in t.calls) && (n in s.calls ==> s.calls[n].phase == t.calls[n].phase)
  }

  /** Whatever happens afterwards, the call stands where it would stand without the answer. */
  ghost predicate Ignored(s: State, n: nat, answer: Action) {
    forall acts :: SamePhase(Run(s, acts), Run(Step(s, answer), acts), n)
  }

  /** Too late: the wait is over without an answer, or the answer has been read. */
  predicate TooLate(phase: Phase) {
    phase.TimedOut? || phase.Removing? || phase.Recording? || phase.Done?
  }

  /** Two states that differ in no more than the entry of a call that no longer reads it. */
  ghost predicate SameButEntry(s: State, t: State, n: nat) {
    && s.config == t.config && s.pending == t.pending
    && n in s.calls && n in t.calls && TooLate(s.calls[n].phase)
    && t.calls == s.calls[n := s.calls[n].(entry := t.calls[n].entry)]
  }

  lemma LateAsk(s: State, t: State, n: nat, a: Action)
    requires SameButEntry(s, t, n) && a.Ask?
    ensures SameButEntry(Step(s, a), Step(t, a), n)
  {
    assert a.n in s.calls <==> a.n in t.calls;
  }

  /** The call's own steps do not look at the entry any more. */
  lemma LateOwn(s: State, t: State, n: nat, a: Action)
    requires SameButEntry(s, t, n) && !a.Resolve? && !a.Ask? && a.n == n
    ensures SameButEntry(Step(s, a), Step(t, a), n)
  {
    assert Step(s, a) == CallStep(s, a, s.calls[n]) && Step(t, a) == CallStep(t, a, t.calls[n]);
  }

  lemma LateOther(s: State, t: State, n: nat, a: Action)
    requires SameButEntry(s, t, n) && !a.Resolve? && !a.Ask? && a.n != n
    ensures SameButEntry(Step(s, a), Step(t, a), n)
  {
    if a.n in s.calls {
      SameOwnStep(s, t, n, a, s.calls[a.n]);
    }
  }

  lemma SameOwnStep(s: State, t: State, n: nat, a: Action, c: Call)
    requires SameButEntry(s, t, n) && !a.Resolve? && !a.Ask? && a.n != n && a.n in s.calls && s.calls[a.n] == c
    ensures a.n in t.calls && t.calls[a.n] == c && SameButEntry(CallStep(s, a, c), CallStep(t, a, c), n)
  {
    var s', t' := CallStep(s, a, c), CallStep(t, a, c);
    OnlyItsCall(s, a, c);
    OnlyItsCall(t, a, c);
    assert s'.calls[a.n] == t'.calls[a.n];
    assert t'.calls == s'.calls[n := s'.calls[n].(entry := t.calls[n].entry)];
  }

  lemma OnlyItsCall(s: State, a: Action, c: Call)
    requires !a.Resolve? && !a.Ask? && a.n in s.calls && s.calls[a.n] == c
    ensures var t := CallStep(s, a, c); a.n in t.calls && t.config == s.config && t.calls == s.calls[a.n := t.calls[a.n]]
  {
  }

  lemma LateStep(s: State, t: State, n: nat, a: Action)
    requires SameButEntry(s, t, n) && !a.Resolve?
    ensures SameButEntry(Step(s, a), Step(t, a), n)
  {
    if a.Ask? {
      LateAsk(s, t, n, a);
    } else if a.n == n {
      LateOwn(s, t, n, a);
    } else {
      LateOther(s, t, n, a);
    }
  }

  lemma LateResolve(s: State, t: State, n: nat, a: Action)
    requires SameButEntry(s, t, n) && a.Resolve?
    ensures SameButEntry(Step(s, a), Step(t, a), n)
  {
    var k := Matched(s, a.id, a.hash);
    assert k == Matched(t, a.id, a.hash);
    var s', t' := Step(s, a), Step(t, a);
    if k.Some? && k.value != n {
      assert s.calls[k.value] == t.calls[k.value];
      assert s'.calls[k.value] == t'.calls[k.value];
    }
    assert t'.calls == s'.calls[n := s'.calls[n].(entry := t'.calls[n].entry)];
  }

  lemma {:induction false} LateRun(s: State, t: State, n: nat, acts: seq<Action>)
    requires SameButEntry(s, t, n)
    ensures SameButEntry(Run(s, acts), Run(t, acts), n)
    decreases |acts|
  {
    if acts != [] {
      if acts[0].Resolve? {
        LateResolve(s, t, n, acts[0]);
      } else {
        LateStep(s, t, n, acts[0]);
      }
      LateRun(Step(s, acts[0]), Step(t, acts[0]), n, acts[1..]);
    }
  }

  lemma LateAnswerIgnored(s: State, n: nat, answer: Action)
    requires answer.Resolve? && Matched(s, answer.id, answer.hash) == Some(n) && TooLate(s.calls[n].phase)
    ensures Ignored(s, n, answer)
  {
    forall acts ensures SamePhase(Run(s, acts), Run(Step(s, answer), acts), n) {
      LateRun(s, Step(s, answer), n, acts);
    }
  }

  /** A call that still waits, or has been woken and not yet read, takes an answer other than the one it has. */
  lemma TimelyAnswerCounts(s: State, n: nat, answer: Action)
    requires answer.Resolve? && Matched(s, answer.id, answer.hash) == Some(n)
    requires s.calls[n].phase.Waiting? || s.calls[n].phase.Woken?
    requires s.calls[n].entry != Entry(true, answer.approved)
    requires s.calls[n].phase.Woken? ==> s.calls[n].entry.set_
    ensures !Ignored(s, n, answer)
  {
    var acts := [Wake(n), Read(n)];
    var t := Step(s, answer);
    RunOfTwo(s, acts);
    RunOfTwo(t, acts);
    assert Run(t, acts).calls[n].phase == Removing(answer.approved, if answer.approved then UserApproved else UserDenied);
    assert !SamePhase(Run(s, acts), Run(t, acts), n);
  }

  /**
   * In every reachable state an answer that matches a call is accepted; some answer to it still changes what becomes
   * of the call exactly while the call waits or has been woken without reading, and every one is ignored exactly
   * when the wait has timed out or the answer has been read and the entry is about to be removed.
   */
  lemma AnswersCountIff(config: Config, acts: seq<Action>, id: string, hash: Option<Hash>, n: nat)
    requires Matched(Run(Fresh(config), acts), id, hash) == Some(n)
    ensures var s := Run(Fresh(config), acts);
      var phase := s.calls[n].phase;
      && Registered(phase)
      && ((exists approved :: !Ignored(s, n, Resolve(id, approved, hash))) <==> phase.Waiting? || phase.Woken?)
      && ((forall approved :: Ignored(s, n, Resolve(id, approved, hash))) <==> phase.TimedOut? || phase.Removing?)
  {
    var s := Run(Fresh(config), acts);
    RunKeepsRegistered(Fresh(config), acts);
    RunKeepsInv(Fresh(config), acts);
    assert CallOk(s, n);
    var c := s.calls[n];
    if TooLate(c.phase) {
      forall approved ensures Ignored(s, n, Resolve(id, approved, hash)) {
        LateAnswerIgnored(s, n, Resolve(id, approved, hash));
      }
    } else {
      var approved := !c.entry.result;
      TimelyAnswerCounts(s, n, Resolve(id, approved, hash));
    }
  }

  /** A call whose wait times out, an approving answer before or after that is read, and the rest of the call. */
  function LateRunOf(req: Request, readFirst: bool): seq<Action> {
    FirstOf(req) + MiddleOf(req, readFirst) + LastOf()
  }

  function FirstOf(req: Request): (r: seq<Action>)
    ensures |r| == 3
  {
    [Ask(0, req, true, false), Register(0), TimeOut(0)]
  }

  function MiddleOf(req: Request, readFirst: bool): (r: seq<Action>)
    ensures |r| == 2
  {
    var answer := Resolve(req.id, true, Some(req.Hash()));
    if readFirst then [Read(0), answer] else [answer, Read(0)]
  }

  function LastOf(): (r: seq<Action>)
    ensures |r| == 2
  {
    [Remove(0), Record(0)]
  }

  const Asking := Fresh(Config(Interactive, {}, true))

  lemma WaitTimesOut(req: Request) returns (s: State)
    ensures s == Run(Asking, FirstOf(req))
    ensures s.config == Config(Interactive, {}, true) && s.pending == map[req.id := 0] && s.answers == []
    ensures s.calls == map[0 := Call(req, true, false, TimedOut, Entry(false, false))]
  {
    var acts := FirstOf(req);
    RunOfThree(Asking, acts);
    s := Step(Step(Step(Asking, acts[0]), acts[1]), acts[2]);
  }

  lemma LateAnswerRead(s: State, req: Request, readFirst: bool) returns (t: State)
    requires s.config == Config(Interactive, {}, true) && s.pending == map[req.id := 0] && s.answers == []
    requires s.calls == map[0 := Call(req, true, false, TimedOut, Entry(false, false))]
    ensures t == Run(s, MiddleOf(req, readFirst))
    ensures t.config == s.config && t.answers == [Answer(req.id, true, Some(req.Hash()), Some(0))]
    ensures t.calls == map[0 := Call(req, true, false, Removing(false, Timeout), Entry(true, true))]
  {
    RunOfTwo(s, MiddleOf(req, readFirst));
    t := Step(Step(s, MiddleOf(req, readFirst)[0]), MiddleOf(req, readFirst)[1]);
  }

  /** For any request both late answers are reached: accepted by the gate, and the verdict is the timeout all the same. */
  lemma LateAnswerReached(req: Request, readFirst: bool)
    ensures var s := Run(Asking, LateRunOf(req, readFirst));
      && s.answers == [Answer(req.id, true, Some(req.Hash()), Some(0))]
      && 0 in s.calls && s.calls[0].phase == Done(Verdict(false, Interactive, Timeout, req.id))
  {
    var s := WaitTimesOut(req);
    var t := LateAnswerRead(s, req, readFirst);
    RunOfTwo(t, LastOf());
    RunAppend(Asking, FirstOf(req), MiddleOf(req, readFirst));
    RunAppend(Asking, FirstOf(req) + MiddleOf(req, readFirst), LastOf());
  }

  lemma RunOfTwo(s: State, acts: seq<Action>)
    requires |acts| == 2
    ensures Run(s, acts) == Step(Step(s, acts[0]), acts[1])
  {
    var x, last := Step(s, acts[0]), acts[1..];
    assert last[0] == acts[1] && last[1..] == [];
    assert Run(x, last) == Run(Step(x, last[0]), last[1..]);
  }

  lemma RunOfThree(s: State, acts: seq<Action>)
    requires |acts| == 3
    ensures Run(s, acts) == Step(Step(Step(s, acts[0]), acts[1]), acts[2])
  {
    RunOfTwo(Step(s, acts[0]), acts[1..]);
  }

  // ---- the audit ------------------------------------------------------------------------------

  function AuditFor(audit: seq<Audit>, n: nat): seq<Audit> {
    if audit == [] then [] else (if audit[0].call == n then [audit[0]] else []) + AuditFor(audit[1..], n)
  }

  lemma {:induction false} AuditForSnoc(audit: seq<Audit>, e: Audit, n: nat)
    ensures AuditFor(audit + [e], n) == AuditFor(audit, n) + if e.call == n then [e] else []
  {
    if audit == [] {
      assert [e][1..] == [];
    } else {
      assert (audit + [e])[1..] == audit[1..] + [e];
      AuditForSnoc(audit[1..], e, n);
    }
  }

  /** One audit entry for a call that is done, which repeats its verdict, and none before. */
  ghost predicate Audited(s: State, n: nat) {
    AuditFor(s.audit, n) ==
      if n in s.calls && s.calls[n].phase.Done? then
        [AuditOf(s.config, n, s.calls[n].req, s.calls[n].phase.verdict.approved, s.calls[n].phase.verdict.reason)]
      else []
  }

  lemma StepKeepsAudited(s: State, a: Action, n: nat)
    requires Audited(s, n)
    ensures Audited(Step(s, a), n)
  {
    if a.Record? {
      RecordKeepsAudited(s, a, n);
    } else if a.Resolve? {
      ResolveKeepsAudited(s, a, n);
    } else if a.n != n {
      TouchesOne(s, a);
      OthersKeepAudit(s, a);
    } else {
      OwnKeepsAudited(s, a, n);
    }
  }

  lemma OthersKeepAudit(s: State, a: Action)
    requires !a.Record? && !a.Resolve?
    ensures Step(s, a).audit == s.audit && Step(s, a).config == s.config
  {
  }

  lemma ResolveKeepsAudited(s: State, a: Action, n: nat)
    requires a.Resolve? && Audited(s, n)
    ensures Audited(Step(s, a), n)
  {
    var t := Step(s, a);
    assert t.audit == s.audit && t.config == s.config && (n in s.calls <==> n in t.calls);
    if n in s.calls {
      assert t.calls[n].phase == s.calls[n].phase && t.calls[n].req == s.calls[n].req;
    }
  }

  /** Before the record is written the call is not done, and a call that is done does not move. */
  lemma OwnKeepsAudited(s: State, a: Action, n: nat)
    requires !a.Record? && !a.Resolve? && a.n == n && Audited(s, n)
    ensures Audited(Step(s, a), n)
  {
    OthersKeepAudit(s, a);
    var t := Step(s, a);
    if n in s.calls {
      assert s.calls[n].phase.Done? ==> t == s;
      assert n in t.calls && t.calls[n].req == s.calls[n].req;
      assert t.calls[n].phase.Done? ==> s.calls[n].phase.Done?;
    }
  }

  lemma RecordKeepsAudited(s: State, a: Action, n: nat)
    requires a.Record? && Audited(s, n)
    ensures Audited(Step(s, a), n)
  {
    var t := Step(s, a);
    if t.audit != s.audit {
      AuditForSnoc(s.audit, t.audit[|s.audit|], n);
    }
  }

  lemma {:induction false} OneAuditEach(s: State, acts: seq<Action>, n: nat)
    requires Audited(s, n)
    ensures Audited(Run(s, acts), n)
    decreases |acts|
  {
    if acts != [] {
      StepKeepsAudited(s, acts[0], n);
      OneAuditEach(Step(s, acts[0]), acts[1..], n);
    }
  }

  // ---- requests do not influence one another --------------------------------------------------

  /** The actions that concern the call `n` with request id `id`. */
  predicate Concerns(a: Action, n: nat, id: string) {
    if a.Resolve? then a.id == id else a.n == n
  }

  function Only(acts: seq<Action>, n: nat, id: string): seq<Action> {
    if acts == [] then []
    else (if Concerns(acts[0], n, id) then [acts[0]] else []) + Only(acts[1..], n, id)
  }

  /** Only call `n` uses the request id `id`. */
  predicate OwnId(acts: seq<Action>, n: nat, id: string) {
    forall k :: 0 <= k < |acts| && acts[k].Ask? ==> (acts[k].n == n <==> acts[k].req.id == id)
  }

  /** What the call sees: its own state, and whether it is the one registered. */
  ghost predicate SameView(s: State, t: State, n: nat, id: string) {
    && s.config == t.config
    && (n in s.calls <==> n in t.calls) && (n in s.calls ==> s.calls[n] == t.calls[n] && s.calls[n].req.id == id)
    && (id in s.pending <==> id in t.pending) && (id in s.pending ==> s.pending[id] == n == t.pending[id] && n in s.calls)
    && AuditFor(s.audit, n) == AuditFor(t.audit, n)
  }

  /** No other call has this id. */
  ghost predicate OthersApart(s: State, n: nat, id: string) {
    forall m :: m in s.calls && m != n ==> s.calls[m].req.id != id
  }

  /** An answer to this id. */
  lemma OwnAnswer(s: State, t: State, a: Action, n: nat, id: string)
    requires SameView(s, t, n, id) && a.Resolve? && a.id == id
    ensures SameView(Step(s, a), Step(t, a), n, id)
  {
  }

  lemma OwnAsk(s: State, t: State, a: Action, n: nat, id: string)
    requires SameView(s, t, n, id) && a.Ask? && a.n == n && a.req.id == id
    ensures SameView(Step(s, a), Step(t, a), n, id)
  {
  }

  lemma OwnRecord(s: State, t: State, a: Action, n: nat, id: string)
    requires SameView(s, t, n, id) && a.Record? && a.n == n
    ensures SameView(Step(s, a), Step(t, a), n, id)
  {
    if n in s.calls && s.calls[n].phase.Recording? {
      var c := s.calls[n];
      var e := AuditOf(s.config, n, c.req, c.phase.approved, c.phase.reason);
      AuditForSnoc(s.audit, e, n);
      AuditForSnoc(t.audit, e, n);
    }
  }

  lemma OwnMove(s: State, t: State, a: Action, n: nat, id: string)
    requires (a.Wake? || a.TimeOut? || a.Read?) && a.n == n
    requires SameView(s, t, n, id)
    ensures SameView(Step(s, a), Step(t, a), n, id)
  {
  }

  lemma OwnEntry(s: State, t: State, a: Action, n: nat, id: string)
    requires (a.Register? || a.Remove?) && a.n == n
    requires SameView(s, t, n, id)
    ensures SameView(Step(s, a), Step(t, a), n, id)
  {
  }

  lemma OwnStep(s: State, t: State, a: Action, n: nat, id: string)
    requires SameView(s, t, n, id) && Concerns(a, n, id) && OwnId([a], n, id)
    ensures SameView(Step(s, a), Step(t, a), n, id)
  {
    assert [a][0] == a;
    match a
    case Resolve(_, _, _) => OwnAnswer(s, t, a, n, id);
    case Ask(_, _, _, _) => OwnAsk(s, t, a, n, id);
    case Record(_) => OwnRecord(s, t, a, n, id);
    case Register(_) => OwnEntry(s, t, a, n, id);
    case Remove(_) => OwnEntry(s, t, a, n, id);
    case _ => OwnMove(s, t, a, n, id);
  }

  /** What a step of another call, or an answer to another id, leaves of the view. */
  lemma OtherStepUnseen(s: State, a: Action, n: nat, id: string)
    requires PendingOk(s) && OthersApart(s, n, id) && (n in s.calls ==> s.calls[n].req.id == id)
    requires !Concerns(a, n, id) && OwnId([a], n, id)
    ensures var u := Step(s, a);
      && u.config == s.config
      && (n in s.calls <==> n in u.calls) && (n in s.calls ==> s.calls[n] == u.calls[n])
      && (id in s.pending <==> id in u.pending) && (id in s.pending ==> s.pending[id] == u.pending[id])
  {
    assert [a][0] == a;
    if !a.Resolve? {
      TouchesOne(s, a);
    }
  }

  lemma OtherStepAudit(s: State, a: Action, n: nat, id: string)
    requires !Concerns(a, n, id)
    ensures AuditFor(Step(s, a).audit, n) == AuditFor(s.audit, n)
  {
    if a.Record? && a.n in s.calls && s.calls[a.n].phase.Recording? {
      var c := s.calls[a.n];
      AuditForSnoc(s.audit, AuditOf(s.config, a.n, c.req, c.phase.approved, c.phase.reason), n);
    }
  }

  lemma OtherStep(s: State, t: State, a: Action, n: nat, id: string)
    requires SameView(s, t, n, id) && PendingOk(s) && OthersApart(s, n, id) && !Concerns(a, n, id) && OwnId([a], n, id)
    ensures SameView(Step(s, a), t, n, id)
  {
    OtherStepUnseen(s, a, n, id);
    OtherStepAudit(s, a, n, id);
  }

  lemma StayApart(s: State, a: Action, n: nat, id: string)
    requires OthersApart(s, n, id) && OwnId([a], n, id)
    ensures OthersApart(Step(s, a), n, id)
  {
    assert [a][0] == a;
    forall m | m in Step(s, a).calls && m != n ensures Step(s, a).calls[m].req.id != id {
      if !a.Ask? {
        assert m in s.calls;
      }
    }
  }

  /**
   * Requests with an id of their own do not influence one another: whatever happens to the others, a call ends up
   * as it would if only its own steps and the answers to its own id had taken place.
   */
  lemma {:induction false} CallsAreIndependent(s: State, t: State, acts: seq<Action>, n: nat, id: string)
    requires SameView(s, t, n, id) && PendingOk(s) && OthersApart(s, n, id) && OwnId(acts, n, id)
    ensures SameView(Run(s, acts), Run(t, Only(acts, n, id)), n, id)
    decreases |acts|
  {
    if acts != [] {
      var a, rest := acts[0], acts[1..];
      assert OwnId([a], n, id) && OwnId(rest, n, id);
      StepKeepsPending(s, a);
      StayApart(s, a, n, id);
      if Concerns(a, n, id) {
        OwnStep(s, t, a, n, id);
        assert ([a] + Only(rest, n, id))[1..] == Only(rest, n, id);
        CallsAreIndependent(Step(s, a), Step(t, a), rest, n, id);
      } else {
        OtherStep(s, t, a, n, id);
        assert [] + Only(rest, n, id) == Only(rest, n, id);
        CallsAreIndependent(Step(s, a), t, rest, n, id);
      }
    }
  }

  /** From the start: the call's state and its audit are those of the run with nobody else in it. */
  lemma AloneOrNot(config: Config, acts: seq<Action>, n: nat, id: string)
    requires OwnId(acts, n, id) && n in Run(Fresh(config), acts).calls
    ensures var alone := Run(Fresh(config), Only(acts, n, id));
      n in alone.calls && alone.calls[n] == Run(Fresh(config), acts).calls[n]
  {
    CallsAreIndependent(Fresh(config), Fresh(config), acts, n, id);
  }
}
