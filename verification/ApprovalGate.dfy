/** `ApprovalGate` as written (core/approval.py); between any two of its steps other threads may ask and answer. */
module ApprovalGates {
  import opened Collections
  import opened Approval

  predicate StepOf(a: Action, n: nat) {
    !a.Resolve? && a.n == n
  }

  /** The steps of one call of `request`. */
  function Own(acts: seq<Action>, n: nat): seq<Action> {
    if acts == [] then [] else (if StepOf(acts[0], n) then [acts[0]] else []) + Own(acts[1..], n)
  }

  lemma {:induction false} OwnAppend(a: seq<Action>, b: seq<Action>, n: nat)
    ensures Own(a + b, n) == Own(a, n) + Own(b, n)
  {
    if a == [] {
      assert a + b == b;
    } else {
      OwnAppend(a[1..], b, n);
      assert (a + b)[0] == a[0] && (a + b)[1..] == a[1..] + b;
      var first := if StepOf(a[0], n) then [a[0]] else [];
      assert first + (Own(a[1..], n) + Own(b, n)) == (first + Own(a[1..], n)) + Own(b, n);
    }
  }

  /** Going on with a run: the others' steps and then one of this call's own. */
  lemma GoesOn(start: State, trace: seq<Action>, others: seq<Action>, a: Action, n: nat)
    requires Own(others, n) == [] && StepOf(a, n)
    ensures Run(start, trace + others + [a]) == Step(Run(Run(start, trace), others), a)
    ensures Own(trace + others + [a], n) == Own(trace, n) + [a]
  {
    RunAppend(start, trace, others);
    OwnAppend(trace, others, n);
    RunSnoc(start, trace + others, a);
    OwnAppend(trace + others, [a], n);
    assert [a][1..] == [];
  }

  lemma RunSnoc(s: State, acts: seq<Action>, a: Action)
    ensures Run(s, acts + [a]) == Step(Run(s, acts), a)
  {
    RunAppend(s, acts, [a]);
    assert [a][1..] == [];
  }

  /** Others change nothing of a call but the answer in its entry. */
  lemma OthersKeepCall(s: State, a: Action, n: nat)
    requires !StepOf(a, n) && n in s.calls
    ensures n in Step(s, a).calls && Step(s, a).config == s.config
    ensures Step(s, a).calls[n] == s.calls[n].(entry := Step(s, a).calls[n].entry)
  {
    if !a.Resolve? {
      TouchesOne(s, a);
    }
  }

  class ApprovalGate {
    const config: Config
    var calls: map<nat, Call>
    var pending: map<string, nat>
    var audit: seq<Audit>
    ghost var answers: seq<Answer>

    ghost function State_(): State
      reads this
    {
      State(config, calls, pending, audit, answers)
    }

    constructor (config: Config)
      ensures this.config == config && State_() == Fresh(config)
    {
      this.config := config;
      calls, pending, audit, answers := map[], map[], [], [];
    }

    /** True when the answer matched a registered request by id and hash, and woke its wait. */
    method Resolve(id: string, approved: bool, hash: Option<Hash>) returns (matched: bool)
      modifies this
      ensures State_() == Step(old(State_()), Action.Resolve(id, approved, hash))
      ensures matched <==> Matched(old(State_()), id, hash).Some?
    {
      matched := id in pending && pending[id] in calls && hash == Some(calls[pending[id]].req.Hash());
      answers := answers + [Answer(id, approved, hash, Matched(State_(), id, hash))];
      if matched {
        var n := pending[id];
        calls := calls[n := calls[n].(entry := Entry(true, approved))];
      }
    }

    /** Any steps of other calls and any answers. */
    method Others(n: nat) returns (ghost acts: seq<Action>)
      requires n in calls
      modifies this
      ensures n in calls && State_() == Run(old(State_()), acts) && Own(acts, n) == []
      ensures calls[n] == old(calls[n]).(entry := calls[n].entry)
    {
      acts := [];
      var rounds: int := *;
      for k := 0 to if rounds > 0 then rounds else 0
        invariant n in calls && State_() == Run(old(State_()), acts) && Own(acts, n) == []
        invariant calls[n] == old(calls[n]).(entry := calls[n].entry)
      {
        var a: Action := *;
        if !StepOf(a, n) {
          OthersKeepCall(State_(), a, n);
          RunSnoc(old(State_()), acts, a);
          OwnAppend(acts, [a], n);
          assert [a][1..] == [];
          acts := acts + [a];
          Perform(a);
        }
      }
    }

    method Perform(a: Action)
      modifies this
      ensures State_() == Step(old(State_()), a)
    {
      if a.Resolve? {
        var _ := Resolve(a.id, a.approved, a.hash);
      } else {
        var next := Step(State(config, calls, pending, audit, []), a);
        calls, pending, audit := next.calls, next.pending, next.audit;
      }
    }

    method MoveTo(n: nat, phase: Phase)
      requires n in calls
      modifies this
      ensures State_() == At(old(State_()), n, phase)
    {
      calls := calls[n := calls[n].(phase := phase)];
    }

    /** `_record`: the verdict and its audit entry. */
    method Enter(n: nat, approved: bool, reason: Reason) returns (verdict: Verdict)
      requires n in calls && calls[n].phase == Recording(approved, reason)
      modifies this
      ensures State_() == Step(old(State_()), Record(n))
      ensures verdict == Verdict(approved, config.mode, reason, old(calls[n]).req.id)
      ensures n in calls && calls[n].phase == Done(verdict)
    {
      var req := calls[n].req;
      verdict := Verdict(approved, config.mode, reason, req.id);
      audit := audit + [AuditOf(config, n, req, approved, reason)];
      MoveTo(n, Done(verdict));
    }

    /** `_interactive` up to the removal of the entry: register, wait, read the answer under the lock, remove. */
    method Ask(n: nat) returns (approved: bool, reason: Reason, ghost trace: seq<Action>)
      requires n in calls && calls[n].phase.Registering?
      modifies this
      ensures n in calls && calls[n].phase == Recording(approved, reason) && calls[n].req == old(calls[n]).req
      ensures State_() == Run(old(State_()), trace)
      ensures Own(trace, n) == [Register(n), Wake(n), Read(n), Remove(n)] || Own(trace, n) == [Register(n), TimeOut(n), Read(n), Remove(n)]
    {
      ghost var start := State_();
      var id := calls[n].req.id;
      ghost var others := Others(n);
      GoesOn(start, [], others, Register(n), n);
      pending := pending[id := n];
      MoveTo(n, Waiting);
      trace := [] + others + [Register(n)];
      others := Others(n);
      ghost var more;
      approved, reason, more := Await(n);
      RunAppend(start, trace, others);
      OwnAppend(trace, others, n);
      RunAppend(start, trace + others, more);
      OwnAppend(trace + others, more, n);
      trace := trace + others + more;
    }

    /** The end of the wait: the answer if the event is set by then, a timeout otherwise. */
    method Await(n: nat) returns (approved: bool, reason: Reason, ghost trace: seq<Action>)
      requires n in calls && calls[n].phase.Waiting?
      modifies this
      ensures n in calls && calls[n].phase == Recording(approved, reason) && calls[n].req == old(calls[n]).req
      ensures State_() == Run(old(State_()), trace)
      ensures Own(trace, n) == [Wake(n), Read(n), Remove(n)] || Own(trace, n) == [TimeOut(n), Read(n), Remove(n)]
    {
      ghost var start := State_();
      var gotAnswer: bool := *;
      gotAnswer := gotAnswer && calls[n].entry.set_;
      ghost var first := if gotAnswer then Wake(n) else TimeOut(n);
      GoesOn(start, [], [], first, n);
      MoveTo(n, if gotAnswer then Woken else TimedOut);
      trace := [] + [] + [first];
      ghost var more;
      approved, reason, more := TakeAnswer(n);
      RunAppend(start, trace, more);
      OwnAppend(trace, more, n);
      trace := trace + more;
    }

    /** Under the lock: the latest answer, or the timeout; then the entry is removed. */
    method TakeAnswer(n: nat) returns (approved: bool, reason: Reason, ghost trace: seq<Action>)
      requires n in calls && (calls[n].phase.Woken? || calls[n].phase.TimedOut?)
      modifies this
      ensures n in calls && calls[n].phase == Recording(approved, reason) && calls[n].req == old(calls[n]).req
      ensures State_() == Run(old(State_()), trace) && Own(trace, n) == [Read(n), Remove(n)]
    {
      ghost var start := State_();
      var gotAnswer := calls[n].phase.Woken?;
      trace := [];
      ghost var others := Others(n);
      GoesOn(start, trace, others, Read(n), n);
      if !gotAnswer {
        approved, reason := false, Timeout;
      } else {
        approved, reason := calls[n].entry.result, if calls[n].entry.result then UserApproved else UserDenied;
      }
      MoveTo(n, Removing(approved, reason));
      trace := trace + others + [Read(n)];
      others := Others(n);
      GoesOn(start, trace, others, Remove(n), n);
      pending := pending - {calls[n].req.id};
      MoveTo(n, Recording(approved, reason));
      trace := trace + others + [Remove(n)];
    }

    /** `request`: always a verdict, the one the call is done with. */
    method Request(n: nat, req: Request, channel: bool, forced: bool) returns (verdict: Verdict, ghost trace: seq<Action>)
      requires n !in calls
      modifies this
      ensures State_() == Run(old(State_()), trace)
      ensures n in calls && calls[n].phase == Done(verdict) && verdict.requestId == req.id
    {
      ghost var start := State_();
      var decided := AtOnce(config, req, channel, forced);
      calls := calls[n := Call(req, channel, forced, FirstPhase(config, req, channel, forced), Entry(false, false))];
      RunSnoc(start, [], Action.Ask(n, req, channel, forced));
      trace := [Action.Ask(n, req, channel, forced)];
      assert [] + trace == trace;
      var approved, reason;
      if decided.Some? {
        approved, reason := decided.value.0, decided.value.1;
      } else {
        ghost var more;
        approved, reason, more := Ask(n);
        RunAppend(start, trace, more);
        trace := trace + more;
      }
      ghost var others := Others(n);
      RunAppend(start, trace, others);
      trace := trace + others;
      RunSnoc(start, trace, Record(n));
      verdict := Enter(n, approved, reason);
      trace := trace + [Record(n)];
    }
  }
}
