/**
 * The chain executor (chain/executor.py) as a machine whose steps are its atomic actions.
 * Scheduler and worker threads interleave freely; provider answers, elapsed time, failing saves and
 * cancellation arrive as action parameters.
 */
module ExecutorMachine {
  import opened Collections
  import opened Models
  import Blocking

  /** Where the thread running one step stands. `attempt` counts from zero as in the retry loop. */
  datatype Phase =
    | Idle
    | Submitted                          // handed to the pool, not yet running
    | Checking(attempt: nat)             // at the head of the retry loop
    | Calling(attempt: nat)              // budget reserved, provider call in flight
    | HasResult(text: string, calls: nat)
    | HasFailure(calls: nat, refused: bool)  // refused: the budget turned the last attempt away
    | Saving                             // merged, about to write state.json

  datatype Pc =
    | Begin
    | Head                               // top of the loop in _execute_loop
    | Submitting(rest: seq<nat>)         // _execute_batch, before the next submit
    | Draining                           // waiting for the threads of this round
    | Exiting                            // out of the loop, before the final status and save
    | Finished

  datatype Exn = NoExn | CancelExn | OtherExn

  datatype Outcome = Answer(text: string) | Retryable | Fatal

  datatype Machine = Machine(
    plan: Plan,
    policy: Policy,
    runStatus: RunStatus,
    status: seq<Status>,
    results: map<string, string>,
    providerCalls: seq<nat>,
    attempted: nat,
    reserved: nat,
    cancelled: bool,
    iteration: nat,
    pc: Pc,
    phase: seq<Phase>,
    exn: Exn,
    saved: Option<Saved>,
    starts: seq<nat>,                    // history: how often each step was started
    calls: seq<nat>)                     // history: provider calls made for each step

  datatype Action =
    | RequestCancel
    | BeginRun
    | HeadRound(timeUp: bool)
    | Submit
    | Start(i: nat)
    | LoadFails(i: nat)
    | Reserve(i: nat, timeUp: bool)
    | Return(i: nat, outcome: Outcome)
    | Merge(i: nat)
    | SaveStep(i: nat, saveOk: bool)
    | EndRound
    | FinishRun(saveOk: bool)

  predicate SameLengths(m: Machine) {
    |m.status| == |m.providerCalls| == |m.phase| == |m.starts| == |m.calls| == |m.plan|
  }

  function StateOf(m: Machine): Saved {
    Saved(m.runStatus, m.plan, m.policy, m.status, m.providerCalls, m.results)
  }

  function Save(m: Machine, ok: bool): Machine {
    if ok then m.(saved := Some(StateOf(m))) else m
  }

  function MaxWorkers(m: Machine): nat {
    Max(1, m.policy.maxParallelSteps)
  }

  function Worse(a: Exn, b: Exn): Exn {
    if a == OtherExn || b == OtherExn then OtherExn
    else if a == CancelExn || b == CancelExn then CancelExn
    else NoExn
  }

  /** The scheduler touches no result and no counter of the threads, and turns pending steps into skipped at most. */
  predicate SchedulerMove(m: Machine, n: Machine) {
    && SameLengths(m) && SameLengths(n) && n.plan == m.plan && n.policy == m.policy
    && n.results == m.results && n.starts == m.starts && n.calls == m.calls
    && n.attempted == m.attempted && n.reserved == m.reserved
    && m.iteration <= n.iteration
    && Blocking.OnlySkips(m.status, n.status)
  }

  /** Leaves the loop, normally or by an exception. */
  function Exit(m: Machine, exn: Exn): (n: Machine)
    requires SameLengths(m)
    ensures SchedulerMove(m, n) && n.phase == m.phase && n.status == m.status && n.pc.Exiting?
  {
    m.(exn := exn, pc := Exiting)
  }

  /** The status in which a run ends. */
  function FinalStatus(current: RunStatus, exn: Exn, criticalFailure: bool): RunStatus {
    if current != RunRunning then current else match exn
      case CancelExn => Cancelled
      case OtherExn => Failed
      case NoExn => if criticalFailure then Failed else Completed
  }

  /** The tail of `execute`: settle the run status, save, stop. */
  function DoFinish(m: Machine, saveOk: bool): (n: Machine)
    requires SameLengths(m)
    ensures SchedulerMove(m, n) && n.phase == m.phase && n.status == m.status && n.pc.Finished?
  {
    var final := FinalStatus(m.runStatus, m.exn, HasCriticalFailure(m.plan, m.status));
    Save(m.(runStatus := final, pc := Finished), saveOk)
  }

  /** The head of `execute`: an unknown context policy fails the run before any provider call. */
  function DoBegin(m: Machine): (n: Machine)
    requires SameLengths(m)
    ensures SchedulerMove(m, n) && n.phase == m.phase && n.status == m.status
  {
    if exists i :: 0 <= i < |m.plan| && !m.plan[i].policyKnown then
      m.(runStatus := Failed, pc := Exiting)
    else m.(runStatus := RunRunning, pc := Head)
  }

  /** The part of a round after the checks: run the ready steps, or skip what is blocked and stop. */
  function Dispatch(m: Machine): (n: Machine)
    requires SameLengths(m)
    ensures SchedulerMove(m, n) && n.cancelled == m.cancelled && n.iteration == m.iteration
    ensures n.pc.Exiting? || n.pc.Draining? || n.pc.Submitting?
    ensures n.pc.Exiting? <==> ReadySteps(m.plan, m.status) == []
    ensures n.pc.Exiting? ==> n.phase == m.phase
    ensures !n.pc.Exiting? ==> n.status == m.status
  {
    var ready := ReadySteps(m.plan, m.status);
    if ready == [] then
      Blocking.SkipBlockedIsClosure(m.plan, m.policy, m.status);
      Exit(m.(status := if HasPending(m.status) then SkipBlocked(m.plan, m.policy, m.status) else m.status),
           NoExn)
    else if MaxWorkers(m) == 1 || |ready| == 1 then
      assert ready[0] in ready;
      m.(pc := Draining, phase := m.phase[ready[0] := Submitted])
    else m.(pc := Submitting(ready[..Min(MaxWorkers(m), |ready|)]))
  }

  function DoHead(m: Machine, timeUp: bool): (n: Machine)
    requires SameLengths(m)
    ensures SchedulerMove(m, n) && n.cancelled == m.cancelled
    ensures n.pc.Exiting? || n.pc.Draining? || n.pc.Submitting?
    ensures n.pc.Exiting? ==> n.phase == m.phase
    ensures !n.pc.Exiting? ==> n == Dispatch(m.(iteration := m.iteration + 1)) && m.iteration < 3 * |m.plan|
  {
    if Complete(m.status) || m.iteration >= 3 * |m.plan| then Exit(m, NoExn)
    else
      var m1 := m.(iteration := m.iteration + 1);
      if m.cancelled then Exit(m1, CancelExn)
      else if m.attempted >= m.policy.maxProviderCalls || timeUp then
        Exit(m1.(status := SkipPending(m.status)), NoExn)
      else Dispatch(m1)
  }

  function DoSubmit(m: Machine): (n: Machine)
    requires SameLengths(m) && m.pc.Submitting? && forall i | i in m.pc.rest :: i < |m.plan|
    ensures SchedulerMove(m, n) && n.status == m.status
  {
    if m.pc.rest == [] then m.(pc := Draining)
    else if m.cancelled then m.(pc := Draining, exn := Worse(m.exn, CancelExn))
    else
      assert m.pc.rest[0] in m.pc.rest;
      m.(pc := Submitting(m.pc.rest[1..]), phase := m.phase[m.pc.rest[0] := Submitted])
  }

  function DoReserve(m: Machine, i: nat, timeUp: bool): Machine
    requires SameLengths(m) && i < |m.plan| && m.phase[i].Checking?
  {
    var attempt := m.phase[i].attempt;
    if m.cancelled then m.(phase := m.phase[i := Idle], exn := Worse(m.exn, CancelExn))
    else if m.attempted + m.reserved >= m.policy.maxProviderCalls || timeUp then
      m.(phase := m.phase[i := HasFailure(Min(attempt + 1, 1 + m.policy.maxRetries), true)])
    else m.(reserved := m.reserved + 1, phase := m.phase[i := Calling(attempt)],
            calls := m.calls[i := m.calls[i] + 1])
  }

  function DoReturn(m: Machine, i: nat, outcome: Outcome): Machine
    requires SameLengths(m) && i < |m.plan| && m.phase[i].Calling?
  {
    var attempt := m.phase[i].attempt;
    var next := match outcome
      case Answer(text) => HasResult(text, attempt + 1)
      case Retryable => if attempt < m.policy.maxRetries then Checking(attempt + 1)
                        else HasFailure(Min(attempt + 1, 1 + m.policy.maxRetries), false)
      case Fatal => HasFailure(Min(attempt + 1, 1 + m.policy.maxRetries), false);
    m.(reserved := Max(0, m.reserved - 1), attempted := m.attempted + 1, phase := m.phase[i := next])
  }

  function DoMerge(m: Machine, i: nat): Machine
    requires SameLengths(m) && i < |m.plan| && (m.phase[i].HasResult? || m.phase[i].HasFailure?)
  {
    match m.phase[i]
    case HasResult(text, n) =>
      m.(status := m.status[i := Success], results := m.results[m.plan[i].id := text],
         providerCalls := m.providerCalls[i := n], phase := m.phase[i := Saving])
    case HasFailure(n, _) =>
      m.(status := m.status[i := Error], providerCalls := m.providerCalls[i := n],
         phase := m.phase[i := Saving])
  }

  function DoEndRound(m: Machine): (n: Machine)
    requires SameLengths(m)
    ensures SchedulerMove(m, n) && n.phase == m.phase
  {
    if m.exn != NoExn then Exit(m, m.exn)
    else if m.policy.stopCondition == AllRequired && HasCriticalFailure(m.plan, m.status) then
      Exit(m.(status := SkipPending(m.status)), NoExn)
    else m.(pc := Head)
  }

  predicate Enabled(m: Machine, a: Action) {
    && SameLengths(m)
    && match a
       case RequestCancel => true
       case BeginRun => m.pc.Begin?
       case HeadRound(_) => m.pc.Head?
       case Submit => m.pc.Submitting? && forall i | i in m.pc.rest :: i < |m.plan|
       case Start(i) => i < |m.plan| && m.phase[i].Submitted?
       case LoadFails(i) => i < |m.plan| && m.phase[i].Submitted?
       case Reserve(i, _) => i < |m.plan| && m.phase[i].Checking?
       case Return(i, _) => i < |m.plan| && m.phase[i].Calling?
       case Merge(i) => i < |m.plan| && (m.phase[i].HasResult? || m.phase[i].HasFailure?)
       case SaveStep(i, _) => i < |m.plan| && m.phase[i].Saving?
       case EndRound => m.pc.Draining? && forall i :: 0 <= i < |m.phase| ==> m.phase[i].Idle?
       case FinishRun(_) => m.pc.Exiting?
  }

  function Apply(m: Machine, a: Action): (n: Machine)
    requires Enabled(m, a)
    ensures SameLengths(n) && n.plan == m.plan && n.policy == m.policy
  {
    match a
    case RequestCancel => m.(cancelled := true)
    case BeginRun => DoBegin(m)
    case HeadRound(timeUp) => DoHead(m, timeUp)
    case Submit => DoSubmit(m)
    case Start(i) =>
      m.(status := m.status[i := Running], phase := m.phase[i := Checking(0)],
         starts := m.starts[i := m.starts[i] + 1])
    case LoadFails(i) =>
      m.(status := m.status[i := Running], phase := m.phase[i := Idle],
         starts := m.starts[i := m.starts[i] + 1], exn := OtherExn)
    case Reserve(i, timeUp) => DoReserve(m, i, timeUp)
    case Return(i, outcome) => DoReturn(m, i, outcome)
    case Merge(i) => DoMerge(m, i)
    case SaveStep(i, saveOk) => Save(m.(phase := m.phase[i := Idle]), saveOk)
    case EndRound => DoEndRound(m)
    case FinishRun(saveOk) => DoFinish(m, saveOk)
  }

  /** Every action of the list is enabled when its turn comes. */
  predicate CanRun(m: Machine, acts: seq<Action>)
    decreases |acts|
  {
    acts == [] || (Enabled(m, acts[0]) && CanRun(Apply(m, acts[0]), acts[1..]))
  }

  function Run(m: Machine, acts: seq<Action>): Machine
    requires CanRun(m, acts)
    decreases |acts|
  {
    if acts == [] then m else Run(Apply(m, acts[0]), acts[1..])
  }

  lemma {:induction false} RunAppend(m: Machine, acts: seq<Action>, a: Action)
    requires CanRun(m, acts) && Enabled(Run(m, acts), a)
    ensures CanRun(m, acts + [a]) && Run(m, acts + [a]) == Apply(Run(m, acts), a)
    decreases |acts|
  {
    var all := acts + [a];
    if acts == [] {
      assert all == [a] && all[1..] == [];
    } else {
      assert all[1..] == acts[1..] + [a];
      RunAppend(Apply(m, acts[0]), acts[1..], a);
    }
  }

  function Zeros(n: nat): (s: seq<nat>)
    ensures |s| == n && forall i :: 0 <= i < n ==> s[i] == 0
  {
    seq(n, _ => 0)
  }

  /** A run about to execute: the statuses, results and counters it brings, a fresh budget. */
  function Ready0(plan: Plan, policy: Policy, status: seq<Status>, results: map<string, string>,
                  providerCalls: seq<nat>, saved: Option<Saved>): Machine {
    Machine(plan, policy, RunPending, status, results, providerCalls, 0, 0, false, 0, Begin,
            seq(|plan|, _ => Idle), NoExn, saved, Zeros(|plan|), Zeros(|plan|))
  }

  function FreshRun(plan: Plan, policy: Policy): Machine {
    Ready0(plan, policy, seq(|plan|, _ => Pending), map[], Zeros(|plan|), None)
  }
}
