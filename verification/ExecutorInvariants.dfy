/** What every action of the executor keeps, whatever the interleaving. */
module ExecutorInvariants {
  import opened Collections
  import opened Models
  import opened ExecutorMachine
  import Blocking

  // ---- budget ---------------------------------------------------------------------------------

  function InFlight(p: Phase): nat {
    if p.Calling? then 1 else 0
  }

  function Itself(n: nat): nat { n }

  /** Reservations are exactly the calls in flight; attempts and reservations are exactly the calls made. */
  predicate BudgetOk(m: Machine) {
    && m.reserved == SumBy(m.phase, InFlight)
    && m.attempted + m.reserved == SumBy(m.calls, Itself)
    && m.attempted + m.reserved <= m.policy.maxProviderCalls
  }

  // ---- steps ----------------------------------------------------------------------------------

  /** How the phase of the thread on one step fits the step's status and counters. */
  predicate LocalOk(maxRetries: nat, exn: Exn, status: Status, phase: Phase, starts: nat, calls: nat) {
    && starts <= 1
    && calls <= 1 + maxRetries
    && (status == Pending ==> starts == 0 && calls == 0)
    && match phase
       case Idle => status == Running ==> exn != NoExn
       case Submitted => status == Pending
       case Checking(attempt) => status == Running && attempt <= maxRetries && calls == attempt
       case Calling(attempt) => status == Running && attempt <= maxRetries && calls == attempt + 1
       case HasResult(_, n) => status == Running && n == calls
       case HasFailure(n, refused) =>
         status == Running && n == (if refused then calls + 1 else calls) && n <= 1 + maxRetries
       case Saving => status == Success || status == Error
  }

  /** Every step fits its thread, and only steps whose dependencies are met are handed to the pool. */
  predicate ThreadsOk(plan: Plan, maxRetries: nat, exn: Exn, status: seq<Status>, phase: seq<Phase>,
                      starts: seq<nat>, calls: seq<nat>)
    requires |plan| == |status| == |phase| == |starts| == |calls|
  {
    forall i :: 0 <= i < |plan| ==>
      && LocalOk(maxRetries, exn, status[i], phase[i], starts[i], calls[i])
      && (phase[i].Submitted? ==> DepsMet(plan, status, i))
  }

  predicate PhasesOk(m: Machine)
    requires SameLengths(m)
  {
    ThreadsOk(m.plan, m.policy.maxRetries, m.exn, m.status, m.phase, m.starts, m.calls)
  }

  /** A started step has all its dependencies successful. */
  predicate DependencySafe(plan: Plan, status: seq<Status>)
    requires |plan| == |status|
  {
    forall i :: 0 <= i < |plan| && status[i] != Pending && status[i] != Skipped ==> DepsMet(plan, status, i)
  }

  /** A step is successful exactly when its result is stored. */
  predicate ResultsMatch(plan: Plan, status: seq<Status>, results: map<string, string>)
    requires |plan| == |status|
  {
    && (forall i :: 0 <= i < |plan| ==> (status[i] == Success <==> plan[i].id in results))
    && (forall id :: id in results ==> FindStep(plan, id).Some?)
  }

  predicate StatusesOk(plan: Plan, status: seq<Status>, results: map<string, string>)
    requires |plan| == |status|
  {
    && DependencySafe(plan, status)
    && ResultsMatch(plan, status, results)
  }

  // ---- scheduler ------------------------------------------------------------------------------

  predicate AllIdle(m: Machine) {
    forall i :: 0 <= i < |m.phase| ==> m.phase[i].Idle?
  }

  predicate NoSkipped(m: Machine) {
    forall i :: 0 <= i < |m.status| ==> m.status[i] != Skipped
  }

  /** This round has already shrunk the pending set, or a submitted step still will. */
  predicate RoundProgress(m: Machine, rest: seq<nat>) {
    || m.exn != NoExn
    || m.iteration + CountPending(m.status) <= |m.plan|
    || rest != []
    || exists i :: 0 <= i < |m.phase| && m.phase[i].Submitted?
  }

  predicate InRound(m: Machine, rest: seq<nat>)
    requires SameLengths(m)
  {
    && m.runStatus == RunRunning
    && NoSkipped(m)
    && m.iteration + CountPending(m.status) <= |m.plan| + 1
    && RoundProgress(m, rest)
    && (forall i | i in rest :: i < |m.plan| && Ready(m.plan, m.status, i) && m.phase[i].Idle?)
    && (forall a, b :: 0 <= a < b < |rest| ==> rest[a] != rest[b])
  }

  predicate PcOk(m: Machine)
    requires SameLengths(m)
  {
    match m.pc
    case Begin =>
      && m.runStatus == RunPending && m.exn == NoExn && m.iteration == 0 && AllIdle(m)
      && (forall i :: 0 <= i < |m.status| ==> m.status[i] == Pending || m.status[i] == Success)
    case Head =>
      && m.runStatus == RunRunning && m.exn == NoExn && AllIdle(m) && NoSkipped(m)
      && m.iteration + CountPending(m.status) <= |m.plan|
      && (m.policy.stopCondition == AllRequired ==> !HasCriticalFailure(m.plan, m.status))
    case Submitting(rest) => InRound(m, rest)
    case Draining => InRound(m, [])
    case Exiting => AllIdle(m) && (m.runStatus == RunRunning || m.runStatus == Failed)
    case Finished =>
      && AllIdle(m)
      && (m.runStatus == Completed || m.runStatus == Failed || m.runStatus == Cancelled)
  }

  // ---- state.json -----------------------------------------------------------------------------

  /** A state file from which the run can be rebuilt. */
  predicate SavedOk(s: Saved) {
    && |s.status| == |s.providerCalls| == |s.plan|
    && UniqueIds(s.plan)
    && StatusesOk(s.plan, s.status, s.results)
  }

  /** What the state file calls successful is successful in memory, with the same result. */
  predicate SavedWithin(s: Saved, m: Machine) {
    && s.plan == m.plan && s.policy == m.policy && |s.status| == |m.status| == |m.plan|
    && (forall i :: 0 <= i < |m.plan| && s.status[i] == Success ==>
         m.status[i] == Success && m.plan[i].id in s.results && m.plan[i].id in m.results
         && s.results[m.plan[i].id] == m.results[m.plan[i].id])
  }

  predicate SavedFaithful(m: Machine) {
    m.saved.Some? ==> SavedOk(m.saved.value) && SavedWithin(m.saved.value, m)
  }

  predicate StepsOk(m: Machine) {
    && SameLengths(m) && UniqueIds(m.plan)
    && BudgetOk(m)
    && PhasesOk(m)
    && StatusesOk(m.plan, m.status, m.results)
  }

  predicate Inv(m: Machine) {
    && StepsOk(m)
    && PcOk(m)
    && SavedFaithful(m)
  }

  // ---- preservation ---------------------------------------------------------------------------

  lemma {:induction false} CountPendingBound(status: seq<Status>)
    ensures CountPending(status) <= |status|
  {
    if status != [] {
      CountPendingBound(status[1..]);
    }
  }

  /** Statuses that only move on from pending or running keep met dependencies met. */
  lemma DepsMetStable(plan: Plan, before: seq<Status>, after: seq<Status>)
    requires |plan| == |before| == |after|
    requires forall i :: 0 <= i < |plan| && before[i] == Success ==> after[i] == Success
    ensures forall j :: 0 <= j < |plan| && DepsMet(plan, before, j) ==> DepsMet(plan, after, j)
  {
    forall j, d | 0 <= j < |plan| && DepsMet(plan, before, j) && d in plan[j].dependsOn
      ensures StatusOf(plan, after, d) == Some(Success)
    {
      assert StatusOf(plan, before, d) == Some(Success);
    }
  }

  /** One thread may change its own step as long as the step still fits it. */
  lemma ThreadMoves(m: Machine, i: nat, exn: Exn, status: Status, phase: Phase, starts: nat, calls: nat)
    requires SameLengths(m) && PhasesOk(m) && i < |m.plan|
    requires LocalOk(m.policy.maxRetries, exn, status, phase, starts, calls)
    requires m.status[i] == Success ==> status == Success
    requires m.exn != NoExn ==> exn != NoExn
    requires phase.Submitted? ==> DepsMet(m.plan, m.status, i)
    ensures ThreadsOk(m.plan, m.policy.maxRetries, exn, m.status[i := status], m.phase[i := phase],
                      m.starts[i := starts], m.calls[i := calls])
  {
    DepsMetStable(m.plan, m.status, m.status[i := status]);
  }

  /** A started step may move between the started statuses. */
  lemma StatusMoves(plan: Plan, status: seq<Status>, results: map<string, string>, i: nat, s: Status)
    requires |plan| == |status| && i < |plan| && StatusesOk(plan, status, results)
    requires status[i] != Success && s != Success && DepsMet(plan, status, i)
    ensures StatusesOk(plan, status[i := s], results)
  {
    DepsMetStable(plan, status, status[i := s]);
  }

  lemma ExitKeepsInv(m: Machine, exn: Exn)
    requires StepsOk(m) && SavedFaithful(m) && AllIdle(m) && (exn == NoExn ==> m.exn == NoExn)
    requires m.runStatus == RunRunning
    ensures Inv(Exit(m, exn))
  {
  }

  /** Turning pending steps into skipped ones keeps what is known of the others. */
  lemma SkippingKeeps(m: Machine, after: seq<Status>)
    requires StepsOk(m) && SavedFaithful(m) && AllIdle(m) && Blocking.OnlySkips(m.status, after)
    ensures StepsOk(m.(status := after)) && SavedFaithful(m.(status := after))
  {
    DepsMetStable(m.plan, m.status, after);
  }

  /** Leaving the loop after skipping steps keeps the invariant. */
  lemma SkipAndExitKeepsInv(m: Machine, after: seq<Status>)
    requires StepsOk(m) && SavedFaithful(m) && AllIdle(m) && m.exn == NoExn && Blocking.OnlySkips(m.status, after)
    requires m.runStatus == RunRunning
    ensures Inv(Exit(m.(status := after), NoExn))
  {
    SkippingKeeps(m, after);
    ExitKeepsInv(m.(status := after), NoExn);
  }

  lemma HeadExitsKeepInv(m: Machine, timeUp: bool)
    requires Inv(m) && m.pc.Head? && DoHead(m, timeUp).pc.Exiting?
    ensures Inv(DoHead(m, timeUp))
  {
    if Complete(m.status) || m.iteration >= 3 * |m.plan| {
      ExitKeepsInv(m, NoExn);
    } else {
      EarlyExitKeepsInv(m, timeUp);
    }
  }

  lemma EarlyExitKeepsInv(m: Machine, timeUp: bool)
    requires Inv(m) && m.pc.Head? && DoHead(m, timeUp).pc.Exiting?
    requires !Complete(m.status) && m.iteration < 3 * |m.plan|
    ensures Inv(DoHead(m, timeUp))
  {
    var m1 := m.(iteration := m.iteration + 1);
    if m.cancelled {
      ExitKeepsInv(m1, CancelExn);
    } else if m.attempted >= m.policy.maxProviderCalls || timeUp {
      SkipAndExitKeepsInv(m1, SkipPending(m.status));
    } else {
      StuckExitKeepsInv(m1);
    }
  }

  lemma StuckExitKeepsInv(m: Machine)
    requires StepsOk(m) && SavedFaithful(m) && AllIdle(m) && m.exn == NoExn && m.runStatus == RunRunning
    ensures var after := if HasPending(m.status) then SkipBlocked(m.plan, m.policy, m.status) else m.status;
      |after| == |m.status| && Inv(Exit(m.(status := after), NoExn))
  {
    Blocking.SkipBlockedIsClosure(m.plan, m.policy, m.status);
    SkipAndExitKeepsInv(m, if HasPending(m.status) then SkipBlocked(m.plan, m.policy, m.status) else m.status);
  }

  lemma HeadLaunchKeepsInv(m: Machine, timeUp: bool)
    requires Inv(m) && m.pc.Head? && !DoHead(m, timeUp).pc.Exiting?
    ensures Inv(DoHead(m, timeUp))
  {
    var m2 := DoHead(m, timeUp);
    var ready := ReadySteps(m.plan, m.status);
    assert ready[0] in ready;
    if m2.pc.Draining? {
      HeadSingleKeepsInv(m, m2, ready[0]);
    } else {
      assert forall i | i in m2.pc.rest :: i in ready;
    }
  }

  lemma HeadSingleKeepsInv(m: Machine, m2: Machine, i: nat)
    requires Inv(m) && m.pc.Head? && i < |m.plan| && Ready(m.plan, m.status, i)
    requires m2 == m.(iteration := m.iteration + 1, pc := Draining,
                      phase := m.phase[i := Submitted])
    ensures Inv(m2)
  {
    SumByUpdate(m.phase, InFlight, i, Submitted);
    assert m2.phase[i].Submitted?;
  }

  lemma SubmitKeepsInv(m: Machine)
    requires Inv(m) && m.pc.Submitting?
    ensures Inv(DoSubmit(m))
  {
    if m.pc.rest != [] && !m.cancelled {
      var i := m.pc.rest[0];
      assert i in m.pc.rest;
      SumByUpdate(m.phase, InFlight, i, Submitted);
      var m2 := DoSubmit(m);
      assert m2.phase[i].Submitted?;
      forall j | j in m2.pc.rest ensures j in m.pc.rest && j != i {
        var k :| 0 <= k < |m2.pc.rest| && m2.pc.rest[k] == j;
        assert m.pc.rest[k + 1] == j;
      }
    }
  }

  /** Whatever a thread does to its own step, the round keeps its shape. */
  lemma ThreadKeepsPc(m: Machine, m2: Machine, i: nat)
    requires StepsOk(m) && PcOk(m) && SameLengths(m2)
    requires i < |m.plan| && !m.phase[i].Idle?
    requires m2.plan == m.plan && m2.pc == m.pc && m2.runStatus == m.runStatus && m2.iteration == m.iteration
    requires m2.phase == m.phase[i := m2.phase[i]] && m2.status == m.status[i := m2.status[i]]
    requires m2.status[i] != Pending && m2.status[i] != Skipped
    requires m.status[i] == Success ==> m2.status[i] == Success
    requires m.exn != NoExn ==> m2.exn != NoExn
    ensures PcOk(m2)
  {
    SumByUpdate(m.status, IsPending, i, m2.status[i]);
    DepsMetStable(m.plan, m.status, m2.status);
    forall j | 0 <= j < |m.phase| && m.phase[j].Submitted? && j != i ensures m2.phase[j].Submitted? {}
  }

  lemma StartKeepsSteps(m: Machine, i: nat, a: Action)
    requires StepsOk(m) && (a == Start(i) || a == LoadFails(i)) && Enabled(m, a)
    ensures StepsOk(Apply(m, a))
  {
    var m2 := Apply(m, a);
    SumByUpdate(m.phase, InFlight, i, m2.phase[i]);
    ThreadMoves(m, i, m2.exn, Running, m2.phase[i], m2.starts[i], m.calls[i]);
    assert m.calls[i := m.calls[i]] == m.calls;
    StatusMoves(m.plan, m.status, m.results, i, Running);
  }

  lemma StartKeepsInv(m: Machine, i: nat, a: Action)
    requires Inv(m) && (a == Start(i) || a == LoadFails(i)) && Enabled(m, a)
    ensures Inv(Apply(m, a))
  {
    StartKeepsSteps(m, i, a);
    ThreadKeepsPc(m, Apply(m, a), i);
  }

  lemma ReserveKeepsSteps(m: Machine, i: nat, timeUp: bool)
    requires StepsOk(m) && Enabled(m, Reserve(i, timeUp))
    ensures StepsOk(DoReserve(m, i, timeUp))
  {
    var m2 := DoReserve(m, i, timeUp);
    SumByUpdate(m.phase, InFlight, i, m2.phase[i]);
    SumByUpdate(m.calls, Itself, i, m.calls[i] + 1);
    ThreadMoves(m, i, m2.exn, m.status[i], m2.phase[i], m.starts[i], m2.calls[i]);
    assert m.status[i := m.status[i]] == m.status && m.starts[i := m.starts[i]] == m.starts;
    assert m2.calls == m.calls[i := m2.calls[i]];
  }

  lemma ReserveKeepsInv(m: Machine, i: nat, timeUp: bool)
    requires Inv(m) && Enabled(m, Reserve(i, timeUp))
    ensures Inv(DoReserve(m, i, timeUp))
  {
    var m2 := DoReserve(m, i, timeUp);
    ReserveKeepsSteps(m, i, timeUp);
    assert m.status[i := m.status[i]] == m.status;
    ThreadKeepsPc(m, m2, i);
  }

  lemma ReturnKeepsInv(m: Machine, i: nat, outcome: Outcome)
    requires Inv(m) && Enabled(m, Return(i, outcome))
    ensures Inv(DoReturn(m, i, outcome))
  {
    var m2 := DoReturn(m, i, outcome);
    SumByUpdate(m.phase, InFlight, i, m2.phase[i]);
    SumByAtLeast(m.phase, InFlight, i);
    ThreadMoves(m, i, m.exn, m.status[i], m2.phase[i], m.starts[i], m.calls[i]);
    assert m.starts[i := m.starts[i]] == m.starts && m.calls[i := m.calls[i]] == m.calls;
    assert m.status[i := m.status[i]] == m.status;
    ThreadKeepsPc(m, m2, i);
  }

  lemma MergeKeepsSteps(m: Machine, i: nat)
    requires StepsOk(m) && Enabled(m, Merge(i))
    ensures StepsOk(DoMerge(m, i))
  {
    var m2 := DoMerge(m, i);
    SumByUpdate(m.phase, InFlight, i, Saving);
    ThreadMoves(m, i, m.exn, m2.status[i], Saving, m.starts[i], m.calls[i]);
    assert m.starts[i := m.starts[i]] == m.starts && m.calls[i := m.calls[i]] == m.calls;
    DepsMetStable(m.plan, m.status, m2.status);
  }

  lemma MergeKeepsInv(m: Machine, i: nat)
    requires Inv(m) && Enabled(m, Merge(i))
    ensures Inv(DoMerge(m, i))
  {
    MergeKeepsSteps(m, i);
    MergeKeepsPc(m, i);
    MergeKeepsSaved(m, i);
  }

  lemma MergeKeepsSaved(m: Machine, i: nat)
    requires Inv(m) && Enabled(m, Merge(i))
    ensures SavedFaithful(DoMerge(m, i))
  {
    assert FindStep(m.plan, m.plan[i].id) == Some(i);
    assert LocalOk(m.policy.maxRetries, m.exn, m.status[i], m.phase[i], m.starts[i], m.calls[i]);
  }

  lemma MergeKeepsPc(m: Machine, i: nat)
    requires StepsOk(m) && PcOk(m) && Enabled(m, Merge(i))
    ensures PcOk(DoMerge(m, i))
  {
    ThreadKeepsPc(m, DoMerge(m, i), i);
  }

  lemma SaveKeepsInv(m: Machine, i: nat, saveOk: bool)
    requires Inv(m) && Enabled(m, SaveStep(i, saveOk))
    ensures Inv(Apply(m, SaveStep(i, saveOk)))
  {
    var m2 := Apply(m, SaveStep(i, saveOk));
    SumByUpdate(m.phase, InFlight, i, Idle);
    ThreadMoves(m, i, m.exn, m.status[i], Idle, m.starts[i], m.calls[i]);
    assert m.starts[i := m.starts[i]] == m.starts && m.calls[i := m.calls[i]] == m.calls;
    assert m.status[i := m.status[i]] == m.status;
    ThreadKeepsPc(m, m2, i);
  }

  lemma EndRoundKeepsInv(m: Machine)
    requires Inv(m) && Enabled(m, EndRound)
    ensures Inv(DoEndRound(m))
  {
    if m.exn != NoExn {
      ExitKeepsInv(m, m.exn);
    } else if m.policy.stopCondition == AllRequired && HasCriticalFailure(m.plan, m.status) {
      SkippingKeeps(m, SkipPending(m.status));
      ExitKeepsInv(m.(status := SkipPending(m.status)), NoExn);
    }
  }

  lemma BeginKeepsInv(m: Machine)
    requires Inv(m) && m.pc.Begin?
    ensures Inv(DoBegin(m))
  {
    CountPendingBound(m.status);
  }

  lemma FinishKeepsInv(m: Machine, saveOk: bool)
    requires Inv(m) && m.pc.Exiting?
    ensures Inv(DoFinish(m, saveOk))
  {
  }

  /** The invariant is inductive: every enabled action keeps it. */
  lemma StepKeepsInv(m: Machine, a: Action)
    requires Inv(m) && Enabled(m, a)
    ensures Inv(Apply(m, a))
  {
    match a
    case RequestCancel => assert Inv(m.(cancelled := true));
    case BeginRun => BeginKeepsInv(m);
    case HeadRound(timeUp) =>
      if DoHead(m, timeUp).pc.Exiting? {
        HeadExitsKeepInv(m, timeUp);
      } else {
        HeadLaunchKeepsInv(m, timeUp);
      }
    case Submit => SubmitKeepsInv(m);
    case Start(i) => StartKeepsInv(m, i, a);
    case LoadFails(i) => StartKeepsInv(m, i, a);
    case Reserve(i, timeUp) => ReserveKeepsInv(m, i, timeUp);
    case Return(i, outcome) => ReturnKeepsInv(m, i, outcome);
    case Merge(i) => MergeKeepsInv(m, i);
    case SaveStep(i, saveOk) => SaveKeepsInv(m, i, saveOk);
    case EndRound => EndRoundKeepsInv(m);
    case FinishRun(saveOk) => FinishKeepsInv(m, saveOk);
  }

  /** Every state reached from a good start, by any interleaving, satisfies the invariant. */
  lemma {:induction false} RunKeepsInv(m: Machine, acts: seq<Action>)
    requires Inv(m) && CanRun(m, acts)
    ensures Inv(Run(m, acts))
    decreases |acts|
  {
    if acts != [] {
      StepKeepsInv(m, acts[0]);
      RunKeepsInv(Apply(m, acts[0]), acts[1..]);
    }
  }

  lemma FreshRunInv(plan: Plan, policy: Policy)
    requires UniqueIds(plan)
    ensures Inv(FreshRun(plan, policy))
  {
    var m := FreshRun(plan, policy);
    SumByZero(m.phase, InFlight);
    SumByZero(m.calls, Itself);
  }
}
