/** What the executor promises over whole runs: progress, termination, the call budget, stable successes. */
module ExecutorProperties {
  import opened Collections
  import opened Models
  import opened ExecutorMachine
  import opened ExecutorInvariants
  import Blocking

  // ---- successes ------------------------------------------------------------------------------

  /** Success in `m` survives in `n` with its result, and the step is neither started nor called again. */
  predicate SuccessesKept(m: Machine, n: Machine) {
    && SameLengths(m) && SameLengths(n) && n.plan == m.plan && n.policy == m.policy
    && forall i :: 0 <= i < |m.plan| && m.status[i] == Success ==>
         && n.status[i] == Success
         && n.starts[i] == m.starts[i] && n.calls[i] == m.calls[i]
         && m.plan[i].id in m.results && m.plan[i].id in n.results
         && n.results[m.plan[i].id] == m.results[m.plan[i].id]
  }

  lemma MergeKeepsSuccesses(m: Machine, i: nat)
    requires Inv(m) && Enabled(m, Merge(i))
    ensures SuccessesKept(m, DoMerge(m, i))
  {
    forall j | 0 <= j < |m.plan| && m.status[j] == Success
      ensures m.plan[j].id in m.results && m.plan[j].id != m.plan[i].id
    {
      assert FindStep(m.plan, m.plan[j].id) == Some(j) && FindStep(m.plan, m.plan[i].id) == Some(i);
    }
  }

  lemma SchedulerKeepsSuccesses(m: Machine, n: Machine)
    requires StepsOk(m) && SchedulerMove(m, n)
    ensures SuccessesKept(m, n)
  {
  }

  /** A thread that merges nothing touches only the counters of its own step, and not those of a success. */
  lemma ThreadKeepsSuccesses(m: Machine, n: Machine, i: nat)
    requires StepsOk(m) && SameLengths(n) && n.plan == m.plan && n.policy == m.policy && n.results == m.results
    requires forall j :: 0 <= j < |m.plan| && (j != i || m.status[j] == Success) ==>
               n.status[j] == m.status[j] && n.starts[j] == m.starts[j] && n.calls[j] == m.calls[j]
    ensures SuccessesKept(m, n)
  {
  }

  predicate ThreadAction(a: Action) {
    a.Start? || a.LoadFails? || a.Reserve? || a.Return? || a.Merge? || a.SaveStep?
  }

  lemma ThreadActionKeepsSuccesses(m: Machine, a: Action)
    requires Inv(m) && Enabled(m, a) && ThreadAction(a)
    ensures SuccessesKept(m, Apply(m, a))
  {
    if a.Merge? {
      MergeKeepsSuccesses(m, a.i);
    } else if a.Start? || a.Reserve? {
      CallingKeepsSuccesses(m, a);
    } else {
      ThreadKeepsSuccesses(m, Apply(m, a), a.i);
    }
  }

  lemma CallingKeepsSuccesses(m: Machine, a: Action)
    requires Inv(m) && Enabled(m, a) && (a.Start? || a.Reserve?)
    ensures SuccessesKept(m, Apply(m, a))
  {
    ThreadKeepsSuccesses(m, Apply(m, a), a.i);
  }

  lemma StepKeepsSuccesses(m: Machine, a: Action)
    requires Inv(m) && Enabled(m, a)
    ensures SuccessesKept(m, Apply(m, a))
  {
    if ThreadAction(a) {
      ThreadActionKeepsSuccesses(m, a);
    } else {
      SchedulerKeepsSuccesses(m, Apply(m, a));
    }
  }

  /** Success never reverts and its result never changes, over any interleaving of any length. */
  lemma {:induction false} RunKeepsSuccesses(m: Machine, acts: seq<Action>)
    requires Inv(m) && CanRun(m, acts)
    ensures SuccessesKept(m, Run(m, acts))
    decreases |acts|
  {
    if acts != [] {
      StepKeepsSuccesses(m, acts[0]);
      StepKeepsInv(m, acts[0]);
      RunKeepsSuccesses(Apply(m, acts[0]), acts[1..]);
    }
  }

  /**
   * In every reachable state a step that was started has all its dependencies successful, so the successful
   * steps are closed under dependencies, and a step is successful exactly when its result is stored.
   */
  lemma DependenciesHold(plan: Plan, policy: Policy, acts: seq<Action>, i: nat)
    requires UniqueIds(plan) && CanRun(FreshRun(plan, policy), acts) && i < |plan|
    ensures var n := Run(FreshRun(plan, policy), acts);
      && SameLengths(n) && n.plan == plan
      && (n.status[i] == Running || n.status[i] == Success || n.status[i] == Error ==> DepsMet(plan, n.status, i))
      && (n.status[i] == Success <==> plan[i].id in n.results)
  {
    FreshRunInv(plan, policy);
    RunKeepsInv(FreshRun(plan, policy), acts);
    RunKeepsSuccesses(FreshRun(plan, policy), acts);
  }

  // ---- call budget ----------------------------------------------------------------------------

  /**
   * Provider calls never exceed the policy, in total or per step, in any reachable state;
   * when the run has ended no reservation is left open and every call made is an attempt counted.
   */
  lemma CallBudgetHolds(m: Machine, acts: seq<Action>)
    requires Inv(m) && CanRun(m, acts)
    ensures var n := Run(m, acts);
      && SumBy(n.calls, Itself) == n.attempted + n.reserved <= n.policy.maxProviderCalls
      && SameLengths(n)
      && (forall i :: 0 <= i < |n.calls| ==> n.calls[i] <= 1 + n.policy.maxRetries && n.starts[i] <= 1)
      && (n.pc.Finished? ==> n.reserved == 0 && SumBy(n.calls, Itself) == n.attempted)
  {
    RunKeepsInv(m, acts);
    var n := Run(m, acts);
    if n.pc.Finished? {
      SumByZero(n.phase, InFlight);
    }
  }

  /**
   * The recorded `provider_calls` is the number of calls made, plus one exactly when the last attempt
   * was turned away by the budget.
   */
  lemma RecordedCalls(m: Machine, i: nat)
    requires Inv(m) && Enabled(m, Merge(i))
    ensures var n := Apply(m, Merge(i));
      && (n.status[i] == Success ==> n.providerCalls[i] == n.calls[i])
      && (n.providerCalls[i] == n.calls[i] + 1 <==> m.phase[i].HasFailure? && m.phase[i].refused)
      && (n.providerCalls[i] == n.calls[i] || n.providerCalls[i] == n.calls[i] + 1)
  {
  }

  // ---- termination ----------------------------------------------------------------------------

  function PhaseWeight(retries: nat, p: Phase): nat {
    match p
    case Idle => 0
    case Submitted => 1
    case Checking(a) => if a <= retries then 4 + 2 * (retries - a) else 4
    case Calling(a) => if a <= retries then 3 + 2 * (retries - a) else 3
    case HasResult(_, _) => 2
    case HasFailure(_, _) => 2
    case Saving => 1
  }

  function PcWeight(pc: Pc): nat {
    match pc
    case Begin => 5
    case Head => 2
    case Submitting(rest) => 4 + 2 * |rest|
    case Draining => 3
    case Exiting => 1
    case Finished => 0
  }

  function ThreadWeight(retries: nat): Phase -> nat {
    p => PhaseWeight(retries, p)
  }

  function PendingWeight(retries: nat): Status -> nat {
    s => if s == Pending then 5 + 2 * retries else 0
  }

  /** `k` for each of `n` rounds. */
  function Rounds(k: nat, n: nat): nat {
    if n == 0 then 0 else k + Rounds(k, n - 1)
  }

  lemma {:induction false} RoundsMonotone(k: nat, a: nat, b: nat)
    requires a <= b
    ensures Rounds(k, a) <= Rounds(k, b)
  {
    if a < b {
      RoundsMonotone(k, a, b - 1);
    }
  }

  /** An upper bound on the actions left, cancellation requests apart. */
  function Measure(m: Machine): nat {
    Rounds(2 * |m.plan| + 5, Max(0, 3 * |m.plan| - m.iteration))
    + PcWeight(m.pc)
    + SumBy(m.status, PendingWeight(m.policy.maxRetries))
    + SumBy(m.phase, ThreadWeight(m.policy.maxRetries))
  }

  lemma SkipsLowerPending(before: seq<Status>, after: seq<Status>, retries: nat)
    requires Blocking.OnlySkips(before, after)
    ensures SumBy(after, PendingWeight(retries)) <= SumBy(before, PendingWeight(retries))
  {
    SumByMonotone(after, before, PendingWeight(retries));
  }

  lemma HeadExitDecreases(m: Machine, timeUp: bool)
    requires Inv(m) && m.pc.Head? && DoHead(m, timeUp).pc.Exiting?
    ensures Measure(DoHead(m, timeUp)) < Measure(m)
  {
    HeadExitSkips(m, timeUp);
    SkipsLowerMeasure(m, DoHead(m, timeUp));
  }

  lemma SkipsLowerMeasure(m: Machine, n: Machine)
    requires n.plan == m.plan && n.phase == m.phase && n.policy == m.policy && n.iteration >= m.iteration
    requires Blocking.OnlySkips(m.status, n.status) && PcWeight(n.pc) < PcWeight(m.pc)
    ensures Measure(n) < Measure(m)
  {
    SkipsLowerPending(m.status, n.status, m.policy.maxRetries);
    RoundsMonotone(2 * |m.plan| + 5, Max(0, 3 * |m.plan| - n.iteration), Max(0, 3 * |m.plan| - m.iteration));
  }

  lemma HeadExitSkips(m: Machine, timeUp: bool)
    requires Inv(m) && m.pc.Head? && DoHead(m, timeUp).pc.Exiting?
    ensures var n := DoHead(m, timeUp);
      && n.plan == m.plan && n.phase == m.phase && n.policy == m.policy && n.iteration >= m.iteration
      && Blocking.OnlySkips(m.status, n.status) && PcWeight(n.pc) < PcWeight(m.pc)
  {
  }

  lemma HeadLaunchDecreases(m: Machine, timeUp: bool)
    requires Inv(m) && m.pc.Head? && !DoHead(m, timeUp).pc.Exiting?
    ensures Measure(DoHead(m, timeUp)) < Measure(m)
  {
    var n := DoHead(m, timeUp);
    var ready := ReadySteps(m.plan, m.status);
    assert ready[0] in ready;
    if n.pc.Draining? {
      SumByUpdate(m.phase, ThreadWeight(m.policy.maxRetries), ready[0], Submitted);
    } else {
      forall i | 0 <= i < |ready| ensures ready[i] < |m.plan| {
        assert ready[i] in ready;
      }
      SortedBelow(ready, |m.plan|);
    }
  }

  /** A strictly increasing sequence of numbers below `n` has at most `n` members. */
  lemma {:induction false} SortedBelow(s: seq<nat>, n: nat)
    requires forall i :: 0 <= i < |s| ==> s[i] < n
    requires forall a, b | 0 <= a < b < |s| :: s[a] < s[b]
    ensures |s| <= n
  {
    if s != [] {
      SortedBelow(s[..|s| - 1], s[|s| - 1]);
    }
  }

  /** A thread's own move lowers the measure when it lowers the weight of its step. */
  lemma ThreadMoveDecreases(m: Machine, n: Machine, i: nat)
    requires SameLengths(m) && SameLengths(n) && i < |m.plan|
    requires n.plan == m.plan && n.policy == m.policy && n.iteration == m.iteration && n.pc == m.pc
    requires n.phase == m.phase[i := n.phase[i]] && n.status == m.status[i := n.status[i]]
    requires var r := m.policy.maxRetries;
      PendingWeight(r)(n.status[i]) + PhaseWeight(r, n.phase[i])
      < PendingWeight(r)(m.status[i]) + PhaseWeight(r, m.phase[i])
    ensures Measure(n) < Measure(m)
  {
    SumByUpdate(m.phase, ThreadWeight(m.policy.maxRetries), i, n.phase[i]);
    SumByUpdate(m.status, PendingWeight(m.policy.maxRetries), i, n.status[i]);
  }

  lemma ThreadDecreases(m: Machine, a: Action, i: nat)
    requires Inv(m) && Enabled(m, a)
    requires ThreadAction(a) && a.i == i
    ensures Measure(Apply(m, a)) < Measure(m)
  {
    ThreadMovesOne(m, a);
    ThreadWeighsLess(m, a);
    ThreadMoveDecreases(m, Apply(m, a), i);
  }

  lemma ThreadMovesOne(m: Machine, a: Action)
    requires SameLengths(m) && Enabled(m, a) && ThreadAction(a)
    ensures var n, i := Apply(m, a), a.i;
      && n.plan == m.plan && n.policy == m.policy && n.iteration == m.iteration && n.pc == m.pc
      && n.phase == m.phase[i := n.phase[i]] && n.status == m.status[i := n.status[i]]
  {
    assert m.status[a.i := m.status[a.i]] == m.status;
  }

  lemma ThreadWeighsLess(m: Machine, a: Action)
    requires StepsOk(m) && Enabled(m, a) && ThreadAction(a)
    ensures var n, i, r := Apply(m, a), a.i, m.policy.maxRetries;
      PendingWeight(r)(n.status[i]) + PhaseWeight(r, n.phase[i])
      < PendingWeight(r)(m.status[i]) + PhaseWeight(r, m.phase[i])
  {
    var i := a.i;
    assert LocalOk(m.policy.maxRetries, m.exn, m.status[i], m.phase[i], m.starts[i], m.calls[i]);
  }

  lemma SubmitDecreases(m: Machine)
    requires Inv(m) && m.pc.Submitting?
    ensures Measure(DoSubmit(m)) < Measure(m)
  {
    if m.pc.rest != [] && !m.cancelled {
      assert m.pc.rest[0] in m.pc.rest;
      SumByUpdate(m.phase, ThreadWeight(m.policy.maxRetries), m.pc.rest[0], Submitted);
    }
  }

  lemma EndRoundDecreases(m: Machine)
    requires SameLengths(m) && m.pc.Draining?
    ensures Measure(DoEndRound(m)) < Measure(m)
  {
    SkipsLowerPending(m.status, SkipPending(m.status), m.policy.maxRetries);
  }

  /**
   * Every action except a cancellation request brings the run strictly closer to its end, so the loop,
   * the retries and the batches terminate on every plan, cyclic ones included.
   */
  lemma ActionDecreases(m: Machine, a: Action)
    requires Inv(m) && Enabled(m, a) && !a.RequestCancel?
    ensures Measure(Apply(m, a)) < Measure(m)
  {
    if ThreadAction(a) {
      ThreadDecreases(m, a, a.i);
    } else if a.Submit? {
      SubmitDecreases(m);
    } else if a.EndRound? {
      EndRoundDecreases(m);
    } else if a.BeginRun? || a.FinishRun? {
    } else if DoHead(m, a.timeUp).pc.Exiting? {
      HeadExitDecreases(m, a.timeUp);
    } else {
      HeadLaunchDecreases(m, a.timeUp);
    }
  }

  function CancelRequests(acts: seq<Action>): nat {
    SumBy(acts, (a: Action) => if a.RequestCancel? then 1 else 0)
  }

  /** No run is longer than the measure of its start, cancellation requests apart. */
  lemma {:induction false} RunsAreBounded(m: Machine, acts: seq<Action>)
    requires Inv(m) && CanRun(m, acts)
    ensures |acts| <= Measure(m) + CancelRequests(acts)
    decreases |acts|
  {
    if acts != [] {
      var n := Apply(m, acts[0]);
      StepKeepsInv(m, acts[0]);
      if acts[0].RequestCancel? {
        assert Measure(n) == Measure(m);
      } else {
        ActionDecreases(m, acts[0]);
      }
      RunsAreBounded(n, acts[1..]);
    }
  }

  /** A run that has not ended can always go on without help from outside. */
  lemma NeverStuck(m: Machine) returns (a: Action)
    requires Inv(m) && !m.pc.Finished?
    ensures Enabled(m, a) && !a.RequestCancel?
  {
    if i :| 0 <= i < |m.phase| && !m.phase[i].Idle? {
      match m.phase[i] {
        case Submitted => a := Start(i);
        case Checking(_) => a := Reserve(i, false);
        case Calling(_) => a := Return(i, Fatal);
        case HasResult(_, _) => a := Merge(i);
        case HasFailure(_, _) => a := Merge(i);
        case Saving => a := SaveStep(i, true);
      }
    } else {
      match m.pc {
        case Begin => a := BeginRun;
        case Head => a := HeadRound(false);
        case Submitting(_) => a := Submit;
        case Draining => a := EndRound;
        case Exiting => a := FinishRun(true);
      }
    }
  }

  /** The `3 * len(steps)` cap never decides: an unfinished round count stays below the number of steps. */
  lemma CapNeverDecides(m: Machine)
    requires Inv(m) && m.pc.Head? && !Complete(m.status)
    ensures m.iteration < |m.plan| && CountPending(m.status) > 0
  {
    var i :| 0 <= i < |m.status| && !Terminal(m.status[i]);
    assert m.phase[i].Idle?;
    SumByAtLeast(m.status, IsPending, i);
  }

  // ---- progress -------------------------------------------------------------------------------

  /** Only provider calls fail: no cancellation, no broken agent role. */
  predicate OnlyProviderFails(acts: seq<Action>) {
    forall i :: 0 <= i < |acts| ==> !acts[i].RequestCancel? && !acts[i].LoadFails?
  }

  predicate Undisturbed(m: Machine) {
    !m.cancelled && m.exn == NoExn
  }

  /** Plans for which a run settles every step. */
  predicate WellFormed(plan: Plan) {
    && UniqueIds(plan) && Forward(plan) && OptionalBelowCritical(plan)
    && forall i :: 0 <= i < |plan| ==> plan[i].policyKnown
  }

  /** Plans and policies with which every run settles: optional failures stop others, or hang below critical steps. */
  predicate Settling(plan: Plan, policy: Policy) {
    && UniqueIds(plan) && Forward(plan)
    && (policy.continueOnOptionalFailure ==> OptionalBelowCritical(plan))
    && forall i :: 0 <= i < |plan| ==> plan[i].policyKnown
  }

  /** How a settled run ends. */
  predicate Settled(m: Machine)
    requires SameLengths(m)
  {
    && Complete(m.status)
    && (m.runStatus == Failed || m.runStatus == Completed)
    && (m.runStatus == Failed <==> HasCriticalFailure(m.plan, m.status))
  }

  /** Out of the loop with every step settled, or ended with every step settled. */
  predicate SettledAtEnd(m: Machine)
    requires SameLengths(m)
  {
    && (m.pc.Exiting? ==> Complete(m.status) && m.runStatus == RunRunning)
    && (m.pc.Finished? ==> Settled(m))
  }

  lemma SettledPlaces(m: Machine)
    requires Inv(m) && m.exn == NoExn && AllIdle(m) && (m.pc.Head? || m.pc.Draining?)
    ensures forall i :: 0 <= i < |m.status| ==> m.status[i] != Running && m.status[i] != Skipped
  {
    forall i | 0 <= i < |m.status| ensures m.status[i] != Running && m.status[i] != Skipped {
      assert m.phase[i].Idle?;
    }
  }

  lemma DispatchSettles(m: Machine)
    requires SameLengths(m) && Undisturbed(m) && !HasCriticalFailure(m.plan, m.status)
    requires Settling(m.plan, m.policy) && m.runStatus == RunRunning
    requires forall i :: 0 <= i < |m.status| ==> m.status[i] != Running && m.status[i] != Skipped
    requires HasPending(m.status)
    ensures var n := Dispatch(m); Undisturbed(n) && SettledAtEnd(n)
  {
    if ReadySteps(m.plan, m.status) == [] {
      if m.policy.continueOnOptionalFailure {
        Blocking.StuckRoundSettles(m.plan, m.policy, m.status);
      } else {
        Blocking.StuckRoundSettlesIff(m.plan, m.policy, m.status);
      }
    }
  }

  lemma HeadSettles(m: Machine, timeUp: bool)
    requires SameLengths(m) && Undisturbed(m) && !HasCriticalFailure(m.plan, m.status)
    requires Settling(m.plan, m.policy) && m.runStatus == RunRunning
    requires forall i :: 0 <= i < |m.status| ==> m.status[i] != Running && m.status[i] != Skipped
    requires Complete(m.status) || m.iteration < 3 * |m.plan|
    ensures var n := DoHead(m, timeUp); Undisturbed(n) && SettledAtEnd(n)
  {
    if !Complete(m.status) {
      var i :| 0 <= i < |m.status| && !Terminal(m.status[i]);
      assert m.status[i] == Pending;
      DispatchSettles(m.(iteration := m.iteration + 1));
    }
  }

  lemma EndRoundSettles(m: Machine)
    requires Inv(m) && Enabled(m, EndRound) && Undisturbed(m)
    ensures var n := DoEndRound(m); Undisturbed(n) && SettledAtEnd(n)
  {
    SettledPlaces(m);
  }

  lemma StepSettles(m: Machine, a: Action)
    requires Inv(m) && Enabled(m, a) && Undisturbed(m)
    requires Settling(m.plan, m.policy) && m.policy.stopCondition == AllRequired
    requires !a.RequestCancel? && !a.LoadFails?
    requires SettledAtEnd(m)
    ensures var n := Apply(m, a); Undisturbed(n) && SettledAtEnd(n)
  {
    if a.HeadRound? {
      SettledPlaces(m);
      if !Complete(m.status) {
        CapNeverDecides(m);
      }
      HeadSettles(m, a.timeUp);
    } else if a.EndRound? {
      EndRoundSettles(m);
    } else if ThreadAction(a) && (m.pc.Exiting? || m.pc.Finished?) {
      assert false;
    }
  }

  /**
   * On every such plan, under the default stop condition, a run in which only provider calls fail ends
   * with every step success, error or skipped, and fails exactly when a critical step failed.
   */
  lemma {:induction false} RunSettles(m: Machine, acts: seq<Action>)
    requires Inv(m) && Undisturbed(m) && CanRun(m, acts) && OnlyProviderFails(acts)
    requires Settling(m.plan, m.policy) && m.policy.stopCondition == AllRequired
    requires SettledAtEnd(m)
    ensures Run(m, acts).pc.Finished? ==> SameLengths(Run(m, acts)) && Settled(Run(m, acts))
    decreases |acts|
  {
    if acts != [] {
      StepSettles(m, acts[0]);
      StepKeepsInv(m, acts[0]);
      StepKeepsSuccesses(m, acts[0]);
      assert OnlyProviderFails(acts[1..]);
      RunSettles(Apply(m, acts[0]), acts[1..]);
    }
  }
}
