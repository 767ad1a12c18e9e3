/** With one worker: exactly which plans and budgets have a run that completes with steps skipped because its calls are spent. */
module SpentBudget {
  import opened Collections
  import opened Models
  import opened ExecutorMachine
  import opened ExecutorInvariants
  import opened ExecutorProperties
  import opened PlayedRuns
  import opened RefusedCalls
  import opened SkippedSteps

  /** No more calls than all attempts of all steps but one. */
  predicate Short(plan: Plan, policy: Policy) {
    plan != [] && policy.maxProviderCalls <= (|plan| - 1) * (1 + policy.maxRetries)
  }

  /** What is left stays short of all attempts of the unfinished steps but one, and a launched step still has its call. */
  predicate Tight(m: Machine) {
    var u := 1 + m.policy.maxRetries;
    match Busy(m)
    case None => 0 <= Left(m) <= Wanted(m) - u
    case Some(i) =>
      match m.phase[i]
      case Checking(a) => a < u && 1 <= Left(m) <= Wanted(m) - u - a
      case Calling(a) => a < u && 0 <= Left(m) <= Wanted(m) - u - a - 1
      case HasResult(_, _) => 0 <= Left(m) <= Wanted(m) - u - u
      case HasFailure(_, _) => false
      case Saving => 0 <= Left(m) <= Wanted(m) - u
      case _ => 1 <= Left(m) <= Wanted(m) - u
  }

  /** A run with one worker in which nothing has failed. */
  predicate Spending(m: Machine) {
    && SameLengths(m) && Alone(m) && Undisturbed(m)
    && (m.pc.Begin? || m.pc.Head? || m.pc.Draining?)
    && (forall j :: 0 <= j < |m.status| ==> m.status[j] != Error && m.status[j] != Skipped)
    && m.policy.maxParallelSteps <= 1 && Forward(m.plan) && (forall j :: 0 <= j < |m.plan| ==> m.plan[j].policyKnown)
    && Tight(m)
  }

  /** Every step uses up its attempts, as far as there are calls, and succeeds. */
  function Answers(m: Machine): Outcome {
    match Busy(m)
    case Some(i) =>
      if m.phase[i].Calling? && m.phase[i].attempt < m.policy.maxRetries && Left(m) >= 1 then Retryable else Answer("")
    case None => Retryable
  }

  /** Where the run is to get: pending steps, no call left, no failure. */
  predicate AllSpent(m: Machine) {
    && SameLengths(m) && Undisturbed(m) && Dry(m) && AllIdle(m)
    && forall j :: 0 <= j < |m.status| ==> m.status[j] == Pending || m.status[j] == Success
  }

  // ---- one action -----------------------------------------------------------------------------

  /** Where more than the attempts of one step are wanted, so are those of two. */
  lemma TwoSteps(k: nat, u: nat)
    requires u >= 1 && k * u > u
    ensures k * u >= u + u
  {
    assert (k - 1) * u == k * u - u;
    AtLeastOnce(k - 1, u);
  }

  lemma StartSpends(m: Machine, i: nat)
    requires Inv(m) && Spending(m) && Busy(m) == Some(i) && m.phase[i].Submitted?
    ensures Spending(Apply(m, Start(i)))
  {
    ThreadBusy(m, Start(i), i);
    assert LocalOk(m.policy.maxRetries, m.exn, m.status[i], m.phase[i], m.starts[i], m.calls[i]);
    SumByUpdate(m.status, NotDone, i, Running);
  }

  lemma ReserveSpends(m: Machine, i: nat)
    requires Inv(m) && Spending(m) && Busy(m) == Some(i) && m.phase[i].Checking?
    ensures Spending(Apply(m, Reserve(i, false)))
  {
    ThreadBusy(m, Reserve(i, false), i);
  }

  lemma ReturnSpends(m: Machine, i: nat)
    requires Inv(m) && Spending(m) && Busy(m) == Some(i) && m.phase[i].Calling?
    ensures Spending(Apply(m, Return(i, Answers(m))))
  {
    ThreadBusy(m, Return(i, Answers(m)), i);
    InFlightHere(m, i);
    TwoSteps(SumBy(m.status, NotDone), 1 + m.policy.maxRetries);
  }

  lemma MergeSpends(m: Machine, i: nat)
    requires Inv(m) && Spending(m) && Busy(m) == Some(i) && m.phase[i].HasResult?
    ensures Spending(Apply(m, Merge(i)))
  {
    ThreadBusy(m, Merge(i), i);
    assert LocalOk(m.policy.maxRetries, m.exn, m.status[i], m.phase[i], m.starts[i], m.calls[i]);
    SumByUpdate(m.status, NotDone, i, Success);
    OneLess(SumBy(m.status, NotDone), 1 + m.policy.maxRetries);
  }

  lemma SaveSpends(m: Machine, i: nat)
    requires Inv(m) && Spending(m) && Busy(m) == Some(i) && m.phase[i].Saving?
    ensures Spending(Apply(m, SaveStep(i, true)))
  {
    ThreadBusy(m, SaveStep(i, true), i);
  }

  lemma ThreadSpends(m: Machine)
    requires Inv(m) && Spending(m) && Busy(m).Some?
    ensures Enabled(m, NextAction(m, Answers(m))) && Spending(Apply(m, NextAction(m, Answers(m))))
  {
    var i := Busy(m).value;
    match m.phase[i]
    case Submitted => StartSpends(m, i);
    case Checking(_) => ReserveSpends(m, i);
    case Calling(_) => ReturnSpends(m, i);
    case HasResult(_, _) => MergeSpends(m, i);
    case Saving => SaveSpends(m, i);
  }

  lemma PendingLeft(m: Machine)
    requires Inv(m) && Spending(m) && m.pc.Head?
    ensures HasPending(m.status) && !Complete(m.status) && m.reserved == 0 && ReadySteps(m.plan, m.status) != []
    ensures forall j :: 0 <= j < |m.status| ==> m.status[j] == Pending || m.status[j] == Success
  {
    forall j | 0 <= j < |m.status| ensures m.status[j] == Pending || m.status[j] == Success {
      assert m.phase[j].Idle?;
    }
    SumByZero(m.phase, InFlight);
    SumByZero(m.status, NotDone);
    NoneBusy(m.phase, 0);
    var j :| 0 <= j < |m.status| && NotDone(m.status[j]) != 0;
    SomethingReady(m.plan, m.status);
  }

  lemma HeadSpends(m: Machine)
    requires Inv(m) && Spending(m) && m.pc.Head? && !AllSpent(m)
    ensures Spending(DoHead(m, false))
  {
    PendingLeft(m);
    CapNeverDecides(m);
    assert DoHead(m, false) == Dispatch(m.(iteration := m.iteration + 1));
    LaunchSpends(m.(iteration := m.iteration + 1));
  }

  lemma LaunchSpends(m: Machine)
    requires Spending(m) && m.pc.Head? && AllIdle(m) && ReadySteps(m.plan, m.status) != [] && Left(m) >= 1
    ensures Spending(Dispatch(m))
  {
    var ready := ReadySteps(m.plan, m.status);
    assert ready[0] in ready;
    NoneBusy(m.phase, 0);
    BusyFirst(m.phase, ready[0]);
  }

  lemma SchedulerSpends(m: Machine)
    requires Inv(m) && Spending(m) && Busy(m).None? && !AllSpent(m)
    ensures Enabled(m, NextAction(m, Answers(m))) && Spending(Apply(m, NextAction(m, Answers(m))))
  {
    if m.pc.Head? {
      HeadSpends(m);
    }
  }

  // ---- the run --------------------------------------------------------------------------------

  lemma SpentReached(m: Machine) returns (acts: seq<Action>)
    requires Inv(m) && Spending(m)
    ensures CanRun(m, acts) && OnlyProviderFails(acts) && AllSpent(Run(m, acts)) && Inv(Run(m, acts))
    decreases Measure(m)
  {
    if AllSpent(m) {
      acts := [];
    } else {
      var a := NextAction(m, Answers(m));
      NextIsEnabled(m, Answers(m));
      if Busy(m).Some? {
        ThreadSpends(m);
      } else {
        SchedulerSpends(m);
      }
      StepKeepsInv(m, a);
      ActionDecreases(m, a);
      var rest := SpentReached(Apply(m, a));
      InFront(m, a, rest);
      InFrontUndisturbed(a, rest);
      acts := [a] + rest;
    }
  }

  lemma FreshSpends(plan: Plan, policy: Policy)
    requires Forward(plan) && (forall j :: 0 <= j < |plan| ==> plan[j].policyKnown)
    requires policy.maxParallelSteps <= 1 && Short(plan, policy)
    ensures Spending(FreshRun(plan, policy))
  {
    var m := FreshRun(plan, policy);
    AllPendingCount(|plan|);
    assert m.status == seq(|plan|, _ => Pending);
    OneLess(|plan|, 1 + policy.maxRetries);
    NoneBusy(m.phase, 0);
  }

  lemma SpentHead(m: Machine)
    requires Inv(m) && AllSpent(m)
    ensures var n := DoHead(m, false);
      && n.pc.Exiting? && n.status == SkipPending(m.status) && Undisturbed(n) && n.runStatus == RunRunning
  {
    var i :| 0 <= i < |m.status| && m.status[i] == Pending;
    CapNeverDecides(m);
  }

  lemma FinishCompletes(m: Machine)
    requires SameLengths(m) && m.pc.Exiting? && Undisturbed(m) && m.runStatus == RunRunning && Error !in m.status
    ensures DoFinish(m, true).runStatus == Completed
  {
  }

  /** The last round: what is pending is skipped, and the run counts as completed. */
  lemma SpentCompletes(m: Machine)
    requires Inv(m) && AllSpent(m)
    ensures var end := [HeadRound(false), FinishRun(true)];
      && CanRun(m, end)
      && var n := Run(m, end);
         && n.pc.Finished? && n.runStatus == Completed && n.attempted == m.attempted && n.status == SkipPending(m.status)
  {
    SpentHead(m);
    FinishCompletes(DoHead(m, false));
    LastTwo(m, HeadRound(false), FinishRun(true));
  }

  /** The run ends as completed, with no failure, all calls made, and steps skipped. */
  predicate CompletesSpent(plan: Plan, policy: Policy, acts: seq<Action>) {
    && CanRun(FreshRun(plan, policy), acts) && OnlyProviderFails(acts)
    && var m := Run(FreshRun(plan, policy), acts);
       && m.pc.Finished? && m.runStatus == Completed && m.attempted == policy.maxProviderCalls
       && Error !in m.status && HasSkipped(m.status)
  }

  lemma EndUndisturbed(before: seq<Action>)
    requires OnlyProviderFails(before)
    ensures OnlyProviderFails(before + [HeadRound(false), FinishRun(true)])
  {
  }

  lemma SkippingPending(h: Machine)
    requires AllSpent(h)
    ensures Error !in SkipPending(h.status) && HasSkipped(SkipPending(h.status))
  {
    var i :| 0 <= i < |h.status| && h.status[i] == Pending;
    assert SkipPending(h.status)[i] == Skipped;
  }

  lemma SpentRun(plan: Plan, policy: Policy) returns (acts: seq<Action>)
    requires UniqueIds(plan) && Forward(plan) && (forall j :: 0 <= j < |plan| ==> plan[j].policyKnown)
    requires policy.maxParallelSteps <= 1 && Short(plan, policy)
    ensures CompletesSpent(plan, policy, acts)
  {
    var m := FreshRun(plan, policy);
    FreshRunInv(plan, policy);
    FreshSpends(plan, policy);
    var before := SpentReached(m);
    var h := Run(m, before);
    RunKeepsSuccesses(m, before);
    BudgetKept(h);
    SpentCompletes(h);
    SkippingPending(h);
    EndUndisturbed(before);
    Joined(m, before, [HeadRound(false), FinishRun(true)]);
    acts := before + [HeadRound(false), FinishRun(true)];
  }

  lemma BudgetKept(h: Machine)
    requires Inv(h) && AllSpent(h)
    ensures h.attempted == h.policy.maxProviderCalls
  {
  }

  lemma SpentNeedsFrom(m: Machine, acts: seq<Action>)
    requires Inv(m) && Undisturbed(m) && !m.pc.Exiting? && !m.pc.Finished? && CanRun(m, acts) && OnlyProviderFails(acts)
    requires var n := Run(m, acts);
      n.pc.Finished? && n.runStatus == Completed && n.attempted == m.policy.maxProviderCalls && HasSkipped(n.status)
    ensures Short(m.plan, m.policy)
  {
    var before, timeUp, ok := LastRound(m, acts);
    EndKeeps(m, acts, before, timeUp, ok);
    SkippedWasPending(Run(m, before), timeUp, Run(m, acts).status);
  }

  /** Steps skipped with all calls made: the budget had no call for each attempt of the others. */
  lemma SpentNeeds(plan: Plan, policy: Policy, acts: seq<Action>)
    requires UniqueIds(plan) && CompletesSpent(plan, policy, acts)
    ensures Short(plan, policy)
  {
    FreshRunInv(plan, policy);
    SpentNeedsFrom(FreshRun(plan, policy), acts);
  }

  lemma EndKeeps(m: Machine, acts: seq<Action>, before: seq<Action>, timeUp: bool, ok: bool)
    requires EndsAt(m, acts, before, timeUp, ok)
    ensures var h, n := Run(m, before), Run(m, acts);
      n.attempted == h.attempted && n.status == DoHead(h, timeUp).status && h.plan == m.plan && h.policy == m.policy
  {
  }

  lemma SkippedWasPending(h: Machine, timeUp: bool, status: seq<Status>)
    requires Inv(h) && h.pc.Head? && Undisturbed(h) && status == DoHead(h, timeUp).status && HasSkipped(status)
    requires h.attempted == h.policy.maxProviderCalls
    ensures Short(h.plan, h.policy)
  {
    SettledPlaces(h);
    var j :| 0 <= j < |status| && status[j] == Skipped;
    assert h.status[j] == Pending;
    if (|h.plan| - 1) * (1 + h.policy.maxRetries) < h.policy.maxProviderCalls {
      PendingNotDry(h, j);
    }
  }

  /**
   * With one worker, some run ends as completed without a failure and with steps skipped for want of calls exactly when
   * the budget is no larger than all attempts of all steps but one.
   */
  lemma SpentIff(plan: Plan, policy: Policy)
    requires UniqueIds(plan) && Forward(plan) && (forall j :: 0 <= j < |plan| ==> plan[j].policyKnown)
    requires policy.maxParallelSteps <= 1
    ensures (exists acts :: CompletesSpent(plan, policy, acts)) <==>
            Short(plan, policy)
  {
    if Short(plan, policy) {
      var acts := SpentRun(plan, policy);
    }
    forall acts | CompletesSpent(plan, policy, acts)
      ensures Short(plan, policy)
    {
      SpentNeeds(plan, policy, acts);
    }
  }
}
