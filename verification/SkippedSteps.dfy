/** When a run that completed holds skipped steps (chain/executor.py). */
module SkippedSteps {
  import opened Collections
  import opened Models
  import opened ExecutorMachine
  import opened ExecutorInvariants
  import opened ExecutorProperties
  import Blocking
  import Strategies

  predicate HasSkipped(status: seq<Status>) {
    exists j :: 0 <= j < |status| && status[j] == Skipped
  }

  /** Step `j` depends on a step that failed. */
  predicate BelowError(plan: Plan, status: seq<Status>, j: nat)
    requires |plan| == |status| && j < |plan|
  {
    exists d | d in plan[j].dependsOn :: StatusOf(plan, status, d) == Some(Error)
  }

  predicate SomeBelowError(plan: Plan, status: seq<Status>)
    requires |plan| == |status|
  {
    exists j :: 0 <= j < |plan| && BelowError(plan, status, j)
  }

  /** The budget or the clock ends the loop at this head although steps are pending. */
  predicate TurnedAway(h: Machine, timeUp: bool) {
    HasPending(h.status) && (h.attempted >= h.policy.maxProviderCalls || timeUp)
  }

  // ---- the end of a completed run -------------------------------------------------------------

  /** `acts` is `before`, the head that leaves the loop, and the end. */
  predicate EndsAt(m: Machine, acts: seq<Action>, before: seq<Action>, timeUp: bool, ok: bool) {
    && acts == before + [HeadRound(timeUp), FinishRun(ok)]
    && CanRun(m, before)
    && var h := Run(m, before);
       && SameLengths(h) && h.pc.Head? && Undisturbed(h) && Inv(h) && DoHead(h, timeUp).pc.Exiting?
       && Run(m, before).plan == m.plan && h.policy == m.policy && CanRun(m, acts)
       && Run(m, acts) == DoFinish(DoHead(h, timeUp), ok)
  }

  lemma StaysUndisturbed(m: Machine, a: Action)
    requires Inv(m) && Undisturbed(m) && Enabled(m, a) && !a.RequestCancel? && !a.LoadFails?
    ensures Undisturbed(Apply(m, a))
  {
  }

  /** Once the run has ended only a cancellation can still be requested. */
  lemma NothingAfter(m: Machine, acts: seq<Action>)
    requires Inv(m) && m.pc.Finished? && CanRun(m, acts)
    ensures acts != [] ==> acts[0].RequestCancel?
  {
  }

  lemma OnlyTheEnd(m: Machine, acts: seq<Action>)
    requires Inv(m) && m.pc.Exiting? && CanRun(m, acts) && OnlyProviderFails(acts) && Run(m, acts).pc.Finished?
    ensures |acts| == 1 && acts[0].FinishRun?
  {
    StepKeepsInv(m, acts[0]);
    NothingAfter(Apply(m, acts[0]), acts[1..]);
  }

  /** Other ways out of the loop fail the run. */
  lemma LeavesAtHead(m: Machine, a: Action, ok: bool)
    requires Inv(m) && Undisturbed(m) && !m.pc.Exiting? && Enabled(m, a) && !a.RequestCancel? && !a.LoadFails?
    requires Apply(m, a).pc.Exiting? && DoFinish(Apply(m, a), ok).runStatus == Completed
    ensures a.HeadRound?
  {
    if a.EndRound? {
      EndRoundFails(m, ok);
    }
  }

  lemma EndRoundFails(m: Machine, ok: bool)
    requires SameLengths(m) && m.exn == NoExn && m.runStatus == RunRunning && m.pc.Draining? && DoEndRound(m).pc.Exiting?
    ensures DoFinish(DoEndRound(m), ok).runStatus == Failed
  {
    var i :| 0 <= i < |m.plan| && m.status[i] == Error && m.plan[i].critical;
    assert DoEndRound(m).status[i] == Error;
  }

  lemma LastTwo(m: Machine, a: Action, b: Action)
    requires Enabled(m, a) && Enabled(Apply(m, a), b)
    ensures CanRun(m, [a, b]) && Run(m, [a, b]) == Apply(Apply(m, a), b)
  {
    var n := Apply(m, a);
    assert [b][1..] == [] && [a, b][1..] == [b];
    assert Run(n, [b]) == Run(Apply(n, b), []) == Apply(n, b);
  }

  lemma EndsAtOnce(m: Machine, timeUp: bool, ok: bool)
    requires Inv(m) && Undisturbed(m) && m.pc.Head? && DoHead(m, timeUp).pc.Exiting?
    ensures EndsAt(m, [HeadRound(timeUp), FinishRun(ok)], [], timeUp, ok)
  {
    LastTwo(m, HeadRound(timeUp), FinishRun(ok));
    assert [] + [HeadRound(timeUp), FinishRun(ok)] == [HeadRound(timeUp), FinishRun(ok)];
  }

  /** The first action leaves the loop. */
  lemma LeavesNow(m: Machine, acts: seq<Action>)
    requires Inv(m) && Undisturbed(m) && !m.pc.Exiting? && CanRun(m, acts) && OnlyProviderFails(acts) && acts != []
    requires Apply(m, acts[0]).pc.Exiting? && Run(m, acts).pc.Finished? && Run(m, acts).runStatus == Completed
    ensures |acts| == 2 && acts[0].HeadRound? && acts[1].FinishRun?
  {
    var n := Apply(m, acts[0]);
    StepKeepsInv(m, acts[0]);
    TailUndisturbed(acts);
    OnlyTheEnd(n, acts[1..]);
    assert acts == [acts[0], acts[1]];
    LastTwo(m, acts[0], acts[1]);
    LeavesAtHead(m, acts[0], acts[1].saveOk);
  }

  lemma TailUndisturbed(acts: seq<Action>)
    requires OnlyProviderFails(acts) && acts != []
    ensures OnlyProviderFails(acts[1..]) && !acts[0].RequestCancel? && !acts[0].LoadFails?
  {
  }

  lemma StaysInside(m: Machine, a: Action)
    requires Inv(m) && Undisturbed(m) && Enabled(m, a) && !a.RequestCancel? && !a.LoadFails?
    requires !m.pc.Exiting? && !m.pc.Finished?
    ensures Inv(Apply(m, a)) && Undisturbed(Apply(m, a)) && !Apply(m, a).pc.Finished?
  {
    StepKeepsInv(m, a);
    StaysUndisturbed(m, a);
  }

  lemma EndsLater(m: Machine, acts: seq<Action>, before: seq<Action>, timeUp: bool, ok: bool)
    requires acts != [] && Enabled(m, acts[0]) && EndsAt(Apply(m, acts[0]), acts[1..], before, timeUp, ok)
    ensures EndsAt(m, acts, [acts[0]] + before, timeUp, ok)
  {
    assert ([acts[0]] + before)[1..] == before;
    assert acts == [acts[0]] + acts[1..];
  }

  /** A run that ends as completed left the loop at the head of its last round. */
  lemma {:induction false} LastRound(m: Machine, acts: seq<Action>) returns (before: seq<Action>, timeUp: bool, ok: bool)
    requires Inv(m) && Undisturbed(m) && !m.pc.Exiting? && !m.pc.Finished?
    requires CanRun(m, acts) && OnlyProviderFails(acts)
    requires Run(m, acts).pc.Finished? && Run(m, acts).runStatus == Completed
    ensures EndsAt(m, acts, before, timeUp, ok)
    decreases |acts|
  {
    TailUndisturbed(acts);
    if Apply(m, acts[0]).pc.Exiting? {
      LeavesNow(m, acts);
      before, timeUp, ok := [], acts[0].timeUp, acts[1].saveOk;
      EndsAtOnce(m, timeUp, ok);
      assert acts == [HeadRound(timeUp), FinishRun(ok)];
    } else {
      StaysInside(m, acts[0]);
      before, timeUp, ok := LastRound(Apply(m, acts[0]), acts[1..]);
      EndsLater(m, acts, before, timeUp, ok);
      before := [acts[0]] + before;
    }
  }

  // ---- skipped steps --------------------------------------------------------------------------

  /** What skipping leaves skipped goes back to an error. */
  lemma {:induction false} SkippedBelowError(plan: Plan, policy: Policy, status: seq<Status>, j: nat)
    requires |plan| == |status| && Forward(plan) && j < |plan|
    requires forall k :: 0 <= k < |status| ==> status[k] != Skipped
    requires SkipBlocked(plan, policy, status)[j] == Skipped
    ensures SomeBelowError(plan, SkipBlocked(plan, policy, status))
    decreases j
  {
    var r := SkipBlocked(plan, policy, status);
    Blocking.SkipBlockedIsClosure(plan, policy, status);
    var d :| d in plan[j].dependsOn && var s := StatusOf(plan, r, d); s.Some? && FailedStatus(s.value);
    if StatusOf(plan, r, d) == Some(Error) {
      assert BelowError(plan, r, j);
    } else {
      SkippedBelowError(plan, policy, status, FindStep(plan, d).value);
    }
  }

  /** A step below an error is not started, so in a settled run it is skipped. */
  lemma BelowErrorSkipped(plan: Plan, status: seq<Status>, j: nat)
    requires |plan| == |status| && j < |plan| && DependencySafe(plan, status) && Complete(status)
    requires BelowError(plan, status, j)
    ensures HasSkipped(status)
  {
    assert !DepsMet(plan, status, j);
    assert status[j] == Skipped;
  }

  lemma HeadTurnedAway(h: Machine, timeUp: bool)
    requires Inv(h) && h.pc.Head? && Undisturbed(h) && TurnedAway(h, timeUp)
    ensures HasSkipped(DoHead(h, timeUp).status)
  {
    var i :| 0 <= i < |h.status| && h.status[i] == Pending;
    CapNeverDecides(h);
    assert DoHead(h, timeUp).status[i] == Skipped;
  }

  lemma HeadNotTurnedAway(h: Machine, timeUp: bool)
    requires Inv(h) && h.pc.Head? && Undisturbed(h) && Forward(h.plan) && DoHead(h, timeUp).pc.Exiting?
    requires !TurnedAway(h, timeUp) && HasSkipped(DoHead(h, timeUp).status)
    ensures SomeBelowError(h.plan, DoHead(h, timeUp).status)
  {
    var n := DoHead(h, timeUp);
    var j :| 0 <= j < |n.status| && n.status[j] == Skipped;
    assert h.status[j] == Pending;
    CapNeverDecides(h);
    assert n.status == SkipBlocked(h.plan, h.policy, h.status);
    SkippedBelowError(h.plan, h.policy, h.status, j);
  }

  /** How the last head leaves the loop. */
  lemma LastHead(h: Machine, timeUp: bool)
    requires Inv(h) && h.pc.Head? && Undisturbed(h) && Forward(h.plan) && DoHead(h, timeUp).pc.Exiting?
    ensures HasSkipped(DoHead(h, timeUp).status) ==> TurnedAway(h, timeUp) || SomeBelowError(h.plan, DoHead(h, timeUp).status)
    ensures TurnedAway(h, timeUp) ==> HasSkipped(DoHead(h, timeUp).status)
  {
    if TurnedAway(h, timeUp) {
      HeadTurnedAway(h, timeUp);
    } else if HasSkipped(DoHead(h, timeUp).status) {
      HeadNotTurnedAway(h, timeUp);
    }
  }

  /**
   * A completed run holds a skipped step exactly when some step depends on a failed one, or the budget or the clock
   * turned the last round away.
   */
  lemma SkippedIff(plan: Plan, policy: Policy, acts: seq<Action>) returns (before: seq<Action>, timeUp: bool, ok: bool)
    requires Settling(plan, policy) && policy.stopCondition == AllRequired
    requires CanRun(FreshRun(plan, policy), acts) && OnlyProviderFails(acts)
    requires var m := Run(FreshRun(plan, policy), acts); m.pc.Finished? && m.runStatus == Completed
    ensures EndsAt(FreshRun(plan, policy), acts, before, timeUp, ok)
    ensures var m := Run(FreshRun(plan, policy), acts);
      && SameLengths(m) && m.plan == plan
      && (HasSkipped(m.status) <==>
          SomeBelowError(plan, m.status) || TurnedAway(Run(FreshRun(plan, policy), before), timeUp))
  {
    var m := FreshRun(plan, policy);
    FreshRunInv(plan, policy);
    before, timeUp, ok := LastRound(m, acts);
    LastHead(Run(m, before), timeUp);
    RunSettles(m, acts);
    RunKeepsInv(m, acts);
    var n := Run(m, acts);
    if SomeBelowError(plan, n.status) {
      var j :| 0 <= j < |plan| && BelowError(plan, n.status, j);
      BelowErrorSkipped(plan, n.status, j);
    }
  }

  // ---- the budget as the reason ---------------------------------------------------------------

  /** A head with steps pending and no call left. */
  predicate Dry(h: Machine) {
    h.pc.Head? && HasPending(h.status) && h.attempted >= h.policy.maxProviderCalls
  }

  /** Calls for all attempts of all steps but one keep every run of the plan from running dry. */
  lemma NeverDry(plan: Plan, policy: Policy, acts: seq<Action>)
    requires UniqueIds(plan) && CanRun(FreshRun(plan, policy), acts)
    requires (|plan| - 1) * (1 + policy.maxRetries) < policy.maxProviderCalls
    ensures !Dry(Run(FreshRun(plan, policy), acts))
  {
    var m := FreshRun(plan, policy);
    FreshRunInv(plan, policy);
    RunKeepsInv(m, acts);
    RunKeepsSuccesses(m, acts);
    var h := Run(m, acts);
    if HasPending(h.status) {
      var i :| 0 <= i < |h.status| && h.status[i] == Pending;
      PendingNotDry(h, i);
    }
  }

  /** One of the steps has made no call: the others have made at most all of theirs. */
  lemma SumButOne(calls: seq<nat>, each: nat, i: nat)
    requires i < |calls| && calls[i] == 0 && forall j :: 0 <= j < |calls| ==> calls[j] <= each
    ensures SumBy(calls, Itself) <= (|calls| - 1) * each
  {
    SumByUpdate(calls, Itself, i, each);
    Strategies.SumAtMost(calls[i := each], each);
    assert |calls| * each == (|calls| - 1) * each + each;
  }

  lemma PendingNotDry(h: Machine, i: nat)
    requires Inv(h) && i < |h.plan| && h.status[i] == Pending
    requires (|h.plan| - 1) * (1 + h.policy.maxRetries) < h.policy.maxProviderCalls
    ensures h.attempted < h.policy.maxProviderCalls
  {
    CallsWithin(h, i);
    SumButOne(h.calls, 1 + h.policy.maxRetries, i);
  }

  lemma CallsWithin(h: Machine, i: nat)
    requires Inv(h) && i < |h.plan| && h.status[i] == Pending
    ensures |h.calls| == |h.plan| && h.calls[i] == 0 && forall j :: 0 <= j < |h.calls| ==> h.calls[j] <= 1 + h.policy.maxRetries
    ensures h.attempted <= SumBy(h.calls, Itself)
  {
  }

  ghost predicate NeverRunsDry(plan: Plan, policy: Policy) {
    forall acts :: CanRun(FreshRun(plan, policy), acts) ==> !Dry(Run(FreshRun(plan, policy), acts))
  }

  lemma EnoughForAllButOne(plan: Plan, policy: Policy)
    requires WellFormed(plan) && (|plan| - 1) * (1 + policy.maxRetries) < policy.maxProviderCalls
    ensures NeverRunsDry(plan, policy)
  {
    forall acts | CanRun(FreshRun(plan, policy), acts) ensures !Dry(Run(FreshRun(plan, policy), acts)) {
      NeverDry(plan, policy, acts);
    }
  }

  /** No plan of the six builders runs dry under its own policy. */
  lemma BuildersNeverDry(includeReview: bool, n: nat, parallel: int)
    ensures forall s | s in [Strategies.BuildDirect(), Strategies.BuildContextWindow(),
                             Strategies.BuildPipeline(includeReview), Strategies.BuildDelegate()] ::
              NeverRunsDry(s.plan, s.policy)
    ensures var p := Strategies.PolicyOf(n * 3 + 4, 2);
      && NeverRunsDry(Strategies.FanOut("chunk_", n, true, "cc_plan", "cc_execute"), p)
      && NeverRunsDry(Strategies.FanOut("map_", n, false, "mr_reduce", "mr_execute"), p.(maxParallelSteps := parallel))
  {
    Strategies.StraightLinePlansWellFormed(includeReview);
    Strategies.FanOutPlansWellFormed(n);
    EnoughForAllButOne(Strategies.BuildDirect().plan, Strategies.BuildDirect().policy);
    EnoughForAllButOne(Strategies.BuildContextWindow().plan, Strategies.BuildContextWindow().policy);
    EnoughForAllButOne(Strategies.BuildPipeline(includeReview).plan, Strategies.BuildPipeline(includeReview).policy);
    EnoughForAllButOne(Strategies.BuildDelegate().plan, Strategies.BuildDelegate().policy);
    var p := Strategies.PolicyOf(n * 3 + 4, 2);
    EnoughForAllButOne(Strategies.FanOut("chunk_", n, true, "cc_plan", "cc_execute"), p);
    EnoughForAllButOne(Strategies.FanOut("map_", n, false, "mr_reduce", "mr_execute"), p.(maxParallelSteps := parallel));
  }
}
