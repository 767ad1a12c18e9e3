/**
 * The smallest plan that ExecutorProperties.RunSettles leaves out: an optional step below another optional one is left
 * pending in a run reported as completed. OneFailure has the same for every plan that is left out.
 */
module UnsettledRun {
  import opened Collections
  import opened Models
  import opened ExecutorMachine
  import opened ExecutorProperties

  const CHAIN: Plan := [StepDef("a", false, [], true), StepDef("b", false, ["a"], true)]

  /** `acts` leads from the fresh run to `m`, disturbed by nothing. */
  predicate Leads(policy: Policy, acts: seq<Action>, m: Machine) {
    CanRun(FreshRun(CHAIN, policy), acts) && Run(FreshRun(CHAIN, policy), acts) == m && OnlyProviderFails(acts)
  }

  lemma Then(policy: Policy, acts: seq<Action>, m: Machine, a: Action) returns (acts': seq<Action>, m': Machine)
    requires Leads(policy, acts, m) && Enabled(m, a) && !a.RequestCancel? && !a.LoadFails?
    ensures Leads(policy, acts', m') && m' == Apply(m, a)
  {
    RunAppend(FreshRun(CHAIN, policy), acts, a);
    acts', m' := acts + [a], Apply(m, a);
  }

  lemma ChainLookups()
    ensures FindStep(CHAIN, "a") == Some(0) && FindStep(CHAIN, "b") == Some(1)
    ensures Forward(CHAIN) && UniqueIds(CHAIN)
  {
    assert CHAIN[0].id == "a" && CHAIN[1].id == "b";
    assert FindStepFrom(CHAIN, "a", 0) == Some(0);
    assert FindStepFrom(CHAIN, "b", 0) == FindStepFrom(CHAIN, "b", 1) == Some(1);
  }

  /** While the first step is pending only it is ready; once it failed nothing is, and nothing is skipped. */
  lemma ChainScheduling(policy: Policy)
    requires policy.continueOnOptionalFailure
    ensures ReadySteps(CHAIN, [Pending, Pending]) == [0]
    ensures ReadySteps(CHAIN, [Error, Pending]) == []
    ensures SkipBlocked(CHAIN, policy, [Error, Pending]) == [Error, Pending]
  {
    ChainLookups();
    var s0, s1 := [Pending, Pending], [Error, Pending];
    assert "a" in CHAIN[1].dependsOn;
    assert ReadyFrom(CHAIN, s0, 2) == [] && ReadyFrom(CHAIN, s1, 2) == [];
    assert ReadyFrom(CHAIN, s0, 1) == [] && ReadyFrom(CHAIN, s1, 1) == [];
    SweepOnlySkips(CHAIN, policy, s1, 0);
  }

  /** Up to the first step's thread. */
  lemma Launch(policy: Policy) returns (acts: seq<Action>, m: Machine)
    requires policy.continueOnOptionalFailure && policy.maxProviderCalls > 1
    ensures Leads(policy, acts, m) && SameLengths(m) && m.plan == CHAIN && m.policy == policy
    ensures m.pc.Draining? && m.status == [Pending, Pending] && m.phase == [Submitted, Idle] && m.exn == NoExn
    ensures m.runStatus == RunRunning && m.attempted == m.reserved == 0 && !m.cancelled && m.iteration == 1
  {
    ChainScheduling(policy);
    acts, m := [], FreshRun(CHAIN, policy);
    assert m.status == [Pending, Pending] && m.phase == [Idle, Idle];
    acts, m := Then(policy, acts, m, BeginRun);
    acts, m := Then(policy, acts, m, HeadRound(false));
  }

  /** The run: the first step's only call fails for good, the round ends, nothing is ready. */
  lemma OptionalBelowOptionalStaysPending(policy: Policy) returns (acts: seq<Action>)
    requires policy.continueOnOptionalFailure && policy.maxProviderCalls > 1
    ensures CanRun(FreshRun(CHAIN, policy), acts) && OnlyProviderFails(acts)
    ensures var m := Run(FreshRun(CHAIN, policy), acts);
      m.pc.Finished? && m.runStatus == Completed && m.status == [Error, Pending]
  {
    var m;
    acts, m := FailOnce(policy);
    ChainScheduling(policy);
    acts, m := Then(policy, acts, m, HeadRound(false));
    acts, m := Then(policy, acts, m, FinishRun(true));
  }

  /** Up to the end of the first round. */
  lemma FailOnce(policy: Policy) returns (acts: seq<Action>, m: Machine)
    requires policy.continueOnOptionalFailure && policy.maxProviderCalls > 1
    ensures Leads(policy, acts, m) && SameLengths(m) && m.plan == CHAIN && m.policy == policy
    ensures m.pc.Head? && m.status == [Error, Pending] && m.phase == [Idle, Idle] && m.exn == NoExn
    ensures m.runStatus == RunRunning && m.attempted == 1 && m.reserved == 0 && !m.cancelled && m.iteration == 1
  {
    acts, m := Launch(policy);
    acts, m := Then(policy, acts, m, Start(0));
    acts, m := Then(policy, acts, m, Reserve(0, false));
    acts, m := Then(policy, acts, m, Return(0, Fatal));
    acts, m := Then(policy, acts, m, Merge(0));
    acts, m := Then(policy, acts, m, SaveStep(0, true));
    assert m.status == [Error, Pending] && m.phase == [Idle, Idle] && m.attempted == 1;
    acts, m := Then(policy, acts, m, EndRound);
  }
}
