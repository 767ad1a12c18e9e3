/**
 * When the call budget turns an attempt away (chain/models.py, chain/executor.py): exactly which plans and policies have a run
 * in which it does.
 */
module RefusedCalls {
  import opened Collections
  import opened Models
  import opened ExecutorMachine
  import opened ExecutorInvariants
  import opened ExecutorProperties
  import opened PlayedRuns
  import Strategies

  /** The thread on step `i` asks for a call and the counter, not the clock, turns it away. */
  predicate Refused(m: Machine, i: nat) {
    Enabled(m, Reserve(i, false)) && !m.cancelled && m.attempted + m.reserved >= m.policy.maxProviderCalls
  }

  ghost predicate CanBeRefused(plan: Plan, policy: Policy) {
    exists acts, i: nat :: CanRun(FreshRun(plan, policy), acts) && Refused(Run(FreshRun(plan, policy), acts), i)
  }

  // ---- accounting -----------------------------------------------------------------------------

  function Left(m: Machine): int {
    m.policy.maxProviderCalls - m.attempted - m.reserved
  }

  function NotDone(s: Status): nat {
    if s == Success then 0 else 1
  }

  /** Calls that the unfinished steps could still take, were all attempts used. */
  function Wanted(m: Machine): nat {
    SumBy(m.status, NotDone) * (1 + m.policy.maxRetries)
  }

  /** Enough is wanted to use up what is left, counting what the thread at work has used; and at rest something is left. */
  predicate Room(m: Machine) {
    var r := m.policy.maxRetries;
    match Busy(m)
    case None => 1 <= Left(m) < Wanted(m)
    case Some(i) =>
      match m.phase[i]
      case Checking(a) => a <= r && 0 <= Left(m) < Wanted(m) - a && (a == r ==> Left(m) != 1)
      case Calling(a) => a <= r && 0 <= Left(m) < Wanted(m) - a - 1 && (a == r ==> Left(m) >= 1)
      case HasResult(_, _) => 1 <= Left(m) < Wanted(m) - (1 + r)
      case HasFailure(_, _) => false
      case _ => 1 <= Left(m) < Wanted(m)
  }

  /** A run in which nothing has failed and that is bound to use up the budget in the middle of a step. */
  predicate OnCourse(m: Machine) {
    && SameLengths(m) && Alone(m) && !m.cancelled && m.exn == NoExn
    && (m.pc.Begin? || m.pc.Head? || m.pc.Submitting? || m.pc.Draining?)
    && (forall j :: 0 <= j < |m.status| ==> m.status[j] != Error && m.status[j] != Skipped)
    && m.policy.maxRetries >= 1 && Forward(m.plan) && (forall j :: 0 <= j < |m.plan| ==> m.plan[j].policyKnown)
    && Room(m)
  }

  /** Retry as long as that leaves something for the next step. */
  function Reply(m: Machine): Outcome {
    match Busy(m)
    case Some(i) =>
      if m.phase[i].Calling? then
        var a, r := m.phase[i].attempt, m.policy.maxRetries;
        if a == r || (a == r - 1 && Left(m) == 1) then Answer("") else Retryable
      else Retryable
    case None => Retryable
  }

  predicate AtRefusal(m: Machine) {
    Busy(m).Some? && m.phase[Busy(m).value].Checking? && Left(m) == 0
  }

  // ---- one action -----------------------------------------------------------------------------

  /** Asking for a call and getting it. */
  lemma StartOnCourse(m: Machine, i: nat)
    requires Inv(m) && OnCourse(m) && Busy(m) == Some(i) && m.phase[i].Submitted?
    ensures OnCourse(Apply(m, Start(i)))
  {
    ThreadBusy(m, Start(i), i);
    assert LocalOk(m.policy.maxRetries, m.exn, m.status[i], m.phase[i], m.starts[i], m.calls[i]);
    SumByUpdate(m.status, NotDone, i, Running);
  }

  lemma ReserveOnCourse(m: Machine, i: nat)
    requires Inv(m) && OnCourse(m) && Busy(m) == Some(i) && m.phase[i].Checking? && Left(m) > 0
    ensures OnCourse(Apply(m, Reserve(i, false)))
  {
    ThreadBusy(m, Reserve(i, false), i);
  }

  /** Where more than the attempts of one step are wanted, more than one call is wanted beyond that step. */
  lemma AnotherStep(k: nat, u: nat, a: nat)
    requires u >= 2 && a == u - 2 && k * u - a - 1 > 1
    ensures k * u - u > 1
  {
    var others := k - 1;
    assert others * u == k * u - u;
    assert others * u > 0;
    AtLeastOnce(others, u);
  }

  lemma AtLeastOnce(k: int, u: nat)
    requires k * u > 0
    ensures k * u >= u
  {
    assert k >= 1;
    assert k * u == (k - 1) * u + u;
  }

  lemma ReturnOnCourse(m: Machine, i: nat)
    requires Inv(m) && OnCourse(m) && Busy(m) == Some(i) && m.phase[i].Calling?
    ensures OnCourse(Apply(m, Return(i, Reply(m))))
  {
    ThreadBusy(m, Return(i, Reply(m)), i);
    InFlightHere(m, i);
    var a, r := m.phase[i].attempt, m.policy.maxRetries;
    if a == r - 1 && Left(m) == 1 {
      AnotherStep(SumBy(m.status, NotDone), 1 + r, a);
    }
  }

  lemma MergeOnCourse(m: Machine, i: nat)
    requires Inv(m) && OnCourse(m) && Busy(m) == Some(i) && m.phase[i].HasResult?
    ensures OnCourse(Apply(m, Merge(i)))
  {
    ThreadBusy(m, Merge(i), i);
    assert LocalOk(m.policy.maxRetries, m.exn, m.status[i], m.phase[i], m.starts[i], m.calls[i]);
    SumByUpdate(m.status, NotDone, i, Success);
    OneLess(SumBy(m.status, NotDone), 1 + m.policy.maxRetries);
  }

  lemma OneLess(k: nat, u: nat)
    requires k >= 1
    ensures (k - 1) * u == k * u - u
  {
  }

  lemma SaveOnCourse(m: Machine, i: nat)
    requires Inv(m) && OnCourse(m) && Busy(m) == Some(i) && m.phase[i].Saving?
    ensures OnCourse(Apply(m, SaveStep(i, true)))
  {
    ThreadBusy(m, SaveStep(i, true), i);
  }

  lemma ThreadOnCourse(m: Machine)
    requires Inv(m) && OnCourse(m) && Busy(m).Some? && !AtRefusal(m)
    ensures Enabled(m, NextAction(m, Reply(m))) && OnCourse(Apply(m, NextAction(m, Reply(m))))
  {
    var i := Busy(m).value;
    match m.phase[i]
    case Submitted => StartOnCourse(m, i);
    case Checking(_) => ReserveOnCourse(m, i);
    case Calling(_) => ReturnOnCourse(m, i);
    case HasResult(_, _) => MergeOnCourse(m, i);
    case Saving => SaveOnCourse(m, i);
    case _ =>
  }

  lemma SomethingPending(m: Machine)
    requires Inv(m) && OnCourse(m) && m.pc.Head?
    ensures !Complete(m.status) && HasPending(m.status) && ReadySteps(m.plan, m.status) != []
    ensures forall j :: 0 <= j < |m.status| ==> m.status[j] == Pending || m.status[j] == Success
  {
    forall j | 0 <= j < |m.status| ensures m.status[j] == Pending || m.status[j] == Success {
      assert m.phase[j].Idle?;
    }
    SumByZero(m.status, NotDone);
    assert AllIdle(m);
    assert Busy(m).None?;
    assert SumBy(m.status, NotDone) != 0;
    var j :| 0 <= j < |m.status| && NotDone(m.status[j]) != 0;
    SomethingReady(m.plan, m.status);
  }

  lemma LaunchOnCourse(m: Machine)
    requires OnCourse(m) && m.pc.Head? && AllIdle(m) && Busy(m).None? && ReadySteps(m.plan, m.status) != []
    ensures OnCourse(Dispatch(m))
  {
    var ready := ReadySteps(m.plan, m.status);
    assert ready[0] in ready;
    if Dispatch(m).pc.Draining? {
      BusyFirst(m.phase, ready[0]);
    }
  }

  lemma HeadOnCourse(m: Machine)
    requires Inv(m) && OnCourse(m) && m.pc.Head? && Busy(m).None?
    ensures OnCourse(Apply(m, HeadRound(false)))
  {
    SomethingPending(m);
    CapNeverDecides(m);
    assert DoHead(m, false) == Dispatch(m.(iteration := m.iteration + 1));
    LaunchOnCourse(m.(iteration := m.iteration + 1));
  }

  lemma SubmitOnCourse(m: Machine)
    requires Inv(m) && OnCourse(m) && m.pc.Submitting? && Busy(m).None?
    ensures OnCourse(Apply(m, Submit))
  {
    if m.pc.rest != [] {
      assert m.pc.rest[0] in m.pc.rest;
      BusyFirst(m.phase, m.pc.rest[0]);
    }
  }

  lemma SchedulerOnCourse(m: Machine)
    requires Inv(m) && OnCourse(m) && Busy(m).None?
    ensures Enabled(m, NextAction(m, Reply(m))) && OnCourse(Apply(m, NextAction(m, Reply(m))))
  {
    match m.pc
    case Head => HeadOnCourse(m);
    case Submitting(_) => SubmitOnCourse(m);
    case _ =>
  }

  // ---- the run --------------------------------------------------------------------------------

  /** A run on course is refused in the end. */
  lemma RefusalReached(m: Machine) returns (acts: seq<Action>, i: nat)
    requires Inv(m) && OnCourse(m)
    ensures CanRun(m, acts) && OnlyProviderFails(acts) && Refused(Run(m, acts), i)
    decreases Measure(m)
  {
    if AtRefusal(m) {
      acts, i := [], Busy(m).value;
    } else {
      var a := NextAction(m, Reply(m));
      NextIsEnabled(m, Reply(m));
      if Busy(m).Some? {
        ThreadOnCourse(m);
      } else {
        SchedulerOnCourse(m);
      }
      StepKeepsInv(m, a);
      ActionDecreases(m, a);
      var rest;
      rest, i := RefusalReached(Apply(m, a));
      InFront(m, a, rest);
      InFrontUndisturbed(a, rest);
      acts := [a] + rest;
    }
  }

  lemma {:induction false} AllPendingCount(n: nat)
    ensures SumBy(seq(n, _ => Pending), NotDone) == n
  {
    var s := seq(n, _ => Pending);
    if n > 0 {
      assert s[1..] == seq(n - 1, _ => Pending);
      AllPendingCount(n - 1);
    }
  }

  lemma FreshOnCourse(plan: Plan, policy: Policy)
    requires Forward(plan) && (forall j :: 0 <= j < |plan| ==> plan[j].policyKnown) && policy.maxRetries >= 1
    requires 1 <= policy.maxProviderCalls < |plan| * (1 + policy.maxRetries)
    ensures OnCourse(FreshRun(plan, policy))
  {
    var m := FreshRun(plan, policy);
    AllPendingCount(|plan|);
    assert m.status == seq(|plan|, _ => Pending);
    assert Busy(m).None?;
  }

  // ---- no refusal -----------------------------------------------------------------------------

  /** Without any calls to make, no thread is ever handed to the pool. */
  lemma {:induction false} NoCallsNoThreads(m: Machine, acts: seq<Action>)
    requires SameLengths(m) && CanRun(m, acts) && m.policy.maxProviderCalls == 0
    requires AllIdle(m) && !m.pc.Submitting?
    ensures AllIdle(Run(m, acts))
    decreases |acts|
  {
    if acts != [] {
      NoCallsNoThreads(Apply(m, acts[0]), acts[1..]);
    }
  }

  /**
   * With retries, some run has an attempt turned away by the counter exactly when the budget allows a call, and
   * fewer than all attempts of all steps.
   */
  lemma RefusedIff(plan: Plan, policy: Policy)
    requires UniqueIds(plan) && Forward(plan) && (forall j :: 0 <= j < |plan| ==> plan[j].policyKnown)
    requires policy.maxRetries >= 1
    ensures CanBeRefused(plan, policy) <==> 1 <= policy.maxProviderCalls < |plan| * (1 + policy.maxRetries)
  {
    var m := FreshRun(plan, policy);
    FreshRunInv(plan, policy);
    if 1 <= policy.maxProviderCalls < |plan| * (1 + policy.maxRetries) {
      FreshOnCourse(plan, policy);
      var acts, i := RefusalReached(m);
    }
    forall acts, i: nat | CanRun(m, acts) && Refused(Run(m, acts), i)
      ensures 1 <= policy.maxProviderCalls < |plan| * (1 + policy.maxRetries)
    {
      RefusalNeeds(plan, policy, acts, i);
    }
  }

  lemma RefusalNeeds(plan: Plan, policy: Policy, acts: seq<Action>, i: nat)
    requires UniqueIds(plan) && CanRun(FreshRun(plan, policy), acts) && Refused(Run(FreshRun(plan, policy), acts), i)
    ensures 1 <= policy.maxProviderCalls < |plan| * (1 + policy.maxRetries)
  {
    var m := FreshRun(plan, policy);
    FreshRunInv(plan, policy);
    RunKeepsInv(m, acts);
    RunKeepsSuccesses(m, acts);
    if policy.maxProviderCalls == 0 {
      NoCallsNoThreads(m, acts);
    }
    if |plan| * (1 + policy.maxRetries) <= policy.maxProviderCalls {
      Strategies.AmpleBudgetNeverRefuses(Run(m, acts), i);
    }
  }

  // ---- without retries ------------------------------------------------------------------------

  /** How many steps the round begun at a head launches. */
  function BatchSize(h: Machine): nat
    requires SameLengths(h)
  {
    Min(MaxWorkers(h), |ReadySteps(h.plan, h.status)|)
  }

  /** This run ends at the head of a round that launches something. */
  predicate LaunchesAt(plan: Plan, policy: Policy, head: seq<Action>) {
    && CanRun(FreshRun(plan, policy), head)
    && var h := Run(FreshRun(plan, policy), head);
       h.pc.Head? && SameLengths(h) && AllIdle(h) && h.reserved == 0 && !h.cancelled && !DoHead(h, false).pc.Exiting?
  }

  /** What can have been asked for by the end of that round. */
  function LimitOf(plan: Plan, policy: Policy, head: seq<Action>): nat
    requires LaunchesAt(plan, policy, head)
  {
    var h := Run(FreshRun(plan, policy), head);
    h.attempted + BatchSize(h)
  }

  /** Some round launches more steps than there are calls left. */
  ghost predicate SomeBatchTooLarge(plan: Plan, policy: Policy) {
    exists head :: LaunchesAt(plan, policy, head) && LimitOf(plan, policy, head) > policy.maxProviderCalls
  }

  function Unasked(p: Phase): nat {
    if p.Submitted? || p.Checking? then 1 else 0
  }

  /** Calls made, and calls still to be asked for by threads that were or will be launched in this round. */
  function Tickets(m: Machine): nat {
    m.attempted + m.reserved + SumBy(m.phase, Unasked) + (if m.pc.Submitting? then |m.pc.rest| else 0)
  }

  /** What a thread has in flight, it asked for; what it has not asked for yet, it may. */
  lemma ThreadUnasked(m: Machine, a: Action)
    requires Inv(m) && Enabled(m, a) && m.policy.maxRetries == 0 && ThreadAction(a)
    ensures var n := Apply(m, a);
      && n.phase == m.phase[a.i := n.phase[a.i]] && n.pc == m.pc
      && n.attempted + n.reserved + Unasked(n.phase[a.i]) <= m.attempted + m.reserved + Unasked(m.phase[a.i])
  {
    assert LocalOk(m.policy.maxRetries, m.exn, m.status[a.i], m.phase[a.i], m.starts[a.i], m.calls[a.i]);
    if a.Return? {
      InFlightHere(m, a.i);
    }
  }

  lemma ThreadTickets(m: Machine, a: Action)
    requires Inv(m) && Enabled(m, a) && m.policy.maxRetries == 0 && ThreadAction(a)
    ensures Tickets(Apply(m, a)) <= Tickets(m)
  {
    ThreadUnasked(m, a);
    SumByUpdate(m.phase, Unasked, a.i, Apply(m, a).phase[a.i]);
  }

  lemma SubmitTickets(m: Machine)
    requires Inv(m) && m.pc.Submitting?
    ensures Tickets(DoSubmit(m)) <= Tickets(m)
  {
    if m.pc.rest != [] && !m.cancelled {
      assert m.pc.rest[0] in m.pc.rest;
      assert m.phase[m.pc.rest[0]].Idle?;
      SumByUpdate(m.phase, Unasked, m.pc.rest[0], Submitted);
    }
  }

  lemma StepTickets(m: Machine, a: Action)
    requires Inv(m) && Enabled(m, a) && m.policy.maxRetries == 0 && !a.HeadRound?
    ensures Tickets(Apply(m, a)) <= Tickets(m)
  {
    if ThreadAction(a) {
      ThreadTickets(m, a);
    } else if a.Submit? {
      SubmitTickets(m);
    }
  }

  lemma LaunchTickets(h: Machine, timeUp: bool)
    requires Inv(h) && h.pc.Head? && !DoHead(h, timeUp).pc.Exiting?
    ensures h.reserved == 0 && !h.cancelled && !DoHead(h, false).pc.Exiting?
    ensures Tickets(DoHead(h, timeUp)) == h.attempted + BatchSize(h)
  {
    var n, ready := DoHead(h, timeUp), ReadySteps(h.plan, h.status);
    assert ready[0] in ready;
    SumByZero(h.phase, InFlight);
    SumByZero(h.phase, Unasked);
    if n.pc.Draining? {
      SumByUpdate(h.phase, Unasked, ready[0], Submitted);
    }
  }

  /** Outside a round, or in one that began at this head. */
  predicate Traced(plan: Plan, policy: Policy, head: seq<Action>, m: Machine) {
    || (AllIdle(m) && !m.pc.Submitting?)
    || (LaunchesAt(plan, policy, head) && Tickets(m) <= LimitOf(plan, policy, head))
  }

  lemma IdleStays(m: Machine, a: Action)
    requires Inv(m) && Enabled(m, a) && AllIdle(m) && !m.pc.Submitting?
    requires !a.HeadRound? || DoHead(m, a.timeUp).pc.Exiting?
    ensures AllIdle(Apply(m, a)) && !Apply(m, a).pc.Submitting?
  {
  }

  lemma StepTraced(plan: Plan, policy: Policy, done: seq<Action>, head: seq<Action>, a: Action) returns (head': seq<Action>)
    requires policy.maxRetries == 0 && CanRun(FreshRun(plan, policy), done)
    requires var m := Run(FreshRun(plan, policy), done);
      Inv(m) && m.policy == policy && Enabled(m, a) && Traced(plan, policy, head, m)
    ensures Traced(plan, policy, head', Apply(Run(FreshRun(plan, policy), done), a))
  {
    var m := Run(FreshRun(plan, policy), done);
    head' := head;
    if a.HeadRound? && !DoHead(m, a.timeUp).pc.Exiting? {
      LaunchTickets(m, a.timeUp);
      head' := done;
    } else if AllIdle(m) && !m.pc.Submitting? {
      IdleStays(m, a);
    } else {
      assert !a.HeadRound?;
      StepTickets(m, a);
    }
  }

  lemma RunTraced(plan: Plan, policy: Policy, done: seq<Action>, head: seq<Action>, acts: seq<Action>)
    returns (head': seq<Action>)
    requires policy.maxRetries == 0 && CanRun(FreshRun(plan, policy), done)
    requires var m := Run(FreshRun(plan, policy), done);
      Inv(m) && m.policy == policy && CanRun(m, acts) && Traced(plan, policy, head, m)
    ensures Traced(plan, policy, head', Run(Run(FreshRun(plan, policy), done), acts))
    decreases |acts|
  {
    var m := Run(FreshRun(plan, policy), done);
    if acts == [] {
      head' := head;
    } else {
      head' := StepTraced(plan, policy, done, head, acts[0]);
      RunAppend(FreshRun(plan, policy), done, acts[0]);
      StepKeepsInv(m, acts[0]);
      head' := RunTraced(plan, policy, done + [acts[0]], head', acts[1..]);
    }
  }

  lemma RefusalTooLarge(plan: Plan, policy: Policy, acts: seq<Action>, i: nat)
    requires UniqueIds(plan) && policy.maxRetries == 0
    requires CanRun(FreshRun(plan, policy), acts) && Refused(Run(FreshRun(plan, policy), acts), i)
    ensures SomeBatchTooLarge(plan, policy)
  {
    var m := FreshRun(plan, policy);
    FreshRunInv(plan, policy);
    RunKeepsSuccesses(m, acts);
    var head := RunTraced(plan, policy, [], [], acts);
    SumByAtLeast(Run(m, acts).phase, Unasked, i);
  }

  /** In a round that launches more than is left: the threads to come are still too many. */
  predicate TooMany(m: Machine) {
    && SameLengths(m) && Alone(m) && !m.cancelled && m.exn == NoExn && m.pc.Submitting? && m.policy.maxRetries == 0
    && 0 <= Left(m)
    && match Busy(m)
       case None => Left(m) < |m.pc.rest|
       case Some(i) =>
         if Unasked(m.phase[i]) == 1 then Left(m) < |m.pc.rest| + 1 else Left(m) < |m.pc.rest|
  }

  lemma StepTooMany(m: Machine)
    requires Inv(m) && TooMany(m) && !AtRefusal(m)
    ensures Enabled(m, NextAction(m, Fatal)) && TooMany(Apply(m, NextAction(m, Fatal)))
  {
    NextIsEnabled(m, Fatal);
    if Busy(m).Some? {
      var i := Busy(m).value;
      ThreadBusy(m, NextAction(m, Fatal), i);
      if m.phase[i].Calling? {
        InFlightHere(m, i);
      }
    } else {
      assert m.pc.rest[0] in m.pc.rest;
      BusyFirst(m.phase, m.pc.rest[0]);
    }
  }

  lemma BatchRefused(m: Machine) returns (acts: seq<Action>, i: nat)
    requires Inv(m) && TooMany(m)
    ensures CanRun(m, acts) && Refused(Run(m, acts), i)
    decreases Measure(m)
  {
    if AtRefusal(m) {
      acts, i := [], Busy(m).value;
    } else {
      var a := NextAction(m, Fatal);
      StepTooMany(m);
      StepKeepsInv(m, a);
      NextIsEnabled(m, Fatal);
      ActionDecreases(m, a);
      var rest;
      rest, i := BatchRefused(Apply(m, a));
      InFront(m, a, rest);
      acts := [a] + rest;
    }
  }

  lemma TooLargeHere(h: Machine) returns (acts: seq<Action>, i: nat)
    requires Inv(h) && h.pc.Head? && h.reserved == 0 && !h.cancelled && h.policy.maxRetries == 0 && AllIdle(h)
    requires !DoHead(h, false).pc.Exiting? && h.attempted + BatchSize(h) > h.policy.maxProviderCalls
    ensures CanRun(h, acts) && Refused(Run(h, acts), i)
  {
    var n := DoHead(h, false);
    assert h.attempted < h.policy.maxProviderCalls;
    assert n.pc.Submitting? && |n.pc.rest| == BatchSize(h);
    NoneBusy(h.phase, 0);
    StepKeepsInv(h, HeadRound(false));
    var rest;
    rest, i := BatchRefused(n);
    InFront(h, HeadRound(false), rest);
    acts := [HeadRound(false)] + rest;
  }

  lemma TooLargeRefused(plan: Plan, policy: Policy, head: seq<Action>)
    requires UniqueIds(plan) && policy.maxRetries == 0
    requires LaunchesAt(plan, policy, head) && LimitOf(plan, policy, head) > policy.maxProviderCalls
    ensures CanBeRefused(plan, policy)
  {
    var m := FreshRun(plan, policy);
    FreshRunInv(plan, policy);
    RunKeepsInv(m, head);
    RunKeepsSuccesses(m, head);
    var acts, i := TooLargeHere(Run(m, head));
    Joined(m, head, acts);
  }

  /** Without retries, some run has a call turned away by the counter exactly when a round launches more than is left. */
  lemma RefusedWithoutRetriesIff(plan: Plan, policy: Policy)
    requires UniqueIds(plan) && policy.maxRetries == 0
    ensures CanBeRefused(plan, policy) <==> SomeBatchTooLarge(plan, policy)
  {
    forall acts, i: nat | CanRun(FreshRun(plan, policy), acts) && Refused(Run(FreshRun(plan, policy), acts), i)
      ensures SomeBatchTooLarge(plan, policy)
    {
      RefusalTooLarge(plan, policy, acts, i);
    }
    forall head | LaunchesAt(plan, policy, head) && LimitOf(plan, policy, head) > policy.maxProviderCalls
      ensures CanBeRefused(plan, policy)
    {
      TooLargeRefused(plan, policy, head);
    }
  }

  /** One step at a time and no retries: never, however small the budget. */
  lemma OneWorkerNeverRefused(plan: Plan, policy: Policy)
    requires UniqueIds(plan) && policy.maxRetries == 0 && policy.maxParallelSteps <= 1
    ensures !CanBeRefused(plan, policy)
  {
    RefusedWithoutRetriesIff(plan, policy);
    forall head | LaunchesAt(plan, policy, head) ensures LimitOf(plan, policy, head) <= policy.maxProviderCalls {
      FreshRunInv(plan, policy);
      RunKeepsSuccesses(FreshRun(plan, policy), head);
    }
  }

  lemma AmpleNeverRefused(s: Strategies.Strategy)
    requires WellFormed(s.plan) && s.policy.maxRetries >= 1
    requires |s.plan| * (1 + s.policy.maxRetries) <= s.policy.maxProviderCalls
    ensures !CanBeRefused(s.plan, s.policy)
  {
    RefusedIff(s.plan, s.policy);
  }

  /** The four straight-line builders ask for a budget that never turns an attempt away. */
  lemma StraightLineNeverRefused(includeReview: bool)
    ensures forall s | s in [Strategies.BuildDirect(), Strategies.BuildContextWindow(),
                             Strategies.BuildPipeline(includeReview), Strategies.BuildDelegate()] ::
              !CanBeRefused(s.plan, s.policy)
  {
    Strategies.StraightLinePlansWellFormed(includeReview);
    AmpleNeverRefused(Strategies.BuildDirect());
    AmpleNeverRefused(Strategies.BuildContextWindow());
    AmpleNeverRefused(Strategies.BuildPipeline(includeReview));
    AmpleNeverRefused(Strategies.BuildDelegate());
  }

  lemma ShortCanBeRefused(plan: Plan, policy: Policy)
    requires WellFormed(plan) && policy.maxRetries >= 1
    requires 1 <= policy.maxProviderCalls < |plan| * (1 + policy.maxRetries)
    ensures CanBeRefused(plan, policy)
  {
    RefusedIff(plan, policy);
  }

  /** The two fan-out builders ask for one that can. */
  lemma FanOutCanBeRefused(n: nat, parallel: int)
    ensures var p := Strategies.PolicyOf(n * 3 + 4, 2);
      && CanBeRefused(Strategies.FanOut("chunk_", n, true, "cc_plan", "cc_execute"), p)
      && CanBeRefused(Strategies.FanOut("map_", n, false, "mr_reduce", "mr_execute"), p.(maxParallelSteps := parallel))
  {
    Strategies.FanOutPlansWellFormed(n);
    var p := Strategies.PolicyOf(n * 3 + 4, 2);
    ShortCanBeRefused(Strategies.FanOut("chunk_", n, true, "cc_plan", "cc_execute"), p);
    ShortCanBeRefused(Strategies.FanOut("map_", n, false, "mr_reduce", "mr_execute"), p.(maxParallelSteps := parallel));
  }
}
