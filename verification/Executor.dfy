/**
 * The chain executor as written: mutable steps, run and budget, loops and early exits. Each mutation is
 * matched by an action of ExecutorMachine, so everything proved of the machine holds of this code.
 */
module Executor {
  import opened Collections
  import opened Models
  import opened ExecutorMachine
  import opened ExecutorInvariants
  import opened ExecutorProperties

  /** Reserve, call, commit: the shared call budget of a run. */
  class BudgetTracker {
    const maxCalls: nat
    var attempted: nat
    var successful: nat
    var retries: nat
    var reserved: nat

    constructor (maxCalls: nat)
      ensures this.maxCalls == maxCalls
      ensures attempted == successful == retries == reserved == 0
    {
      this.maxCalls := maxCalls;
      attempted, successful, retries, reserved := 0, 0, 0, 0;
    }

    method ReserveCall(timeUp: bool) returns (ok: bool)
      modifies this`reserved
      ensures ok <==> old(attempted + reserved) < maxCalls && !timeUp
      ensures reserved == if ok then old(reserved) + 1 else old(reserved)
    {
      if attempted + reserved >= maxCalls {
        return false;
      }
      if timeUp {
        return false;
      }
      reserved := reserved + 1;
      return true;
    }

    method Commit(success: bool, isRetry: bool)
      modifies this
      ensures reserved == Max(0, old(reserved) - 1) && attempted == old(attempted) + 1
      ensures successful == if success then old(successful) + 1 else old(successful)
      ensures retries == if isRetry then old(retries) + 1 else old(retries)
    {
      reserved := Max(0, reserved - 1);
      attempted := attempted + 1;
      if success {
        successful := successful + 1;
      }
      if isRetry {
        retries := retries + 1;
      }
    }

    /** A reservation given back leaves the budget as it was before it. */
    method Release()
      modifies this`reserved
      ensures reserved == Max(0, old(reserved) - 1)
    {
      reserved := Max(0, reserved - 1);
    }
  }

  class ChainStep {
    const def: StepDef
    var status: Status
    var result: string
    var providerCalls: nat

    constructor (def: StepDef)
      ensures this.def == def && status == Pending && result == "" && providerCalls == 0
    {
      this.def := def;
      status, result, providerCalls := Pending, "", 0;
    }
  }

  /** The run statuses that may follow one another. */
  predicate CanMove(from: RunStatus, to: RunStatus) {
    || (from == RunPending && (to == RunRunning || to == Failed || to == Cancelled))
    || (from == RunRunning && (to == Completed || to == Failed || to == Cancelled))
  }

  class ChainRun {
    const plan: Plan
    const policy: Policy
    const steps: seq<ChainStep>
    const budget: BudgetTracker
    var runStatus: RunStatus
    var results: map<string, string>
    var cancelled: bool

    ghost predicate Valid() {
      && |steps| == |plan|
      && (forall i :: 0 <= i < |steps| ==> steps[i].def == plan[i])
      && (forall i, j :: 0 <= i < j < |steps| ==> steps[i] != steps[j])
      && budget.maxCalls == policy.maxProviderCalls
    }

    function Statuses(): (r: seq<Status>)
      reads steps
    {
      seq(|steps|, i requires 0 <= i < |steps| reads steps => steps[i].status)
    }

    function Calls(): (r: seq<nat>)
      reads steps
    {
      seq(|steps|, i requires 0 <= i < |steps| reads steps => steps[i].providerCalls)
    }

    constructor (plan: Plan, policy: Policy, steps: seq<ChainStep>)
      requires |steps| == |plan|
      requires forall i :: 0 <= i < |steps| ==> steps[i].def == plan[i]
      requires forall i, j :: 0 <= i < j < |steps| ==> steps[i] != steps[j]
      ensures Valid() && this.plan == plan && this.policy == policy && this.steps == steps
      ensures runStatus == RunPending && results == map[] && !cancelled
      ensures fresh(budget) && budget.attempted == budget.reserved == 0
    {
      this.plan, this.policy, this.steps := plan, policy, steps;
      budget := new BudgetTracker(policy.maxProviderCalls);
      runStatus, results, cancelled := RunPending, map[], false;
    }

    /** `transition_to`: refuses to leave a terminal status or to jump; repeating the current one is ignored. */
    method TransitionTo(next: RunStatus) returns (ok: bool)
      modifies this`runStatus
      ensures ok <==> (next == old(runStatus) || CanMove(old(runStatus), next))
      ensures runStatus == if ok then next else old(runStatus)
    {
      var valid := match runStatus
        case RunPending => {RunRunning, Failed, Cancelled}
        case RunRunning => {Completed, Failed, Cancelled}
        case _ => {};
      if next !in valid {
        return next == runStatus;
      }
      runStatus := next;
      return true;
    }

    /** The last transition of a run that is still running. */
    method SettleStatus(exn: Exn, failed: bool)
      modifies this`runStatus
      ensures runStatus == FinalStatus(old(runStatus), exn, failed)
    {
      if runStatus == RunRunning {
        var final := match exn
          case CancelExn => Cancelled
          case OtherExn => Failed
          case NoExn => if failed then Failed else Completed;
        var moved := TransitionTo(final);
      }
    }

    method GetStep(id: string) returns (k: Option<nat>)
      requires Valid()
      ensures k == FindStep(plan, id)
    {
      for i := 0 to |steps|
        invariant FindStep(plan, id) == FindStepFrom(plan, id, i)
      {
        if steps[i].def.id == id {
          return Some(i);
        }
      }
      return None;
    }

    method DepsAreMet(step: ChainStep, ghost i: nat) returns (met: bool)
      requires Valid() && i < |steps| && steps[i] == step
      ensures met <==> DepsMet(plan, Statuses(), i)
    {
      var deps := step.def.dependsOn;
      for j := 0 to |deps|
        invariant forall d | d in deps[..j] :: StatusOf(plan, Statuses(), d) == Some(Success)
      {
        var k := GetStep(deps[j]);
        if k.None? || steps[k.value].status != Success {
          assert deps[j] in plan[i].dependsOn;
          return false;
        }
      }
      assert deps[..|deps|] == deps;
      return true;
    }

    method GetReadySteps() returns (ready: seq<nat>)
      requires Valid()
      ensures ready == ReadySteps(plan, Statuses())
    {
      ready := [];
      for i := 0 to |steps|
        invariant ready + ReadyFrom(plan, Statuses(), i) == ReadySteps(plan, Statuses())
      {
        var step := steps[i];
        if step.status == Pending {
          var met := DepsAreMet(step, i);
          if met {
            ghost var rest := ReadyFrom(plan, Statuses(), i + 1);
            assert ready + ([i] + rest) == (ready + [i]) + rest;
            ready := ready + [i];
          }
        }
      }
    }

    method IsComplete() returns (complete: bool)
      requires Valid()
      ensures complete <==> Complete(Statuses())
    {
      complete := forall i :: 0 <= i < |steps| ==> Terminal(steps[i].status);
      assert forall i :: 0 <= i < |steps| ==> Statuses()[i] == steps[i].status;
    }

    method SomePending() returns (pending: bool)
      requires Valid()
      ensures pending <==> HasPending(Statuses())
    {
      pending := exists i :: 0 <= i < |steps| && steps[i].status == Pending;
      assert forall i :: 0 <= i < |steps| ==> Statuses()[i] == steps[i].status;
    }

    method SomeCriticalError() returns (failed: bool)
      requires Valid()
      ensures failed <==> HasCriticalFailure(plan, Statuses())
    {
      failed := exists i :: 0 <= i < |steps| && steps[i].status == Error && steps[i].def.critical;
      assert forall i :: 0 <= i < |steps| ==> Statuses()[i] == steps[i].status;
    }

    method SetStatus(i: nat, s: Status)
      requires Valid() && i < |steps|
      modifies steps[i]
      ensures Statuses() == old(Statuses())[i := s] && Calls() == old(Calls())
    {
      steps[i].status := s;
    }

    /** The statuses written when a round ends early. */
    method SkipAllPending()
      requires Valid()
      modifies steps
      ensures Statuses() == SkipPending(old(Statuses())) && Calls() == old(Calls())
    {
      for i := 0 to |steps|
        invariant forall j :: 0 <= j < i ==>
                    steps[j].status == if old(steps[j].status) == Pending then Skipped else old(steps[j].status)
        invariant forall j :: i <= j < |steps| ==> steps[j].status == old(steps[j].status)
        invariant forall j :: 0 <= j < |steps| ==> steps[j].providerCalls == old(steps[j].providerCalls)
      {
        if steps[i].status == Pending {
          steps[i].status := Skipped;
        }
      }
    }

    method HasFailedDep(step: ChainStep, ghost i: nat) returns (failed: bool)
      requires Valid() && i < |steps| && steps[i] == step
      ensures failed <==> DepFailed(plan, Statuses(), i)
    {
      var deps := step.def.dependsOn;
      for j := 0 to |deps|
        invariant forall d | d in deps[..j] ::
                    var s := StatusOf(plan, Statuses(), d); s.None? || !FailedStatus(s.value)
      {
        var k := GetStep(deps[j]);
        if k.Some? && FailedStatus(steps[k.value].status) {
          assert deps[j] in plan[i].dependsOn;
          return true;
        }
      }
      assert deps[..|deps|] == deps;
      return false;
    }

    /** One pass of `_skip_blocked_steps` over the steps. */
    method Sweep() returns (changed: bool)
      requires Valid()
      modifies steps
      ensures Statuses() == SkipSweep(plan, policy, old(Statuses()), 0) && Calls() == old(Calls())
      ensures changed <==> Statuses() != old(Statuses())
      ensures changed ==> CountPending(Statuses()) < CountPending(old(Statuses()))
    {
      changed := false;
      for i := 0 to |steps|
        invariant Calls() == old(Calls())
        invariant SkipSweep(plan, policy, Statuses(), i) == SkipSweep(plan, policy, old(Statuses()), 0)
        invariant !changed ==> Statuses() == old(Statuses())
        invariant changed ==> CountPending(Statuses()) < CountPending(old(Statuses()))
      {
        SweepAt(plan, policy, Statuses(), i);
        if steps[i].status == Pending {
          var failed := HasFailedDep(steps[i], i);
          if failed && (steps[i].def.critical || !policy.continueOnOptionalFailure) {
            SetStatus(i, Skipped);
            changed := true;
          }
        }
      }
    }

    /** `_skip_blocked_steps`. */
    method SkipBlockedSteps()
      requires Valid()
      modifies steps
      ensures Statuses() == SkipBlocked(plan, policy, old(Statuses())) && Calls() == old(Calls())
    {
      var changed := true;
      while changed
        invariant Calls() == old(Calls())
        invariant SkipBlocked(plan, policy, Statuses()) == SkipBlocked(plan, policy, old(Statuses()))
        invariant !changed ==> Statuses() == SkipBlocked(plan, policy, Statuses())
        decreases CountPending(Statuses()), changed
      {
        changed := Sweep();
      }
    }
  }

  /** Answers from outside the executor: arbitrary, but one value each time it is asked. */
  class Environment {
    constructor () {}

    /** A provider call, with its response checks. */
    method CallProvider() returns (outcome: Outcome)
    {
      outcome := *;
    }

    method AgentRoleLoads() returns (ok: bool)
    {
      ok := *;
    }

    method TimeIsUp() returns (up: bool)
    {
      up := *;
    }

    method WriteSucceeds() returns (ok: bool)
    {
      ok := *;
    }

    method CancelRequested() returns (requested: bool)
    {
      requested := *;
    }

    method SchedulerRunsNext() returns (yes: bool)
    {
      yes := *;
    }
  }

  /** How one pass of the retry loop ended: the thread left it, gave up, or tries again. */
  datatype AttemptEnd = Left(exn: Exn) | GaveUp(refused: bool) | TryAgain

  /** How the head of the retry loop went. */
  datatype Admission = Granted | Refused | CancelledFirst

  class ChainExecutor {
    const run: ChainRun
    const env: Environment
    var disk: Option<Saved>              // state.json
    ghost const start: Machine
    ghost var acts: seq<Action>
    ghost var m: Machine                 // start after acts

    /** The mutable objects and the machine tell the same story. */
    ghost predicate Coupled()
      reads this, run, run.steps, run.budget
    {
      && run.Valid()
      && CanRun(start, acts) && Run(start, acts) == m
      && SameLengths(m) && m.plan == run.plan && m.policy == run.policy
      && m.status == run.Statuses() && m.providerCalls == run.Calls() && m.results == run.results
      && m.attempted == run.budget.attempted && m.reserved == run.budget.reserved
      && m.cancelled == run.cancelled && m.runStatus == run.runStatus
      && m.saved == disk
    }

    constructor (run: ChainRun, env: Environment, disk: Option<Saved>, ghost start: Machine)
      requires run.Valid() && SameLengths(start)
      requires start.plan == run.plan && start.policy == run.policy && start.status == run.Statuses()
      requires start.providerCalls == run.Calls() && start.results == run.results && start.saved == disk
      requires start.runStatus == run.runStatus && start.cancelled == run.cancelled
      requires run.budget.attempted == start.attempted && run.budget.reserved == start.reserved
      ensures this.run == run && this.env == env && this.start == start && acts == [] && m == start
      ensures Coupled()
    {
      this.run, this.env, this.disk := run, env, disk;
      this.start, this.acts, this.m := start, [], start;
    }

    /** Records the machine action that a mutation performs. */
    ghost method Record(a: Action)
      requires CanRun(start, acts) && Run(start, acts) == m && Enabled(m, a)
      modifies this`acts, this`m
      ensures acts == old(acts) + [a] && m == Apply(old(m), a)
      ensures CanRun(start, acts) && Run(start, acts) == m
    {
      RunAppend(start, acts, a);
      acts, m := acts + [a], Apply(m, a);
    }

    /** `_save_state`: a failing write leaves the old file. */
    method SaveState(ok: bool)
      requires run.Valid()
      modifies this`disk
      ensures disk == if ok then Some(Saved(run.runStatus, run.plan, run.policy, run.Statuses(), run.Calls(), run.results))
                      else old(disk)
    {
      if ok {
        disk := Some(Saved(run.runStatus, run.plan, run.policy, run.Statuses(), run.Calls(), run.results));
      }
    }

    /** `_check_cancelled`: another thread may have cancelled the ticket or the token by now. */
    method CheckCancelled() returns (cancelled: bool)
      requires Coupled()
      modifies this`acts, this`m, run`cancelled
      ensures Coupled() && cancelled == m.cancelled
      ensures m == old(m) || m == old(m).(cancelled := true)
      ensures acts == old(acts) || acts == old(acts) + [RequestCancel]
    {
      var requested := env.CancelRequested();
      if requested {
        Record(RequestCancel);
        run.cancelled := true;
      }
      return run.cancelled;
    }

    /** The save that ends a thread. */
    method SaveThread(i: nat)
      requires Coupled() && i < |run.plan| && m.phase[i].Saving?
      modifies this
      ensures Coupled()
      ensures m.phase == old(m.phase)[i := Idle] && m.pc == old(m.pc) && m.iteration == old(m.iteration) && m.exn == old(m.exn)
    {
      var ok := env.WriteSucceeds();
      Record(SaveStep(i, ok));
      SaveState(ok);
    }

    method MergeResult(i: nat, text: string, calls: nat)
      requires Coupled() && i < |run.plan| && m.phase[i] == HasResult(text, calls)
      modifies this`acts, this`m, run`results, run.steps
      ensures Coupled()
      ensures m.phase == old(m.phase)[i := Saving] && m.pc == old(m.pc) && m.iteration == old(m.iteration) && m.exn == old(m.exn)
    {
      var step := run.steps[i];
      Record(Merge(i));
      step.status := Success;
      step.result := text;
      step.providerCalls := calls;
      run.results := run.results[step.def.id := text];
      assert run.Statuses() == old(run.Statuses())[i := Success];
      assert run.Calls() == old(run.Calls())[i := calls];
    }

    /** `_apply_step_result`. */
    method ApplyStepResult(i: nat, text: string, calls: nat)
      requires Coupled() && i < |run.plan| && m.phase[i] == HasResult(text, calls)
      modifies this, run`results, run.steps
      ensures Coupled()
      ensures m.phase == old(m.phase)[i := Idle] && m.pc == old(m.pc) && m.iteration == old(m.iteration) && m.exn == old(m.exn)
    {
      MergeResult(i, text, calls);
      SaveThread(i);
    }

    method MergeFailure(i: nat, calls: nat, ghost refused: bool)
      requires Coupled() && i < |run.plan| && m.phase[i] == HasFailure(calls, refused)
      modifies this`acts, this`m, run.steps
      ensures Coupled()
      ensures m.phase == old(m.phase)[i := Saving] && m.pc == old(m.pc) && m.iteration == old(m.iteration) && m.exn == old(m.exn)
    {
      var step := run.steps[i];
      Record(Merge(i));
      step.status := Error;
      step.providerCalls := calls;
      assert run.Statuses() == old(run.Statuses())[i := Error];
      assert run.Calls() == old(run.Calls())[i := calls];
    }

    /** `_apply_step_failure`. */
    method ApplyStepFailure(i: nat, calls: nat, ghost refused: bool)
      requires Coupled() && i < |run.plan| && m.phase[i] == HasFailure(calls, refused)
      modifies this, run.steps
      ensures Coupled()
      ensures m.phase == old(m.phase)[i := Idle] && m.pc == old(m.pc) && m.iteration == old(m.iteration) && m.exn == old(m.exn)
    {
      MergeFailure(i, calls, refused);
      SaveThread(i);
    }

    /** The start of a thread: the step is running, then its agent role is loaded. */
    method StartThread(i: nat) returns (loaded: bool)
      requires Coupled() && i < |run.plan| && m.phase[i].Submitted?
      modifies this`acts, this`m, run.steps
      ensures Coupled() && m.pc == old(m.pc) && m.iteration == old(m.iteration)
      ensures m.phase == old(m.phase)[i := if loaded then Checking(0) else Idle]
      ensures m.exn == if loaded then old(m.exn) else OtherExn
    {
      run.SetStatus(i, Running);
      loaded := env.AgentRoleLoads();
      if loaded {
        Record(Start(i));
      } else {
        Record(LoadFails(i));
      }
    }

    /** The head of the retry loop: check cancellation, then reserve budget. */
    method ReserveThread(i: nat, ghost attempt: nat) returns (a: Admission)
      requires Coupled() && i < |run.plan| && m.phase[i] == Checking(attempt)
      modifies this`acts, this`m, run`cancelled, run.budget`reserved
      ensures Coupled() && m.pc == old(m.pc) && m.iteration == old(m.iteration)
      ensures m.phase == old(m.phase)[i := match a
                case Granted => Calling(attempt)
                case Refused => HasFailure(Min(attempt + 1, 1 + run.policy.maxRetries), true)
                case CancelledFirst => Idle]
      ensures m.exn == if a == CancelledFirst then Worse(old(m.exn), CancelExn) else old(m.exn)
    {
      var cancelled := CheckCancelled();
      if cancelled {
        Record(Reserve(i, false));
        return CancelledFirst;
      }
      var ok := AdmitThread(i, attempt);
      return if ok then Granted else Refused;
    }

    method AdmitThread(i: nat, ghost attempt: nat) returns (ok: bool)
      requires Coupled() && i < |run.plan| && m.phase[i] == Checking(attempt) && !m.cancelled
      modifies this`acts, this`m, run.budget`reserved
      ensures Coupled() && m.pc == old(m.pc) && m.iteration == old(m.iteration) && m.exn == old(m.exn)
      ensures m.phase == old(m.phase)[i :=
                if ok then Calling(attempt) else HasFailure(Min(attempt + 1, 1 + run.policy.maxRetries), true)]
    {
      var timeUp := env.TimeIsUp();
      Record(Reserve(i, timeUp));
      ok := run.budget.ReserveCall(timeUp);
    }

    /** A provider call and its commit. */
    method ReturnThread(i: nat, attempt: nat) returns (outcome: Outcome)
      requires Coupled() && i < |run.plan| && m.phase[i] == Calling(attempt)
      modifies this`acts, this`m, run.budget
      ensures Coupled() && m.pc == old(m.pc) && m.iteration == old(m.iteration) && m.exn == old(m.exn)
      ensures m.phase == DoReturn(old(m), i, outcome).phase
    {
      outcome := env.CallProvider();
      Record(Return(i, outcome));
      run.budget.Commit(outcome.Answer?, attempt > 0);
    }

    /** One pass of the retry loop. */
    method Attempt(i: nat, attempt: nat) returns (end: AttemptEnd)
      requires Coupled() && i < |run.plan| && m.phase[i] == Checking(attempt)
      modifies this, run, run.steps, run.budget
      ensures Coupled() && m.pc == old(m.pc) && m.iteration == old(m.iteration)
      ensures m.exn == if end.Left? then Worse(old(m.exn), end.exn) else old(m.exn)
      ensures m.phase == old(m.phase)[i := match end
                case Left(_) => Idle
                case GaveUp(refused) => HasFailure(Min(attempt + 1, 1 + run.policy.maxRetries), refused)
                case TryAgain => if attempt < run.policy.maxRetries then Checking(attempt + 1)
                                 else HasFailure(Min(attempt + 1, 1 + run.policy.maxRetries), false)]
    {
      var admission := ReserveThread(i, attempt);
      if admission == CancelledFirst {
        return Left(CancelExn);
      }
      if admission == Refused {
        return GaveUp(true);
      }
      var outcome := ReturnThread(i, attempt);
      match outcome
      case Answer(text) =>
        ApplyStepResult(i, text, attempt + 1);
        return Left(NoExn);
      case Fatal => return GaveUp(false);
      case Retryable => return TryAgain;
    }

    /** `_execute_step` as the sequential lane runs it: one thread, start to end. */
    method ExecuteStep(i: nat) returns (exn: Exn)
      requires Coupled() && i < |run.plan| && m.phase[i].Submitted?
      modifies this, run, run.steps, run.budget
      ensures Coupled() && m.pc == old(m.pc) && m.iteration == old(m.iteration) && m.phase == old(m.phase)[i := Idle]
      ensures m.exn == Worse(old(m.exn), exn)
    {
      var loaded := StartThread(i);
      if !loaded {
        return OtherExn;
      }
      var attempt, refused := 0, false;
      while attempt < 1 + run.policy.maxRetries
        invariant attempt <= 1 + run.policy.maxRetries && !refused
        invariant Coupled() && m.pc == old(m.pc) && m.iteration == old(m.iteration) && m.exn == old(m.exn)
        invariant m.phase == old(m.phase)[i := if attempt <= run.policy.maxRetries then Checking(attempt)
                                                else HasFailure(attempt, false)]
      {
        var end := Attempt(i, attempt);
        if end.Left? {
          return end.exn;
        }
        if end.GaveUp? {
          refused := end.refused;
          break;
        }
        attempt := attempt + 1;
      }
      ApplyStepFailure(i, Min(attempt + 1, 1 + run.policy.maxRetries), refused);
      return NoExn;
    }

    /** One atomic move of the thread on step `i`, as the operating system may schedule it. */
    method ThreadMove(i: nat, phase: Phase) returns (next: Phase, exn: Exn)
      requires Coupled() && i < |run.plan| && m.phase[i] == phase && !phase.Idle?
      modifies this, run, run.steps, run.budget
      ensures Coupled() && m.pc == old(m.pc) && m.iteration == old(m.iteration) && m.phase == old(m.phase)[i := next]
      ensures m.exn == Worse(old(m.exn), exn)
      ensures MoveWeight(run.policy.maxRetries, next) < MoveWeight(run.policy.maxRetries, phase)
    {
      exn := NoExn;
      match phase
      case Submitted =>
        var loaded := StartThread(i);
        next, exn := if loaded then Checking(0) else Idle, if loaded then NoExn else OtherExn;
      case Checking(attempt) =>
        var admission := ReserveThread(i, attempt);
        next := match admission
          case Granted => Calling(attempt)
          case Refused => HasFailure(Min(attempt + 1, 1 + run.policy.maxRetries), true)
          case CancelledFirst => Idle;
        exn := if admission == CancelledFirst then CancelExn else NoExn;
      case Calling(attempt) =>
        var outcome := ReturnThread(i, attempt);
        next := match outcome
          case Answer(text) => HasResult(text, attempt + 1)
          case Retryable => if attempt < run.policy.maxRetries then Checking(attempt + 1)
                            else HasFailure(Min(attempt + 1, 1 + run.policy.maxRetries), false)
          case Fatal => HasFailure(Min(attempt + 1, 1 + run.policy.maxRetries), false);
      case HasResult(text, calls) =>
        MergeResult(i, text, calls);
        next := Saving;
      case HasFailure(calls, refused) =>
        MergeFailure(i, calls, refused);
        next := Saving;
      case Saving =>
        SaveThread(i);
        next := Idle;
    }

    /** The submit loop's turn: hand over the next step, or stop handing over. */
    method SubmitNext(rest: seq<nat>) returns (stop: bool, exn: Exn)
      requires Coupled() && m.pc == Submitting(rest) && forall i | i in rest :: i < |run.plan|
      modifies this`acts, this`m, run`cancelled
      ensures Coupled() && m.exn == Worse(old(m.exn), exn) && m.iteration == old(m.iteration)
      ensures stop ==> m.pc == Draining && m.phase == old(m.phase)
      ensures !stop ==> rest != [] && rest[0] < |run.plan| && m.pc == Submitting(rest[1..]) && exn == NoExn
                        && m.phase == old(m.phase)[rest[0] := Submitted]
    {
      stop, exn := rest == [], NoExn;
      if !stop {
        assert rest[0] in rest;
        stop := CheckCancelled();
        exn := if stop then CancelExn else NoExn;
      }
      Record(Submit);
    }

    /**
     * `_execute_batch`: the pool's threads and the submit loop take turns in any order; the pool is drained
     * before an exception leaves.
     */
    method ExecuteBatch(batch: seq<nat>) returns (exn: Exn)
      requires Coupled() && m.pc == Submitting(batch) && AllIdle(m) && m.exn == NoExn
      requires forall i | i in batch :: i < |run.plan|
      modifies this, run, run.steps, run.budget
      ensures Coupled() && m.pc.Draining? && AllIdle(m) && m.exn == exn && m.iteration == old(m.iteration)
    {
      var pool := seq(|run.steps|, _ => Idle);
      var rest: seq<nat>, submitting := batch, true;
      exn := NoExn;
      while submitting || exists i :: 0 <= i < |pool| && !pool[i].Idle?
        invariant Coupled() && pool == m.phase && exn == m.exn && m.iteration == old(m.iteration)
        invariant m.pc == if submitting then Submitting(rest) else Draining
        invariant forall i | i in rest :: i < |run.plan|
        decreases submitting, |rest|, SumBy(pool, p => MoveWeight(run.policy.maxRetries, p))
      {
        var submitterFirst := env.SchedulerRunsNext();
        if submitting && (submitterFirst || forall i :: 0 <= i < |pool| ==> pool[i].Idle?) {
          var stop, e := SubmitNext(rest);
          exn := Worse(exn, e);
          if stop {
            submitting := false;
          } else {
            assert forall i | i in rest[1..] :: i in rest;
            pool, rest := pool[rest[0] := Submitted], rest[1..];
          }
        } else {
          var i :| 0 <= i < |pool| && !pool[i].Idle?;
          var next, e := ThreadMove(i, pool[i]);
          SumByUpdate(pool, p => MoveWeight(run.policy.maxRetries, p), i, next);
          pool, exn := pool[i := next], Worse(exn, e);
        }
      }
    }

    /** Runs the ready steps of a round: one in this thread, or a batch in the pool. */
    method RunReady(ready: seq<nat>, maxWorkers: nat) returns (exn: Exn)
      requires Coupled() && ready != [] && forall i | i in ready :: i < |run.plan|
      requires m.exn == NoExn && maxWorkers > 0
      requires ready[0] < |run.plan|
      requires if maxWorkers == 1 || |ready| == 1
               then m.pc.Draining? && forall i :: 0 <= i < |m.phase| ==>
                      m.phase[i] == if i == ready[0] then Submitted else Idle
               else m.pc == Submitting(ready[..Min(maxWorkers, |ready|)]) && AllIdle(m)
      modifies this, run, run.steps, run.budget
      ensures Coupled() && m.pc.Draining? && AllIdle(m) && m.exn == exn && m.iteration == old(m.iteration)
    {
      if maxWorkers == 1 || |ready| == 1 {
        exn := ExecuteStep(ready[0]);
      } else {
        var batch := ready[..Min(maxWorkers, |ready|)];
        assert forall i | i in batch :: i in ready;
        exn := ExecuteBatch(batch);
      }
    }

    /** The round ends in the loop head: budget gone, or nothing ready. */
    method LeaveForBudget(timeUp: bool)
      requires Coupled() && m.pc.Head? && AllIdle(m) && m.exn == NoExn && !m.cancelled
      requires !Complete(m.status) && m.iteration < 3 * |m.plan|
      requires run.budget.attempted >= run.budget.maxCalls || timeUp
      modifies this`acts, this`m, run.steps
      ensures Coupled() && AllIdle(m) && m.exn == NoExn && m.pc.Exiting?
    {
      Record(HeadRound(timeUp));
      run.SkipAllPending();
    }

    method LeaveWithNothingReady()
      requires Coupled() && m.pc.Head? && AllIdle(m) && m.exn == NoExn && !m.cancelled
      requires !Complete(m.status) && m.iteration < 3 * |m.plan| && ReadySteps(m.plan, m.status) == []
      requires run.budget.attempted < run.budget.maxCalls
      modifies this`acts, this`m, run.steps
      ensures Coupled() && AllIdle(m) && m.exn == NoExn && m.pc.Exiting?
    {
      Record(HeadRound(false));
      var pending := run.SomePending();
      if pending {
        run.SkipBlockedSteps();
      }
    }

    /** A round past the completion and cancellation checks; `stop` leaves the loop. */
    method ExecuteRound(maxWorkers: nat, timeUp: bool) returns (exn: Exn, stop: bool)
      requires Coupled() && m.pc.Head? && AllIdle(m) && m.exn == NoExn && !m.cancelled
      requires maxWorkers == MaxWorkers(m) && !Complete(m.status) && m.iteration < 3 * |m.plan|
      modifies this, run, run.steps, run.budget
      ensures Coupled() && AllIdle(m) && m.exn == exn
      ensures stop ==> m.pc.Exiting?
      ensures !stop ==> m.pc.Head? && exn == NoExn && m.iteration == old(m.iteration) + 1
    {
      if run.budget.attempted >= run.budget.maxCalls || timeUp {
        LeaveForBudget(timeUp);
        return NoExn, true;
      }
      var ready := run.GetReadySteps();
      if ready == [] {
        LeaveWithNothingReady();
        return NoExn, true;
      }
      assert ready[0] in ready;
      Record(HeadRound(false));
      exn := RunReady(ready, maxWorkers);
      stop := CloseRound(exn);
    }

    /** The end of a round: an exception or the stop condition leaves the loop. */
    method CloseRound(raised: Exn) returns (stop: bool)
      requires Coupled() && m.pc.Draining? && AllIdle(m) && m.exn == raised
      modifies this`acts, this`m, run.steps
      ensures Coupled() && AllIdle(m) && m.exn == raised && m.iteration == old(m.iteration)
      ensures stop ==> m.pc.Exiting?
      ensures !stop ==> m.pc.Head? && raised == NoExn
    {
      var failed := run.SomeCriticalError();
      Record(EndRound);
      if raised != NoExn {
        return true;
      }
      stop := run.policy.stopCondition == AllRequired && failed;
      if stop {
        run.SkipAllPending();
      }
    }

    /** The loop ends in its own condition, or by an exception at the head of a round. */
    method LeaveAtHead(exn: Exn)
      requires Coupled() && m.pc.Head? && AllIdle(m) && m.exn == NoExn
      requires if Complete(m.status) || m.iteration >= 3 * |m.plan| then exn == NoExn
               else exn == CancelExn && m.cancelled
      modifies this`acts, this`m
      ensures Coupled() && m.pc.Exiting? && AllIdle(m) && m.exn == exn
    {
      Record(HeadRound(false));
    }

    /** `_execute_loop`. */
    method ExecuteLoop() returns (exn: Exn)
      requires Coupled() && m.pc.Head? && AllIdle(m) && m.iteration == 0 && m.exn == NoExn
      modifies this, run, run.steps, run.budget
      ensures Coupled() && m.pc.Exiting? && AllIdle(m) && m.exn == exn
    {
      var maxIterations := |run.steps| * 3;
      var iteration := 0;
      var maxWorkers := Max(1, run.policy.maxParallelSteps);
      var complete := run.IsComplete();
      while !complete && iteration < maxIterations
        invariant Coupled() && m.pc.Head? && AllIdle(m) && m.exn == NoExn
        invariant m.iteration == iteration <= maxIterations && (complete <==> Complete(m.status))
        decreases maxIterations - iteration
      {
        iteration := iteration + 1;
        var cancelled := CheckCancelled();
        if cancelled {
          LeaveAtHead(CancelExn);
          return CancelExn;
        }
        var timeUp := env.TimeIsUp();
        var stop;
        exn, stop := ExecuteRound(maxWorkers, timeUp);
        if stop {
          return;
        }
        complete := run.IsComplete();
      }
      LeaveAtHead(NoExn);
      return NoExn;
    }

    /** The final status, then the last save. */
    method FinishRun(exn: Exn)
      requires Coupled() && m.pc.Exiting? && m.exn == exn && run.runStatus in {RunRunning, Failed}
      modifies this, run`runStatus
      ensures Coupled() && m.pc.Finished? && m.exn == exn
    {
      var ok := env.WriteSucceeds();
      var failed := run.SomeCriticalError();
      Record(ExecutorMachine.FinishRun(ok));
      run.SettleStatus(exn, failed);
      SaveState(ok);
    }

    /** The head of `execute`: an unknown context policy fails the run at once. */
    method Begin()
      requires Coupled() && m.pc.Begin? && m.runStatus == RunPending
      modifies this`acts, this`m, run`runStatus
      ensures Coupled() && m.phase == old(m.phase) && m.exn == old(m.exn) && m.iteration == old(m.iteration)
      ensures if run.runStatus == RunRunning then m.pc.Head? else m.pc.Exiting? && run.runStatus == Failed
    {
      var unknown := exists i :: 0 <= i < |run.steps| && !run.steps[i].def.policyKnown;
      Record(BeginRun);
      var moved := run.TransitionTo(if unknown then Failed else RunRunning);
    }

    /**
     * `execute`: carries a run from the start to its final state file. Whatever happens outside, the run
     * respects its call budget, keeps every success it came with, and stores a result exactly for the
     * successful steps; on a well-formed plan in which only provider calls fail it settles every step.
     */
    method Execute()
      requires Coupled() && m.pc.Begin? && acts == [] && Inv(m)
      modifies this, run, run.steps, run.budget
      ensures Coupled() && m.pc.Finished? && Inv(m)
      ensures run.budget.reserved == 0 && run.budget.attempted <= run.policy.maxProviderCalls
      ensures StatusesOk(run.plan, run.Statuses(), run.results)
      ensures SuccessesKept(start, m)
      ensures WellFormed(run.plan) && run.policy.stopCondition == AllRequired
              && !start.cancelled && OnlyProviderFails(acts) ==>
                Complete(run.Statuses()) &&
                run.runStatus == if HasCriticalFailure(run.plan, run.Statuses()) then Failed else Completed
    {
      RunToEnd();
      FinishedFacts(start, acts);
    }

    method RunToEnd()
      requires Coupled() && m.pc.Begin? && acts == [] && Inv(m)
      modifies this, run, run.steps, run.budget
      ensures Coupled() && m.pc.Finished?
    {
      Begin();
      var exn := NoExn;
      if run.runStatus == RunRunning {
        exn := ExecuteLoop();
      }
      NotEndedYet(start, acts);
      FinishRun(exn);
    }
  }

  /** Leaving the loop, the run is still going or has failed. */
  lemma NotEndedYet(start: Machine, acts: seq<Action>)
    requires Inv(start) && CanRun(start, acts) && Run(start, acts).pc.Exiting?
    ensures Run(start, acts).runStatus in {RunRunning, Failed}
  {
    RunKeepsInv(start, acts);
  }

  /** What the machine's theorems say of a finished run. */
  lemma FinishedFacts(start: Machine, acts: seq<Action>)
    requires Inv(start) && start.pc.Begin? && CanRun(start, acts) && Run(start, acts).pc.Finished?
    ensures var m := Run(start, acts);
      && Inv(m) && SuccessesKept(start, m) && m.reserved == 0 && m.attempted <= m.policy.maxProviderCalls
      && StatusesOk(m.plan, m.status, m.results)
      && (WellFormed(m.plan) && m.policy.stopCondition == AllRequired && !start.cancelled && OnlyProviderFails(acts)
          ==> Settled(m))
  {
    RunKeepsInv(start, acts);
    RunKeepsSuccesses(start, acts);
    CallBudgetHolds(start, acts);
    if WellFormed(start.plan) && start.policy.stopCondition == AllRequired && !start.cancelled
       && OnlyProviderFails(acts) {
      RunSettles(start, acts);
    }
  }

  /** Moves left to a thread, counted from its phase. */
  function MoveWeight(retries: nat, p: Phase): nat {
    if p.Submitted? then 6 + 2 * retries else PhaseWeight(retries, p)
  }
}
