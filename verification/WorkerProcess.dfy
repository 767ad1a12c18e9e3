/**
 * The worker's loop body with its lease and queue (worker.py, core/lease.py, core/backends_redis.py). Between any two of
 * its commands the other workers, the clock and its own lease renewer may move; what it does is a run of WorkerMachine.
 */
module WorkerProcess {
  import opened Collections
  import opened WorkerMachine
  import opened EventPath
  import opened EventClasses

  const ValidKinds := {"direct", "chain", "agent", "delegate", "apply"}

  /** The steps of a run that are this worker's own; renewals come from a thread beside it. */
  function Own(acts: seq<Action>, w: string): seq<Action> {
    if acts == [] then []
    else (if StepOf(acts[0], w) && !acts[0].Renew? then [acts[0]] else []) + Own(acts[1..], w)
  }

  lemma {:induction false} OwnAppend(a: seq<Action>, b: seq<Action>, w: string)
    ensures Own(a + b, w) == Own(a, w) + Own(b, w)
  {
    if a == [] {
      assert a + b == b;
    } else {
      assert (a + b)[1..] == a[1..] + b;
      OwnAppend(a[1..], b, w);
    }
  }

  lemma RunSnoc(s: State, acts: seq<Action>, a: Action)
    ensures Run(s, acts + [a]) == Step(Run(s, acts), a)
  {
    RunAppend(s, acts, [a]);
    assert [a][1..] == [];
  }

  lemma OwnSnoc(acts: seq<Action>, a: Action, w: string)
    ensures Own(acts + [a], w) == Own(acts, w) + if StepOf(a, w) && !a.Renew? then [a] else []
  {
    OwnAppend(acts, [a], w);
    assert [a][1..] == [];
  }

  /** Going on with a run: the others' steps and then one of this worker's own. */
  lemma GoesOn(start: State, trace: seq<Action>, others: seq<Action>, a: Action, w: string)
    requires Own(others, w) == [] && StepOf(a, w) && !a.Renew?
    ensures Run(start, trace + others + [a]) == Step(Run(Run(start, trace), others), a)
    ensures Own(trace + others + [a], w) == Own(trace, w) + [a]
  {
    RunAppend(start, trace, others);
    OwnAppend(trace, others, w);
    RunSnoc(start, trace + others, a);
    OwnSnoc(trace + others, a, w);
  }

  /** The steps of the others move neither this worker nor the entries there are. */
  lemma OthersKeepStage(s: State, a: Action, w: string)
    requires !StepOf(a, w) || a.Renew?
    requires StageOf(s, w).Busy()
    ensures StageOf(Step(s, a), w) == StageOf(s, w) && s.entries <= Step(s, a).entries
  {
  }

  /** What the server stores; `state` also records where each worker is. */
  class Server {
    var state: State

    /** `SET key value NX PX ttl` */
    method SetNx(project: string, w: string) returns (ok: bool)
      modifies this
      ensures ok <==> Free(old(state), project)
      ensures state == if ok then Leased(old(state), project, w) else old(state)
    {
      ok := !(project in state.leases) || state.leases[project].deadline <= state.now;
      if ok {
        state := state.(leases := state.leases[project := Lease(w, state.now + state.ttl)]);
      }
    }

    /** Setting a new expiry if the key's value is this worker. */
    method ExpireIfOwn(project: string, w: string) returns (ok: bool)
      modifies this
      ensures ok <==> Holds(old(state), project, w)
      ensures state == if ok then Leased(old(state), project, w) else old(state)
    {
      ok := project in state.leases && state.now < state.leases[project].deadline && state.leases[project].owner == w;
      if ok {
        state := state.(leases := state.leases[project := Lease(w, state.now + state.ttl)]);
      }
    }

    /** Deleting the key if its value is this worker. */
    method DeleteIfOwn(project: string, w: string) returns (ok: bool)
      modifies this
      ensures ok <==> Holds(old(state), project, w)
      ensures state == Unleased(old(state), project, w)
    {
      ok := project in state.leases && state.now < state.leases[project].deadline && state.leases[project].owner == w;
      if ok {
        state := state.(leases := state.leases - {project});
      }
    }

    /** Records how far a worker has come. */
    method MoveTo(w: string, stage: Stage)
      modifies this
      ensures state == At(old(state), w, stage).(lapsed := if stage.Executing? then old(state).lapsed - {w} else old(state).lapsed)
    {
      state := At(state, w, stage).(lapsed := if stage.Executing? then state.lapsed - {w} else state.lapsed);
    }

    /** Records that a run's final result is on its stream. */
    method Finalise(w: string, id: nat)
      requires StageOf(state, w) == Stage.Executing(id) && id < |state.entries|
      modifies this
      ensures state == Step(old(state), Publish(w)) && StageOf(state, w) == Stage.Published(id)
      ensures state.entries == old(state).entries
    {
      state := At(state.(finals := state.finals + {state.entries[id].runId}), w, Stage.Published(id));
    }

    /** Any steps of other workers, clients and the clock, and of this worker's renewer. */
    method Others(w: string) returns (ghost acts: seq<Action>)
      requires StageOf(state, w).Busy()
      modifies this
      ensures state == Run(old(state), acts) && Own(acts, w) == []
      ensures StageOf(state, w) == StageOf(old(state), w) && old(state).entries <= state.entries
    {
      acts := [];
      var n: int := *;
      for k := 0 to Max(0, n)
        invariant state == Run(old(state), acts) && Own(acts, w) == []
        invariant StageOf(state, w) == StageOf(old(state), w) && old(state).entries <= state.entries
      {
        var a: Action := *;
        if !StepOf(a, w) || a.Renew? {
          OthersKeepStage(state, a, w);
          RunSnoc(old(state), acts, a);
          OwnSnoc(acts, a, w);
          state := Step(state, a);
          acts := acts + [a];
        }
      }
    }
  }

  /** `ProjectLease`: each operation is one atomic command on the project's key. */
  class ProjectLease {
    const server: Server
    const project: string
    const workerId: string

    constructor (server: Server, project: string, workerId: string)
      ensures this.server == server && this.project == project && this.workerId == workerId
    {
      this.server, this.project, this.workerId := server, project, workerId;
    }

    method Acquire(id: nat) returns (ok: bool)
      requires StageOf(server.state, workerId) == Claimed(id) && ProjectOf(server.state, id) == project
      modifies server
      ensures ok <==> Free(old(server.state), project)
      ensures server.state == Step(old(server.state), Action.Acquire(workerId))
      ensures StageOf(server.state, workerId) == if ok then Executing(id) else Refused(id)
    {
      ok := server.SetNx(project, workerId);
      server.MoveTo(workerId, if ok then Executing(id) else Refused(id));
    }

    method Renew() returns (ok: bool)
      requires StageOf(server.state, workerId).Working() && ProjectOf(server.state, StageOf(server.state, workerId).id) == project
      modifies server
      ensures ok <==> Holds(old(server.state), project, workerId)
      ensures server.state == Step(old(server.state), Action.Renew(workerId))
    {
      ok := server.ExpireIfOwn(project, workerId);
    }

    method Release() returns (ok: bool)
      modifies server
      ensures ok <==> Holds(old(server.state), project, workerId)
      ensures server.state == Unleased(old(server.state), project, workerId)
    {
      ok := server.DeleteIfOwn(project, workerId);
    }
  }

  /** `RedisWorkQueue` */
  class RedisWorkQueue {
    const server: Server

    constructor (server: Server)
      ensures this.server == server
    {
      this.server := server;
    }

    method Enqueue(payload: Payload)
      modifies server
      ensures server.state == Step(old(server.state), Submit(payload))
    {
      server.state := server.state.(entries := server.state.entries + [payload]);
    }

    /** Reads a new entry, which is pending from then on. */
    method Claim(w: string) returns (entry: Option<nat>)
      requires StageOf(server.state, w).Idle?
      modifies server
      ensures server.state == Step(old(server.state), Action.Claim(w))
      ensures match entry
        case None => server.state == old(server.state)
        case Some(id) => StageOf(server.state, w) == Claimed(id) && id < |server.state.entries|
    {
      entry := None;
      var id := server.state.delivered;
      if id < |server.state.entries| {
        server.state := server.state.(pending := server.state.pending[id := w], delivered := id + 1);
        server.MoveTo(w, Claimed(id));
        entry := Some(id);
      }
    }

    method Acknowledge(id: nat)
      modifies server
      ensures server.state == old(server.state).(pending := old(server.state).pending - {id})
    {
      server.state := server.state.(pending := server.state.pending - {id});
    }

    /** Takes over a pending entry of another consumer. */
    method Reclaim(w: string, id: nat) returns (ok: bool)
      requires StageOf(server.state, w).Idle?
      modifies server
      ensures server.state == Step(old(server.state), Action.Reclaim(w, id))
      ensures ok <==> id in old(server.state).pending
    {
      ok := id in server.state.pending;
      if ok {
        server.state := server.state.(pending := server.state.pending[id := w]);
        server.MoveTo(w, Claimed(id));
      }
    }
  }

  /** How a runner ends: with a result, or against its contract with an exception. */
  datatype RunnerRun = Returns(events: seq<RunEvent>, result: RunResult) | Raises(events: seq<RunEvent>, error: string)

  function ResultFor(payload: Payload, run: RunnerRun): (r: RunResult)
    requires run.Returns? ==> run.result.Valid()
    ensures r.Valid()
  {
    if payload.mode !in ValidKinds then RunResult("failed", "", "unknown mode: " + payload.mode)
    else if run.Returns? then run.result
    else RunResult("failed", "", run.error)
  }

  function EventsFor(payload: Payload, run: RunnerRun): seq<RunEvent> {
    if payload.mode !in ValidKinds then [] else run.events
  }

  datatype Outcome = Requeued | Done(status: string) | Escaped

  class Worker {
    const server: Server
    const queue: RedisWorkQueue
    const workerId: string
    const shown: Shown

    ghost predicate Valid() {
      queue.server == server
    }

    constructor (server: Server, queue: RedisWorkQueue, workerId: string, shown: Shown)
      requires queue.server == server
      ensures Valid() && this.server == server && this.workerId == workerId && this.shown == shown
    {
      this.server, this.queue, this.workerId, this.shown := server, queue, workerId, shown;
    }

    /** `_execute`: the runner's events and then its result, whatever the runner does. */
    method Execute(payload: Payload, run: RunnerRun, bus: RunStream) returns (result: RunResult)
      requires bus.Valid() && (run.Returns? ==> run.result.Valid())
      modifies bus
      ensures bus.Valid() && result == ResultFor(payload, run)
      ensures var events := EventsFor(payload, run);
        bus.published == old(bus.published)
                         + (Relayed(shown, payload.runId, events) + [Closing(payload.runId, FinishedData(events), result)])
    {
      var sink := new BusEventSink(bus, payload.runId, shown);
      if payload.mode !in ValidKinds {
        result := RunResult("failed", "", "unknown mode: " + payload.mode);
        sink.PublishFinished(result);
        return;
      }
      for k := 0 to |run.events|
        invariant sink.Valid() && sink.received == run.events[..k]
      {
        sink.Emit(run.events[k]);
      }
      assert run.events[..|run.events|] == run.events;
      if run.Returns? {
        result := run.result;
      } else {
        result := RunResult("failed", "", run.error);
      }
      sink.PublishFinished(result);
    }

    /** Requeueing a refused entry: the copy is in the queue before the old entry is acknowledged. */
    method GiveBack(id: nat, payload: Payload) returns (ghost trace: seq<Action>)
      requires Valid() && StageOf(server.state, workerId) == Stage.Refused(id)
      requires id < |server.state.entries| && server.state.entries[id] == payload
      modifies server
      ensures server.state == Run(old(server.state), trace)
      ensures Own(trace, workerId) == [Action.Requeue(workerId), AckRequeued(workerId)]
    {
      ghost var start := server.state;
      ghost var others := server.Others(workerId);
      GoesOn(start, [], others, Action.Requeue(workerId), workerId);
      queue.Enqueue(payload);
      server.MoveTo(workerId, Stage.Requeued(id));
      trace := [] + others + [Action.Requeue(workerId)];
      others := server.Others(workerId);
      GoesOn(start, trace, others, AckRequeued(workerId), workerId);
      queue.Acknowledge(id);
      server.MoveTo(workerId, Idle);
      trace := trace + others + [AckRequeued(workerId)];
    }

    /**
     * Executing under the lease: the final result is published before the entry is acknowledged, and the lease is
     * released last. An exception before the result is published leaves the entry pending and gives the lease up.
     */
    method WorkOn(id: nat, payload: Payload, lease: ProjectLease, refused: bool, run: RunnerRun, bus: RunStream)
      returns (outcome: Outcome, ghost trace: seq<Action>)
      requires Valid() && StageOf(server.state, workerId) == Stage.Executing(id)
      requires id < |server.state.entries| && server.state.entries[id] == payload
      requires lease.server == server && lease.workerId == workerId && lease.project == payload.projectId
      requires bus.Valid() && (run.Returns? ==> run.result.Valid())
      modifies server, bus
      ensures bus.Valid() && server.state == Run(old(server.state), trace)
      ensures outcome.Escaped? <==> refused && payload.mode in ValidKinds
      ensures outcome.Escaped? ==> Own(trace, workerId) == [Fail(workerId)] && bus.published == old(bus.published)
      ensures !outcome.Escaped? ==>
        && Own(trace, workerId) == [Publish(workerId), AckDone(workerId), Action.Release(workerId)]
        && outcome == Done(ResultFor(payload, run).status)
        && bus.published == old(bus.published)
                            + (Relayed(shown, payload.runId, EventsFor(payload, run))
                               + [Closing(payload.runId, FinishedData(EventsFor(payload, run)), ResultFor(payload, run))])
    {
      ghost var start := server.state;
      ghost var others := server.Others(workerId);
      if refused && payload.mode in ValidKinds {
        GoesOn(start, [], others, Fail(workerId), workerId);
        var _ := lease.Release();
        server.MoveTo(workerId, Dead);
        return Escaped, [] + others + [Fail(workerId)];
      }
      GoesOn(start, [], others, Publish(workerId), workerId);
      var result := Execute(payload, run, bus);
      server.Finalise(workerId, id);
      trace := [] + others + [Publish(workerId)];
      others := CloseUp(id, lease);
      RunAppend(start, trace, others);
      OwnAppend(trace, others, workerId);
      trace := trace + others;
      outcome := Done(result.status);
    }

    /** After the result: acknowledge, then give the lease up. */
    method CloseUp(id: nat, lease: ProjectLease) returns (ghost trace: seq<Action>)
      requires Valid() && StageOf(server.state, workerId) == Stage.Published(id)
      requires id < |server.state.entries| && lease.project == server.state.entries[id].projectId
      requires lease.server == server && lease.workerId == workerId
      modifies server
      ensures server.state == Run(old(server.state), trace)
      ensures Own(trace, workerId) == [AckDone(workerId), Action.Release(workerId)]
    {
      ghost var start := server.state;
      ghost var others := server.Others(workerId);
      GoesOn(start, [], others, AckDone(workerId), workerId);
      queue.Acknowledge(id);
      server.MoveTo(workerId, Stage.Acked(id));
      trace := [] + others + [AckDone(workerId)];
      others := server.Others(workerId);
      GoesOn(start, trace, others, Action.Release(workerId), workerId);
      var _ := lease.Release();
      server.MoveTo(workerId, Idle);
      trace := trace + others + [Action.Release(workerId)];
    }

    /** `_process`: a claimed entry is either given back or executed, whatever the others do in between. */
    method Process(id: nat, payload: Payload, refused: bool, run: RunnerRun, bus: RunStream)
      returns (outcome: Outcome, ghost trace: seq<Action>)
      requires Valid() && StageOf(server.state, workerId) == Stage.Claimed(id)
      requires id < |server.state.entries| && server.state.entries[id] == payload
      requires bus.Valid() && (run.Returns? ==> run.result.Valid())
      modifies server, bus
      ensures bus.Valid() && server.state == Run(old(server.state), trace)
      ensures Own(trace, workerId) == [Action.Acquire(workerId)] + OwnAfter(outcome, workerId)
      ensures outcome.Done? ==>
        && outcome.status == ResultFor(payload, run).status
        && bus.published == old(bus.published)
                            + (Relayed(shown, payload.runId, EventsFor(payload, run))
                               + [Closing(payload.runId, FinishedData(EventsFor(payload, run)), ResultFor(payload, run))])
      ensures !outcome.Done? ==> bus.published == old(bus.published)
    {
      ghost var start := server.state;
      var lease := new ProjectLease(server, payload.projectId, workerId);
      ghost var others := server.Others(workerId);
      GoesOn(start, [], others, Action.Acquire(workerId), workerId);
      var ok := lease.Acquire(id);
      trace := [] + others + [Action.Acquire(workerId)];
      if ok {
        outcome, others := WorkOn(id, payload, lease, refused, run, bus);
      } else {
        others := GiveBack(id, payload);
        outcome := Outcome.Requeued;
      }
      RunAppend(start, trace, others);
      OwnAppend(trace, others, workerId);
      trace := trace + others;
    }

    /** `run_once`: nothing to do, or one entry handled from claim to the end. */
    method RunOnce(refused: bool, run: RunnerRun, bus: RunStream) returns (outcome: Option<Outcome>, ghost trace: seq<Action>)
      requires Valid() && StageOf(server.state, workerId).Idle?
      requires bus.Valid() && (run.Returns? ==> run.result.Valid())
      modifies server, bus
      ensures bus.Valid() && server.state == Run(old(server.state), trace)
      ensures Own(trace, workerId)
              == [Action.Claim(workerId)]
                 + if outcome.None? then [] else [Action.Acquire(workerId)] + OwnAfter(outcome.value, workerId)
    {
      ghost var start := server.state;
      GoesOn(start, [], [], Action.Claim(workerId), workerId);
      var entry := queue.Claim(workerId);
      trace := [] + [] + [Action.Claim(workerId)];
      if entry.None? {
        return None, trace;
      }
      var o;
      ghost var more;
      o, more := Process(entry.value, server.state.entries[entry.value], refused, run, bus);
      RunAppend(start, trace, more);
      OwnAppend(trace, more, workerId);
      trace := trace + more;
      outcome := Some(o);
    }
  }

  /** What a worker does itself once it has asked for the lease. */
  function OwnAfter(outcome: Outcome, w: string): seq<Action> {
    match outcome
    case Requeued => [Action.Requeue(w), AckRequeued(w)]
    case Done(_) => [Publish(w), AckDone(w), Action.Release(w)]
    case Escaped => [Fail(w)]
  }
}
