/**
 * The way of an event from a runner in a worker to a frame in the browser (worker.py, core/backends_redis.py, server.py):
 * catalogue event, stream entry, catalogue event again, runner event again, frame.
 */
module EventPath {
  import opened Collections

  datatype Value = Text(text: string) | Number(n: int) | Record(fields: map<string, Value>)

  type Data = map<string, Value>

  /** `str(...)` of a value that is not text. */
  type Shown = Value -> string

  datatype RunEvent = RunEvent(kind: string, runId: string, seq_: nat, data: Data)

  const Statuses := {"completed", "failed", "cancelled"}

  datatype RunResult = RunResult(status: string, text: string, error: string) {
    predicate Valid() {
      status in Statuses
    }
  }

  datatype BusEvent =
    | RunStarted(runId: string, mode: string, payload: Data)
    | StepProgress(runId: string, frameType: string, payload: Data)
    | ApprovalRequested(runId: string, frameType: string, payload: Data)
    | RunFinished(runId: string, status: string, payload: Data)
    | RoutingDecided(runId: string, strategy: string, payload: Data)
    | BudgetChanged(runId: string, payload: Data)

  function Get(data: Data, key: string, default_: Value): Value {
    if key in data then data[key] else default_
  }

  function Str(shown: Shown, v: Value): string {
    if v.Text? then v.text else shown(v)
  }

  // ---- stream entries -------------------------------------------------------------------------

  /** A stream entry: the name of the kind and the fields, as the JSON object they are written as. */
  datatype Fields = Fields(kind: string, data: Data)

  function Encode(e: BusEvent): Fields {
    match e
    case RunStarted(id, mode, p) => Fields("RunStarted", map["run_id" := Text(id), "mode" := Text(mode), "payload" := Record(p)])
    case StepProgress(id, frame, p) =>
      Fields("StepProgress", map["run_id" := Text(id), "frame_type" := Text(frame), "payload" := Record(p)])
    case ApprovalRequested(id, frame, p) =>
      Fields("ApprovalRequested", map["run_id" := Text(id), "frame_type" := Text(frame), "payload" := Record(p)])
    case RunFinished(id, status, p) =>
      Fields("RunFinished", map["run_id" := Text(id), "status" := Text(status), "payload" := Record(p)])
    case RoutingDecided(id, strategy, p) =>
      Fields("RoutingDecided", map["run_id" := Text(id), "strategy" := Text(strategy), "payload" := Record(p)])
    case BudgetChanged(id, p) => Fields("BudgetChanged", map["run_id" := Text(id), "payload" := Record(p)])
  }

  function TextAt(data: Data, key: string, default_: string): string {
    if key in data && data[key].Text? then data[key].text else default_
  }

  function DataAt(data: Data, key: string): Data {
    if key in data && data[key].Record? then data[key].fields else map[]
  }

  /** The fields a kind has besides `run_id` and `payload`. */
  function OwnField(kind: string): Option<set<string>> {
    if kind in {"StepProgress", "ApprovalRequested"} then Some({"frame_type"})
    else if kind == "RunStarted" then Some({"mode"})
    else if kind == "RunFinished" then Some({"status"})
    else if kind == "RoutingDecided" then Some({"strategy"})
    else if kind == "BudgetChanged" then Some({})
    else None
  }

  /** An unknown kind, an unknown field and a missing run id are errors; other fields have defaults. */
  function Decode(f: Fields): (e: Option<BusEvent>)
    ensures e.None? <==> OwnField(f.kind).None? || "run_id" !in f.data
                         || exists key :: key in f.data && key !in {"run_id", "payload"} + OwnField(f.kind).value
  {
    var own := OwnField(f.kind);
    if own.None? || "run_id" !in f.data || !(f.data.Keys <= {"run_id", "payload"} + own.value) then None
    else
      var id, p := TextAt(f.data, "run_id", ""), DataAt(f.data, "payload");
      if f.kind == "RunStarted" then Some(RunStarted(id, TextAt(f.data, "mode", ""), p))
      else if f.kind == "StepProgress" then Some(StepProgress(id, TextAt(f.data, "frame_type", "step_progress"), p))
      else if f.kind == "ApprovalRequested" then Some(ApprovalRequested(id, TextAt(f.data, "frame_type", "approval_request"), p))
      else if f.kind == "RunFinished" then Some(RunFinished(id, TextAt(f.data, "status", ""), p))
      else if f.kind == "RoutingDecided" then Some(RoutingDecided(id, TextAt(f.data, "strategy", ""), p))
      else Some(BudgetChanged(id, p))
  }

  /** What is read from the stream is what was written to it. */
  lemma DecodeEncode(e: BusEvent)
    ensures Decode(Encode(e)) == Some(e)
  {
    match e
    case RunStarted(_, _, _) => assert Encode(e).data.Keys == {"run_id", "payload", "mode"};
    case StepProgress(_, _, _) => assert Encode(e).data.Keys == {"run_id", "payload", "frame_type"};
    case ApprovalRequested(_, _, _) => assert Encode(e).data.Keys == {"run_id", "payload", "frame_type"};
    case RunFinished(_, _, _) => assert Encode(e).data.Keys == {"run_id", "payload", "status"};
    case RoutingDecided(_, _, _) => assert Encode(e).data.Keys == {"run_id", "payload", "strategy"};
    case BudgetChanged(_, _) => assert Encode(e).data.Keys == {"run_id", "payload"};
  }

  // ---- the two maps ---------------------------------------------------------------------------

  /** The event the worker publishes; the end of the run is kept back. */
  function Outgoing(shown: Shown, runId: string, e: RunEvent): Option<BusEvent> {
    if e.kind == "run_started" then Some(RunStarted(runId, Str(shown, Get(e.data, "mode", Text(""))), e.data))
    else if e.kind == "run_finished" then None
    else if e.kind == "run_output" then
      Some(StepProgress(runId, "chunk", map["text" := Get(e.data, "text", Text(""))]))
    else if e.kind == "approval_request" then Some(ApprovalRequested(runId, e.kind, e.data))
    else Some(StepProgress(runId, e.kind, e.data))
  }

  function Relayed(shown: Shown, runId: string, events: seq<RunEvent>): (r: seq<BusEvent>)
    ensures forall k :: 0 <= k < |r| ==> !r[k].RunFinished?
  {
    if events == [] then []
    else
      var out := Outgoing(shown, runId, events[0]);
      (if out.Some? then [out.value] else []) + Relayed(shown, runId, events[1..])
  }

  /** What the last `run_finished` among the events said. */
  function FinishedData(events: seq<RunEvent>): Option<Data> {
    if events == [] then None
    else
      var rest := FinishedData(events[1..]);
      if rest.Some? then rest
      else if events[0].kind == "run_finished" then Some(events[0].data) else None
  }

  function ResultData(r: RunResult): Data {
    map["status" := Text(r.status), "text" := Text(r.text), "error" := Text(r.error)]
  }

  /** The closing event, which carries the whole result. */
  function Closing(runId: string, finished: Option<Data>, r: RunResult): BusEvent {
    var data := if finished.Some? && finished.value != map[] then finished.value else map["reason" := Text(r.status)];
    RunFinished(runId, r.status, data["result" := Record(ResultData(r))])
  }

  /** The runner event the server makes of a catalogue event. */
  function Incoming(e: BusEvent, runId: string, n: nat): Option<RunEvent> {
    match e
    case RunStarted(_, _, p) => Some(RunEvent("run_started", runId, n, p))
    case RunFinished(_, _, p) => Some(RunEvent("run_finished", runId, n, p - {"result"}))
    case StepProgress(_, frame, p) => Some(FrameEvent(frame, p, runId, n))
    case ApprovalRequested(_, frame, p) => Some(FrameEvent(frame, p, runId, n))
    case _ => None
  }

  function FrameEvent(frame: string, p: Data, runId: string, n: nat): RunEvent {
    if frame == "chunk" then RunEvent("run_output", runId, n, map["text" := Get(p, "text", Text(""))])
    else RunEvent(frame, runId, n, p)
  }

  function ResultOf(shown: Shown, status: string, p: Data): RunResult {
    if "result" in p && p["result"].Record? && Str(shown, Get(p["result"].fields, "status", Text(""))) in Statuses then
      var raw := p["result"].fields;
      RunResult(Str(shown, Get(raw, "status", Text(""))), Str(shown, Get(raw, "text", Text(""))), Str(shown, Get(raw, "error", Text(""))))
    else RunResult(if status in Statuses then status else "failed", "", "")
  }

  // ---- frames ---------------------------------------------------------------------------------

  /** The frame the browser gets for a runner event, if any. */
  function FrameOf(e: RunEvent): Option<Data> {
    if e.kind in {"run_started", "run_finished"} then None
    else if e.kind == "run_output" then Some(map["type" := Text("chunk"), "text" := Get(e.data, "text", Text(""))])
    else Some(map["type" := Text(e.kind)] + e.data)
  }

  function Frames(events: seq<RunEvent>): seq<Data> {
    if events == [] then []
    else (if FrameOf(events[0]).Some? then [FrameOf(events[0]).value] else []) + Frames(events[1..])
  }

  /** What the client re-emits, numbered from `n`, up to the end of the run. */
  function Reemitted(bus: seq<BusEvent>, runId: string, n: nat): seq<RunEvent> {
    if bus == [] then []
    else
      var e := Incoming(bus[0], runId, n);
      (if e.Some? then [e.value] else [])
      + if bus[0].RunFinished? then [] else Reemitted(bus[1..], runId, if e.Some? then n + 1 else n)
  }

  /** An event of the runner's own that is called chunk carries its text and nothing else. */
  predicate ChunkIsText(e: RunEvent) {
    e.kind == "chunk" ==>
      "text" in e.data && e.data.Keys <= {"text", "type"} && Get(e.data, "type", Text("chunk")) == Text("chunk")
  }

  /** One event: the same frame by both ways exactly when a chunk is only text. */
  lemma SameFrameIff(shown: Shown, runId: string, e: RunEvent, n: nat)
    requires Outgoing(shown, runId, e).Some?
    ensures Incoming(Outgoing(shown, runId, e).value, runId, n).Some?
    ensures var back := Incoming(Outgoing(shown, runId, e).value, runId, n).value;
      && (FrameOf(back).Some? <==> FrameOf(e).Some?)
      && (FrameOf(back) == FrameOf(e) <==> ChunkIsText(e))
  {
    var back := Incoming(Outgoing(shown, runId, e).value, runId, n).value;
    if e.kind == "chunk" {
      var far, near := FrameOf(back).value, FrameOf(e).value;
      assert far == map["type" := Text("chunk"), "text" := Get(e.data, "text", Text(""))];
      assert near == map["type" := Text("chunk")] + e.data;
      if ChunkIsText(e) {
        assert near.Keys == {"type", "text"};
        assert far == near;
      }
      if far == near {
        assert far.Keys == {"type", "text"} && forall key | key in e.data :: key in near;
        assert "text" in near && near["type"] == far["type"];
        assert ChunkIsText(e);
      }
    }
  }

  lemma ReemitRelayed(shown: Shown, runId: string, events: seq<RunEvent>, last: BusEvent, n: nat)
    requires events != [] && Outgoing(shown, runId, events[0]).Some?
    ensures var out := Outgoing(shown, runId, events[0]).value;
      && Incoming(out, runId, n).Some?
      && Reemitted(Relayed(shown, runId, events) + [last], runId, n)
         == [Incoming(out, runId, n).value] + Reemitted(Relayed(shown, runId, events[1..]) + [last], runId, n + 1)
  {
    var out := Outgoing(shown, runId, events[0]).value;
    assert (Relayed(shown, runId, events) + [last])[1..] == Relayed(shown, runId, events[1..]) + [last];
  }

  lemma FramesCons(e: RunEvent, rest: seq<RunEvent>)
    ensures Frames([e] + rest) == (if FrameOf(e).Some? then [FrameOf(e).value] else []) + Frames(rest)
  {
    assert ([e] + rest)[1..] == rest;
  }

  predicate ChunksAreText(events: seq<RunEvent>) {
    forall k :: 0 <= k < |events| ==> ChunkIsText(events[k])
  }

  lemma ChunksAreTextCons(events: seq<RunEvent>)
    requires events != []
    ensures ChunksAreText(events) <==> ChunkIsText(events[0]) && ChunksAreText(events[1..])
  {
    var rest := events[1..];
    assert forall k :: 0 < k < |events| ==> events[k] == rest[k - 1];
    assert forall k :: 0 <= k < |rest| ==> rest[k] == events[k + 1];
  }

  function FarFrames(shown: Shown, runId: string, events: seq<RunEvent>, last: BusEvent, n: nat): seq<Data> {
    Frames(Reemitted(Relayed(shown, runId, events) + [last], runId, n))
  }

  /** The worker's way gives as many frames as the local one, and the same frames exactly when chunks are only text. */
  lemma {:induction false} SameFramesIff(shown: Shown, runId: string, events: seq<RunEvent>, last: BusEvent, n: nat)
    requires last.RunFinished?
    ensures |FarFrames(shown, runId, events, last, n)| == |Frames(events)|
    ensures FarFrames(shown, runId, events, last, n) == Frames(events) <==> ChunksAreText(events)
    decreases |events|
  {
    if events == [] {
      assert Reemitted([last], runId, n) == [Incoming(last, runId, n).value];
      FramesCons(Incoming(last, runId, n).value, []);
    } else {
      ChunksAreTextCons(events);
      if Outgoing(shown, runId, events[0]).None? {
        assert Relayed(shown, runId, events) == Relayed(shown, runId, events[1..]);
        SameFramesIff(shown, runId, events[1..], last, n);
      } else {
        SameFramesIff(shown, runId, events[1..], last, n + 1);
        FarFramesCons(shown, runId, events, last, n);
        SameFrameIff(shown, runId, events[0], n);
        ConsEqual(FrameOf(Incoming(Outgoing(shown, runId, events[0]).value, runId, n).value), FrameOf(events[0]),
                  FarFrames(shown, runId, events[1..], last, n + 1), Frames(events[1..]));
      }
    }
  }

  lemma FarFramesCons(shown: Shown, runId: string, events: seq<RunEvent>, last: BusEvent, n: nat)
    requires events != [] && Outgoing(shown, runId, events[0]).Some?
    ensures Incoming(Outgoing(shown, runId, events[0]).value, runId, n).Some?
    ensures var back := Incoming(Outgoing(shown, runId, events[0]).value, runId, n).value;
      FarFrames(shown, runId, events, last, n)
      == (if FrameOf(back).Some? then [FrameOf(back).value] else []) + FarFrames(shown, runId, events[1..], last, n + 1)
  {
    var back := Incoming(Outgoing(shown, runId, events[0]).value, runId, n);
    ReemitRelayed(shown, runId, events, last, n);
    FramesCons(back.value, Reemitted(Relayed(shown, runId, events[1..]) + [last], runId, n + 1));
  }

  lemma ConsEqual(a: Option<Data>, b: Option<Data>, s: seq<Data>, t: seq<Data>)
    requires (a.Some? <==> b.Some?) && |s| == |t|
    ensures var x, y := (if a.Some? then [a.value] else []) + s, (if b.Some? then [b.value] else []) + t;
      x == y <==> a == b && s == t
  {
    if a.Some? {
      var x, y := [a.value] + s, [b.value] + t;
      assert x[0] == a.value && y[0] == b.value && x[1..] == s && y[1..] == t;
    } else {
      assert [] + s == s && [] + t == t;
    }
  }

  /** The server gets back the very result of the runner. */
  lemma SameResult(shown: Shown, runId: string, finished: Option<Data>, r: RunResult)
    requires r.Valid()
    ensures var last := Closing(runId, finished, r);
      ResultOf(shown, last.status, last.payload) == r
  {
  }
}
