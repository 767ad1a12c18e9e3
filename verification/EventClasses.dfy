/** The event stream, the sink that fills it and the client that follows it (worker.py, core/backends_redis.py). */
module EventClasses {
  import opened Collections
  import opened EventPath
  import EventTail

  // ---- streams of events ----------------------------------------------------------------------

  /** The stream of one run: every entry ever added, of which the last `history` can still be read. */
  class RunStream {
    var entries: seq<Fields>
    ghost var published: seq<BusEvent>
    const history: nat

    ghost predicate Valid()
      reads this
    {
      |entries| == |published| && forall k :: 0 <= k < |entries| ==> entries[k] == Encode(published[k])
    }

    constructor (history: nat)
      ensures Valid() && published == [] && this.history == history
    {
      this.history := history;
      entries, published := [], [];
    }

    /** `publish`: add the encoded event; what falls out of the window can no longer be read. */
    method Publish(e: BusEvent)
      requires Valid()
      modifies this
      ensures Valid() && published == old(published) + [e]
    {
      entries := entries + [Encode(e)];
      published := published + [e];
    }

    /** `xread`: up to 64 entries after `after`, and the position of the last one read. */
    method Read(after: nat) returns (items: seq<Fields>, last: nat)
      requires Valid()
      ensures |items| == |EventTail.Batch(published, history, after)|
      ensures forall k :: 0 <= k < |items| ==> items[k] == Encode(EventTail.Batch(published, history, after)[k])
      ensures last == EventTail.NextAfter(|published|, history, after)
    {
      var n := |entries|;
      var lo := Max(after, n - history);
      var hi := Max(lo, Min(lo + EventTail.ReadCount, n));
      items := if hi <= n then entries[lo..hi] else [];
      last := if hi > lo then hi else after;
    }
  }

  // ---- the sink -------------------------------------------------------------------------------

  /** `_BusEventSink`: publishes a runner's events; the closing one waits for the result. */
  class BusEventSink {
    const bus: RunStream
    const runId: string
    const shown: Shown
    var finishedData: Option<Data>
    ghost var received: seq<RunEvent>
    ghost const before: seq<BusEvent>

    ghost predicate Valid()
      reads this, bus
    {
      && bus.Valid() && bus.published == before + Relayed(shown, runId, received)
      && finishedData == FinishedData(received)
    }

    constructor (bus: RunStream, runId: string, shown: Shown)
      requires bus.Valid()
      ensures Valid() && this.bus == bus && this.runId == runId && this.shown == shown
      ensures received == [] && before == bus.published
    {
      this.bus, this.runId, this.shown, finishedData := bus, runId, shown, None;
      received, before := [], bus.published;
    }

    method Emit(e: RunEvent)
      requires Valid()
      modifies this, bus
      ensures Valid() && received == old(received) + [e]
    {
      RelayedSnoc(shown, runId, received, e);
      var out := Outgoing(shown, runId, e);
      if e.kind == "run_finished" {
        finishedData := Some(e.data);
      } else {
        bus.Publish(out.value);
      }
      received := received + [e];
    }

    method PublishFinished(result: RunResult)
      requires Valid()
      modifies bus
      ensures bus.Valid()
      ensures bus.published == before + (Relayed(shown, runId, received) + [Closing(runId, FinishedData(received), result)])
    {
      var data := if finishedData.Some? && finishedData.value != map[] then finishedData.value
                  else map["reason" := Text(result.status)];
      bus.Publish(RunFinished(runId, result.status, data["result" := Record(ResultData(result))]));
    }
  }

  lemma {:induction false} RelayedSnoc(shown: Shown, runId: string, events: seq<RunEvent>, e: RunEvent)
    ensures var out := Outgoing(shown, runId, e);
      Relayed(shown, runId, events + [e]) == Relayed(shown, runId, events) + if out.Some? then [out.value] else []
    ensures FinishedData(events + [e]) == if e.kind == "run_finished" then Some(e.data) else FinishedData(events)
  {
    if events == [] {
      assert ([e])[1..] == [];
    } else {
      assert (events + [e])[1..] == events[1..] + [e];
      RelayedSnoc(shown, runId, events[1..], e);
    }
  }

  // ---- the client -----------------------------------------------------------------------------

  /** `WorkerDispatchClient.run` from the queue entry on; `rounds` is what happens meanwhile. */
  class DispatchClient {
    const stream: RunStream
    const shown: Shown
    var emitted: seq<RunEvent>

    constructor (stream: RunStream, shown: Shown)
      ensures this.stream == stream && this.shown == shown && emitted == []
    {
      this.stream, this.shown, emitted := stream, shown, [];
    }

    /** The events of one read: each is decoded and re-emitted, up to the end of the run. */
    method Deliver(items: seq<Fields>, runId: string, ghost bus: seq<BusEvent>) returns (result: Option<RunResult>)
      requires |items| == |bus| && forall k :: 0 <= k < |items| ==> items[k] == Encode(bus[k])
      modifies this
      ensures emitted == EventTail.Continued(bus, runId, old(emitted))
      ensures var end := EventTail.FirstFinish(bus);
        result == if end.Some? && end.value.RunFinished? then Some(ResultOf(shown, end.value.status, end.value.payload)) else None
    {
      result := None;
      assert bus[0..] == bus;
      for k := 0 to |items|
        invariant EventTail.Continued(bus[k..], runId, emitted) == EventTail.Continued(bus, runId, old(emitted))
        invariant EventTail.FirstFinish(bus[k..]) == EventTail.FirstFinish(bus)
      {
        var e := Decode(items[k]);
        DecodeEncode(bus[k]);
        assert bus[k..][1..] == bus[k + 1..];
        var event := Incoming(e.value, runId, |emitted|);
        ghost var next := emitted + EventTail.Head(bus[k], runId, |emitted|);
        if event.Some? {
          emitted := emitted + [event.value];
        }
        assert emitted == next;
        if e.value.RunFinished? {
          return Some(ResultOf(shown, e.value.status, e.value.payload));
        }
      }
    }

    method Follow(runId: string, rounds: seq<EventTail.Round>) returns (outcome: EventTail.Outcome)
      requires stream.Valid()
      modifies this, stream
      ensures stream.Valid()
      ensures (outcome, emitted)
              == EventTail.Tail(shown, runId, stream.history, rounds, old(stream.published), 0, old(emitted))
    {
      var last := 0;
      for k := 0 to |rounds|
        invariant stream.Valid()
        invariant EventTail.Tail(shown, runId, stream.history, rounds[k..], stream.published, last, emitted)
                  == EventTail.Tail(shown, runId, stream.history, rounds, old(stream.published), 0, old(emitted))
      {
        assert rounds[k..][1..] == rounds[k + 1..];
        if rounds[k].timeUp {
          return EventTail.TimedOut;
        }
        if rounds[k].cancelled {
          return EventTail.Cancelled;
        }
        PublishAll(rounds[k].news);
        var items, next := stream.Read(last);
        ghost var batch := EventTail.Batch(stream.published, stream.history, last);
        var result := Deliver(items, runId, batch);
        last := next;
        if result.Some? {
          return EventTail.Finished(result.value);
        }
        if EventTail.FirstFinish(batch).Some? {
          EventTail.FinishIsOne(batch);
          assert false;
        }
      }
      outcome := EventTail.TimedOut;
    }

    /** What the worker publishes while the client waits. */
    method PublishAll(news: seq<BusEvent>)
      requires stream.Valid()
      modifies stream
      ensures stream.Valid() && stream.published == old(stream.published) + news
    {
      for k := 0 to |news|
        invariant stream.Valid() && stream.published == old(stream.published) + news[..k]
      {
        stream.Publish(news[k]);
      }
    }
  }
}
