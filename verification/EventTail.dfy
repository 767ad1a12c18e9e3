/**
 * Following a trimmed event stream (worker.py, core/backends_redis.py): the client reads at most 64 entries at a time after
 * the last one it has seen, while the stream keeps only the latest ones.
 */
module EventTail {
  import opened Collections
  import opened EventPath

  const ReadCount := 64

  /** Of `n` entries ever added a stream keeps the last `keep`; reading starts after the entry `after`. */
  function ReadStart(n: nat, keep: nat, after: nat): (lo: nat) {
    Max(after, n - keep)
  }

  function ReadEnd(n: nat, keep: nat, after: nat): (hi: nat) {
    Max(ReadStart(n, keep, after), Min(ReadStart(n, keep, after) + ReadCount, n))
  }

  /** Where the reader stands afterwards: nothing read, nothing moved. */
  function NextAfter(n: nat, keep: nat, after: nat): nat {
    if ReadEnd(n, keep, after) > ReadStart(n, keep, after) then ReadEnd(n, keep, after) else after
  }

  function Range(a: int, b: int): (r: seq<int>)
    ensures |r| == Max(0, b - a) && forall k :: 0 <= k < |r| ==> r[k] == a + k
  {
    seq(Max(0, b - a), k requires 0 <= k => a + k)
  }

  /** The positions read when the stream has grown to `counts[k]` entries at the k-th read. */
  function ReadPositions(keep: nat, counts: seq<nat>, after: nat): seq<int>
    decreases |counts|
  {
    if counts == [] then []
    else
      Range(ReadStart(counts[0], keep, after), ReadEnd(counts[0], keep, after))
      + ReadPositions(keep, counts[1..], NextAfter(counts[0], keep, after))
  }

  /** At every read the unread backlog is still in the stream. */
  predicate KeepsUp(keep: nat, counts: seq<nat>, after: nat)
    decreases |counts|
  {
    counts != [] ==> counts[0] - after <= keep && KeepsUp(keep, counts[1..], NextAfter(counts[0], keep, after))
  }

  predicate Growing(counts: seq<nat>, from: nat)
    decreases |counts|
  {
    counts != [] ==> from <= counts[0] && Growing(counts[1..], counts[0])
  }

  lemma GrowingFrom(counts: seq<nat>, a: nat, b: nat)
    requires Growing(counts, a) && b <= a
    ensures Growing(counts, b)
  {
  }

  /** A reader in time reads on from where it stands; one that is late starts further on. */
  lemma OneRead(n: nat, keep: nat, after: nat)
    requires after <= n && keep > 0
    ensures n - after <= keep ==> ReadStart(n, keep, after) == after <= NextAfter(n, keep, after) <= n
    ensures n - after <= keep ==> ReadEnd(n, keep, after) == NextAfter(n, keep, after)
    ensures n - after > keep ==> after < ReadStart(n, keep, after) < ReadEnd(n, keep, after)
  {
  }

  /** Every entry is read once and in order exactly when the reader keeps up with the trimming at every read. */
  lemma {:induction false} NothingSkippedIff(keep: nat, counts: seq<nat>, after: nat)
    requires keep > 0 && Growing(counts, after)
    ensures var got := ReadPositions(keep, counts, after);
      got == Range(after, after + |got|) <==> KeepsUp(keep, counts, after)
    decreases |counts|
  {
    if counts != [] {
      var n, next := counts[0], NextAfter(counts[0], keep, after);
      var rest := ReadPositions(keep, counts[1..], next);
      OneRead(n, keep, after);
      if n - after > keep {
        LateStart(ReadStart(n, keep, after), ReadEnd(n, keep, after), rest, after);
      } else {
        GrowingFrom(counts[1..], n, next);
        NothingSkippedIff(keep, counts[1..], next);
        RangeSplit(after, next, rest);
      }
    }
  }

  lemma LateStart(lo: int, hi: int, rest: seq<int>, after: int)
    requires after < lo < hi
    ensures var got := Range(lo, hi) + rest; got != Range(after, after + |got|)
  {
    var got := Range(lo, hi) + rest;
    assert got[0] == lo && Range(after, after + |got|)[0] == after;
  }

  lemma RangeSplit(a: int, b: int, rest: seq<int>)
    requires a <= b
    ensures var all := Range(a, b) + rest;
      all == Range(a, a + |all|) <==> rest == Range(b, b + |rest|)
  {
    var first, all := Range(a, b), Range(a, b) + rest;
    if all == Range(a, a + |all|) {
      forall k | 0 <= k < |rest| ensures rest[k] == b + k {
        assert all[|first| + k] == rest[k];
      }
    }
  }

  // ---- the client's loop ----------------------------------------------------------------------

  /** One turn of the loop: whether time is up or the run cancelled, and what is published before the read. */
  datatype Round = Round(timeUp: bool, cancelled: bool, news: seq<BusEvent>)

  datatype Outcome = Finished(result: RunResult) | Cancelled | TimedOut

  function FirstFinish(bus: seq<BusEvent>): Option<BusEvent> {
    if bus == [] then None
    else if bus[0].RunFinished? then Some(bus[0]) else FirstFinish(bus[1..])
  }

  function Batch(published: seq<BusEvent>, keep: nat, after: nat): seq<BusEvent> {
    var lo, hi := ReadStart(|published|, keep, after), ReadEnd(|published|, keep, after);
    if hi <= |published| then published[lo..hi] else []
  }

  function Head(e: BusEvent, runId: string, n: nat): seq<RunEvent> {
    if Incoming(e, runId, n).Some? then [Incoming(e, runId, n).value] else []
  }

  /** Re-emitting one event after another, as a loop does. */
  function Continued(bus: seq<BusEvent>, runId: string, emitted: seq<RunEvent>): seq<RunEvent>
    decreases |bus|
  {
    if bus == [] then emitted
    else
      var next := emitted + Head(bus[0], runId, |emitted|);
      if bus[0].RunFinished? then next else Continued(bus[1..], runId, next)
  }

  /** What the loop returns and has emitted in the end. */
  function Tail(shown: Shown, runId: string, keep: nat, rounds: seq<Round>, published: seq<BusEvent>, after: nat,
                emitted: seq<RunEvent>): (Outcome, seq<RunEvent>)
    decreases |rounds|
  {
    if rounds == [] || rounds[0].timeUp then (TimedOut, emitted)
    else if rounds[0].cancelled then (Cancelled, emitted)
    else
      var all := published + rounds[0].news;
      var batch := Batch(all, keep, after);
      var out := Continued(batch, runId, emitted);
      var end := FirstFinish(batch);
      if end.Some? && end.value.RunFinished? then (Finished(ResultOf(shown, end.value.status, end.value.payload)), out)
      else Tail(shown, runId, keep, rounds[1..], all, NextAfter(|all|, keep, after), out)
  }

  /** The reader is never outrun while it follows. */
  predicate FollowsInTime(keep: nat, rounds: seq<Round>, published: seq<BusEvent>, after: nat)
    decreases |rounds|
  {
    rounds == [] || rounds[0].timeUp || rounds[0].cancelled ||
    (var all := published + rounds[0].news;
     && |all| - after <= keep
     && (FirstFinish(Batch(all, keep, after)).Some? || FollowsInTime(keep, rounds[1..], all, NextAfter(|all|, keep, after))))
  }

  function AllNews(rounds: seq<Round>): seq<BusEvent> {
    if rounds == [] then [] else rounds[0].news + AllNews(rounds[1..])
  }

  lemma {:induction false} FinishAppend(a: seq<BusEvent>, b: seq<BusEvent>)
    ensures FirstFinish(a + b) == if FirstFinish(a).Some? then FirstFinish(a) else FirstFinish(b)
  {
    if a == [] {
      assert a + b == b;
    } else {
      assert (a + b)[1..] == a[1..] + b;
      FinishAppend(a[1..], b);
    }
  }

  lemma {:induction false} ContinuedIs(bus: seq<BusEvent>, runId: string, emitted: seq<RunEvent>)
    ensures Continued(bus, runId, emitted) == emitted + Reemitted(bus, runId, |emitted|)
    decreases |bus|
  {
    if bus != [] {
      var h := Head(bus[0], runId, |emitted|);
      if bus[0].RunFinished? {
        assert Reemitted(bus, runId, |emitted|) == h;
      } else {
        var rest := Reemitted(bus[1..], runId, |emitted| + |h|);
        assert Reemitted(bus, runId, |emitted|) == h + rest;
        ContinuedIs(bus[1..], runId, emitted + h);
        HeadFirst(emitted, h, rest);
      }
    }
  }

  lemma HeadFirst(a: seq<RunEvent>, b: seq<RunEvent>, c: seq<RunEvent>)
    ensures a + (b + c) == (a + b) + c
  {
  }

  lemma {:induction false} ContinuedAppend(a: seq<BusEvent>, b: seq<BusEvent>, runId: string, emitted: seq<RunEvent>)
    requires FirstFinish(a).None?
    ensures Continued(a + b, runId, emitted) == Continued(b, runId, Continued(a, runId, emitted))
    decreases |a|
  {
    if a == [] {
      assert a + b == b;
    } else {
      assert (a + b)[1..] == a[1..] + b && (a + b)[0] == a[0];
      ContinuedAppend(a[1..], b, runId, emitted + Head(a[0], runId, |emitted|));
    }
  }

  lemma {:induction false} ContinuedToFinish(a: seq<BusEvent>, b: seq<BusEvent>, runId: string, emitted: seq<RunEvent>)
    requires FirstFinish(a).Some?
    ensures Continued(a + b, runId, emitted) == Continued(a, runId, emitted)
    decreases |a|
  {
    assert (a + b)[1..] == a[1..] + b && (a + b)[0] == a[0];
    if !a[0].RunFinished? {
      ContinuedToFinish(a[1..], b, runId, emitted + Head(a[0], runId, |emitted|));
    }
  }

  /** What was read so far, re-emitted. */
  predicate Caught(runId: string, published: seq<BusEvent>, after: nat, emitted: seq<RunEvent>) {
    after <= |published| && FirstFinish(published[..after]).None? && emitted == Continued(published[..after], runId, [])
  }

  /** A reader in time reads on where it stopped. */
  lemma ReadsOn(all: seq<BusEvent>, keep: nat, after: nat)
    requires after <= |all| && |all| - after <= keep
    ensures var next := NextAfter(|all|, keep, after);
      after <= next <= |all| && Batch(all, keep, after) == all[after..next]
  {
  }

  /** A reader in time catches up by exactly the batch it reads. */
  lemma ReadCatches(runId: string, all: seq<BusEvent>, after: nat, next: nat, emitted: seq<RunEvent>)
    requires Caught(runId, all, after, emitted) && after <= next <= |all|
    ensures Continued(all[after..next], runId, emitted) == Continued(all[..next], runId, [])
    ensures FirstFinish(all[..next]) == FirstFinish(all[after..next])
  {
    assert all[..next] == all[..after] + all[after..next];
    ContinuedAppend(all[..after], all[after..next], runId, []);
    FinishAppend(all[..after], all[after..next]);
  }

  /** Once the end is in sight, what is published later changes nothing. */
  lemma EndIsFinal(runId: string, all: seq<BusEvent>, next: nat, more: seq<BusEvent>)
    requires next <= |all| && FirstFinish(all[..next]).Some?
    ensures Continued(all + more, runId, []) == Continued(all[..next], runId, [])
    ensures FirstFinish(all + more) == FirstFinish(all[..next])
  {
    assert all + more == all[..next] + (all[next..] + more);
    ContinuedToFinish(all[..next], all[next..] + more, runId, []);
    FinishAppend(all[..next], all[next..] + more);
  }

  ghost predicate DeliversAll(shown: Shown, runId: string, bus: seq<BusEvent>, outcome: Outcome, out: seq<RunEvent>) {
    && out == Continued(bus, runId, [])
    && FirstFinish(bus).Some? && FirstFinish(bus).value.RunFinished?
    && outcome == Finished(ResultOf(shown, FirstFinish(bus).value.status, FirstFinish(bus).value.payload))
  }

  /**
   * A client that follows in time and sees the end has emitted, once and in order, everything published up to the
   * first closing event, and returns what that one carries.
   */
  lemma {:induction false} TailDelivers(shown: Shown, runId: string, keep: nat, rounds: seq<Round>, published: seq<BusEvent>,
                                        after: nat, emitted: seq<RunEvent>)
    requires Caught(runId, published, after, emitted) && FollowsInTime(keep, rounds, published, after)
    requires Tail(shown, runId, keep, rounds, published, after, emitted).0.Finished?
    ensures var (outcome, out) := Tail(shown, runId, keep, rounds, published, after, emitted);
      DeliversAll(shown, runId, published + AllNews(rounds), outcome, out)
    decreases |rounds|
  {
    var all, more := published + rounds[0].news, AllNews(rounds[1..]);
    assert published + AllNews(rounds) == all + more;
    assert all[..after] == published[..after];
    var next := NextAfter(|all|, keep, after);
    ReadsOn(all, keep, after);
    ReadCatches(runId, all, after, next, emitted);
    var batch := Batch(all, keep, after);
    if FirstFinish(batch).Some? {
      FinishIsOne(batch);
      EndIsFinal(runId, all, next, more);
    } else {
      TailDelivers(shown, runId, keep, rounds[1..], all, next, Continued(batch, runId, emitted));
    }
  }

  lemma {:induction false} FinishIsOne(bus: seq<BusEvent>)
    requires FirstFinish(bus).Some?
    ensures FirstFinish(bus).value.RunFinished?
  {
    if !bus[0].RunFinished? {
      FinishIsOne(bus[1..]);
    }
  }

  lemma {:induction false} NoFinishBefore(bus: seq<BusEvent>, last: BusEvent)
    requires last.RunFinished? && forall k :: 0 <= k < |bus| ==> !bus[k].RunFinished?
    ensures FirstFinish(bus + [last]) == Some(last)
  {
    if bus != [] {
      assert (bus + [last])[1..] == bus[1..] + [last];
      NoFinishBefore(bus[1..], last);
    }
  }

  /**
   * The whole way. The worker publishes a run's events and then its closing event (and perhaps more, when the entry
   * is executed again). A client that follows in time and sees the end returns the runner's own result, and gives
   * the browser the frames of a local run exactly when the run's chunk events carry only text.
   */
  lemma WorkerPathIsLocalPath(shown: Shown, runId: string, keep: nat, rounds: seq<Round>, events: seq<RunEvent>, r: RunResult)
    requires r.Valid()
    requires Relayed(shown, runId, events) + [Closing(runId, FinishedData(events), r)] <= AllNews(rounds)
    requires FollowsInTime(keep, rounds, [], 0)
    requires Tail(shown, runId, keep, rounds, [], 0, []).0.Finished?
    ensures var (outcome, out) := Tail(shown, runId, keep, rounds, [], 0, []);
      outcome.result == r && (Frames(out) == Frames(events) <==> ChunksAreText(events))
  {
    var last := Closing(runId, FinishedData(events), r);
    var whole := Relayed(shown, runId, events) + [last];
    TailDelivers(shown, runId, keep, rounds, [], 0, []);
    var news := AllNews(rounds);
    assert [] + news == news && news == whole + news[|whole|..] && whole[..|whole|] == whole;
    NoFinishBefore(Relayed(shown, runId, events), last);
    EndIsFinal(runId, whole, |whole|, news[|whole|..]);
    ContinuedIs(whole, runId, []);
    assert [] + Reemitted(whole, runId, 0) == Reemitted(whole, runId, 0);
    SameFramesIff(shown, runId, events, last, 0);
    SameResult(shown, runId, FinishedData(events), r);
  }
}
