/**
 * The checkpoint manager as written: it reads and writes files, stores blobs and appends lines. Every state
 * of the store between two disk operations is kept in `trace`, the states a crash can leave.
 */
module CheckpointManager {
  import opened Collections
  import opened Checkpoint
  import opened CheckpointRuns

  class FileSystem {
    var files: Files

    constructor (files: Files)
      ensures this.files == files
    {
      this.files := files;
    }
  }

  class Manager {
    const fs: FileSystem
    var blobs: Blobs
    var log: Log
    ghost var trace: seq<Store>

    ghost function View(): Store
      reads this
    {
      Store(blobs, log)
    }

    /** Everything a crash may have left since `from` is a sound store. */
    ghost predicate CrashSafeSince(from: nat)
      reads this
    {
      from <= |trace| && forall i :: from <= i < |trace| ==> StoreOk(trace[i])
    }

    constructor (fs: FileSystem)
      ensures this.fs == fs && View() == Store(map[], Log([], Ended)) && trace == [] && StoreOk(View())
    {
      this.fs := fs;
      blobs, log, trace := map[], Log([], Ended), [];
    }

    /** `_store_blob`: written beside and renamed, so a crash sees all of it or nothing. */
    method StoreBlob(digest: Digest, data: Bytes)
      requires Hash(data) == digest && StoreOk(View())
      modifies this`blobs, this`trace
      ensures blobs == if digest in old(blobs) then old(blobs) else old(blobs)[digest := data]
      ensures StoreOk(View()) && old(trace) <= trace && CrashSafeSince(|old(trace)|)
    {
      if digest !in blobs {
        blobs := blobs[digest := data];
        trace := trace + [View()];
      }
    }

    /** Writes lines at the end of the log; a crash may leave part of a line, or a line without its break. */
    method AppendLines(lines: seq<Record>)
      requires StoreOk(View()) && RefsOk(lines, blobs)
      modifies this`log, this`trace
      ensures log == Append(old(log), lines)
      ensures StoreOk(View()) && old(trace) <= trace && CrashSafeSince(|old(trace)|)
    {
      for k := 0 to |lines|
        invariant log == Append(old(log), lines[..k])
        invariant StoreOk(View()) && old(trace) <= trace && CrashSafeSince(|old(trace)|)
      {
        OneMoreLine(blobs, old(log), lines, k);
        trace := trace + [Store(blobs, CutInside(log)), Store(blobs, CutAtBreak(log, lines[k]))];
        log := Append(log, [lines[k]]);
        trace := trace + [View()];
      }
      assert lines[..|lines|] == lines;
    }

    /** `snapshot`: blobs first, then the lines that name them. */
    method TakeSnapshot(run: RunId, paths: seq<Path>) returns (ok: bool)
      requires StoreOk(View())
      modifies this
      ensures ok <==> run != ""
      ensures View() == if ok then DoSnapshot(old(View()), fs.files, run, paths) else old(View())
      ensures StoreOk(View()) && old(trace) <= trace && CrashSafeSince(|old(trace)|)
    {
      if run == "" {
        return false;
      }
      var lines: seq<Record> := [];
      for k := 0 to |paths|
        invariant log == old(log) && blobs == StoreAll(old(blobs), fs.files, paths[..k])
        invariant lines == SnapshotRecords(run, fs.files, paths[..k])
        invariant StoreOk(View()) && old(trace) <= trace && CrashSafeSince(|old(trace)|)
      {
        assert paths[..k + 1][..k] == paths[..k];
        var p := paths[k];
        if p !in fs.files {
          lines := lines + [Snapshot(run, p, None)];
        } else {
          var digest := Hash(fs.files[p]);
          StoreBlob(digest, fs.files[p]);
          lines := lines + [Snapshot(run, p, Some(digest))];
        }
      }
      assert paths[..|paths|] == paths;
      RecordsNameStored(old(blobs), fs.files, run, paths);
      AppendLines(lines);
      return true;
    }

    /** `snapshot_absent` */
    method TakeAbsent(run: RunId, paths: seq<Path>) returns (ok: bool)
      requires StoreOk(View())
      modifies this
      ensures ok <==> run != ""
      ensures View() == if ok then DoSnapshotAbsent(old(View()), run, paths) else old(View())
      ensures StoreOk(View()) && old(trace) <= trace && CrashSafeSince(|old(trace)|)
    {
      if run == "" {
        return false;
      }
      AppendLines(AbsentRecords(run, paths));
      return true;
    }

    /** `seal` */
    method TakeSeal(run: RunId, paths: seq<Path>) returns (ok: bool)
      requires StoreOk(View())
      modifies this
      ensures ok <==> run != ""
      ensures View() == if ok then DoSeal(old(View()), fs.files, run, paths) else old(View())
      ensures StoreOk(View()) && old(trace) <= trace && CrashSafeSince(|old(trace)|)
    {
      if run == "" {
        return false;
      }
      var lines: seq<Record> := [];
      for k := 0 to |paths|
        invariant log == old(log) && blobs == StoreAll(old(blobs), fs.files, paths[..k])
        invariant lines == SealRecords(run, fs.files, paths[..k])
        invariant StoreOk(View()) && old(trace) <= trace && CrashSafeSince(|old(trace)|)
      {
        assert paths[..k + 1][..k] == paths[..k];
        var p := paths[k];
        var digest: Option<Digest> := None;
        if p in fs.files {
          digest := Some(Hash(fs.files[p]));
          StoreBlob(digest.value, fs.files[p]);
        }
        lines := lines + [Seal(run, p, digest)];
      }
      assert paths[..|paths|] == paths;
      RecordsNameStored(old(blobs), fs.files, run, paths);
      AppendLines(lines);
      return true;
    }

    method EntriesForRun(run: RunId) returns (entries: seq<Entry>)
      ensures entries == EntriesFor(log.records, run)
    {
      entries := [];
      for k := 0 to |log.records|
        invariant entries == EntriesFor(log.records[..k], run)
      {
        assert log.records[..k + 1][..k] == log.records[..k];
        var r := log.records[k];
        if r.Snapshot? && r.runId == run && !HasPath(entries, r.path) {
          entries := entries + [Entry(r.path, r.sha)];
        }
      }
      assert log.records[..|log.records|] == log.records;
    }

    method SealsForRun(run: RunId) returns (seals: map<Path, Option<Digest>>)
      ensures seals == SealsFor(log.records, run)
    {
      seals := map[];
      for k := 0 to |log.records|
        invariant seals == SealsFor(log.records[..k], run)
      {
        assert log.records[..k + 1][..k] == log.records[..k];
        var r := log.records[k];
        if r.Seal? && r.runId == run {
          seals := seals[r.path := r.sha];
        }
      }
      assert log.records[..|log.records|] == log.records;
    }

    /** `_restore_entry`: what happens to one file, by the checks in their order. */
    method RestoreEntry(e: Entry, seals: map<Path, Option<Digest>>) returns (refusal: Option<Conflict>)
      modifies fs
      ensures fs.files == Carry(old(fs.files), e.path, Decide(old(fs.files), blobs, seals, e))
      ensures refusal == match Decide(old(fs.files), blobs, seals, e)
                case Refuse(c) => Some(c)
                case _ => None
    {
      var current := FileHash(fs.files, e.path);
      if current == e.sha {
        return None;
      }
      if e.path !in seals {
        return Some(Conflict(e.path, None, current, NoSeal));
      }
      var sealed := seals[e.path];
      if current != sealed {
        return Some(Conflict(e.path, sealed, current, ChangedExternally));
      }
      if e.sha.None? {
        fs.files := fs.files - {e.path};
        return None;
      }
      var digest := e.sha.value;
      if digest !in blobs {
        return Some(Conflict(e.path, sealed, current, BlobMissing));
      }
      var data := blobs[digest];
      if Hash(data) != digest {
        return Some(Conflict(e.path, sealed, current, BlobCorrupt));
      }
      fs.files := fs.files[e.path := data];
      return None;
    }

    /** `restore_run`: entry after entry; clean siblings are restored whatever happens to the others. */
    method RestoreForRun(run: RunId) returns (report: Report)
      modifies fs
      ensures (fs.files, report) == RestoreRun(old(fs.files), View(), run)
    {
      var entries := EntriesForRun(run);
      if entries == [] {
        return Report([], [Conflict("", None, None, NoCheckpoint)]);
      }
      var seals := SealsForRun(run);
      report := Report([], []);
      for k := 0 to |entries|
        invariant fs.files == Restored(old(fs.files), blobs, seals, entries[..k])
        invariant report == ReportOf(old(fs.files), blobs, seals, entries[..k])
        invariant forall j :: k <= j < |entries| ==> Get(fs.files, entries[j].path) == Get(old(fs.files), entries[j].path)
      {
        assert entries[..k + 1][..k] == entries[..k];
        ghost var e := entries[k];
        assert Decide(fs.files, blobs, seals, e) == Decide(old(fs.files), blobs, seals, e);
        var refusal := RestoreEntry(entries[k], seals);
        if refusal.Some? {
          report := report.(conflicts := report.conflicts + [refusal.value]);
        } else {
          report := report.(restored := report.restored + [entries[k].path]);
        }
      }
      assert entries[..|entries|] == entries;
    }

    /** The log lines that survive a prune. */
    method FilterLog(doomed: set<RunId>) returns (survivors: seq<Record>)
      ensures survivors == Survivors(log.records, doomed)
    {
      survivors := [];
      for k := 0 to |log.records|
        invariant survivors == Survivors(log.records[..k], doomed)
      {
        assert log.records[..k + 1][..k] == log.records[..k];
        if log.records[k].runId !in doomed {
          survivors := survivors + [log.records[k]];
        }
      }
      assert log.records[..|log.records|] == log.records;
    }

    /** Deletes what no surviving record names, one blob at a time and in any order; refused deletions are skipped. */
    method CollectGarbage(live: set<Digest>, stuck: set<Digest>, ghost s: Store, ghost doomed: set<RunId>, ghost keep: set<RunId>)
      requires StoreOk(s) && keep !! doomed && blobs == s.blobs && MidPrune(s, doomed, View())
      requires live == LiveDigests(log.records)
      modifies this`blobs, this`trace
      ensures blobs == map d | d in s.blobs && (d in live || d in stuck) :: s.blobs[d]
      ensures old(trace) <= trace
      ensures forall i :: |old(trace)| <= i < |trace| ==> StoreOk(trace[i]) && RestoresAlike(s, trace[i], keep)
    {
      var todo := blobs.Keys;
      while todo != {}
        invariant todo <= s.blobs.Keys && MidPrune(s, doomed, View())
        invariant forall d :: d in blobs <==> d in s.blobs && (d in todo || d in live || d in stuck)
        invariant old(trace) <= trace
        invariant forall i :: |old(trace)| <= i < |trace| ==> StoreOk(trace[i]) && RestoresAlike(s, trace[i], keep)
        decreases todo
      {
        var d :| d in todo;
        todo := todo - {d};
        if d !in live && d !in stuck {
          blobs := blobs - {d};
          MidPruneKeepsRuns(s, doomed, View(), keep);
          trace := trace + [View()];
        }
      }
    }

    /**
     * `prune`: rewrites the log in one step, then deletes the garbage. At every crash point the store is
     * sound and restoring a kept run would do what it did before.
     */
    method PruneRuns(keep: set<RunId>, stuck: set<Digest>) returns (pruned: nat)
      requires StoreOk(View())
      modifies this
      ensures pruned == |Doomed(old(log.records), keep)|
      ensures View() == DoPrune(old(View()), keep, stuck) && StoreOk(View())
      ensures old(trace) <= trace
      ensures forall i :: |old(trace)| <= i < |trace| ==> StoreOk(trace[i]) && RestoresAlike(old(View()), trace[i], keep)
    {
      PruneKeepsRuns(View(), keep, stuck);
      var doomed := Doomed(log.records, keep);
      if doomed == {} {
        return 0;
      }
      var survivors := FilterLog(doomed);
      log := Log(survivors, Ended);
      MidPruneKeepsRuns(old(View()), doomed, View(), keep);
      trace := trace + [View()];
      CollectGarbage(LiveDigests(survivors), stuck, old(View()), doomed, keep);
      return |doomed|;
    }
  }
}
