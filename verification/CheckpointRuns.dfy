/** Whole runs over the checkpoint store: rollback after any interleaving, and pruning between the episodes. */
module CheckpointRuns {
  import opened Collections
  import opened Checkpoint

  // ---- prune ----------------------------------------------------------------------------------

  /** The run ids that prune drops: named in the log and not kept. */
  function Doomed(records: seq<Record>, keep: set<RunId>): set<RunId> {
    (set r | r in records && r.runId != "" :: r.runId) - keep
  }

  function Survivors(records: seq<Record>, doomed: set<RunId>): seq<Record> {
    if records == [] then []
    else
      var front := Survivors(records[..|records| - 1], doomed);
      var r := records[|records| - 1];
      if r.runId in doomed then front else front + [r]
  }

  function LiveDigests(records: seq<Record>): set<Digest> {
    set r | r in records && r.sha.Some? :: r.sha.value
  }

  /** `prune`; `stuck` are the blobs whose deletion the file system refuses. */
  function DoPrune(s: Store, keep: set<RunId>, stuck: set<Digest>): Store {
    var doomed := Doomed(s.log.records, keep);
    if doomed == {} then s
    else
      var survivors := Survivors(s.log.records, doomed);
      Store(map d | d in s.blobs && (d in LiveDigests(survivors) || d in stuck) :: s.blobs[d],
            Log(survivors, Ended))
  }

  lemma {:induction false} SurvivorsKeep(records: seq<Record>, doomed: set<RunId>, run: RunId)
    ensures forall r :: r in Survivors(records, doomed) <==> r in records && r.runId !in doomed
    ensures run !in doomed ==>
              EntriesFor(Survivors(records, doomed), run) == EntriesFor(records, run)
              && SealsFor(Survivors(records, doomed), run) == SealsFor(records, run)
  {
    if records != [] {
      var front, r := records[..|records| - 1], records[|records| - 1];
      SurvivorsKeep(front, doomed, run);
      var kept := Survivors(records, doomed);
      assert records == front + [r];
      if r.runId !in doomed {
        assert kept[..|kept| - 1] == Survivors(front, doomed);
      }
    }
  }

  /** Prune keeps the store sound, and so does every state between its log rewrite and its last deletion. */
  lemma PruneKeepsStoreOk(s: Store, doomed: set<RunId>, blobs: Blobs)
    requires StoreOk(s)
    requires forall d :: d in blobs ==> d in s.blobs && blobs[d] == s.blobs[d]
    requires forall d :: d in s.blobs && d in LiveDigests(Survivors(s.log.records, doomed)) ==> d in blobs
    ensures StoreOk(Store(blobs, Log(Survivors(s.log.records, doomed), Ended)))
  {
    SurvivorsKeep(s.log.records, doomed, "");
  }

  lemma {:induction false} EntryNamed(records: seq<Record>, run: RunId, i: nat)
    requires i < |EntriesFor(records, run)|
    ensures exists r :: r in records && r.sha == EntriesFor(records, run)[i].sha && r.runId == run
  {
    var front, r := records[..|records| - 1], records[|records| - 1];
    assert records == front + [r];
    if i < |EntriesFor(front, run)| {
      EntryNamed(front, run, i);
      var q :| q in front && q.sha == EntriesFor(front, run)[i].sha && q.runId == run;
      assert q in records;
    } else {
      assert r in records;
    }
  }

  lemma {:induction false} SameBlobsSameRestore(files: Files, a: Blobs, b: Blobs, seals: map<Path, Option<Digest>>, es: seq<Entry>)
    requires forall i :: 0 <= i < |es| && es[i].sha.Some? ==> Get(a, es[i].sha.value) == Get(b, es[i].sha.value)
    ensures Restored(files, a, seals, es) == Restored(files, b, seals, es)
    ensures ReportOf(files, a, seals, es) == ReportOf(files, b, seals, es)
  {
    if es != [] {
      SameBlobsSameRestore(files, a, b, seals, es[..|es| - 1]);
      assert Decide(files, a, seals, es[|es| - 1]) == Decide(files, b, seals, es[|es| - 1]);
    }
  }

  /** Restoring any of these runs does in `t` what it did in `s`. */
  ghost predicate RestoresAlike(s: Store, t: Store, runs: set<RunId>) {
    forall files, run :: run in runs ==> RestoreRun(files, t, run) == RestoreRun(files, s, run)
  }

  /** A state between the log rewrite and the last deletion: all of the live blobs, some of the others. */
  predicate MidPrune(s: Store, doomed: set<RunId>, t: Store) {
    && t.log == Log(Survivors(s.log.records, doomed), Ended)
    && (forall d :: d in t.blobs ==> d in s.blobs && t.blobs[d] == s.blobs[d])
    && (forall d :: d in s.blobs && d in LiveDigests(t.log.records) ==> d in t.blobs)
  }

  /** At every crash point of a prune, a kept run has its entries, its seals and the same restore outcome. */
  lemma MidPruneKeepsRuns(s: Store, doomed: set<RunId>, t: Store, runs: set<RunId>)
    requires StoreOk(s) && runs !! doomed && MidPrune(s, doomed, t)
    ensures StoreOk(t) && RestoresAlike(s, t, runs)
    ensures forall run :: run in runs ==>
              && EntriesFor(t.log.records, run) == EntriesFor(s.log.records, run)
              && SealsFor(t.log.records, run) == SealsFor(s.log.records, run)
  {
    PruneKeepsStoreOk(s, doomed, t.blobs);
    forall files, run | run in runs
      ensures RestoreRun(files, t, run) == RestoreRun(files, s, run)
      ensures EntriesFor(t.log.records, run) == EntriesFor(s.log.records, run)
      ensures SealsFor(t.log.records, run) == SealsFor(s.log.records, run)
    {
      SurvivorsKeep(s.log.records, doomed, run);
      var es := EntriesFor(s.log.records, run);
      forall i | 0 <= i < |es| && es[i].sha.Some? ensures Get(t.blobs, es[i].sha.value) == Get(s.blobs, es[i].sha.value) {
        EntryNamed(t.log.records, run, i);
      }
      SameBlobsSameRestore(files, t.blobs, s.blobs, SealsFor(s.log.records, run), es);
    }
    forall run | run in runs
      ensures EntriesFor(t.log.records, run) == EntriesFor(s.log.records, run)
      ensures SealsFor(t.log.records, run) == SealsFor(s.log.records, run)
    {
      SurvivorsKeep(s.log.records, doomed, run);
    }
  }

  /** What prune leaves of the kept runs: their entries, their seals and what restoring them would do. */
  lemma PruneKeepsRuns(s: Store, keep: set<RunId>, stuck: set<Digest>)
    requires StoreOk(s)
    ensures var t := DoPrune(s, keep, stuck);
      && StoreOk(t) && RestoresAlike(s, t, keep)
      && forall run :: run in keep ==>
           && EntriesFor(t.log.records, run) == EntriesFor(s.log.records, run)
           && SealsFor(t.log.records, run) == SealsFor(s.log.records, run)
  {
    var doomed := Doomed(s.log.records, keep);
    if doomed != {} {
      MidPruneKeepsRuns(s, doomed, DoPrune(s, keep, stuck), keep);
    }
  }

  /** After a prune that drops a run and whose deletions succeed, exactly the referenced blobs remain. */
  lemma PruneLeavesNoGarbage(s: Store, keep: set<RunId>)
    requires StoreOk(s) && Doomed(s.log.records, keep) != {}
    ensures var t := DoPrune(s, keep, {});
      && t.blobs.Keys == LiveDigests(t.log.records)
      && (forall r :: r in t.log.records ==> r.runId in keep || r.runId == "")
  {
    var doomed := Doomed(s.log.records, keep);
    SurvivorsKeep(s.log.records, doomed, "");
  }

  // ---- histories ------------------------------------------------------------------------------

  /** What can happen to a project and its store between two restores. Writes are anybody's. */
  datatype Op =
    | TakeSnapshot(run: RunId, paths: seq<Path>)
    | RecordAbsent(run: RunId, paths: seq<Path>)
    | Write(path: Path, content: Option<Bytes>)
    | TakeSeal(run: RunId, paths: seq<Path>)
    | Prune(keep: set<RunId>, stuck: set<Digest>)

  datatype World = World(files: Files, store: Store)

  function Apply(w: World, op: Op): World {
    match op
    case TakeSnapshot(run, paths) => w.(store := DoSnapshot(w.store, w.files, run, paths))
    case RecordAbsent(run, paths) => w.(store := DoSnapshotAbsent(w.store, run, paths))
    case Write(p, None) => w.(files := w.files - {p})
    case Write(p, Some(data)) => w.(files := w.files[p := data])
    case TakeSeal(run, paths) => w.(store := DoSeal(w.store, w.files, run, paths))
    case Prune(keep, stuck) => w.(store := DoPrune(w.store, keep, stuck))
  }

  function Exec(w: World, ops: seq<Op>): World {
    if ops == [] then w else Apply(Exec(w, ops[..|ops| - 1]), ops[|ops| - 1])
  }

  type Contents = map<Path, Option<Bytes>>

  function Elements(paths: seq<Path>): set<Path> {
    set p | p in paths
  }

  /** First contents: a path keeps the one it has; recording a path as absent counts as absent. */
  function NextFirst(m: Contents, files: Files, op: Op, run: RunId): Contents {
    match op
    case TakeSnapshot(r, paths) =>
      if r == run then map p | p in m.Keys + Elements(paths) :: if p in m then m[p] else Get(files, p) else m
    case RecordAbsent(r, paths) =>
      if r == run then map p | p in m.Keys + Elements(paths) :: if p in m then m[p] else None else m
    case _ => m
  }

  /** Sealed contents: the last seal of a path counts. */
  function NextSealed(m: Contents, files: Files, op: Op, run: RunId): Contents {
    match op
    case TakeSeal(r, paths) =>
      if r == run then map p | p in m.Keys + Elements(paths) :: if p in paths then Get(files, p) else m[p] else m
    case _ => m
  }

  /** The content of each path when the run first recorded it. */
  function FirstSeen(w: World, ops: seq<Op>, run: RunId): Contents {
    if ops == [] then map[]
    else
      var front := ops[..|ops| - 1];
      NextFirst(FirstSeen(w, front, run), Exec(w, front).files, ops[|ops| - 1], run)
  }

  /** The content of each path when the run last sealed it. */
  function LastSealed(w: World, ops: seq<Op>, run: RunId): Contents {
    if ops == [] then map[]
    else
      var front := ops[..|ops| - 1];
      NextSealed(LastSealed(w, front, run), Exec(w, front).files, ops[|ops| - 1], run)
  }

  /** The digests of recorded contents. */
  function Digests(m: Contents): map<Path, Option<Digest>> {
    map p | p in m :: HashOf(m[p])
  }

  // ---- the log follows the history ------------------------------------------------------------

  /** Appending lines keeps the entries there are, and adds one for each other path they snapshot. */
  predicate EntriesExtend(m: map<Path, Option<Digest>>, n: map<Path, Option<Digest>>, lines: seq<Record>, run: RunId) {
    && (forall p :: p in m ==> p in n && n[p] == m[p])
    && (forall p :: p in n && p !in m ==> Snapshot(run, p, n[p]) in lines)
    && (forall r :: r in lines && r.Snapshot? && r.runId == run ==> r.path in n)
  }

  lemma {:induction false} EntryMapAppend(records: seq<Record>, lines: seq<Record>, run: RunId)
    ensures EntriesExtend(EntryMap(records, run), EntryMap(records + lines, run), lines, run)
  {
    if lines == [] {
      assert records + lines == records;
    } else {
      var front, r := lines[..|lines| - 1], lines[|lines| - 1];
      EntryMapAppend(records, front, run);
      assert (records + lines)[..|records + lines| - 1] == records + front;
      assert lines == front + [r];
      var n := EntryMap(records + front, run);
      if r.Snapshot? && r.runId == run && r.path !in n {
        assert EntryMap(records + lines, run) == n[r.path := r.sha];
        assert r == Snapshot(run, r.path, r.sha);
      } else {
        assert EntryMap(records + lines, run) == n;
      }
    }
  }

  /** Appending lines replaces the seals of the paths they seal, and only those. */
  predicate SealsExtend(m: map<Path, Option<Digest>>, n: map<Path, Option<Digest>>, lines: seq<Record>, run: RunId) {
    && (forall p :: p in m ==> p in n)
    && (forall p :: p in n ==> (p in m && n[p] == m[p]) || Seal(run, p, n[p]) in lines)
    && (forall r :: r in lines && r.Seal? && r.runId == run ==> r.path in n && Seal(run, r.path, n[r.path]) in lines)
  }

  lemma {:induction false} SealsAppend(records: seq<Record>, lines: seq<Record>, run: RunId)
    ensures SealsExtend(SealsFor(records, run), SealsFor(records + lines, run), lines, run)
  {
    if lines == [] {
      assert records + lines == records;
    } else {
      var front, r := lines[..|lines| - 1], lines[|lines| - 1];
      SealsAppend(records, front, run);
      assert (records + lines)[..|records + lines| - 1] == records + front;
      assert lines == front + [r];
      var n := SealsFor(records + front, run);
      if r.Seal? && r.runId == run {
        assert SealsFor(records + lines, run) == n[r.path := r.sha];
        assert r == Seal(run, r.path, r.sha);
      } else {
        assert SealsFor(records + lines, run) == n;
      }
    }
  }

  /** Entries extended by one snapshot line for each path. */
  lemma ExtendedBy(m: map<Path, Option<Digest>>, n: map<Path, Option<Digest>>, lines: seq<Record>, run: RunId,
                   paths: seq<Path>, value: Path -> Option<Digest>)
    requires EntriesExtend(m, n, lines, run) && |lines| == |paths|
    requires forall i :: 0 <= i < |paths| ==> lines[i] == Snapshot(run, paths[i], value(paths[i]))
    ensures n == map p | p in m.Keys + Elements(paths) :: if p in m then m[p] else value(p)
  {
    forall p | p in paths ensures p in n {
      var i :| 0 <= i < |paths| && paths[i] == p;
      assert lines[i] in lines;
    }
    forall p | p in n && p !in m ensures p in paths && n[p] == value(p) {
      var i :| 0 <= i < |lines| && lines[i] == Snapshot(run, p, n[p]);
    }
  }

  lemma RecordsAppended(s: Store, lines: seq<Record>)
    requires s.log.tail.Ended?
    ensures Append(s.log, lines).records == s.log.records + lines
  {
  }

  lemma SnapshotFollows(s: Store, files: Files, run: RunId, paths: seq<Path>)
    requires s.log.tail.Ended?
    ensures var m := EntryMap(s.log.records, run);
      EntryMap(DoSnapshot(s, files, run, paths).log.records, run)
      == map p | p in m.Keys + Elements(paths) :: if p in m then m[p] else FileHash(files, p)
  {
    var lines := SnapshotRecords(run, files, paths);
    var m, n := EntryMap(s.log.records, run), EntryMap(s.log.records + lines, run);
    EntryMapAppend(s.log.records, lines, run);
    RecordsAppended(s, lines);
    var value := (p: Path) => FileHash(files, p);
    ExtendedBy(m, n, lines, run, paths, value);
    assert n == map p | p in m.Keys + Elements(paths) :: if p in m then m[p] else FileHash(files, p) by {
      assert forall p :: value(p) == FileHash(files, p);
    }
  }

  lemma AbsentFollows(s: Store, run: RunId, paths: seq<Path>)
    requires s.log.tail.Ended?
    ensures var m := EntryMap(s.log.records, run);
      EntryMap(DoSnapshotAbsent(s, run, paths).log.records, run)
      == map p | p in m.Keys + Elements(paths) :: if p in m then m[p] else None
  {
    var lines := AbsentRecords(run, paths);
    var m, n := EntryMap(s.log.records, run), EntryMap(s.log.records + lines, run);
    EntryMapAppend(s.log.records, lines, run);
    RecordsAppended(s, lines);
    ExtendedBy(m, n, lines, run, paths, (p: Path) => None);
  }

  /** Seals extended by one seal line for each path. */
  lemma SealedBy(m: map<Path, Option<Digest>>, n: map<Path, Option<Digest>>, lines: seq<Record>, run: RunId,
                 paths: seq<Path>, value: Path -> Option<Digest>)
    requires SealsExtend(m, n, lines, run) && |lines| == |paths|
    requires forall i :: 0 <= i < |paths| ==> lines[i] == Seal(run, paths[i], value(paths[i]))
    ensures n == map p | p in m.Keys + Elements(paths) :: if p in paths then value(p) else m[p]
  {
    forall p | p in paths ensures p in n && n[p] == value(p) {
      var i :| 0 <= i < |paths| && paths[i] == p;
      assert lines[i] in lines;
      var j :| 0 <= j < |lines| && lines[j] == Seal(run, p, n[p]);
    }
    forall r | r in lines ensures r.path in paths {
      var j :| 0 <= j < |lines| && lines[j] == r;
    }
  }

  lemma SealFollows(s: Store, files: Files, run: RunId, paths: seq<Path>)
    requires s.log.tail.Ended?
    ensures var m := SealsFor(s.log.records, run);
      SealsFor(DoSeal(s, files, run, paths).log.records, run)
      == map p | p in m.Keys + Elements(paths) :: if p in paths then FileHash(files, p) else m[p]
  {
    var lines := SealRecords(run, files, paths);
    var m, n := SealsFor(s.log.records, run), SealsFor(s.log.records + lines, run);
    SealsAppend(s.log.records, lines, run);
    RecordsAppended(s, lines);
    var value := (p: Path) => FileHash(files, p);
    SealedBy(m, n, lines, run, paths, value);
    assert n == map p | p in m.Keys + Elements(paths) :: if p in paths then FileHash(files, p) else m[p] by {
      assert forall p :: value(p) == FileHash(files, p);
    }
  }

  /** Lines of other kinds or other runs leave a run's entries and seals alone. */
  lemma {:induction false} OtherLinesLeave(records: seq<Record>, lines: seq<Record>, run: RunId)
    ensures (forall r :: r in lines ==> r.Seal? || r.runId != run) ==>
              EntryMap(records + lines, run) == EntryMap(records, run)
    ensures (forall r :: r in lines ==> r.Snapshot? || r.runId != run) ==>
              SealsFor(records + lines, run) == SealsFor(records, run)
  {
    if lines == [] {
      assert records + lines == records;
    } else {
      var front := lines[..|lines| - 1];
      OtherLinesLeave(records, front, run);
      assert (records + lines)[..|records + lines| - 1] == records + front;
      assert lines == front + [lines[|lines| - 1]];
    }
  }

  lemma AppendsLeave(s: Store, files: Files, r: RunId, paths: seq<Path>, run: RunId)
    requires s.log.tail.Ended?
    ensures SealsFor(DoSnapshot(s, files, r, paths).log.records, run) == SealsFor(s.log.records, run)
    ensures SealsFor(DoSnapshotAbsent(s, r, paths).log.records, run) == SealsFor(s.log.records, run)
    ensures EntryMap(DoSeal(s, files, r, paths).log.records, run) == EntryMap(s.log.records, run)
    ensures r != run ==>
              && EntryMap(DoSnapshot(s, files, r, paths).log.records, run) == EntryMap(s.log.records, run)
              && EntryMap(DoSnapshotAbsent(s, r, paths).log.records, run) == EntryMap(s.log.records, run)
              && SealsFor(DoSeal(s, files, r, paths).log.records, run) == SealsFor(s.log.records, run)
  {
    assert s.log.records + [] == s.log.records;
    OtherLinesLeave(s.log.records, SnapshotRecords(r, files, paths), run);
    OtherLinesLeave(s.log.records, AbsentRecords(r, paths), run);
    OtherLinesLeave(s.log.records, SealRecords(r, files, paths), run);
  }

  /** Prunes among the operations keep the run. */
  predicate Keeps(ops: seq<Op>, run: RunId) {
    forall i :: 0 <= i < |ops| && ops[i].Prune? ==> run in ops[i].keep
  }

  /** A store that is sound, has no unfinished line, and knows nothing yet of the run. */
  predicate FreshFor(s: Store, run: RunId) {
    StoreOk(s) && s.log.tail.Ended? && EntryMap(s.log.records, run) == map[] && SealsFor(s.log.records, run) == map[]
  }

  lemma {:induction false} EntryMapFromEntries(a: seq<Record>, b: seq<Record>, run: RunId)
    requires EntriesFor(a, run) == EntriesFor(b, run)
    ensures EntryMap(a, run) == EntryMap(b, run)
  {
    EntriesAreTheMap(a, run);
    EntriesAreTheMap(b, run);
    var m, n := EntryMap(a, run), EntryMap(b, run);
    assert m.Keys == n.Keys;
    forall p | p in m ensures m[p] == n[p] {
      var i :| 0 <= i < |EntriesFor(a, run)| && EntriesFor(a, run)[i].path == p;
    }
  }

  /** A sound store whose log tells, for the run, exactly these first and sealed contents. */
  predicate Tells(s: Store, run: RunId, first: Contents, sealed: Contents) {
    && StoreOk(s) && s.log.tail.Ended?
    && EntryMap(s.log.records, run) == Digests(first)
    && SealsFor(s.log.records, run) == Digests(sealed)
  }

  lemma SnapshotTells(w: World, run: RunId, first: Contents, sealed: Contents, r: RunId, paths: seq<Path>)
    requires Tells(w.store, run, first, sealed)
    ensures Tells(DoSnapshot(w.store, w.files, r, paths), run,
                  NextFirst(first, w.files, TakeSnapshot(r, paths), run), sealed)
  {
    WritesKeepStoreOk(w.store, w.files, r, paths);
    AppendsLeave(w.store, w.files, r, paths, run);
    SnapshotFollows(w.store, w.files, r, paths);
  }

  lemma AbsentTells(w: World, run: RunId, first: Contents, sealed: Contents, r: RunId, paths: seq<Path>)
    requires Tells(w.store, run, first, sealed)
    ensures Tells(DoSnapshotAbsent(w.store, r, paths), run,
                  NextFirst(first, w.files, RecordAbsent(r, paths), run), sealed)
  {
    WritesKeepStoreOk(w.store, w.files, r, paths);
    AppendsLeave(w.store, w.files, r, paths, run);
    AbsentFollows(w.store, r, paths);
  }

  lemma SealTells(w: World, run: RunId, first: Contents, sealed: Contents, r: RunId, paths: seq<Path>)
    requires Tells(w.store, run, first, sealed)
    ensures Tells(DoSeal(w.store, w.files, r, paths), run,
                  first, NextSealed(sealed, w.files, TakeSeal(r, paths), run))
  {
    WritesKeepStoreOk(w.store, w.files, r, paths);
    AppendsLeave(w.store, w.files, r, paths, run);
    if r == run {
      SealFollows(w.store, w.files, r, paths);
      SealDigests(sealed, w.files, run, paths);
    }
  }

  lemma SealDigests(sealed: Contents, files: Files, run: RunId, paths: seq<Path>)
    ensures var m := Digests(sealed);
      Digests(NextSealed(sealed, files, TakeSeal(run, paths), run))
      == map p | p in m.Keys + Elements(paths) :: if p in paths then FileHash(files, p) else m[p]
  {
  }

  lemma PruneTells(w: World, run: RunId, first: Contents, sealed: Contents, keep: set<RunId>, stuck: set<Digest>)
    requires Tells(w.store, run, first, sealed) && run in keep
    ensures Tells(DoPrune(w.store, keep, stuck), run, first, sealed)
  {
    PruneKeepsRuns(w.store, keep, stuck);
    EntryMapFromEntries(w.store.log.records, DoPrune(w.store, keep, stuck).log.records, run);
  }

  /** At every point of a history the log tells, for the run, exactly what was first seen and last sealed. */
  lemma {:induction false} LogTellsHistory(w: World, ops: seq<Op>, run: RunId)
    requires FreshFor(w.store, run) && Keeps(ops, run)
    ensures Tells(Exec(w, ops).store, run, FirstSeen(w, ops, run), LastSealed(w, ops, run))
  {
    if ops != [] {
      var front := ops[..|ops| - 1];
      LogTellsHistory(w, front, run);
      var v, first, sealed := Exec(w, front), FirstSeen(w, front, run), LastSealed(w, front, run);
      match ops[|ops| - 1]
      case TakeSnapshot(r, paths) => SnapshotTells(v, run, first, sealed, r, paths);
      case RecordAbsent(r, paths) => AbsentTells(v, run, first, sealed, r, paths);
      case TakeSeal(r, paths) => SealTells(v, run, first, sealed, r, paths);
      case Prune(keep, stuck) => PruneTells(v, run, first, sealed, keep, stuck);
      case Write(_, _) =>
    }
  }

  lemma KeptKnowsNothing(log: Log, run: RunId)
    requires EntryMap(log.records, run) == map[]
    ensures EntryMap(Kept(log), run) == map[]
  {
    if Kept(log) != log.records {
      var m := EntryMap(Kept(log), run);
      assert forall p | p in m :: p in EntryMap(log.records, run);
    }
  }

  /**
   * An unfinished line at the end of the log, left by a crash, swallows the first line of the next batch:
   * a fresh run gets an entry for every path it snapshots exactly when there was no such line.
   */
  lemma TornTailLosesFirst(s: Store, files: Files, run: RunId, paths: seq<Path>)
    requires EntryMap(s.log.records, run) == map[] && paths != []
    requires forall i :: 0 < i < |paths| ==> paths[i] != paths[0]
    ensures EntryMap(DoSnapshot(s, files, run, paths).log.records, run).Keys == Elements(paths) <==> s.log.tail.Ended?
    ensures !s.log.tail.Ended? ==> paths[0] !in EntryMap(DoSnapshot(s, files, run, paths).log.records, run)
  {
    if s.log.tail.Ended? {
      SnapshotFollows(s, files, run, paths);
    } else {
      var lines := SnapshotRecords(run, files, paths)[1..];
      KeptKnowsNothing(s.log, run);
      EntryMapAppend(Kept(s.log), lines, run);
      assert forall r :: r in lines ==> r.path != paths[0];
      assert paths[0] in Elements(paths);
    }
  }

  /**
   * A crash between a snapshot line and its break: the entry can be read, until anything is appended. Then it is lost
   * together with the first line appended.
   */
  lemma UnbrokenTailLosesLast(s: Store, run: RunId, p: Path, sha: Option<Digest>, lines: seq<Record>)
    requires s.log.tail.Ended? && p !in EntryMap(s.log.records, run) && lines != []
    requires forall i :: 0 < i < |lines| && lines[i].Snapshot? && lines[i].runId == run ==> lines[i].path != p
    ensures var crashed := CutAtBreak(s.log, Snapshot(run, p, sha));
      && Get(EntryMap(crashed.records, run), p) == Some(sha)
      && p !in EntryMap(Append(crashed, lines).records, run)
      && Append(crashed, lines).records == s.log.records + lines[1..]
  {
    var crashed := CutAtBreak(s.log, Snapshot(run, p, sha));
    assert crashed.records[..|crashed.records| - 1] == s.log.records;
    EntryMapAppend(s.log.records, lines[1..], run);
  }

  // ---- the round trip -------------------------------------------------------------------------

  /** The file is back in its first state, or still as the run sealed it last. */
  predicate RollsBack(files: Files, first: Contents, sealed: Contents, p: Path)
    requires p in first
  {
    Get(files, p) == first[p] || (p in sealed && Get(files, p) == sealed[p])
  }

  lemma HashOfInjective(a: Option<Bytes>, b: Option<Bytes>)
    ensures HashOf(a) == HashOf(b) <==> a == b
  {
  }

  lemma DecisionFollows(files: Files, s: Store, run: RunId, first: Contents, sealed: Contents, i: nat)
    requires Tells(s, run, first, sealed)
    requires i < |EntriesFor(s.log.records, run)|
    ensures var e := EntriesFor(s.log.records, run)[i];
      && e.path in first && e.sha == HashOf(first[e.path])
      && (Decide(files, s.blobs, SealsFor(s.log.records, run), e).Refuse? <==>
          !RollsBack(files, first, sealed, e.path))
  {
    var e := EntriesFor(s.log.records, run)[i];
    EntriesAreTheMap(s.log.records, run);
    assert e.path in EntryMap(s.log.records, run);
    HashOfInjective(Get(files, e.path), first[e.path]);
    if e.path in sealed {
      HashOfInjective(Get(files, e.path), sealed[e.path]);
    }
    if e.sha.Some? {
      EntryNamed(s.log.records, run, i);
    }
  }

  /**
   * Rollback over whole runs. After any interleaving of snapshots, absence records, writes, seals and
   * prunes that keep the run, restoring it succeeds exactly when it recorded something and each recorded
   * path is unchanged or still as the run last sealed it; and then every recorded path is back to its
   * content, or absence, at the run's first record of it, and no other path has changed.
   */
  lemma RollbackRoundTrip(w: World, ops: seq<Op>, run: RunId)
    requires FreshFor(w.store, run) && Keeps(ops, run)
    ensures var first, sealed := FirstSeen(w, ops, run), LastSealed(w, ops, run);
      var v := Exec(w, ops);
      var (after, report) := RestoreRun(v.files, v.store, run);
      && (StatusOf(report) == RestoreSuccess <==>
          first != map[] && forall p :: p in first ==> RollsBack(v.files, first, sealed, p))
      && (forall p :: p in first && RollsBack(v.files, first, sealed, p) ==> Get(after, p) == first[p])
      && (forall p :: p in first && !RollsBack(v.files, first, sealed, p) ==> Get(after, p) == Get(v.files, p))
      && (forall p :: p !in first ==> Get(after, p) == Get(v.files, p))
  {
    LogTellsHistory(w, ops, run);
    var first, sealed := FirstSeen(w, ops, run), LastSealed(w, ops, run);
    var v := Exec(w, ops);
    var es, seals := EntriesFor(v.store.log.records, run), SealsFor(v.store.log.records, run);
    EntriesAreTheMap(v.store.log.records, run);
    RoundTripPaths(v.files, v.store, run, first, sealed);
    RoundTripStatus(v.files, v.store, run, first, sealed);
  }

  lemma RoundTripPaths(files: Files, s: Store, run: RunId, first: Contents, sealed: Contents)
    requires Tells(s, run, first, sealed)
    ensures var after := RestoreRun(files, s, run).0;
      && (forall p :: p in first && RollsBack(files, first, sealed, p) ==> Get(after, p) == first[p])
      && (forall p :: p in first && !RollsBack(files, first, sealed, p) ==> Get(after, p) == Get(files, p))
      && (forall p :: p !in first ==> Get(after, p) == Get(files, p))
  {
    var es := EntriesFor(s.log.records, run);
    var after := RestoreRun(files, s, run).0;
    EntriesAreTheMap(s.log.records, run);
    RestoredAt(files, s.blobs, SealsFor(s.log.records, run), es);
    forall p | p in first
      ensures if RollsBack(files, first, sealed, p) then Get(after, p) == first[p] else Get(after, p) == Get(files, p)
    {
      assert p in EntryMap(s.log.records, run).Keys;
      var i :| 0 <= i < |es| && es[i].path == p;
      DecisionFollows(files, s, run, first, sealed, i);
      RestoreOutcome(files, s, run, i);
      HashOfInjective(Get(after, p), first[p]);
    }
    forall p | p !in first ensures Get(after, p) == Get(files, p) {
      assert p !in EntryMap(s.log.records, run).Keys;
    }
  }

  lemma RoundTripStatus(files: Files, s: Store, run: RunId, first: Contents, sealed: Contents)
    requires Tells(s, run, first, sealed)
    ensures StatusOf(RestoreRun(files, s, run).1) == RestoreSuccess <==>
            first != map[] && forall p :: p in first ==> RollsBack(files, first, sealed, p)
  {
    var es, seals := EntriesFor(s.log.records, run), SealsFor(s.log.records, run);
    EntriesAreTheMap(s.log.records, run);
    ReportPartitions(files, s.blobs, seals, es);
    var r := ReportOf(files, s.blobs, seals, es);
    if es == [] {
      assert forall p :: p in first ==> p in EntryMap(s.log.records, run).Keys;
      assert first.Keys == {};
    } else {
      assert HasPath(es, es[0].path);
      assert es[0].path in first;
      forall p | p in first ensures RollsBack(files, first, sealed, p) <==> p in r.restored {
        assert p in EntryMap(s.log.records, run).Keys;
        var i :| 0 <= i < |es| && es[i].path == p;
        DecisionFollows(files, s, run, first, sealed, i);
      }
      NoConflictsIff(files, s.blobs, seals, es);
      forall i | 0 <= i < |es|
        ensures es[i].path in first
        ensures Decide(files, s.blobs, seals, es[i]).Refuse? <==> !RollsBack(files, first, sealed, es[i].path)
      {
        DecisionFollows(files, s, run, first, sealed, i);
      }
    }
  }

  lemma {:induction false} NoConflictsIff(files: Files, blobs: Blobs, seals: map<Path, Option<Digest>>, es: seq<Entry>)
    ensures ReportOf(files, blobs, seals, es).conflicts == [] <==>
            forall i :: 0 <= i < |es| ==> !Decide(files, blobs, seals, es[i]).Refuse?
  {
    if es != [] {
      NoConflictsIff(files, blobs, seals, es[..|es| - 1]);
    }
  }
}
