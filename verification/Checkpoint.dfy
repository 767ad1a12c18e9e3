/**
 * The checkpoint store (core/checkpoint.py) on values: a content-addressed blob store and an append-only
 * log, with snapshot, seal, prune and restore over the files of a project.
 */
module Checkpoint {
  import opened Collections

  type Path = string

  type RunId = string

  type Bytes = seq<bv8>

  /** SHA-256 seen as an injective function: a digest determines the content. */
  datatype Digest = Sha(content: Bytes)

  type Files = map<Path, Bytes>

  type Blobs = map<Digest, Bytes>

  datatype Record =
    | Snapshot(runId: RunId, path: Path, sha: Option<Digest>)
    | Seal(runId: RunId, path: Path, sha: Option<Digest>)

  /** How the log ends: in a line break, in part of a line, or in a whole line whose break is missing. */
  datatype Tail = Ended | Cut | Unbroken

  /** The readable lines of the log. Readers skip part of a line, and read a last line without its break. */
  datatype Log = Log(records: seq<Record>, tail: Tail)

  datatype Store = Store(blobs: Blobs, log: Log)

  datatype Entry = Entry(path: Path, sha: Option<Digest>)

  function Hash(data: Bytes): Digest {
    Sha(data)
  }

  function Get<K, V>(m: map<K, V>, k: K): Option<V> {
    if k in m then Some(m[k]) else None
  }

  function HashOf(content: Option<Bytes>): Option<Digest> {
    match content
    case None => None
    case Some(data) => Some(Hash(data))
  }

  /** `_sha256_file` */
  function FileHash(files: Files, p: Path): Option<Digest> {
    HashOf(Get(files, p))
  }

  // ---- writing the log ------------------------------------------------------------------------

  /** What stays readable once more text follows: a last line without its break becomes part of a longer one. */
  function Kept(log: Log): seq<Record> {
    if log.tail.Unbroken? && log.records != [] then log.records[..|log.records| - 1] else log.records
  }

  /** Appending lines: the first of them goes on an unfinished last line, and that line cannot be read then. */
  function Append(log: Log, lines: seq<Record>): Log {
    if lines == [] then log
    else Log(Kept(log) + (if log.tail.Ended? then lines else lines[1..]), Ended)
  }

  /** After a crash inside the next line. */
  function CutInside(log: Log): Log {
    Log(Kept(log), Cut)
  }

  /** After a crash between the next line and its break. */
  function CutAtBreak(log: Log, line: Record): Log {
    if log.tail.Ended? then Log(log.records + [line], Unbroken) else CutInside(log)
  }

  /** The blobs after storing the content of every path that exists. */
  function StoreAll(blobs: Blobs, files: Files, paths: seq<Path>): Blobs {
    if paths == [] then blobs
    else
      var b := StoreAll(blobs, files, paths[..|paths| - 1]);
      var p := paths[|paths| - 1];
      if p in files && Hash(files[p]) !in b then b[Hash(files[p]) := files[p]] else b
  }

  function SnapshotRecords(run: RunId, files: Files, paths: seq<Path>): (r: seq<Record>)
    ensures |r| == |paths|
  {
    seq(|paths|, i requires 0 <= i < |paths| => Snapshot(run, paths[i], FileHash(files, paths[i])))
  }

  function AbsentRecords(run: RunId, paths: seq<Path>): (r: seq<Record>)
    ensures |r| == |paths|
  {
    seq(|paths|, i requires 0 <= i < |paths| => Snapshot(run, paths[i], None))
  }

  function SealRecords(run: RunId, files: Files, paths: seq<Path>): (r: seq<Record>)
    ensures |r| == |paths|
  {
    seq(|paths|, i requires 0 <= i < |paths| => Seal(run, paths[i], FileHash(files, paths[i])))
  }

  function DoSnapshot(s: Store, files: Files, run: RunId, paths: seq<Path>): Store {
    Store(StoreAll(s.blobs, files, paths), Append(s.log, SnapshotRecords(run, files, paths)))
  }

  function DoSnapshotAbsent(s: Store, run: RunId, paths: seq<Path>): Store {
    s.(log := Append(s.log, AbsentRecords(run, paths)))
  }

  function DoSeal(s: Store, files: Files, run: RunId, paths: seq<Path>): Store {
    Store(StoreAll(s.blobs, files, paths), Append(s.log, SealRecords(run, files, paths)))
  }

  // ---- reading the log ------------------------------------------------------------------------

  predicate HasPath(entries: seq<Entry>, p: Path) {
    exists i :: 0 <= i < |entries| && entries[i].path == p
  }

  predicate DistinctPaths(entries: seq<Entry>) {
    forall i, j :: 0 <= i < j < |entries| ==> entries[i].path != entries[j].path
  }

  /** `entries_for_run`: one entry a path, the first snapshot wins. */
  function EntriesFor(records: seq<Record>, run: RunId): (es: seq<Entry>)
    ensures DistinctPaths(es)
  {
    if records == [] then []
    else
      var es := EntriesFor(records[..|records| - 1], run);
      var r := records[|records| - 1];
      if r.Snapshot? && r.runId == run && !HasPath(es, r.path) then es + [Entry(r.path, r.sha)] else es
  }

  /** `seals_for_run`: the last seal of a path wins. */
  function SealsFor(records: seq<Record>, run: RunId): map<Path, Option<Digest>> {
    if records == [] then map[]
    else
      var m := SealsFor(records[..|records| - 1], run);
      var r := records[|records| - 1];
      if r.Seal? && r.runId == run then m[r.path := r.sha] else m
  }

  /** The entries of a run as a map from path to digest. */
  function EntryMap(records: seq<Record>, run: RunId): map<Path, Option<Digest>> {
    if records == [] then map[]
    else
      var m := EntryMap(records[..|records| - 1], run);
      var r := records[|records| - 1];
      if r.Snapshot? && r.runId == run && r.path !in m then m[r.path := r.sha] else m
  }

  lemma HasPathAppend(es: seq<Entry>, e: Entry)
    ensures forall p :: HasPath(es + [e], p) <==> HasPath(es, p) || p == e.path
  {
    var all := es + [e];
    assert all[|es|] == e;
    forall p | HasPath(es, p) ensures HasPath(all, p) {
      var i :| 0 <= i < |es| && es[i].path == p;
      assert all[i].path == p;
    }
  }

  /** `m` holds exactly the entries of `es`. */
  ghost predicate MapOf(es: seq<Entry>, m: map<Path, Option<Digest>>) {
    && (forall p :: p in m.Keys <==> HasPath(es, p))
    && (forall i :: 0 <= i < |es| ==> es[i].path in m && m[es[i].path] == es[i].sha)
  }

  lemma {:induction false} EntriesAreTheMap(records: seq<Record>, run: RunId)
    ensures MapOf(EntriesFor(records, run), EntryMap(records, run))
  {
    if records != [] {
      var front, r := records[..|records| - 1], records[|records| - 1];
      EntriesAreTheMap(front, run);
      var es0, m0 := EntriesFor(front, run), EntryMap(front, run);
      if r.Snapshot? && r.runId == run && r.path !in m0 {
        HasPathAppend(es0, Entry(r.path, r.sha));
        assert EntriesFor(records, run) == es0 + [Entry(r.path, r.sha)];
        assert EntryMap(records, run) == m0[r.path := r.sha];
      } else {
        assert EntriesFor(records, run) == es0 && EntryMap(records, run) == m0;
      }
    }
  }

  // ---- integrity ------------------------------------------------------------------------------

  /** Every blob carries the content its name promises. */
  predicate BlobsOk(blobs: Blobs) {
    forall d :: d in blobs ==> Hash(blobs[d]) == d
  }

  /** Every digest named in the log has its blob. */
  predicate RefsOk(records: seq<Record>, blobs: Blobs) {
    forall r :: r in records && r.sha.Some? ==> r.sha.value in blobs
  }

  predicate StoreOk(s: Store) {
    BlobsOk(s.blobs) && RefsOk(s.log.records, s.blobs)
  }

  lemma {:induction false} StoreAllOk(blobs: Blobs, files: Files, paths: seq<Path>)
    requires BlobsOk(blobs)
    ensures var b := StoreAll(blobs, files, paths);
      && BlobsOk(b) && blobs.Keys <= b.Keys
      && (forall p :: p in paths && p in files ==> Hash(files[p]) in b)
      && (forall d :: d in b && d !in blobs ==> exists p :: p in paths && p in files && Hash(files[p]) == d)
  {
    if paths != [] {
      var front := paths[..|paths| - 1];
      StoreAllOk(blobs, files, front);
      assert forall p :: p in paths <==> p in front || p == paths[|paths| - 1];
    }
  }

  /** Records that name only stored content can be appended in part or in full. */
  lemma AppendOk(blobs: Blobs, log: Log, lines: seq<Record>, k: nat)
    requires RefsOk(log.records, blobs) && k <= |lines|
    requires RefsOk(lines, blobs)
    ensures RefsOk(Append(log, lines[..k]).records, blobs)
  {
    assert forall r :: r in Kept(log) ==> r in log.records;
    assert forall r :: r in lines[..k] ==> r in lines;
    if k > 0 {
      assert forall r :: r in lines[..k][1..] ==> r in lines[..k];
    }
  }

  lemma CutOk(blobs: Blobs, log: Log, line: Record)
    requires RefsOk(log.records, blobs) && RefsOk([line], blobs)
    ensures RefsOk(CutInside(log).records, blobs) && RefsOk(CutAtBreak(log, line).records, blobs)
  {
    assert forall r :: r in Kept(log) ==> r in log.records;
    assert forall r :: r in log.records + [line] ==> r in log.records || r == line;
    assert line in [line];
  }

  lemma AppendOneMore(log: Log, lines: seq<Record>, k: nat)
    requires k < |lines|
    ensures Append(Append(log, lines[..k]), [lines[k]]) == Append(log, lines[..k + 1])
  {
    assert lines[..k + 1] == lines[..k] + [lines[k]];
    if k > 0 {
      assert lines[..k + 1][1..] == lines[..k][1..] + [lines[k]];
    }
  }

  /** One more line: every place where a crash may cut it, and the line itself, leave a sound store. */
  lemma OneMoreLine(blobs: Blobs, start: Log, lines: seq<Record>, k: nat)
    requires StoreOk(Store(blobs, start)) && RefsOk(lines, blobs) && k < |lines|
    ensures var log := Append(start, lines[..k]);
      && Append(log, [lines[k]]) == Append(start, lines[..k + 1])
      && StoreOk(Store(blobs, CutInside(log))) && StoreOk(Store(blobs, CutAtBreak(log, lines[k])))
      && StoreOk(Store(blobs, Append(log, [lines[k]])))
  {
    AppendOneMore(start, lines, k);
    AppendOk(blobs, start, lines, k);
    AppendOk(blobs, start, lines, k + 1);
    assert lines[k] in lines;
    CutOk(blobs, Append(start, lines[..k]), lines[k]);
  }

  lemma RecordsNameStored(blobs: Blobs, files: Files, run: RunId, paths: seq<Path>)
    requires BlobsOk(blobs)
    ensures var b := StoreAll(blobs, files, paths);
      RefsOk(SnapshotRecords(run, files, paths), b) && RefsOk(SealRecords(run, files, paths), b)
  {
    StoreAllOk(blobs, files, paths);
    var b := StoreAll(blobs, files, paths);
    forall r | r in SnapshotRecords(run, files, paths) && r.sha.Some? ensures r.sha.value in b {
      var i :| 0 <= i < |paths| && r == Snapshot(run, paths[i], FileHash(files, paths[i]));
      assert paths[i] in paths;
    }
    forall r | r in SealRecords(run, files, paths) && r.sha.Some? ensures r.sha.value in b {
      var i :| 0 <= i < |paths| && r == Seal(run, paths[i], FileHash(files, paths[i]));
      assert paths[i] in paths;
    }
  }

  lemma RefsGrow(records: seq<Record>, blobs: Blobs, more: Blobs)
    requires RefsOk(records, blobs) && blobs.Keys <= more.Keys
    ensures RefsOk(records, more)
  {
  }

  /** Snapshot and seal keep the store sound. */
  lemma WritesKeepStoreOk(s: Store, files: Files, run: RunId, paths: seq<Path>)
    requires StoreOk(s)
    ensures StoreOk(DoSnapshot(s, files, run, paths)) && StoreOk(DoSeal(s, files, run, paths))
    ensures StoreOk(DoSnapshotAbsent(s, run, paths))
  {
    StoreAllOk(s.blobs, files, paths);
    RecordsNameStored(s.blobs, files, run, paths);
    var b := StoreAll(s.blobs, files, paths);
    RefsGrow(s.log.records, s.blobs, b);
    var snaps, seals, absents := SnapshotRecords(run, files, paths), SealRecords(run, files, paths), AbsentRecords(run, paths);
    assert snaps[..|paths|] == snaps && seals[..|paths|] == seals && absents[..|paths|] == absents;
    AppendOk(b, s.log, snaps, |paths|);
    AppendOk(b, s.log, seals, |paths|);
    AppendOk(s.blobs, s.log, absents, |paths|);
  }

  // ---- restore --------------------------------------------------------------------------------

  datatype Reason = NoCheckpoint | NoSeal | ChangedExternally | BlobMissing | BlobCorrupt

  datatype Conflict = Conflict(path: Path, expected: Option<Digest>, actual: Option<Digest>, reason: Reason)

  datatype Report = Report(restored: seq<Path>, conflicts: seq<Conflict>)

  datatype RestoreStatus = RestoreSuccess | RestorePartial | RestoreRefused

  function StatusOf(r: Report): RestoreStatus {
    if r.conflicts != [] && r.restored != [] then RestorePartial
    else if r.conflicts != [] then RestoreRefused
    else RestoreSuccess
  }

  /** What `_restore_entry` does with one file. */
  datatype Decision =
    | KeepAsIs
    | DeleteFile
    | WriteBack(data: Bytes)
    | Refuse(conflict: Conflict)

  function Decide(files: Files, blobs: Blobs, seals: map<Path, Option<Digest>>, e: Entry): Decision {
    var current := FileHash(files, e.path);
    if current == e.sha then KeepAsIs
    else if e.path !in seals then Refuse(Conflict(e.path, None, current, NoSeal))
    else if current != seals[e.path] then Refuse(Conflict(e.path, seals[e.path], current, ChangedExternally))
    else match e.sha
      case None => DeleteFile
      case Some(d) =>
        if d !in blobs then Refuse(Conflict(e.path, seals[e.path], current, BlobMissing))
        else if Hash(blobs[d]) != d then Refuse(Conflict(e.path, seals[e.path], current, BlobCorrupt))
        else WriteBack(blobs[d])
  }

  function Carry(files: Files, p: Path, d: Decision): Files {
    match d
    case KeepAsIs => files
    case DeleteFile => files - {p}
    case WriteBack(data) => files[p := data]
    case Refuse(_) => files
  }

  /** The files after restoring these entries. Every decision is taken on the files as they were. */
  function Restored(files: Files, blobs: Blobs, seals: map<Path, Option<Digest>>, es: seq<Entry>): Files {
    if es == [] then files
    else
      var e := es[|es| - 1];
      Carry(Restored(files, blobs, seals, es[..|es| - 1]), e.path, Decide(files, blobs, seals, e))
  }

  function ReportOf(files: Files, blobs: Blobs, seals: map<Path, Option<Digest>>, es: seq<Entry>): Report {
    if es == [] then Report([], [])
    else
      var r := ReportOf(files, blobs, seals, es[..|es| - 1]);
      var e := es[|es| - 1];
      match Decide(files, blobs, seals, e)
      case Refuse(c) => r.(conflicts := r.conflicts + [c])
      case _ => r.(restored := r.restored + [e.path])
  }

  /** `restore_run`: the files and the report it leaves. */
  function RestoreRun(files: Files, s: Store, run: RunId): (Files, Report) {
    var es := EntriesFor(s.log.records, run);
    if es == [] then (files, Report([], [Conflict("", None, None, NoCheckpoint)]))
    else
      var seals := SealsFor(s.log.records, run);
      (Restored(files, s.blobs, seals, es), ReportOf(files, s.blobs, seals, es))
  }

  /** Entry by entry: an entry's path ends as its own decision says, every other path as it was. */
  lemma {:induction false} RestoredAt(files: Files, blobs: Blobs, seals: map<Path, Option<Digest>>, es: seq<Entry>)
    requires DistinctPaths(es)
    ensures var after := Restored(files, blobs, seals, es);
      && (forall i :: 0 <= i < |es| ==>
           Get(after, es[i].path) == Get(Carry(files, es[i].path, Decide(files, blobs, seals, es[i])), es[i].path))
      && (forall p :: !HasPath(es, p) ==> Get(after, p) == Get(files, p))
  {
    if es != [] {
      var front := es[..|es| - 1];
      RestoredAt(files, blobs, seals, front);
      assert es == front + [es[|es| - 1]];
      HasPathAppend(front, es[|es| - 1]);
      assert !HasPath(front, es[|es| - 1].path);
    }
  }

  predicate Refused(cs: seq<Conflict>, p: Path) {
    exists i :: 0 <= i < |cs| && cs[i].path == p
  }

  /** Every entry lands in exactly one of the two lists, and nothing else does. */
  lemma {:induction false} ReportPartitions(files: Files, blobs: Blobs, seals: map<Path, Option<Digest>>, es: seq<Entry>)
    requires DistinctPaths(es)
    ensures var r := ReportOf(files, blobs, seals, es);
      && |r.restored| + |r.conflicts| == |es|
      && (forall p :: p in r.restored || Refused(r.conflicts, p) <==> HasPath(es, p))
      && (forall i :: 0 <= i < |es| ==>
           (es[i].path in r.restored <==> !Decide(files, blobs, seals, es[i]).Refuse?)
           && (Refused(r.conflicts, es[i].path) <==> Decide(files, blobs, seals, es[i]).Refuse?))
  {
    if es != [] {
      var front, last := es[..|es| - 1], es[|es| - 1];
      ReportPartitions(files, blobs, seals, front);
      var r0, r := ReportOf(files, blobs, seals, front), ReportOf(files, blobs, seals, es);
      assert !HasPath(front, last.path);
      assert es == front + [last];
      HasPathAppend(front, last);
      if Decide(files, blobs, seals, last).Refuse? {
        RefusedAppend(r0.conflicts, Decide(files, blobs, seals, last).conflict);
      }
    }
  }

  lemma RefusedAppend(cs: seq<Conflict>, c: Conflict)
    ensures forall p :: Refused(cs + [c], p) <==> Refused(cs, p) || p == c.path
  {
    var all := cs + [c];
    assert all[|cs|] == c;
    forall p | Refused(cs, p) ensures Refused(all, p) {
      var i :| 0 <= i < |cs| && cs[i].path == p;
      assert all[i].path == p;
    }
  }

  /**
   * The guard: only recorded paths change, and only when the file held the run's last sealed content; a
   * changed path ends in its snapshot state.
   */
  lemma RestoreGuard(files: Files, s: Store, run: RunId, p: Path)
    requires Get(RestoreRun(files, s, run).0, p) != Get(files, p)
    ensures p in EntryMap(s.log.records, run)
    ensures p in SealsFor(s.log.records, run)
    ensures FileHash(files, p) == SealsFor(s.log.records, run)[p]
    ensures FileHash(RestoreRun(files, s, run).0, p) == EntryMap(s.log.records, run)[p]
  {
    var es, seals := EntriesFor(s.log.records, run), SealsFor(s.log.records, run);
    EntriesAreTheMap(s.log.records, run);
    RestoredAt(files, s.blobs, seals, es);
    assert HasPath(es, p);
    var i :| 0 <= i < |es| && es[i].path == p;
    assert p in EntryMap(s.log.records, run) && EntryMap(s.log.records, run)[p] == es[i].sha;
    var d := Decide(files, s.blobs, seals, es[i]);
    assert d.DeleteFile? || d.WriteBack?;
  }

  /** Each recorded path is either restored, then holding its snapshot state, or refused, then untouched. */
  lemma RestoreOutcome(files: Files, s: Store, run: RunId, i: nat)
    requires i < |EntriesFor(s.log.records, run)|
    ensures var es, seals := EntriesFor(s.log.records, run), SealsFor(s.log.records, run);
      var after := RestoreRun(files, s, run).0;
      if Decide(files, s.blobs, seals, es[i]).Refuse?
      then Get(after, es[i].path) == Get(files, es[i].path)
      else FileHash(after, es[i].path) == es[i].sha
  {
    RestoredAt(files, s.blobs, SealsFor(s.log.records, run), EntriesFor(s.log.records, run));
  }

  lemma {:induction false} SecondPassSame(files: Files, after: Files, blobs: Blobs, seals: map<Path, Option<Digest>>, es: seq<Entry>)
    requires forall i :: 0 <= i < |es| ==>
               if Decide(files, blobs, seals, es[i]).Refuse?
               then Decide(after, blobs, seals, es[i]) == Decide(files, blobs, seals, es[i])
               else Decide(after, blobs, seals, es[i]) == KeepAsIs
    ensures Restored(after, blobs, seals, es) == after
    ensures ReportOf(after, blobs, seals, es) == ReportOf(files, blobs, seals, es)
  {
    if es != [] {
      SecondPassSame(files, after, blobs, seals, es[..|es| - 1]);
    }
  }

  /** Restoring twice: the second call changes nothing and reports the same. */
  lemma RestoreIdempotent(files: Files, s: Store, run: RunId)
    ensures var (after, report) := RestoreRun(files, s, run);
      RestoreRun(after, s, run) == (after, report)
  {
    var es, seals := EntriesFor(s.log.records, run), SealsFor(s.log.records, run);
    if es != [] {
      var after := RestoreRun(files, s, run).0;
      RestoredAt(files, s.blobs, seals, es);
      forall i | 0 <= i < |es|
        ensures if Decide(files, s.blobs, seals, es[i]).Refuse?
                then Decide(after, s.blobs, seals, es[i]) == Decide(files, s.blobs, seals, es[i])
                else Decide(after, s.blobs, seals, es[i]) == KeepAsIs
      {
        RestoreOutcome(files, s, run, i);
      }
      SecondPassSame(files, after, s.blobs, seals, es);
    }
  }
}
