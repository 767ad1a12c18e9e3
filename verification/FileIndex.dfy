/** The project index (context/index.py): a sorted file list with derived tables, kept up to date by write reports. */
module FileIndex {
  import opened Collections

  /** A path below the root, by components; paths are ordered component by component. */
  type Path = seq<string>

  function Name(p: Path): string {
    if p == [] then "" else p[|p| - 1]
  }

  function LastDot(s: string): int {
    if s == "" then -1 else if s[|s| - 1] == '.' then |s| - 1 else LastDot(s[..|s| - 1])
  }

  /** `PurePath.suffix`: from the last dot on, unless it opens or ends the name. */
  function Suffix(p: Path): string {
    var i := LastDot(Name(p));
    if 0 < i < |Name(p)| - 1 then Name(p)[i..] else ""
  }

  /** `term in name` */
  predicate Contains(name: string, term: string) {
    term <= name || (name != "" && Contains(name[1..], term))
  }

  // ---- the order ------------------------------------------------------------------------------

  predicate Less(a: string, b: string) {
    b != "" && (a == "" || if a[0] != b[0] then a[0] < b[0] else Less(a[1..], b[1..]))
  }

  predicate Before(a: Path, b: Path) {
    b != [] && (a == [] || if a[0] != b[0] then Less(a[0], b[0]) else Before(a[1..], b[1..]))
  }

  lemma {:induction false} LessTotal(a: string, b: string)
    ensures a == b || Less(a, b) || Less(b, a)
    ensures !(Less(a, b) && Less(b, a)) && !Less(a, a)
  {
    if a != "" {
      LessTotal(a[1..], a[1..]);
      if b != "" && a[0] == b[0] {
        LessTotal(a[1..], b[1..]);
        assert a[1..] == b[1..] ==> a == [a[0]] + a[1..] == b;
      }
    }
  }

  lemma {:induction false} LessTransitive(a: string, b: string, c: string)
    requires Less(a, b) && Less(b, c)
    ensures Less(a, c)
  {
    if a != "" && b != "" && c != "" && a[0] == b[0] && b[0] == c[0] {
      LessTransitive(a[1..], b[1..], c[1..]);
    }
  }

  lemma {:induction false} BeforeTotal(a: Path, b: Path)
    ensures a == b || Before(a, b) || Before(b, a)
    ensures !(Before(a, b) && Before(b, a)) && !Before(a, a)
  {
    if a != [] {
      BeforeTotal(a[1..], a[1..]);
      if b != [] {
        LessTotal(a[0], b[0]);
        if a[0] == b[0] {
          BeforeTotal(a[1..], b[1..]);
          assert a[1..] == b[1..] ==> a == [a[0]] + a[1..] == b;
        }
      }
    }
  }

  lemma {:induction false} BeforeTransitive(a: Path, b: Path, c: Path)
    requires Before(a, b) && Before(b, c)
    ensures Before(a, c)
  {
    if a != [] && b != [] && c != [] {
      if a[0] == b[0] && b[0] == c[0] {
        BeforeTransitive(a[1..], b[1..], c[1..]);
      } else if a[0] != b[0] && b[0] != c[0] {
        LessTransitive(a[0], b[0], c[0]);
        LessTotal(a[0], b[0]);
        assert Less(a[0], b[0]) && Less(b[0], c[0]);
        LessTotal(b[0], c[0]);
      }
    }
  }

  /** A path as text. */
  function PathText(p: Path): string {
    if p == [] then "" else if |p| == 1 then p[0] else p[0] + "/" + PathText(p[1..])
  }

  /** The order is not that of the full text: components are compared first, and '-' comes before '/'. */
  lemma OrderIsNotOfText()
    ensures Before(["a", "b"], ["a-b", "c"]) && Less(PathText(["a-b", "c"]), PathText(["a", "b"]))
  {
    var s, t := PathText(["a-b", "c"]), PathText(["a", "b"]);
    assert ["a-b", "c"][1..] == ["c"] && ["a", "b"][1..] == ["b"];
    assert s == "a-b/c" && t == "a/b";
    assert Less(s[1..], t[1..]);
  }

  predicate Sorted(s: seq<Path>) {
    forall i, j :: 0 <= i < j < |s| ==> Before(s[i], s[j])
  }

  /** `bisect_left`: how many are before `p`. */
  function Bisect(s: seq<Path>, p: Path): (k: nat)
    ensures k <= |s|
  {
    if s == [] || !Before(s[0], p) then 0 else 1 + Bisect(s[1..], p)
  }

  lemma {:induction false} BisectSplits(s: seq<Path>, p: Path)
    requires Sorted(s)
    ensures forall i :: 0 <= i < Bisect(s, p) ==> Before(s[i], p)
    ensures forall i :: Bisect(s, p) <= i < |s| ==> s[i] == p || Before(p, s[i])
    ensures p in s <==> Bisect(s, p) < |s| && s[Bisect(s, p)] == p
  {
    if s != [] {
      if Before(s[0], p) {
        BisectSplits(s[1..], p);
        BeforeTotal(s[0], p);
      } else {
        BeforeTotal(s[0], p);
        forall i | 0 <= i < |s| ensures s[i] == p || Before(p, s[i]) {
          if i > 0 && s[0] != p {
            BeforeTransitive(p, s[0], s[i]);
          }
        }
        if p in s {
          var i :| 0 <= i < |s| && s[i] == p;
          if i > 0 {
            BeforeTotal(s[0], p);
          }
        }
      }
    }
  }

  function Inserted(s: seq<Path>, p: Path): seq<Path> {
    var k := Bisect(s, p);
    if k < |s| && s[k] == p then s else s[..k] + [p] + s[k..]
  }

  lemma SplicedMembers(s: seq<Path>, k: nat, p: Path)
    requires k <= |s|
    ensures forall q :: q in s[..k] + [p] + s[k..] <==> q in s || q == p
  {
    assert s == s[..k] + s[k..];
    assert forall q :: q in s <==> q in s[..k] || q in s[k..];
  }

  lemma SplicedSorted(s: seq<Path>, k: nat, p: Path)
    requires Sorted(s) && k <= |s|
    requires (forall i :: 0 <= i < k ==> Before(s[i], p)) && (forall i :: k <= i < |s| ==> Before(p, s[i]))
    ensures Sorted(s[..k] + [p] + s[k..])
  {
    var r := s[..k] + [p] + s[k..];
    assert forall i :: 0 <= i < k ==> r[i] == s[i];
    assert forall i :: k < i < |r| ==> r[i] == s[i - 1];
  }

  lemma InsertedIs(s: seq<Path>, p: Path)
    requires Sorted(s)
    ensures Sorted(Inserted(s, p))
    ensures forall q :: q in Inserted(s, p) <==> q in s || q == p
  {
    BisectSplits(s, p);
    var k := Bisect(s, p);
    if !(k < |s| && s[k] == p) {
      assert forall i :: k <= i < |s| ==> s[i] in s && s[i] != p;
      SplicedSorted(s, k, p);
      SplicedMembers(s, k, p);
    }
  }

  /** `list.sort()` of distinct paths. */
  function SortPaths(s: seq<Path>): seq<Path> {
    if s == [] then [] else Inserted(SortPaths(s[1..]), s[0])
  }

  lemma {:induction false} SortPathsIs(s: seq<Path>)
    ensures Sorted(SortPaths(s))
    ensures forall q :: q in SortPaths(s) <==> q in s
  {
    if s != [] {
      SortPathsIs(s[1..]);
      InsertedIs(SortPaths(s[1..]), s[0]);
    }
  }

  /** There is one sorted list of a set of paths. */
  lemma {:induction false} OneListing(a: seq<Path>, b: seq<Path>)
    requires Sorted(a) && Sorted(b) && forall q :: q in a <==> q in b
    ensures a == b
  {
    assert |b| > 0 ==> b[0] in b;
    if a != [] {
      assert a[0] in a && a[0] in b && b != [];
      assert b[0] in b && b[0] in a;
      FirstIsLeast(a, b[0]);
      FirstIsLeast(b, a[0]);
      BeforeTotal(a[0], b[0]);
      RestIs(a);
      RestIs(b);
      OneListing(a[1..], b[1..]);
    }
  }

  lemma FirstIsLeast(s: seq<Path>, q: Path)
    requires Sorted(s) && q in s
    ensures q == s[0] || Before(s[0], q)
  {
  }

  lemma RestIs(s: seq<Path>)
    requires Sorted(s) && s != []
    ensures Sorted(s[1..]) && forall q :: q in s[1..] <==> q in s && q != s[0]
  {
    BeforeTotal(s[0], s[0]);
    forall q | q in s && q != s[0] ensures q in s[1..] {
      var i :| 0 <= i < |s| && s[i] == q;
      assert s[1..][i - 1] == q;
    }
  }

  // ---- filters and tables ---------------------------------------------------------------------

  function Where(s: seq<Path>, keep: Path -> bool): seq<Path> {
    if s == [] then [] else (if keep(s[0]) then [s[0]] else []) + Where(s[1..], keep)
  }

  lemma {:induction false} WhereSnoc(s: seq<Path>, p: Path, keep: Path -> bool)
    ensures Where(s + [p], keep) == Where(s, keep) + if keep(p) then [p] else []
  {
    if s == [] {
      assert [p][1..] == [];
    } else {
      assert (s + [p])[1..] == s[1..] + [p];
      WhereSnoc(s[1..], p, keep);
    }
  }

  function Named(name: string): Path -> bool {
    (p: Path) => Name(p) == name
  }

  function WithSuffix(ext: string): Path -> bool {
    (p: Path) => Suffix(p) == ext
  }

  function NameContains(term: string): Path -> bool {
    (p: Path) => Contains(Name(p), term)
  }

  type Table = map<string, seq<Path>>

  function Get(t: Table, key: string): seq<Path> {
    if key in t then t[key] else []
  }

  /** `setdefault(key, []).append(p)` */
  function Filed(t: Table, key: string, p: Path): Table {
    t[key := Get(t, key) + [p]]
  }

  /** The table answers as a filter of the list, `keep` saying which files a key stands for. */
  ghost predicate TableOk(files: seq<Path>, t: Table, keep: string -> Path -> bool) {
    forall key :: Get(t, key) == Where(files, keep(key))
  }

  function ByName(): string -> Path -> bool {
    (key: string) => Named(key)
  }

  function ByExt(): string -> Path -> bool {
    (key: string) => WithSuffix(key)
  }

  ghost predicate TablesOk(files: seq<Path>, byName: Table, byExt: Table, names: seq<(string, Path)>) {
    TableOk(files, byName, ByName()) && TableOk(files, byExt, ByExt()) && NamesOk(files, names)
  }

  ghost predicate NamesOk(files: seq<Path>, names: seq<(string, Path)>) {
    |names| == |files| && forall k :: 0 <= k < |files| ==> names[k] == (Name(files[k]), files[k])
  }

  lemma NoFilesOk()
    ensures TablesOk([], map[], map[], [])
  {
  }

  lemma OneMoreName(files: seq<Path>, names: seq<(string, Path)>, p: Path)
    requires NamesOk(files, names)
    ensures NamesOk(files + [p], names + [(Name(p), p)])
  {
  }

  lemma FiledInOne(files: seq<Path>, t: Table, keep: string -> Path -> bool, at: string, p: Path)
    requires TableOk(files, t, keep) && forall key :: keep(key)(p) <==> at == key
    ensures TableOk(files + [p], Filed(t, at, p), keep)
  {
    forall key ensures Get(Filed(t, at, p), key) == Where(files + [p], keep(key)) {
      assert Get(t, key) == Where(files, keep(key));
      WhereSnoc(files, p, keep(key));
    }
  }

  lemma FiledOk(files: seq<Path>, byName: Table, byExt: Table, names: seq<(string, Path)>, p: Path)
    requires TablesOk(files, byName, byExt, names)
    ensures TablesOk(files + [p], Filed(byName, Name(p), p), Filed(byExt, Suffix(p), p), names + [(Name(p), p)])
  {
    assert forall key :: ByName()(key)(p) <==> Name(p) == key;
    assert forall key :: ByExt()(key)(p) <==> Suffix(p) == key;
    OneMoreName(files, names, p);
    FiledInOne(files, byName, ByName(), Name(p), p);
    FiledInOne(files, byExt, ByExt(), Suffix(p), p);
  }

  // ---- ranked lookup --------------------------------------------------------------------------

  function Exact(term: string): Path -> bool {
    (p: Path) => Name(p) == term
  }

  function Prefixed(term: string): Path -> bool {
    (p: Path) => Name(p) != term && term <= Name(p)
  }

  function Inside(term: string): Path -> bool {
    (p: Path) => !(term <= Name(p)) && Contains(Name(p), term)
  }

  function Ranked(files: seq<Path>, term: string): seq<Path> {
    Where(files, Exact(term)) + Where(files, Prefixed(term)) + Where(files, Inside(term))
  }

  lemma {:induction false} WhereSplits(s: seq<Path>, a: Path -> bool, b: Path -> bool, c: Path -> bool, all: Path -> bool)
    requires forall p :: all(p) <==> a(p) || b(p) || c(p)
    requires forall p :: !(a(p) && b(p)) && !(a(p) && c(p)) && !(b(p) && c(p))
    ensures multiset(Where(s, a)) + multiset(Where(s, b)) + multiset(Where(s, c)) == multiset(Where(s, all))
  {
    if s != [] {
      WhereSplits(s[1..], a, b, c, all);
    }
  }

  /** The ranks are a partition of the matches: each match is in exactly one of them, and once. */
  lemma RankedIsPartition(files: seq<Path>, term: string)
    ensures multiset(Ranked(files, term)) == multiset(Where(files, NameContains(term)))
  {
    WhereSplits(files, Exact(term), Prefixed(term), Inside(term), NameContains(term));
  }

  // ---- write reports --------------------------------------------------------------------------

  /** What happens to the project; a report is `notify_write` for a path. */
  datatype Event = Create(path: Path) | Delete(path: Path) | Report(path: Path)

  /** The files on disk and the list of the index. */
  datatype World = World(disk: set<Path>, files: seq<Path>)

  function Happen(w: World, e: Event): World {
    match e
    case Create(p) => w.(disk := w.disk + {p})
    case Delete(p) => w.(disk := w.disk - {p})
    case Report(p) => if p in w.disk then w.(files := Inserted(w.files, p)) else w
  }

  function After(w: World, events: seq<Event>): World
    decreases |events|
  {
    if events == [] then w else After(Happen(w, events[0]), events[1..])
  }

  /** At some point the path was reported while it was on disk. */
  predicate Noted(w: World, events: seq<Event>, p: Path)
    decreases |events|
  {
    events != [] && ((events[0] == Report(p) && p in w.disk) || Noted(Happen(w, events[0]), events[1..], p))
  }

  /** The index lists, in order, exactly what it listed before and what was reported while on disk. */
  lemma {:induction false} ListsExactlyNoted(w: World, events: seq<Event>)
    requires Sorted(w.files)
    ensures Sorted(After(w, events).files)
    ensures forall p :: p in After(w, events).files <==> p in w.files || Noted(w, events, p)
    decreases |events|
  {
    if events != [] {
      if events[0].Report? {
        InsertedIs(w.files, events[0].path);
      }
      ListsExactlyNoted(Happen(w, events[0]), events[1..]);
    }
  }

  /** Every creation is reported later, while the file is there; nothing is deleted. */
  predicate AllReported(events: seq<Event>)
  {
    forall k :: 0 <= k < |events| ==>
      && !events[k].Delete?
      && (events[k].Create? ==> exists j :: k < j < |events| && events[j] == Report(events[k].path))
  }

  lemma {:induction false} DiskAfter(w: World, events: seq<Event>, p: Path)
    requires forall k :: 0 <= k < |events| ==> !events[k].Delete?
    ensures p in After(w, events).disk <==> p in w.disk || exists k :: 0 <= k < |events| && events[k] == Create(p)
    decreases |events|
  {
    if events != [] {
      DiskAfter(Happen(w, events[0]), events[1..], p);
      assert forall k :: 0 < k < |events| ==> events[k] == events[1..][k - 1];
      assert forall k :: 0 <= k < |events[1..]| ==> events[1..][k] == events[k + 1];
    }
  }

  lemma {:induction false} ReportedIsNoted(w: World, events: seq<Event>, p: Path, j: nat)
    requires forall k :: 0 <= k < |events| ==> !events[k].Delete?
    requires j < |events| && events[j] == Report(p)
    requires p in w.disk || exists k :: 0 <= k < j && events[k] == Create(p)
    ensures Noted(w, events, p)
    decreases |events|
  {
    if j > 0 {
      var rest := events[1..];
      assert rest[j - 1] == events[j];
      if p !in Happen(w, events[0]).disk {
        var k :| 0 <= k < j && events[k] == Create(p);
        assert k > 0 && rest[k - 1] == Create(p);
      }
      ReportedIsNoted(Happen(w, events[0]), rest, p, j - 1);
    }
  }

  lemma {:induction false} NotedIsOnDisk(w: World, events: seq<Event>, p: Path)
    requires forall k :: 0 <= k < |events| ==> !events[k].Delete?
    requires Noted(w, events, p)
    ensures p in After(w, events).disk
    decreases |events|
  {
    if events[0] == Report(p) && p in w.disk {
      DiskAfter(w, events, p);
    } else {
      NotedIsOnDisk(Happen(w, events[0]), events[1..], p);
    }
  }

  /** After any creations that are all reported, with nothing deleted, the list is what a fresh walk would give. */
  lemma AgreesWithWalk(w: World, events: seq<Event>, walk: seq<Path>)
    requires Sorted(w.files) && (forall p :: p in w.files <==> p in w.disk) && AllReported(events)
    requires forall p :: p in walk <==> p in After(w, events).disk
    ensures After(w, events).files == SortPaths(walk)
  {
    var end := After(w, events);
    ListsExactlyNoted(w, events);
    SortPathsIs(walk);
    forall p ensures p in end.files <==> p in SortPaths(walk) {
      DiskAfter(w, events, p);
      if p in end.disk && p !in w.disk {
        var k :| 0 <= k < |events| && events[k] == Create(p);
        var j :| k < j < |events| && events[j] == Report(p);
        ReportedIsNoted(w, events, p, j);
      }
      if Noted(w, events, p) {
        NotedIsOnDisk(w, events, p);
      }
    }
    OneListing(end.files, SortPaths(walk));
  }

  /** A file that is deleted stays listed until the next walk, whatever is reported. */
  lemma DeletedStaysListed(w: World, events: seq<Event>, p: Path)
    requires Sorted(w.files) && p in w.files
    ensures p in After(w, [Delete(p)] + events).files
  {
    ListsExactlyNoted(w, [Delete(p)] + events);
  }
}
