/** `ProjectIndex` and `IndexedScan` as written (context/index.py), proved against FileIndex. */
module ProjectIndexes {
  import opened Collections
  import opened FileIndex

  /** The project's files; a walk meets each of them once, in any order. */
  class Disk {
    var files: set<Path>

    constructor (files: set<Path>)
      ensures this.files == files
    {
      this.files := files;
    }

    method Walk() returns (found: seq<Path>)
      ensures forall p :: p in found <==> p in files
    {
      found := [];
      var left := files;
      while left != {}
        invariant left <= files && forall p :: p in found <==> p in files && p !in left
        decreases |left|
      {
        var p :| p in left;
        found := found + [p];
        left := left - {p};
      }
    }
  }

  /** The loop that derives the tables: each file is filed under its name and its suffix. */
  method DeriveTables(items: seq<Path>) returns (byName: Table, byExt: Table, names: seq<(string, Path)>)
    ensures TablesOk(items, byName, byExt, names)
  {
    byName, byExt, names := map[], map[], [];
    NoFilesOk();
    assert items[..0] == [];
    for k := 0 to |items|
      invariant TablesOk(items[..k], byName, byExt, names)
    {
      var p := items[k];
      assert items[..k + 1] == items[..k] + [p];
      FiledOk(items[..k], byName, byExt, names, p);
      byName, byExt, names := Filed(byName, Name(p), p), Filed(byExt, Suffix(p), p), names + [(Name(p), p)];
    }
    assert items[..|items|] == items;
  }

  /** The list of files, which scans share. */
  class FileList {
    var items: seq<Path>

    constructor (items: seq<Path>)
      ensures this.items == items
    {
      this.items := items;
    }
  }

  class ProjectIndex {
    const disk: Disk
    const maxAge: int
    var files: FileList
    var byName: Table
    var byExt: Table
    var names: seq<(string, Path)>
    var builtAt: int
    var rebuildCount: nat

    ghost predicate Valid()
      reads this, files
    {
      Sorted(files.items) && TablesOk(files.items, byName, byExt, names)
    }

    /** The index right after a walk. */
    constructor (disk: Disk, maxAge: int, now: int)
      ensures Valid() && fresh(files) && this.disk == disk && this.maxAge == maxAge
      ensures forall p :: p in files.items <==> p in disk.files
      ensures builtAt == now && rebuildCount == 1
    {
      this.disk, this.maxAge := disk, maxAge;
      files := new FileList([]);
      byName, byExt, names, builtAt, rebuildCount := map[], map[], [], now, 0;
      new;
      Rebuild(now);
    }

    /** Derives the tables from the sorted list. */
    method Reindex()
      requires Sorted(files.items)
      modifies this`byName, this`byExt, this`names
      ensures Valid()
    {
      byName, byExt, names := DeriveTables(files.items);
    }

    /** One walk, a list of its own, and the tables. */
    method Rebuild(now: int)
      modifies this
      ensures Valid() && fresh(files)
      ensures forall p :: p in files.items <==> p in disk.files
      ensures builtAt == now && rebuildCount == old(rebuildCount) + 1
    {
      var found := disk.Walk();
      SortPathsIs(found);
      files := new FileList(SortPaths(found));
      Reindex();
      builtAt, rebuildCount := now, rebuildCount + 1;
    }

    /** True when the index was older than allowed, or the rebuild was asked for. */
    method RefreshIfStale(now: int, force: bool) returns (rebuilt: bool)
      requires Valid()
      modifies this
      ensures Valid() && (rebuilt <==> force || now - old(builtAt) > maxAge)
      ensures rebuilt ==> fresh(files) && forall p :: p in files.items <==> p in disk.files
      ensures !rebuilt ==> files == old(files) && builtAt == old(builtAt)
    {
      rebuilt := force || now - builtAt > maxAge;
      if rebuilt {
        Rebuild(now);
      }
    }

    /** A new file goes to its place in the shared list; one that is listed, or is not there, changes nothing. */
    method NotifyWrite(p: Path)
      requires Valid()
      modifies this, files
      ensures Valid() && files == old(files)
      ensures files.items == Happen(World(disk.files, old(files.items)), Report(p)).files
      ensures builtAt == old(builtAt) && rebuildCount == old(rebuildCount)
    {
      if p !in disk.files {
        return;
      }
      InsertedIs(files.items, p);
      var k := Bisect(files.items, p);
      if k < |files.items| && files.items[k] == p {
        return;
      }
      files.items := files.items[..k] + [p] + files.items[k..];
      Reindex();
    }

    method LookupName(name: string) returns (r: seq<Path>)
      requires Valid()
      ensures r == Where(files.items, Named(name))
    {
      r := Get(byName, name);
      assert r == Where(files.items, ByName()(name));
    }

    method LookupExt(ext: string) returns (r: seq<Path>)
      requires Valid()
      ensures r == Where(files.items, WithSuffix(ext))
    {
      r := Get(byExt, ext);
      assert r == Where(files.items, ByExt()(ext));
    }

    method LookupStem(stem: string) returns (r: seq<Path>)
      requires Valid()
      ensures r == Where(files.items, NameContains(stem))
    {
      r := [];
      assert files.items[..0] == [];
      for k := 0 to |names|
        invariant r == Where(files.items[..k], NameContains(stem))
      {
        assert files.items[..k + 1] == files.items[..k] + [files.items[k]];
        WhereSnoc(files.items[..k], files.items[k], NameContains(stem));
        if Contains(names[k].0, stem) {
          r := r + [names[k].1];
        }
      }
      assert files.items[..|names|] == files.items;
    }

    /** Exact names, then names that begin with the term, then those that contain it. */
    method Lookup(term: string) returns (r: seq<Path>)
      requires Valid()
      ensures r == Ranked(files.items, term)
      ensures multiset(r) == multiset(Where(files.items, NameContains(term)))
    {
      var exact: seq<Path>, prefix: seq<Path>, substr: seq<Path> := [], [], [];
      assert files.items[..0] == [];
      for k := 0 to |names|
        invariant exact == Where(files.items[..k], Exact(term))
        invariant prefix == Where(files.items[..k], Prefixed(term))
        invariant substr == Where(files.items[..k], Inside(term))
      {
        var (name, p) := names[k];
        assert files.items[..k + 1] == files.items[..k] + [p];
        WhereSnoc(files.items[..k], p, Exact(term));
        WhereSnoc(files.items[..k], p, Prefixed(term));
        WhereSnoc(files.items[..k], p, Inside(term));
        if name == term {
          exact := exact + [p];
        } else if term <= name {
          prefix := prefix + [p];
        } else if Contains(name, term) {
          substr := substr + [p];
        }
      }
      assert files.items[..|names|] == files.items;
      RankedIsPartition(files.items, term);
      r := exact + prefix + substr;
    }
  }

  /** A scan borrows the list of the index, and asks the index for lookups. */
  class IndexedScan {
    const index: ProjectIndex
    const files: FileList

    constructor (index: ProjectIndex)
      ensures this.index == index && files == index.files
    {
      this.index, files := index, index.files;
    }

    /** As long as the index has not been rebuilt, lookups are filters of the scan's own list. */
    method LookupName(name: string) returns (r: seq<Path>)
      requires index.Valid()
      ensures index.files == files ==> r == Where(files.items, Named(name))
    {
      r := index.LookupName(name);
    }

    method LookupStem(stem: string) returns (r: seq<Path>)
      requires index.Valid()
      ensures index.files == files ==> r == Where(files.items, NameContains(stem))
    {
      r := index.LookupStem(stem);
    }
  }
}
