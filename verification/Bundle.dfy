/** The context bundle (context/bundle.py): one owner for every distinct content. */
module Bundle {
  import opened Collections

  type Identity = (string, string)

  datatype Item = Item(kind: string, path: string, content: Option<string>) {
    function Key(): Identity {
      (kind, path)
    }
  }

  /** A content stands for its own hash: hashing is taken to be injective. */
  datatype Entry = Entry(item: Item, isReference: bool, duplicateOf: Option<string>)

  datatype Bundle = Bundle(entries: seq<Entry>, seen: set<Identity>, owners: map<string, string>)

  const Nothing := Bundle([], {}, map[])

  /** The bundle after adding an item; an identity already seen changes nothing. */
  function Added(b: Bundle, item: Item): Bundle {
    if item.Key() in b.seen then b
    else
      var owner := if item.content.Some? && item.content.value in b.owners then Some(b.owners[item.content.value]) else None;
      Bundle(
        b.entries + [Entry(item, owner.Some?, owner)],
        b.seen + {item.Key()},
        if item.content.Some? && owner.None? then b.owners[item.content.value := item.path] else b.owners)
  }

  // ---- who owns a content ---------------------------------------------------------------------

  /** The path of the earliest entry that carries this content. */
  function Owner(entries: seq<Entry>, content: string): Option<string> {
    if entries == [] then None
    else
      var front, last := entries[..|entries| - 1], entries[|entries| - 1];
      match Owner(front, content)
      case Some(path) => Some(path)
      case None => if last.item.content == Some(content) then Some(last.item.path) else None
  }

  ghost predicate Carries(e: Entry, content: string) {
    e.item.content == Some(content)
  }

  /** A reference says whose content it repeats: the earliest before it. An owner repeats nobody's. */
  ghost predicate EntryOk(entries: seq<Entry>, k: nat)
    requires k < |entries|
  {
    var e := entries[k];
    && e.duplicateOf == (if e.item.content.None? then None else Owner(entries[..k], e.item.content.value))
    && e.isReference == e.duplicateOf.Some?
  }

  ghost predicate SeenOk(b: Bundle) {
    && (forall k :: 0 <= k < |b.entries| ==> b.entries[k].item.Key() in b.seen)
    && (forall id :: id in b.seen ==> exists k :: 0 <= k < |b.entries| && b.entries[k].item.Key() == id)
    && (forall j, k :: 0 <= j < k < |b.entries| ==> b.entries[j].item.Key() != b.entries[k].item.Key())
  }

  ghost predicate OwnersOk(b: Bundle) {
    forall c :: Owner(b.entries, c) == if c in b.owners then Some(b.owners[c]) else None
  }

  ghost predicate Ok(b: Bundle) {
    && SeenOk(b) && OwnersOk(b)
    && forall k :: 0 <= k < |b.entries| ==> EntryOk(b.entries, k)
  }

  lemma AddKeepsSeen(b: Bundle, item: Item)
    requires SeenOk(b)
    ensures SeenOk(Added(b, item))
  {
    var a := Added(b, item);
    if item.Key() !in b.seen {
      var n := |b.entries|;
      assert a.entries[n].item.Key() == item.Key();
      assert forall k :: 0 <= k < n ==> a.entries[k] == b.entries[k];
    }
  }

  lemma AddKeepsOwners(b: Bundle, item: Item)
    requires OwnersOk(b)
    ensures OwnersOk(Added(b, item))
  {
    var a := Added(b, item);
    if item.Key() !in b.seen {
      var n := |b.entries|;
      assert a.entries[..n] == b.entries && a.entries[n].item == item;
      forall c ensures Owner(a.entries, c) == if c in a.owners then Some(a.owners[c]) else None {
        assert Owner(b.entries, c) == if c in b.owners then Some(b.owners[c]) else None;
      }
    }
  }

  lemma AddKeepsEntries(b: Bundle, item: Item)
    requires Ok(b)
    ensures forall k :: 0 <= k < |Added(b, item).entries| ==> EntryOk(Added(b, item).entries, k)
  {
    var a := Added(b, item);
    if item.Key() !in b.seen {
      var n := |b.entries|;
      forall k | 0 <= k < |a.entries| ensures EntryOk(a.entries, k) {
        if k < n {
          assert EntryOk(b.entries, k) && a.entries[..k] == b.entries[..k];
        } else {
          assert a.entries[..n] == b.entries;
          if item.content.Some? {
            var c := item.content.value;
            assert Owner(b.entries, c) == if c in b.owners then Some(b.owners[c]) else None;
          }
        }
      }
    }
  }

  lemma AddKeepsOk(b: Bundle, item: Item)
    requires Ok(b)
    ensures Ok(Added(b, item)) && b.entries <= Added(b, item).entries
  {
    AddKeepsSeen(b, item);
    AddKeepsOwners(b, item);
    AddKeepsEntries(b, item);
  }

  lemma {:induction false} OwnerNone(entries: seq<Entry>, content: string)
    ensures Owner(entries, content).None? <==> forall k :: 0 <= k < |entries| ==> !Carries(entries[k], content)
  {
    if entries != [] {
      var n := |entries| - 1;
      OwnerNone(entries[..n], content);
      assert forall k :: 0 <= k < n ==> entries[..n][k] == entries[k];
    }
  }

  /** Of the entries with one content exactly one is not a reference, and it is the earliest. */
  lemma OneOwner(b: Bundle, k: nat, content: string)
    requires Ok(b) && k < |b.entries| && Carries(b.entries[k], content)
    ensures !b.entries[k].isReference <==> forall j :: 0 <= j < k ==> !Carries(b.entries[j], content)
    ensures exists o :: 0 <= o <= k && Carries(b.entries[o], content) && !b.entries[o].isReference
  {
    assert EntryOk(b.entries, k);
    OwnerNone(b.entries[..k], content);
    if j :| 0 <= j < k && Carries(b.entries[j], content) {
      OneOwner(b, j, content);
    }
  }

  /** A reference names the path of the entry that owns its content. */
  lemma {:induction false} OwnerIsNamed(entries: seq<Entry>, content: string, o: nat)
    requires o < |entries| && Carries(entries[o], content)
    requires forall j :: 0 <= j < o ==> !Carries(entries[j], content)
    ensures Owner(entries, content) == Some(entries[o].item.path)
  {
    var n := |entries| - 1;
    if o < n {
      OwnerIsNamed(entries[..n], content, o);
    } else {
      OwnerNone(entries[..n], content);
    }
  }

  lemma ReferenceNamesOwner(b: Bundle, k: nat, o: nat, content: string)
    requires Ok(b) && o <= k < |b.entries| && b.entries[k].isReference && !b.entries[o].isReference
    requires Carries(b.entries[k], content) && Carries(b.entries[o], content)
    ensures b.entries[k].duplicateOf == Some(b.entries[o].item.path)
  {
    assert EntryOk(b.entries, k);
    OneOwner(b, o, content);
    OwnerIsNamed(b.entries[..k], content, o);
  }

  // ---- the class ------------------------------------------------------------------------------

  class ContextBundle {
    var entries: seq<Entry>
    var seenKeys: set<Identity>
    var hashOwner: map<string, string>

    ghost function State(): Bundle
      reads this
    {
      Bundle(entries, seenKeys, hashOwner)
    }

    constructor ()
      ensures State() == Nothing
    {
      entries, seenKeys, hashOwner := [], {}, map[];
    }

    /** False when the identity is already there; a repeated content is kept as a reference to its owner. */
    method Add(item: Item) returns (added: bool)
      modifies this
      ensures State() == Added(old(State()), item)
      ensures added <==> item.Key() !in old(seenKeys)
      ensures old(Ok(State())) ==> Ok(State())
    {
      ghost var before := State();
      if item.Key() in seenKeys {
        return false;
      }
      seenKeys := seenKeys + {item.Key()};
      var isRef, dupOf := false, None;
      if item.content.Some? {
        var h := item.content.value;
        if h in hashOwner {
          isRef, dupOf := true, Some(hashOwner[h]);
        } else {
          hashOwner := hashOwner[h := item.path];
        }
      }
      entries := entries + [Entry(item, isRef, dupOf)];
      added := true;
      if Ok(before) {
        AddKeepsOk(before, item);
      }
    }
  }
}
