/**
 * Duplicates in a delta prompt (chain/knowledge.py): when the list that calls them sent before tells the truth, and an
 * input on which it does not, because the owner is dropped by the budget and the small list is kept.
 */
module UnseenDuplicate {
  import opened Collections
  import opened Budget
  import opened Bundle
  import opened Knowledge
  import Pack

  // ---- when the list is true ------------------------------------------------------------------

  lemma {:induction false} RunThen(m: Memory, w: Wording, ops: seq<Op>, op: Op)
    ensures Run(m, w, ops + [op]) == Step(Run(m, w, ops), w, op)
    decreases |ops|
  {
    if ops == [] {
      assert [op][1..] == [] && ops + [op] == [op];
    } else {
      assert (ops + [op])[1..] == ops[1..] + [op];
      RunThen(Step(m, w, ops[0]), w, ops[1..], op);
    }
  }

  /** Every duplicate repeats a body, and names its path. */
  lemma DuplicateHasOwner(w: Wording, ops: seq<Op>, r: Entry) returns (o: Entry)
    requires r in Run(Blank, w, ops).bundle.entries && r.isReference
    ensures o in Run(Blank, w, ops).bundle.entries && IsBody(o)
    ensures o.item.content == r.item.content && r.duplicateOf == Some(o.item.path)
  {
    RunKeepsInv(Blank, w, ops);
    var b := Run(Blank, w, ops).bundle;
    var k :| 0 <= k < |b.entries| && b.entries[k] == r;
    assert r.item.content.Some?;
    var content := r.item.content.value;
    OneOwner(b, k, content);
    var i :| 0 <= i <= k && Carries(b.entries[i], content) && !b.entries[i].isReference;
    o := b.entries[i];
    ReferenceNamesOwner(b, k, i, content);
  }

  lemma {:induction false} ReferencesAre(entries: seq<Entry>)
    ensures forall e :: e in References(entries) <==> e in entries && e.isReference
  {
    if entries != [] {
      ReferencesAre(entries[1..]);
    }
  }

  lemma {:induction false} LineOf(m: Memory, w: Wording, refs: seq<Entry>, n: nat, k: nat)
    requires k < n <= |refs| && refs[k].duplicateOf.Some?
    ensures w.sameLine(Display(m, refs[k].item), refs[k].duplicateOf.value) in SameLines(m, w, refs, n)
  {
    if k < n - 1 {
      LineOf(m, w, refs, n - 1, k);
    }
  }

  /** Every duplicate has a line in the list of every prompt. */
  lemma DuplicateIsListed(m: Memory, w: Wording, recentK: int, r: Entry)
    requires r in m.bundle.entries && r.isReference && r.duplicateOf.Some?
    ensures w.sameLine(Display(m, r.item), r.duplicateOf.value) in AllLines(m, w, recentK)
  {
    var refs := References(m.bundle.entries);
    ReferencesAre(m.bundle.entries);
    var k :| 0 <= k < |refs| && refs[k] == r;
    LineOf(m, w, refs, |refs|, k);
  }

  /**
   * In the prompt after any session, the line of a duplicate refers to content shown in full, before or in this very
   * prompt, exactly when its owner was sent before or its full item survives this packing.
   */
  lemma DuplicateSeenIff(w: Wording, ops: seq<Op>, maxTokens: int, recentK: int, r: Entry, o: Entry)
    requires maxTokens > 0
    requires var entries := Run(Blank, w, ops).bundle.entries;
      r in entries && r.isReference && o in entries && IsBody(o) && o.item.content == r.item.content
    ensures var m := Run(Blank, w, ops);
      ShownInFull(AfterPrompt(m, w, maxTokens, recentK).prompts, w, o.item) <==>
        KeyOf(o.item) in m.sent || FullItem(m, w, o.item) in PackedPrompt(m, w, maxTokens, recentK).kept
  {
    var m := Run(Blank, w, ops);
    RunKeepsInv(Blank, w, ops);
    RunThen(Blank, w, ops, Prompt(maxTokens, recentK));
    SentIffShown(w, ops + [Prompt(maxTokens, recentK)], o);
    if KeyOf(o.item) !in m.sent {
      SentIffSurvived(m, w, maxTokens, recentK, o);
    }
  }

  // ---- an input on which it is not ------------------------------------------------------------

  function OwnerItem(content: string): Item {
    Item("file", "a", Some(content))
  }

  /** The memory after the same content was read under two paths. */
  function Twice(w: Wording, content: string): Memory {
    Step(Step(Blank, w, Read("a", content)), w, Read("b", content))
  }

  /** Two entries, the second a reference to the first, and nothing sent yet. */
  ghost predicate OwnerAndReference(m: Memory, content: string) {
    && m.bundle.entries == [Entry(OwnerItem(content), false, None), Entry(Item("file", "b", Some(content)), true, Some("a"))]
    && m.sent == {} && m.prompts == [] && m.observations == [] && m.errors == []
    && OwnerItem(content).Key() in m.meta && m.meta[OwnerItem(content).Key()] == Meta("a", true, 0)
    && Item("file", "b", Some(content)).Key() in m.meta
    && m.meta[Item("file", "b", Some(content)).Key()] == Meta("b", true, 0)
  }

  lemma TwoEntries(w: Wording, content: string)
    ensures OwnerAndReference(Twice(w, content), content)
  {
    var one := Step(Blank, w, Read("a", content));
    assert one.bundle.entries == [Entry(OwnerItem(content), false, None)];
    assert one.bundle.owners == map[content := "a"];
  }

  function OwnerText(w: Wording, content: string): string {
    w.header("file") + w.body("file", "a", true, content)
  }

  function ListText(w: Wording): string {
    w.references([w.sameLine("b", "a")])
  }

  lemma TwoCandidates(m: Memory, w: Wording, content: string)
    requires OwnerAndReference(m, content)
    ensures Candidates(m, w, 3) == [BudgetItem("file:a", OwnerText(w, content), High), BudgetItem("sent-refs", ListText(w), High)]
  {
    var entries := m.bundle.entries;
    TwoParts(entries);
    assert FullItem(m, w, OwnerItem(content)) == BudgetItem("file:a", OwnerText(w, content), High);
    assert AllOffered(m, w, 3) == [FullItem(m, w, OwnerItem(content))] by {
      assert Offered(m, w, [entries[0]], 0, 1) == [FullItem(m, w, OwnerItem(content))];
    }
    assert AllLines(m, w, 3) == [w.sameLine("b", "a")] by {
      assert SentLines(m, w, [entries[0]], 0, 1) == [];
      assert SameLines(m, w, [entries[1]], 1) == [w.sameLine("b", "a")];
    }
  }

  lemma TwoParts(entries: seq<Entry>)
    requires |entries| == 2 && IsBody(entries[0]) && entries[1].isReference && !entries[0].isReference
    ensures Bodies(entries) == [entries[0]] && References(entries) == [entries[1]]
  {
    assert entries[1..][1..] == [];
    assert Bodies(entries[1..]) == [] && References(entries[1..]) == [entries[1]];
  }

  lemma TotalOfTwo(x: nat, y: nat)
    ensures Total([x, y]) == x + y
  {
    var t: seq<nat> := [x, y];
    var id := (n: nat) => n;
    assert t[1..] == [y] && t[1..][1..] == [];
    assert SumBy(t[1..], id) == id(y) + SumBy(t[1..][1..], id) == y;
    assert SumBy(t, id) == id(x) + SumBy(t[1..], id);
  }

  /** Of two items that do not fit together the larger goes. */
  lemma LargerGoes(a: BudgetItem, b: BudgetItem, est: Estimator, limit: nat)
    requires a.tier == High == b.tier && est(b.text) < est(a.text)
    requires est(b.text) <= limit < est(a.text) + est(b.text)
    ensures Pack.Packed([a, b], est, None, limit).kept == [b]
  {
    var items, toks := [a, b], Tokens([a, b], est);
    SacrificeOrderIs(items, toks);
    OrderUnique(items, toks, SacrificeOrder(items, toks), [0, 1]);
    TotalOfTwo(est(a.text), est(b.text));
    assert toks == [est(a.text), est(b.text)];
    assert [0, 1][1..] == [1];
    assert Dropping(toks, [1], est(b.text), limit) == [];
    assert Dropped(items, toks, limit) == [0];
    Pack.SummariesOnlyShorten(items, est, None, limit, [0]);
    assert Pack.Keep(items, [0], 0) == [] && Pack.Keep(items, [0], 1) == [];
    assert Pack.Keep(items, [0], 2) == [items[1]];
  }

  /**
   * In any wording, when the list of references fits the window and the body does not: the first prompt after two
   * reads of one content is the list alone, and the owner it refers to has not been shown.
   */
  lemma OwnerNeverShown(w: Wording, content: string, maxTokens: int)
    requires maxTokens > 0 && Est(ListText(w)) <= PromptBudget(maxTokens) < Est(OwnerText(w, content))
    ensures OwnerAndReference(Twice(w, content), content)
    ensures var after := AfterPrompt(Twice(w, content), w, maxTokens, 3);
      && after.prompts == [[BudgetItem("sent-refs", ListText(w), High)]]
      && !ShownInFull(after.prompts, w, OwnerItem(content))
  {
    TwoEntries(w, content);
    OnlyReferencesSent(Twice(w, content), w, content, maxTokens);
  }

  lemma OnlyReferencesSent(m: Memory, w: Wording, content: string, maxTokens: int)
    requires OwnerAndReference(m, content)
    requires maxTokens > 0 && Est(ListText(w)) <= PromptBudget(maxTokens) < Est(OwnerText(w, content))
    ensures var after := AfterPrompt(m, w, maxTokens, 3);
      && after.prompts == [[BudgetItem("sent-refs", ListText(w), High)]]
      && !ShownInFull(after.prompts, w, OwnerItem(content))
  {
    TwoCandidates(m, w, content);
    var a, b := BudgetItem("file:a", OwnerText(w, content), High), BudgetItem("sent-refs", ListText(w), High);
    LargerGoes(a, b, Est, PromptBudget(maxTokens));
    assert PackedPrompt(m, w, maxTokens, 3).kept == [b];
    assert AfterPrompt(m, w, maxTokens, 3).prompts == [[b]];
    ListShowsNothing(w, b, OwnerItem(content));
  }

  lemma ListShowsNothing(w: Wording, list: BudgetItem, item: Item)
    requires list.key == "sent-refs" && item.kind == "file"
    ensures !ShownInFull([[list]], w, item)
  {
    assert list.key[0] == 's' && KeyOf(item)[0] == 'f';
  }

  // ---- with the wording of the source ---------------------------------------------------------

  /** The sentence above the list, and a line of it. */
  const ListSentence := "📎 [سبق إرساله — متاح لديك من الجولات السابقة، لم يُكرَّر]:\n"

  function SameLine(display: string, owner: string): string {
    display + " (مطابق لـ " + owner + ")"
  }

  /** The wording of the source in what matters here: the list as it is, and bodies that hold their content. */
  ghost predicate SourceWording(w: Wording) {
    && (forall line :: w.references([line]) == ListSentence + line + "\n")
    && (forall display, owner :: w.sameLine(display, owner) == SameLine(display, owner))
    && (forall kind, display, success, content :: |w.body(kind, display, success, content)| >= |content|)
  }

  /** With it, and a window of a hundred tokens or more, any content of four characters a token of the window will do. */
  lemma OwnerNeverShownInSource(w: Wording, content: string, maxTokens: int)
    requires SourceWording(w) && maxTokens >= 100 && |content| >= 4 * maxTokens
    ensures var after := AfterPrompt(Twice(w, content), w, maxTokens, 3);
      && after.prompts == [[BudgetItem("sent-refs", ListText(w), High)]]
      && !ShownInFull(after.prompts, w, OwnerItem(content))
  {
    ListIsShort(w);
    WindowBounds(maxTokens);
    assert |OwnerText(w, content)| >= |content|;
    OwnerNeverShown(w, content, maxTokens);
  }

  lemma ListIsShort(w: Wording)
    requires SourceWording(w)
    ensures Est(ListText(w)) <= 50
  {
    assert ListText(w) == ListSentence + SameLine("b", "a") + "\n";
    assert |ListSentence| <= 100 && |SameLine("b", "a")| <= 20;
  }

  lemma WindowBounds(maxTokens: int)
    requires maxTokens >= 100
    ensures 50 <= PromptBudget(maxTokens) < maxTokens
  {
    var usable := (maxTokens as real) * (1.0 - 0.1);
    assert usable >= 90.0 && usable < maxTokens as real;
  }
}
