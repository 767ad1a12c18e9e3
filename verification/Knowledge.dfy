/** What an agent has learnt and what it has been sent of it (chain/knowledge.py). */
module Knowledge {
  import opened Collections
  import opened Text
  import opened Budget
  import opened Bundle
  import Pack

  const Kinds := {"file", "dir", "search", "command"}
  const Reserved := {"sent-refs", "observations", "errors"}

  /** How things are worded in a prompt. */
  datatype Wording = Wording(
    header: string -> string,
    body: (string, string, bool, string) -> string,
    sentLine: (string, string) -> string,
    sameLine: (string, string) -> string,
    references: seq<string> -> string,
    observations: seq<string> -> string,
    errors: seq<string> -> string,
    droppedNote: (nat, nat) -> string)

  datatype ToolResult = ToolResult(tool: string, args: map<string, string>, result: string, success: bool, iteration: nat)

  datatype Meta = Meta(display: string, success: bool, iteration: nat)

  /** `prompts` are the packed items of the prompts returned so far; nothing computes with them. */
  datatype Memory = Memory(
    bundle: Bundle,
    meta: map<Identity, Meta>,
    lastContent: map<Identity, string>,
    revisions: map<Identity, nat>,
    sent: set<string>,
    results: seq<ToolResult>,
    observations: seq<string>,
    errors: seq<string>,
    iteration: nat,
    prompts: seq<seq<BudgetItem>>)

  const Blank := Memory(Nothing, map[], map[], map[], {}, [], [], [], 0, [])

  // ---- recording a tool result ----------------------------------------------------------------

  function KindOf(tool: string): (kind: Option<string>)
    ensures kind.Some? ==> kind.value in Kinds
  {
    if tool in {"read_file", "auto_file", "auto_tree", "auto_deps", "auto_info"} then Some("file")
    else if tool in {"list_dir", "auto_dir"} then Some("dir")
    else if tool in {"search_code", "auto_search"} then Some("search")
    else if tool == "run_command" then Some("command")
    else None
  }

  function ArgOr(args: map<string, string>, name: string, otherwise: string): string {
    if name in args && args[name] != "" then args[name] else otherwise
  }

  function DisplayOf(tool: string, args: map<string, string>): string {
    ArgOr(args, "path", ArgOr(args, "query", ArgOr(args, "command", ArgOr(args, "source", tool))))
  }

  function RevisionOf(m: Memory, base: Identity): nat {
    if base in m.revisions then m.revisions[base] else 0
  }

  /** The path under which the next content of `base` is entered. */
  function PathFor(m: Memory, base: Identity): string {
    if base in m.lastContent then base.1 + "@r" + Decimal(RevisionOf(m, base) + 1) else base.1
  }

  function Recorded(m: Memory, base: Identity, content: string, success: bool): Memory {
    if base in m.lastContent && m.lastContent[base] == content then m
    else
      var item := Item(base.0, PathFor(m, base), Some(content));
      m.(bundle := Added(m.bundle, item),
         revisions := if base in m.lastContent then m.revisions[base := RevisionOf(m, base) + 1] else m.revisions,
         lastContent := m.lastContent[base := content],
         meta := m.meta[item.Key() := Meta(base.1, success, m.iteration)])
  }

  function WithResult(m: Memory, tool: string, args: map<string, string>, result: string, success: bool): Memory {
    var logged := m.(results := m.results + [ToolResult(tool, args, result, success, m.iteration)]);
    var kind := KindOf(tool);
    if kind.None? || (!success && kind.value != "command") then logged
    else Recorded(logged, (kind.value, DisplayOf(tool, args)), result, success)
  }

  // ---- what a prompt is made of ---------------------------------------------------------------

  function KeyOf(item: Item): string {
    item.kind + ":" + item.path
  }

  predicate IsBody(e: Entry) {
    e.item.content.Some? && !e.isReference
  }

  function Bodies(entries: seq<Entry>): (r: seq<Entry>)
    ensures forall e :: e in r <==> e in entries && IsBody(e)
  {
    if entries == [] then [] else (if IsBody(entries[0]) then [entries[0]] else []) + Bodies(entries[1..])
  }

  function References(entries: seq<Entry>): seq<Entry> {
    if entries == [] then [] else (if entries[0].isReference then [entries[0]] else []) + References(entries[1..])
  }

  function Display(m: Memory, item: Item): string {
    if item.Key() in m.meta then m.meta[item.Key()].display else item.path
  }

  function Succeeded(m: Memory, item: Item): bool {
    if item.Key() in m.meta then m.meta[item.Key()].success else true
  }

  function FullText(w: Wording, item: Item, display: string, success: bool): string {
    w.header(item.kind) + w.body(item.kind, display, success, if item.content.Some? then item.content.value else "")
  }

  function FullItem(m: Memory, w: Wording, item: Item): (it: BudgetItem)
    ensures it.key == KeyOf(item)
  {
    BudgetItem(KeyOf(item), FullText(w, item, Display(m, item), Succeeded(m, item)),
               if item.kind in {"file", "command"} then High else Normal)
  }

  /** Sent before and not recent: only referred to. */
  predicate ReferredTo(m: Memory, bodies: seq<Entry>, idx: nat, cutoff: int)
    requires idx < |bodies|
  {
    KeyOf(bodies[idx].item) in m.sent && idx < cutoff
  }

  function Offered(m: Memory, w: Wording, bodies: seq<Entry>, cutoff: int, n: nat): seq<BudgetItem>
    requires n <= |bodies|
  {
    if n == 0 then []
    else Offered(m, w, bodies, cutoff, n - 1)
         + if ReferredTo(m, bodies, n - 1, cutoff) then [] else [FullItem(m, w, bodies[n - 1].item)]
  }

  function SentLines(m: Memory, w: Wording, bodies: seq<Entry>, cutoff: int, n: nat): seq<string>
    requires n <= |bodies|
  {
    if n == 0 then []
    else SentLines(m, w, bodies, cutoff, n - 1)
         + if ReferredTo(m, bodies, n - 1, cutoff)
           then [w.sentLine(Display(m, bodies[n - 1].item),
                            if bodies[n - 1].item.content.Some? then bodies[n - 1].item.content.value else "")]
           else []
  }

  function SameLines(m: Memory, w: Wording, refs: seq<Entry>, n: nat): seq<string>
    requires n <= |refs|
  {
    if n == 0 then []
    else SameLines(m, w, refs, n - 1)
         + [w.sameLine(Display(m, refs[n - 1].item), if refs[n - 1].duplicateOf.Some? then refs[n - 1].duplicateOf.value else "")]
  }

  function LastN(s: seq<string>, n: nat): seq<string> {
    if |s| <= n then s else s[|s| - n..]
  }

  function Core(m: Memory, w: Wording): (r: seq<BudgetItem>)
    ensures forall it | it in r :: it.key in Reserved
  {
    (if m.observations == [] then [] else [BudgetItem("observations", w.observations(LastN(m.observations, 10)), High)])
    + (if m.errors == [] then [] else [BudgetItem("errors", w.errors(LastN(m.errors, 5)), High)])
  }

  function RefsItem(w: Wording, lines: seq<string>): (r: seq<BudgetItem>)
    ensures forall it | it in r :: it.key in Reserved
  {
    if lines == [] then [] else [BudgetItem("sent-refs", w.references(lines), High)]
  }

  function Cutoff(bodies: seq<Entry>, recentK: int): int {
    Max(0, |bodies| - Max(recentK, 0))
  }

  /** The bodies the next prompt offers in full. */
  function AllOffered(m: Memory, w: Wording, recentK: int): seq<BudgetItem> {
    var bodies := Bodies(m.bundle.entries);
    Offered(m, w, bodies, Cutoff(bodies, recentK), |bodies|)
  }

  /** The lines for what is only referred to. */
  function AllLines(m: Memory, w: Wording, recentK: int): seq<string> {
    var bodies, refs := Bodies(m.bundle.entries), References(m.bundle.entries);
    SentLines(m, w, bodies, Cutoff(bodies, recentK), |bodies|) + SameLines(m, w, refs, |refs|)
  }

  function Candidates(m: Memory, w: Wording, recentK: int): seq<BudgetItem> {
    AllOffered(m, w, recentK) + RefsItem(w, AllLines(m, w, recentK)) + Core(m, w)
  }

  function HasKnowledge(m: Memory): bool {
    m.bundle.entries != [] || m.results != [] || m.observations != [] || m.errors != []
  }

  function Est(text: string): nat {
    Estimate(4, text)
  }

  /** The default safety margin, with nothing reserved for output. */
  function PromptBudget(maxTokens: int): nat
    requires maxTokens > 0
  {
    ContextBudget(maxTokens, 0, 0.1).BudgetTokens()
  }

  function PackedPrompt(m: Memory, w: Wording, maxTokens: int, recentK: int): Pack.PackResult
    requires maxTokens > 0
  {
    Pack.Packed(Candidates(m, w, recentK), Est, None, PromptBudget(maxTokens))
  }

  predicate HasKey(items: seq<BudgetItem>, key: string) {
    exists j :: 0 <= j < |items| && items[j].key == key
  }

  function Surviving(offered: seq<BudgetItem>, kept: seq<BudgetItem>): set<string> {
    set it | it in offered && HasKey(kept, it.key) :: it.key
  }

  function Delivered(m: Memory, offered: seq<BudgetItem>, kept: seq<BudgetItem>): Memory {
    m.(sent := m.sent + Surviving(offered, kept), prompts := m.prompts + [kept])
  }

  /** What building a prompt changes: the bodies that survived packing are marked as sent. */
  function AfterPrompt(m: Memory, w: Wording, maxTokens: int, recentK: int): Memory {
    if !HasKnowledge(m) || maxTokens <= 0 then m
    else Delivered(m, AllOffered(m, w, recentK), PackedPrompt(m, w, maxTokens, recentK).kept)
  }

  function PackedText(w: Wording, packed: Pack.PackResult): string {
    Join("\n", Pack.Texts(packed.kept))
    + if packed.dropped == [] then "" else w.droppedNote(|packed.dropped|, packed.budgetTokens)
  }

  /** The text of the prompt; a window that is not positive is refused once there is anything to say. */
  function PromptText(m: Memory, w: Wording, maxTokens: int, recentK: int): Option<string> {
    if !HasKnowledge(m) then Some("")
    else if maxTokens <= 0 then None
    else
      Some(PackedText(w, PackedPrompt(m, w, maxTokens, recentK)))
  }

  // ---- what always holds ----------------------------------------------------------------------

  ghost predicate InFull(w: Wording, it: BudgetItem, item: Item) {
    it.key == KeyOf(item) && exists display, success :: it.text == FullText(w, item, display, success)
  }

  /** The full body of this item was in one of the prompts. */
  ghost predicate ShownInFull(prompts: seq<seq<BudgetItem>>, w: Wording, item: Item) {
    exists p, j :: 0 <= p < |prompts| && 0 <= j < |prompts[p]| && InFull(w, prompts[p][j], item)
  }

  ghost predicate KindsOk(b: Bundle) {
    forall k :: 0 <= k < |b.entries| ==> b.entries[k].item.kind in Kinds && b.entries[k].item.content.Some?
  }

  ghost predicate PromptKeys(m: Memory) {
    forall p, j :: 0 <= p < |m.prompts| && 0 <= j < |m.prompts[p]| ==>
      m.prompts[p][j].key in m.sent || m.prompts[p][j].key in Reserved
  }

  ghost predicate SentShown(m: Memory, w: Wording) {
    forall e :: e in m.bundle.entries && IsBody(e) && KeyOf(e.item) in m.sent ==> ShownInFull(m.prompts, w, e.item)
  }

  ghost predicate SentKnown(m: Memory) {
    forall key :: key in m.sent ==> Known(m.bundle.entries, key)
  }

  ghost predicate Known(entries: seq<Entry>, key: string) {
    exists e :: e in entries && IsBody(e) && KeyOf(e.item) == key
  }

  ghost predicate Inv(m: Memory, w: Wording) {
    Ok(m.bundle) && KindsOk(m.bundle) && PromptKeys(m) && SentShown(m, w) && SentKnown(m)
  }

  /** A key tells kind and path apart, and is none of the reserved ones. */
  lemma KeysTellApart(a: Item, b: Item)
    requires a.kind in Kinds && b.kind in Kinds
    ensures KeyOf(a) == KeyOf(b) <==> a.Key() == b.Key()
    ensures KeyOf(a) !in Reserved
  {
    if KeyOf(a) == KeyOf(b) {
      assert KeyOf(a)[0] == a.kind[0] && KeyOf(b)[0] == b.kind[0];
      assert a.kind == b.kind;
      assert KeyOf(a)[|a.kind| + 1..] == a.path && KeyOf(b)[|b.kind| + 1..] == b.path;
    }
    assert KeyOf(a)[0] == a.kind[0] && KeyOf(a)[2] == a.kind[2] && KeyOf(a)[3] == (a.kind + ":")[3];
  }

  lemma SameEntry(b: Bundle, d: Entry, e: Entry)
    requires SeenOk(b) && KindsOk(b) && d in b.entries && e in b.entries && KeyOf(d.item) == KeyOf(e.item)
    ensures d == e
  {
    KeysTellApart(d.item, e.item);
    var j :| 0 <= j < |b.entries| && b.entries[j] == d;
    var k :| 0 <= k < |b.entries| && b.entries[k] == e;
    assert !(j < k) && !(k < j);
  }

  lemma RecordKeepsInv(m: Memory, w: Wording, base: Identity, content: string, success: bool)
    requires Inv(m, w) && base.0 in Kinds
    ensures Inv(Recorded(m, base, content, success), w)
  {
    var r := Recorded(m, base, content, success);
    var item := Item(base.0, PathFor(m, base), Some(content));
    if r != m {
      AddKeepsOk(m.bundle, item);
      if item.Key() !in m.bundle.seen {
        forall e | e in r.bundle.entries && IsBody(e) && KeyOf(e.item) in r.sent
          ensures ShownInFull(r.prompts, w, e.item)
        {
          if e !in m.bundle.entries {
            assert e.item == item && Known(m.bundle.entries, KeyOf(item));
            var d :| d in m.bundle.entries && IsBody(d) && KeyOf(d.item) == KeyOf(item);
            KeysTellApart(d.item, item);
            assert false;
          }
        }
        assert forall e | e in m.bundle.entries :: e in r.bundle.entries;
      }
    }
  }

  lemma {:induction false} OfferedAre(m: Memory, w: Wording, bodies: seq<Entry>, cutoff: int, n: nat)
    requires n <= |bodies|
    ensures forall it :: it in Offered(m, w, bodies, cutoff, n) <==>
      exists idx :: 0 <= idx < n && !ReferredTo(m, bodies, idx, cutoff) && it == FullItem(m, w, bodies[idx].item)
  {
    if n > 0 {
      OfferedAre(m, w, bodies, cutoff, n - 1);
    }
  }

  lemma KeptBodyIsOffered(m: Memory, w: Wording, recentK: int, it: BudgetItem, e: Entry)
    requires KindsOk(m.bundle) && e in m.bundle.entries
    requires it in Candidates(m, w, recentK) && it.key == KeyOf(e.item)
    ensures var bodies := Bodies(m.bundle.entries);
      it in Offered(m, w, bodies, Cutoff(bodies, recentK), |bodies|)
  {
    KeysTellApart(e.item, e.item);
    CandidatesAre(m, w, recentK, it);
  }

  /** A kept item that bears the key of a body is that body in full. */
  lemma KeptBodyIsFull(m: Memory, w: Wording, recentK: int, it: BudgetItem, e: Entry)
    requires SeenOk(m.bundle) && KindsOk(m.bundle) && e in m.bundle.entries && IsBody(e)
    requires it in Candidates(m, w, recentK) && it.key == KeyOf(e.item)
    ensures it == FullItem(m, w, e.item)
  {
    var bodies := Bodies(m.bundle.entries);
    var cutoff := Cutoff(bodies, recentK);
    assert it in Offered(m, w, bodies, cutoff, |bodies|) by {
      KeptBodyIsOffered(m, w, recentK, it, e);
    }
    OfferedAre(m, w, bodies, cutoff, |bodies|);
    var idx :| 0 <= idx < |bodies| && it == FullItem(m, w, bodies[idx].item);
    var d := bodies[idx];
    assert d in bodies;
    assert d in m.bundle.entries;
    assert it == FullItem(m, w, d.item);
    assert FullItem(m, w, d.item).key == KeyOf(d.item);
    SameEntry(m.bundle, d, e);
  }

  lemma KeptAreCandidates(m: Memory, w: Wording, maxTokens: int, recentK: int)
    requires maxTokens > 0
    ensures forall it :: it in PackedPrompt(m, w, maxTokens, recentK).kept ==> it in Candidates(m, w, recentK)
  {
    var items := Candidates(m, w, recentK);
    var limit := PromptBudget(maxTokens);
    var gone := Dropped(items, Tokens(items, Est), limit);
    Pack.SummariesOnlyShorten(items, Est, None, limit, gone);
    Pack.KeepMembers(items, gone, |items|);
  }

  /** Every candidate is a body of the bundle in full or one of the reserved items. */
  lemma CandidatesAre(m: Memory, w: Wording, recentK: int, it: BudgetItem)
    requires it in Candidates(m, w, recentK)
    ensures var bodies := Bodies(m.bundle.entries);
      it in Offered(m, w, bodies, Cutoff(bodies, recentK), |bodies|) || it.key in Reserved
  {
  }

  lemma PromptKeepsPromptKeys(m: Memory, w: Wording, maxTokens: int, recentK: int)
    requires Inv(m, w)
    ensures PromptKeys(AfterPrompt(m, w, maxTokens, recentK))
  {
    if HasKnowledge(m) && maxTokens > 0 {
      var after := AfterPrompt(m, w, maxTokens, recentK);
      KeptAreCandidates(m, w, maxTokens, recentK);
      var kept := after.prompts[|m.prompts|];
      forall j | 0 <= j < |kept| ensures kept[j].key in after.sent || kept[j].key in Reserved {
        assert kept[j] in kept;
        CandidatesAre(m, w, recentK, kept[j]);
      }
    }
  }

  lemma PromptKeepsSentShown(m: Memory, w: Wording, maxTokens: int, recentK: int)
    requires Inv(m, w)
    ensures SentShown(AfterPrompt(m, w, maxTokens, recentK), w)
  {
    if HasKnowledge(m) && maxTokens > 0 {
      var after := AfterPrompt(m, w, maxTokens, recentK);
      KeptAreCandidates(m, w, maxTokens, recentK);
      var kept := after.prompts[|m.prompts|];
      forall e | e in after.bundle.entries && IsBody(e) && KeyOf(e.item) in after.sent
        ensures ShownInFull(after.prompts, w, e.item)
      {
        if KeyOf(e.item) in m.sent {
          ShownGrows(m.prompts, kept, w, e.item);
        } else {
          var j :| 0 <= j < |kept| && kept[j].key == KeyOf(e.item);
          assert kept[j] in kept;
          KeptBodyIsFull(m, w, recentK, kept[j], e);
          assert kept[j].text == FullText(w, e.item, Display(m, e.item), Succeeded(m, e.item));
          assert InFull(w, after.prompts[|m.prompts|][j], e.item);
        }
      }
    }
  }

  lemma ShownGrows(prompts: seq<seq<BudgetItem>>, kept: seq<BudgetItem>, w: Wording, item: Item)
    requires ShownInFull(prompts, w, item)
    ensures ShownInFull(prompts + [kept], w, item)
  {
    var p, j :| 0 <= p < |prompts| && 0 <= j < |prompts[p]| && InFull(w, prompts[p][j], item);
    assert InFull(w, (prompts + [kept])[p][j], item);
  }

  lemma OfferedKnown(m: Memory, w: Wording, cutoff: int, it: BudgetItem)
    requires it in Offered(m, w, Bodies(m.bundle.entries), cutoff, |Bodies(m.bundle.entries)|)
    ensures Known(m.bundle.entries, it.key)
  {
    var bodies := Bodies(m.bundle.entries);
    OfferedAre(m, w, bodies, cutoff, |bodies|);
    var idx :| 0 <= idx < |bodies| && it == FullItem(m, w, bodies[idx].item);
    assert bodies[idx] in bodies;
  }

  lemma PromptKeepsSentKnown(m: Memory, w: Wording, maxTokens: int, recentK: int)
    requires Inv(m, w)
    ensures SentKnown(AfterPrompt(m, w, maxTokens, recentK))
  {
    if HasKnowledge(m) && maxTokens > 0 {
      var after := AfterPrompt(m, w, maxTokens, recentK);
      var bodies := Bodies(m.bundle.entries);
      forall key | key in after.sent ensures Known(m.bundle.entries, key) {
        if key !in m.sent {
          var it :| it in Offered(m, w, bodies, Cutoff(bodies, recentK), |bodies|) && it.key == key;
          OfferedKnown(m, w, Cutoff(bodies, recentK), it);
        }
      }
    }
  }

  // ---- over whole sessions --------------------------------------------------------------------

  datatype Op =
    | Result(tool: string, args: map<string, string>, result: string, success: bool)
    | Observe(text: string)
    | Fail(text: string)
    | NextIteration
    | Prompt(maxTokens: int, recentK: int)
    | Clear

  function Step(m: Memory, w: Wording, op: Op): Memory {
    match op
    case Result(tool, args, result, success) => WithResult(m, tool, args, result, success)
    case Observe(text) => m.(observations := m.observations + [text])
    case Fail(text) => m.(errors := m.errors + [text])
    case NextIteration => m.(iteration := m.iteration + 1)
    case Prompt(maxTokens, recentK) => AfterPrompt(m, w, maxTokens, recentK)
    case Clear => Blank
  }

  function Run(m: Memory, w: Wording, ops: seq<Op>): Memory
    decreases |ops|
  {
    if ops == [] then m else Run(Step(m, w, ops[0]), w, ops[1..])
  }

  lemma ResultKeepsInv(m: Memory, w: Wording, tool: string, args: map<string, string>, result: string, success: bool)
    requires Inv(m, w)
    ensures Inv(WithResult(m, tool, args, result, success), w)
  {
    var kind := KindOf(tool);
    if kind.Some? {
      var logged := m.(results := m.results + [ToolResult(tool, args, result, success, m.iteration)]);
      assert Inv(logged, w);
      RecordKeepsInv(logged, w, (kind.value, DisplayOf(tool, args)), result, success);
    }
  }

  lemma StepKeepsInv(m: Memory, w: Wording, op: Op)
    requires Inv(m, w)
    ensures Inv(Step(m, w, op), w)
  {
    match op
    case Result(tool, args, result, success) => ResultKeepsInv(m, w, tool, args, result, success);
    case Prompt(maxTokens, recentK) =>
      PromptKeepsPromptKeys(m, w, maxTokens, recentK);
      PromptKeepsSentShown(m, w, maxTokens, recentK);
      PromptKeepsSentKnown(m, w, maxTokens, recentK);
    case _ =>
  }

  lemma {:induction false} RunKeepsInv(m: Memory, w: Wording, ops: seq<Op>)
    requires Inv(m, w)
    ensures Inv(Run(m, w, ops), w)
    decreases |ops|
  {
    if ops != [] {
      StepKeepsInv(m, w, ops[0]);
      RunKeepsInv(Step(m, w, ops[0]), w, ops[1..]);
    }
  }

  /** After any session, a body counts as sent exactly when it was shown in full. */
  lemma SentIffShown(w: Wording, ops: seq<Op>, e: Entry)
    requires e in Run(Blank, w, ops).bundle.entries && IsBody(e)
    ensures KeyOf(e.item) in Run(Blank, w, ops).sent <==> ShownInFull(Run(Blank, w, ops).prompts, w, e.item)
  {
    var m := Run(Blank, w, ops);
    RunKeepsInv(Blank, w, ops);
    KeysTellApart(e.item, e.item);
    if ShownInFull(m.prompts, w, e.item) {
      var p, j :| 0 <= p < |m.prompts| && 0 <= j < |m.prompts[p]| && InFull(w, m.prompts[p][j], e.item);
    }
  }

  /**
   * After any session, for the next prompt: a body that is only referred to was shown in full before,
   * and one that is not referred to, in particular every body never shown, is offered in full.
   */
  lemma DeltaRefersToSeen(w: Wording, ops: seq<Op>, recentK: int, idx: nat)
    requires idx < |Bodies(Run(Blank, w, ops).bundle.entries)|
    ensures var m := Run(Blank, w, ops);
      var bodies := Bodies(m.bundle.entries);
      var e := bodies[idx];
      && (ReferredTo(m, bodies, idx, Cutoff(bodies, recentK)) ==> ShownInFull(m.prompts, w, e.item))
      && (!ReferredTo(m, bodies, idx, Cutoff(bodies, recentK)) <==> FullItem(m, w, e.item) in Candidates(m, w, recentK))
      && (!ShownInFull(m.prompts, w, e.item) ==> FullItem(m, w, e.item) in Candidates(m, w, recentK))
  {
    var m := Run(Blank, w, ops);
    RunKeepsInv(Blank, w, ops);
    var bodies := Bodies(m.bundle.entries);
    var cutoff := Cutoff(bodies, recentK);
    var e := bodies[idx];
    assert e in bodies;
    SentIffShown(w, ops, e);
    OfferedAre(m, w, bodies, cutoff, |bodies|);
    KeysTellApart(e.item, e.item);
    if ReferredTo(m, bodies, idx, cutoff) && FullItem(m, w, e.item) in Candidates(m, w, recentK) {
      CandidatesAre(m, w, recentK, FullItem(m, w, e.item));
      var other :| 0 <= other < |bodies| && !ReferredTo(m, bodies, other, cutoff)
                   && FullItem(m, w, e.item) == FullItem(m, w, bodies[other].item);
      assert bodies[other] in bodies;
      SameEntry(m.bundle, e, bodies[other]);
      assert KeyOf(bodies[other].item) in m.sent;
      BodiesDistinct(m.bundle.entries, Min(idx, other), Max(idx, other));
      assert false;
    }
  }

  lemma {:induction false} BodiesDistinct(entries: seq<Entry>, i: nat, j: nat)
    requires i < j < |Bodies(entries)|
    requires forall a, b :: 0 <= a < b < |entries| ==> entries[a].item.Key() != entries[b].item.Key()
    ensures Bodies(entries)[i] != Bodies(entries)[j]
  {
    var rest := Bodies(entries[1..]);
    if !IsBody(entries[0]) {
      BodiesDistinct(entries[1..], i, j);
    } else if i > 0 {
      BodiesDistinct(entries[1..], i - 1, j - 1);
    } else {
      assert rest[j - 1] in rest;
      var k :| 0 <= k < |entries[1..]| && entries[1..][k] == rest[j - 1];
      assert entries[0].item.Key() != entries[k + 1].item.Key();
    }
  }

  lemma KeptIsMarked(m: Memory, w: Wording, kept: seq<BudgetItem>, recentK: int, e: Entry)
    requires e in m.bundle.entries && IsBody(e) && KeyOf(e.item) !in m.sent && FullItem(m, w, e.item) in kept
    ensures KeyOf(e.item) in Surviving(AllOffered(m, w, recentK), kept)
  {
    var bodies := Bodies(m.bundle.entries);
    assert e in bodies;
    var idx :| 0 <= idx < |bodies| && bodies[idx] == e;
    OfferedAre(m, w, bodies, Cutoff(bodies, recentK), |bodies|);
    var j :| 0 <= j < |kept| && kept[j] == FullItem(m, w, e.item);
    assert kept[j].key == KeyOf(e.item) && HasKey(kept, KeyOf(e.item));
  }

  /** A body not yet sent becomes sent exactly when it survives packing; otherwise it is offered again. */
  lemma SentIffSurvived(m: Memory, w: Wording, maxTokens: int, recentK: int, e: Entry)
    requires Inv(m, w) && HasKnowledge(m) && maxTokens > 0
    requires e in m.bundle.entries && IsBody(e) && KeyOf(e.item) !in m.sent
    ensures KeyOf(e.item) in AfterPrompt(m, w, maxTokens, recentK).sent
            <==> FullItem(m, w, e.item) in PackedPrompt(m, w, maxTokens, recentK).kept
  {
    var kept := PackedPrompt(m, w, maxTokens, recentK).kept;
    KeptAreCandidates(m, w, maxTokens, recentK);
    if FullItem(m, w, e.item) in kept {
      KeptIsMarked(m, w, kept, recentK, e);
    }
    if KeyOf(e.item) in Surviving(AllOffered(m, w, recentK), kept) {
      var j :| 0 <= j < |kept| && kept[j].key == KeyOf(e.item);
      assert kept[j] in kept;
      KeptBodyIsFull(m, w, recentK, kept[j], e);
    }
  }

  // ---- whether a result reaches the bundle ----------------------------------------------------

  predicate CarriedBy(entries: seq<Entry>, content: string) {
    exists k :: 0 <= k < |entries| && entries[k].item.content == Some(content)
  }

  /** A new content enters the bundle unless its path is taken and no entry carries it yet. */
  lemma EntersIff(m: Memory, base: Identity, content: string, success: bool)
    requires !(base in m.lastContent && m.lastContent[base] == content)
    ensures CarriedBy(Recorded(m, base, content, success).bundle.entries, content)
            <==> CarriedBy(m.bundle.entries, content) || (base.0, PathFor(m, base)) !in m.bundle.seen
  {
    var entries, after := m.bundle.entries, Recorded(m, base, content, success).bundle.entries;
    if (base.0, PathFor(m, base)) !in m.bundle.seen {
      assert after[|entries|].item.content == Some(content);
    }
  }

  function Read(path: string, content: string): Op {
    Result("read_file", map["path" := path], content, true)
  }

  /** A file whose name looks like a revision swallows the next revision of another file. */
  lemma RevisionSwallowed(w: Wording)
    ensures var m := Run(Blank, w, [Read("x@r1", "A"), Read("x", "B"), Read("x", "C")]);
      && ("file", "x") in m.lastContent && m.lastContent[("file", "x")] == "C"
      && !CarriedBy(m.bundle.entries, "C")
  {
    var ops := [Read("x@r1", "A"), Read("x", "B"), Read("x", "C")];
    var m1 := Step(Blank, w, ops[0]);
    assert m1.bundle.entries == [Entry(Item("file", "x@r1", Some("A")), false, None)];
    var m2 := Step(m1, w, ops[1]);
    assert m2.bundle.entries == m1.bundle.entries + [Entry(Item("file", "x", Some("B")), false, None)];
    var m3 := Step(m2, w, ops[2]);
    assert Decimal(1) == "1" && PathFor(m2, ("file", "x")) == "x@r1";
    RunOfThree(Blank, w, ops);
  }

  lemma RunOfThree(m: Memory, w: Wording, ops: seq<Op>)
    requires |ops| == 3
    ensures Run(m, w, ops) == Step(Step(Step(m, w, ops[0]), w, ops[1]), w, ops[2])
  {
    assert ops[1..][1..] == [ops[2]] && [ops[2]][1..] == [];
    assert Run(Step(m, w, ops[0]), w, ops[1..]) == Run(Step(Step(m, w, ops[0]), w, ops[1]), w, [ops[2]]);
  }

  function Revised(base: Identity, n: nat): Identity {
    (base.0, base.1 + "@r" + Decimal(n))
  }

  ghost predicate PathOf(m: Memory, base: Identity, id: Identity) {
    id == base || exists n: nat :: 1 <= n <= RevisionOf(m, base) && id == Revised(base, n)
  }

  /** Every path in the bundle is a display or one of its counted revisions. */
  ghost predicate PathsOk(m: Memory) {
    && (forall id :: id in m.bundle.seen ==> exists base :: base in m.lastContent.Keys && PathOf(m, base, id))
    && (forall base :: base in m.lastContent.Keys ==> '@' !in base.1)
  }

  ghost predicate LatestCarried(m: Memory) {
    forall base :: base in m.lastContent.Keys ==> CarriedBy(m.bundle.entries, m.lastContent[base])
  }

  /** Where the first '@' is. */
  function MarkAt(s: string): nat {
    if s == "" || s[0] == '@' then 0 else 1 + MarkAt(s[1..])
  }

  lemma {:induction false} MarkAfter(a: string, rest: string)
    requires '@' !in a
    ensures MarkAt(a + "@" + rest) == |a| && '@' in a + "@" + rest
  {
    var s := a + "@" + rest;
    assert s[|a|] == '@';
    if a != "" {
      assert s[1..] == a[1..] + "@" + rest && s[0] == a[0];
      MarkAfter(a[1..], rest);
    }
  }

  lemma RevisedIsMarked(base: Identity, n: nat)
    requires '@' !in base.1
    ensures '@' in Revised(base, n).1
  {
    MarkAfter(base.1, "r" + Decimal(n));
    assert Revised(base, n).1 == base.1 + "@" + ("r" + Decimal(n));
  }

  lemma SuffixesApart(a: string, x: string, b: string, y: string)
    requires '@' !in a && '@' !in b && a + "@" + x == b + "@" + y
    ensures a == b && x == y
  {
    MarkAfter(a, x);
    MarkAfter(b, y);
    var s := a + "@" + x;
    assert s[..|a|] == a && s[|a| + 1..] == x;
    assert s[..|b|] == b && s[|b| + 1..] == y;
  }

  lemma RevisionsApart(a: Identity, m: nat, b: Identity, n: nat)
    requires '@' !in a.1 && '@' !in b.1 && Revised(a, m) == Revised(b, n)
    ensures a == b && m == n
  {
    assert a.1 + "@r" + Decimal(m) == a.1 + "@" + ("r" + Decimal(m));
    assert b.1 + "@r" + Decimal(n) == b.1 + "@" + ("r" + Decimal(n));
    SuffixesApart(a.1, "r" + Decimal(m), b.1, "r" + Decimal(n));
    assert ("r" + Decimal(m))[1..] == Decimal(m) && ("r" + Decimal(n))[1..] == Decimal(n);
    DecimalInjective(m, n);
  }

  lemma RevisionsDiffer(a: Identity, m: nat, b: Identity, n: nat)
    requires '@' !in a.1 && '@' !in b.1 && (a != b || m != n)
    ensures Revised(a, m) != Revised(b, n)
  {
    if Revised(a, m) == Revised(b, n) {
      RevisionsApart(a, m, b, n);
    }
  }

  /** A path in use is not the one the next content of `base` gets. */
  lemma OtherPath(m: Memory, base: Identity, other: Identity, id: Identity)
    requires other in m.lastContent.Keys && PathOf(m, other, id) && '@' !in other.1 && '@' !in base.1
    ensures id != (base.0, PathFor(m, base))
  {
    var next := RevisionOf(m, base) + 1;
    RevisedIsMarked(base, next);
    if id != other {
      var n: nat :| 1 <= n <= RevisionOf(m, other) && id == Revised(other, n);
      RevisedIsMarked(other, n);
      assert base != other || next != n;
      RevisionsDiffer(base, next, other, n);
    }
  }

  lemma PathIsFresh(m: Memory, base: Identity)
    requires PathsOk(m) && '@' !in base.1
    ensures (base.0, PathFor(m, base)) !in m.bundle.seen
  {
    forall id | id in m.bundle.seen ensures id != (base.0, PathFor(m, base)) {
      var other :| other in m.lastContent.Keys && PathOf(m, other, id);
      OtherPath(m, base, other, id);
    }
  }

  lemma RecordKeepsPaths(m: Memory, base: Identity, content: string, success: bool)
    requires PathsOk(m) && '@' !in base.1
    ensures PathsOk(Recorded(m, base, content, success))
  {
    var r := Recorded(m, base, content, success);
    if r != m {
      var path := (base.0, PathFor(m, base));
      forall id | id in r.bundle.seen ensures exists b :: b in r.lastContent.Keys && PathOf(r, b, id) {
        if id == path {
          if base in m.lastContent {
            assert id == Revised(base, RevisionOf(r, base));
          }
          assert PathOf(r, base, id);
        } else {
          var b :| b in m.lastContent.Keys && PathOf(m, b, id);
          if id != b {
            var n: nat :| 1 <= n <= RevisionOf(m, b) && id == Revised(b, n);
            assert n <= RevisionOf(r, b);
          }
          assert b in r.lastContent.Keys && PathOf(r, b, id);
        }
      }
    }
  }

  lemma RecordKeepsLatest(m: Memory, base: Identity, content: string, success: bool)
    requires PathsOk(m) && LatestCarried(m) && '@' !in base.1
    ensures LatestCarried(Recorded(m, base, content, success))
  {
    var r := Recorded(m, base, content, success);
    if r != m {
      PathIsFresh(m, base);
      EntersIff(m, base, content, success);
      assert forall c :: CarriedBy(m.bundle.entries, c) ==> CarriedBy(r.bundle.entries, c) by {
        assert forall k :: 0 <= k < |m.bundle.entries| ==> r.bundle.entries[k] == m.bundle.entries[k];
      }
    }
  }

  predicate PlainDisplays(ops: seq<Op>) {
    forall k :: 0 <= k < |ops| && ops[k].Result? ==> '@' !in DisplayOf(ops[k].tool, ops[k].args)
  }

  lemma {:induction false} RunKeepsLatest(m: Memory, w: Wording, ops: seq<Op>)
    requires PathsOk(m) && LatestCarried(m) && PlainDisplays(ops)
    ensures PathsOk(Run(m, w, ops)) && LatestCarried(Run(m, w, ops))
    decreases |ops|
  {
    if ops != [] {
      StepKeepsLatest(m, w, ops[0]);
      RunKeepsLatest(Step(m, w, ops[0]), w, ops[1..]);
    }
  }

  lemma StepKeepsLatest(m: Memory, w: Wording, op: Op)
    requires PathsOk(m) && LatestCarried(m) && (op.Result? ==> '@' !in DisplayOf(op.tool, op.args))
    ensures PathsOk(Step(m, w, op)) && LatestCarried(Step(m, w, op))
  {
    if op.Result? && KindOf(op.tool).Some? {
      var logged := m.(results := m.results + [ToolResult(op.tool, op.args, op.result, op.success, m.iteration)]);
      SameLatest(m, logged);
      RecordKeepsPaths(logged, (KindOf(op.tool).value, DisplayOf(op.tool, op.args)), op.result, op.success);
      RecordKeepsLatest(logged, (KindOf(op.tool).value, DisplayOf(op.tool, op.args)), op.result, op.success);
    } else if !op.Clear? {
      SameLatest(m, Step(m, w, op));
    }
  }

  lemma SameLatest(m: Memory, n: Memory)
    requires PathsOk(m) && LatestCarried(m)
    requires n.bundle == m.bundle && n.lastContent == m.lastContent && n.revisions == m.revisions
    ensures PathsOk(n) && LatestCarried(n)
  {
    assert forall base, id :: PathOf(m, base, id) ==> PathOf(n, base, id);
  }

  lemma LatestHasBody(m: Memory, base: Identity) returns (e: Entry)
    requires Ok(m.bundle) && LatestCarried(m) && base in m.lastContent
    ensures e in m.bundle.entries && IsBody(e) && e.item.content == Some(m.lastContent[base])
  {
    var content := m.lastContent[base];
    assert base in m.lastContent.Keys;
    var k :| 0 <= k < |m.bundle.entries| && m.bundle.entries[k].item.content == Some(content);
    OneOwner(m.bundle, k, content);
    var o :| 0 <= o <= k && Carries(m.bundle.entries[o], content) && !m.bundle.entries[o].isReference;
    e := m.bundle.entries[o];
  }

  /** Shown in full before, or offered in full now. */
  ghost predicate Reaches(m: Memory, w: Wording, recentK: int, e: Entry) {
    FullItem(m, w, e.item) in Candidates(m, w, recentK) || ShownInFull(m.prompts, w, e.item)
  }

  /**
   * When no display contains '@', after any session the latest content of every tool result is carried by
   * a body, which the next prompt offers in full unless an earlier one showed it in full.
   */
  lemma LatestReachesPrompts(w: Wording, ops: seq<Op>, base: Identity, recentK: int) returns (e: Entry)
    requires PlainDisplays(ops) && base in Run(Blank, w, ops).lastContent
    ensures e in Run(Blank, w, ops).bundle.entries && IsBody(e)
    ensures e.item.content == Some(Run(Blank, w, ops).lastContent[base])
    ensures Reaches(Run(Blank, w, ops), w, recentK, e)
  {
    RunKeepsLatest(Blank, w, ops);
    RunKeepsInv(Blank, w, ops);
    e := LatestHasBody(Run(Blank, w, ops), base);
    BodyReaches(w, ops, recentK, e);
  }

  lemma BodyReaches(w: Wording, ops: seq<Op>, recentK: int, e: Entry)
    requires e in Run(Blank, w, ops).bundle.entries && IsBody(e)
    ensures Reaches(Run(Blank, w, ops), w, recentK, e)
  {
    var bodies := Bodies(Run(Blank, w, ops).bundle.entries);
    assert e in bodies;
    var idx :| 0 <= idx < |bodies| && bodies[idx] == e;
    DeltaRefersToSeen(w, ops, recentK, idx);
  }
}
