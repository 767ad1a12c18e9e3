/** `KnowledgeAccumulator` as written (chain/knowledge.py), proved against the functions of Knowledge. */
module Accumulator {
  import opened Collections
  import opened Text
  import opened Budget
  import opened Bundle
  import opened Knowledge
  import Pack

  class KnowledgeAccumulator {
    var bundle: ContextBundle
    var meta: map<Identity, Meta>
    var lastContent: map<Identity, string>
    var revisions: map<Identity, nat>
    var sentKeys: set<string>
    var toolResults: seq<ToolResult>
    var observations: seq<string>
    var errors: seq<string>
    var iteration: nat
    ghost var prompts: seq<seq<BudgetItem>>
    const wording: Wording

    ghost function State(): Memory
      reads this, bundle
    {
      Memory(bundle.State(), meta, lastContent, revisions, sentKeys, toolResults, observations, errors, iteration, prompts)
    }

    constructor (w: Wording)
      ensures State() == Blank && wording == w && fresh(bundle)
    {
      wording := w;
      bundle := new ContextBundle();
      meta, lastContent, revisions, sentKeys := map[], map[], map[], {};
      toolResults, observations, errors, iteration, prompts := [], [], [], 0, [];
    }

    /** Enters a content unless it is the latest of its base; a changed one gets a revision path. */
    method Record(base: Identity, content: string, success: bool)
      modifies this, bundle
      ensures bundle == old(bundle) && State() == Recorded(old(State()), base, content, success)
    {
      if base in lastContent && lastContent[base] == content {
        return;
      }
      var path := base.1;
      if base in lastContent {
        revisions := revisions[base := (if base in revisions then revisions[base] else 0) + 1];
        path := base.1 + "@r" + Decimal(revisions[base]);
      }
      lastContent := lastContent[base := content];
      var item := Item(base.0, path, Some(content));
      var _ := bundle.Add(item);
      meta := meta[item.Key() := Meta(base.1, success, iteration)];
    }

    method AddToolResult(tool: string, args: map<string, string>, result: string, success: bool)
      modifies this, bundle
      ensures bundle == old(bundle)
      ensures State() == Step(old(State()), wording, Op.Result(tool, args, result, success))
    {
      toolResults := toolResults + [ToolResult(tool, args, result, success, iteration)];
      var kind := KindOf(tool);
      if kind.Some? && (success || kind.value == "command") {
        Record((kind.value, DisplayOf(tool, args)), result, success);
      }
    }

    method AddObservation(text: string)
      modifies this
      ensures bundle == old(bundle) && State() == Step(old(State()), wording, Observe(text))
    {
      observations := observations + [text];
    }

    method AddError(text: string)
      modifies this
      ensures bundle == old(bundle) && State() == Step(old(State()), wording, Fail(text))
    {
      errors := errors + [text];
    }

    method Advance()
      modifies this
      ensures bundle == old(bundle) && State() == Step(old(State()), wording, NextIteration)
    {
      iteration := iteration + 1;
    }

    method Forget()
      modifies this
      ensures fresh(bundle) && State() == Blank
    {
      bundle := new ContextBundle();
      meta, lastContent, revisions, sentKeys := map[], map[], map[], {};
      toolResults, observations, errors, iteration, prompts := [], [], [], 0, [];
    }

    /** The bodies to show and the lines for those only referred to. */
    method SortBodies(bodies: seq<Entry>, cutoff: int) returns (offered: seq<BudgetItem>, lines: seq<string>)
      ensures offered == Offered(State(), wording, bodies, cutoff, |bodies|)
      ensures lines == SentLines(State(), wording, bodies, cutoff, |bodies|)
    {
      offered, lines := [], [];
      for idx := 0 to |bodies|
        invariant offered == Offered(State(), wording, bodies, cutoff, idx)
        invariant lines == SentLines(State(), wording, bodies, cutoff, idx)
      {
        var item := bodies[idx].item;
        var display := if item.Key() in meta then meta[item.Key()].display else item.path;
        var content := if item.content.Some? then item.content.value else "";
        if KeyOf(item) in sentKeys && idx < cutoff {
          lines := lines + [wording.sentLine(display, content)];
        } else {
          var success := if item.Key() in meta then meta[item.Key()].success else true;
          var tier := if item.kind in {"file", "command"} then High else Normal;
          var text := wording.header(item.kind) + wording.body(item.kind, display, success, content);
          offered := offered + [BudgetItem(KeyOf(item), text, tier)];
        }
      }
    }

    method ReferenceLines(refs: seq<Entry>) returns (lines: seq<string>)
      ensures lines == SameLines(State(), wording, refs, |refs|)
    {
      lines := [];
      for k := 0 to |refs|
        invariant lines == SameLines(State(), wording, refs, k)
      {
        var item := refs[k].item;
        var display := if item.Key() in meta then meta[item.Key()].display else item.path;
        lines := lines + [wording.sameLine(display, if refs[k].duplicateOf.Some? then refs[k].duplicateOf.value else "")];
      }
    }

    /** The stable core: the latest observations and errors, in every prompt. */
    method StableCore() returns (items: seq<BudgetItem>)
      ensures items == Core(State(), wording)
    {
      items := [];
      if observations != [] {
        items := items + [BudgetItem("observations", wording.observations(LastN(observations, 10)), High)];
      }
      if errors != [] {
        items := items + [BudgetItem("errors", wording.errors(LastN(errors, 5)), High)];
      }
    }

    method BuildParts(recentK: int) returns (offered: seq<BudgetItem>, lines: seq<string>)
      ensures offered == AllOffered(State(), wording, recentK) && lines == AllLines(State(), wording, recentK)
    {
      var bodies := Bodies(bundle.entries);
      var sentLines;
      offered, sentLines := SortBodies(bodies, Max(0, |bodies| - Max(recentK, 0)));
      var sameLines := ReferenceLines(References(bundle.entries));
      lines := sentLines + sameLines;
    }

    method BuildCandidates(recentK: int) returns (candidates: seq<BudgetItem>, offered: seq<BudgetItem>)
      ensures candidates == Candidates(State(), wording, recentK)
      ensures offered == AllOffered(State(), wording, recentK)
    {
      var lines;
      offered, lines := BuildParts(recentK);
      var core := StableCore();
      candidates := offered + RefsItem(wording, lines) + core;
    }

    method MarkSent(offered: seq<BudgetItem>, kept: seq<BudgetItem>)
      modifies this
      ensures bundle == old(bundle) && State() == Delivered(old(State()), offered, kept)
    {
      sentKeys := sentKeys + Surviving(offered, kept);
      prompts := prompts + [kept];
    }

    /** The next prompt, or nothing when the window is not positive; only what survives packing is marked sent. */
    method BuildIterationContext(maxTokens: int, recentK: int) returns (context: Option<string>)
      modifies this
      ensures bundle == old(bundle)
      ensures State() == AfterPrompt(old(State()), wording, maxTokens, recentK)
      ensures context == PromptText(old(State()), wording, maxTokens, recentK)
    {
      if bundle.entries == [] && toolResults == [] && observations == [] && errors == [] {
        return Some("");
      }
      var candidates, offered := BuildCandidates(recentK);
      if maxTokens <= 0 {
        return None;
      }
      var packed := Pack.PackItems(candidates, Est, None, PromptBudget(maxTokens));
      MarkSent(offered, packed.kept);
      context := Some(PackedText(wording, packed));
    }
  }
}
