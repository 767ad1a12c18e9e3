/**
 * Writing prose, fenced code and tool blocks, and scanning the result (chain/agent_tools.py, prompts/core_system.md):
 * the scan finds exactly the tool blocks, in order, and nothing inside fences.
 */
module ToolRender {
  import opened Collections
  import opened Text
  import opened ToolArgs
  import opened ToolScan

  /** Inside a fence: ordinary lines, and whole tool blocks that are only quoted. */
  datatype Code = Line(text: string) | Quote(header: string, body: seq<string>)

  datatype Block =
    | Prose(lines: seq<string>)
    | Fenced(open: string, inside: seq<Code>, close: string)
    | Tool(name: string, items: seq<Item>, ticked: bool)

  // ---- what may stand where -------------------------------------------------------------------

  predicate CodeOk(g: Grammar, c: Code) {
    match c
    case Line(text) => OneLine(text) && !g.kind(g.trim(text)).FenceMark? && !TickedHead(g, text)
    case Quote(header, body) =>
      && OneLine(header) && TickedHead(g, header)
      && forall k :: 0 <= k < |body| ==> OneLine(body[k]) && !g.closesQuote(g.trim(body[k]))
  }

  predicate TickedHead(g: Grammar, line: string) {
    g.kind(g.trim(line)).ToolHead? && g.kind(g.trim(line)).ticked
  }

  /** The lines after the first of a text must not end the block. */
  predicate Fits(item: Item, ends: Ender) {
    item.value.Lines? ==> forall k :: 1 <= k < |item.value.lines| ==> ends(item.value.lines[k]).No?
  }

  /** A known tool and canonical arguments. */
  predicate ToolOk(d: Digits, name: string, items: seq<Item>, ticked: bool) {
    name in AllTools && AllCanonical(d, items) && forall k :: 0 <= k < |items| ==> Fits(items[k], Ends(ticked))
  }

  predicate BlockOk(d: Digits, g: Grammar, b: Block) {
    match b
    case Prose(lines) => forall k :: 0 <= k < |lines| ==> OneLine(lines[k]) && g.kind(g.trim(lines[k])).Other?
    case Fenced(open, inside, close) =>
      && OneLine(open) && OneLine(close) && g.kind(g.trim(open)).FenceMark? && g.kind(g.trim(close)).FenceMark?
      && forall k :: 0 <= k < |inside| ==> CodeOk(g, inside[k])
    case Tool(name, items, ticked) => ToolOk(d, name, items, ticked)
  }

  predicate AllOk(d: Digits, g: Grammar, blocks: seq<Block>) {
    forall k :: 0 <= k < |blocks| ==> BlockOk(d, g, blocks[k])
  }

  // ---- writing --------------------------------------------------------------------------------

  function PieceLines(c: Code): seq<string> {
    match c
    case Line(text) => [text]
    case Quote(header, body) => [header] + body + [Fence]
  }

  function CodeLines(inside: seq<Code>): seq<string> {
    if inside == [] then [] else PieceLines(inside[0]) + CodeLines(inside[1..])
  }

  function Header(name: string, ticked: bool): string {
    (if ticked then Ticked else Unticked) + " " + name
  }

  function Closer(ticked: bool): string {
    if ticked then Fence else ""
  }

  function BlockLines(b: Block): seq<string> {
    match b
    case Prose(lines) => lines
    case Fenced(open, inside, close) => [open] + CodeLines(inside) + [close]
    case Tool(name, items, ticked) => [Header(name, ticked)] + AllLines(items) + [Closer(ticked)]
  }

  function AllBlockLines(blocks: seq<Block>): seq<string> {
    if blocks == [] then [] else BlockLines(blocks[0]) + AllBlockLines(blocks[1..])
  }

  /** The answer as text. */
  function Render(blocks: seq<Block>): string {
    Unlines(AllBlockLines(blocks))
  }

  /** The calls that were written. */
  function WrittenIn(b: Block): seq<ToolCall> {
    match b
    case Tool(name, items, _) => [ToolCall(name, CollectAll(Empty, items).args, CollectAll(Empty, items).reason)]
    case _ => []
  }

  function Written(blocks: seq<Block>): seq<ToolCall> {
    if blocks == [] then [] else WrittenIn(blocks[0]) + Written(blocks[1..])
  }

  // ---- prose and fences -----------------------------------------------------------------------

  lemma TrimAppend(trim: string -> string, a: seq<string>, b: seq<string>)
    ensures Trim(trim, a + b) == Trim(trim, a) + Trim(trim, b)
  {
  }

  lemma TrimOne(trim: string -> string, line: string)
    ensures Trim(trim, [line]) == [trim(line)]
  {
  }

  lemma {:induction false} ProseScans(g: Grammar, lines: seq<string>, rest: seq<string>)
    requires forall k :: 0 <= k < |lines| ==> g.kind(lines[k]).Other?
    ensures Scan(g, lines + rest, false) == Scan(g, rest, false)
  {
    if lines == [] {
      assert lines + rest == rest;
    } else {
      assert (lines + rest)[1..] == lines[1..] + rest && (lines + rest)[0] == lines[0];
      ProseScans(g, lines[1..], rest);
    }
  }

  lemma {:induction false} QuoteSkipped(body: seq<string>, end: string, rest: seq<string>, closes: string -> bool)
    requires (forall k :: 0 <= k < |body| ==> !closes(body[k])) && closes(end)
    ensures AfterQuote(body + [end] + rest, closes) == rest
  {
    var lines := body + [end] + rest;
    if body == [] {
      assert lines[0] == end && lines[1..] == rest;
    } else {
      assert lines[0] == body[0] && lines[1..] == body[1..] + [end] + rest;
      QuoteSkipped(body[1..], end, rest, closes);
    }
  }

  /** A closing line is itself when trimmed, and closes quotes. */
  ghost predicate FenceCloses(g: Grammar) {
    g.trim(Fence) == Fence && g.closesQuote(Fence)
  }

  lemma LineScans(g: Grammar, text: string, rest: seq<string>)
    requires CodeOk(g, Line(text))
    ensures Scan(g, Trim(g.trim, [text]) + rest, true) == Scan(g, rest, true)
  {
    TrimOne(g.trim, text);
    assert ([g.trim(text)] + rest)[1..] == rest;
  }

  lemma QuoteScans(g: Grammar, header: string, body: seq<string>, rest: seq<string>)
    requires FenceCloses(g) && CodeOk(g, Quote(header, body))
    ensures Scan(g, Trim(g.trim, [header] + body + [Fence]) + rest, true) == Scan(g, rest, true)
  {
    TrimAppend(g.trim, [header] + body, [Fence]);
    TrimAppend(g.trim, [header], body);
    TrimOne(g.trim, header);
    TrimOne(g.trim, Fence);
    var more := Trim(g.trim, body) + [Fence] + rest;
    assert Trim(g.trim, [header] + body + [Fence]) + rest == [g.trim(header)] + more;
    QuoteSkipped(Trim(g.trim, body), Fence, rest, g.closesQuote);
    QuoteHeadScans(g, g.trim(header), more);
  }

  lemma QuoteHeadScans(g: Grammar, head: string, more: seq<string>)
    requires g.kind(head).ToolHead? && g.kind(head).ticked
    ensures Scan(g, [head] + more, true) == Scan(g, AfterQuote(more, g.closesQuote), true)
  {
    assert ([head] + more)[1..] == more;
  }

  /** One piece of code inside a fence is passed over. */
  lemma PieceScans(g: Grammar, c: Code, rest: seq<string>)
    requires FenceCloses(g) && CodeOk(g, c)
    ensures Scan(g, Trim(g.trim, PieceLines(c)) + rest, true) == Scan(g, rest, true)
  {
    match c
    case Line(text) => LineScans(g, text, rest);
    case Quote(header, body) => QuoteScans(g, header, body, rest);
  }

  lemma {:induction false} InsideScans(g: Grammar, inside: seq<Code>, rest: seq<string>)
    requires FenceCloses(g) && forall k :: 0 <= k < |inside| ==> CodeOk(g, inside[k])
    ensures Scan(g, Trim(g.trim, CodeLines(inside)) + rest, true) == Scan(g, rest, true)
  {
    if inside == [] {
      assert Trim(g.trim, []) + rest == rest;
    } else {
      var tail := Trim(g.trim, CodeLines(inside[1..])) + rest;
      TrimAppend(g.trim, PieceLines(inside[0]), CodeLines(inside[1..]));
      assert Trim(g.trim, CodeLines(inside)) + rest == Trim(g.trim, PieceLines(inside[0])) + tail;
      PieceScans(g, inside[0], tail);
      InsideScans(g, inside[1..], rest);
    }
  }

  lemma FenceLineScans(g: Grammar, line: string, more: seq<string>, fenced: bool)
    requires g.kind(line).FenceMark?
    ensures Scan(g, [line] + more, fenced) == Scan(g, more, !fenced)
  {
    assert ([line] + more)[1..] == more;
  }

  lemma FencedScans(d: Digits, g: Grammar, b: Block, rest: seq<string>)
    requires FenceCloses(g) && b.Fenced? && BlockOk(d, g, b)
    ensures Scan(g, Trim(g.trim, BlockLines(b)) + rest, false) == Scan(g, rest, false)
  {
    InsideScans(g, b.inside, [g.trim(b.close)] + rest);
    BetweenFences(g, b.open, CodeLines(b.inside), b.close, rest);
  }

  lemma TrimFramed(trim: string -> string, first: string, body: seq<string>, last: string)
    ensures Trim(trim, [first] + body + [last]) == [trim(first)] + Trim(trim, body) + [trim(last)]
  {
    TrimAppend(trim, [first] + body, [last]);
    TrimAppend(trim, [first], body);
    TrimOne(trim, first);
    TrimOne(trim, last);
  }

  lemma BetweenFences(g: Grammar, open: string, code: seq<string>, close: string, rest: seq<string>)
    requires g.kind(g.trim(open)).FenceMark? && g.kind(g.trim(close)).FenceMark?
    requires Scan(g, Trim(g.trim, code) + ([g.trim(close)] + rest), true) == Scan(g, [g.trim(close)] + rest, true)
    ensures Scan(g, Trim(g.trim, [open] + code + [close]) + rest, false) == Scan(g, rest, false)
  {
    TrimFramed(g.trim, open, code, close);
    var more := Trim(g.trim, code) + ([g.trim(close)] + rest);
    assert [g.trim(open)] + Trim(g.trim, code) + [g.trim(close)] + rest == [g.trim(open)] + more;
    FenceLineScans(g, g.trim(open), more, false);
    FenceLineScans(g, g.trim(close), rest, true);
  }

  // ---- tool blocks in general -----------------------------------------------------------------

  lemma {:induction false} BodyIsRead(body: seq<string>, closer: string, rest: seq<string>, ends: Ender)
    requires forall k :: 0 <= k < |body| ==> ends(body[k]).No?
    requires ends(closer).Within?
    ensures BodyLength(body + [closer] + rest, ends) == |body|
  {
    var lines := body + [closer] + rest;
    if body == [] {
      assert lines[0] == closer;
    } else {
      assert lines[0] == body[0] && lines[1..] == body[1..] + [closer] + rest;
      BodyIsRead(body[1..], closer, rest, ends);
    }
  }

  lemma BodyIsLeft(body: seq<string>, closer: string, rest: seq<string>, ends: Ender)
    requires forall k :: 0 <= k < |body| ==> ends(body[k]).No?
    requires ends(closer).Within?
    ensures AfterBody(body + [closer] + rest, ends) == rest
    ensures (body + [closer] + rest)[..BodyLength(body + [closer] + rest, ends)] == body
  {
    BodyIsRead(body, closer, rest, ends);
  }

  lemma HeadScans(g: Grammar, head: string, more: seq<string>, name: string, ticked: bool)
    requires g.kind(head) == ToolHead(name, ticked) && name != ""
    ensures Scan(g, [head] + more, false)
            == Then(g.call(name, more[..BodyLength(more, g.ends(ticked))]), Scan(g, AfterBody(more, g.ends(ticked)), false))
  {
    assert ([head] + more)[1..] == more;
  }

  /** Scanning from the head on, given what its body is. */
  lemma HeadThenBody(g: Grammar, head: string, name: string, ticked: bool, body: seq<string>, closer: string, rest: seq<string>)
    requires g.kind(head) == ToolHead(name, ticked) && name != ""
    requires (forall k :: 0 <= k < |body| ==> g.ends(ticked)(body[k]).No?) && g.ends(ticked)(closer).Within?
    ensures Scan(g, [head] + body + [closer] + rest, false) == Then(g.call(name, body), Scan(g, rest, false))
  {
    assert [head] + body + [closer] + rest == [head] + (body + [closer] + rest);
    HeadScans(g, head, body + [closer] + rest, name, ticked);
    BodyIsLeft(body, closer, rest, g.ends(ticked));
  }

  lemma UntrimmedStay(trim: string -> string, lines: seq<string>)
    requires forall k :: 0 <= k < |lines| ==> trim(lines[k]) == lines[k]
    ensures Trim(trim, lines) == lines
  {
  }

  // ---- the lines of a tool block --------------------------------------------------------------

  /** A line that opens an argument ends no body. */
  lemma KeyedEndsNothing(key: string, text: string, ticked: bool)
    requires key in KnownKeys && Trimmed(text) && OneLine(text)
    ensures EndOf(Keyed(key, text), ticked).No?
  {
    KnownKeysPlain(key);
    KeyedIsLine(key, text);
    assert Keyed(key, text)[0] == key[0];
    PlainEndsNothing(Keyed(key, text), ticked);
  }

  lemma PlainEndsNothing(line: string, ticked: bool)
    requires line != "" && Trimmed(line) && Plain(line[0])
    ensures EndOf(line, ticked).No?
  {
    assert line[0] != '`' && line[0] != 'T';
    TrimmedStays(line);
    assert Strip(line) == line;
  }

  predicate BodyLine(line: string, ends: Ender) {
    Trimmed(line) && OneLine(line) && ends(line).No?
  }

  predicate BodyLines(lines: seq<string>, ends: Ender) {
    forall k :: 0 <= k < |lines| ==> BodyLine(lines[k], ends)
  }

  lemma {:induction false} NumberFits(d: Digits, key: string, n: nat, ticked: bool)
    requires Latin(d) && key in KnownKeys
    ensures BodyLines(ItemLines(Item(key, Number(n))), Ends(ticked))
  {
    DecimalReads(d, n);
    KeyedIsLine(key, Decimal(n));
    KeyedEndsNothing(key, Decimal(n), ticked);
  }

  lemma {:induction false} TextFits(d: Digits, key: string, texts: seq<string>, ticked: bool)
    requires Canonical(d, Item(key, Lines(texts))) && Fits(Item(key, Lines(texts)), Ends(ticked))
    ensures BodyLines(ItemLines(Item(key, Lines(texts))), Ends(ticked))
  {
    KeyedIsLine(key, texts[0]);
    KeyedEndsNothing(key, texts[0], ticked);
    FirstAndRest(Keyed(key, texts[0]), texts, Ends(ticked));
  }

  lemma FirstAndRest(first: string, texts: seq<string>, ends: Ender)
    requires texts != [] && BodyLine(first, ends)
    requires forall k :: 1 <= k < |texts| ==> Continues(texts[k]) && ends(texts[k]).No?
    ensures BodyLines([first] + texts[1..], ends)
  {
    var lines := [first] + texts[1..];
    forall k | 0 <= k < |lines| ensures BodyLine(lines[k], ends) {
      if k > 0 {
        assert lines[k] == texts[k] && Continues(texts[k]);
      }
    }
  }

  lemma {:induction false} ItemFits(d: Digits, item: Item, ticked: bool)
    requires Latin(d) && Canonical(d, item) && Fits(item, Ends(ticked))
    ensures BodyLines(ItemLines(item), Ends(ticked))
  {
    match item.value
    case Number(n) =>
      assert item == Item(item.key, Number(n));
      NumberFits(d, item.key, n, ticked);
    case Lines(texts) =>
      assert item == Item(item.key, Lines(texts));
      TextFits(d, item.key, texts, ticked);
  }

  lemma {:induction false} ItemsFit(d: Digits, items: seq<Item>, ticked: bool)
    requires Latin(d) && AllCanonical(d, items) && forall k :: 0 <= k < |items| ==> Fits(items[k], Ends(ticked))
    ensures BodyLines(AllLines(items), Ends(ticked))
  {
    if items != [] {
      ItemFits(d, items[0], ticked);
      ItemsFit(d, items[1..], ticked);
    }
  }

  /** What the body lines are, one by one. */
  lemma BodyLinesAre(lines: seq<string>, ends: Ender)
    requires BodyLines(lines, ends)
    ensures forall k :: 0 <= k < |lines| ==> '\n' !in lines[k]
    ensures forall k :: 0 <= k < |lines| ==> OneLine(lines[k]) && Trimmed(lines[k])
    ensures forall k :: 0 <= k < |lines| ==> ends(lines[k]).No?
  {
    forall k | 0 <= k < |lines| ensures '\n' !in lines[k] && Trimmed(lines[k]) && OneLine(lines[k]) && ends(lines[k]).No? {
      assert BodyLine(lines[k], ends);
    }
  }

  lemma CloserEnds(ticked: bool)
    ensures EndOf(Closer(ticked), ticked).Within? && Rstrip(Closer(ticked)) == Closer(ticked) && OneLine(Closer(ticked))
  {
    TrimmedStays(Closer(ticked));
  }

  lemma ToolNamesTrimmed(name: string)
    requires name in AllTools
    ensures name != "" && Trimmed(name) && OneLine(name)
  {
  }

  lemma HeaderTrimmed(name: string, ticked: bool)
    requires name != "" && Trimmed(name)
    ensures Rstrip(Header(name, ticked)) == Header(name, ticked)
  {
    var line := Header(name, ticked);
    assert line[|line| - 1] == name[|name| - 1];
  }

  lemma HeaderParts(name: string, ticked: bool)
    ensures var line := Header(name, ticked);
      && (ticked ==> line[..8] == Ticked && line[8..] == " " + name)
      && (!ticked ==> line[..5] == Unticked && line[5..] == " " + name && line[0] == 'T')
  {
  }

  lemma HeaderKind(name: string, ticked: bool)
    requires Trimmed(name)
    ensures KindOf(Header(name, ticked)) == ToolHead(name, ticked)
  {
    HeaderParts(name, ticked);
    KindOfHead(Header(name, ticked), " " + name, ticked);
    SpaceFirst(name);
  }

  lemma KindOfHead(line: string, rest: string, ticked: bool)
    requires if ticked then Ticked <= line && line[8..] == rest else Unticked <= line && line[5..] == rest && line[0] == 'T'
    ensures KindOf(line) == ToolHead(Strip(rest), ticked)
  {
  }

  lemma HeaderOneLine(name: string, ticked: bool)
    requires OneLine(name)
    ensures OneLine(Header(name, ticked))
  {
    var head := if ticked then "```TOOL: " else "TOOL: ";
    assert Header(name, ticked) == head + name;
    assert OneLine(head);
  }

  lemma NoLinesParse(d: Digits)
    ensures ParseLines(Reads(d), Empty, SplitOn("", "\n")) == Some(Empty)
  {
    assert SplitOn("", "\n") == [""] && [""][1..] == [];
    assert Strip("") == "";
    assert Reads(d)(Empty, "") == Some(Empty);
  }

  /** Reading the body of a tool block gives the items written, also when there are none. */
  lemma {:induction false} BodyParses(d: Digits, items: seq<Item>, ticked: bool)
    requires Latin(d) && AllCanonical(d, items) && forall k :: 0 <= k < |items| ==> Fits(items[k], Ends(ticked))
    ensures ParseLines(Reads(d), Empty, SplitOn(Join("\n", AllLines(items)), "\n")) == Some(CollectAll(Empty, items))
  {
    if items == [] {
      NoLinesParse(d);
    } else {
      ItemsFit(d, items, ticked);
      BodyLinesAre(AllLines(items), Ends(ticked));
      SomeLines(items);
      SplitJoin(AllLines(items));
      ItemsRead(d, Empty, items);
    }
  }

  lemma SomeLines(items: seq<Item>)
    requires items != [] && items[0].value != Lines([])
    ensures AllLines(items) != []
  {
    assert |ItemLines(items[0])| > 0;
  }

  lemma CallOfParsed(d: Digits, name: string, body: seq<string>, p: Parsed)
    requires name in AllTools && ParseLines(Reads(d), Empty, SplitOn(Join("\n", body), "\n")) == Some(p)
    ensures CallOf(d, name, body) == Some([ToolCall(name, p.args, p.reason)])
  {
  }

  lemma {:induction false} CallIs(d: Digits, name: string, items: seq<Item>, ticked: bool)
    requires Latin(d) && ToolOk(d, name, items, ticked)
    ensures CallOf(d, name, AllLines(items)) == Some(WrittenIn(Tool(name, items, ticked)))
  {
    BodyParses(d, items, ticked);
    CallOfParsed(d, name, AllLines(items), CollectAll(Empty, items));
  }

  // ---- what the tool grammar makes of a tool block --------------------------------------------

  /** The grammar reads a block as it was written. */
  ghost predicate ReadsTool(g: Grammar, b: Block)
    requires b.Tool?
  {
    var head, body, closer := Header(b.name, b.ticked), AllLines(b.items), Closer(b.ticked);
    && b.name != "" && g.kind(head) == ToolHead(b.name, b.ticked)
    && g.trim(head) == head && g.trim(closer) == closer
    && (forall k :: 0 <= k < |body| ==> g.trim(body[k]) == body[k] && g.ends(b.ticked)(body[k]).No?)
    && g.ends(b.ticked)(closer).Within?
    && g.call(b.name, body) == Some(WrittenIn(b))
  }

  lemma BodyIsUntrimmed(lines: seq<string>)
    requires forall k :: 0 <= k < |lines| ==> Trimmed(lines[k])
    ensures forall k :: 0 <= k < |lines| ==> Rstrip(lines[k]) == lines[k]
  {
    forall k | 0 <= k < |lines| ensures Rstrip(lines[k]) == lines[k] {
      TrimmedStays(lines[k]);
    }
  }

  lemma ToolIsRead(d: Digits, b: Block)
    requires Latin(d) && b.Tool? && ToolOk(d, b.name, b.items, b.ticked)
    ensures ReadsTool(ToolGrammar(d), b)
  {
    ToolNamesTrimmed(b.name);
    HeaderKind(b.name, b.ticked);
    HeaderTrimmed(b.name, b.ticked);
    CloserEnds(b.ticked);
    ItemsFit(d, b.items, b.ticked);
    BodyLinesAre(AllLines(b.items), Ends(b.ticked));
    BodyIsUntrimmed(AllLines(b.items));
    CallIs(d, b.name, b.items, b.ticked);
  }

  lemma ToolScans(g: Grammar, b: Block, rest: seq<string>)
    requires b.Tool? && ReadsTool(g, b)
    ensures Scan(g, Trim(g.trim, BlockLines(b)) + rest, false) == Then(Some(WrittenIn(b)), Scan(g, rest, false))
  {
    var head, body, closer := Header(b.name, b.ticked), AllLines(b.items), Closer(b.ticked);
    TrimAppend(g.trim, [head] + body, [closer]);
    TrimAppend(g.trim, [head], body);
    TrimOne(g.trim, head);
    TrimOne(g.trim, closer);
    UntrimmedStay(g.trim, body);
    HeadThenBody(g, head, b.name, b.ticked, body, closer, rest);
  }

  // ---- the round trip -------------------------------------------------------------------------

  lemma BlockScans(d: Digits, g: Grammar, b: Block, rest: seq<string>)
    requires FenceCloses(g) && BlockOk(d, g, b) && (b.Tool? ==> ReadsTool(g, b))
    ensures Scan(g, Trim(g.trim, BlockLines(b)) + rest, false) == Then(Some(WrittenIn(b)), Scan(g, rest, false))
  {
    NothingYet(Scan(g, rest, false));
    match b
    case Prose(lines) => ProseScans(g, Trim(g.trim, lines), rest);
    case Fenced(_, _, _) => FencedScans(d, g, b, rest);
    case Tool(_, _, _) => ToolScans(g, b, rest);
  }

  lemma {:induction false} BlocksScan(d: Digits, g: Grammar, blocks: seq<Block>)
    requires FenceCloses(g) && AllOk(d, g, blocks)
    requires forall k :: 0 <= k < |blocks| && blocks[k].Tool? ==> ReadsTool(g, blocks[k])
    ensures Scan(g, Trim(g.trim, AllBlockLines(blocks)), false) == Some(Written(blocks))
  {
    if blocks != [] {
      var rest := Trim(g.trim, AllBlockLines(blocks[1..]));
      TrimAppend(g.trim, BlockLines(blocks[0]), AllBlockLines(blocks[1..]));
      BlockScans(d, g, blocks[0], rest);
      BlocksScan(d, g, blocks[1..]);
    }
  }

  predicate AllOneLine(lines: seq<string>) {
    forall k :: 0 <= k < |lines| ==> OneLine(lines[k])
  }

  lemma OneLineAppend(a: seq<string>, b: seq<string>)
    requires AllOneLine(a) && AllOneLine(b)
    ensures AllOneLine(a + b)
  {
  }

  lemma {:induction false} CodeIsLines(g: Grammar, inside: seq<Code>)
    requires forall k :: 0 <= k < |inside| ==> CodeOk(g, inside[k])
    ensures AllOneLine(CodeLines(inside))
  {
    if inside != [] {
      CodeIsLines(g, inside[1..]);
      if inside[0].Quote? {
        assert OneLine(Fence);
        assert AllOneLine(PieceLines(inside[0]));
      }
      OneLineAppend(PieceLines(inside[0]), CodeLines(inside[1..]));
    }
  }

  lemma ToolIsLines(d: Digits, b: Block)
    requires Latin(d) && b.Tool? && ToolOk(d, b.name, b.items, b.ticked)
    ensures AllOneLine(BlockLines(b))
  {
    ToolNamesTrimmed(b.name);
    HeaderOneLine(b.name, b.ticked);
    CloserEnds(b.ticked);
    ItemsFit(d, b.items, b.ticked);
    BodyLinesAre(AllLines(b.items), Ends(b.ticked));
    FramedOneLine(Header(b.name, b.ticked), AllLines(b.items), Closer(b.ticked));
  }

  lemma FramedOneLine(first: string, body: seq<string>, last: string)
    requires OneLine(first) && OneLine(last) && AllOneLine(body)
    ensures AllOneLine([first] + body + [last])
  {
    OneLineAppend([first], body);
    OneLineAppend([first] + body, [last]);
  }

  lemma BlockIsLines(d: Digits, g: Grammar, b: Block)
    requires Latin(d) && BlockOk(d, g, b)
    ensures AllOneLine(BlockLines(b))
  {
    match b
    case Prose(lines) =>
    case Fenced(open, inside, close) =>
      CodeIsLines(g, inside);
      OneLineAppend([open], CodeLines(inside));
      OneLineAppend([open] + CodeLines(inside), [close]);
    case Tool(_, _, _) => ToolIsLines(d, b);
  }

  lemma {:induction false} AllAreLines(d: Digits, g: Grammar, blocks: seq<Block>)
    requires Latin(d) && AllOk(d, g, blocks)
    ensures AllOneLine(AllBlockLines(blocks))
  {
    if blocks != [] {
      BlockIsLines(d, g, blocks[0]);
      AllAreLines(d, g, blocks[1..]);
      OneLineAppend(BlockLines(blocks[0]), AllBlockLines(blocks[1..]));
    }
  }

  lemma FenceIsClosing(d: Digits)
    ensures FenceCloses(ToolGrammar(d))
  {
    TrimmedStays(Fence);
  }

  /** Scanning what was written finds exactly the tool blocks, in order, with their arguments. */
  lemma {:induction false} ScanInvertsRender(d: Digits, blocks: seq<Block>)
    requires Latin(d) && AllOk(d, ToolGrammar(d), blocks)
    ensures Calls(d, Render(blocks)) == Some(Written(blocks))
  {
    AllAreLines(d, ToolGrammar(d), blocks);
    SplitUnlines(AllBlockLines(blocks));
    FenceIsClosing(d);
    forall k | 0 <= k < |blocks| && blocks[k].Tool? ensures ReadsTool(ToolGrammar(d), blocks[k]) {
      assert BlockOk(d, ToolGrammar(d), blocks[k]);
      ToolIsRead(d, blocks[k]);
    }
    BlocksScan(d, ToolGrammar(d), blocks);
  }

  // ---- the arguments of a call ----------------------------------------------------------------

  function ValueOf(v: Value): Arg {
    match v
    case Number(n) => Num(n)
    case Lines(lines) => Str(Join("\n", lines))
  }

  /** A key nothing is written under stays as it was. */
  lemma {:induction false} NoOtherArgs(items: seq<Item>, p: Parsed, key: string)
    requires forall k :: 0 <= k < |items| ==> items[k].key != key
    ensures var args := CollectAll(p, items).args;
      (key in args <==> key in p.args) && (key in args ==> args[key] == p.args[key])
    decreases |items|
  {
    if items != [] {
      NoOtherArgs(items[1..], Collect(p, items[0]), key);
    }
  }

  /** The value of an argument is that of the last item written under its key. */
  lemma {:induction false} ArgsAreItems(items: seq<Item>, p: Parsed, k: nat)
    requires k < |items| && items[k].key != "reason"
    requires forall j :: k < j < |items| ==> items[j].key != items[k].key
    ensures var args := CollectAll(p, items).args;
      items[k].key in args && args[items[k].key] == ValueOf(items[k].value)
    decreases |items|
  {
    if k == 0 {
      NoOtherArgs(items[1..], Collect(p, items[0]), items[0].key);
    } else {
      ArgsAreItems(items[1..], Collect(p, items[0]), k - 1);
    }
  }

  // ---- a response on which the scan raises ----------------------------------------------------

  /** A line as it may stand in a block. */
  predicate StandsInBlock(line: string) {
    OneLine(line) && Rstrip(line) == line && EndOf(line, true).No?
  }

  lemma RaisingCall(d: Digits, name: string, line: string)
    requires name in AllTools && Raising(d)(line) && OneLine(line)
    ensures CallOf(d, name, [line]) == None
  {
    OneRaising(Raising(d), line);
    BodyLineUnbroken(line);
    RaisingBlockCall(d, Found(name, [line]));
  }

  lemma BodyLineUnbroken(line: string)
    requires OneLine(line)
    ensures forall k :: 0 <= k < |[line]| ==> '\n' !in [line][k]
  {
  }

  lemma RaisingBlockCall(d: Digits, b: Found)
    requires b.name in AllTools && HasRaising(Raising(d), b.body)
    requires forall k :: 0 <= k < |b.body| ==> '\n' !in b.body[k]
    ensures CallOf(d, b.name, b.body) == None
  {
    CallRaisesIff(d, b);
  }

  lemma ThreeLinesStay(name: string, line: string)
    requires name in AllTools && StandsInBlock(line)
    ensures Trim(Rstrip, SplitLines(Unlines([Header(name, true), line, Fence]))) == [Header(name, true), line, Fence]
  {
    ToolNamesTrimmed(name);
    HeaderTrimmed(name, true);
    HeaderOneLine(name, true);
    CloserEnds(true);
    ThreeOneLine(Header(name, true), line, Fence);
    SplitUnlines([Header(name, true), line, Fence]);
    ThreeStay(Rstrip, Header(name, true), line, Fence);
  }

  lemma ThreeStay(trim: string -> string, a: string, b: string, c: string)
    requires trim(a) == a && trim(b) == b && trim(c) == c
    ensures Trim(trim, [a, b, c]) == [a, b, c]
  {
  }

  lemma ThreeOneLine(a: string, b: string, c: string)
    requires OneLine(a) && OneLine(b) && OneLine(c)
    ensures AllOneLine([a, b, c])
  {
  }

  lemma ThreeLinesScan(g: Grammar, head: string, name: string, line: string, closer: string)
    requires g.kind(head) == ToolHead(name, true) && name != ""
    requires g.ends(true)(line).No? && g.ends(true)(closer).Within? && g.call(name, [line]) == None
    ensures Scan(g, [head, line, closer], false) == None
  {
    assert [head, line, closer] == [head] + [line] + [closer] + [];
    HeadThenBody(g, head, name, true, [line], closer, []);
  }

  /** A block of a known tool with one raising line makes the whole scan raise. */
  lemma RaisingResponse(d: Digits, name: string, line: string)
    requires name in AllTools && StandsInBlock(line) && Raising(d)(line)
    ensures Calls(d, Unlines([Header(name, true), line, Fence])) == None
  {
    RaisingCall(d, name, line);
    ThreeLinesStay(name, line);
    ToolNamesTrimmed(name);
    HeaderKind(name, true);
    CloserEnds(true);
    ThreeLinesScan(ToolGrammar(d), Header(name, true), name, line, Fence);
  }

  /** For instance a depth written as a digit that is not decimal, such as a superscript. */
  lemma SuperscriptRaises(d: Digits, c: char)
    requires d(c) == OtherDigit && !IsSpace(c) && !IsBreak(c)
    ensures Calls(d, Unlines([Header("list_dir", true), Keyed("depth", [c]), Fence])) == None
  {
    OddLineStands("depth", c);
    assert !d([c][0]).DecimalDigit?;
    UnconvertibleRaises(d, "depth", [c]);
    RaisingResponse(d, "list_dir", Keyed("depth", [c]));
  }

  lemma OddLineStands(key: string, c: char)
    requires key in KnownKeys && !IsSpace(c) && !IsBreak(c)
    ensures StandsInBlock(Keyed(key, [c]))
  {
    KeyedIsLine(key, [c]);
    KeyedEndsNothing(key, [c], true);
    TrimmedStays(Keyed(key, [c]));
  }
}
