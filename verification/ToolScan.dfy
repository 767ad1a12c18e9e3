/** Tool blocks in a model's answer (chain/agent_tools.py, `parse_tool_calls`): what the scan finds. */
module ToolScan {
  import opened Collections
  import opened Text
  import opened ToolArgs

  const AllTools := {"read_file", "list_dir", "search_code", "get_file_info", "get_project_tree", "remember_fact", "run_command"}

  const Fence := "```"
  const Ticked := "```TOOL:"
  const Unticked := "TOOL:"

  datatype ToolCall = ToolCall(tool: string, args: map<string, Arg>, reason: string)

  // ---- what a line is -------------------------------------------------------------------------

  /** What a line with its end trimmed can be: a code fence, the head of a tool block, or anything else. */
  datatype Kind = FenceMark | ToolHead(name: string, ticked: bool) | Other

  function KindOf(line: string): Kind {
    if Ticked <= line then ToolHead(Strip(line[8..]), true)
    else if Fence <= line then FenceMark
    else if Unticked <= line then ToolHead(Strip(line[5..]), false)
    else Other
  }

  predicate ClosesQuote(line: string) {
    Strip(line) == Fence
  }

  /** How a line ends a body: not at all, as part of it, or as the start of what follows. */
  datatype End = No | Within | Before

  function EndOf(line: string, ticked: bool): End {
    if ticked then
      if Strip(line) == Fence then Within
      else if Ticked <= line || Unticked <= line then Before else No
    else
      if Strip(line) == "" then Within
      else if Unticked <= line || Fence <= line then Before else No
  }

  type Ender = string -> End

  function Ends(ticked: bool): Ender {
    (line: string) => EndOf(line, ticked)
  }

  /** The call of a tool block, if the tool is known; nothing when reading its arguments raises. */
  function CallOf(d: Digits, name: string, body: seq<string>): Option<seq<ToolCall>> {
    if name !in AllTools then Some([])
    else
      match ParseLines(Reads(d), Empty, SplitOn(Join("\n", body), "\n"))
      case None => None
      case Some(p) => Some([ToolCall(name, p.args, p.reason)])
  }

  /** What the scan asks of a line or a body. */
  datatype Grammar = Grammar(
    trim: string -> string,
    kind: string -> Kind,
    closesQuote: string -> bool,
    ends: bool -> Ender,
    call: (string, seq<string>) -> Option<seq<ToolCall>>)

  function ToolGrammar(d: Digits): Grammar {
    Grammar(Rstrip, KindOf, ClosesQuote, Ends, (name: string, body: seq<string>) => CallOf(d, name, body))
  }

  // ---- the scan -------------------------------------------------------------------------------

  /** What follows a tool block quoted inside a fence. */
  function AfterQuote(lines: seq<string>, closes: string -> bool): (r: seq<string>)
    ensures |r| <= |lines|
  {
    if lines == [] then [] else if closes(lines[0]) then lines[1..] else AfterQuote(lines[1..], closes)
  }

  function BodyLength(lines: seq<string>, ends: Ender): (n: nat)
    ensures n <= |lines|
  {
    if lines == [] || !ends(lines[0]).No? then 0 else 1 + BodyLength(lines[1..], ends)
  }

  function AfterBody(lines: seq<string>, ends: Ender): (r: seq<string>)
    ensures |r| <= |lines|
  {
    var n := BodyLength(lines, ends);
    if n < |lines| && ends(lines[n]).Within? then lines[n + 1..] else lines[n..]
  }

  function Trim(trim: string -> string, lines: seq<string>): (r: seq<string>)
    ensures |r| == |lines|
  {
    seq(|lines|, k requires 0 <= k < |lines| => trim(lines[k]))
  }

  function Then(a: Option<seq<ToolCall>>, b: Option<seq<ToolCall>>): Option<seq<ToolCall>> {
    if a.None? || b.None? then None else Some(a.value + b.value)
  }

  /** The calls in these lines, whose ends are trimmed; nothing when reading some arguments raises. */
  function Scan(g: Grammar, lines: seq<string>, fenced: bool): Option<seq<ToolCall>>
    decreases |lines|
  {
    if lines == [] then Some([])
    else
      var rest := lines[1..];
      match g.kind(lines[0])
      case FenceMark => Scan(g, rest, !fenced)
      case Other => Scan(g, rest, fenced)
      case ToolHead(name, ticked) =>
        if fenced then Scan(g, if ticked then AfterQuote(rest, g.closesQuote) else rest, true)
        else if name == "" then Scan(g, rest, false)
        else
          Then(g.call(name, rest[..BodyLength(rest, g.ends(ticked))]), Scan(g, AfterBody(rest, g.ends(ticked)), false))
  }

  /** What a response calls for. */
  function Calls(d: Digits, response: string): Option<seq<ToolCall>> {
    Scan(ToolGrammar(d), Trim(Rstrip, SplitLines(response)), false)
  }

  // ---- when the scan raises -------------------------------------------------------------------

  /** A tool block with a name, outside every fence. */
  datatype Found = Found(name: string, body: seq<string>)

  /** All tool blocks of these lines, of known and unknown tools. */
  function Blocks(g: Grammar, lines: seq<string>, fenced: bool): seq<Found>
    decreases |lines|
  {
    if lines == [] then []
    else
      var rest := lines[1..];
      match g.kind(lines[0])
      case FenceMark => Blocks(g, rest, !fenced)
      case Other => Blocks(g, rest, fenced)
      case ToolHead(name, ticked) =>
        if fenced then Blocks(g, if ticked then AfterQuote(rest, g.closesQuote) else rest, true)
        else if name == "" then Blocks(g, rest, false)
        else
          [Found(name, rest[..BodyLength(rest, g.ends(ticked))])] + Blocks(g, AfterBody(rest, g.ends(ticked)), false)
  }

  ghost predicate SomeRaises(g: Grammar, blocks: seq<Found>) {
    exists k :: 0 <= k < |blocks| && g.call(blocks[k].name, blocks[k].body).None?
  }

  /** The scan raises exactly when reading one of the blocks does. */
  lemma {:induction false} ScanReadsBlocks(g: Grammar, lines: seq<string>, fenced: bool)
    ensures Scan(g, lines, fenced).None? <==> SomeRaises(g, Blocks(g, lines, fenced))
    decreases |lines|
  {
    if lines != [] {
      var rest := lines[1..];
      match g.kind(lines[0])
      case FenceMark => ScanReadsBlocks(g, rest, !fenced);
      case Other => ScanReadsBlocks(g, rest, fenced);
      case ToolHead(name, ticked) =>
        if fenced {
          ScanReadsBlocks(g, if ticked then AfterQuote(rest, g.closesQuote) else rest, true);
        } else if name == "" {
          ScanReadsBlocks(g, rest, false);
        } else {
          ScanReadsBlocks(g, AfterBody(rest, g.ends(ticked)), false);
          FirstOrLater(g, Found(name, rest[..BodyLength(rest, g.ends(ticked))]),
                       Blocks(g, AfterBody(rest, g.ends(ticked)), false));
        }
    }
  }

  lemma FirstOrLater(g: Grammar, first: Found, later: seq<Found>)
    ensures SomeRaises(g, [first] + later) <==> g.call(first.name, first.body).None? || SomeRaises(g, later)
  {
    var all := [first] + later;
    assert all[0] == first && forall k :: 0 <= k < |later| ==> all[k + 1] == later[k];
  }

  /** The lines of every body are among these. */
  ghost predicate BodiesIn(blocks: seq<Found>, lines: seq<string>) {
    forall b, l :: b in blocks && l in b.body ==> l in lines
  }

  lemma BodiesInMore(blocks: seq<Found>, part: seq<string>, lines: seq<string>)
    requires BodiesIn(blocks, part) && forall l :: l in part ==> l in lines
    ensures BodiesIn(blocks, lines)
  {
  }

  lemma {:induction false} QuoteTail(lines: seq<string>, closes: string -> bool)
    ensures forall l :: l in AfterQuote(lines, closes) ==> l in lines
  {
    if lines != [] {
      QuoteTail(lines[1..], closes);
    }
  }

  lemma {:induction false} BlocksAreLines(g: Grammar, lines: seq<string>, fenced: bool)
    ensures BodiesIn(Blocks(g, lines, fenced), lines)
    decreases |lines|
  {
    if lines != [] {
      var rest := lines[1..];
      var kind := g.kind(lines[0]);
      if kind.ToolHead? && !fenced && kind.name != "" {
        var after := AfterBody(rest, g.ends(kind.ticked));
        BlocksAreLines(g, after, false);
        BodiesInMore(Blocks(g, after, false), after, lines);
      } else {
        QuoteTail(rest, g.closesQuote);
        var next := if kind.ToolHead? && fenced && kind.ticked then AfterQuote(rest, g.closesQuote) else rest;
        var inside := if kind.FenceMark? then !fenced else fenced;
        BlocksAreLines(g, next, inside);
        BodiesInMore(Blocks(g, next, inside), next, lines);
      }
    }
  }

  /** Some line of the block gives an argument a text of digits that `int` refuses. */
  ghost predicate RaisingBlock(d: Digits, b: Found) {
    b.name in AllTools && HasRaising(Raising(d), b.body)
  }

  ghost predicate HasRaising(raises: string -> bool, body: seq<string>) {
    exists i :: 0 <= i < |body| && raises(body[i])
  }

  lemma OneRaising(raises: string -> bool, line: string)
    requires raises(line)
    ensures HasRaising(raises, [line])
  {
    assert raises([line][0]);
  }

  /** The lines that are read of a body. */
  function ReadOf(body: seq<string>): seq<string> {
    SplitOn(Join("\n", body), "\n")
  }

  lemma ReadOfBody(body: seq<string>)
    requires forall k :: 0 <= k < |body| ==> '\n' !in body[k]
    ensures ReadOf(body) == if body == [] then [""] else body
  {
    if body == [] {
      assert SplitOn("", "\n") == [""];
    } else {
      SplitJoin(body);
    }
  }

  lemma CallRaisesWhenReading(d: Digits, name: string, body: seq<string>)
    ensures CallOf(d, name, body).None? <==> name in AllTools && ParseLines(Reads(d), Empty, ReadOf(body)).None?
  {
  }

  lemma ReadingRaises(read: Reader, raises: string -> bool, lines: seq<string>)
    requires ParseLines(read, Empty, lines).None? <==> exists k :: 0 <= k < |lines| && raises(lines[k])
    ensures ParseLines(read, Empty, lines).None? <==> HasRaising(raises, lines)
  {
  }

  lemma NoneInNothing(raises: string -> bool)
    requires !raises("")
    ensures HasRaising(raises, [""]) <==> HasRaising(raises, [])
  {
  }

  lemma BlankRaisesNot(d: Digits)
    ensures !Raising(d)("")
  {
    assert Strip("") == "";
    BlankOpensNothing();
  }

  lemma {:induction false} CallRaisesIff(d: Digits, b: Found)
    requires forall k :: 0 <= k < |b.body| ==> '\n' !in b.body[k]
    ensures CallOf(d, b.name, b.body).None? <==> RaisingBlock(d, b)
  {
    CallRaisesWhenReading(d, b.name, b.body);
    ReadingRaisesIff(d, Empty, ReadOf(b.body));
    ReadingRaises(Reads(d), Raising(d), ReadOf(b.body));
    ReadOfBody(b.body);
    BlankRaisesNot(d);
    NoneInNothing(Raising(d));
  }

  lemma {:induction false} SplitLinesAreLines(s: string)
    ensures forall l :: l in SplitLines(s) ==> OneLine(l)
    decreases |s|
  {
    if s != "" {
      if IsBreak(s[0]) {
        SplitLinesAreLines(s[if "\r\n" <= s then 2 else 1..]);
      } else {
        SplitLinesAreLines(s[1..]);
        var r := SplitLines(s[1..]);
        if r != [] {
          assert r[0] in r && forall l :: l in r[1..] ==> l in r;
        }
      }
    }
  }

  /** The scan raises exactly when a block of a known tool, outside every fence, has such a line. */
  lemma {:induction false} ScanRaisesIff(d: Digits, response: string)
    ensures var blocks := Blocks(ToolGrammar(d), Trim(Rstrip, SplitLines(response)), false);
      Calls(d, response).None? <==> exists k :: 0 <= k < |blocks| && RaisingBlock(d, blocks[k])
  {
    var g, lines := ToolGrammar(d), Trim(Rstrip, SplitLines(response));
    var blocks := Blocks(g, lines, false);
    ScanReadsBlocks(g, lines, false);
    BlocksAreLines(g, lines, false);
    TrimmedHaveNoBreak(response);
    forall k | 0 <= k < |blocks|
      ensures g.call(blocks[k].name, blocks[k].body).None? <==> RaisingBlock(d, blocks[k])
    {
      assert blocks[k] in blocks;
      forall i | 0 <= i < |blocks[k].body| ensures '\n' !in blocks[k].body[i] {
        assert blocks[k].body[i] in blocks[k].body;
      }
      CallRaisesIff(d, blocks[k]);
    }
  }

  lemma TrimmedHaveNoBreak(response: string)
    ensures forall l :: l in Trim(Rstrip, SplitLines(response)) ==> '\n' !in l
  {
    var raw := SplitLines(response);
    SplitLinesAreLines(response);
    forall l | l in Trim(Rstrip, raw) ensures '\n' !in l {
      var k :| 0 <= k < |raw| && Trim(Rstrip, raw)[k] == l;
      assert raw[k] in raw && l == Rstrip(raw[k]) <= raw[k];
      forall j | 0 <= j < |l| ensures l[j] != '\n' {
        assert l[j] == raw[k][j];
      }
    }
  }

  // ---- the method -----------------------------------------------------------------------------

  /** Reading a body line after line: what it holds and what follows it. */
  function Gather(lines: seq<string>, ends: Ender, body: seq<string>): (seq<string>, seq<string>)
    decreases |lines|
  {
    if lines == [] then (body, [])
    else
      match ends(lines[0])
      case Within => (body, lines[1..])
      case Before => (body, lines)
      case No => Gather(lines[1..], ends, body + [lines[0]])
  }

  lemma {:induction false} GatherIs(lines: seq<string>, ends: Ender, body: seq<string>)
    ensures Gather(lines, ends, body) == (body + lines[..BodyLength(lines, ends)], AfterBody(lines, ends))
    decreases |lines|
  {
    if lines == [] || !ends(lines[0]).No? {
      assert body + lines[..0] == body;
    } else {
      var n := BodyLength(lines[1..], ends);
      GatherIs(lines[1..], ends, body + [lines[0]]);
      assert lines[..n + 1] == [lines[0]] + lines[1..][..n];
      assert body + [lines[0]] + lines[1..][..n] == body + ([lines[0]] + lines[1..][..n]);
    }
  }

  /** The loop over the lines of a body. */
  method ReadBody(lines: seq<string>, start: nat, ends: Ender) returns (body: seq<string>, next: nat)
    requires start <= |lines|
    ensures start <= next <= |lines|
    ensures body == lines[start..][..BodyLength(lines[start..], ends)]
    ensures lines[next..] == AfterBody(lines[start..], ends)
  {
    GatherIs(lines[start..], ends, []);
    body, next := [], start;
    while next < |lines|
      invariant start <= next <= |lines|
      invariant Gather(lines[next..], ends, body) == Gather(lines[start..], ends, [])
    {
      assert lines[next..][0] == lines[next] && lines[next..][1..] == lines[next + 1..];
      var end := ends(lines[next]);
      if end.Within? {
        next := next + 1;
        return;
      }
      if end.Before? {
        return;
      }
      body := body + [lines[next]];
      next := next + 1;
    }
  }

  /** The call of one block. */
  method MakeCall(d: Digits, name: string, body: seq<string>) returns (found: Option<seq<ToolCall>>)
    ensures found == CallOf(d, name, body)
  {
    found := Some([]);
    if name in AllTools {
      var p := ParseArgsBody(d, Join("\n", body));
      found := if p.None? then None else Some([ToolCall(name, p.value.args, p.value.reason)]);
    }
  }

  /** The loop past a quoted tool block. */
  method SkipQuote(lines: seq<string>, start: nat, closes: string -> bool) returns (next: nat)
    requires start <= |lines|
    ensures start <= next <= |lines| && lines[next..] == AfterQuote(lines[start..], closes)
  {
    next := start;
    while next < |lines|
      invariant start <= next <= |lines|
      invariant AfterQuote(lines[next..], closes) == AfterQuote(lines[start..], closes)
    {
      assert lines[next..][0] == lines[next] && lines[next..][1..] == lines[next + 1..];
      next := next + 1;
      if closes(lines[next - 1]) {
        return;
      }
    }
  }

  lemma ThenSome(a: seq<ToolCall>, b: seq<ToolCall>, c: Option<seq<ToolCall>>)
    ensures Then(Some(a), Then(Some(b), c)) == Then(Some(a + b), c)
  {
    if c.Some? {
      assert a + (b + c.value) == (a + b) + c.value;
    }
  }

  lemma NothingYet(c: Option<seq<ToolCall>>)
    ensures Then(Some([]), c) == c
  {
    if c.Some? {
      assert [] + c.value == c.value;
    }
  }

  ghost predicate CallsTools(d: Digits, g: Grammar) {
    forall name, body :: g.call(name, body) == CallOf(d, name, body)
  }

  /** A tool block from its head on: its call, and where the scan goes on. */
  method ReadBlock(d: Digits, g: Grammar, kind: Kind, lines: seq<string>, start: nat)
    returns (found: Option<seq<ToolCall>>, next: nat)
    requires CallsTools(d, g) && kind.ToolHead? && start <= |lines|
    ensures start <= next <= |lines| && lines[next..] == AfterBody(lines[start..], g.ends(kind.ticked))
    ensures found == g.call(kind.name, lines[start..][..BodyLength(lines[start..], g.ends(kind.ticked))])
  {
    var body;
    body, next := ReadBody(lines, start, g.ends(kind.ticked));
    found := MakeCall(d, kind.name, body);
  }

  /** The loop over the lines. */
  method ScanLines(d: Digits, g: Grammar, lines: seq<string>) returns (r: Option<seq<ToolCall>>)
    requires CallsTools(d, g)
    ensures r == Scan(g, lines, false)
  {
    var fenced, calls, i := false, [], 0;
    NothingYet(Scan(g, lines, false));
    assert lines[0..] == lines;
    while i < |lines|
      invariant 0 <= i <= |lines|
      invariant Then(Some(calls), Scan(g, lines[i..], fenced)) == Scan(g, lines, false)
      decreases |lines| - i
    {
      assert lines[i..][0] == lines[i] && lines[i..][1..] == lines[i + 1..];
      var kind := g.kind(lines[i]);
      i := i + 1;
      if kind.FenceMark? {
        fenced := !fenced;
      } else if fenced {
        if kind.ToolHead? && kind.ticked {
          i := SkipQuote(lines, i, g.closesQuote);
        }
      } else if kind.ToolHead? && kind.name != "" {
        var found;
        found, i := ReadBlock(d, g, kind, lines, i);
        if found.None? {
          return None;
        }
        ThenSome(calls, found.value, Scan(g, lines[i..], false));
        calls := calls + found.value;
      }
    }
    assert lines[i..] == [] && calls + [] == calls;
    r := Some(calls);
  }

  /** `parse_tool_calls`: the scan ends on every input; nothing when reading some arguments raises. */
  method ParseToolCalls(d: Digits, response: string) returns (r: Option<seq<ToolCall>>)
    ensures r == Calls(d, response)
  {
    r := ScanLines(d, ToolGrammar(d), Trim(Rstrip, SplitLines(response)));
  }

  method HasToolCalls(d: Digits, response: string) returns (r: Option<bool>)
    ensures r == match Calls(d, response)
      case None => None
      case Some(calls) => Some(calls != [])
  {
    var calls := ParseToolCalls(d, response);
    r := if calls.None? then None else Some(|calls.value| > 0);
  }
}
