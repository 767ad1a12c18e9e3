/** Lines, and the arguments in the body of a tool block (chain/agent_tools.py, `_parse_args_body`). */
module ToolArgs {
  import opened Collections
  import opened Text

  // ---- lines ----------------------------------------------------------------------------------

  predicate IsBreak(c: char) {
    '\n' <= c <= '\r' || '\U{1C}' <= c <= '\U{1E}' || c == '\U{85}' || c == '\U{2028}' || c == '\U{2029}'
  }

  predicate OneLine(s: string) {
    forall k :: 0 <= k < |s| ==> !IsBreak(s[k])
  }

  /** `str.splitlines()` */
  function SplitLines(s: string): (r: seq<string>)
    ensures r == [] <==> s == ""
    decreases |s|
  {
    if s == "" then []
    else if IsBreak(s[0]) then [""] + SplitLines(s[if "\r\n" <= s then 2 else 1..])
    else
      var r := SplitLines(s[1..]);
      if r == [] then [s] else [[s[0]] + r[0]] + r[1..]
  }

  /** Every line ended by a line feed. */
  function Unlines(lines: seq<string>): string {
    if lines == [] then "" else lines[0] + "\n" + Unlines(lines[1..])
  }

  lemma {:induction false} FirstLine(line: string, rest: string)
    requires OneLine(line)
    ensures SplitLines(line + "\n" + rest) == [line] + SplitLines(rest)
  {
    var s := line + "\n" + rest;
    if line == "" {
      assert s[0] == '\n' && s[1..] == rest;
    } else {
      assert s[1..] == line[1..] + "\n" + rest && s[0] == line[0];
      FirstLine(line[1..], rest);
      assert [line[0]] + line[1..] == line;
    }
  }

  lemma {:induction false} SplitUnlines(lines: seq<string>)
    requires forall k :: 0 <= k < |lines| ==> OneLine(lines[k])
    ensures SplitLines(Unlines(lines)) == lines
  {
    if lines != [] {
      SplitUnlines(lines[1..]);
      FirstLine(lines[0], Unlines(lines[1..]));
    }
  }

  lemma {:induction false} SplitSingle(line: string)
    requires '\n' !in line
    ensures SplitOn(line, "\n") == [line]
  {
    if line != "" {
      assert line[0] in line && !("\n" <= line);
      SplitSingle(line[1..]);
      assert [line[0]] + line[1..] == line;
    }
  }

  lemma {:induction false} SplitFirst(line: string, rest: string)
    requires '\n' !in line
    ensures SplitOn(line + "\n" + rest, "\n") == [line] + SplitOn(rest, "\n")
  {
    var s := line + "\n" + rest;
    if line == "" {
      assert "\n" <= s && s[1..] == rest;
    } else {
      assert s[0] == line[0] && line[0] in line && !("\n" <= s);
      assert s[1..] == line[1..] + "\n" + rest;
      SplitFirst(line[1..], rest);
      assert [line[0]] + line[1..] == line;
    }
  }

  /** Splitting takes back joining. */
  lemma {:induction false} SplitJoin(lines: seq<string>)
    requires lines != [] && forall k :: 0 <= k < |lines| ==> '\n' !in lines[k]
    ensures SplitOn(Join("\n", lines), "\n") == lines
  {
    if |lines| == 1 {
      SplitSingle(lines[0]);
    } else {
      SplitFirst(lines[0], Join("\n", lines[1..]));
      SplitJoin(lines[1..]);
    }
  }

  predicate Trimmed(s: string) {
    s != "" ==> !IsSpace(s[0]) && !IsSpace(s[|s| - 1])
  }

  lemma TrimmedStays(s: string)
    requires Trimmed(s)
    ensures Rstrip(s) == s && Strip(s) == s
  {
  }

  // ---- digits and letters ---------------------------------------------------------------------

  /** `isdigit` holds of decimal digits of any script and of others, such as superscripts, which `int` refuses. */
  datatype DigitKind = NoDigit | DecimalDigit(value: nat) | OtherDigit

  type Digits = char -> DigitKind

  ghost predicate Latin(d: Digits) {
    && (forall n: nat :: n < 10 ==> d(Digit(n)) == DecimalDigit(n))
  }

  predicate IsDigits(d: Digits, s: string) {
    s != "" && forall k :: 0 <= k < |s| ==> !d(s[k]).NoDigit?
  }

  /** The longest text of digits that `int` converts, and `str` gives back. */
  const MaxIntDigits := 4300

  /** `int(s)`, for a text of digits. */
  function Int(d: Digits, s: string): Option<nat> {
    if |s| > MaxIntDigits then None else IntOf(d, s)
  }

  function IntOf(d: Digits, s: string): Option<nat> {
    if s == "" then Some(0)
    else
      match (IntOf(d, s[..|s| - 1]), d(s[|s| - 1]))
      case (Some(n), DecimalDigit(v)) => Some(10 * n + v)
      case _ => None
  }

  lemma {:induction false} DecimalChars(n: nat)
    ensures forall k :: 0 <= k < |Decimal(n)| ==> '0' <= Decimal(n)[k] <= '9'
  {
    if n >= 10 {
      DecimalChars(n / 10);
    }
  }

  lemma {:induction false} DecimalIsInt(d: Digits, n: nat)
    requires Latin(d)
    ensures IntOf(d, Decimal(n)) == Some(n)
  {
    var s := Decimal(n);
    if n < 10 {
      assert s == [Digit(n)] && s[..0] == "" && IntOf(d, "") == Some(0);
    } else {
      DecimalIsInt(d, n / 10);
      assert s[..|s| - 1] == Decimal(n / 10) && s[|s| - 1] == Digit(n % 10);
    }
  }

  lemma LatinDigit(d: Digits, c: char)
    requires Latin(d) && '0' <= c <= '9'
    ensures !d(c).NoDigit? && !IsSpace(c) && !IsBreak(c)
  {
    assert c == Digit((c - '0') as int);
  }

  lemma DecimalReads(d: Digits, n: nat)
    requires Latin(d)
    ensures IntOf(d, Decimal(n)) == Some(n) && IsDigits(d, Decimal(n)) && Trimmed(Decimal(n)) && OneLine(Decimal(n))
  {
    DecimalIsInt(d, n);
    DecimalChars(n);
    forall k | 0 <= k < |Decimal(n)| ensures !d(Decimal(n)[k]).NoDigit? && !IsSpace(Decimal(n)[k]) && !IsBreak(Decimal(n)[k]) {
      LatinDigit(d, Decimal(n)[k]);
    }
  }

  /** Lower case as far as it can yield a Latin letter; the Kelvin sign is the one letter outside Latin that does. */
  function LowerChar(c: char): char {
    if 'A' <= c <= 'Z' then c - 'A' + 'a' else if c == '\U{212A}' then 'k' else c
  }

  function Lower(s: string): (r: string)
    ensures |r| == |s|
  {
    seq(|s|, k requires 0 <= k < |s| => LowerChar(s[k]))
  }

  // ---- arguments ------------------------------------------------------------------------------

  /** The parameter names of the seven tools, and `reason`. */
  const KnownKeys := {"reason", "path", "start_line", "end_line", "depth", "query", "max_results", "max_depth",
                      "kind", "text", "command", "_approval"}

  datatype Arg = Num(n: nat) | Str(s: string)

  /** What has been read of a body; `current` is the key that is open. */
  datatype Parsed = Parsed(args: map<string, Arg>, reason: string, current: Option<string>)

  const Empty := Parsed(map[], "", None)

  function ColonAt(s: string): (k: Option<nat>)
    ensures k.Some? ==> k.value < |s| && s[k.value] == ':' && ':' !in s[..k.value]
    ensures k.None? ==> ':' !in s
  {
    if s == "" then None
    else if s[0] == ':' then Some(0)
    else
      var k := ColonAt(s[1..]);
      if k.None? then None else
        assert s[..k.value + 1] == [s[0]] + s[1..][..k.value];
        Some(k.value + 1)
  }

  function KeyOf(line: string): Option<string> {
    var k := ColonAt(line);
    if k.None? then None
    else
      var norm := Lower(Strip(line[..k.value]));
      if norm in KnownKeys then Some(norm) else None
  }

  /** A line that opens no argument goes on with the one that is open, if any. */
  function Fold(p: Parsed, text: string): Parsed {
    if p.current.None? then p
    else if p.current.value == "reason" then p.(reason := if p.reason != "" then p.reason + "\n" + text else text)
    else
      var prev := if p.current.value in p.args then p.args[p.current.value] else Str("");
      var folded := match prev
        case Num(n) => Decimal(n) + "\n" + text
        case Str(s) => if s != "" then s + "\n" + text else text;
      p.(args := p.args[p.current.value := Str(folded)])
  }

  /** Nothing when the value is of digits that `int` refuses. */
  function Open(d: Digits, p: Parsed, key: string, val: string): Option<Parsed> {
    if key == "reason" then Some(p.(reason := val, current := Some(key)))
    else if IsDigits(d, val) then
      if Int(d, val).None? then None
      else Some(p.(args := p.args[key := Num(Int(d, val).value)], current := Some(key)))
    else Some(p.(args := p.args[key := Str(val)], current := Some(key)))
  }

  /** The key and the value of a line that opens an argument. */
  function Opening(line: string): Option<(string, string)> {
    match KeyOf(line)
    case None => None
    case Some(key) => Some((key, Strip(line[ColonAt(line).value + 1..])))
  }

  function ParseStripped(d: Digits, p: Parsed, line: string, opening: Option<(string, string)>): Option<Parsed> {
    if line == "" then Some(p)
    else if opening.None? then Some(Fold(p, line))
    else Open(d, p, opening.value.0, opening.value.1)
  }

  function ParseLine(d: Digits, p: Parsed, raw: string): Option<Parsed> {
    ParseStripped(d, p, Strip(raw), Opening(Strip(raw)))
  }

  type Reader = (Parsed, string) -> Option<Parsed>

  function Reads(d: Digits): Reader {
    (p: Parsed, raw: string) => ParseLine(d, p, raw)
  }

  /** Reading line after line, up to a line that raises. */
  function ParseLines(read: Reader, p: Parsed, lines: seq<string>): Option<Parsed>
    decreases |lines|
  {
    if lines == [] then Some(p)
    else
      var q := read(p, lines[0]);
      if q.None? then None else ParseLines(read, q.value, lines[1..])
  }

  lemma {:induction false} ParseLinesAppend(read: Reader, p: Parsed, a: seq<string>, b: seq<string>)
    requires ParseLines(read, p, a).Some?
    ensures ParseLines(read, p, a + b) == ParseLines(read, ParseLines(read, p, a).value, b)
    decreases |a|
  {
    if a == [] {
      assert a + b == b;
    } else {
      assert (a + b)[1..] == a[1..] + b;
      ParseLinesAppend(read, read(p, a[0]).value, a[1..], b);
    }
  }

  /** One line of a body. */
  method ReadLine(d: Digits, p: Parsed, raw: string) returns (q: Option<Parsed>)
    ensures q == ParseLine(d, p, raw)
  {
    var line := Strip(raw);
    if line == "" {
      return Some(p);
    }
    var k := ColonAt(line);
    var norm := if k.Some? then Lower(Strip(line[..k.value])) else "";
    if k.None? || norm !in KnownKeys {
      return Some(Fold(p, line));
    }
    var val := Strip(line[k.value + 1..]);
    if norm == "reason" {
      q := Some(p.(reason := val, current := Some(norm)));
    } else if IsDigits(d, val) {
      var n := Int(d, val);
      q := if n.None? then None else Some(p.(args := p.args[norm := Num(n.value)], current := Some(norm)));
    } else {
      q := Some(p.(args := p.args[norm := Str(val)], current := Some(norm)));
    }
  }

  method ReadLines(d: Digits, lines: seq<string>) returns (r: Option<Parsed>)
    ensures r == ParseLines(Reads(d), Empty, lines)
  {
    ghost var read := Reads(d);
    var p := Empty;
    for i := 0 to |lines|
      invariant ParseLines(read, p, lines[i..]) == ParseLines(read, Empty, lines)
    {
      assert lines[i..][1..] == lines[i + 1..] && lines[i..][0] == lines[i];
      var q := ReadLine(d, p, lines[i]);
      assert q == read(p, lines[i]);
      if q.None? {
        return None;
      }
      p := q.value;
    }
    r := Some(p);
  }

  /** `_parse_args_body`: nothing when the source raises. */
  method ParseArgsBody(d: Digits, body: string) returns (r: Option<Parsed>)
    ensures r == ParseLines(Reads(d), Empty, SplitOn(body, "\n"))
  {
    r := ReadLines(d, SplitOn(body, "\n"));
  }

  // ---- writing arguments ----------------------------------------------------------------------

  /** An argument to write: a number, or the lines of a text. */
  datatype Value = Number(n: nat) | Lines(lines: seq<string>)

  datatype Item = Item(key: string, value: Value)

  function Keyed(key: string, text: string): string {
    if text == "" then key + ":" else key + ": " + text
  }

  function ItemLines(item: Item): (r: seq<string>)
    ensures r == [] ==> item.value == Lines([])
  {
    match item.value
    case Number(n) => [Keyed(item.key, Decimal(n))]
    case Lines(lines) => if lines == [] then [] else [Keyed(item.key, lines[0])] + lines[1..]
  }

  /** A line that can go on a text: not blank, without surrounding space, and not opening an argument itself. */
  predicate Continues(line: string) {
    line != "" && Trimmed(line) && OneLine(line) && KeyOf(line).None?
  }

  /** An item as its text can be read back: a text of several lines has none that is blank, and is not a number. */
  predicate Canonical(d: Digits, item: Item) {
    item.key in KnownKeys &&
    match item.value
    case Number(n) => item.key != "reason" && |Decimal(n)| <= MaxIntDigits
    case Lines(lines) =>
      && lines != [] && Trimmed(lines[0]) && OneLine(lines[0])
      && (item.key != "reason" ==> !IsDigits(d, lines[0]))
      && (|lines| > 1 ==> lines[0] != "")
      && forall k :: 1 <= k < |lines| ==> Continues(lines[k])
  }

  /** Reading an item: the value under its key, the last of several with one key. */
  function Collect(p: Parsed, item: Item): Parsed {
    match item.value
    case Number(n) => p.(args := p.args[item.key := Num(n)], current := Some(item.key))
    case Lines(lines) =>
      if item.key == "reason" then p.(reason := Join("\n", lines), current := Some(item.key))
      else p.(args := p.args[item.key := Str(Join("\n", lines))], current := Some(item.key))
  }

  function CollectAll(p: Parsed, items: seq<Item>): Parsed
    decreases |items|
  {
    if items == [] then p else CollectAll(Collect(p, items[0]), items[1..])
  }

  function AllLines(items: seq<Item>): seq<string> {
    if items == [] then [] else ItemLines(items[0]) + AllLines(items[1..])
  }

  predicate Plain(c: char) {
    'a' <= c <= 'z' || c == '_'
  }

  lemma KnownKeysPlain(key: string)
    requires key in KnownKeys
    ensures key != "" && forall k :: 0 <= k < |key| ==> Plain(key[k])
  {
  }

  /** The text after the colon. */
  function After(text: string): string {
    if text == "" then "" else " " + text
  }

  lemma KeyedIs(key: string, text: string)
    ensures Keyed(key, text) == key + ":" + After(text)
  {
  }

  lemma KeyedIsLine(key: string, text: string)
    requires key in KnownKeys && Trimmed(text) && OneLine(text)
    ensures Trimmed(Keyed(key, text)) && OneLine(Keyed(key, text)) && Keyed(key, text) != ""
  {
    KnownKeysPlain(key);
    var line := Keyed(key, text);
    forall k | 0 <= k < |line| ensures !IsBreak(line[k]) {
      if k > |key| + 1 {
        assert line[k] == text[k - |key| - 2];
      }
    }
  }

  /** A known key before a colon is read as that key. */
  lemma {:induction false} KeyedReads(key: string, text: string)
    requires key in KnownKeys && Trimmed(text) && OneLine(text)
    ensures var line := Keyed(key, text);
      KeyOf(line) == Some(key) && ColonAt(line) == Some(|key|) && Strip(line[|key| + 1..]) == text
  {
    KnownKeysPlain(key);
    var line := Keyed(key, text);
    KeyedIs(key, text);
    ColonAfter(key, After(text));
    assert line[..|key|] == key && line[|key| + 1..] == After(text);
    KeyIsItself(key);
    SpaceFirst(text);
    assert Strip("") == "";
  }

  lemma KeyIsItself(key: string)
    requires forall k :: 0 <= k < |key| ==> Plain(key[k])
    ensures Lower(Strip(key)) == key
  {
    TrimmedStays(key);
  }

  lemma SpaceFirst(text: string)
    requires Trimmed(text)
    ensures Strip(" " + text) == text
  {
    if text == "" {
      assert " " + text == " " && " "[..0] == "";
    } else {
      var s := " " + text;
      assert s[|s| - 1] == text[|text| - 1];
      assert Rstrip(s) == s && s[1..] == text;
    }
  }

  lemma {:induction false} ColonAfter(key: string, rest: string)
    requires forall k :: 0 <= k < |key| ==> key[k] != ':'
    ensures ColonAt(key + ":" + rest) == Some(|key|)
  {
    var s := key + ":" + rest;
    if key != "" {
      assert s[1..] == key[1..] + ":" + rest && s[0] == key[0];
      ColonAfter(key[1..], rest);
    }
  }

  /** What is read after the first lines of a text. */
  function SoFar(p: Parsed, key: string, lines: seq<string>): Parsed {
    Collect(p, Item(key, Lines(lines)))
  }

  /** A line that continues a text is added to it. */
  lemma ContinuationFolds(d: Digits, p: Parsed, line: string)
    requires Continues(line)
    ensures ParseLine(d, p, line) == Some(Fold(p, line))
  {
    TrimmedStays(line);
  }

  lemma FoldAdds(p: Parsed, key: string, lines: seq<string>, line: string)
    requires lines != [] && lines[0] != ""
    ensures Fold(SoFar(p, key, lines), line) == SoFar(p, key, lines + [line])
  {
    JoinSnoc("\n", lines, line);
    JoinStarts(lines);
  }

  /** When every line of a text is read as one more line of it, the text is read. */
  lemma {:induction false} RestFolds(read: Reader, p: Parsed, key: string, lines: seq<string>, n: nat)
    requires 1 <= n <= |lines|
    requires forall k :: n <= k < |lines| ==>
      read(SoFar(p, key, lines[..k]), lines[k]) == Some(SoFar(p, key, lines[..k] + [lines[k]]))
    ensures ParseLines(read, SoFar(p, key, lines[..n]), lines[n..]) == Some(SoFar(p, key, lines))
    decreases |lines| - n
  {
    if n == |lines| {
      assert lines[..n] == lines && lines[n..] == [];
    } else {
      assert lines[n..][0] == lines[n] && lines[n..][1..] == lines[n + 1..];
      assert lines[..n + 1] == lines[..n] + [lines[n]];
      RestFolds(read, p, key, lines, n + 1);
    }
  }

  lemma JoinStarts(lines: seq<string>)
    requires lines != [] && lines[0] != ""
    ensures Join("\n", lines) != ""
  {
  }

  /** The first line of an item opens its argument. */
  lemma {:induction false} FirstReads(d: Digits, p: Parsed, key: string, text: string)
    requires key in KnownKeys && Trimmed(text) && OneLine(text)
    ensures ParseLine(d, p, Keyed(key, text)) == Open(d, p, key, text)
  {
    KeyedOpens(key, text);
    StripsToItself(Keyed(key, text), key, text);
  }

  lemma KeyedOpens(key: string, text: string)
    requires key in KnownKeys && Trimmed(text) && OneLine(text)
    ensures var line := Keyed(key, text);
      line != "" && Strip(line) == line && Opening(line) == Some((key, text))
  {
    KeyedIsLine(key, text);
    KeyedReads(key, text);
    TrimmedStays(Keyed(key, text));
  }

  lemma StripsToItself(line: string, key: string, text: string)
    requires line != "" && Strip(line) == line && Opening(line) == Some((key, text))
    ensures forall d, p :: ParseLine(d, p, line) == Open(d, p, key, text)
  {
    forall d, p ensures ParseLine(d, p, line) == Open(d, p, key, text) {
      assert ParseLine(d, p, line) == ParseStripped(d, p, line, Some((key, text)));
    }
  }

  lemma {:induction false} TextReads(d: Digits, p: Parsed, key: string, texts: seq<string>)
    requires Canonical(d, Item(key, Lines(texts)))
    ensures ParseLines(Reads(d), p, ItemLines(Item(key, Lines(texts)))) == Some(SoFar(p, key, texts))
  {
    FirstReads(d, p, key, texts[0]);
    assert texts[..1] == [texts[0]];
    assert Open(d, p, key, texts[0]) == Some(SoFar(p, key, texts[..1]));
    forall k | 1 <= k < |texts|
      ensures Reads(d)(SoFar(p, key, texts[..k]), texts[k]) == Some(SoFar(p, key, texts[..k] + [texts[k]]))
    {
      ContinuationFolds(d, SoFar(p, key, texts[..k]), texts[k]);
      FoldAdds(p, key, texts[..k], texts[k]);
    }
    RestFolds(Reads(d), p, key, texts, 1);
    OpensThenRest(Reads(d), p, Keyed(key, texts[0]), SoFar(p, key, texts[..1]), texts[1..]);
  }

  lemma OpensThenRest(read: Reader, p: Parsed, first: string, q: Parsed, rest: seq<string>)
    requires read(p, first) == Some(q)
    ensures ParseLines(read, p, [first] + rest) == ParseLines(read, q, rest)
  {
    assert ([first] + rest)[1..] == rest;
  }

  lemma {:induction false} NumberReads(d: Digits, p: Parsed, key: string, n: nat)
    requires Latin(d) && Canonical(d, Item(key, Number(n)))
    ensures ParseLines(Reads(d), p, ItemLines(Item(key, Number(n)))) == Some(Collect(p, Item(key, Number(n))))
  {
    var after := Collect(p, Item(key, Number(n)));
    DecimalReads(d, n);
    FirstReads(d, p, key, Decimal(n));
    NumberOpens(d, p, key, n);
    assert Reads(d)(p, Keyed(key, Decimal(n))) == Some(after);
    OpensThenRest(Reads(d), p, Keyed(key, Decimal(n)), after, []);
  }

  lemma NumberOpens(d: Digits, p: Parsed, key: string, n: nat)
    requires Latin(d) && key != "reason" && |Decimal(n)| <= MaxIntDigits
    ensures Open(d, p, key, Decimal(n)) == Some(Collect(p, Item(key, Number(n))))
  {
    DecimalReads(d, n);
  }

  /** Reading the lines of an item gives the item. */
  lemma {:induction false} ItemReads(d: Digits, p: Parsed, item: Item)
    requires Latin(d) && Canonical(d, item)
    ensures ParseLines(Reads(d), p, ItemLines(item)) == Some(Collect(p, item))
  {
    match item.value
    case Number(n) =>
      assert item == Item(item.key, Number(n));
      NumberReads(d, p, item.key, n);
    case Lines(texts) =>
      assert item == Item(item.key, Lines(texts));
      TextReads(d, p, item.key, texts);
  }

  // ---- when reading raises --------------------------------------------------------------------

  /** A text of digits that `int` refuses: too long, or with a digit that is not decimal, such as a superscript. */
  predicate Unconvertible(d: Digits, val: string) {
    IsDigits(d, val) && (|val| > MaxIntDigits || exists k :: 0 <= k < |val| && !d(val[k]).DecimalDigit?)
  }

  lemma {:induction false} IntRefuses(d: Digits, s: string)
    ensures IntOf(d, s).None? <==> exists k :: 0 <= k < |s| && !d(s[k]).DecimalDigit?
  {
    if s != "" {
      var front := s[..|s| - 1];
      IntRefuses(d, front);
      assert forall k :: 0 <= k < |front| ==> front[k] == s[k];
    }
  }

  /** A line that opens an argument other than the reason with such a value. */
  predicate RaisingLine(d: Digits, raw: string) {
    RaisingOpening(d, Opening(Strip(raw)))
  }

  predicate RaisingOpening(d: Digits, opening: Option<(string, string)>) {
    opening.Some? && opening.value.0 != "reason" && Unconvertible(d, opening.value.1)
  }

  lemma BlankOpensNothing()
    ensures Opening("") == None
  {
  }

  lemma StrippedRaisesIff(d: Digits, p: Parsed, line: string, opening: Option<(string, string)>)
    requires line == "" ==> opening.None?
    ensures ParseStripped(d, p, line, opening).None? <==> RaisingOpening(d, opening)
  {
    if opening.Some? {
      OpenRaisesIff(d, p, opening.value.0, opening.value.1);
    }
  }

  lemma OpenRaisesIff(d: Digits, p: Parsed, key: string, val: string)
    ensures Open(d, p, key, val).None? <==> key != "reason" && Unconvertible(d, val)
  {
    IntRefuses(d, val);
  }

  lemma LineRaisesIff(d: Digits, p: Parsed, raw: string)
    ensures ParseLine(d, p, raw).None? <==> RaisingLine(d, raw)
  {
    BlankOpensNothing();
    StrippedRaisesIff(d, p, Strip(raw), Opening(Strip(raw)));
  }

  lemma {:induction false} ReadingRaisesWhere(read: Reader, raises: string -> bool, p: Parsed, lines: seq<string>)
    requires forall q, raw :: read(q, raw).None? <==> raises(raw)
    ensures ParseLines(read, p, lines).None? <==> exists k :: 0 <= k < |lines| && raises(lines[k])
    decreases |lines|
  {
    if lines != [] {
      var q := read(p, lines[0]);
      if q.Some? {
        ReadingRaisesWhere(read, raises, q.value, lines[1..]);
        assert forall k :: 0 < k < |lines| ==> lines[k] == lines[1..][k - 1];
        assert forall k :: 0 <= k < |lines| - 1 ==> lines[1..][k] == lines[k + 1];
      }
    }
  }

  function Raising(d: Digits): string -> bool {
    (raw: string) => RaisingLine(d, raw)
  }

  /** Reading a body raises exactly when one of its lines gives an argument a text of digits that `int` refuses. */
  lemma ReadingRaisesIff(d: Digits, p: Parsed, lines: seq<string>)
    ensures ParseLines(Reads(d), p, lines).None? <==> exists k :: 0 <= k < |lines| && Raising(d)(lines[k])
  {
    forall q, raw ensures Reads(d)(q, raw).None? <==> Raising(d)(raw) {
      LineRaisesIff(d, q, raw);
    }
    ReadingRaisesWhere(Reads(d), Raising(d), p, lines);
  }

  /** Whatever was read before, such a value under any key but the reason raises. */
  lemma {:induction false} UnconvertibleRaises(d: Digits, key: string, val: string)
    requires key in KnownKeys && key != "reason" && Trimmed(val) && OneLine(val) && Unconvertible(d, val)
    ensures RaisingLine(d, Keyed(key, val))
  {
    KeyedOpens(key, val);
  }

  predicate AllCanonical(d: Digits, items: seq<Item>) {
    forall k :: 0 <= k < |items| ==> Canonical(d, items[k])
  }

  ghost predicate ReadsItem(read: Reader, item: Item) {
    forall p :: ParseLines(read, p, ItemLines(item)) == Some(Collect(p, item))
  }

  lemma {:induction false} EachThenAll(read: Reader, p: Parsed, items: seq<Item>)
    requires forall k :: 0 <= k < |items| ==> ReadsItem(read, items[k])
    ensures ParseLines(read, p, AllLines(items)) == Some(CollectAll(p, items))
    decreases |items|
  {
    if items != [] {
      assert ReadsItem(read, items[0]);
      ParseLinesAppend(read, p, ItemLines(items[0]), AllLines(items[1..]));
      EachThenAll(read, Collect(p, items[0]), items[1..]);
    }
  }

  /** Reading the lines of all items gives all items. */
  lemma {:induction false} ItemsRead(d: Digits, p: Parsed, items: seq<Item>)
    requires Latin(d) && AllCanonical(d, items)
    ensures ParseLines(Reads(d), p, AllLines(items)) == Some(CollectAll(p, items))
  {
    forall k | 0 <= k < |items| ensures ReadsItem(Reads(d), items[k]) {
      forall q ensures ParseLines(Reads(d), q, ItemLines(items[k])) == Some(Collect(q, items[k])) {
        ItemReads(d, q, items[k]);
      }
    }
    EachThenAll(Reads(d), p, items);
  }
}
