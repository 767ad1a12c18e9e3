/** The text that is hashed for a list of proposed actions (core/approval.py): JSON with sorted keys, characters as they are. */
module CanonicalJson {

  datatype ActionData = ActionData(kind: string, target: string, payload: string)

  function HexDigit(n: nat): char
    requires n < 16
  {
    "0123456789abcdef"[n]
  }

  predicate Control(c: char) {
    c < ' '
  }

  /** The letter of the short escapes. */
  function ShortEscape(c: char): char {
    if c == '\U{08}' then 'b' else if c == '\U{0C}' then 'f' else if c == '\n' then 'n' else if c == '\r' then 'r'
    else if c == '\t' then 't' else c
  }

  predicate HasShort(c: char) {
    c == '\\' || c == '"' || c == '\U{08}' || c == '\U{0C}' || c == '\n' || c == '\r' || c == '\t'
  }

  /** One character inside a JSON string. */
  function Escape(c: char): (s: string)
    ensures s != "" && s[0] != '"'
  {
    if HasShort(c) then ['\\', ShortEscape(c)]
    else if Control(c) then "\\u00" + [HexDigit(c as int / 16), HexDigit(c as int % 16)]
    else [c]
  }

  function EscapeAll(s: string): string {
    if s == "" then "" else Escape(s[0]) + EscapeAll(s[1..])
  }

  function Quoted(s: string): string {
    "\"" + EscapeAll(s) + "\""
  }

  function ObjectText(a: ActionData): string {
    "{\"kind\": " + Quoted(a.kind) + ", \"payload\": " + Quoted(a.payload) + ", \"target\": " + Quoted(a.target) + "}"
  }

  type Writer = ActionData -> string

  /** The items of a list, as `text` writes each of them, and the closing bracket. */
  function ItemsText(text: Writer, actions: seq<ActionData>): string
    decreases |actions|, 1
  {
    if actions == [] then "]" else text(actions[0]) + Rest(text, actions)
  }

  function Rest(text: Writer, actions: seq<ActionData>): string
    requires actions != []
    decreases |actions|, 0
  {
    if |actions| > 1 then ", " + ItemsText(text, actions[1..]) else "]"
  }

  function ObjectWriter(): Writer {
    (a: ActionData) => ObjectText(a)
  }

  function ListText(actions: seq<ActionData>): string {
    "[" + ItemsText(ObjectWriter(), actions)
  }

  // ---- it can be read back --------------------------------------------------------------------

  lemma HexDiffers(a: nat, b: nat)
    requires a < 16 && b < 16
    ensures a != b ==> HexDigit(a) != HexDigit(b)
  {
  }

  /** Escapes of different characters differ where both go on. */
  lemma EscapesDiffer(c: char, d: char, x: string, y: string)
    requires c != d
    ensures Escape(c) + x != Escape(d) + y
  {
    var s, t := Escape(c) + x, Escape(d) + y;
    assert s[0] == Escape(c)[0] && t[0] == Escape(d)[0];
    if s[0] == t[0] {
      assert (HasShort(c) || Control(c)) && (HasShort(d) || Control(d));
      assert s[1] == Escape(c)[1] && t[1] == Escape(d)[1];
      if HasShort(c) && HasShort(d) {
        assert ShortEscape(c) != ShortEscape(d);
      } else if !HasShort(c) && !HasShort(d) {
        ControlsDiffer(c, d, x, y);
      }
    }
  }

  lemma ControlsDiffer(c: char, d: char, x: string, y: string)
    requires c != d && Control(c) && Control(d) && !HasShort(c) && !HasShort(d)
    ensures Escape(c) + x != Escape(d) + y
  {
    var s, t := Escape(c) + x, Escape(d) + y;
    assert s[4] == HexDigit(c as int / 16) && t[4] == HexDigit(d as int / 16);
    assert s[5] == HexDigit(c as int % 16) && t[5] == HexDigit(d as int % 16);
    assert c as int / 16 != d as int / 16 || c as int % 16 != d as int % 16;
    HexDiffers(c as int / 16, d as int / 16);
    HexDiffers(c as int % 16, d as int % 16);
  }

  lemma EscapesApart(c: char, d: char, x: string, y: string)
    requires Escape(c) + x == Escape(d) + y
    ensures c == d && x == y
  {
    if c != d {
      EscapesDiffer(c, d, x, y);
    }
    PrefixGoes(Escape(c), x, y);
  }

  lemma PrefixGoes(p: string, x: string, y: string)
    requires p + x == p + y
    ensures x == y
  {
    assert (p + x)[|p|..] == x && (p + y)[|p|..] == y;
  }

  /** A string and what follows its closing quote. */
  function Closed(s: string, x: string): string {
    EscapeAll(s) + ("\"" + x)
  }

  lemma ClosedStarts(s: string, x: string)
    ensures s == "" ==> Closed(s, x) == "\"" + x
    ensures s != "" ==> Closed(s, x) == Escape(s[0]) + Closed(s[1..], x) && Closed(s, x)[0] != '"'
  {
    if s != "" {
      assert Escape(s[0]) + EscapeAll(s[1..]) + ("\"" + x) == Escape(s[0]) + (EscapeAll(s[1..]) + ("\"" + x));
    }
  }

  lemma {:induction false} StringsApart(s: string, t: string, x: string, y: string)
    requires Closed(s, x) == Closed(t, y)
    ensures s == t && x == y
  {
    ClosedStarts(s, x);
    ClosedStarts(t, y);
    assert (s == "") == (Closed(s, x)[0] == '"') && (t == "") == (Closed(t, y)[0] == '"');
    if s == "" {
      PrefixGoes("\"", x, y);
    } else {
      EscapesApart(s[0], t[0], Closed(s[1..], x), Closed(t[1..], y));
      StringsApart(s[1..], t[1..], x, y);
      assert s == [s[0]] + s[1..] && t == [t[0]] + t[1..];
    }
  }

  lemma QuotedIs(s: string, x: string)
    ensures Quoted(s) + x == "\"" + Closed(s, x)
  {
    var e := EscapeAll(s);
    assert ("\"" + e + "\"") + x == "\"" + (e + ("\"" + x));
  }

  lemma QuotedApart(s: string, t: string, x: string, y: string)
    requires Quoted(s) + x == Quoted(t) + y
    ensures s == t && x == y
  {
    QuotedIs(s, x);
    QuotedIs(t, y);
    PrefixGoes("\"", Closed(s, x), Closed(t, y));
    StringsApart(s, t, x, y);
  }

  lemma FieldApart(name: string, s: string, t: string, x: string, y: string)
    requires name + Quoted(s) + x == name + Quoted(t) + y
    ensures s == t && x == y
  {
    assert name + Quoted(s) + x == name + (Quoted(s) + x) && name + Quoted(t) + y == name + (Quoted(t) + y);
    PrefixGoes(name, Quoted(s) + x, Quoted(t) + y);
    QuotedApart(s, t, x, y);
  }

  /** What follows the kind of an object, and what follows its payload. */
  function AfterPayload(a: ActionData, x: string): string {
    ", \"target\": " + Quoted(a.target) + ("}" + x)
  }

  function AfterKind(a: ActionData, x: string): string {
    ", \"payload\": " + Quoted(a.payload) + AfterPayload(a, x)
  }

  lemma ObjectIs(a: ActionData, x: string)
    ensures ObjectText(a) + x == "{\"kind\": " + Quoted(a.kind) + AfterKind(a, x)
  {
    var k, p, t := Quoted(a.kind), Quoted(a.payload), Quoted(a.target);
    assert ("{\"kind\": " + k + ", \"payload\": " + p + ", \"target\": " + t + "}") + x
        == "{\"kind\": " + k + (", \"payload\": " + p + (", \"target\": " + t + ("}" + x)));
  }

  lemma ObjectsApart(a: ActionData, b: ActionData, x: string, y: string)
    requires ObjectText(a) + x == ObjectText(b) + y
    ensures a == b && x == y
  {
    ObjectIs(a, x);
    ObjectIs(b, y);
    FieldApart("{\"kind\": ", a.kind, b.kind, AfterKind(a, x), AfterKind(b, y));
    FieldApart(", \"payload\": ", a.payload, b.payload, AfterPayload(a, x), AfterPayload(b, y));
    FieldApart(", \"target\": ", a.target, b.target, "}" + x, "}" + y);
    PrefixGoes("}", x, y);
  }

  /** What is written of one action opens with a brace and tells where it ends. */
  ghost predicate SelfDelimiting(text: Writer) {
    && (forall a :: text(a) != "" && text(a)[0] == '{')
    && (forall a, b, x, y :: text(a) + x == text(b) + y ==> a == b && x == y)
  }

  lemma ObjectsDelimit()
    ensures SelfDelimiting(ObjectWriter())
  {
    forall a, b, x, y | ObjectWriter()(a) + x == ObjectWriter()(b) + y ensures a == b && x == y {
      ObjectsApart(a, b, x, y);
    }
  }

  lemma ItemsStart(text: Writer, actions: seq<ActionData>)
    requires SelfDelimiting(text)
    ensures ItemsText(text, actions) != "" && ItemsText(text, actions)[0] == if actions == [] then ']' else '{'
  {
  }

  lemma {:induction false} ItemsApart(text: Writer, a: seq<ActionData>, b: seq<ActionData>)
    requires SelfDelimiting(text) && ItemsText(text, a) == ItemsText(text, b)
    ensures a == b
  {
    ItemsStart(text, a);
    ItemsStart(text, b);
    if a != [] {
      assert text(a[0]) + Rest(text, a) == text(b[0]) + Rest(text, b);
      assert a[0] == b[0] && Rest(text, a) == Rest(text, b);
      if |a| > 1 {
        assert Rest(text, b)[0] == ',';
        PrefixGoes(", ", ItemsText(text, a[1..]), ItemsText(text, b[1..]));
        ItemsApart(text, a[1..], b[1..]);
      } else {
        assert Rest(text, b)[0] == ']';
      }
      assert a == [a[0]] + a[1..] && b == [b[0]] + b[1..];
    }
  }

  /** Different lists have different texts. */
  lemma ListsApart(a: seq<ActionData>, b: seq<ActionData>)
    ensures ListText(a) == ListText(b) <==> a == b
  {
    if ListText(a) == ListText(b) {
      PrefixGoes("[", ItemsText(ObjectWriter(), a), ItemsText(ObjectWriter(), b));
      ObjectsDelimit();
      ItemsApart(ObjectWriter(), a, b);
    }
  }
}
