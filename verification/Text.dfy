/** The string operations of the source language that the modelled code relies on. */
module Text {

  /** `str.isspace` for one character. */
  predicate IsSpace(c: char) {
    || '\t' <= c <= '\r' || '\U{1C}' <= c <= ' ' || c == '\U{85}' || c == '\U{A0}' || c == '\U{1680}'
    || '\U{2000}' <= c <= '\U{200A}' || c == '\U{2028}' || c == '\U{2029}' || c == '\U{202F}' || c == '\U{205F}'
    || c == '\U{3000}'
  }

  predicate IsBlank(s: string) {
    forall i :: 0 <= i < |s| ==> IsSpace(s[i])
  }

  /** `str.lstrip()` */
  function Lstrip(s: string): (r: string)
    ensures |r| <= |s| && r == s[|s| - |r|..]
    ensures r != [] ==> !IsSpace(r[0])
    ensures IsBlank(s[..|s| - |r|])
  {
    if s != [] && IsSpace(s[0]) then
      var r := Lstrip(s[1..]);
      assert s[..|s| - |r|] == [s[0]] + s[1..][..|s| - 1 - |r|];
      r
    else s
  }

  /** `str.rstrip()` */
  function Rstrip(s: string): (r: string)
    ensures r <= s
    ensures r != [] ==> !IsSpace(r[|r| - 1])
    ensures IsBlank(s[|r|..])
  {
    if s != [] && IsSpace(s[|s| - 1]) then
      var r := Rstrip(s[..|s| - 1]);
      assert s[|r|..] == s[..|s| - 1][|r|..] + [s[|s| - 1]];
      r
    else s
  }

  /** `str.strip()` */
  function Strip(s: string): string {
    Lstrip(Rstrip(s))
  }

  lemma StripBlank(s: string)
    ensures Strip(s) == "" <==> IsBlank(s)
  {
    var r := Rstrip(s);
    var t := Lstrip(r);
    if t == "" {
      assert r[..|r| - |t|] == r;
      assert s == r + s[|r|..];
    } else {
      assert t[0] in s by {
        assert t[0] == r[|r| - |t|] == s[|r| - |t|];
      }
    }
  }

  function Digit(n: nat): char
    requires n < 10
  {
    "0123456789"[n]
  }

  /** The decimal digits of a number, as formatted into an identifier. */
  function Decimal(n: nat): (s: string)
    ensures |s| > 0
  {
    if n < 10 then [Digit(n)] else Decimal(n / 10) + [Digit(n % 10)]
  }

  lemma DigitInjective(a: nat, b: nat)
    requires a < 10 && b < 10 && Digit(a) == Digit(b)
    ensures a == b
  {
  }

  lemma {:induction false} DecimalInjective(a: nat, b: nat)
    requires Decimal(a) == Decimal(b)
    ensures a == b
  {
    var s := Decimal(a);
    assert s[|s| - 1] == Digit(a % 10) && s[|s| - 1] == Digit(b % 10);
    DigitInjective(a % 10, b % 10);
    assert (a < 10 <==> |s| == 1) && (b < 10 <==> |s| == 1);
    if a >= 10 {
      assert Decimal(a / 10) == s[..|s| - 1] == Decimal(b / 10);
      DecimalInjective(a / 10, b / 10);
    }
  }

  /** `sep.join(parts)` */
  function Join(sep: string, parts: seq<string>): string {
    if parts == [] then ""
    else if |parts| == 1 then parts[0]
    else parts[0] + sep + Join(sep, parts[1..])
  }

  lemma {:induction false} JoinSnoc(sep: string, parts: seq<string>, last: string)
    requires parts != []
    ensures Join(sep, parts + [last]) == Join(sep, parts) + sep + last
  {
    if |parts| == 1 {
      assert (parts + [last])[1..] == [last];
    } else {
      assert (parts + [last])[1..] == parts[1..] + [last];
      JoinSnoc(sep, parts[1..], last);
      var rest := Join(sep, parts[1..]);
      assert parts[0] + sep + (rest + sep + last) == (parts[0] + sep + rest) + sep + last;
    }
  }

  /** `s.split(sep)` for a separator that is not empty. */
  function SplitOn(s: string, sep: string): (r: seq<string>)
    requires sep != ""
    ensures r != []
    decreases |s|
  {
    if sep <= s then [""] + SplitOn(s[|sep|..], sep)
    else if s == "" then [""]
    else
      var r := SplitOn(s[1..], sep);
      [[s[0]] + r[0]] + r[1..]
  }

  lemma JoinBlank(sep: string, parts: seq<string>)
    requires parts != []
    ensures Join(sep, [""] + parts) == sep + Join(sep, parts)
  {
    assert ([""] + parts)[1..] == parts;
    assert "" + sep + Join(sep, parts) == sep + Join(sep, parts);
  }

  lemma JoinHead(sep: string, c: char, parts: seq<string>)
    requires parts != []
    ensures Join(sep, [[c] + parts[0]] + parts[1..]) == [c] + Join(sep, parts)
  {
    assert ([[c] + parts[0]] + parts[1..])[1..] == parts[1..];
  }

  lemma {:induction false} SplitOnJoins(s: string, sep: string)
    requires sep != ""
    ensures Join(sep, SplitOn(s, sep)) == s
    decreases |s|
  {
    if sep <= s {
      SplitOnJoins(s[|sep|..], sep);
      JoinBlank(sep, SplitOn(s[|sep|..], sep));
    } else if s != "" {
      SplitOnJoins(s[1..], sep);
      JoinHead(sep, s[0], SplitOn(s[1..], sep));
    }
  }

  lemma {:induction false} LinesHaveNoBreak(s: string)
    ensures forall line | line in SplitOn(s, "\n") :: '\n' !in line
    decreases |s|
  {
    if "\n" <= s {
      LinesHaveNoBreak(s[1..]);
    } else if s != "" {
      LinesHaveNoBreak(s[1..]);
      var r := SplitOn(s[1..], "\n");
      assert r[0] in r && s[0] != '\n';
      assert forall line | line in r[1..] :: line in r;
    }
  }

  /** The characters that are not whitespace, in order. */
  function Visible(s: string): string {
    if s == "" then "" else (if IsSpace(s[0]) then "" else [s[0]]) + Visible(s[1..])
  }

  lemma {:induction false} VisibleConcat(a: string, b: string)
    ensures Visible(a + b) == Visible(a) + Visible(b)
  {
    if a == "" {
      assert a + b == b;
    } else {
      assert (a + b)[1..] == a[1..] + b;
      VisibleConcat(a[1..], b);
    }
  }

  lemma {:induction false} VisibleBlank(s: string)
    requires IsBlank(s)
    ensures Visible(s) == ""
  {
    if s != "" {
      VisibleBlank(s[1..]);
    }
  }

  /** `s.strip("\n")` */
  function StripBreaks(s: string): (r: string)
    ensures |r| <= |s|
  {
    if s != "" && s[0] == '\n' then StripBreaks(s[1..])
    else if s != "" && s[|s| - 1] == '\n' then StripBreaks(s[..|s| - 1])
    else s
  }

  lemma {:induction false} StripBreaksKeepsVisible(s: string)
    ensures Visible(StripBreaks(s)) == Visible(s)
    decreases |s|
  {
    if s != "" && s[0] == '\n' {
      StripBreaksKeepsVisible(s[1..]);
    } else if s != "" && s[|s| - 1] == '\n' {
      StripBreaksKeepsVisible(s[..|s| - 1]);
      assert s == s[..|s| - 1] + "\n";
      VisibleConcat(s[..|s| - 1], "\n");
    }
  }
}
