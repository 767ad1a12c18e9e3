/** `_split_content` (chain/orchestrator.py): cutting a long content into chunks. */
module Splitter {
  import opened Collections
  import opened Text
  import Budget

  const FileBoundary := "======== END OF SOURCE CODE ========"

  /** The central estimator with its default of four characters a token. */
  function Est(text: string): nat {
    Budget.Estimate(4, text)
  }

  lemma EstMonotone(a: string, b: string)
    requires |a| <= |b|
    ensures Est(a) <= Est(b)
  {
  }

  // ---- groups of pieces -----------------------------------------------------------------------

  function Flatten(groups: seq<seq<string>>): seq<string> {
    if groups == [] then [] else groups[0] + Flatten(groups[1..])
  }

  lemma {:induction false} FlattenSnoc(groups: seq<seq<string>>, g: seq<string>)
    ensures Flatten(groups + [g]) == Flatten(groups) + g
  {
    if groups == [] {
      assert Flatten([g]) == g + Flatten([]);
    } else {
      assert (groups + [g])[1..] == groups[1..] + [g];
      FlattenSnoc(groups[1..], g);
    }
  }

  function JoinAll(sep: string, groups: seq<seq<string>>): (r: seq<string>)
    ensures |r| == |groups|
  {
    seq(|groups|, k requires 0 <= k < |groups| => Join(sep, groups[k]))
  }

  lemma JoinAllSnoc(sep: string, groups: seq<seq<string>>, g: seq<string>)
    ensures JoinAll(sep, groups + [g]) == JoinAll(sep, groups) + [Join(sep, g)]
  {
  }

  predicate NoneEmpty(groups: seq<seq<string>>) {
    forall k :: 0 <= k < |groups| ==> groups[k] != []
  }

  // ---- at line breaks -------------------------------------------------------------------------

  /** What the loop counts for the lines of a chunk. */
  function LineTokens(lines: seq<string>): nat {
    SumBy(lines, (line: string) => Est(line) + 1)
  }

  /** The count never falls below what the joined chunk is estimated at. */
  lemma {:induction false} JoinedLinesFit(lines: seq<string>)
    requires lines != []
    ensures |Join("\n", lines)| < 4 * LineTokens(lines)
    ensures Est(Join("\n", lines)) <= LineTokens(lines)
  {
    if |lines| == 1 {
      assert LineTokens(lines[1..]) == 0;
    } else {
      JoinedLinesFit(lines[1..]);
    }
  }

  lemma {:induction false} JoinOfJoins(sep: string, groups: seq<seq<string>>)
    requires NoneEmpty(groups)
    ensures Join(sep, JoinAll(sep, groups)) == Join(sep, Flatten(groups))
  {
    if |groups| == 1 {
      assert Flatten(groups) == groups[0] + Flatten(groups[1..]) == groups[0];
      assert JoinAll(sep, groups) == [Join(sep, groups[0])];
    } else if groups != [] {
      var rest := groups[1..];
      JoinOfJoins(sep, rest);
      assert JoinAll(sep, groups)[1..] == JoinAll(sep, rest);
      FlattenNotEmpty(rest);
      JoinConcat(sep, groups[0], Flatten(rest));
    }
  }

  lemma FlattenNotEmpty(groups: seq<seq<string>>)
    requires NoneEmpty(groups) && groups != []
    ensures Flatten(groups) != []
  {
    assert groups[0] != [];
  }

  lemma {:induction false} JoinConcat(sep: string, a: seq<string>, b: seq<string>)
    requires a != [] && b != []
    ensures Join(sep, a + b) == Join(sep, a) + sep + Join(sep, b)
  {
    assert (a + b)[1..] == a[1..] + b;
    if |a| > 1 {
      JoinConcat(sep, a[1..], b);
      var x, y := Join(sep, a[1..]), Join(sep, b);
      assert a[0] + sep + (x + sep + y) == (a[0] + sep + x) + sep + y;
    } else {
      assert a[1..] == [] && (a + b)[1..] == b;
    }
  }

  /** Groups of consecutive lines; one of several lines is within the budget. */
  predicate LineGroups(groups: seq<seq<string>>, lines: seq<string>, budget: int) {
    && NoneEmpty(groups) && Flatten(groups) == lines
    && forall k :: 0 <= k < |groups| && |groups[k]| > 1 ==> LineTokens(groups[k]) <= budget
  }

  /** Cutting the rest of the lines: a group is closed when the next line would take it over the budget. */
  function CutLines(lines: seq<string>, budget: int, groups: seq<seq<string>>, current: seq<string>): seq<seq<string>>
    decreases |lines|
  {
    if lines == [] then groups + [current]
    else if LineTokens(current) + Est(lines[0]) + 1 > budget && current != [] then
      CutLines(lines[1..], budget, groups + [current], [lines[0]])
    else CutLines(lines[1..], budget, groups, current + [lines[0]])
  }

  lemma LineTokensSnoc(lines: seq<string>, line: string)
    ensures LineTokens(lines + [line]) == LineTokens(lines) + Est(line) + 1
  {
    SumByAppend(lines, [line], (l: string) => Est(l) + 1);
    assert LineTokens([line]) == Est(line) + 1 + LineTokens([line][1..]);
  }

  lemma CloseLines(groups: seq<seq<string>>, current: seq<string>, budget: int)
    requires LineGroups(groups, Flatten(groups), budget) && current != []
    requires |current| > 1 ==> LineTokens(current) <= budget
    ensures LineGroups(groups + [current], Flatten(groups) + current, budget)
  {
    FlattenSnoc(groups, current);
  }

  lemma Regroup(a: seq<string>, b: seq<string>, c: seq<string>)
    requires c != []
    ensures a + b + [c[0]] + c[1..] == a + b + c && a + (b + [c[0]]) + c[1..] == a + b + c
  {
  }

  lemma {:induction false} CutLinesGroups(lines: seq<string>, budget: int, groups: seq<seq<string>>, current: seq<string>)
    requires LineGroups(groups, Flatten(groups), budget) && current + lines != []
    requires |current| > 1 ==> LineTokens(current) <= budget
    ensures LineGroups(CutLines(lines, budget, groups, current), Flatten(groups) + current + lines, budget)
    decreases |lines|
  {
    if lines == [] {
      CloseLines(groups, current, budget);
      assert Flatten(groups) + current + lines == Flatten(groups) + current;
    } else {
      Regroup(Flatten(groups), current, lines);
      if LineTokens(current) + Est(lines[0]) + 1 > budget && current != [] {
        CloseLines(groups, current, budget);
        FlattenSnoc(groups, current);
        CutLinesGroups(lines[1..], budget, groups + [current], [lines[0]]);
      } else {
        LineTokensSnoc(current, lines[0]);
        CutLinesGroups(lines[1..], budget, groups, current + [lines[0]]);
      }
    }
  }

  /** The groups of lines the splitter makes. */
  function LinesCut(content: string, budget: int): seq<seq<string>> {
    CutLines(SplitOn(content, "\n"), budget, [], [])
  }

  /** The loop over lines, with its running token count. */
  method CutAtLines(content: string, budget: int) returns (chunks: seq<string>)
    ensures chunks == JoinAll("\n", LinesCut(content, budget))
  {
    var lines := SplitOn(content, "\n");
    chunks := [];
    ghost var groups: seq<seq<string>> := [];
    var current: seq<string>, tokens := [], 0;
    for i := 0 to |lines|
      invariant (i == 0) == (current == []) && tokens == LineTokens(current)
      invariant CutLines(lines[i..], budget, groups, current) == CutLines(lines, budget, [], [])
      invariant chunks == JoinAll("\n", groups)
    {
      var line := lines[i];
      var lineTokens := Est(line) + 1;
      assert lines[i..][1..] == lines[i + 1..];
      if tokens + lineTokens > budget && current != [] {
        JoinAllSnoc("\n", groups, current);
        chunks, groups := chunks + [Join("\n", current)], groups + [current];
        current, tokens := [], 0;
        assert current + [line] == [line];
      }
      LineTokensSnoc(current, line);
      current, tokens := current + [line], tokens + lineTokens;
    }
    JoinAllSnoc("\n", groups, current);
    chunks := chunks + [Join("\n", current)];
  }

  lemma LinesCutGroups(content: string, budget: int)
    ensures LineGroups(LinesCut(content, budget), SplitOn(content, "\n"), budget)
  {
    CutLinesGroups(SplitOn(content, "\n"), budget, [], []);
    assert [] + [] + SplitOn(content, "\n") == SplitOn(content, "\n");
  }

  /** Line chunks, joined by line breaks, are the content; one of several lines is within the budget. */
  lemma LineChunksKeepContent(content: string, budget: int)
    ensures var chunks := JoinAll("\n", LinesCut(content, budget));
      && Join("\n", chunks) == content
      && forall chunk | chunk in chunks && '\n' in chunk :: Est(chunk) <= budget
  {
    var groups := LinesCut(content, budget);
    LinesCutGroups(content, budget);
    SplitOnJoins(content, "\n");
    JoinOfJoins("\n", groups);
    var chunks := JoinAll("\n", groups);
    forall chunk | chunk in chunks && '\n' in chunk ensures Est(chunk) <= budget {
      var k :| 0 <= k < |chunks| && chunks[k] == chunk;
      JoinedLinesFit(groups[k]);
      if |groups[k]| == 1 {
        LinesHaveNoBreak(content);
        assert groups[k][0] in groups[k];
        FlattenMembers(groups, k);
        assert false;
      }
    }
  }

  lemma {:induction false} FlattenMembers(groups: seq<seq<string>>, k: nat)
    requires k < |groups|
    ensures forall x | x in groups[k] :: x in Flatten(groups)
  {
    if k > 0 {
      FlattenMembers(groups[1..], k - 1);
    }
  }

  // ---- at file boundaries ---------------------------------------------------------------------

  /** The segments with the boundary put back on all but the last. */
  function Pieces(segments: seq<string>): (r: seq<string>)
    requires segments != []
    ensures |r| == |segments|
  {
    if |segments| == 1 then segments else [segments[0] + FileBoundary] + Pieces(segments[1..])
  }

  lemma {:induction false} PiecesAt(segments: seq<string>, i: nat)
    requires i < |segments|
    ensures Pieces(segments)[i] == if i < |segments| - 1 then segments[i] + FileBoundary else segments[i]
  {
    if i > 0 {
      PiecesAt(segments[1..], i - 1);
    }
  }

  lemma {:induction false} PiecesJoin(segments: seq<string>)
    requires segments != []
    ensures Join("", Pieces(segments)) == Join(FileBoundary, segments)
  {
    if |segments| > 1 {
      PiecesJoin(segments[1..]);
      var p := Pieces(segments[1..]);
      assert ([segments[0] + FileBoundary] + p)[1..] == p;
    }
  }

  function StripAll(parts: seq<string>): (r: seq<string>)
    ensures |r| == |parts|
  {
    seq(|parts|, k requires 0 <= k < |parts| => StripBreaks(parts[k]))
  }

  /** A group of several pieces goes at most one token over the budget. */
  predicate PieceGroups(groups: seq<seq<string>>, pieces: seq<string>, budget: int) {
    && NoneEmpty(groups) && Flatten(groups) == pieces
    && forall k :: 0 <= k < |groups| && |groups[k]| > 1 ==> Est(Join("\n\n", groups[k])) <= budget + 1
  }

  /** The chunks made of groups: stripped of line breaks, the last one left out when it is blank. */
  function ChunksOf(groups: seq<seq<string>>): seq<string>
    requires groups != []
  {
    var last := Join("\n\n", groups[|groups| - 1]);
    StripAll(JoinAll("\n\n", groups[..|groups| - 1])) + if IsBlank(last) then [] else [StripBreaks(last)]
  }

  /** Cutting the rest of the pieces: a group is closed when the next piece is estimated to take it over. */
  function CutPieces(pieces: seq<string>, budget: int, groups: seq<seq<string>>, group: seq<string>): seq<seq<string>>
    decreases |pieces|
  {
    if pieces == [] then groups + [group]
    else if group != [] && Est(Join("\n\n", group) + pieces[0]) > budget then
      CutPieces(pieces[1..], budget, groups + [group], [pieces[0]])
    else CutPieces(pieces[1..], budget, groups, group + [pieces[0]])
  }

  lemma ClosePieces(groups: seq<seq<string>>, group: seq<string>, budget: int)
    requires PieceGroups(groups, Flatten(groups), budget) && group != []
    requires |group| > 1 ==> Est(Join("\n\n", group)) <= budget + 1
    ensures PieceGroups(groups + [group], Flatten(groups) + group, budget)
  {
    FlattenSnoc(groups, group);
  }

  lemma GroupGrows(group: seq<string>, piece: string, budget: int)
    requires group != [] && Est(Join("\n\n", group) + piece) <= budget
    ensures Est(Join("\n\n", group + [piece])) <= budget + 1
  {
    JoinSnoc("\n\n", group, piece);
  }

  lemma {:induction false} CutPiecesGroups(pieces: seq<string>, budget: int, groups: seq<seq<string>>, group: seq<string>)
    requires PieceGroups(groups, Flatten(groups), budget) && group + pieces != []
    requires |group| > 1 ==> Est(Join("\n\n", group)) <= budget + 1
    ensures PieceGroups(CutPieces(pieces, budget, groups, group), Flatten(groups) + group + pieces, budget)
    decreases |pieces|
  {
    if pieces == [] {
      ClosePieces(groups, group, budget);
      assert Flatten(groups) + group + pieces == Flatten(groups) + group;
    } else {
      Regroup(Flatten(groups), group, pieces);
      if group != [] && Est(Join("\n\n", group) + pieces[0]) > budget {
        ClosePieces(groups, group, budget);
        FlattenSnoc(groups, group);
        CutPiecesGroups(pieces[1..], budget, groups + [group], [pieces[0]]);
      } else {
        if group != [] {
          GroupGrows(group, pieces[0], budget);
        }
        CutPiecesGroups(pieces[1..], budget, groups, group + [pieces[0]]);
      }
    }
  }

  /** The groups of pieces the splitter makes. */
  function BoundariesCut(segments: seq<string>, budget: int): (groups: seq<seq<string>>)
    requires segments != []
    ensures groups != []
  {
    CutPiecesGroups(Pieces(segments), budget, [], []);
    CutPieces(Pieces(segments), budget, [], [])
  }

  /** The loop over segments. */
  method CutAtBoundaries(segments: seq<string>, budget: int) returns (chunks: seq<string>)
    requires |segments| > 1
    ensures chunks == ChunksOf(BoundariesCut(segments, budget))
  {
    ghost var pieces := Pieces(segments);
    chunks := [];
    ghost var groups: seq<seq<string>> := [];
    var current := "";
    ghost var group: seq<string> := [];
    for i := 0 to |segments|
      invariant current == Join("\n\n", group) && (i == 0) == (group == [])
      invariant i < |segments| && group != [] ==> current != ""
      invariant CutPieces(pieces[i..], budget, groups, group) == CutPieces(pieces, budget, [], [])
      invariant chunks == StripAll(JoinAll("\n\n", groups))
    {
      var candidate := segments[i];
      if i < |segments| - 1 {
        candidate := candidate + FileBoundary;
      }
      PiecesAt(segments, i);
      assert pieces[i..][1..] == pieces[i + 1..] && pieces[i..][0] == candidate;
      if Est(current + candidate) > budget && current != "" {
        JoinAllSnoc("\n\n", groups, group);
        chunks, groups := chunks + [StripBreaks(current)], groups + [group];
        current, group := candidate, [candidate];
      } else if current != "" {
        JoinSnoc("\n\n", group, candidate);
        current, group := current + "\n\n" + candidate, group + [candidate];
      } else {
        current, group := candidate, group + [candidate];
      }
    }
    assert (groups + [group])[..|groups|] == groups;
    StripBlank(current);
    if Strip(current) != "" {
      chunks := chunks + [StripBreaks(current)];
    }
  }

  lemma BoundariesCutGroups(segments: seq<string>, budget: int)
    requires segments != []
    ensures PieceGroups(BoundariesCut(segments, budget), Pieces(segments), budget)
  {
    CutPiecesGroups(Pieces(segments), budget, [], []);
    assert [] + [] + Pieces(segments) == Pieces(segments);
  }

  lemma {:induction false} VisibleJoin(sep: string, parts: seq<string>)
    requires IsBlank(sep)
    ensures Visible(Join(sep, parts)) == Visible(Join("", parts))
  {
    if |parts| > 1 {
      var rest := Join(sep, parts[1..]);
      VisibleConcat(parts[0] + sep, rest);
      VisibleConcat(parts[0], sep);
      VisibleBlank(sep);
      VisibleCons(parts);
      VisibleJoin(sep, parts[1..]);
    }
  }

  lemma {:induction false} VisibleStrip(parts: seq<string>)
    ensures Visible(Join("", StripAll(parts))) == Visible(Join("", parts))
  {
    if parts != [] {
      StripBreaksKeepsVisible(parts[0]);
      VisibleStrip(parts[1..]);
      assert StripAll(parts)[1..] == StripAll(parts[1..]);
      VisibleCons(parts);
      VisibleCons(StripAll(parts));
    }
  }

  lemma VisibleCons(parts: seq<string>)
    requires parts != []
    ensures Visible(Join("", parts)) == Visible(parts[0]) + Visible(Join("", parts[1..]))
  {
    VisibleConcat(parts[0] + "", Join("", parts[1..]));
    assert parts[0] + "" == parts[0];
  }

  lemma {:induction false} VisibleGroups(groups: seq<seq<string>>)
    requires NoneEmpty(groups)
    ensures Visible(Join("", JoinAll("\n\n", groups))) == Visible(Join("", Flatten(groups)))
  {
    if groups != [] {
      var rest := groups[1..];
      VisibleGroups(rest);
      assert JoinAll("\n\n", groups)[1..] == JoinAll("\n\n", rest);
      VisibleCons(JoinAll("\n\n", groups));
      VisibleJoin("\n\n", groups[0]);
      if rest == [] {
        assert Flatten(groups) == groups[0];
      } else {
        FlattenNotEmpty(rest);
        JoinConcat("", groups[0], Flatten(rest));
        VisibleConcat(Join("", groups[0]), Join("", Flatten(rest)));
        assert Join("", groups[0]) + "" == Join("", groups[0]);
      }
    }
  }

  lemma ChunksVisible(groups: seq<seq<string>>)
    requires groups != []
    ensures Visible(Join("", ChunksOf(groups))) == Visible(Join("", JoinAll("\n\n", groups)))
  {
    var n := |groups| - 1;
    var front, last := JoinAll("\n\n", groups[..n]), Join("\n\n", groups[n]);
    assert JoinAll("\n\n", groups) == front + [last];
    VisibleSnoc(front, last);
    VisibleStrip(front);
    if IsBlank(last) {
      VisibleBlank(last);
      assert ChunksOf(groups) == StripAll(front);
    } else {
      VisibleSnoc(StripAll(front), StripBreaks(last));
      StripBreaksKeepsVisible(last);
    }
  }

  /** No visible character is lost or moved. */
  lemma BoundaryChunksKeepContent(content: string, budget: int)
    ensures Visible(Join("", ChunksOf(BoundariesCut(SplitOn(content, FileBoundary), budget)))) == Visible(content)
  {
    var segments := SplitOn(content, FileBoundary);
    BoundariesCutGroups(segments, budget);
    SplitOnJoins(content, FileBoundary);
    PiecesJoin(segments);
    VisibleGroups(BoundariesCut(segments, budget));
    ChunksVisible(BoundariesCut(segments, budget));
  }

  /** A chunk of several segments is at most one token over. */
  lemma BoundaryChunksFit(segments: seq<string>, budget: int, k: nat)
    requires segments != []
    requires k < |ChunksOf(BoundariesCut(segments, budget))| && |BoundariesCut(segments, budget)[k]| > 1
    ensures Est(ChunksOf(BoundariesCut(segments, budget))[k]) <= budget + 1
  {
    BoundariesCutGroups(segments, budget);
    EstMonotone(ChunksOf(BoundariesCut(segments, budget))[k], Join("\n\n", BoundariesCut(segments, budget)[k]));
  }

  lemma {:induction false} VisibleSnoc(parts: seq<string>, last: string)
    ensures Visible(Join("", parts + [last])) == Visible(Join("", parts)) + Visible(last)
  {
    if parts != [] {
      JoinSnoc("", parts, last);
      assert Join("", parts) + "" + last == Join("", parts) + last;
      VisibleConcat(Join("", parts), last);
    } else {
      assert parts + [last] == [last];
    }
  }

  // ---- the splitter ---------------------------------------------------------------------------

  /** Content with something to split: more than white space, and over the budget. */
  predicate Splits(content: string, budget: int) {
    !IsBlank(content) && Est(content) > budget
  }

  /**
   * `_split_content`. Content that fits is one chunk. Without a file boundary the chunks joined by line breaks
   * are the content, and one of several lines is within the budget. With boundaries every visible character
   * survives in order, and a chunk of several segments is at most one token over the budget.
   */
  method SplitContent(content: string, budget: int) returns (chunks: seq<string>)
    ensures chunks != []
    ensures !Splits(content, budget) ==> chunks == [content]
    ensures Splits(content, budget) && |SplitOn(content, FileBoundary)| == 1 ==>
      && Join("\n", chunks) == content
      && (forall chunk | chunk in chunks && '\n' in chunk :: Est(chunk) <= budget)
    ensures Splits(content, budget) && |SplitOn(content, FileBoundary)| > 1 ==>
      && chunks == ChunksOf(BoundariesCut(SplitOn(content, FileBoundary), budget))
      && Visible(Join("", chunks)) == Visible(content)
      && (forall k :: 0 <= k < |chunks| && |BoundariesCut(SplitOn(content, FileBoundary), budget)[k]| > 1 ==>
            Est(chunks[k]) <= budget + 1)
  {
    StripBlank(content);
    if Strip(content) == "" || Est(content) <= budget {
      return [content];
    }
    var segments := SplitOn(content, FileBoundary);
    if |segments| > 1 {
      chunks := CutAtBoundaries(segments, budget);
      BoundaryChunksKeepContent(content, budget);
      VisibleNotBlank(content);
      forall k | 0 <= k < |chunks| && |BoundariesCut(segments, budget)[k]| > 1 ensures Est(chunks[k]) <= budget + 1 {
        BoundaryChunksFit(segments, budget, k);
      }
    } else {
      chunks := CutAtLines(content, budget);
      LineChunksKeepContent(content, budget);
      assert content != "" && Join("\n", []) == "";
    }
  }

  lemma {:induction false} VisibleNotBlank(s: string)
    requires !IsBlank(s)
    ensures Visible(s) != ""
  {
    if IsSpace(s[0]) {
      VisibleNotBlank(s[1..]);
    }
  }
}
