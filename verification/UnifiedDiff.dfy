/** The unified diff the GitOps updater writes as an artifact, with an independent reader and patch
    applier that show what the printed text means. */
module UnifiedDiff {
  import opened Wrappers
  import Text
  import Numerals
  import LineDiff

  // ---- contents and their lines ---------------------------------------------------------------

  /** `split(/\r?\n/)`: a CR directly before an LF belongs to the separator. */
  function SplitLines(s: string): (lines: seq<string>)
    ensures lines != []
  {
    if s == "" then [""]
    else if s[0] == '\n' then [""] + SplitLines(s[1..])
    else if s[0] == '\r' && |s| > 1 && s[1] == '\n' then [""] + SplitLines(s[2..])
    else Extend(s[0], SplitLines(s[1..]))
  }

  /** A line feed starts another line. */
  lemma {:induction false} SplitSome(s: string)
    requires '\n' in s
    ensures |SplitLines(s)| >= 2
  {
    if s[0] != '\n' && !(s[0] == '\r' && |s| > 1 && s[1] == '\n') { SplitSome(s[1..]); }
  }

  function Extend(c: char, lines: seq<string>): seq<string>
    requires lines != []
  {
    [[c] + lines[0]] + lines[1..]
  }

  /** Two runs of lines, the last of the one continued by the first of the other. */
  function Glue(a: seq<string>, b: seq<string>): seq<string>
    requires a != [] && b != []
  {
    a[..|a| - 1] + [a[|a| - 1] + b[0]] + b[1..]
  }

  lemma GlueExtend(c: char, a: seq<string>, b: seq<string>)
    requires a != [] && b != []
    ensures Glue(Extend(c, a), b) == Extend(c, Glue(a, b))
  {
    if |a| == 1 {
      assert [c] + a[0] + b[0] == [c] + (a[0] + b[0]);
    }
  }

  lemma GlueEmpty(a: seq<string>, b: seq<string>)
    requires a != [] && b != []
    ensures Glue([""] + a, b) == [""] + Glue(a, b)
  {
  }

  /** Splitting a concatenation joins the last line of the one part to the first of the other, unless a
      CR LF pair falls on the seam. */
  lemma {:induction false} SplitConcat(s: string, t: string)
    requires !(s != "" && s[|s| - 1] == '\r' && t != "" && t[0] == '\n')
    ensures SplitLines(s + t) == Glue(SplitLines(s), SplitLines(t))
  {
    if s == "" {
      assert s + t == t && "" + SplitLines(t)[0] == SplitLines(t)[0];
    } else if s[0] == '\r' && |s| > 1 && s[1] == '\n' {
      assert (s + t)[2..] == s[2..] + t;
      SplitConcat(s[2..], t);
      GlueEmpty(SplitLines(s[2..]), SplitLines(t));
    } else {
      assert (s + t)[1..] == s[1..] + t;
      SplitConcat(s[1..], t);
      GlueEmpty(SplitLines(s[1..]), SplitLines(t));
      GlueExtend(s[0], SplitLines(s[1..]), SplitLines(t));
    }
  }

  lemma {:induction false} SplitNone(line: string)
    requires '\n' !in line
    ensures SplitLines(line) == [line]
  {
    if line == "" {
    } else {
      SplitNone(line[1..]);
      assert [line[0]] + line[1..] == line;
    }
  }

  /** `splitContentLines`: one trailing LF ends the last line instead of starting another. */
  function ContentLines(content: string): seq<string>
  {
    var normalized := if content != "" && content[|content| - 1] == '\n' then content[..|content| - 1] else content;
    if normalized == "" then [] else SplitLines(normalized)
  }

  lemma {:induction false} SplitLinesLackNewlines(s: string)
    ensures forall i :: 0 <= i < |SplitLines(s)| ==> '\n' !in SplitLines(s)[i]
  {
    if s == "" {
    } else if s[0] == '\r' && |s| > 1 && s[1] == '\n' {
      SplitLinesLackNewlines(s[2..]);
    } else {
      SplitLinesLackNewlines(s[1..]);
    }
  }

  // ---- printing --------------------------------------------------------------------------------

  function HunkRange(start: nat, count: nat): string
  {
    Numerals.Print(start, 10) + "," + Numerals.Print(count, 10)
  }

  function HunkHeader(oldCount: nat, newCount: nat): string
  {
    "@@ -" + HunkRange(if oldCount > 0 then 1 else 0, oldCount) + " +" +
    HunkRange(if newCount > 0 then 1 else 0, newCount) + " @@"
  }

  function DiffLines(path: string, a: seq<string>, b: seq<string>): seq<string>
  {
    ["--- a/" + path, "+++ b/" + path, HunkHeader(|a|, |b|)] + LineDiff.EditScript(a, b)
  }

  function DiffText(path: string, before: string, after: string): string
  {
    Text.Join(DiffLines(path, ContentLines(before), ContentLines(after)), "\n") + "\n"
  }

  /** `createUnifiedDiff`. */
  method CreateUnifiedDiff(path: string, before: string, after: string) returns (text: string)
    ensures text == DiffText(path, before, after)
  {
    var beforeLines, afterLines := ContentLines(before), ContentLines(after);
    var diffLines := LineDiff.CreateLineDiff(beforeLines, afterLines);
    text := Text.Join(["--- a/" + path, "+++ b/" + path, HunkHeader(|beforeLines|, |afterLines|)] + diffLines, "\n") +
      "\n";
  }

  // ---- reading and applying --------------------------------------------------------------------

  datatype Range = Range(start: int, count: int)
  datatype Patch = Patch(path: string, oldRange: Range, newRange: Range, script: seq<string>)

  /** Reads `start,count`. */
  function ReadRange(s: string): Option<Range>
  {
    var parts := Text.Split(s, ",");
    if |parts| != 2 then None
    else
      match (Numerals.ParseInt(parts[0], 10), Numerals.ParseInt(parts[1], 10))
      case (Some(start), Some(count)) => Some(Range(start, count))
      case _ => None
  }

  /** Reads `@@ -range +range @@`. */
  function ReadHunkHeader(line: string): Option<(Range, Range)>
  {
    var parts := Text.Split(line, " ");
    if |parts| == 4 && parts[0] == "@@" == parts[3] then ReadRanges(parts[1], parts[2]) else None
  }

  function ReadRanges(oldPart: string, newPart: string): Option<(Range, Range)>
  {
    if Text.StartsWith(oldPart, "-") && Text.StartsWith(newPart, "+") then
      match (ReadRange(oldPart[1..]), ReadRange(newPart[1..]))
      case (Some(oldRange), Some(newRange)) => Some((oldRange, newRange))
      case _ => None
    else None
  }

  /** Reads a one-hunk unified diff; the declared counts must be those of the body. */
  function ReadPatch(text: string): Option<Patch>
  {
    if text == "" || text[|text| - 1] != '\n' then None
    else
      var lines := Text.Split(text[..|text| - 1], "\n");
      if |lines| < 3 || !Text.StartsWith(lines[0], "--- a/") || lines[1] != "+++ b/" + lines[0][6..] then None
      else
        match ReadHunkHeader(lines[2])
        case None => None
        case Some((oldRange, newRange)) =>
          var script := lines[3..];
          if LineDiff.WellFormed(script) && oldRange.count == |LineDiff.OldSide(script)| &&
             newRange.count == |LineDiff.NewSide(script)|
          then Some(Patch(lines[0][6..], oldRange, newRange, script))
          else None
  }

  /** Applies a whole-file script; fails where a ' ' or '-' line is not the line at hand. */
  function Apply(script: seq<string>, lines: seq<string>): Option<seq<string>>
  {
    if script == [] then (if lines == [] then Some([]) else None)
    else if script[0] == "" then None
    else
      var mark, line := script[0][0], script[0][1..];
      if mark == '+' then Prepend(line, Apply(script[1..], lines))
      else if lines == [] || lines[0] != line then None
      else if mark == '-' then Apply(script[1..], lines[1..])
      else Prepend(line, Apply(script[1..], lines[1..]))
  }

  function Prepend(line: string, rest: Option<seq<string>>): Option<seq<string>>
  {
    if rest.None? then None else Some([line] + rest.value)
  }

  function ReverseMark(mark: char): char
  {
    if mark == '+' then '-' else if mark == '-' then '+' else mark
  }

  /** The script that undoes `script`. */
  function Reverse(script: seq<string>): seq<string>
  {
    if script == [] then []
    else
      var s := script[0];
      [if s == "" then "" else [ReverseMark(s[0])] + s[1..]] + Reverse(script[1..])
  }

  lemma {:induction false} ApplySides(script: seq<string>)
    requires LineDiff.WellFormed(script)
    ensures Apply(script, LineDiff.OldSide(script)) == Some(LineDiff.NewSide(script))
  {
    if script == [] {
    } else {
      var line, rest := script[0], script[1..];
      assert script == [line] + rest;
      ApplySides(rest);
      LineDiff.SidesCons(line, rest);
      var oldText := LineDiff.OldSide(script);
      if line[0] == '+' {
        assert oldText == LineDiff.OldSide(rest);
      } else {
        assert oldText[0] == line[1..] && oldText[1..] == LineDiff.OldSide(rest);
        if line[0] == '-' { assert LineDiff.NewSide(script) == LineDiff.NewSide(rest); }
      }
    }
  }

  lemma {:induction false} ReverseSides(script: seq<string>)
    requires LineDiff.WellFormed(script)
    ensures LineDiff.Transforms(Reverse(script), LineDiff.NewSide(script), LineDiff.OldSide(script))
  {
    if script == [] {
    } else {
      var line, rest := script[0], script[1..];
      assert script == [line] + rest;
      ReverseSides(rest);
      LineDiff.SidesCons(line, rest);
      LineDiff.SidesCons(Reverse(script)[0], Reverse(rest));
    }
  }

  // ---- round trip ------------------------------------------------------------------------------

  lemma PrintLacks(n: nat, c: char)
    requires Numerals.DigitValue(c) == 36
    ensures c !in Numerals.Print(n, 10)
  {
    Numerals.PrintValue(n, 10);
  }

  lemma ReadPrintedRange(start: nat, count: nat)
    ensures ReadRange(HunkRange(start, count)) == Some(Range(start, count))
  {
    var parts := [Numerals.Print(start, 10), Numerals.Print(count, 10)];
    PrintLacks(start, ',');
    PrintLacks(count, ',');
    assert Text.Join(parts[1..], ",") == parts[1];
    assert Text.Join(parts, ",") == HunkRange(start, count);
    Text.SplitJoin(parts, ",");
    Numerals.ParsePrint(start, 10);
    Numerals.ParsePrint(count, 10);
  }

  lemma RangeLacks(start: nat, count: nat, c: char)
    requires Numerals.DigitValue(c) == 36 && c != ','
    ensures c !in HunkRange(start, count)
  {
    PrintLacks(start, c);
    PrintLacks(count, c);
  }

  /** A header line splits at its blanks into its four words. */
  lemma SplitHeader(oldPart: string, newPart: string)
    requires ' ' !in oldPart && ' ' !in newPart
    ensures Text.Split("@@ -" + oldPart + " +" + newPart + " @@", " ") == ["@@", "-" + oldPart, "+" + newPart, "@@"]
  {
    var words := ["@@", "-" + oldPart, "+" + newPart, "@@"];
    assert words[1..] == ["-" + oldPart, "+" + newPart, "@@"] && words[1..][1..] == ["+" + newPart, "@@"]
        && words[1..][1..][1..] == ["@@"];
    assert Text.Join(words[1..][1..], " ") == "+" + newPart + " @@";
    assert Text.Join(words[1..], " ") == "-" + oldPart + (" +" + newPart + " @@");
    assert Text.Join(words, " ") == "@@ -" + oldPart + " +" + newPart + " @@";
    Text.SplitJoin(words, " ");
  }

  lemma ReadPrintedHeader(oldCount: nat, newCount: nat)
    ensures ReadHunkHeader(HunkHeader(oldCount, newCount)) ==
      Some((Range(if oldCount > 0 then 1 else 0, oldCount), Range(if newCount > 0 then 1 else 0, newCount)))
  {
    var oldStart, newStart := if oldCount > 0 then 1 else 0, if newCount > 0 then 1 else 0;
    RangeLacks(oldStart, oldCount, ' ');
    RangeLacks(newStart, newCount, ' ');
    SplitHeader(HunkRange(oldStart, oldCount), HunkRange(newStart, newCount));
    ReadPrintedRanges(oldStart, oldCount, newStart, newCount);
  }

  lemma ReadPrintedRanges(oldStart: nat, oldCount: nat, newStart: nat, newCount: nat)
    ensures ReadRanges("-" + HunkRange(oldStart, oldCount), "+" + HunkRange(newStart, newCount)) ==
      Some((Range(oldStart, oldCount), Range(newStart, newCount)))
  {
    ReadPrintedRange(oldStart, oldCount);
    ReadPrintedRange(newStart, newCount);
    assert ("-" + HunkRange(oldStart, oldCount))[1..] == HunkRange(oldStart, oldCount);
    assert ("+" + HunkRange(newStart, newCount))[1..] == HunkRange(newStart, newCount);
  }

  lemma HeaderLacksNewline(oldCount: nat, newCount: nat)
    ensures '\n' !in HunkHeader(oldCount, newCount)
  {
    RangeLacks(if oldCount > 0 then 1 else 0, oldCount, '\n');
    RangeLacks(if newCount > 0 then 1 else 0, newCount, '\n');
  }

  lemma {:induction false} SideMember(script: seq<string>, marks: set<char>, line: string)
    requires line in script && line != "" && line[0] in marks
    ensures line[1..] in LineDiff.Side(script, marks)
  {
    if line != script[0] {
      assert line in script[1..];
      SideMember(script[1..], marks, line);
    }
  }

  lemma {:induction false} ScriptLacksNewlines(script: seq<string>)
    requires LineDiff.WellFormed(script)
    requires forall l :: l in LineDiff.OldSide(script) ==> '\n' !in l
    requires forall l :: l in LineDiff.NewSide(script) ==> '\n' !in l
    ensures forall i :: 0 <= i < |script| ==> '\n' !in script[i]
  {
    forall i | 0 <= i < |script| ensures '\n' !in script[i] {
      var line := script[i];
      if line[0] == '+' { SideMember(script, {' ', '+'}, line); } else { SideMember(script, {' ', '-'}, line); }
      assert line == [line[0]] + line[1..];
    }
  }

  lemma {:induction false} DiffLinesLackNewlines(path: string, a: seq<string>, b: seq<string>)
    requires '\n' !in path
    requires forall i :: 0 <= i < |a| ==> '\n' !in a[i]
    requires forall i :: 0 <= i < |b| ==> '\n' !in b[i]
    ensures var lines := DiffLines(path, a, b); forall i :: 0 <= i < |lines| ==> '\n' !in lines[i]
  {
    var script, lines := LineDiff.EditScript(a, b), DiffLines(path, a, b);
    LineDiff.EditScriptCorrect(a, b);
    ScriptLacksNewlines(script);
    HeaderLacksNewline(|a|, |b|);
    forall i | 0 <= i < |lines| ensures '\n' !in lines[i] {
      if i >= 3 { assert lines[i] == script[i - 3]; }
    }
  }

  /** The lines of a printed diff are its three headers and the script. */
  lemma {:induction false} PrintedLines(path: string, before: string, after: string)
    requires '\n' !in path
    ensures var text := DiffText(path, before, after);
      Text.Split(text[..|text| - 1], "\n") == DiffLines(path, ContentLines(before), ContentLines(after))
  {
    var lines := DiffLines(path, ContentLines(before), ContentLines(after));
    ContentLinesLackNewlines(before);
    ContentLinesLackNewlines(after);
    DiffLinesLackNewlines(path, ContentLines(before), ContentLines(after));
    Text.SplitJoin(lines, "\n");
    var text := DiffText(path, before, after);
    assert text[..|text| - 1] == Text.Join(lines, "\n");
  }

  lemma ContentLinesLackNewlines(content: string)
    ensures forall i :: 0 <= i < |ContentLines(content)| ==> '\n' !in ContentLines(content)[i]
  {
    var normalized := if content != "" && content[|content| - 1] == '\n' then content[..|content| - 1] else content;
    SplitLinesLackNewlines(normalized);
  }

  /** What is read back from a printed diff. */
  lemma {:induction false} ReadPrinted(path: string, before: string, after: string)
    requires '\n' !in path
    ensures var a, b := ContentLines(before), ContentLines(after);
      ReadPatch(DiffText(path, before, after)) == Some(Patch(path, Range(if |a| > 0 then 1 else 0, |a|),
        Range(if |b| > 0 then 1 else 0, |b|), LineDiff.EditScript(a, b)))
  {
    var a, b := ContentLines(before), ContentLines(after);
    var script := LineDiff.EditScript(a, b);
    PrintedLines(path, before, after);
    ReadPrintedHeader(|a|, |b|);
    LineDiff.EditScriptCorrect(a, b);
    var lines := ["--- a/" + path, "+++ b/" + path, HunkHeader(|a|, |b|)] + script;
    assert lines[0][6..] == path && lines[3..] == script;
    assert lines[0] == "--- a/" + path && lines[1] == "+++ b/" + path && lines[2] == HunkHeader(|a|, |b|);
    var text := DiffText(path, before, after);
    assert text != "" && text[|text| - 1] == '\n';
  }

  /** Re-reading a printed diff gives hunk counts that are the two line counts, and a script that
      applied to the lines before gives the lines after, and reversed gives the lines before. */
  lemma {:induction false} DiffRoundTrip(path: string, before: string, after: string)
    requires '\n' !in path
    ensures var a, b := ContentLines(before), ContentLines(after);
      match ReadPatch(DiffText(path, before, after))
      case None => false
      case Some(patch) =>
        && patch.path == path
        && patch.oldRange == Range(if |a| > 0 then 1 else 0, |a|)
        && patch.newRange == Range(if |b| > 0 then 1 else 0, |b|)
        && Apply(patch.script, a) == Some(b)
        && Apply(Reverse(patch.script), b) == Some(a)
  {
    var a, b := ContentLines(before), ContentLines(after);
    var script := LineDiff.EditScript(a, b);
    ReadPrinted(path, before, after);
    LineDiff.EditScriptCorrect(a, b);
    ApplySides(script);
    ReverseSides(script);
    ApplySides(Reverse(script));
  }

  /** A path that does hold a line feed can never be read back, so the condition above is exact. */
  lemma PathReadBack(path: string, before: string, after: string)
    ensures (exists patch :: ReadPatch(DiffText(path, before, after)) == Some(patch) && patch.path == path) <==>
      '\n' !in path
  {
    if '\n' !in path {
      DiffRoundTrip(path, before, after);
    } else {
      var text := DiffText(path, before, after);
      Text.SplitPartsLack(text[..|text| - 1], '\n');
      forall patch | ReadPatch(text) == Some(patch) ensures patch.path != path {
        assert '\n' !in Text.Split(text[..|text| - 1], "\n")[0];
      }
    }
  }
}
