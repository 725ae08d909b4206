/** The image update of the GitOps updater. A file is taken as the regular expression cuts it up: stretches of
    other text, and matches split into their five groups; `ReadImage` is how it reads what follows a prefix. */
module ImageUpdate {
  import opened Wrappers
  import Text
  import LineDiff
  import UnifiedDiff

  /** `[^'"\s#]` */
  predicate ValueChar(c: char)
  {
    c != '\'' && c != '\"' && c != '#' && !Text.IsSpace(c)
  }

  predicate AllValue(s: string)
  {
    forall i :: 0 <= i < |s| ==> ValueChar(s[i])
  }

  /** `.` */
  predicate InLine(c: char)
  {
    c !in {'\n', '\r', '\U{2028}', '\U{2029}'}
  }

  /** Where `$` matches: at the end, or before a line break. */
  predicate AtLineEnd(s: string)
  {
    s == "" || !InLine(s[0])
  }

  /** The longest prefix of characters of one kind. */
  function Run(s: string, kind: char -> bool): (r: string)
    ensures |r| <= |s| && s[..|r|] == r
    ensures forall i :: 0 <= i < |r| ==> kind(r[i])
    ensures |r| < |s| ==> !kind(s[|r|])
  {
    if s != "" && kind(s[0]) then [s[0]] + Run(s[1..], kind) else ""
  }

  lemma {:induction false} RunUnique(a: string, b: string, kind: char -> bool)
    requires forall i :: 0 <= i < |a| ==> kind(a[i])
    requires b == "" || !kind(b[0])
    ensures Run(a + b, kind) == a && (a + b)[|a|..] == b
  {
    if a == "" {
      assert a + b == b;
    } else {
      assert (a + b)[1..] == a[1..] + b;
      RunUnique(a[1..], b, kind);
    }
  }

  /** `['"]?` */
  function QuoteAt(s: string): (q: string)
    ensures q in {"", "'", "\""} && |q| <= |s| && s[..|q|] == q
  {
    if s != "" && (s[0] == '\'' || s[0] == '\"') then [s[0]] else ""
  }

  /** What the groups behind the prefix take of the text there, and what they leave. */
  function ReadImage(prefix: string, text: string): Option<(Piece, string)>
  {
    var quote := QuoteAt(text);
    var value := Run(text[|quote|..], ValueChar);
    if value == "" then None else Some(ReadEnd(prefix, quote, value, text[|quote|..][|value|..]))
  }

  /** The groups behind the value. */
  function ReadEnd(prefix: string, quote: string, value: string, text: string): (Piece, string)
  {
    var endQuote := QuoteAt(text);
    var suffix := Run(text[|endQuote|..], InLine);
    (Image(prefix, quote, value, endQuote, suffix), text[|endQuote|..][|suffix|..])
  }

  datatype Piece =
    | Other(text: string)
    | Image(prefix: string, quote: string, value: string, endQuote: string, suffix: string)
  {
    /** What stands behind the prefix. */
    function Behind(): string
      requires Image?
    {
      quote + value + endQuote + suffix
    }

    function Render(): string
    {
      match this
      case Other(text) => text
      case Image(prefix, _, _, _, _) => prefix + Behind()
    }

    /** The groups are what the expression reads. */
    predicate Valid()
    {
      Image? ==> ReadImage(prefix, Behind()) == Some((this, ""))
    }

    /** `currentName`: the value up to its last colon, or all of it. */
    function Name(): string
      requires Image?
    {
      var k := LastIndexOf(value, ':');
      if k < 0 then value else value[..k]
    }

    predicate Names(imageName: string)
    {
      Image? && Name() == imageName
    }

    /** The match with its value replaced; a missing end quote is repaired from the opening one. */
    function WithImage(target: string): Piece
      requires Image?
    {
      Image(prefix, quote, target, if endQuote != "" then endQuote else quote, suffix)
    }
  }

  function LastIndexOf(s: string, c: char): (k: int)
    ensures -1 <= k < |s|
    ensures k >= 0 ==> s[k] == c
    ensures forall i :: k < i < |s| ==> s[i] != c
  {
    if s == "" then -1
    else if s[|s| - 1] == c then |s| - 1
    else LastIndexOf(s[..|s| - 1], c)
  }

  function Render(pieces: seq<Piece>): string
  {
    if pieces == [] then "" else pieces[0].Render() + Render(pieces[1..])
  }

  predicate Valid(pieces: seq<Piece>)
  {
    forall i :: 0 <= i < |pieces| ==> pieces[i].Valid()
  }

  /** The match that an update of `imageName` rewrites, if there is one. */
  ghost predicate IsFirstImage(pieces: seq<Piece>, imageName: string, k: int)
  {
    && 0 <= k < |pieces| && pieces[k].Names(imageName)
    && forall i :: 0 <= i < k ==> !pieces[i].Names(imageName)
  }

  /** `replaceFirstImage`: the callback runs on every match, the flag lets it act once. */
  method ReplaceFirstImage(pieces: seq<Piece>, imageName: string, target: string) returns (updated: seq<Piece>,
      matched: bool)
    ensures matched <==> exists i :: 0 <= i < |pieces| && pieces[i].Names(imageName)
    ensures !matched ==> updated == pieces
    ensures matched ==>
      exists k :: IsFirstImage(pieces, imageName, k) && updated == pieces[k := pieces[k].WithImage(target)]
  {
    var replaced := false;
    ghost var at := 0;
    updated := [];
    for n := 0 to |pieces|
      invariant !replaced ==> updated == pieces[..n] && forall i :: 0 <= i < n ==> !pieces[i].Names(imageName)
      invariant replaced ==> at < n && IsFirstImage(pieces, imageName, at)
      invariant replaced ==> updated == pieces[..n][at := pieces[at].WithImage(target)]
    {
      if pieces[n].Image? && !replaced && pieces[n].Name() == imageName {
        replaced := true;
        at := n;
        updated := updated + [pieces[n].WithImage(target)];
      } else {
        updated := updated + [pieces[n]];
      }
    }
    matched := replaced;
  }

  datatype Status = Changed | Unchanged | Error

  /** `updateImage` on the file at hand: what it answers, what it writes back and the diff artifact. */
  datatype Update = Update(status: Status, written: Option<string>, diff: Option<string>)

  const SUPPORTED_FIELD_PATH := "spec.template.spec.containers[0].image"

  /** `updateImage`; a run id (or build id) is what makes it write the diff artifact. */
  method UpdateImage(fieldPath: string, path: string, current: seq<Piece>, imageName: string, imageTag: string,
      keepDiff: bool)
    returns (r: Update, updated: seq<Piece>)
    ensures fieldPath != SUPPORTED_FIELD_PATH || (forall i :: 0 <= i < |current| ==> !current[i].Names(imageName))
      <==> r.status == Error
    ensures r.status == Error ==> updated == current
    ensures r.status != Error ==>
      exists k :: IsFirstImage(current, imageName, k) &&
        updated == current[k := current[k].WithImage(imageName + ":" + imageTag)]
    ensures r.status != Error ==> (r.status == Changed <==> Render(updated) != Render(current))
    ensures r.written == if r.status == Changed then Some(Render(updated)) else None
    ensures r.diff ==
      if r.status == Changed && keepDiff then Some(UnifiedDiff.DiffText(path, Render(current), Render(updated)))
      else None
  {
    updated := current;
    if fieldPath != SUPPORTED_FIELD_PATH {
      return Update(Error, None, None), current;
    }
    var matched;
    updated, matched := ReplaceFirstImage(current, imageName, imageName + ":" + imageTag);
    if !matched {
      return Update(Error, None, None), updated;
    }
    if Render(updated) == Render(current) {
      return Update(Unchanged, None, None), updated;
    }
    r := Update(Changed, Some(Render(updated)), None);
    if keepDiff {
      var text := UnifiedDiff.CreateUnifiedDiff(path, Render(current), Render(updated));
      r := r.(diff := Some(text));
    }
  }

  // ---- one replaced value is one changed line ----------------------------------------------------

  /** The contents a replaced value leaves on either side of it. */
  function Before(pieces: seq<Piece>, k: nat): string
    requires k < |pieces| && pieces[k].Image?
  {
    Render(pieces[..k]) + pieces[k].prefix + pieces[k].quote
  }

  function After(pieces: seq<Piece>, k: nat): string
    requires k < |pieces| && pieces[k].Image?
  {
    pieces[k].suffix + Render(pieces[k + 1..])
  }

  /** The line of `before + middle + after` that `middle` lies in, when it holds no line break. */
  function LineAround(before: string, middle: string, after: string): string
  {
    var a := UnifiedDiff.SplitLines(before);
    a[|a| - 1] + middle + UnifiedDiff.SplitLines(StripLf(after))[0]
  }

  function StripLf(s: string): string
  {
    if s != "" && s[|s| - 1] == '\n' then s[..|s| - 1] else s
  }

  lemma {:induction false} RenderConcat(a: seq<Piece>, b: seq<Piece>)
    ensures Render(a + b) == Render(a) + Render(b)
  {
    if a == [] {
      assert a + b == b;
    } else {
      assert (a + b)[1..] == a[1..] + b;
      RenderConcat(a[1..], b);
    }
  }

  lemma RenderAround(pieces: seq<Piece>, k: nat)
    requires k < |pieces| && pieces[k].Image?
    ensures Render(pieces) == Before(pieces, k) + (pieces[k].value + pieces[k].endQuote) + After(pieces, k)
  {
    var a, p, b := pieces[..k], pieces[k], pieces[k + 1..];
    assert pieces == a + ([p] + b);
    RenderConcat(a, [p] + b);
    assert ([p] + b)[1..] == b;
    Regroup(Render(a), p.prefix, p.quote, p.value, p.endQuote, p.suffix, Render(b));
  }

  lemma Regroup(a: string, b: string, c: string, d: string, e: string, f: string, g: string)
    ensures a + (b + (c + d + e + f) + g) == (a + b + c) + (d + e) + (f + g)
  {
    Associative(c, d, e);
    Associative(a, b, c);
    Associative(f, g, "");
    RegroupMiddle(a, b, c, d + e, f, g);
  }

  lemma RegroupMiddle(a: string, b: string, c: string, m: string, f: string, g: string)
    ensures a + (b + (c + m + f) + g) == (a + b + c) + m + (f + g)
  {
    var x := b + (c + m + f) + g;
    assert x == (b + c) + m + (f + g);
    assert a + ((b + c) + m + (f + g)) == (a + (b + c)) + m + (f + g);
  }

  lemma Associative(a: string, b: string, c: string)
    ensures a + b + c == a + (b + c)
  {
  }

  /** What of `middle` takes part in the lines: at the very end of a content its last LF does not, and a CR
      right before a separating LF belongs to the separator. */
  function Effective(middle: string, after: string): string
  {
    var e := if after == "" then StripLf(middle) else middle;
    if e != "" && e[|e| - 1] == '\r' && StripLf(after) != "" && after[0] == '\n' then e[..|e| - 1] else e
  }

  /** A stretch in the middle of a content brings its own lines, glued to the lines around it. */
  lemma LinesAround(before: string, middle: string, after: string)
    requires var e := Effective(middle, after); e != "" && e[0] != '\n'
    ensures UnifiedDiff.ContentLines(before + middle + after) ==
      UnifiedDiff.Glue(UnifiedDiff.Glue(UnifiedDiff.SplitLines(before),
        UnifiedDiff.SplitLines(Effective(middle, after))),
        UnifiedDiff.SplitLines(StripLf(after)))
  {
    var e, tail := Effective(middle, after), StripLf(after);
    var whole := if after == "" then StripLf(middle) else middle;
    StripEnd(before, middle, after);
    if e == whole {
      LinesBetween(before, e, tail);
    } else {
      assert whole == e + "\r";
      LinesBeforeCr(before, e, tail);
    }
  }

  lemma StripEnd(before: string, middle: string, after: string)
    requires middle != ""
    ensures StripLf(before + middle + after) ==
      before + (if after == "" then StripLf(middle) else middle) + StripLf(after)
  {
    if after == "" {
      assert before + middle + after == before + middle;
    }
  }

  lemma LinesBetween(before: string, e: string, tail: string)
    requires e != "" && e[0] != '\n' && (tail != "" && tail[0] == '\n' ==> e[|e| - 1] != '\r')
    ensures UnifiedDiff.SplitLines(before + e + tail) ==
      UnifiedDiff.Glue(UnifiedDiff.Glue(UnifiedDiff.SplitLines(before), UnifiedDiff.SplitLines(e)),
        UnifiedDiff.SplitLines(tail))
  {
    UnifiedDiff.SplitConcat(before, e);
    UnifiedDiff.SplitConcat(before + e, tail);
  }

  lemma LinesBeforeCr(before: string, e: string, tail: string)
    requires e != "" && e[0] != '\n' && tail != "" && tail[0] == '\n'
    ensures UnifiedDiff.SplitLines(before + (e + "\r") + tail) ==
      UnifiedDiff.Glue(UnifiedDiff.Glue(UnifiedDiff.SplitLines(before), UnifiedDiff.SplitLines(e)),
        UnifiedDiff.SplitLines(tail))
  {
    var crTail := "\r" + tail;
    assert crTail[2..] == tail[1..];
    assert UnifiedDiff.SplitLines(crTail) == UnifiedDiff.SplitLines(tail);
    assert before + (e + "\r") + tail == before + e + crTail;
    LinesBetween(before, e, crTail);
  }

  // ---- what an update means for the diff -----------------------------------------------------------

  /** The text that the value and end quote of match `k` are replaced by. */
  function Replacement(p: Piece, target: string): string
    requires p.Image?
  {
    target + p.WithImage(target).endQuote
  }

  lemma RenderUpdated(pieces: seq<Piece>, k: nat, target: string)
    requires k < |pieces| && pieces[k].Image?
    ensures Render(pieces[k := pieces[k].WithImage(target)]) ==
      Before(pieces, k) + Replacement(pieces[k], target) + After(pieces, k)
  {
    var updated := pieces[k := pieces[k].WithImage(target)];
    RenderAround(updated, k);
    assert updated[..k] == pieces[..k] && updated[k + 1..] == pieces[k + 1..];
  }

  /** The diff between two contents: how many lines it removes and adds, and a diff that is one '-' line,
      one '+' line and context for everything else. */
  function Script(content: string, content': string): seq<string>
  {
    LineDiff.EditScript(UnifiedDiff.ContentLines(content), UnifiedDiff.ContentLines(content'))
  }

  predicate RemovesAndAddsOne(content: string, content': string)
  {
    |LineDiff.Removed(Script(content, content'))| == |LineDiff.Added(Script(content, content'))| == 1
  }

  /** The number of lines before the one that the value of match `k` stands in. */
  function LineOf(before: string): nat { |UnifiedDiff.SplitLines(before)| - 1 }

  /** The diff is context but for line `n`, the old line, which gives way to the new one. */
  predicate Exchanges(content: string, content': string, n: nat, oldLine: string, newLine: string)
  {
    var lines := UnifiedDiff.ContentLines(content);
    LineDiff.ReplacesLine(Script(content, content'), lines, n, newLine) && lines[n] == oldLine
  }

  /** The diff of an update removes one line and adds one line exactly when the replacement holds no line
      feed and differs from what it replaces; then they are the old and the new line of the image, and
      everything else is context. This holds of every tag: what counts of a replacement that ends in a line break
      is its `Effective` part. */
  lemma UpdateDiff(pieces: seq<Piece>, imageName: string, tag: string, k: nat)
    requires Valid(pieces) && IsFirstImage(pieces, imageName, k)
    ensures var p, target := pieces[k], imageName + ":" + tag;
      var before, after, middle := Before(pieces, k), After(pieces, k), p.value + p.endQuote;
      var replacement := Effective(Replacement(p, target), after);
      var content, content' := Render(pieces), Render(pieces[k := p.WithImage(target)]);
      && (RemovesAndAddsOne(content, content') <==> '\n' !in replacement && replacement != middle)
      && ('\n' !in replacement && replacement != middle ==>
            Exchanges(content, content', LineOf(before),
              LineAround(before, middle, after), LineAround(before, replacement, after)))
  {
    var p, target := pieces[k], imageName + ":" + tag;
    RenderAround(pieces, k);
    RenderUpdated(pieces, k, target);
    ValidParts(p);
    NameLacks(p);
    TargetFits(p, imageName, tag, After(pieces, k));
    MiddleDiff(Before(pieces, k), p.value + p.endQuote, Replacement(p, target), After(pieces, k));
  }

  lemma TargetFits(p: Piece, imageName: string, tag: string, after: string)
    requires p.Image? && '\n' !in imageName
    ensures var e := Effective(Replacement(p, imageName + ":" + tag), after); e != "" && e[0] != '\n'
  {
    var r := Replacement(p, imageName + ":" + tag);
    assert r[|imageName|] == ':';
    assert imageName != "" ==> r[0] == imageName[0];
  }

  /** What the groups of a match can hold. */
  lemma ValidParts(p: Piece)
    requires p.Image? && p.Valid()
    ensures p.value != "" && AllValue(p.value)
    ensures p.quote in {"", "'", "\""} && p.endQuote in {"", "'", "\""}
    ensures p.endQuote == "" ==> QuoteAt(p.suffix) == "" && (p.suffix == "" || !ValueChar(p.suffix[0]))
  {
  }

  lemma NameLacks(p: Piece)
    requires p.Image? && p.Valid()
    ensures AllValue(p.Name()) && '\n' !in p.Name() && '\r' !in p.Name()
    ensures '\n' !in p.value + p.endQuote && '\r' !in p.value + p.endQuote
  {
    ValidParts(p);
    PrefixOfValue(p.value, p.Name());
    ValueLacks(p.Name());
    ValueLacks(p.value);
    QuoteLacks(p.value, p.endQuote);
  }

  lemma PrefixOfValue(s: string, prefix: string)
    requires AllValue(s) && prefix <= s
    ensures AllValue(prefix)
  {
    assert forall i :: 0 <= i < |prefix| ==> prefix[i] == s[i];
  }

  lemma QuoteLacks(value: string, quote: string)
    requires '\n' !in value && '\r' !in value && quote in {"", "'", "\""}
    ensures '\n' !in value + quote && '\r' !in value + quote
  {
  }

  lemma ValueLacks(s: string)
    requires AllValue(s)
    ensures '\n' !in s && '\r' !in s
  {
    assert !ValueChar('\n') && !ValueChar('\r');
  }

  lemma MiddleDiff(before: string, middle: string, middle': string, after: string)
    requires middle != "" && '\n' !in middle && '\r' !in middle
    requires var e := Effective(middle', after); e != "" && e[0] != '\n'
    ensures var replacement := Effective(middle', after);
      var content, content' := before + middle + after, before + middle' + after;
      && (RemovesAndAddsOne(content, content') <==> '\n' !in replacement && replacement != middle)
      && ('\n' !in replacement && replacement != middle ==>
            Exchanges(content, content', LineOf(before),
              LineAround(before, middle, after), LineAround(before, replacement, after)))
  {
    var replacement := Effective(middle', after);
    LinesAround(before, middle, after);
    LinesAround(before, middle', after);
    UnifiedDiff.SplitNone(middle);
    var x, z := UnifiedDiff.SplitLines(before), UnifiedDiff.SplitLines(StripLf(after));
    if '\n' in replacement {
      UnifiedDiff.SplitSome(replacement);
      MoreLines(UnifiedDiff.Glue(UnifiedDiff.Glue(x, [middle]), z),
        UnifiedDiff.Glue(UnifiedDiff.Glue(x, UnifiedDiff.SplitLines(replacement)), z));
    } else {
      UnifiedDiff.SplitNone(replacement);
      GluedLine(x, middle, replacement, z);
    }
  }

  lemma MoreLines(a: seq<string>, b: seq<string>)
    requires |a| < |b|
    ensures |LineDiff.Removed(LineDiff.EditScript(a, b))| < |LineDiff.Added(LineDiff.EditScript(a, b))|
  {
    LineDiff.EditScriptCorrect(a, b);
    LineDiff.SidesPartition(LineDiff.EditScript(a, b));
  }

  /** Glueing one line or another between the same neighbours changes that one line. */
  lemma GluedLine(x: seq<string>, line: string, line': string, z: seq<string>)
    requires x != [] && z != []
    ensures var a := UnifiedDiff.Glue(UnifiedDiff.Glue(x, [line]), z);
      var script := LineDiff.EditScript(a, UnifiedDiff.Glue(UnifiedDiff.Glue(x, [line']), z));
      var n, newLine := |x| - 1, x[|x| - 1] + line' + z[0];
      && (|LineDiff.Removed(script)| == 1 <==> line != line')
      && n < |a| && a[n] == x[n] + line + z[0]
      && (line != line' ==> LineDiff.ReplacesLine(script, a, n, newLine))
  {
    var n := |x| - 1;
    var a, b := UnifiedDiff.Glue(UnifiedDiff.Glue(x, [line]), z), UnifiedDiff.Glue(UnifiedDiff.Glue(x, [line']), z);
    assert a[n] == x[n] + line + z[0];
    assert b == a[n := x[n] + line' + z[0]];
    if line == line' {
      LineDiff.EditScriptSame(a);
    } else {
      SameEnds(x[n], line, line', z[0]);
      LineDiff.SingleLineChange(a, n, b[n]);
    }
  }

  lemma SameEnds(x: string, line: string, line': string, z: string)
    ensures x + line + z == x + line' + z ==> line == line'
  {
    if x + line + z == x + line' + z {
      assert |line| == |line'|;
      assert (x + line + z)[|x|..|x| + |line|] == line;
      assert (x + line' + z)[|x|..|x| + |line'|] == line';
    }
  }

  /** For a tag free of CR and LF, an update that changes the content at all has a diff of exactly the old
      image line, the new image line, and context. */
  lemma PlainTagDiff(pieces: seq<Piece>, imageName: string, tag: string, k: nat)
    requires Valid(pieces) && IsFirstImage(pieces, imageName, k) && '\r' !in tag && '\n' !in tag
    ensures var p, target := pieces[k], imageName + ":" + tag;
      var content, content' := Render(pieces), Render(pieces[k := p.WithImage(target)]);
      && (content != content' <==> RemovesAndAddsOne(content, content'))
      && (content != content' ==>
            Exchanges(content, content', LineOf(Before(pieces, k)),
              LineAround(Before(pieces, k), p.value + p.endQuote, After(pieces, k)),
              LineAround(Before(pieces, k), Replacement(p, target), After(pieces, k))))
  {
    var p, target := pieces[k], imageName + ":" + tag;
    UpdateDiff(pieces, imageName, tag, k);
    RenderAround(pieces, k);
    RenderUpdated(pieces, k, target);
    ValidParts(p);
    NameLacks(p);
    PlainReplacement(p, imageName, tag);
    PlainEffective(Replacement(p, target), After(pieces, k));
    SameEnds(Before(pieces, k), p.value + p.endQuote, Replacement(p, target), After(pieces, k));
  }

  lemma PlainReplacement(p: Piece, imageName: string, tag: string)
    requires p.Image? && p.quote in {"", "'", "\""} && p.endQuote in {"", "'", "\""}
    requires '\n' !in imageName && '\r' !in imageName && '\r' !in tag && '\n' !in tag
    ensures var r := Replacement(p, imageName + ":" + tag); '\n' !in r && '\r' !in r
  {
  }

  lemma PlainEffective(middle: string, after: string)
    requires '\n' !in middle && '\r' !in middle
    ensures Effective(middle, after) == middle
  {
  }

  /** When the content changes and yet the diff is empty, for every tag: exactly when the replacement differs from what
      it replaces only by a line break at its end that does not take part in the lines. */
  lemma EmptyDiffExactly(pieces: seq<Piece>, imageName: string, tag: string, k: nat)
    requires Valid(pieces) && IsFirstImage(pieces, imageName, k)
    ensures var p, target := pieces[k], imageName + ":" + tag;
      var after, middle := After(pieces, k), p.value + p.endQuote;
      var content, content' := Render(pieces), Render(pieces[k := p.WithImage(target)]);
      content != content' && ChangesNoLine(content, content') <==>
        Replacement(p, target) != middle && Effective(Replacement(p, target), after) == middle
  {
    var p, target := pieces[k], imageName + ":" + tag;
    RenderAround(pieces, k);
    RenderUpdated(pieces, k, target);
    ValidParts(p);
    NameLacks(p);
    TargetFits(p, imageName, tag, After(pieces, k));
    MiddleUnchanged(Before(pieces, k), p.value + p.endQuote, Replacement(p, target), After(pieces, k));
    SameEnds(Before(pieces, k), p.value + p.endQuote, Replacement(p, target), After(pieces, k));
  }

  predicate ChangesNoLine(content: string, content': string)
  {
    LineDiff.Removed(Script(content, content')) == [] && LineDiff.Added(Script(content, content')) == []
  }

  lemma MiddleUnchanged(before: string, middle: string, middle': string, after: string)
    requires middle != "" && '\n' !in middle && '\r' !in middle
    requires var e := Effective(middle', after); e != "" && e[0] != '\n'
    ensures ChangesNoLine(before + middle + after, before + middle' + after) <==> Effective(middle', after) == middle
  {
    var replacement := Effective(middle', after);
    LinesAround(before, middle, after);
    LinesAround(before, middle', after);
    PlainEffective(middle, after);
    UnifiedDiff.SplitNone(middle);
    var x, z := UnifiedDiff.SplitLines(before), UnifiedDiff.SplitLines(StripLf(after));
    if '\n' in replacement {
      UnifiedDiff.SplitSome(replacement);
      MoreLines(UnifiedDiff.Glue(UnifiedDiff.Glue(x, [middle]), z),
        UnifiedDiff.Glue(UnifiedDiff.Glue(x, UnifiedDiff.SplitLines(replacement)), z));
    } else {
      UnifiedDiff.SplitNone(replacement);
      GluedLine(x, middle, replacement, z);
      if replacement == middle {
        LineDiff.EditScriptSame(UnifiedDiff.Glue(UnifiedDiff.Glue(x, [middle]), z));
      }
    }
  }

  /** So a tag that adds a CR before an LF changes the content and leaves the diff empty: the CR joins the LF. */
  lemma HiddenCarriageReturn(head: string, imageName: string, tag: string, rest: string)
    requires AllValue(imageName) && AllValue(tag) && ':' !in tag && rest != ""
    ensures var pieces := [Image(head, "", imageName + ":" + tag, "", ""), Other("\n" + rest)];
      var updated := pieces[0 := pieces[0].WithImage(imageName + ":" + tag + "\r")];
      && Valid(pieces) && IsFirstImage(pieces, imageName, 0)
      && Render(updated) != Render(pieces)
      && LineDiff.Removed(Script(Render(pieces), Render(updated))) == [] ==
            LineDiff.Added(Script(Render(pieces), Render(updated)))
  {
    var target := imageName + ":" + tag;
    var p, behind := Image(head, "", target, "", ""), Other("\n" + rest);
    assert [p, behind][0 := p.WithImage(target + "\r")] == [p.WithImage(target + "\r"), behind];
    NameOfTarget(imageName, tag, p);
    ValueWithTag(imageName, tag);
    PlainImageValid(head, target);
    FirstOfTwo(p, behind, imageName);
    RenderPlain(head, target, "\n" + rest);
    RenderPlain(head, target + "\r", "\n" + rest);
    HiddenText(head, target, rest);
    TargetEnd(head, imageName, tag);
    HiddenSeparator(head + target, rest);
    LineDiff.EditScriptSame(UnifiedDiff.ContentLines(head + target + "\n" + rest));
  }

  lemma {:induction false} FirstOfTwo(p: Piece, behind: Piece, imageName: string)
    requires p.Valid() && p.Names(imageName) && behind.Other?
    ensures Valid([p, behind]) && IsFirstImage([p, behind], imageName, 0)
  {
    var pieces := [p, behind];
    assert pieces[0] == p && pieces[1] == behind;
    forall i | 0 <= i < |pieces| ensures pieces[i].Valid() {
      assert i == 0 || i == 1;
    }
  }

  lemma TargetEnd(head: string, imageName: string, tag: string)
    requires AllValue(tag)
    ensures var x := head + (imageName + ":" + tag); x != "" && x[|x| - 1] != '\r'
  {
    ValueLacks(tag);
  }

  lemma RenderPlain(prefix: string, value: string, text: string)
    ensures Render([Image(prefix, "", value, "", ""), Other(text)]) == prefix + value + text
  {
    RenderTwo(Image(prefix, "", value, "", ""), Other(text));
    Units(value, "");
    assert value + "" == value;
  }

  lemma Units(s: string, t: string)
    ensures "" + s + "" + t == s + t
  {
    assert "" + s == s && s + "" == s;
  }

  lemma HiddenText(head: string, target: string, rest: string)
    ensures head + target + ("\n" + rest) == (head + target) + "\n" + rest
    ensures head + (target + "\r") + ("\n" + rest) == (head + target) + "\r\n" + rest
  {
    Associative(head + target, "\n", rest);
    Associative(head, target, "\r");
    Associative(head + target, "\r", "\n");
    Associative(head + target + "\r", "\n", rest);
    assert "\r" + "\n" == "\r\n";
  }

  lemma RenderTwo(p: Piece, q: Piece)
    ensures Render([p, q]) == p.Render() + q.Render()
  {
    assert [p, q][1..] == [q];
    assert Render([q]) == q.Render() + Render([]);
  }

  lemma HiddenSeparator(x: string, rest: string)
    requires x != "" && x[|x| - 1] != '\r' && rest != ""
    ensures UnifiedDiff.ContentLines(x + "\n" + rest) == UnifiedDiff.ContentLines(x + "\r\n" + rest)
    ensures x + "\n" + rest != x + "\r\n" + rest
  {
    var tail := StripLf(rest);
    assert |x + "\n" + rest| != |x + "\r\n" + rest|;
    assert StripLf(x + "\n" + rest) == x + ("\n" + tail);
    assert StripLf(x + "\r\n" + rest) == x + ("\r\n" + tail);
    UnifiedDiff.SplitConcat(x, "\n" + tail);
    UnifiedDiff.SplitConcat(x, "\r\n" + tail);
    assert ("\n" + tail)[1..] == tail && ("\r\n" + tail)[2..] == tail;
  }

  lemma PlainImageValid(prefix: string, value: string)
    requires value != "" && AllValue(value)
    ensures Image(prefix, "", value, "", "").Valid()
  {
    var p := Image(prefix, "", value, "", "");
    assert p.Behind() == value + "";
    RunUnique(value, "", ValueChar);
  }

  // ---- updating again ------------------------------------------------------------------------------

  lemma ReadEndParts(prefix: string, quote: string, value: string, text: string)
    ensures var (p, rest) := ReadEnd(prefix, quote, value, text); p.endQuote + (p.suffix + rest) == text
  {
    var endQuote := QuoteAt(text);
    assert text == endQuote + text[|endQuote|..];
  }

  lemma {:induction false} ReadFrom(prefix: string, quote: string, value: string, tail: string)
    requires quote in {"", "'", "\""} && value != "" && AllValue(value) && (tail == "" || !ValueChar(tail[0]))
    ensures ReadImage(prefix, quote + (value + tail)) == Some(ReadEnd(prefix, quote, value, tail))
  {
    var text := quote + (value + tail);
    assert text[|quote|..] == value + tail;
    assert ValueChar(value[0]) && (value + tail)[0] == value[0];
    assert QuoteAt(text) == quote;
    RunUnique(value, tail, ValueChar);
  }

  /** What stands behind a value that was cut short at the first character of the tag that it cannot have. */
  function Tail(p: Piece, tag: string, rest: string): string
    requires p.Image?
  {
    tag[|Run(tag, ValueChar)|..] + (p.WithImage("").endQuote + (p.suffix + rest))
  }

  lemma TailStops(p: Piece, tag: string, rest: string)
    requires p.Image? && p.Valid() && AtLineEnd(rest)
    ensures var tail := Tail(p, tag, rest); tail == "" || !ValueChar(tail[0])
  {
    ValidParts(p);
  }

  /** How the rewritten match is read: the value ends where the tag holds the first character that a value
      cannot have. */
  lemma {:induction false} ReadAgain(p: Piece, imageName: string, tag: string, rest: string)
    requires p.Image? && p.Valid() && p.Names(imageName) && AtLineEnd(rest)
    ensures ReadImage(p.prefix, p.WithImage(imageName + ":" + tag).Behind() + rest) ==
      Some(ReadEnd(p.prefix, p.quote, imageName + ":" + Run(tag, ValueChar), Tail(p, tag, rest)))
  {
    var r := Run(tag, ValueChar);
    var value, tail := imageName + ":" + r, Tail(p, tag, rest);
    TailStops(p, tag, rest);
    BehindUpdated(p, imageName, tag, rest);
    ValueParts(p, imageName, r);
    ReadFrom(p.prefix, p.quote, value, tail);
  }

  lemma ValueParts(p: Piece, imageName: string, r: string)
    requires p.Image? && p.Valid() && p.Names(imageName) && AllValue(r)
    ensures AllValue(imageName + ":" + r) && p.quote in {"", "'", "\""}
  {
    ValidParts(p);
    NameLacks(p);
    ValueWithTag(imageName, r);
  }

  lemma ValueWithTag(imageName: string, tag: string)
    requires AllValue(imageName) && AllValue(tag)
    ensures AllValue(imageName + ":" + tag)
  {
    assert ValueChar(':');
  }

  lemma BehindUpdated(p: Piece, imageName: string, tag: string, rest: string)
    requires p.Image?
    ensures p.WithImage(imageName + ":" + tag).Behind() + rest ==
      p.quote + ((imageName + ":" + Run(tag, ValueChar)) + Tail(p, tag, rest))
  {
    var r := Run(tag, ValueChar);
    TargetParts(imageName, tag);
    RegroupTail(p.quote, imageName + ":" + r, tag[|r|..], p.WithImage("").endQuote, p.suffix, rest);
  }

  lemma TargetParts(imageName: string, tag: string)
    ensures var r := Run(tag, ValueChar); imageName + ":" + tag == (imageName + ":" + r) + tag[|r|..]
  {
    var r := Run(tag, ValueChar);
    assert tag == r + tag[|r|..];
    Associative(imageName + ":", r, tag[|r|..]);
  }

  lemma RegroupTail(q: string, n: string, t: string, e: string, f: string, rest: string)
    ensures q + (n + t) + e + f + rest == q + (n + (t + (e + (f + rest))))
    ensures q + (n + t) + e + f + rest == (q + n) + (t + e) + (f + rest)
  {
    Associative(q + (n + t) + e, f, rest);
    var tail := f + rest;
    assert q + (n + t) + e + tail == q + (n + (t + (e + tail)));
    assert q + (n + t) + e + tail == (q + n) + (t + e) + tail;
  }

  /** The same update once more, on the rewritten file: it finds its match again exactly when what a value can hold
      of the tag has no colon; and rewriting that match changes nothing exactly when a value can hold all of it. */
  lemma {:induction false} SecondUpdate(pieces: seq<Piece>, imageName: string, tag: string, k: nat)
    requires Valid(pieces) && IsFirstImage(pieces, imageName, k) && AtLineEnd(Render(pieces[k + 1..]))
    ensures var target := imageName + ":" + tag; var p := pieces[k];
      var content' := Render(pieces[k := p.WithImage(target)]);
      var start := |Render(pieces[..k]) + p.prefix|;
      start <= |content'| &&
      match ReadImage(p.prefix, content'[start..])
      case None => false
      case Some((again, rest)) =>
        && (again.Names(imageName) <==> ':' !in Run(tag, ValueChar))
        && (content'[..start] + (again.WithImage(target).Behind() + rest) == content' <==> AllValue(tag))
  {
    var p, rest := pieces[k], Render(pieces[k + 1..]);
    var r, tail, head := Run(tag, ValueChar), Tail(p, tag, rest), Render(pieces[..k]) + p.prefix;
    UpdatedText(pieces, k, imageName + ":" + tag);
    ReadAgain(p, imageName, tag, rest);
    var (again, rest') := ReadEnd(p.prefix, p.quote, imageName + ":" + r, tail);
    ReadEndParts(p.prefix, p.quote, imageName + ":" + r, tail);
    NameOfTarget(imageName, r, again);
    BehindUpdated(p, imageName, tag, rest);
    RewriteAgain(p, imageName, tag, rest, again, rest');
    Prepend(head, again.WithImage(imageName + ":" + tag).Behind() + rest',
      p.WithImage(imageName + ":" + tag).Behind() + rest);
  }

  lemma Prepend(head: string, a: string, b: string)
    ensures head + a == head + b <==> a == b
  {
    assert (head + a)[|head|..] == a && (head + b)[|head|..] == b;
  }

  lemma UpdatedText(pieces: seq<Piece>, k: nat, target: string)
    requires k < |pieces| && pieces[k].Image?
    ensures var q, head := pieces[k].WithImage(target), Render(pieces[..k]) + pieces[k].prefix;
      var content' := Render(pieces[k := q]);
      && content' == head + (q.Behind() + Render(pieces[k + 1..]))
      && |head| <= |content'| && content'[..|head|] == head &&
            content'[|head|..] == q.Behind() + Render(pieces[k + 1..])
  {
    var q, a, b := pieces[k].WithImage(target), pieces[..k], pieces[k + 1..];
    assert pieces[k := q] == a + ([q] + b);
    RenderConcat(a, [q] + b);
    assert ([q] + b)[1..] == b;
    Regroup2(Render(a), q.prefix, q.Behind(), Render(b));
  }

  lemma Regroup2(a: string, b: string, c: string, d: string)
    ensures a + (b + c + d) == (a + b) + (c + d)
    ensures ((a + b) + (c + d))[..|a + b|] == a + b && ((a + b) + (c + d))[|a + b|..] == c + d
  {
  }

  /** The text that rewriting puts back is the one that was read, exactly when none of the tag was left out. */
  lemma {:induction false} RewriteAgain(p: Piece, imageName: string, tag: string, rest: string, again: Piece,
      rest': string)
    requires p.Image? && p.Valid() && AtLineEnd(rest)
    requires (again, rest') == ReadEnd(p.prefix, p.quote, imageName + ":" + Run(tag, ValueChar), Tail(p, tag, rest))
    ensures AllValue(tag) <==>
      again.WithImage(imageName + ":" + tag).Behind() + rest' ==
      p.quote + ((imageName + ":" + Run(tag, ValueChar)) + Tail(p, tag, rest))
  {
    var r := Run(tag, ValueChar);
    var value, t, end := imageName + ":" + r, tag[|r|..], again.WithImage("").endQuote;
    TargetParts(imageName, tag);
    RegroupTail(p.quote, value, t, end, again.suffix, rest');
    ReadEndParts(p.prefix, p.quote, value, Tail(p, tag, rest));
    var left := again.suffix + rest';
    Regroup3(p.quote, value, again.endQuote, left);
    SameEnds(p.quote + value, t + end, again.endQuote, left);
    NothingLeftOut(tag);
    if t == "" {
      EndQuoteKept(p, tag, rest);
      assert t + end == end;
    } else {
      assert |t + end| > |again.endQuote|;
    }
  }

  lemma NothingLeftOut(tag: string)
    ensures AllValue(tag) <==> tag[|Run(tag, ValueChar)|..] == ""
  {
    var r := Run(tag, ValueChar);
    if |r| == |tag| { assert r == tag; }
  }

  lemma Regroup3(q: string, n: string, e: string, left: string)
    ensures q + (n + (e + left)) == (q + n) + e + left
  {
  }

  lemma {:induction false} EndQuoteKept(p: Piece, tag: string, rest: string)
    requires p.Image? && p.Valid() && AtLineEnd(rest) && tag[|Run(tag, ValueChar)|..] == ""
    ensures QuoteAt(Tail(p, tag, rest)) == p.WithImage("").endQuote
    ensures QuoteAt(Tail(p, tag, rest)) == "" ==> p.quote == ""
  {
    ValidParts(p);
    var end := p.WithImage("").endQuote;
    assert Tail(p, tag, rest) == end + (p.suffix + rest);
    QuoteFound(end, p.suffix, rest);
  }

  lemma QuoteFound(end: string, suffix: string, rest: string)
    requires end in {"", "'", "\""} && (end == "" ==> QuoteAt(suffix) == "") && AtLineEnd(rest)
    ensures QuoteAt(end + (suffix + rest)) == end
  {
    assert suffix == "" ==> suffix + rest == rest;
  }

  /** A tag with a blank: the next update finds the image under the part before the blank, and repeats the rest. */
  lemma {:induction false} BlankTagGrows(p: Piece, imageName: string, a: string, b: string, rest: string)
    requires p.Image? && p.Valid() && p.Names(imageName) && p.quote == p.endQuote == p.suffix == "" && AtLineEnd(rest)
    requires AllValue(a) && ':' !in a && forall i :: 0 <= i < |b| ==> InLine(b[i])
    ensures var target := imageName + ":" + (a + " " + b);
      var again := Image(p.prefix, "", imageName + ":" + a, "", " " + b);
      && ReadImage(p.prefix, p.WithImage(target).Behind() + rest) == Some((again, rest)) && again.Names(imageName)
      && again.WithImage(target).Behind() == target + (" " + b)
  {
    var target := imageName + ":" + (a + " " + b);
    var again := Image(p.prefix, "", imageName + ":" + a, "", " " + b);
    NameOfTarget(imageName, a, again);
    BlankTail(p, a, b, rest);
    ReadAgain(p, imageName, a + " " + b, rest);
    ReadBlank(p.prefix, imageName + ":" + a, b, rest);
    Units(target, " " + b);
  }

  lemma {:induction false} ReadBlank(prefix: string, value: string, b: string, rest: string)
    requires AtLineEnd(rest) && forall i :: 0 <= i < |b| ==> InLine(b[i])
    ensures ReadEnd(prefix, "", value, " " + b + rest) == (Image(prefix, "", value, "", " " + b), rest)
  {
    var text := " " + b + rest;
    assert text[0] == ' ' && text[0..] == text;
    RunUnique(" " + b, rest, InLine);
  }

  lemma {:induction false} BlankTail(p: Piece, a: string, b: string, rest: string)
    requires p.Image? && p.quote == p.endQuote == p.suffix == "" && AllValue(a)
    ensures Run(a + " " + b, ValueChar) == a && Tail(p, a + " " + b, rest) == " " + b + rest
  {
    Associative(a, " ", b);
    RunUnique(a, " " + b, ValueChar);
    assert "" + ("" + rest) == rest;
  }

  lemma NameOfTarget(imageName: string, tag: string, p: Piece)
    requires p.Image? && p.value == imageName + ":" + tag
    ensures p.Names(imageName) <==> ':' !in tag
  {
    var k := LastIndexOf(p.value, ':');
    assert p.value[|imageName|] == ':';
    assert p.value[..|imageName|] == imageName;
    assert p.value[|imageName| + 1..] == tag;
    if ':' in tag {
      var i :| 0 <= i < |tag| && tag[i] == ':';
      assert p.value[|imageName| + 1 + i] == ':';
    } else {
      assert forall i :: |imageName| < i < |p.value| ==> p.value[i] == tag[i - |imageName| - 1];
    }
  }
}
