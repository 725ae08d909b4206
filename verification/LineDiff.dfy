/** The line diff of the GitOps updater: the longest-common-subsequence table, the greedy walk over
    it, and why the resulting edit script is correct and as small as any edit script can be. */
module LineDiff {

  // ---- longest common subsequences ---------------------------------------------------------

  /** `c` can be obtained from `a` by deleting lines. */
  ghost predicate Subsequence(c: seq<string>, a: seq<string>)
    decreases |a|
  {
    c == [] ||
    (a != [] && ((c[0] == a[0] && Subsequence(c[1..], a[1..])) || Subsequence(c, a[1..])))
  }

  ghost predicate CommonSubsequence(c: seq<string>, a: seq<string>, b: seq<string>)
  {
    Subsequence(c, a) && Subsequence(c, b)
  }

  /** `n` is the length of a longest common subsequence: some have it, none is longer. */
  ghost predicate IsLcsLength(n: int, a: seq<string>, b: seq<string>)
  {
    && (exists c :: CommonSubsequence(c, a, b) && |c| == n)
    && (forall c :: CommonSubsequence(c, a, b) ==> |c| <= n)
  }

  /** The recurrence that the table is filled by. */
  function LcsLength(a: seq<string>, b: seq<string>): nat
    decreases |a| + |b|
  {
    if a == [] || b == [] then 0
    else if a[0] == b[0] then LcsLength(a[1..], b[1..]) + 1
    else
      var skipA, skipB := LcsLength(a[1..], b), LcsLength(a, b[1..]);
      if skipA >= skipB then skipA else skipB
  }

  lemma {:induction false} SubsequenceTail(c: seq<string>, a: seq<string>)
    requires c != [] && Subsequence(c, a)
    ensures a != [] && Subsequence(c[1..], a[1..])
    decreases |a|
  {
    if !(c[0] == a[0] && Subsequence(c[1..], a[1..])) {
      SubsequenceTail(c, a[1..]);
    }
  }

  lemma {:induction false} CommonSubsequenceBound(c: seq<string>, a: seq<string>, b: seq<string>)
    requires CommonSubsequence(c, a, b)
    ensures |c| <= LcsLength(a, b)
    decreases |a| + |b|
  {
    if c == [] {
    } else {
      if a[0] == b[0] {
        SubsequenceTail(c, a);
        SubsequenceTail(c, b);
        CommonSubsequenceBound(c[1..], a[1..], b[1..]);
      } else if c[0] != a[0] {
        CommonSubsequenceBound(c, a[1..], b);
      } else {
        CommonSubsequenceBound(c, a, b[1..]);
      }
    }
  }

  // ---- edit scripts --------------------------------------------------------------------------

  /** Every line of an edit script starts with one of the three unified-diff marks. */
  predicate WellFormed(script: seq<string>)
  {
    forall i :: 0 <= i < |script| ==> script[i] != "" && script[i][0] in {' ', '-', '+'}
  }

  /** The texts of the lines that carry one of the given marks. */
  function Side(script: seq<string>, marks: set<char>): seq<string>
  {
    if script == [] then []
    else (if script[0] != "" && script[0][0] in marks then [script[0][1..]] else []) + Side(script[1..], marks)
  }

  function OldSide(script: seq<string>): seq<string> { Side(script, {' ', '-'}) }
  function NewSide(script: seq<string>): seq<string> { Side(script, {' ', '+'}) }
  function Kept(script: seq<string>): seq<string> { Side(script, {' '}) }
  function Removed(script: seq<string>): seq<string> { Side(script, {'-'}) }
  function Added(script: seq<string>): seq<string> { Side(script, {'+'}) }

  /** `script` turns `a` into `b`. */
  predicate Transforms(script: seq<string>, a: seq<string>, b: seq<string>)
  {
    WellFormed(script) && OldSide(script) == a && NewSide(script) == b
  }

  /** The script the greedy walk produces: on equal heads keep, else take the side whose removal
      leaves the longer common subsequence, deleting on a tie. */
  function EditScript(a: seq<string>, b: seq<string>): seq<string>
    decreases |a| + |b|
  {
    if a == [] && b == [] then []
    else if a != [] && b != [] && a[0] == b[0] then [" " + a[0]] + EditScript(a[1..], b[1..])
    else if b != [] && (a == [] || LcsLength(a, b[1..]) > LcsLength(a[1..], b)) then
      ["+" + b[0]] + EditScript(a, b[1..])
    else
      ["-" + a[0]] + EditScript(a[1..], b)
  }

  lemma SideCons(line: string, script: seq<string>, marks: set<char>)
    requires line != ""
    ensures Side([line] + script, marks) == (if line[0] in marks then [line[1..]] else []) + Side(script, marks)
  {
    assert ([line] + script)[1..] == script;
  }

  lemma SidesCons(line: string, script: seq<string>)
    requires line != "" && line[0] in {' ', '-', '+'} && WellFormed(script)
    ensures WellFormed([line] + script)
    ensures OldSide([line] + script) == (if line[0] == '+' then [] else [line[1..]]) + OldSide(script)
    ensures NewSide([line] + script) == (if line[0] == '-' then [] else [line[1..]]) + NewSide(script)
    ensures Kept([line] + script) == (if line[0] == ' ' then [line[1..]] else []) + Kept(script)
  {
    SideCons(line, script, {' ', '-'});
    SideCons(line, script, {' ', '+'});
    SideCons(line, script, {' '});
  }

  lemma ChangesCons(line: string, script: seq<string>)
    requires line != "" && line[0] in {' ', '-', '+'}
    ensures Removed([line] + script) == (if line[0] == '-' then [line[1..]] else []) + Removed(script)
    ensures Added([line] + script) == (if line[0] == '+' then [line[1..]] else []) + Added(script)
  {
    SideCons(line, script, {'-'});
    SideCons(line, script, {'+'});
  }

  /** The walk's script turns `a` into `b` and keeps exactly a longest common subsequence. */
  lemma {:induction false} EditScriptCorrect(a: seq<string>, b: seq<string>)
    ensures Transforms(EditScript(a, b), a, b)
    ensures |Kept(EditScript(a, b))| == LcsLength(a, b)
    decreases |a| + |b|
  {
    if a == [] && b == [] {
    } else if a != [] && b != [] && a[0] == b[0] {
      EditScriptCorrect(a[1..], b[1..]);
      SidesCons(" " + a[0], EditScript(a[1..], b[1..]));
    } else if b != [] && (a == [] || LcsLength(a, b[1..]) > LcsLength(a[1..], b)) {
      EditScriptCorrect(a, b[1..]);
      SidesCons("+" + b[0], EditScript(a, b[1..]));
    } else {
      EditScriptCorrect(a[1..], b);
      SidesCons("-" + a[0], EditScript(a[1..], b));
    }
  }

  /** Selecting by fewer marks selects a subsequence. */
  lemma {:induction false} SideSubsequence(script: seq<string>, m: set<char>, n: set<char>)
    requires m <= n
    ensures Subsequence(Side(script, m), Side(script, n))
  {
    if script == [] {
    } else {
      var rest := script[1..];
      SideSubsequence(rest, m, n);
      if script[0] != "" && script[0][0] in n {
        assert Side(script, n)[1..] == Side(rest, n);
        if script[0][0] in m {
          assert Side(script, m)[1..] == Side(rest, m);
        } else {
          assert Side(script, m) == Side(rest, m);
        }
      } else {
        assert Side(script, m) == Side(rest, m) && Side(script, n) == Side(rest, n);
      }
    }
  }

  /** What any script keeps is a common subsequence of its two sides. */
  lemma KeptIsCommon(script: seq<string>)
    ensures CommonSubsequence(Kept(script), OldSide(script), NewSide(script))
  {
    SideSubsequence(script, {' '}, {' ', '-'});
    SideSubsequence(script, {' '}, {' ', '+'});
  }

  /** Selecting by two disjoint sets of marks splits what selecting by their union finds. */
  lemma {:induction false} SideSplit(script: seq<string>, m: set<char>, n: set<char>)
    requires m !! n
    ensures multiset(Side(script, m + n)) == multiset(Side(script, m)) + multiset(Side(script, n))
  {
    if script == [] {
    } else {
      var rest := script[1..];
      SideSplit(rest, m, n);
      if script[0] != "" {
        var line := script[0][1..];
        MultisetCons(line, Side(rest, m + n));
        MultisetCons(line, Side(rest, m));
        MultisetCons(line, Side(rest, n));
      }
    }
  }

  lemma MultisetCons(line: string, s: seq<string>)
    ensures multiset([line] + s) == multiset{line} + multiset(s)
  {
  }

  /** Every line of a script is kept, removed or added, on the side it belongs to. */
  lemma SidesPartition(script: seq<string>)
    ensures multiset(OldSide(script)) == multiset(Kept(script)) + multiset(Removed(script))
    ensures multiset(NewSide(script)) == multiset(Kept(script)) + multiset(Added(script))
    ensures |OldSide(script)| == |Kept(script)| + |Removed(script)|
    ensures |NewSide(script)| == |Kept(script)| + |Added(script)|
  {
    SideSplit(script, {' '}, {'-'});
    SideSplit(script, {' '}, {'+'});
    assert {' '} + {'-'} == {' ', '-'} && {' '} + {'+'} == {' ', '+'};
    Sizes(OldSide(script), Kept(script), Removed(script));
    Sizes(NewSide(script), Kept(script), Added(script));
  }

  lemma Sizes(s: seq<string>, t: seq<string>, u: seq<string>)
    requires multiset(s) == multiset(t) + multiset(u)
    ensures |s| == |t| + |u|
  {
    assert |multiset(s)| == |multiset(t)| + |multiset(u)|;
  }

  /** The recurrence computes the length of a longest common subsequence. */
  lemma LcsLengthIsLongest(a: seq<string>, b: seq<string>)
    ensures IsLcsLength(LcsLength(a, b), a, b)
  {
    EditScriptCorrect(a, b);
    KeptIsCommon(EditScript(a, b));
    forall c | CommonSubsequence(c, a, b) ensures |c| <= LcsLength(a, b) {
      CommonSubsequenceBound(c, a, b);
    }
  }

  /** No edit script between the two contents has fewer '-' lines, or fewer '+' lines. */
  lemma EditScriptMinimal(a: seq<string>, b: seq<string>, other: seq<string>)
    requires Transforms(other, a, b)
    ensures |Removed(EditScript(a, b))| <= |Removed(other)|
    ensures |Added(EditScript(a, b))| <= |Added(other)|
  {
    KeptIsCommon(other);
    CommonSubsequenceBound(Kept(other), a, b);
    EditScriptCorrect(a, b);
    SidesPartition(EditScript(a, b));
    SidesPartition(other);
  }

  /** A script of context lines only. */
  function KeepAll(a: seq<string>): seq<string>
  {
    if a == [] then [] else [" " + a[0]] + KeepAll(a[1..])
  }

  /** Equal contents give context lines only. */
  lemma {:induction false} EditScriptSame(a: seq<string>)
    ensures EditScript(a, a) == KeepAll(a) && WellFormed(KeepAll(a)) && |KeepAll(a)| == |a|
    ensures Removed(EditScript(a, a)) == [] && Added(EditScript(a, a)) == [] && Kept(EditScript(a, a)) == a
  {
    if a == [] {
    } else {
      EditScriptSame(a[1..]);
      SidesCons(" " + a[0], KeepAll(a[1..]));
      ChangesCons(" " + a[0], KeepAll(a[1..]));
    }
  }

  // ---- the order of the lines ------------------------------------------------------------------

  /** What a smaller content has in common with another, a larger one has as well. */
  lemma {:induction false} LcsLengthTail(a: seq<string>, b: seq<string>)
    requires b != []
    ensures LcsLength(a, b[1..]) <= LcsLength(a, b)
  {
    EditScriptCorrect(a, b[1..]);
    var c := Kept(EditScript(a, b[1..]));
    KeptIsCommon(EditScript(a, b[1..]));
    SubsequenceOfMore(c, b);
    CommonSubsequenceBound(c, a, b);
  }

  lemma {:induction false} SubsequenceOfMore(c: seq<string>, b: seq<string>)
    requires b != [] && Subsequence(c, b[1..])
    ensures Subsequence(c, b)
  {
  }

  /** How early a line comes among the ways to go on: context, then '-', then '+'. */
  function Rank(line: string): nat
  {
    if line == "" then 3 else if line[0] == ' ' then 0 else if line[0] == '-' then 1 else 2
  }

  predicate AddedLine(line: string) { Rank(line) == 2 }

  predicate RemovedLine(line: string) { Rank(line) == 1 }

  /** Within a change the '-' lines come first: no '+' line is directly followed by a '-' line. */
  lemma {:induction false} RemovedBeforeAdded(a: seq<string>, b: seq<string>)
    ensures var script := EditScript(a, b);
      forall i :: 0 <= i < |script| - 1 && AddedLine(script[i]) ==> !RemovedLine(script[i + 1])
    decreases |a| + |b|
  {
    if a == [] && b == [] {
    } else {
      var script := EditScript(a, b);
      var (a', b') := Behind(a, b, script[0]);
      RemovedBeforeAdded(a', b');
      assert script == [script[0]] + EditScript(a', b');
      if AddedLine(script[0]) && a != [] {
        NoRemovalNext(a, b);
      }
      forall i | 0 <= i < |script| - 1 && AddedLine(script[i]) ensures !RemovedLine(script[i + 1]) {
        if i > 0 {
          assert script[i] == EditScript(a', b')[i - 1] && script[i + 1] == EditScript(a', b')[i];
        }
      }
    }
  }

  /** What is left of the two contents behind the first line of their script. */
  function Behind(a: seq<string>, b: seq<string>, line: string): (seq<string>, seq<string>)
    requires AddedLine(line) || a != []
    requires RemovedLine(line) || b != []
  {
    (if AddedLine(line) then a else a[1..], if RemovedLine(line) then b else b[1..])
  }

  lemma {:induction false} NoRemovalNext(a: seq<string>, b: seq<string>)
    requires a != [] && b != [] && AddedLine(EditScript(a, b)[0])
    ensures var rest := EditScript(a, b[1..]); rest != [] && !RemovedLine(rest[0])
  {
    var rest := EditScript(a, b[1..]);
    if RemovedLine(rest[0]) {
      EditScriptCorrect(a, b[1..]);
      EditScriptCorrect(a[1..], b[1..]);
      SidesCons(rest[0], EditScript(a[1..], b[1..]));
      LcsLengthTail(a[1..], b);
      assert false;
    }
  }

  /** `s` is `t`, or at the first line where they differ `s` goes on with the earlier kind of line. */
  ghost predicate NotAfter(s: seq<string>, t: seq<string>)
  {
    s == t || exists k :: 0 <= k < |s| && k < |t| && s[..k] == t[..k] && Rank(s[k]) < Rank(t[k])
  }

  lemma {:induction false} NotAfterCons(line: string, s: seq<string>, t: seq<string>)
    requires NotAfter(s, t)
    ensures NotAfter([line] + s, [line] + t)
  {
    if s != t {
      var k :| 0 <= k < |s| && k < |t| && s[..k] == t[..k] && Rank(s[k]) < Rank(t[k]);
      var s', t' := [line] + s, [line] + t;
      assert s'[..k + 1] == [line] + s[..k] && t'[..k + 1] == [line] + t[..k];
      assert s'[k + 1] == s[k] && t'[k + 1] == t[k];
    }
  }

  /** The first line of a script between two contents, and the script between what is left of them. */
  lemma {:induction false} FirstLine(a: seq<string>, b: seq<string>, other: seq<string>) returns (rest: seq<string>)
    requires Transforms(other, a, b) && (a != [] || b != [])
    ensures other != [] && other == [other[0]] + rest && other[0] != ""
    ensures AddedLine(other[0]) || (a != [] && a[0] == other[0][1..])
    ensures RemovedLine(other[0]) || (b != [] && b[0] == other[0][1..])
    ensures var (a', b') := Behind(a, b, other[0]);
      && Transforms(rest, a', b') && |Kept(rest)| <= LcsLength(a', b')
      && |Kept(other)| == |Kept(rest)| + if Rank(other[0]) == 0 then 1 else 0
  {
    rest := other[1..];
    assert other == [other[0]] + rest;
    SidesCons(other[0], rest);
    KeptIsCommon(rest);
    CommonSubsequenceBound(Kept(rest), OldSide(rest), NewSide(rest));
  }

  lemma {:induction false} FirstChoice(a: seq<string>, b: seq<string>, other: seq<string>, rest: seq<string>)
    requires Transforms(other, a, b) && |Kept(other)| == LcsLength(a, b) && (a != [] || b != [])
    requires other != [] && other == [other[0]] + rest && other[0] != ""
    requires AddedLine(other[0]) || (a != [] && a[0] == other[0][1..])
    requires RemovedLine(other[0]) || (b != [] && b[0] == other[0][1..])
    requires var (a', b') := Behind(a, b, other[0]);
      && |Kept(rest)| <= LcsLength(a', b')
      && |Kept(other)| == |Kept(rest)| + if Rank(other[0]) == 0 then 1 else 0
    ensures var script, (a', b') := EditScript(a, b), Behind(a, b, other[0]);
      || Rank(script[0]) < Rank(other[0])
      || (script == [other[0]] + EditScript(a', b') && |Kept(rest)| == LcsLength(a', b'))
  {
    assert other[0] == [other[0][0]] + other[0][1..];
  }

  /** Of all edit scripts that keep as much as possible, the walk's is the first one: it keeps as early as it can,
      and removes before it adds. No other script has this property of all pairs of contents. */
  lemma {:induction false} EditScriptFirst(a: seq<string>, b: seq<string>, other: seq<string>)
    requires Transforms(other, a, b) && |Kept(other)| == LcsLength(a, b)
    ensures NotAfter(EditScript(a, b), other)
    decreases |a| + |b|
  {
    var script := EditScript(a, b);
    if a == [] && b == [] {
    } else {
      var rest := FirstLine(a, b, other);
      FirstChoice(a, b, other, rest);
      if Rank(script[0]) < Rank(other[0]) {
        assert script[..0] == other[..0];
      } else {
        var (a', b') := Behind(a, b, other[0]);
        EditScriptFirst(a', b', rest);
        NotAfterCons(other[0], EditScript(a', b'), rest);
      }
    }
  }

  // ---- replacing one line --------------------------------------------------------------------------

  /** The script that adds `line` before `rest`: behind the lines at its beginning that are equal to it, if any. */
  function Adding(line: string, rest: seq<string>): seq<string>
  {
    if rest != [] && rest[0] == line then [" " + line] + Adding(line, rest[1..]) else ["+" + line] + KeepAll(rest)
  }

  /** The script that replaces line `k`: context, the old line, the new one, context. */
  function Replacing(a: seq<string>, k: nat, line: string): seq<string>
    requires k < |a|
  {
    KeepAll(a[..k]) + (["-" + a[k]] + Adding(line, a[k + 1..]))
  }

  /** The script is context but for line `k`, where it has the old line as '-' line and then the new line as '+' line,
      directly behind it unless the line that follows is equal to the new one. */
  predicate ReplacesLine(script: seq<string>, a: seq<string>, k: nat, line: string)
  {
    && k < |a| && script == Replacing(a, k, line)
    && Removed(script) == [a[k]] && Added(script) == [line] && |Kept(script)| == |a| - 1
    && |script| == |a| + 1 && script[k] == "-" + a[k]
    && (script[k + 1] == "+" + line <==> k + 1 == |a| || a[k + 1] != line)
  }

  /** Replacing one line changes nothing else, wherever else the two lines occur. */
  lemma {:induction false} SingleLineChange(a: seq<string>, k: nat, line: string)
    requires k < |a| && a[k] != line
    ensures ReplacesLine(EditScript(a, a[k := line]), a, k, line)
  {
    if k == 0 {
      ReplaceFirst(a[0], line, a[1..]);
      assert a == [a[0]] + a[1..] && a[0 := line] == [line] + a[1..];
      assert Replacing(a, 0, line) == ["-" + a[0]] + Adding(line, a[1..]);
    } else {
      SingleLineChange(a[1..], k - 1, line);
      ReplaceBehindFirst(a, k, line);
    }
  }

  lemma {:induction false} ReplaceBehindFirst(a: seq<string>, k: nat, line: string)
    requires 0 < k < |a|
    requires EditScript(a[1..], a[1..][k - 1 := line]) == Replacing(a[1..], k - 1, line)
    ensures var script, rest := EditScript(a, a[k := line]), EditScript(a[1..], a[1..][k - 1 := line]);
      && script == [" " + a[0]] + rest == Replacing(a, k, line)
      && Removed(script) == Removed(rest) && Added(script) == Added(rest) && |Kept(script)| == |Kept(rest)| + 1
  {
    var rest := Replacing(a[1..], k - 1, line);
    assert a[k := line][1..] == a[1..][k - 1 := line];
    assert a[..k][1..] == a[1..][..k - 1];
    EditScriptCorrect(a[1..], a[1..][k - 1 := line]);
    SidesCons(" " + a[0], rest);
    ChangesCons(" " + a[0], rest);
    assert [" " + a[0]] + rest == Replacing(a, k, line);
  }

  lemma {:induction false} ReplaceFirst(x: string, y: string, rest: seq<string>)
    requires x != y
    ensures var script := EditScript([x] + rest, [y] + rest);
      && script == ["-" + x] + Adding(y, rest)
      && Removed(script) == [x] && Added(script) == [y] && |Kept(script)| == |rest|
      && |script| == |rest| + 2
      && (script[1] == "+" + y <==> rest == [] || rest[0] != y)
  {
    var a, b := [x] + rest, [y] + rest;
    assert a[1..] == rest && b[1..] == rest;
    OneMore(x, rest);
    OneMore(y, rest);
    AddFirst(y, rest);
    SidesCons("-" + x, Adding(y, rest));
    ChangesCons("-" + x, Adding(y, rest));
  }

  lemma {:induction false} AddFirst(y: string, rest: seq<string>)
    ensures var script := Adding(y, rest);
      && EditScript(rest, [y] + rest) == script && WellFormed(script)
      && Removed(script) == [] && Added(script) == [y] && |Kept(script)| == |rest| && |script| == |rest| + 1
      && (script[0] == "+" + y <==> rest == [] || rest[0] != y)
  {
    var b := [y] + rest;
    assert b[1..] == rest;
    if rest != [] && rest[0] == y {
      AddFirst(y, rest[1..]);
      assert rest == [y] + rest[1..];
      SidesCons(" " + y, Adding(y, rest[1..]));
      ChangesCons(" " + y, Adding(y, rest[1..]));
    } else {
      EditScriptSame(rest);
      OneMore(y, rest);
      if rest != [] {
        LcsLengthBound(rest[1..], b);
      }
      SidesCons("+" + y, KeepAll(rest));
      ChangesCons("+" + y, KeepAll(rest));
    }
  }

  lemma {:induction false} LcsLengthBound(a: seq<string>, b: seq<string>)
    ensures LcsLength(a, b) <= |a| && LcsLength(a, b) <= |b|
  {
    EditScriptCorrect(a, b);
    SidesPartition(EditScript(a, b));
  }

  /** One line more in front leaves all the others in common. */
  lemma {:induction false} OneMore(x: string, s: seq<string>)
    ensures LcsLength([x] + s, s) == LcsLength(s, [x] + s) == LcsLength(s, s) == |s|
    decreases s
  {
    var a := [x] + s;
    assert a[1..] == s;
    if s == [] {
    } else {
      OneMore(s[0], s[1..]);
      assert s == [s[0]] + s[1..];
      LcsLengthBound(a, s[1..]);
      LcsLengthBound(s[1..], a);
    }
  }

  // ---- the implementation --------------------------------------------------------------------

  ghost predicate IsLcsTable(matrix: array2<int>, before: seq<string>, after: seq<string>)
    reads matrix
  {
    && matrix.Length0 == |before| + 1 && matrix.Length1 == |after| + 1
    && forall i, j {:trigger matrix[i, j]} :: 0 <= i <= |before| && 0 <= j <= |after| ==>
      matrix[i, j] == LcsLength(before[i..], after[j..])
  }

  /** Fills the table bottom-up: cell [i, j] is the longest-common-subsequence length of the suffixes. */
  method CreateLcsMatrix(before: seq<string>, after: seq<string>) returns (matrix: array2<int>)
    ensures fresh(matrix) && IsLcsTable(matrix, before, after)
  {
    matrix := new int[|before| + 1, |after| + 1]((i, j) => 0);
    var i := |before| - 1;
    while i >= 0
      invariant -1 <= i < |before|
      invariant forall p, q {:trigger matrix[p, q]} :: i < p <= |before| && 0 <= q <= |after| ==>
        matrix[p, q] == LcsLength(before[p..], after[q..])
      invariant forall p, q :: 0 <= p <= i && 0 <= q <= |after| ==> matrix[p, q] == 0
    {
      var j := |after| - 1;
      while j >= 0
        invariant -1 <= j < |after|
        invariant forall p, q {:trigger matrix[p, q]} :: i < p <= |before| && 0 <= q <= |after| ==>
          matrix[p, q] == LcsLength(before[p..], after[q..])
        invariant forall p, q :: 0 <= p < i && 0 <= q <= |after| ==> matrix[p, q] == 0
        invariant forall q {:trigger matrix[i, q]} :: j < q <= |after| ==>
          matrix[i, q] == LcsLength(before[i..], after[q..])
      {
        assert before[i..][1..] == before[i + 1..] && after[j..][1..] == after[j + 1..];
        matrix[i, j] :=
          if before[i] == after[j] then matrix[i + 1, j + 1] + 1
          else if matrix[i + 1, j] >= matrix[i, j + 1] then matrix[i + 1, j]
          else matrix[i, j + 1];
        j := j - 1;
      }
      i := i - 1;
    }
  }

  /** What one step of the walk emits, and the indices it moves to. */
  ghost function Step(before: seq<string>, after: seq<string>, i: nat, j: nat): (string, nat, nat)
    requires i <= |before| && j <= |after| && (i < |before| || j < |after|)
  {
    if i < |before| && j < |after| && before[i] == after[j] then (" " + before[i], i + 1, j + 1)
    else if j < |after|
         && (i == |before| || LcsLength(before[i..], after[j + 1..]) > LcsLength(before[i + 1..], after[j..])) then
      ("+" + after[j], i, j + 1)
    else
      ("-" + before[i], i + 1, j)
  }

  lemma WalkStep(before: seq<string>, after: seq<string>, i: nat, j: nat)
    requires i <= |before| && j <= |after| && (i < |before| || j < |after|)
    ensures var (line, i', j') := Step(before, after, i, j);
      i' <= |before| && j' <= |after| &&
      EditScript(before[i..], after[j..]) == [line] + EditScript(before[i'..], after[j'..])
  {
    var a, b := before[i..], after[j..];
    if i < |before| { assert a[0] == before[i] && a[1..] == before[i + 1..]; }
    if j < |after| { assert b[0] == after[j] && b[1..] == after[j + 1..]; }
  }

  lemma Associative(s: seq<string>, line: string, t: seq<string>)
    ensures s + ([line] + t) == (s + [line]) + t
  {
  }

  /** The two-index walk over the table. */
  method CreateLineDiff(before: seq<string>, after: seq<string>) returns (output: seq<string>)
    ensures output == EditScript(before, after)
  {
    var lcs := CreateLcsMatrix(before, after);
    output := [];
    ghost var script := EditScript(before, after);
    ghost var rest := script;
    var i, j := 0, 0;
    assert before[i..] == before && after[j..] == after;
    while i < |before| || j < |after|
      invariant 0 <= i <= |before| && 0 <= j <= |after|
      invariant IsLcsTable(lcs, before, after)
      invariant output + rest == script
      invariant rest == EditScript(before[i..], after[j..])
      decreases |before| - i + |after| - j
    {
      WalkStep(before, after, i, j);
      ghost var (line, i', j') := Step(before, after, i, j);
      rest := EditScript(before[i'..], after[j'..]);
      Associative(output, line, rest);
      if i < |before| && j < |after| && before[i] == after[j] {
        output := output + [" " + before[i]];
        i, j := i + 1, j + 1;
      } else if j < |after| && (i == |before| || lcs[i, j + 1] > lcs[i + 1, j]) {
        output := output + ["+" + after[j]];
        j := j + 1;
      } else if i < |before| {
        output := output + ["-" + before[i]];
        i := i + 1;
      }
    }
  }
}
