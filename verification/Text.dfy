/** String and buffer primitives of the JavaScript library that the modelled code relies on. */
module Text {

  /** `indexOf`: position of the first occurrence of `pattern`, or -1. */
  function IndexOf<T(==)>(s: seq<T>, pattern: seq<T>): (k: int)
    requires pattern != []
    ensures -1 <= k
    ensures k >= 0 ==> k + |pattern| <= |s| && s[k..k + |pattern|] == pattern
  {
    if |s| < |pattern| then -1
    else if s[..|pattern|] == pattern then 0
    else
      var k := IndexOf(s[1..], pattern);
      if k < 0 then -1 else k + 1
  }

  /** Bytes that arrive later never move a match that is already in the buffer. */
  lemma {:induction false} IndexOfExtends<T>(s: seq<T>, t: seq<T>, pattern: seq<T>)
    requires pattern != [] && IndexOf(s, pattern) >= 0
    ensures IndexOf(s + t, pattern) == IndexOf(s, pattern)
  {
    assert (s + t)[..|pattern|] == s[..|pattern|];
    if s[..|pattern|] != pattern {
      assert (s + t)[1..] == s[1..] + t;
      IndexOfExtends(s[1..], t, pattern);
    }
  }

  /** The first occurrence is where it visibly starts, when nothing before it holds its first element. */
  lemma {:induction false} IndexOfAfter<T>(a: seq<T>, pattern: seq<T>, rest: seq<T>)
    requires pattern != [] && pattern[0] !in a
    ensures IndexOf(a + pattern + rest, pattern) == |a|
  {
    var s := a + pattern + rest;
    if a == [] {
      assert s[..|pattern|] == pattern;
    } else {
      assert s[..|pattern|][0] == a[0];
      assert s[1..] == a[1..] + pattern + rest;
      IndexOfAfter(a[1..], pattern, rest);
    }
  }

  lemma {:induction false} IndexOfAbsent<T>(s: seq<T>, pattern: seq<T>)
    requires pattern != [] && pattern[0] !in s
    ensures IndexOf(s, pattern) == -1
  {
    if |s| >= |pattern| {
      assert s[..|pattern|][0] == s[0];
      IndexOfAbsent(s[1..], pattern);
    }
  }

  /** `split` with a non-empty separator. */
  function Split<T(==)>(s: seq<T>, separator: seq<T>): (parts: seq<seq<T>>)
    requires separator != []
    ensures parts != []
    decreases |s|
  {
    var k := IndexOf(s, separator);
    if k < 0 then [s] else [s[..k]] + Split(s[k + |separator|..], separator)
  }

  /** `join`. */
  function Join<T>(parts: seq<seq<T>>, separator: seq<T>): seq<T>
  {
    if parts == [] then []
    else if |parts| == 1 then parts[0]
    else parts[0] + separator + Join(parts[1..], separator)
  }

  /** Splitting undoes joining when no part holds the separator's first element. */
  lemma {:induction false} SplitJoin<T>(parts: seq<seq<T>>, separator: seq<T>)
    requires parts != [] && separator != []
    requires forall i :: 0 <= i < |parts| ==> separator[0] !in parts[i]
    ensures Split(Join(parts, separator), separator) == parts
  {
    var s := Join(parts, separator);
    if |parts| == 1 {
      IndexOfAbsent(s, separator);
    } else {
      var rest := Join(parts[1..], separator);
      IndexOfAfter(parts[0], separator, rest);
      assert s[..|parts[0]|] == parts[0];
      assert s[|parts[0]| + |separator|..] == rest;
      SplitJoin(parts[1..], separator);
    }
  }

  /** No part of a split on one character holds that character. */
  lemma {:induction false} SplitPartsLack<T>(s: seq<T>, c: T)
    ensures forall i :: 0 <= i < |Split(s, [c])| ==> c !in Split(s, [c])[i]
    decreases |s|
  {
    IndexOfFirst(s, c);
    var k := IndexOf(s, [c]);
    if k >= 0 { SplitPartsLack(s[k + 1..], c); }
  }

  lemma {:induction false} IndexOfFirst<T>(s: seq<T>, c: T)
    ensures var k := IndexOf(s, [c]); if k < 0 then c !in s else c !in s[..k]
  {
    if s != [] && s[..1] != [c] {
      IndexOfFirst(s[1..], c);
      var k := IndexOf(s[1..], [c]);
      assert s == [s[0]] + s[1..];
      if k >= 0 { assert s[..k + 1] == [s[0]] + s[1..][..k]; }
    }
  }

  /** `startsWith`. */
  predicate StartsWith(s: string, prefix: string)
  {
    |prefix| <= |s| && s[..|prefix|] == prefix
  }

  predicate IsSpace(c: char)
  {
    c in {' ', '\t', '\n', '\r', '\U{0B}', '\U{0C}', '\U{A0}', '\U{1680}', '\U{2028}', '\U{2029}', '\U{202F}',
          '\U{205F}', '\U{3000}', '\U{FEFF}'} || '\U{2000}' <= c <= '\U{200A}'
  }

  function TrimStart(s: string): string
  {
    if s != "" && IsSpace(s[0]) then TrimStart(s[1..]) else s
  }

  function TrimEnd(s: string): string
  {
    if s != "" && IsSpace(s[|s| - 1]) then TrimEnd(s[..|s| - 1]) else s
  }

  function Trim(s: string): string
  {
    TrimEnd(TrimStart(s))
  }

  /** A text in two parts around a separator that the first part lacks has only one such reading. */
  lemma FirstSeparatorUnique(a: string, c: char, b: string, a': string, b': string)
    requires c !in a && c !in a'
    ensures a + [c] + b == a' + [c] + b' <==> a == a' && b == b'
  {
    var s, s' := a + [c] + b, a' + [c] + b';
    if s == s' {
      IndexOfAfter(a, [c], b);
      IndexOfAfter(a', [c], b');
      assert a == s[..|a|] && a' == s'[..|a'|] && b == s[|a| + 1..] && b' == s'[|a'| + 1..];
    }
  }

  /** The same for a separator that the second part lacks. */
  lemma LastSeparatorUnique(a: string, c: char, b: string, a': string, b': string)
    requires c !in b && c !in b'
    ensures a + [c] + b == a' + [c] + b' <==> a == a' && b == b'
  {
    var s, s' := a + [c] + b, a' + [c] + b';
    if s == s' {
      LastOccurrence(a, c, b);
      LastOccurrence(a', c, b');
      OneLastOccurrence(s, c, |a|, |a'|);
      assert a == s[..|a|] && a' == s'[..|a'|] && b == s[|a| + 1..] && b' == s'[|a'| + 1..];
    }
  }

  predicate IsLastOccurrence(s: string, c: char, k: nat)
  {
    k < |s| && s[k] == c && forall i :: k < i < |s| ==> s[i] != c
  }

  lemma LastOccurrence(a: string, c: char, b: string)
    requires c !in b
    ensures IsLastOccurrence(a + [c] + b, c, |a|)
  {
  }

  lemma OneLastOccurrence(s: string, c: char, j: nat, k: nat)
    requires IsLastOccurrence(s, c, j) && IsLastOccurrence(s, c, k)
    ensures j == k
  {
  }
}
