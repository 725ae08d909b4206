/** `Number.prototype.toString(radix)` and `parseInt(text, radix)` on integers, as used for the
    Content-Length header, the hunk header of a diff and the timestamp part of an id. */
module Numerals {
  import opened Wrappers
  import Text

  function Digit(d: nat): char
    requires d < 36
  {
    if d < 10 then '0' + d as char else 'a' + (d - 10) as char
  }

  /** The value of one character as a digit; letters count in either case. */
  function DigitValue(c: char): int
  {
    if '0' <= c <= '9' then c as int - '0' as int
    else if 'a' <= c <= 'z' then c as int - 'a' as int + 10
    else if 'A' <= c <= 'Z' then c as int - 'A' as int + 10
    else 36
  }

  /** `n.toString(radix)`. */
  function Print(n: nat, radix: nat): (s: string)
    requires 2 <= radix <= 36
    ensures s != ""
    decreases n
  {
    if n < radix then [Digit(n)]
    else
      DivSmaller(n, radix);
      Print(n / radix, radix) + [Digit(n % radix)]
  }

  lemma DivSmaller(n: nat, radix: nat)
    requires 2 <= radix <= n
    ensures 0 < n / radix < n
  {
    QuotientBounds(n / radix, n % radix, radix);
  }

  lemma QuotientBounds(q: int, r: int, radix: nat)
    requires 2 <= radix <= q * radix + r && 0 <= r < radix
    ensures 0 < q < q * radix + r
  {
    if 0 < q { assert q * radix >= q * 2; }
  }

  predicate AllDigits(s: string, radix: nat)
  {
    forall i :: 0 <= i < |s| ==> DigitValue(s[i]) < radix
  }

  /** Positional value of a run of digits. */
  function Value(s: string, radix: nat): nat
    requires AllDigits(s, radix)
  {
    if s == "" then 0 else Value(s[..|s| - 1], radix) * radix + DigitValue(s[|s| - 1])
  }

  /** The longest prefix made of digits. */
  function DigitRun(s: string, radix: nat): (run: string)
    ensures AllDigits(run, radix)
  {
    if s != "" && DigitValue(s[0]) < radix then [s[0]] + DigitRun(s[1..], radix) else ""
  }

  /** `parseInt(text, radix)` for a radix other than 16; `None` is NaN. */
  function ParseInt(text: string, radix: nat): Option<int>
  {
    var t := Text.TrimStart(text);
    var negative := t != "" && t[0] == '-';
    var signed := negative || (t != "" && t[0] == '+');
    var run := DigitRun(if signed then t[1..] else t, radix);
    if run == "" then None
    else
      var magnitude: int := Value(run, radix);
      Some(if negative then -magnitude else magnitude)
  }

  lemma {:induction false} PrintValue(n: nat, radix: nat)
    requires 2 <= radix <= 36
    decreases n
    ensures AllDigits(Print(n, radix), radix) && Value(Print(n, radix), radix) == n
  {
    if n < radix {
      assert DigitValue(Digit(n)) == n;
      assert Print(n, radix) == [Digit(n)];
      assert Value([Digit(n)], radix) == Value("", radix) * radix + n;
    } else {
      var q, r := n / radix, n % radix;
      DivSmaller(n, radix);
      PrintValue(q, radix);
      ValueAppend(Print(q, radix), r, radix);
      DivMod(n, radix);
    }
  }

  lemma DivMod(n: nat, radix: nat)
    requires radix > 0
    ensures n / radix * radix + n % radix == n
  {
  }

  lemma ValueAppend(s: string, d: nat, radix: nat)
    requires 2 <= radix <= 36 && d < radix && AllDigits(s, radix)
    ensures AllDigits(s + [Digit(d)], radix)
    ensures Value(s + [Digit(d)], radix) == Value(s, radix) * radix + d
  {
    var t := s + [Digit(d)];
    assert DigitValue(Digit(d)) == d;
    assert t[..|t| - 1] == s;
  }

  lemma {:induction false} DigitRunAll(s: string, rest: string, radix: nat)
    requires AllDigits(s, radix)
    requires rest == "" || DigitValue(rest[0]) >= radix
    ensures DigitRun(s + rest, radix) == s
  {
    if s == "" {
      assert s + rest == rest;
    } else {
      assert (s + rest)[1..] == s[1..] + rest;
      assert AllDigits(s[1..], radix) by {
        forall i | 0 <= i < |s[1..]| ensures DigitValue(s[1..][i]) < radix { assert s[1..][i] == s[i + 1]; }
      }
      DigitRunAll(s[1..], rest, radix);
    }
  }

  /** Any non-empty run of digits, followed by something that is not a digit, parses to its value. */
  lemma ParseDigits(s: string, rest: string, radix: nat)
    requires 2 <= radix <= 36 && s != "" && AllDigits(s, radix)
    requires rest == "" || DigitValue(rest[0]) >= radix
    ensures ParseInt(s + rest, radix) == Some(Value(s, radix))
  {
    assert DigitValue(s[0]) < 36;
    assert Text.TrimStart(s + rest) == s + rest;
    DigitRunAll(s, rest, radix);
  }

  /** Reading back a printed number. */
  lemma ParsePrint(n: nat, radix: nat)
    requires 2 <= radix <= 36
    ensures ParseInt(Print(n, radix), radix) == Some(n)
  {
    PrintValue(n, radix);
    ParseDigits(Print(n, radix), "", radix);
    assert Print(n, radix) + "" == Print(n, radix);
  }
}
