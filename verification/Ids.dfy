/** Time-ordered ids: prefix, milliseconds in base 36 padded to nine digits, and a random part. */
module Ids {
  import opened Wrappers
  import Text
  import Numerals

  /** `padStart(width, "0")`. */
  function PadStart(s: string, width: nat): string
    decreases width - |s|
  {
    if |s| >= width then s else PadStart("0" + s, width)
  }

  function Stamp(timestamp: nat): string
  {
    PadStart(Numerals.Print(timestamp, 36), 9)
  }

  /** `createId`, with the clock and the random part as parameters. */
  function CreateId(prefix: string, timestamp: nat, random: string): string
  {
    prefix + "-" + (Stamp(timestamp) + "-" + random)
  }

  /** `extractTimestampFromId`. */
  function ExtractTimestamp(id: string): Option<int>
  {
    var parts := Text.Split(id, "-");
    if |parts| < 3 then None
    else
      match Numerals.ParseInt(parts[1], 36)
      case None => None
      case Some(t) => if t <= 0 then None else Some(t)
  }

  // ---- reading back ----------------------------------------------------------------------------------------------

  /** Lower-case base-36 digits only. */
  predicate Canonical(s: string)
  {
    forall i :: 0 <= i < |s| ==> Numerals.DigitValue(s[i]) < 36 && Numerals.Digit(Numerals.DigitValue(s[i])) == s[i]
  }

  function Value(s: string): nat
    requires Canonical(s)
  {
    if s == "" then 0 else Value(s[..|s| - 1]) * 36 + Numerals.DigitValue(s[|s| - 1])
  }

  lemma {:induction false} ValueAgrees(s: string)
    requires Canonical(s)
    ensures Numerals.AllDigits(s, 36) && Numerals.Value(s, 36) == Value(s)
  {
    if s == "" {
    } else {
      ValueAgrees(s[..|s| - 1]);
    }
  }

  lemma {:induction false} LeadingZero(s: string)
    requires Canonical(s)
    ensures Canonical("0" + s) && Value("0" + s) == Value(s)
  {
    if s == "" {
      assert Value("") == 0 && "0"[..0] == "";
    } else {
      var t := s[..|s| - 1];
      LeadingZero(t);
      assert ("0" + s)[..|s|] == "0" + t;
    }
  }

  lemma {:induction false} PrintCanonical(t: nat)
    ensures Canonical(Numerals.Print(t, 36)) && Value(Numerals.Print(t, 36)) == t
    decreases t
  {
    if t < 36 {
      DigitCanonical(t);
      assert [Numerals.Digit(t)][..0] == "";
      assert Value("") == 0;
    } else {
      var s := Numerals.Print(t / 36, 36);
      PrintCanonical(t / 36);
      DigitCanonical(t % 36);
      assert Numerals.Print(t, 36) == s + [Numerals.Digit(t % 36)];
      assert Numerals.Print(t, 36)[..|s|] == s;
    }
  }

  lemma DigitCanonical(d: nat)
    requires d < 36
    ensures Numerals.DigitValue(Numerals.Digit(d)) == d
  {
  }

  lemma {:induction false} PadValue(s: string, width: nat)
    requires Canonical(s)
    ensures Canonical(PadStart(s, width)) && Value(PadStart(s, width)) == Value(s)
    ensures |PadStart(s, width)| == if |s| >= width then |s| else width
    decreases width - |s|
  {
    if |s| < width {
      LeadingZero(s);
      PadValue("0" + s, width);
    }
  }

  lemma StampValue(t: nat)
    ensures Canonical(Stamp(t)) && Value(Stamp(t)) == t && Stamp(t) != ""
  {
    PrintCanonical(t);
    PadValue(Numerals.Print(t, 36), 9);
  }

  lemma StampLacksDash(t: nat)
    ensures '-' !in Stamp(t)
  {
    StampValue(t);
    assert Numerals.DigitValue('-') == 36;
  }

  /** The timestamp of a created id is read back, for every timestamp but zero, which reads as invalid. */
  lemma ExtractCreated(prefix: string, timestamp: nat, random: string)
    requires '-' !in prefix
    ensures ExtractTimestamp(CreateId(prefix, timestamp, random)) == if timestamp > 0 then Some(timestamp) else None
  {
    var stamp := Stamp(timestamp);
    var id := CreateId(prefix, timestamp, random);
    StampValue(timestamp);
    StampLacksDash(timestamp);
    SplitThree(prefix, stamp, random);
    ValueAgrees(stamp);
    assert stamp + "" == stamp;
    Numerals.ParseDigits(stamp, "", 36);
  }

  lemma SplitThree(a: string, b: string, c: string)
    requires '-' !in a && '-' !in b
    ensures var parts := Text.Split(a + "-" + (b + "-" + c), "-"); |parts| >= 3 && parts[1] == b
  {
    var rest := b + "-" + c;
    var s := a + "-" + rest;
    Text.IndexOfAfter(a, "-", rest);
    assert s[|a| + 1..] == rest;
    Text.IndexOfAfter(b, "-", c);
    assert rest[..|b|] == b;
  }

  // ---- order -------------------------------------------------------------------------------------------------------

  /** `<` on strings. */
  predicate Before(s: string, t: string)
  {
    t != "" && (s == "" || s[0] < t[0] || (s[0] == t[0] && Before(s[1..], t[1..])))
  }

  lemma {:induction false} BeforeBehindPrefix(p: string, s: string, t: string)
    ensures Before(p + s, p + t) <==> Before(s, t)
  {
    if p == "" {
      assert p + s == s && p + t == t;
    } else {
      assert (p + s)[1..] == p[1..] + s && (p + t)[1..] == p[1..] + t;
      BeforeBehindPrefix(p[1..], s, t);
    }
  }

  lemma {:induction false} BeforeExtends(s: string, t: string, x: string, y: string)
    requires |s| == |t| && Before(s, t)
    ensures Before(s + x, t + y)
  {
    assert (s + x)[1..] == s[1..] + x && (t + y)[1..] == t[1..] + y;
    if s[0] == t[0] { BeforeExtends(s[1..], t[1..], x, y); }
  }

  /** Numerals of one length compare as their values. */
  lemma {:induction false} NumeralOrder(s: string, t: string)
    requires Canonical(s) && Canonical(t) && |s| == |t|
    ensures Value(s) < Value(t) ==> Before(s, t)
    ensures Value(s) == Value(t) ==> s == t
  {
    if s == "" {
    } else {
      var n := |s| - 1;
      var c, d := Numerals.DigitValue(s[n]), Numerals.DigitValue(t[n]);
      NumeralOrder(s[..n], t[..n]);
      assert s == s[..n] + [s[n]] && t == t[..n] + [t[n]];
      if Value(s[..n]) < Value(t[..n]) {
        BeforeExtends(s[..n], t[..n], [s[n]], [t[n]]);
      } else if Value(s[..n]) == Value(t[..n]) {
        DigitOrder(s[n], t[n]);
        BeforeBehindPrefix(s[..n], [s[n]], [t[n]]);
      }
    }
  }

  lemma DigitOrder(c: char, d: char)
    requires Canonical([c]) && Canonical([d])
    ensures Numerals.DigitValue(c) < Numerals.DigitValue(d) ==> Before([c], [d])
    ensures Numerals.DigitValue(c) == Numerals.DigitValue(d) ==> c == d
  {
    assert Numerals.Digit(Numerals.DigitValue([c][0])) == c && Numerals.Digit(Numerals.DigitValue([d][0])) == d;
  }

  function Power(k: nat): nat
  {
    if k == 0 then 1 else 36 * Power(k - 1)
  }

  lemma {:induction false} PrintLength(t: nat, k: nat)
    requires k > 0
    ensures |Numerals.Print(t, 36)| <= k <==> t < Power(k)
    decreases k
  {
    assert Power(1) == 36 * Power(0);
    if t < 36 {
      PowerGrows(k);
    } else if k > 1 {
      PrintLength(t / 36, k - 1);
    }
  }

  lemma {:induction false} PowerGrows(k: nat)
    requires k > 0
    ensures Power(k) >= 36
  {
    assert Power(1) == 36 * Power(0);
    if k > 1 { PowerGrows(k - 1); }
  }

  /** Before the year 5188 or so, ids of one prefix sort as their timestamps do. */
  lemma OrderFollowsTime(prefix: string, t: nat, t': nat, random: string, random': string)
    requires t < t' < Power(9)
    ensures Before(CreateId(prefix, t, random), CreateId(prefix, t', random'))
  {
    PrintLength(t, 9);
    PrintLength(t', 9);
    PrintCanonical(t);
    PrintCanonical(t');
    PadValue(Numerals.Print(t, 36), 9);
    PadValue(Numerals.Print(t', 36), 9);
    NumeralOrder(Stamp(t), Stamp(t'));
    BeforeExtends(Stamp(t), Stamp(t'), "-" + random, "-" + random');
    Regroup(prefix, t, random);
    Regroup(prefix, t', random');
    BeforeBehindPrefix(prefix + "-", Stamp(t) + ("-" + random), Stamp(t') + ("-" + random'));
  }

  lemma Regroup(prefix: string, t: nat, random: string)
    ensures CreateId(prefix, t, random) == (prefix + "-") + (Stamp(t) + ("-" + random))
  {
    assert Stamp(t) + "-" + random == Stamp(t) + ("-" + random);
  }

  /** A longer numeral is at least one that is padded to its length exactly from its own value on. */
  lemma {:induction false} PrefixValue(s: string, k: nat)
    requires Canonical(s) && k <= |s|
    ensures Canonical(s[..k])
    ensures Value(s[..k]) * Power(|s| - k) <= Value(s) < (Value(s[..k]) + 1) * Power(|s| - k)
    decreases |s| - k
  {
    if k == |s| {
      assert s[..k] == s && Power(0) == 1;
    } else {
      PrefixValue(s, k + 1);
      var p, q, m := Value(s[..k]), Power(|s| - k - 1), Numerals.DigitValue(s[k]);
      assert s[..k + 1][..k] == s[..k] && s[..k + 1][k] == s[k];
      assert Value(s[..k + 1]) == p * 36 + m && Power(|s| - k) == 36 * q;
      OneMoreDigit(p, m, q, Value(s));
    }
  }

  lemma OneMoreDigit(p: nat, m: nat, q: nat, v: nat)
    requires m < 36 && (p * 36 + m) * q <= v < (p * 36 + m + 1) * q
    ensures p * (36 * q) <= v < (p + 1) * (36 * q)
  {
    assert (p * 36 + m) * q == p * (36 * q) + m * q;
    assert (p * 36 + m + 1) * q == p * (36 * q) + (m + 1) * q;
    assert (p + 1) * (36 * q) == p * (36 * q) + 36 * q;
    assert (m + 1) * q <= 36 * q by { Scaled(m + 1, 36, q); }
    assert m * q >= 0 by { Scaled(0, m, q); }
  }

  lemma Scaled(a: nat, b: nat, q: nat)
    requires a <= b
    ensures a * q <= b * q
  {
  }

  /** A later stamp is at least as long. */
  lemma StampLengths(t: nat, t': nat)
    requires t < t'
    ensures |Stamp(t)| <= |Stamp(t')|
  {
    PrintCanonical(t);
    PrintCanonical(t');
    PadValue(Numerals.Print(t, 36), 9);
    PadValue(Numerals.Print(t', 36), 9);
    PrintLength(t', |Numerals.Print(t', 36)|);
    PrintLength(t, |Numerals.Print(t', 36)|);
  }

  /** Which of two ids of one prefix sorts first, for all timestamps: the earlier one exactly if its stamp, filled up
      to the length of the later one's, does not exceed it. Stamps of one length always sort as the times do. */
  lemma OrderExactly(prefix: string, t: nat, t': nat, random: string, random': string)
    requires t < t'
    ensures |Stamp(t)| <= |Stamp(t')|
    ensures Before(CreateId(prefix, t, random), CreateId(prefix, t', random')) <==>
      t * Power(|Stamp(t')| - |Stamp(t)|) <= t'
  {
    StampLengths(t, t');
    StampValue(t);
    StampValue(t');
    Regroup(prefix, t, random);
    Regroup(prefix, t', random');
    BeforeBehindPrefix(prefix + "-", Stamp(t) + ("-" + random), Stamp(t') + ("-" + random'));
    StampOrder(Stamp(t), Stamp(t'), random, random');
  }

  /** The same for two numerals, each with a dash behind it. */
  lemma {:induction false} StampOrder(s: string, s': string, random: string, random': string)
    requires Canonical(s) && Canonical(s') && |s| <= |s'| && Value(s) < Value(s')
    ensures Before(s + ("-" + random), s' + ("-" + random')) <==> Value(s) * Power(|s'| - |s|) <= Value(s')
  {
    var k := |s|;
    var head, tail := s'[..k], s'[k..] + ("-" + random');
    PrefixValue(s', k);
    FillUp(Value(s), Value(head), Power(|s'| - k), Value(s'));
    assert s' + ("-" + random') == head + tail;
    StampsCompare(s, "-" + random, head, tail);
    assert k == |s'| ==> head == s';
    if Value(s) == Value(head) { TailAfterDash(s', k, random, random'); }
  }

  lemma FillUp(t: nat, p: nat, q: nat, t': nat)
    requires p * q <= t' < (p + 1) * q
    ensures t * q <= t' <==> t <= p
  {
    if t <= p { Scaled(t, p, q); } else { Scaled(p + 1, t, q); }
  }

  /** Ids whose stamps differ in what they have in common in length sort by that. */
  lemma StampsCompare(s: string, x: string, head: string, y: string)
    requires Canonical(s) && Canonical(head) && |s| == |head|
    ensures Before(s + x, head + y) <==> Value(s) < Value(head) || (Value(s) == Value(head) && Before(x, y))
  {
    NumeralOrder(s, head);
    NumeralOrder(head, s);
    if Value(s) < Value(head) {
      BeforeExtends(s, head, x, y);
    } else if Value(s) == Value(head) {
      BeforeBehindPrefix(s, x, y);
    } else {
      BeforeExtends(head, s, y, x);
      NotBoth(s + x, head + y);
    }
  }

  lemma {:induction false} NotBoth(s: string, t: string)
    ensures !(Before(s, t) && Before(t, s))
  {
    if s != "" && t != "" && s[0] == t[0] { NotBoth(s[1..], t[1..]); }
  }

  /** A dash sorts before every digit. */
  lemma TailAfterDash(s: string, k: nat, random: string, random': string)
    requires Canonical(s) && k < |s|
    ensures Before("-" + random, s[k..] + ("-" + random'))
  {
    assert s[k..][0] == s[k] && '-' < s[k];
  }

  /** The bound is sharp: the first stamp of ten digits sorts before one of nine that is far earlier. */
  lemma OrderEndsAtTenDigits(prefix: string, random: string, random': string)
    ensures Power(8) * 2 < Power(9)
    ensures Before(CreateId(prefix, Power(9), random'), CreateId(prefix, Power(8) * 2, random))
  {
    var late, early := Power(9), Power(8) * 2;
    assert late == 36 * Power(8) && late == 1 * Power(9) && early == 2 * Power(8);
    PowerGrows(8);
    StampScaled(1, 9);
    StampScaled(2, 8);
    Regroup(prefix, late, random');
    Regroup(prefix, early, random);
    BeforeBehindPrefix(prefix + "-", Stamp(late) + ("-" + random'), Stamp(early) + ("-" + random));
  }

  lemma {:induction false} StampScaled(d: nat, k: nat)
    requires 0 < d < 36 && k >= 8
    ensures Stamp(d * Power(k)) != "" && Stamp(d * Power(k))[0] == Numerals.Digit(d)
  {
    PrintScaled(d, k);
  }

  lemma {:induction false} PrintScaled(d: nat, k: nat)
    requires 0 < d < 36
    ensures Numerals.Print(d * Power(k), 36)[0] == Numerals.Digit(d) && |Numerals.Print(d * Power(k), 36)| == k + 1
  {
    if k > 0 {
      PrintScaled(d, k - 1);
      PowerPositive(k - 1);
      ScaledPositive(d, Power(k - 1));
      Commute(d, Power(k - 1));
      PrintShifted(d * Power(k - 1));
    }
  }

  lemma Commute(d: nat, p: nat)
    ensures d * (36 * p) == 36 * (d * p)
  {
  }

  lemma PrintShifted(m: nat)
    requires m > 0
    ensures Numerals.Print(36 * m, 36) == Numerals.Print(m, 36) + [Numerals.Digit(0)]
  {
  }

  lemma {:induction false} PowerPositive(k: nat)
    ensures Power(k) >= 1
  {
    if k > 0 { PowerPositive(k - 1); }
  }

  lemma ScaledPositive(d: nat, p: nat)
    requires d > 0
    ensures p > 0 ==> d * p >= 1
  {
  }
}
