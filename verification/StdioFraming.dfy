/** The byte framing of the stdio MCP client: `Content-Length` headers in front of message bodies, cut
    out of a buffer that grows by arbitrary chunks. */
module StdioFraming {
  import opened Wrappers
  import Text
  import Numerals

  type Byte = b: int | 0 <= b < 256

  const SEPARATOR: seq<Byte> := [13, 10, 13, 10]

  /** `toString("ascii")`, which drops the high bit. */
  function Decode(bytes: seq<Byte>): (s: string)
    ensures |s| == |bytes|
  {
    seq(|bytes|, i requires 0 <= i < |bytes| => (bytes[i] % 128) as char)
  }

  /** `Buffer.from(text, "ascii")`. */
  function Encode(s: string): (bytes: seq<Byte>)
    ensures |bytes| == |s|
  {
    seq(|s|, i requires 0 <= i < |s| => s[i] as int % 256)
  }

  function Lower(s: string): string
  {
    seq(|s|, i requires 0 <= i < |s| => if 'A' <= s[i] <= 'Z' then (s[i] as int + 32) as char else s[i])
  }

  /** A header line that names the length but has no colon makes the parser throw. */
  datatype HeaderLength = Missing | Length(n: int) | Throws

  /** `parseContentLength`. */
  function ParseContentLength(header: string): HeaderLength
  {
    LengthIn(Text.Split(header, "\r\n"))
  }

  function LengthIn(lines: seq<string>): HeaderLength
  {
    if lines == [] then Missing
    else
      var parts := Text.Split(lines[0], ":");
      if Lower(parts[0]) != "content-length" then LengthIn(lines[1..])
      else if |parts| < 2 then Throws
      else
        match Numerals.ParseInt(Text.Trim(parts[1]), 10)
        case None => Missing
        case Some(n) => Length(n)
  }

  // ---- one pass of the parser's loop -----------------------------------------------------------------

  /** What a pass does: nothing, for want of bytes, of a usable header, or because it throws; or it takes a body and
      goes on with the rest. A cut is not `forward` when the declared length is so negative that the place is counted
      from the buffer's end; `Spin` is a cut that leaves the whole buffer, with an empty body, for the next pass. */
  datatype Step =
    | Wait
    | NoLength
    | Throw
    | Take(body: seq<Byte>, rest: seq<Byte>, forward: bool)
    | Spin

  function Next(buffer: seq<Byte>): (step: Step)
    ensures step.Take? ==> |step.rest| < |buffer|
  {
    var k := Text.IndexOf(buffer, SEPARATOR);
    if k < 0 then Wait
    else
      match ParseContentLength(Decode(buffer[..k]))
      case Missing => NoLength
      case Throws => Throw
      case Length(n) => Cut(buffer, k + 4, n)
  }

  /** Cuts off a body of declared length `n` that starts at `bodyStart`. */
  function Cut(buffer: seq<Byte>, bodyStart: nat, n: int): (step: Step)
    requires 0 < bodyStart <= |buffer|
    ensures step.Take? ==> |step.rest| < |buffer|
  {
    var bodyEnd := bodyStart + n;
    if |buffer| < bodyEnd then Wait
    else if bodyEnd > 0 then Take(Between(buffer, bodyStart, bodyEnd), buffer[bodyEnd..], true)
    else if bodyEnd < 0 && -bodyEnd < |buffer| then
      Take(Between(buffer, bodyStart, |buffer| + bodyEnd), buffer[|buffer| + bodyEnd..], false)
    else Spin
  }

  function Between(buffer: seq<Byte>, start: nat, end: nat): seq<Byte>
    requires end <= |buffer|
  {
    if start <= end then buffer[start..end] else []
  }

  /** `subarray(start)`, with its reading of negative positions. */
  function Subarray(buffer: seq<Byte>, start: int): seq<Byte>
  {
    if start >= |buffer| then []
    else if start >= 0 then buffer[start..]
    else if -start >= |buffer| then buffer
    else buffer[|buffer| + start..]
  }

  /** Where the body ends that the first header of a buffer declares. */
  function BodyEnd(buffer: seq<Byte>): Option<int>
  {
    var k := Text.IndexOf(buffer, SEPARATOR);
    if k < 0 then None
    else
      match ParseContentLength(Decode(buffer[..k]))
      case Length(n) => Some(k + 4 + n)
      case _ => None
  }

  /** When the loop makes progress: a pass that finds its body goes on with the bytes behind it, which are fewer
      exactly unless the body ends on the buffer's start, or at least a whole buffer before it. */
  lemma ProgressExactly(buffer: seq<Byte>)
    ensures var step := Next(buffer); var end := BodyEnd(buffer);
      && (step.Take? || step.Spin? <==> end.Some? && end.value <= |buffer|)
      && (step.Take? ==> step.rest == Subarray(buffer, end.value) && |step.rest| < |buffer|)
      && (step.Take? ==> (step.forward <==> end.value > 0))
      && (step.Spin? ==> Subarray(buffer, end.value) == buffer)
      && (step.Spin? <==> end.Some? && (end.value == 0 || -end.value >= |buffer|))
  {
  }

  /** `t` is the decision `s` once `c` has arrived as well. */
  predicate Extends(s: Step, t: Step, c: seq<Byte>)
  {
    match s
    case Wait => true
    case Take(body, rest, forward) => t == Take(body, rest + c, forward)
    case _ => t == s
  }

  /** Bytes that arrive later do not change a decision that has been made, exactly unless it is to cut at a place
      that is counted from the buffer's end. */
  lemma {:induction false} NextExtends(b: seq<Byte>, c: seq<Byte>)
    ensures BodyEnd(b).Some? ==> BodyEnd(b + c) == BodyEnd(b)
    ensures Extends(Next(b), Next(b + c), c) <==>
      c == [] || BodyEnd(b).None? || BodyEnd(b).value >= 0 || -BodyEnd(b).value >= |b| + |c|
  {
    var k := Text.IndexOf(b, SEPARATOR);
    if k >= 0 {
      HeaderStays(b, c);
      var length := ParseContentLength(Decode(b[..k]));
      if length.Length? { CutExtends(b, c, k + 4, length.n); }
    }
  }

  lemma {:induction false} HeaderStays(b: seq<Byte>, c: seq<Byte>)
    requires Text.IndexOf(b, SEPARATOR) >= 0
    ensures var k := Text.IndexOf(b, SEPARATOR);
      Text.IndexOf(b + c, SEPARATOR) == k && (b + c)[..k] == b[..k]
  {
    Text.IndexOfExtends(b, c, SEPARATOR);
  }

  lemma CutExtends(b: seq<Byte>, c: seq<Byte>, bodyStart: nat, n: int)
    requires 0 < bodyStart <= |b|
    ensures Extends(Cut(b, bodyStart, n), Cut(b + c, bodyStart, n), c) <==>
      c == [] || bodyStart + n >= 0 || -(bodyStart + n) >= |b| + |c|
  {
    var bodyEnd := bodyStart + n;
    if c == [] {
      assert b + c == b;
      assert forall rest: seq<Byte> :: rest + c == rest;
    } else if 0 < bodyEnd <= |b| {
      assert (b + c)[bodyEnd..] == b[bodyEnd..] + c;
      if bodyStart <= bodyEnd { assert (b + c)[bodyStart..bodyEnd] == b[bodyStart..bodyEnd]; }
    } else if bodyEnd < 0 && -bodyEnd < |b| {
      assert |Cut(b + c, bodyStart, n).rest| == -bodyEnd < |Cut(b, bodyStart, n).rest + c|;
    }
  }

  // ---- the loop ----------------------------------------------------------------------------------------

  datatype Status = Waiting | Stuck | Thrown | Spinning

  /** The bodies taken from a buffer, what is left, why no more are taken, and whether all cuts were counted from
      the front. */
  datatype Drained = Drained(bodies: seq<seq<Byte>>, rest: seq<Byte>, status: Status, forward: bool)

  function Drain(buffer: seq<Byte>): Drained
    decreases |buffer|
  {
    match Next(buffer)
    case Wait => Drained([], buffer, Waiting, true)
    case NoLength => Drained([], buffer, Stuck, true)
    case Throw => Drained([], buffer, Thrown, true)
    case Spin => Drained([], buffer, Spinning, false)
    case Take(body, rest, forward) =>
      var d := Drain(rest);
      d.(bodies := [body] + d.bodies, forward := forward && d.forward)
  }

  /** One drain after another. */
  function Then(d: Drained, e: Drained): Drained
  {
    Drained(d.bodies + e.bodies, e.rest, e.status, d.forward && e.forward)
  }

  lemma ForwardFirst(b: seq<Byte>, c: seq<Byte>)
    requires Drain(b + c).forward
    ensures !Next(b).Spin? && (Next(b).Take? ==> Next(b).forward)
    ensures Extends(Next(b), Next(b + c), c)
  {
    NextExtends(b, c);
    ProgressExactly(b);
    ProgressExactly(b + c);
  }

  /** Draining a buffer and then the rest with more bytes is draining it all at once. */
  lemma {:induction false} DrainExtends(b: seq<Byte>, c: seq<Byte>)
    requires Drain(b + c).forward
    ensures Drain(b + c) == Then(Drain(b), Drain(Drain(b).rest + c))
    decreases |b|
  {
    ForwardFirst(b, c);
    var step := Next(b);
    if step.Take? {
      DrainExtends(step.rest, c);
      var d := Drain(step.rest);
      ThenCons(step.body, d, Drain(d.rest + c));
    } else {
      assert Drain(b).rest == b && Drain(b).bodies == [];
      assert [] + Drain(b + c).bodies == Drain(b + c).bodies;
    }
  }

  lemma ThenCons(body: seq<Byte>, d: Drained, e: Drained)
    ensures Then(d.(bodies := [body] + d.bodies), e) == Then(d, e).(bodies := [body] + Then(d, e).bodies)
  {
    assert [body] + d.bodies + e.bodies == [body] + (d.bodies + e.bodies);
  }

  function Flatten(chunks: seq<seq<Byte>>): seq<Byte>
  {
    if chunks == [] then [] else Flatten(chunks[..|chunks| - 1]) + chunks[|chunks| - 1]
  }

  /** Feeding chunks one at a time to an empty buffer, draining after each. */
  function Feed(chunks: seq<seq<Byte>>): Drained
  {
    if chunks == [] then Drained([], [], Waiting, true)
    else
      var d := Feed(chunks[..|chunks| - 1]);
      Then(d, Drain(d.rest + chunks[|chunks| - 1]))
  }

  /** Any partition of a stream delivers the same bodies in the same order and leaves the same buffer, as long as
      no cut is counted from the buffer's end. */
  lemma {:induction false} ChunkingIrrelevant(chunks: seq<seq<Byte>>)
    requires Drain(Flatten(chunks)).forward
    ensures Feed(chunks) == Drain(Flatten(chunks))
  {
    if chunks == [] {
    } else {
      DrainExtends(Flatten(chunks[..|chunks| - 1]), chunks[|chunks| - 1]);
      ChunkingIrrelevant(chunks[..|chunks| - 1]);
    }
  }

  /** No part of a stream that the parser could take for a header declares a negative length. */
  predicate NoNegativeLength(s: seq<Byte>)
  {
    forall i, j :: 0 <= i <= j <= |s| ==> NotNegative(ParseContentLength(Decode(s[i..j])))
  }

  predicate NotNegative(length: HeaderLength)
  {
    length.Length? ==> length.n >= 0
  }

  lemma {:induction false} PartNotNegative(s: seq<Byte>, from: nat)
    requires NoNegativeLength(s) && from <= |s|
    ensures NoNegativeLength(s[from..])
  {
    var t := s[from..];
    forall i, j | 0 <= i <= j <= |t| ensures NotNegative(ParseContentLength(Decode(t[i..j]))) {
      assert t[i..j] == s[from + i..from + j];
    }
  }

  /** Without negative lengths, all cuts are counted from the front. */
  lemma {:induction false} NonNegativeForward(s: seq<Byte>)
    requires NoNegativeLength(s)
    ensures Drain(s).forward
    decreases |s|
  {
    var step := Next(s);
    FirstNotNegative(s);
    ProgressExactly(s);
    if step.Take? {
      PartNotNegative(s, BodyEnd(s).value);
      NonNegativeForward(step.rest);
    }
  }

  lemma FirstNotNegative(s: seq<Byte>)
    requires NoNegativeLength(s)
    ensures BodyEnd(s).Some? ==> BodyEnd(s).value > 0
  {
    var k := Text.IndexOf(s, SEPARATOR);
    if k >= 0 {
      assert s[0..k] == s[..k];
      assert NotNegative(ParseContentLength(Decode(s[0..k])));
    }
  }

  /** So a stream that declares no negative length delivers the same bodies, and leaves the same buffer, for every
      partition. */
  lemma NonNegativeChunking(chunks: seq<seq<Byte>>)
    requires NoNegativeLength(Flatten(chunks))
    ensures Feed(chunks) == Drain(Flatten(chunks))
  {
    NonNegativeForward(Flatten(chunks));
    ChunkingIrrelevant(chunks);
  }

  // ---- writing -----------------------------------------------------------------------------------------

  /** `writeMessage`. */
  function Frame(body: seq<Byte>): seq<Byte>
  {
    Encode(Header(|body|) + "\r\n\r\n") + body
  }

  function Frames(bodies: seq<seq<Byte>>): seq<Byte>
  {
    if bodies == [] then [] else Frame(bodies[0]) + Frames(bodies[1..])
  }

  function Header(n: nat): string
  {
    "Content-Length: " + Numerals.Print(n, 10)
  }

  lemma HeaderCharacters(n: nat)
    ensures '\r' !in Header(n) && forall i :: 0 <= i < |Header(n)| ==> Header(n)[i] as int < 128
  {
    Numerals.PrintValue(n, 10);
    assert forall i :: 0 <= i < |Numerals.Print(n, 10)| ==> Numerals.DigitValue(Numerals.Print(n, 10)[i]) < 10;
  }

  lemma LowerKey()
    ensures Lower("Content-Length") == "content-length"
  {
  }

  /** A single header line that names the length. */
  lemma ParseSingleLine(value: string)
    requires '\r' !in value && ':' !in value
    ensures ParseContentLength("Content-Length: " + value) ==
      match Numerals.ParseInt(Text.Trim(" " + value), 10) case None => Missing case Some(n) => Length(n)
  {
    var header := "Content-Length: " + value;
    Text.IndexOfAbsent(header, "\r\n");
    assert Text.Split(header, "\r\n") == [header];
    SplitAtColon(value);
    LowerKey();
  }

  const LENGTH_KEY := "content-length"

  /** The line's key is that of the length, in whatever case. */
  predicate NamesLength(line: string)
  {
    |line| >= |LENGTH_KEY| && Lower(line[..|LENGTH_KEY|]) == LENGTH_KEY &&
    (|line| == |LENGTH_KEY| || line[|LENGTH_KEY|] == ':')
  }

  lemma {:induction false} KeyOfLine(line: string)
    ensures var parts := Text.Split(line, ":");
      && (Lower(parts[0]) == LENGTH_KEY <==> NamesLength(line))
      && (NamesLength(line) && |line| == |LENGTH_KEY| ==> |parts| == 1)
      && (NamesLength(line) && |line| > |LENGTH_KEY| ==>
            |parts| >= 2 && parts[1] == Text.Split(line[|LENGTH_KEY| + 1..], ":")[0])
  {
    var parts, n := Text.Split(line, ":"), |LENGTH_KEY|;
    Text.IndexOfFirst(line, ':');
    if NamesLength(line) {
      LacksColon(line[..n]);
      if |line| == n {
        assert line[..n] == line;
        Text.IndexOfAbsent(line, ":");
      } else {
        assert line == line[..n] + ":" + line[n + 1..];
        Text.IndexOfAfter(line[..n], ":", line[n + 1..]);
      }
    }
  }

  lemma LacksColon(key: string)
    requires Lower(key) == LENGTH_KEY
    ensures ':' !in key
  {
    assert Lower(":") == ":" && ':' !in LENGTH_KEY;
    forall i | 0 <= i < |key| ensures key[i] != ':' {
      assert Lower(key)[i] in LENGTH_KEY;
    }
  }

  /** The first line with the key of the length decides, wherever it stands; other lines are passed over. */
  lemma {:induction false} FirstLengthLine(lines: seq<string>, k: nat)
    requires k < |lines| && NamesLength(lines[k]) && forall i :: 0 <= i < k ==> !NamesLength(lines[i])
    ensures LengthIn(lines) ==
      if |lines[k]| == |LENGTH_KEY| then Throws
      else
        match Numerals.ParseInt(Text.Trim(Text.Split(lines[k][|LENGTH_KEY| + 1..], ":")[0]), 10)
        case None => Missing
        case Some(n) => Length(n)
  {
    KeyOfLine(lines[0]);
    if k > 0 {
      assert forall i :: 0 <= i < k - 1 ==> lines[1..][i] == lines[i + 1];
      FirstLengthLine(lines[1..], k - 1);
    }
  }

  lemma {:induction false} NoLengthLine(lines: seq<string>)
    requires forall i :: 0 <= i < |lines| ==> !NamesLength(lines[i])
    ensures LengthIn(lines) == Missing
  {
    if lines == [] {
    } else {
      KeyOfLine(lines[0]);
      assert forall i :: 0 <= i < |lines| - 1 ==> lines[1..][i] == lines[i + 1];
      NoLengthLine(lines[1..]);
    }
  }

  /** A printed length is read in a header of several lines, whatever the case of its key, as long as no line before it
      names the length. */
  lemma {:induction false} LengthAmongLines(before: seq<string>, key: string, n: nat, after: seq<string>)
    requires Lower(key) == LENGTH_KEY && forall i :: 0 <= i < |before| ==> !NamesLength(before[i])
    requires forall i :: 0 <= i < |before| ==> '\r' !in before[i]
    requires forall i :: 0 <= i < |after| ==> '\r' !in after[i]
    ensures ParseContentLength(Text.Join(before + [key + (": " + Numerals.Print(n, 10))] + after, "\r\n")) == Length(n)
  {
    var digits := Numerals.Print(n, 10);
    var line, lines := key + (": " + digits), before + [key + (": " + digits)] + after;
    Numerals.PrintValue(n, 10);
    PlainKey(key);
    assert '\r' !in digits && ':' !in digits;
    assert line[..|LENGTH_KEY|] == key && line[|LENGTH_KEY| + 1..] == " " + digits;
    assert lines[|before|] == line && forall i :: 0 <= i < |before| ==> lines[i] == before[i];
    Text.SplitJoin(lines, "\r\n");
    FirstLengthLine(lines, |before|);
    Text.IndexOfAbsent(" " + digits, ":");
    TrimDigits(digits);
    Numerals.ParsePrint(n, 10);
  }

  lemma PlainKey(key: string)
    requires Lower(key) == LENGTH_KEY
    ensures |key| == |LENGTH_KEY| && '\r' !in key
  {
    assert |Lower(key)| == |key| && '\r' !in LENGTH_KEY;
    forall i | 0 <= i < |key| ensures key[i] != '\r' {
      assert Lower(key)[i] in LENGTH_KEY;
    }
  }

  /** A printed header is read back. */
  lemma ParsePrintedLength(n: nat)
    ensures ParseContentLength(Header(n)) == Length(n)
  {
    var digits := Numerals.Print(n, 10);
    Numerals.PrintValue(n, 10);
    assert '\r' !in digits && ':' !in digits;
    ParseSingleLine(digits);
    TrimDigits(digits);
    Numerals.ParsePrint(n, 10);
  }

  lemma SplitAtColon(digits: string)
    requires ':' !in digits
    ensures Text.Split("Content-Length: " + digits, ":") == ["Content-Length", " " + digits]
  {
    var parts := ["Content-Length", " " + digits];
    assert parts[1..] == [" " + digits];
    assert Text.Join(parts[1..], ":") == " " + digits;
    assert Text.Join(parts, ":") == "Content-Length: " + digits;
    Text.SplitJoin(parts, ":");
  }

  lemma TrimDigits(digits: string)
    requires digits != "" && Numerals.AllDigits(digits, 10)
    ensures Text.Trim(" " + digits) == digits
  {
    assert (" " + digits)[1..] == digits;
    assert Numerals.DigitValue(digits[0]) < 10 && Numerals.DigitValue(digits[|digits| - 1]) < 10;
    assert Text.TrimStart(digits) == digits;
    assert Text.TrimStart(" " + digits) == digits;
  }

  lemma DecodeEncode(s: string)
    requires forall i :: 0 <= i < |s| ==> s[i] as int < 128
    ensures Decode(Encode(s)) == s
  {
    forall i | 0 <= i < |s| ensures Decode(Encode(s))[i] == s[i] {
      assert s[i] as int % 256 % 128 == s[i] as int;
    }
  }

  /** The first header of a buffer, when it is plain ASCII without CR, is what the parser sees. */
  lemma NextAfterHeader(header: string, rest: seq<Byte>)
    requires '\r' !in header && forall i :: 0 <= i < |header| ==> header[i] as int < 128
    ensures var buffer := Encode(header) + SEPARATOR + rest;
      Text.IndexOf(buffer, SEPARATOR) == |header| && Decode(buffer[..|header|]) == header
  {
    var h := Encode(header);
    assert 13 !in h by {
      forall i | 0 <= i < |h| ensures h[i] != 13 { assert header[i] in header && h[i] == header[i] as int; }
    }
    Text.IndexOfAfter(h, SEPARATOR, rest);
    assert (h + SEPARATOR + rest)[..|h|] == h;
    DecodeEncode(header);
  }

  lemma FrameShape(body: seq<Byte>, rest: seq<Byte>)
    ensures Frame(body) + rest == Encode(Header(|body|)) + SEPARATOR + (body + rest)
  {
    EncodeConcat(Header(|body|), "\r\n\r\n");
    assert Encode("\r\n\r\n") == SEPARATOR;
  }

  lemma EncodeConcat(s: string, t: string)
    ensures Encode(s + t) == Encode(s) + Encode(t)
  {
  }

  lemma NextFrame(body: seq<Byte>, rest: seq<Byte>)
    ensures Next(Frame(body) + rest) == Take(body, rest, true)
  {
    var header := Header(|body|);
    HeaderCharacters(|body|);
    ParsePrintedLength(|body|);
    FrameShape(body, rest);
    NextCuts(header, |body|, body + rest);
    CutFrame(Encode(header) + SEPARATOR, body, rest);
  }

  /** With a header that declares a length in front, a pass cuts there. */
  lemma {:induction false} NextCuts(header: string, n: int, rest: seq<Byte>)
    requires '\r' !in header && forall i :: 0 <= i < |header| ==> header[i] as int < 128
    requires ParseContentLength(header) == Length(n)
    ensures var head := Encode(header) + SEPARATOR; Next(head + rest) == Cut(head + rest, |head|, n)
  {
    NextAfterHeader(header, rest);
  }

  lemma CutFrame(head: seq<Byte>, body: seq<Byte>, rest: seq<Byte>)
    requires head != []
    ensures Cut(head + (body + rest), |head|, |body|) == Take(body, rest, true)
  {
    var buffer := head + (body + rest);
    assert buffer[|head|..|head| + |body|] == body && buffer[|head| + |body|..] == rest;
  }

  /** What `writeMessage` puts on the wire is read back as exactly its bodies, with nothing left over,
      however the stream is cut into chunks. */
  lemma {:induction false} FramesRoundTrip(bodies: seq<seq<Byte>>)
    ensures Drain(Frames(bodies)) == Drained(bodies, [], Waiting, true)
  {
    if bodies == [] {
      Text.IndexOfAbsent<Byte>([], SEPARATOR);
    } else {
      FramesRoundTrip(bodies[1..]);
      NextFrame(bodies[0], Frames(bodies[1..]));
      DrainTakes(Frames(bodies), bodies[0], Frames(bodies[1..]));
      assert bodies == [bodies[0]] + bodies[1..];
    }
  }

  lemma {:induction false} DrainTakes(b: seq<Byte>, body: seq<Byte>, rest: seq<Byte>)
    requires Next(b) == Take(body, rest, true)
    ensures Drain(b) == Drain(rest).(bodies := [body] + Drain(rest).bodies)
  {
  }

  lemma {:induction false} WriteThenRead(bodies: seq<seq<Byte>>, chunks: seq<seq<Byte>>)
    requires Flatten(chunks) == Frames(bodies)
    ensures Feed(chunks) == Drained(bodies, [], Waiting, true)
  {
    FramesRoundTrip(bodies);
    ChunkingIrrelevant(chunks);
  }

  // ---- negative lengths --------------------------------------------------------------------------------

  function NegativeHeader(n: nat): string
  {
    "Content-Length: -" + Numerals.Print(n, 10)
  }

  lemma NegativeCharacters(n: nat)
    ensures '\r' !in NegativeHeader(n) && forall i :: 0 <= i < |NegativeHeader(n)| ==> NegativeHeader(n)[i] as int < 128
  {
    Numerals.PrintValue(n, 10);
    assert forall i :: 0 <= i < |Numerals.Print(n, 10)| ==> Numerals.DigitValue(Numerals.Print(n, 10)[i]) < 10;
  }

  lemma ParseNegative(n: int)
    requires n >= 0
    ensures ParseContentLength(NegativeHeader(n)) == Length(-n)
  {
    var digits := Numerals.Print(n, 10);
    NegativeCharacters(n);
    Numerals.PrintValue(n, 10);
    assert ':' !in digits;
    assert NegativeHeader(n) == "Content-Length: " + ("-" + digits);
    ParseSingleLine("-" + digits);
    TrimMinus(digits);
    ParseMinus(n);
  }

  lemma ParseMinus(n: int)
    requires n >= 0
    ensures Numerals.ParseInt("-" + Numerals.Print(n, 10), 10) == Some(-n)
  {
    Numerals.PrintValue(n, 10);
    ParseMinusDigits(Numerals.Print(n, 10));
  }

  lemma {:induction false} ParseMinusDigits(digits: string)
    requires digits != "" && Numerals.AllDigits(digits, 10)
    ensures var n: int := Numerals.Value(digits, 10); Numerals.ParseInt("-" + digits, 10) == Some(-n)
  {
    TrimMinus(digits);
    assert ("-" + digits)[1..] == digits && digits + "" == digits;
    Numerals.DigitRunAll(digits, "", 10);
  }

  lemma TrimMinus(digits: string)
    requires digits != "" && Numerals.AllDigits(digits, 10)
    ensures Text.Trim(" " + ("-" + digits)) == "-" + digits && Text.TrimStart("-" + digits) == "-" + digits
  {
    var t := "-" + digits;
    assert (" " + t)[1..] == t;
    assert t[|t| - 1] == digits[|digits| - 1] && Numerals.DigitValue(digits[|digits| - 1]) < 10;
    assert Text.TrimStart(" " + t) == Text.TrimStart(t) == t;
  }

  /** What a pass does on a negative length, for every length and whatever follows the header. */
  lemma {:induction false} NegativeLength(n: int, rest: seq<Byte>)
    requires n >= 0
    ensures var head := Encode(NegativeHeader(n)) + SEPARATOR;
      && Next(head + rest) == Cut(head + rest, |head|, -n)
      && (Next(head + rest).Spin? <==> n == |head| || n >= |head| + |head + rest|)
      && (Next(head + rest).Take? && !Next(head + rest).forward <==> |head| < n < |head| + |head + rest|)
  {
    var header := NegativeHeader(n);
    NegativeCharacters(n);
    ParseNegative(n);
    NextCuts(header, -n, rest);
    CutNegative(Encode(header) + SEPARATOR, rest, n);
  }

  lemma CutNegative(head: seq<Byte>, rest: seq<Byte>, n: int)
    requires n >= 0 && head != []
    ensures var step := Cut(head + rest, |head|, -n);
      && (step.Spin? <==> n == |head| || n >= |head| + |head + rest|)
      && (step.Take? && !step.forward <==> |head| < n < |head| + |head + rest|)
  {
  }

  lemma PrintTwoDigits(n: nat)
    requires 10 <= n < 100
    ensures Numerals.Print(n, 10) == [Numerals.Digit(n / 10), Numerals.Digit(n % 10)]
  {
    assert Numerals.Print(n / 10, 10) == [Numerals.Digit(n / 10)];
  }

  /** On a body that ends where the buffer starts, a pass changes nothing, whatever else arrives. */
  lemma NegativeLengthSpins(rest: seq<Byte>)
    ensures var buffer := Encode(NegativeHeader(23)) + SEPARATOR + rest;
      Next(buffer) == Spin && Subarray(buffer, BodyEnd(buffer).value) == buffer
  {
    PrintTwoDigits(23);
    NegativeLength(23, rest);
    ProgressExactly(Encode(NegativeHeader(23)) + SEPARATOR + rest);
  }

  /** With a cut counted from the buffer's end, what is left depends on the partition. */
  lemma PartitionMatters(x: Byte)
    ensures var head := Encode(NegativeHeader(24)) + SEPARATOR;
      && !Drain(head + [x]).forward
      && Feed([head, [x]]).rest == [10, x]
      && Feed([head + [x]]).rest == [x]
  {
    var head := Encode(NegativeHeader(24)) + SEPARATOR;
    PrintTwoDigits(24);
    LeavesTail(head, [], [10]);
    LeavesTail(head, [x], [x]);
    FeedTwo(head, [x]);
    TooShort([10] + [x]);
    FeedOne(head + [x]);
  }

  lemma {:induction false} LeavesTail(head: seq<Byte>, rest: seq<Byte>, tail: seq<Byte>)
    requires head == Encode(NegativeHeader(24)) + SEPARATOR && |head| == 23
    requires (rest == [] && tail == [10]) || (|rest| == 1 && tail == rest)
    ensures Drain(head + rest).rest == tail && !Drain(head + rest).forward
  {
    DrainsToTail(head, rest);
    var all := head + rest;
    assert head[22] == SEPARATOR[3] && all[|all| - 1] == tail[0];
    assert all[|all| - 1..] == tail;
  }

  lemma {:induction false} FeedTwo(a: seq<Byte>, b: seq<Byte>)
    ensures Feed([a, b]) == Then(Drain(a + []), Drain(Drain(a + []).rest + b))
  {
    FeedOne(a);
    var chunks := [a, b];
    assert chunks[..1] == [a] && a + [] == a;
    assert Feed(chunks) == Then(Feed(chunks[..1]), Drain(Feed(chunks[..1]).rest + chunks[1]));
  }

  /** A header whose rest is the last byte of the buffer. */
  lemma DrainsToTail(head: seq<Byte>, rest: seq<Byte>)
    requires head == Encode(NegativeHeader(24)) + SEPARATOR && |head| == 23
    ensures Drain(head + rest).rest == (head + rest)[|head + rest| - 1..] && !Drain(head + rest).forward
  {
    NegativeLength(24, rest);
    TooShort((head + rest)[|head + rest| - 1..]);
  }

  lemma TooShort(b: seq<Byte>)
    requires |b| < 4
    ensures Drain(b) == Drained([], b, Waiting, true)
  {
  }

  lemma FeedOne(chunk: seq<Byte>)
    ensures Feed([chunk]) == Drain(chunk)
  {
    assert [chunk][..0] == [] && [] + chunk == chunk;
    assert [] + Drain(chunk).bodies == Drain(chunk).bodies;
  }
}
