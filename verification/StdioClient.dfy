/** The request side of the stdio MCP client: ids, pending requests with their timers, and what settles
    them. Every settlement is kept in a log, so that nothing can be settled unseen. */
module StdioClient {
  import opened Wrappers
  import opened StdioFraming

  /** A body after `JSON.parse`: not JSON, the value `null` (on which reading `id` throws), or a message
      whose id is a number or not. */
  datatype Reply = NotJson | JsonNull | Message(id: Option<int>, isError: bool)

  datatype How = Resolved | Rejected | TimedOut | WriteFailed | Failed
  datatype Settlement = Settlement(id: int, how: How)

  /** `timers` are the timeouts that have neither fired nor been cleared. */
  datatype Table = Table(nextId: int, pending: map<int, string>, timers: set<int>, settled: seq<Settlement>)
  {
    /** A pending request leaves the table, its timer is cleared, and its promise settles. */
    function Settle(id: int, how: How): Table
    {
      Table(nextId, pending - {id}, timers - {id}, settled + [Settlement(id, how)])
    }
  }

  function SendRequest(t: Table, method_: string, writeOk: bool): Table
  {
    var id := t.nextId;
    var sent := Table(id + 1, t.pending[id := method_], t.timers + {id}, t.settled);
    if writeOk then sent else sent.Settle(id, WriteFailed)
  }

  /** A timer that fires; one that was cleared cannot. */
  function FireTimer(t: Table, id: int): Table
  {
    if id in t.timers then t.Settle(id, TimedOut) else t
  }

  /** `failAll`: every pending request, in the order of the table, which is that of the ids. */
  function FailFrom(t: Table, id: int): Table
    decreases t.nextId - id
  {
    if id >= t.nextId then t
    else FailFrom(if id in t.pending then t.Settle(id, Failed) else t, id + 1)
  }

  function FailEvery(t: Table): Table
  {
    FailFrom(t, 1)
  }

  /** `handleMessage`; the flag says that it threw. */
  function OnMessage(t: Table, reply: Reply): (Table, bool)
  {
    match reply
    case NotJson => (FailEvery(t), false)
    case JsonNull => (t, true)
    case Message(None, _) => (t, false)
    case Message(Some(id), isError) =>
      (if id in t.pending then t.Settle(id, if isError then Rejected else Resolved) else t, false)
  }

  /** How a call of `handleStdout` ends: it returns, it throws, or it does not. */
  datatype Ending = Returned | Threw | Spins
  datatype Received = Received(table: Table, rest: seq<Byte>, ending: Ending)

  /** The loop of `handleStdout` on the whole buffer. A pass that spins has an empty body, which is not JSON and
      fails every request; so do all passes after it, for ever. */
  function Receive(t: Table, buffer: seq<Byte>, decode: seq<Byte> -> Reply): Received
    decreases |buffer|
  {
    match Next(buffer)
    case Wait => Received(t, buffer, Returned)
    case NoLength => Received(FailEvery(t), buffer, Returned)
    case Throw => Received(t, buffer, Threw)
    case Spin => Received(FailEvery(t), buffer, Spins)
    case Take(body, rest, _) =>
      var (t', threw) := OnMessage(t, decode(body));
      if threw then Received(t', rest, Threw) else Receive(t', rest, decode)
  }

  // ---- the invariant -------------------------------------------------------------------------------------

  function Ids(settled: seq<Settlement>): set<int>
  {
    set i | 0 <= i < |settled| :: settled[i].id
  }

  /** Every id issued is pending with a running timer, or settled, never both, and settled once. */
  ghost predicate Inv(t: Table)
  {
    && t.nextId >= 1
    && t.timers == t.pending.Keys
    && t.pending.Keys !! Ids(t.settled)
    && (forall id :: 1 <= id < t.nextId <==> id in t.pending || id in Ids(t.settled))
    && (forall i, j :: 0 <= i < j < |t.settled| ==> t.settled[i].id != t.settled[j].id)
  }

  lemma IdsAppend(settled: seq<Settlement>, s: Settlement)
    ensures Ids(settled + [s]) == Ids(settled) + {s.id}
  {
    forall id | id in Ids(settled) ensures id in Ids(settled + [s]) {
      var i :| 0 <= i < |settled| && settled[i].id == id;
      assert (settled + [s])[i].id == id;
    }
    assert (settled + [s])[|settled|].id == s.id;
  }

  lemma SettleInv(t: Table, id: int, how: How)
    requires Inv(t) && id in t.pending
    ensures Inv(t.Settle(id, how))
  {
    IdsAppend(t.settled, Settlement(id, how));
    forall i | 0 <= i < |t.settled| ensures t.settled[i].id != id { assert t.settled[i].id in Ids(t.settled); }
  }

  lemma SendInv(t: Table, method_: string, writeOk: bool)
    requires Inv(t)
    ensures Inv(SendRequest(t, method_, writeOk))
  {
    var id := t.nextId;
    var sent := Table(id + 1, t.pending[id := method_], t.timers + {id}, t.settled);
    assert id !in t.pending && id !in Ids(t.settled);
    assert Inv(sent);
    if !writeOk { SettleInv(sent, id, WriteFailed); }
  }

  lemma {:induction false} FailFromInv(t: Table, id: int) returns (t': Table)
    requires Inv(t) && forall i :: i in t.pending ==> i >= id
    ensures t' == FailFrom(t, id) && Inv(t') && t'.pending == map[] && t'.nextId == t.nextId
    ensures t.settled <= t'.settled
    decreases t.nextId - id
  {
    t' := t;
    if id < t.nextId {
      if id in t.pending {
        SettleInv(t, id, Failed);
        t' := t.Settle(id, Failed);
      }
      t' := FailFromInv(t', id + 1);
    } else {
      assert forall i :: i !in t.pending;
    }
  }

  /** After `failAll` nothing is pending any more. */
  lemma FailAllInv(t: Table)
    requires Inv(t)
    ensures Inv(FailEvery(t)) && FailEvery(t).pending == map[] && t.settled <= FailEvery(t).settled
  {
    var t' := FailFromInv(t, 1);
  }

  lemma HandleMessageInv(t: Table, reply: Reply)
    requires Inv(t)
    ensures Inv(OnMessage(t, reply).0) && t.settled <= OnMessage(t, reply).0.settled
  {
    match reply
    case NotJson => FailAllInv(t);
    case Message(Some(id), isError) =>
      if id in t.pending { SettleInv(t, id, if isError then Rejected else Resolved); }
    case _ =>
  }

  lemma {:induction false} ReceiveInv(t: Table, buffer: seq<Byte>, decode: seq<Byte> -> Reply) returns (r: Received)
    requires Inv(t)
    ensures r == Receive(t, buffer, decode) && Inv(r.table) && t.settled <= r.table.settled
    decreases |buffer|
  {
    r := Receive(t, buffer, decode);
    match Next(buffer)
    case NoLength => FailAllInv(t);
    case Spin => FailAllInv(t);
    case Take(body, rest, _) =>
      var (t', threw) := OnMessage(t, decode(body));
      HandleMessageInv(t, decode(body));
      if !threw { r := ReceiveInv(t', rest, decode); }
    case _ =>
  }

  // ---- every interleaving ----------------------------------------------------------------------------------

  /** `Request` carries whether the write succeeds if there is a child, `ChildError` and `ChildExit` are what the
      child process reports, early or late. */
  datatype Event =
    | Connect
    | Request(method_: string, writeOk: bool)
    | Timer(id: int)
    | Data(chunk: seq<Byte>)
    | ChildError
    | ChildExit
    | Disconnect

  /** `spinning` says that a call of `handleStdout` never ended, after which nothing happens any more. */
  datatype Client = Client(table: Table, buffer: seq<Byte>, connected: bool, closing: bool, spinning: bool)

  const FRESH := Client(Table(1, map[], {}, []), [], false, false, false)

  function React(c: Client, event: Event, decode: seq<Byte> -> Reply): Client
  {
    if c.spinning then c
    else
      match event
      case Connect => if c.connected then c else c.(connected := true, closing := false)
      case Request(method_, writeOk) => c.(table := SendRequest(c.table, method_, c.connected && writeOk))
      case Timer(id) => c.(table := FireTimer(c.table, id))
      case Data(chunk) =>
        var r := Receive(c.table, c.buffer + chunk, decode);
        c.(table := r.table, buffer := r.rest, spinning := r.ending.Spins?)
      case ChildError => c.(table := FailEvery(c.table))
      case ChildExit => c.(table := if c.closing then c.table else FailEvery(c.table), connected := false)
      case Disconnect => if c.connected then Client(FailEvery(c.table), [], false, true, false) else c
  }

  function Session(events: seq<Event>, decode: seq<Byte> -> Reply): Client
  {
    if events == [] then FRESH
    else React(Session(events[..|events| - 1], decode), events[|events| - 1], decode)
  }

  lemma ReactInv(c: Client, event: Event, decode: seq<Byte> -> Reply)
    requires Inv(c.table)
    ensures Inv(React(c, event, decode).table) && c.table.settled <= React(c, event, decode).table.settled
  {
    match event
    case Request(method_, writeOk) => SendInv(c.table, method_, c.connected && writeOk);
    case Timer(id) => if id in c.table.timers { SettleInv(c.table, id, TimedOut); }
    case Data(chunk) => var r := ReceiveInv(c.table, c.buffer + chunk, decode);
    case ChildError => FailAllInv(c.table);
    case ChildExit => FailAllInv(c.table);
    case Disconnect => FailAllInv(c.table);
    case Connect =>
  }

  /** In every interleaving of connects, requests, failing writes, data, timeouts, child failures and disconnects:
      the ids issued are the pending ones and the settled ones, and no request settles twice. */
  lemma {:induction false} SessionInv(events: seq<Event>, decode: seq<Byte> -> Reply)
    ensures Inv(Session(events, decode).table)
  {
    if events == [] {
    } else {
      SessionInv(events[..|events| - 1], decode);
      ReactInv(Session(events[..|events| - 1], decode), events[|events| - 1], decode);
    }
  }

  /** What has been settled stays settled as it was, whatever happens next. */
  lemma {:induction false} SettledForGood(events: seq<Event>, k: nat, decode: seq<Byte> -> Reply)
    requires k <= |events|
    ensures Session(events[..k], decode).table.settled <= Session(events, decode).table.settled
    decreases |events| - k
  {
    if k < |events| {
      SettledForGood(events, k + 1, decode);
      SessionInv(events[..k], decode);
      assert events[..k + 1][..k] == events[..k] && events[..k + 1][k] == events[k];
      ReactInv(Session(events[..k], decode), events[k], decode);
    } else {
      assert events[..k] == events;
    }
  }

  /** A session starts with an empty buffer after a disconnect of a running child. After the child has exited
      by itself, `disconnect` does nothing, and the next session starts with what the last one left behind. */
  lemma {:induction false} BufferAtConnect(c: Client, decode: seq<Byte> -> Reply)
    requires c.connected && !c.spinning
    ensures Run(c, [Disconnect, Connect], decode).buffer == []
    ensures Run(c, [ChildExit, Disconnect, Connect], decode).buffer == c.buffer
  {
    RunTwo(c, Disconnect, Connect, decode);
    RunThree(c, ChildExit, Disconnect, Connect, decode);
    ExitThenDisconnect(c, decode);
  }

  lemma ExitThenDisconnect(c: Client, decode: seq<Byte> -> Reply)
    requires !c.spinning
    ensures var exited := React(c, ChildExit, decode);
      exited.buffer == c.buffer && React(exited, Disconnect, decode) == exited
  {
  }

  lemma {:induction false} RunTwo(c: Client, e: Event, f: Event, decode: seq<Byte> -> Reply)
    ensures Run(c, [e, f], decode) == React(React(c, e, decode), f, decode)
  {
    assert [e, f][..1] == [e] && [e][..0] == [];
    assert Run(c, [e], decode) == React(Run(c, [], decode), e, decode);
  }

  lemma {:induction false} RunThree(c: Client, e: Event, f: Event, g: Event, decode: seq<Byte> -> Reply)
    ensures Run(c, [e, f, g], decode) == React(React(React(c, e, decode), f, decode), g, decode)
  {
    assert [e, f, g][..2] == [e, f];
    RunTwo(c, e, f, decode);
  }

  // ---- who settles what --------------------------------------------------------------------------------------

  /** `body` is cut out of the client's buffer when the event's data arrives. */
  predicate CutOut(body: seq<Byte>, c: Client, event: Event)
  {
    event.Data? && body in Drain(c.buffer + event.chunk).bodies
  }

  /** `body` was cut out of what had arrived by a data event of the session. */
  ghost predicate CameIn(body: seq<Byte>, events: seq<Event>, decode: seq<Byte> -> Reply)
  {
    exists k :: 0 <= k < |events| && CutOut(body, Session(events[..k], decode), events[k])
  }

  /** One of the bodies is a message with the settlement's id, and with an error exactly if it was rejected. */
  ghost predicate Replied(s: Settlement, bodies: seq<seq<Byte>>, decode: seq<Byte> -> Reply)
  {
    s.how == Resolved || s.how == Rejected ==>
      exists body :: body in bodies && decode(body) == Message(Some(s.id), s.how == Rejected)
  }

  /** All settlements from number `from` on are replied to by these bodies. */
  ghost predicate AllReplied(settled: seq<Settlement>, from: nat, bodies: seq<seq<Byte>>, decode: seq<Byte> -> Reply)
  {
    forall i :: from <= i < |settled| ==> Replied(settled[i], bodies, decode)
  }

  lemma {:induction false} FailFromReplied(t: Table, id: int, from: nat, decode: seq<Byte> -> Reply)
    requires AllReplied(t.settled, from, [], decode)
    ensures AllReplied(FailFrom(t, id).settled, from, [], decode)
    decreases t.nextId - id
  {
    if id < t.nextId {
      FailFromReplied(if id in t.pending then t.Settle(id, Failed) else t, id + 1, from, decode);
    }
  }

  lemma MoreBodies(settled: seq<Settlement>, from: nat, bodies: seq<seq<Byte>>, more: seq<seq<Byte>>,
      decode: seq<Byte> -> Reply)
    requires AllReplied(settled, from, bodies, decode) && forall body :: body in bodies ==> body in more
    ensures AllReplied(settled, from, more, decode)
  {
  }

  lemma MessageReplied(t: Table, body: seq<Byte>, decode: seq<Byte> -> Reply)
    ensures AllReplied(OnMessage(t, decode(body)).0.settled, |t.settled|, [body], decode)
  {
    match decode(body)
    case NotJson =>
      FailFromReplied(t, 1, |t.settled|, decode);
      MoreBodies(FailEvery(t).settled, |t.settled|, [], [body], decode);
    case _ => assert body in [body];
  }

  /** A receive settles by reply only what one of the bodies it cuts out is the reply to. */
  lemma {:induction false} ReceiveReplied(t: Table, buffer: seq<Byte>, decode: seq<Byte> -> Reply)
    requires Inv(t)
    ensures AllReplied(Receive(t, buffer, decode).table.settled, |t.settled|, Drain(buffer).bodies, decode)
    decreases |buffer|
  {
    FailFromReplied(t, 1, |t.settled|, decode);
    var step := Next(buffer);
    if step.Take? {
      var (t', threw) := OnMessage(t, decode(step.body));
      var settled := Receive(t, buffer, decode).table.settled;
      HandleMessageInv(t, decode(step.body));
      MessageReplied(t, step.body, decode);
      if !threw {
        var r := ReceiveInv(t', step.rest, decode);
        ReceiveReplied(t', step.rest, decode);
      }
      RepliedInTurn(t'.settled, settled, |t.settled|, step.body, Drain(step.rest).bodies, decode);
    }
  }

  lemma RepliedInTurn(before: seq<Settlement>, after: seq<Settlement>, from: nat, body: seq<Byte>,
      bodies: seq<seq<Byte>>,
      decode: seq<Byte> -> Reply)
    requires before <= after && AllReplied(before, from, [body], decode) && AllReplied(after, |before|, bodies, decode)
    ensures AllReplied(after, from, [body] + bodies, decode)
  {
    MoreBodies(before, from, [body], [body] + bodies, decode);
    MoreBodies(after, |before|, bodies, [body] + bodies, decode);
    assert forall i :: 0 <= i < |before| ==> after[i] == before[i];
  }

  lemma {:induction false} ReactReplied(c: Client, event: Event, decode: seq<Byte> -> Reply)
    requires Inv(c.table)
    ensures AllReplied(React(c, event, decode).table.settled, |c.table.settled|,
      if event.Data? then Drain(c.buffer + event.chunk).bodies else [], decode)
  {
    FailFromReplied(c.table, 1, |c.table.settled|, decode);
    if event.Data? { ReceiveReplied(c.table, c.buffer + event.chunk, decode); }
  }

  /** In every session, a request is resolved or rejected only by a reply of its own: by a body that was framed in
      the data received, decodes to a message with the request's id, and carries an error exactly if it rejects. */
  lemma {:induction false} SettledByOwnReply(events: seq<Event>, i: nat, decode: seq<Byte> -> Reply)
    requires i < |Session(events, decode).table.settled|
    ensures var s := Session(events, decode).table.settled[i];
      s.how == Resolved || s.how == Rejected ==>
        exists body :: CameIn(body, events, decode) && decode(body) == Message(Some(s.id), s.how == Rejected)
  {
    if events == [] {
    } else {
      var n := |events| - 1;
      var c := Session(events[..n], decode);
      SessionInv(events[..n], decode);
      ReactInv(c, events[n], decode);
      ReactReplied(c, events[n], decode);
      var s := Session(events, decode).table.settled[i];
      if s.how == Resolved || s.how == Rejected {
        if i < |c.table.settled| {
          SettledByOwnReply(events[..n], i, decode);
          var body :| CameIn(body, events[..n], decode) && decode(body) == Message(Some(s.id), s.how == Rejected);
          CameInEarlier(body, events, n, decode);
        } else {
          assert Replied(s, if events[n].Data? then Drain(c.buffer + events[n].chunk).bodies else [], decode);
          var body :| CutOut(body, c, events[n]) && decode(body) == Message(Some(s.id), s.how == Rejected);
          assert CameIn(body, events, decode);
        }
      }
    }
  }

  lemma {:induction false} CameInEarlier(body: seq<Byte>, events: seq<Event>, n: nat, decode: seq<Byte> -> Reply)
    requires n <= |events| && CameIn(body, events[..n], decode)
    ensures CameIn(body, events, decode)
  {
    var before := events[..n];
    var k :| 0 <= k < |before| && CutOut(body, Session(before[..k], decode), before[k]);
    assert before[..k] == events[..k] && before[k] == events[k];
    assert CutOut(body, Session(events[..k], decode), events[k]);
  }

  // ---- receiving and framing ---------------------------------------------------------------------------------

  function HandleAll(t: Table, bodies: seq<seq<Byte>>, decode: seq<Byte> -> Reply): Table
    decreases |bodies|
  {
    if bodies == [] then t else HandleAll(OnMessage(t, decode(bodies[0])).0, bodies[1..], decode)
  }

  /** What is left to do when a drain stops: a header without a length fails everything, and so does a pass that
      spins. */
  function AfterDrain(t: Table, status: Status): Table
  {
    if status == Stuck || status == Spinning then FailEvery(t) else t
  }

  function EndingOf(status: Status): Ending
  {
    match status
    case Waiting => Returned
    case Stuck => Returned
    case Thrown => Threw
    case Spinning => Spins
  }

  lemma {:induction false} ReceiveStops(t: Table, buffer: seq<Byte>, decode: seq<Byte> -> Reply)
    requires !Next(buffer).Take?
    ensures var d := Drain(buffer);
      d.bodies == [] && Receive(t, buffer, decode) == Received(AfterDrain(t, d.status), d.rest, EndingOf(d.status))
  {
  }

  lemma {:induction false} ReceiveGoesOn(t: Table, buffer: seq<Byte>, decode: seq<Byte> -> Reply)
    requires Next(buffer).Take? && decode(Next(buffer).body) != JsonNull
    ensures var step := Next(buffer);
      Receive(t, buffer, decode) == Receive(OnMessage(t, decode(step.body)).0, step.rest, decode)
  {
  }

  lemma HandleAllCons(t: Table, body: seq<Byte>, bodies: seq<seq<Byte>>, decode: seq<Byte> -> Reply)
    ensures HandleAll(t, [body] + bodies, decode) == HandleAll(OnMessage(t, decode(body)).0, bodies, decode)
  {
    assert ([body] + bodies)[1..] == bodies;
  }

  /** As long as no body is `null`, a receive handles exactly the framed bodies, in order, keeps the rest of
      the buffer, and ends as the drain says. */
  lemma {:induction false} ReceiveHandlesFrames(t: Table, buffer: seq<Byte>, decode: seq<Byte> -> Reply)
    requires NoNull(Drain(buffer).bodies, decode)
    ensures var d := Drain(buffer);
      Receive(t, buffer, decode) ==
        Received(AfterDrain(HandleAll(t, d.bodies, decode), d.status), d.rest, EndingOf(d.status))
    decreases |buffer|
  {
    var step := Next(buffer);
    if step.Take? {
      var d := Drain(step.rest);
      assert Drain(buffer).bodies == [step.body] + d.bodies && Drain(buffer).bodies[0] == step.body;
      NullFreeParts([step.body], d.bodies, decode);
      ReceiveGoesOn(t, buffer, decode);
      HandleAllCons(t, step.body, d.bodies, decode);
      ReceiveHandlesFrames(OnMessage(t, decode(step.body)).0, step.rest, decode);
    } else {
      ReceiveStops(t, buffer, decode);
    }
  }

  lemma {:induction false} HandleAllConcat(t: Table, a: seq<seq<Byte>>, b: seq<seq<Byte>>, decode: seq<Byte> -> Reply)
    ensures HandleAll(t, a + b, decode) == HandleAll(HandleAll(t, a, decode), b, decode)
    decreases |a|
  {
    if a == [] {
      assert a + b == b;
    } else {
      assert (a + b)[1..] == a[1..] + b;
      HandleAllConcat(OnMessage(t, decode(a[0])).0, a[1..], b, decode);
    }
  }

  function DataEvents(chunks: seq<seq<Byte>>): seq<Event>
  {
    if chunks == [] then [] else DataEvents(chunks[..|chunks| - 1]) + [Data(chunks[|chunks| - 1])]
  }

  function Run(c: Client, events: seq<Event>, decode: seq<Byte> -> Reply): Client
  {
    if events == [] then c else React(Run(c, events[..|events| - 1], decode), events[|events| - 1], decode)
  }

  lemma {:induction false} NothingToFail(t: Table, id: int)
    requires t.pending == map[]
    ensures FailFrom(t, id) == t
    decreases t.nextId - id
  {
    if id < t.nextId { NothingToFail(t, id + 1); }
  }

  /** Failing everything twice is failing it once. */
  lemma FailTwice(t: Table, status: Status)
    requires Inv(t)
    ensures AfterDrain(AfterDrain(t, status), status) == AfterDrain(t, status)
  {
    FailAllInv(t);
    NothingToFail(FailEvery(t), 1);
  }

  /** A stream without cuts counted from the buffer's end settles the same requests in the same way however it is cut
      up, provided no body is `null`: also when it comes to a header that has no length, or that throws. */
  lemma {:induction false} ChunkingSettlesTheSame(c: Client, chunks: seq<seq<Byte>>, decode: seq<Byte> -> Reply)
    requires c.buffer == [] && !c.spinning && Inv(c.table)
    requires Drain(Flatten(chunks)).forward
    requires NoNull(Drain(Flatten(chunks)).bodies, decode)
    ensures var d := Drain(Flatten(chunks));
      Run(c, DataEvents(chunks), decode) ==
        c.(table := AfterDrain(HandleAll(c.table, d.bodies, decode), d.status), buffer := d.rest)
  {
    if chunks == [] {
      assert Drain([]) == Drained([], [], Waiting, true);
    } else {
      var n := |chunks| - 1;
      var before, last := Flatten(chunks[..n]), chunks[n];
      DrainExtends(before, last);
      var d := Drain(before);
      var e := Drain(d.rest + last);
      assert Drain(Flatten(chunks)) == Then(d, e);
      NullFreeParts(d.bodies, e.bodies, decode);
      ChunkingSettlesTheSame(c, chunks[..n], decode);
      var events := DataEvents(chunks);
      assert events[..|events| - 1] == DataEvents(chunks[..n]) && events[|events| - 1] == Data(last);
      DataHandlesFrames(Run(c, DataEvents(chunks[..n]), decode), last, decode);
      TwoDrains(c.table, before, last, decode);
    }
  }

  /** In particular if the stream declares no negative length. */
  lemma NonNegativeSettlesTheSame(c: Client, chunks: seq<seq<Byte>>, decode: seq<Byte> -> Reply)
    requires c.buffer == [] && !c.spinning && Inv(c.table) && NoNegativeLength(Flatten(chunks))
    requires NoNull(Drain(Flatten(chunks)).bodies, decode)
    ensures var d := Drain(Flatten(chunks));
      Run(c, DataEvents(chunks), decode) ==
        c.(table := AfterDrain(HandleAll(c.table, d.bodies, decode), d.status), buffer := d.rest)
  {
    NonNegativeForward(Flatten(chunks));
    ChunkingSettlesTheSame(c, chunks, decode);
  }

  predicate NoNull(bodies: seq<seq<Byte>>, decode: seq<Byte> -> Reply)
  {
    forall i :: 0 <= i < |bodies| ==> decode(bodies[i]) != JsonNull
  }

  lemma NullFreeParts(a: seq<seq<Byte>>, b: seq<seq<Byte>>, decode: seq<Byte> -> Reply)
    requires NoNull(a + b, decode)
    ensures NoNull(a, decode) && NoNull(b, decode)
  {
    assert forall i :: 0 <= i < |a| ==> a[i] == (a + b)[i];
    assert forall i :: 0 <= i < |b| ==> b[i] == (a + b)[|a| + i];
  }

  /** Handling what one drain and then the next cut out is handling what both did. */
  lemma {:induction false} TwoDrains(t: Table, before: seq<Byte>, last: seq<Byte>, decode: seq<Byte> -> Reply)
    requires Inv(t) && Drain(before + last).forward
    ensures var d := Drain(before); var e := Drain(d.rest + last);
      AfterDrain(HandleAll(AfterDrain(HandleAll(t, d.bodies, decode), d.status), e.bodies, decode), e.status) ==
      AfterDrain(HandleAll(t, d.bodies + e.bodies, decode), e.status)
  {
    DrainExtends(before, last);
    DrainAgain(before);
    var d := Drain(before);
    var e := Drain(d.rest + last);
    HandleAllConcat(t, d.bodies, e.bodies, decode);
    StopStays(d.rest, last);
    if d.status != Waiting {
      HandleAllGrows(t, d.bodies, decode);
      FailTwice(HandleAll(t, d.bodies, decode), d.status);
      assert d.bodies + e.bodies == d.bodies;
    }
  }

  lemma {:induction false} StopStays(b: seq<Byte>, c: seq<Byte>)
    requires !Next(b).Take? && Drain(b + c).forward
    ensures Drain(b).status != Waiting ==> Drain(b + c).status == Drain(b).status && Drain(b + c).bodies == []
  {
    ForwardFirst(b, c);
  }

  lemma {:induction false} DataHandlesFrames(c: Client, chunk: seq<Byte>, decode: seq<Byte> -> Reply)
    requires Drain(c.buffer + chunk).forward && !c.spinning && NoNull(Drain(c.buffer + chunk).bodies, decode)
    ensures var d := Drain(c.buffer + chunk);
      React(c, Data(chunk), decode) ==
        c.(table := AfterDrain(HandleAll(c.table, d.bodies, decode), d.status), buffer := d.rest)
  {
    ForwardEnds(c.buffer + chunk);
    ReceiveHandlesFrames(c.table, c.buffer + chunk, decode);
  }

  lemma {:induction false} ForwardEnds(b: seq<Byte>)
    requires Drain(b).forward
    ensures Drain(b).status != Spinning
    decreases |b|
  {
    var step := Next(b);
    if step.Take? { ForwardEnds(step.rest); }
  }

  /** What a drain leaves is a buffer it can do nothing more with. */
  lemma {:induction false} DrainAgain(b: seq<Byte>)
    ensures var d := Drain(b);
      Drain(d.rest) == Drained([], d.rest, d.status, d.status != Spinning) && !Next(d.rest).Take?
    decreases |b|
  {
    var step := Next(b);
    if step.Take? { DrainAgain(step.rest); }
  }

  // ---- every reply counts --------------------------------------------------------------------------------------

  predicate AllMessages(bodies: seq<seq<Byte>>, decode: seq<Byte> -> Reply)
  {
    forall i :: 0 <= i < |bodies| ==> decode(bodies[i]).Message?
  }

  predicate RepliesTo(body: seq<Byte>, id: int, decode: seq<Byte> -> Reply)
  {
    decode(body).Message? && decode(body).id == Some(id)
  }

  predicate NoReply(bodies: seq<seq<Byte>>, id: int, decode: seq<Byte> -> Reply)
  {
    forall i :: 0 <= i < |bodies| ==> !RepliesTo(bodies[i], id, decode)
  }

  /** Body `k` is the first reply to the request. */
  predicate FirstReply(bodies: seq<seq<Byte>>, k: nat, id: int, decode: seq<Byte> -> Reply)
  {
    k < |bodies| && RepliesTo(bodies[k], id, decode) && NoReply(bodies[..k], id, decode)
  }

  /** The request is not pending any more, and settled in this way and no other. */
  predicate SettledAs(t: Table, id: int, how: How)
  {
    id !in t.pending && Settlement(id, how) in t.settled &&
    forall i :: 0 <= i < |t.settled| && t.settled[i].id == id ==> t.settled[i].how == how
  }

  lemma SettledOnce(t: Table, id: int, how: How)
    requires Inv(t) && Settlement(id, how) in t.settled
    ensures SettledAs(t, id, how)
  {
    var k :| 0 <= k < |t.settled| && t.settled[k] == Settlement(id, how);
    assert t.settled[k].id in Ids(t.settled);
  }

  /** A settlement stays among the settlements. */
  lemma StaysSettled(t: Table, t': Table, s: Settlement)
    requires s in t.settled && t.settled <= t'.settled
    ensures s in t'.settled
  {
    var k :| 0 <= k < |t.settled| && t.settled[k] == s;
    assert t'.settled[k] == s;
  }

  /** Messages that do not reply to a request leave it as it is. */
  lemma {:induction false} HandleAllKeeps(t: Table, bodies: seq<seq<Byte>>, id: int, decode: seq<Byte> -> Reply)
    requires AllMessages(bodies, decode) && NoReply(bodies, id, decode)
    ensures id in HandleAll(t, bodies, decode).pending <==> id in t.pending
    decreases |bodies|
  {
    if bodies == [] {
    } else {
      assert !RepliesTo(bodies[0], id, decode);
      assert forall i :: 0 <= i < |bodies| - 1 ==> bodies[1..][i] == bodies[i + 1];
      HandleAllKeeps(OnMessage(t, decode(bodies[0])).0, bodies[1..], id, decode);
    }
  }

  lemma {:induction false} HandleAllGrows(t: Table, bodies: seq<seq<Byte>>, decode: seq<Byte> -> Reply)
    requires Inv(t)
    ensures Inv(HandleAll(t, bodies, decode)) && t.settled <= HandleAll(t, bodies, decode).settled
    decreases |bodies|
  {
    if bodies == [] {
    } else {
      HandleMessageInv(t, decode(bodies[0]));
      HandleAllGrows(OnMessage(t, decode(bodies[0])).0, bodies[1..], decode);
    }
  }

  /** A receive begins by handling the messages that come first. */
  lemma {:induction false} ReceivePrefix(t: Table, buffer: seq<Byte>, k: nat, decode: seq<Byte> -> Reply)
      returns (rest: seq<Byte>)
    requires k <= |Drain(buffer).bodies| && AllMessages(Drain(buffer).bodies[..k], decode)
    ensures Receive(t, buffer, decode) ==
      Receive(HandleAll(t, Drain(buffer).bodies[..k], decode), rest, decode)
    ensures Drain(rest).bodies == Drain(buffer).bodies[k..]
    decreases k
  {
    rest := buffer;
    if k > 0 {
      var step := Next(buffer);
      var behind := Drain(step.rest).bodies;
      DrainFirst(buffer);
      FirstMessages(step.body, behind, k, decode);
      ReceiveGoesOn(t, buffer, decode);
      HandleAllCons(t, step.body, behind[..k - 1], decode);
      rest := ReceivePrefix(OnMessage(t, decode(step.body)).0, step.rest, k - 1, decode);
    }
  }

  lemma {:induction false} DrainFirst(buffer: seq<Byte>)
    requires Drain(buffer).bodies != []
    ensures Next(buffer).Take? && Drain(buffer).bodies == [Next(buffer).body] + Drain(Next(buffer).rest).bodies
  {
  }

  lemma {:induction false} FirstMessages(body: seq<Byte>, behind: seq<seq<Byte>>, k: nat, decode: seq<Byte> -> Reply)
    requires var bodies := [body] + behind; 0 < k <= |bodies| && AllMessages(bodies[..k], decode)
    ensures var bodies := [body] + behind;
      bodies[..k] == [body] + behind[..k - 1] && bodies[k..] == behind[k - 1..]
    ensures decode(body).Message? && AllMessages(behind[..k - 1], decode)
  {
    var bodies := [body] + behind;
    var first, others := bodies[..k], behind[..k - 1];
    assert first[0] == body;
    assert forall i :: 0 <= i < k - 1 ==> others[i] == first[i + 1];
  }

  /** Body `k` is the first that decides a request, by replying to it or by not being JSON, and only messages come
      before it. */
  predicate Decides(bodies: seq<seq<Byte>>, k: nat, id: int, decode: seq<Byte> -> Reply)
  {
    && k < |bodies| && AllMessages(bodies[..k], decode) && NoReply(bodies[..k], id, decode)
    && (RepliesTo(bodies[k], id, decode) || decode(bodies[k]).NotJson?)
  }

  function HowOf(reply: Reply): How
    requires !reply.JsonNull?
  {
    if reply.NotJson? then Failed else if reply.isError then Rejected else Resolved
  }

  lemma {:induction false} MessageSettles(t: Table, body: seq<Byte>, id: int, decode: seq<Byte> -> Reply)
    requires Inv(t) && id in t.pending && (RepliesTo(body, id, decode) || decode(body).NotJson?)
    ensures var t' := OnMessage(t, decode(body)).0; Inv(t') && SettledAs(t', id, HowOf(decode(body)))
  {
    HandleMessageInv(t, decode(body));
    var t' := OnMessage(t, decode(body)).0;
    if decode(body).NotJson? {
      FailFromSettles(t, 1, id);
    } else {
      assert t'.settled[|t.settled|] == Settlement(id, HowOf(decode(body)));
    }
    SettledOnce(t', id, HowOf(decode(body)));
  }

  lemma StaysSettledAs(t: Table, t': Table, id: int, how: How)
    requires SettledAs(t, id, how) && t.settled <= t'.settled && Inv(t')
    ensures SettledAs(t', id, how)
  {
    StaysSettled(t, t', Settlement(id, how));
    SettledOnce(t', id, how);
  }

  /** The other half, for a single receive. */
  lemma {:induction false} ReceiveSettles(t: Table, buffer: seq<Byte>, k: nat, id: int, decode: seq<Byte> -> Reply)
    requires Inv(t) && id in t.pending && Decides(Drain(buffer).bodies, k, id, decode)
    ensures SettledAs(Receive(t, buffer, decode).table, id, HowOf(decode(Drain(buffer).bodies[k])))
  {
    var bodies := Drain(buffer).bodies;
    var rest := ReceivePrefix(t, buffer, k, decode);
    var t1 := HandleAll(t, bodies[..k], decode);
    HandleAllKeeps(t, bodies[..k], id, decode);
    HandleAllGrows(t, bodies[..k], decode);
    assert Drain(rest).bodies[0] == bodies[k];
    ReceiveSettlesFirst(t1, rest, id, decode);
  }

  lemma {:induction false} ReceiveSettlesFirst(t: Table, buffer: seq<Byte>, id: int, decode: seq<Byte> -> Reply)
    requires Inv(t) && id in t.pending && Drain(buffer).bodies != []
    requires var body := Drain(buffer).bodies[0]; RepliesTo(body, id, decode) || decode(body).NotJson?
    ensures SettledAs(Receive(t, buffer, decode).table, id, HowOf(decode(Drain(buffer).bodies[0])))
  {
    var step, body := Next(buffer), Drain(buffer).bodies[0];
    assert step.Take? && step.body == body;
    var t' := OnMessage(t, decode(body)).0;
    MessageSettles(t, body, id, decode);
    ReceiveGoesOn(t, buffer, decode);
    var r := ReceiveInv(t', step.rest, decode);
    StaysSettledAs(t', r.table, id, HowOf(decode(body)));
  }

  /** A body `null` behind messages only makes the receive throw: the messages before it have been handled, and the
      bodies behind it stay in the buffer for the next one. */
  lemma {:induction false} NullThrows(t: Table, buffer: seq<Byte>, k: nat, decode: seq<Byte> -> Reply)
    requires k < |Drain(buffer).bodies| && AllMessages(Drain(buffer).bodies[..k], decode)
    requires decode(Drain(buffer).bodies[k]).JsonNull?
    ensures var r, bodies := Receive(t, buffer, decode), Drain(buffer).bodies;
      r.ending == Threw && r.table == HandleAll(t, bodies[..k], decode) && Drain(r.rest).bodies == bodies[k + 1..]
  {
    var rest := ReceivePrefix(t, buffer, k, decode);
    assert Drain(rest).bodies[0] == Drain(buffer).bodies[k];
    DrainFirst(rest);
    assert Drain(rest).bodies[1..] == Drain(buffer).bodies[k + 1..];
  }

  /** `failAll` settles every pending request as failed. */
  lemma {:induction false} FailFromSettles(t: Table, from: int, id: int)
    requires Inv(t) && id in t.pending && forall i :: i in t.pending ==> i >= from
    ensures Settlement(id, Failed) in FailFrom(t, from).settled
    decreases t.nextId - from
  {
    if from < t.nextId {
      if from in t.pending {
        SettleInv(t, from, Failed);
        var t1 := t.Settle(from, Failed);
        if from == id {
          assert t1.settled[|t.settled|] == Settlement(id, Failed);
          var t' := FailFromInv(t1, from + 1);
          StaysSettled(t1, t', Settlement(id, Failed));
        } else {
          FailFromSettles(t1, from + 1, id);
        }
      } else {
        FailFromSettles(t, from + 1, id);
      }
    }
  }

  /** The other half, over sessions: when data arrives in which the first reply to a pending request is framed, and
      every body before it is a message, that reply settles the request; and when a body that is not JSON comes before
      any reply, that fails it. */
  lemma {:induction false} ReplySettles(events: seq<Event>, chunk: seq<Byte>, k: nat, id: int,
      decode: seq<Byte> -> Reply)
    requires var c := Session(events, decode);
      !c.spinning && id in c.table.pending && Decides(Drain(c.buffer + chunk).bodies, k, id, decode)
    ensures SettledAs(Session(events + [Data(chunk)], decode).table, id,
      HowOf(decode(Drain(Session(events, decode).buffer + chunk).bodies[k])))
  {
    var c := Session(events, decode);
    assert (events + [Data(chunk)])[..|events|] == events;
    SessionInv(events, decode);
    ReceiveSettles(c.table, c.buffer + chunk, k, id, decode);
  }

  /** Handling messages settles each pending request by the first reply to it, and no others. */
  lemma {:induction false} HandleAllSettles(t: Table, bodies: seq<seq<Byte>>, k: nat, id: int,
      decode: seq<Byte> -> Reply)
    requires Inv(t) && id in t.pending && AllMessages(bodies, decode) && FirstReply(bodies, k, id, decode)
    ensures SettledAs(HandleAll(t, bodies, decode), id, HowOf(decode(bodies[k])))
  {
    var t1 := HandleAll(t, bodies[..k], decode);
    assert bodies == bodies[..k] + ([bodies[k]] + bodies[k + 1..]);
    HandleAllConcat(t, bodies[..k], [bodies[k]] + bodies[k + 1..], decode);
    HandleAllKeeps(t, bodies[..k], id, decode);
    HandleAllGrows(t, bodies[..k], decode);
    HandleAllCons(t1, bodies[k], bodies[k + 1..], decode);
    var t2 := OnMessage(t1, decode(bodies[k])).0;
    MessageSettles(t1, bodies[k], id, decode);
    HandleAllGrows(t2, bodies[k + 1..], decode);
    StaysSettledAs(t2, HandleAll(t, bodies, decode), id, HowOf(decode(bodies[k])));
  }

  /** What handling messages makes of the pending requests: each is settled by the first reply to it, a request without
      one stays pending, and nothing is pending if there is one for each. */
  ghost predicate EachByItsReply(t: Table, t': Table, bodies: seq<seq<Byte>>, decode: seq<Byte> -> Reply)
    requires AllMessages(bodies, decode)
  {
    && (forall id, k: nat :: id in t.pending && FirstReply(bodies, k, id, decode) ==>
          SettledAs(t', id, HowOf(decode(bodies[k]))))
    && (forall id :: id in t'.pending <==> id in t.pending && NoReply(bodies, id, decode))
    && ((forall id :: id in t.pending ==> !NoReply(bodies, id, decode)) ==> t'.pending == map[])
  }

  lemma {:induction false} RepliesSettle(t: Table, bodies: seq<seq<Byte>>, decode: seq<Byte> -> Reply)
    requires Inv(t) && AllMessages(bodies, decode)
    ensures EachByItsReply(t, HandleAll(t, bodies, decode), bodies, decode)
  {
    var t' := HandleAll(t, bodies, decode);
    forall id, k: nat | id in t.pending && FirstReply(bodies, k, id, decode)
      ensures SettledAs(t', id, HowOf(decode(bodies[k])))
    {
      HandleAllSettles(t, bodies, k, id, decode);
    }
    forall id ensures id in t'.pending <==> id in t.pending && NoReply(bodies, id, decode) {
      StaysPending(t, bodies, id, decode);
    }
    assert (forall id :: id !in t'.pending) ==> t'.pending == map[];
  }

  lemma {:induction false} StaysPending(t: Table, bodies: seq<seq<Byte>>, id: int, decode: seq<Byte> -> Reply)
    requires Inv(t) && AllMessages(bodies, decode)
    ensures id in HandleAll(t, bodies, decode).pending <==> id in t.pending && NoReply(bodies, id, decode)
  {
    if NoReply(bodies, id, decode) {
      HandleAllKeeps(t, bodies, id, decode);
    } else if id in t.pending {
      var k := ReplyIn(bodies, id, decode);
      HandleAllSettles(t, bodies, k, id, decode);
    } else {
      HandleAllPending(t, bodies, decode);
    }
  }

  /** Replies written as frames and read in any chunking: each settles its own request, a request without one stays
      pending, and if there is one for each pending request, nothing is pending afterwards. */
  lemma {:induction false} RepliesSettleRequests(c: Client, bodies: seq<seq<Byte>>, chunks: seq<seq<Byte>>,
      decode: seq<Byte> -> Reply)
    requires c.buffer == [] && !c.spinning && Inv(c.table)
    requires Flatten(chunks) == Frames(bodies) && AllMessages(bodies, decode)
    ensures var c' := Run(c, DataEvents(chunks), decode);
      c' == c.(table := c'.table) && EachByItsReply(c.table, c'.table, bodies, decode)
  {
    ReadsReplies(c, bodies, chunks, decode);
    RepliesSettle(c.table, bodies, decode);
  }

  lemma {:induction false} ReadsReplies(c: Client, bodies: seq<seq<Byte>>, chunks: seq<seq<Byte>>,
      decode: seq<Byte> -> Reply)
    requires c.buffer == [] && !c.spinning && Inv(c.table)
    requires Flatten(chunks) == Frames(bodies) && AllMessages(bodies, decode)
    ensures Run(c, DataEvents(chunks), decode) == c.(table := HandleAll(c.table, bodies, decode))
  {
    FramesRoundTrip(bodies);
    ChunkingSettlesTheSame(c, chunks, decode);
  }

  lemma {:induction false} ReplyIn(bodies: seq<seq<Byte>>, id: int, decode: seq<Byte> -> Reply) returns (k: nat)
    requires !NoReply(bodies, id, decode)
    ensures FirstReply(bodies, k, id, decode)
    decreases |bodies|
  {
    var n := |bodies| - 1;
    if NoReply(bodies[..n], id, decode) {
      k := n;
    } else {
      k := ReplyIn(bodies[..n], id, decode);
      assert bodies[..n][..k] == bodies[..k];
    }
  }

  /** Handling messages makes nothing pending. */
  lemma {:induction false} HandleAllPending(t: Table, bodies: seq<seq<Byte>>, decode: seq<Byte> -> Reply)
    requires AllMessages(bodies, decode)
    ensures HandleAll(t, bodies, decode).pending.Keys <= t.pending.Keys
    decreases |bodies|
  {
    if bodies == [] {
    } else {
      assert forall i :: 0 <= i < |bodies| - 1 ==> bodies[1..][i] == bodies[i + 1];
      HandleAllPending(OnMessage(t, decode(bodies[0])).0, bodies[1..], decode);
    }
  }

  // ---- the connection ----------------------------------------------------------------------------------------

  /** Since the last time it was told to connect, the client has neither lost its child nor let go of it. */
  predicate KeptOn(events: seq<Event>, k: nat)
  {
    k < |events| && events[k] == Connect && forall j :: k < j < |events| ==> events[j] !in {ChildExit, Disconnect}
  }

  /** A disconnect of a running child, and no connect since. */
  ghost predicate LetGo(events: seq<Event>, k: nat, decode: seq<Byte> -> Reply)
  {
    && k < |events| && events[k] == Disconnect && Session(events[..k], decode).connected
    && forall j :: k < j < |events| ==> events[j] != Connect
  }

  lemma {:induction false} KeptOnStep(events: seq<Event>, e: Event, k: nat)
    ensures KeptOn(events + [e], k) <==>
      (KeptOn(events, k) && e !in {ChildExit, Disconnect}) || (k == |events| && e == Connect)
  {
    var more := events + [e];
    assert forall j :: 0 <= j < |events| ==> more[j] == events[j];
    assert more[|events|] == e;
  }

  lemma {:induction false} LetGoStep(events: seq<Event>, e: Event, k: nat, decode: seq<Byte> -> Reply)
    ensures LetGo(events + [e], k, decode) <==>
      (LetGo(events, k, decode) && e != Connect) ||
      (k == |events| && e == Disconnect && Session(events, decode).connected)
  {
    var more := events + [e];
    assert forall j :: 0 <= j < |events| ==> more[j] == events[j];
    assert more[|events|] == e && more[..|events|] == events;
    if k < |events| {
      assert more[..k] == events[..k];
    }
  }

  lemma {:induction false} ReactFlags(c: Client, e: Event, decode: seq<Byte> -> Reply)
    requires !React(c, e, decode).spinning && !(c.connected && c.closing)
    ensures var c' := React(c, e, decode);
      && !c.spinning
      && (c'.connected <==> (c.connected && e !in {ChildExit, Disconnect}) || e == Connect)
      && (c'.closing <==> (c.closing && e != Connect) || (e == Disconnect && c.connected))
  {
  }

  /** In every session in which no call has got stuck: the client has a child exactly after a connect without an exit or
      disconnect since; it is closing exactly after a disconnect of a child without a connect since; and it never is
      both. */
  lemma {:induction false} ConnectedExactly(events: seq<Event>, decode: seq<Byte> -> Reply)
    requires !Session(events, decode).spinning
    ensures Session(events, decode).connected <==> exists k :: KeptOn(events, k)
    ensures Session(events, decode).closing <==> exists k :: LetGo(events, k, decode)
    ensures !(Session(events, decode).connected && Session(events, decode).closing)
  {
    if events == [] {
    } else {
      var n := |events| - 1;
      var before, e := events[..n], events[n];
      assert events == before + [e];
      ConnectedExactly(before, decode);
      ReactFlags(Session(before, decode), e, decode);
      KeptOnSnoc(before, e);
      LetGoSnoc(before, e, decode);
    }
  }

  lemma {:induction false} KeptOnSnoc(events: seq<Event>, e: Event)
    ensures (exists k :: KeptOn(events + [e], k)) <==>
      ((exists k :: KeptOn(events, k)) && e !in {ChildExit, Disconnect}) || e == Connect
  {
    KeptOnStep(events, e, |events|);
    if k :| KeptOn(events + [e], k) {
      KeptOnStep(events, e, k);
    }
    if k :| KeptOn(events, k) {
      KeptOnStep(events, e, k);
    }
  }

  lemma {:induction false} LetGoSnoc(events: seq<Event>, e: Event, decode: seq<Byte> -> Reply)
    ensures (exists k :: LetGo(events + [e], k, decode)) <==>
      ((exists k :: LetGo(events, k, decode)) && e != Connect) ||
      (e == Disconnect && Session(events, decode).connected)
  {
    LetGoStep(events, e, |events|, decode);
    if k :| LetGo(events + [e], k, decode) {
      LetGoStep(events, e, k, decode);
    }
    if k :| LetGo(events, k, decode) {
      LetGoStep(events, e, k, decode);
    }
  }

  /** A session gets stuck only in a call that handles data and never ends. */
  lemma {:induction false} StuckOnlyByData(events: seq<Event>, decode: seq<Byte> -> Reply) returns (k: nat)
    requires Session(events, decode).spinning
    ensures k < |events| && events[k].Data? && !Session(events[..k], decode).spinning
    ensures var c := Session(events[..k], decode);
      Receive(c.table, c.buffer + events[k].chunk, decode).ending.Spins?
  {
    var n := |events| - 1;
    if Session(events[..n], decode).spinning {
      k := StuckOnlyByData(events[..n], decode);
      assert events[..n][..k] == events[..k] && events[..n][k] == events[k];
    } else {
      k := n;
    }
  }

  /** A request is pending only while there is a child, in every session. */
  lemma {:induction false} PendingNeedsChild(events: seq<Event>, decode: seq<Byte> -> Reply)
    requires !Session(events, decode).spinning
    ensures !Session(events, decode).connected ==> Session(events, decode).table.pending == map[]
  {
    if events == [] {
    } else {
      var n := |events| - 1;
      var c := Session(events[..n], decode);
      PendingNeedsChild(events[..n], decode);
      ConnectedExactly(events[..n], decode);
      SessionInv(events[..n], decode);
      ReactPending(c, events[n], decode);
    }
  }

  lemma {:induction false} ReactPending(c: Client, event: Event, decode: seq<Byte> -> Reply)
    requires Inv(c.table) && !c.spinning && (!c.connected ==> c.table.pending == map[]) && !(c.connected && c.closing)
    ensures var c' := React(c, event, decode); !c'.connected ==> c'.table.pending == map[]
  {
    FailAllInv(c.table);
    match event
    case Request(method_, writeOk) => RequestExactly(c, method_, writeOk, decode);
    case Data(chunk) => if !c.connected { ReceivePending(c.table, c.buffer + chunk, decode); }
    case _ =>
  }

  lemma {:induction false} ReceivePending(t: Table, buffer: seq<Byte>, decode: seq<Byte> -> Reply)
    requires Inv(t) && t.pending == map[]
    ensures Receive(t, buffer, decode).table.pending == map[]
    decreases |buffer|
  {
    FailAllInv(t);
    var step := Next(buffer);
    if step.Take? {
      var (t', threw) := OnMessage(t, decode(step.body));
      HandleMessageInv(t, decode(step.body));
      assert t'.pending == map[];
      if !threw {
        ReceivePending(t', step.rest, decode);
      }
    }
  }

  /** A request gets the next id; it is pending exactly if there is a child and the write succeeds, and settled at once
      otherwise; no other request is touched. */
  lemma {:induction false} RequestExactly(c: Client, method_: string, writeOk: bool, decode: seq<Byte> -> Reply)
    requires Inv(c.table) && !c.spinning
    ensures var c', id := React(c, Request(method_, writeOk), decode), c.table.nextId;
      && Inv(c'.table) && c'.table.nextId == id + 1
      && (if c.connected && writeOk then
            c'.table.pending == c.table.pending[id := method_] && c'.table.settled == c.table.settled
          else c'.table.pending == c.table.pending && SettledAs(c'.table, id, WriteFailed))
  {
    var c', id := React(c, Request(method_, writeOk), decode), c.table.nextId;
    SendInv(c.table, method_, c.connected && writeOk);
    if !(c.connected && writeOk) {
      assert id !in c.table.pending;
      assert c'.table.settled[|c.table.settled|] == Settlement(id, WriteFailed);
      SettledOnce(c'.table, id, WriteFailed);
    }
  }

  // ---- the implementation ------------------------------------------------------------------------------------

  class StdioMcpClient {
    var stdoutBuffer: seq<Byte>
    var nextId: int
    var pending: map<int, string>
    var timers: set<int>
    var connected: bool
    var closing: bool
    ghost var settled: seq<Settlement>

    ghost function View(): Table
      reads this
    {
      Table(nextId, pending, timers, settled)
    }

    ghost function State(): Client
      reads this
    {
      Client(View(), stdoutBuffer, connected, closing, false)
    }

    constructor ()
      ensures State() == FRESH
    {
      stdoutBuffer, nextId, pending, timers, settled := [], 1, map[], {}, [];
      connected, closing := false, false;
    }

    /** The part of `connect` before its first request. */
    method Connect(ghost decode: seq<Byte> -> Reply)
      modifies this
      ensures State() == React(old(State()), Event.Connect, decode)
    {
      if connected { return; }
      connected, closing := true, false;
    }

    /** clearTimeout, delete and settle, as the callbacks do it. */
    method Settle(id: int, how: How)
      modifies `timers, `pending, `settled
      ensures View() == old(View()).Settle(id, how)
    {
      timers := timers - {id};
      pending := pending - {id};
      settled := settled + [Settlement(id, how)];
    }

    method Request(method_: string, writeOk: bool, ghost decode: seq<Byte> -> Reply) returns (id: int)
      modifies this
      ensures id == old(nextId) && State() == React(old(State()), Event.Request(method_, writeOk), decode)
    {
      id := nextId;
      nextId := nextId + 1;
      timers := timers + {id};
      pending := pending[id := method_];
      if !connected || !writeOk { Settle(id, WriteFailed); }
    }

    method TimerFires(id: int)
      requires id in timers
      modifies `timers, `pending, `settled
      ensures View() == FireTimer(old(View()), id)
    {
      Settle(id, TimedOut);
    }

    method FailAll()
      modifies `timers, `pending, `settled
      ensures View() == FailEvery(old(View()))
    {
      var id := 1;
      while id < nextId
        invariant FailFrom(View(), id) == FailFrom(old(View()), 1)
        decreases nextId - id
      {
        if id in pending { Settle(id, Failed); }
        id := id + 1;
      }
    }

    method HandleMessage(reply: Reply) returns (threw: bool)
      modifies `timers, `pending, `settled
      ensures (View(), threw) == OnMessage(old(View()), reply)
    {
      threw := reply.JsonNull?;
      match reply
      case NotJson => FailAll();
      case Message(Some(id), isError) =>
        if id in pending { Settle(id, if isError then Rejected else Resolved); }
      case _ =>
    }

    /** `handleStdout`, for every buffer on which its loop ends. */
    method HandleStdout(chunk: seq<Byte>, decode: seq<Byte> -> Reply) returns (threw: bool)
      requires !Receive(View(), stdoutBuffer + chunk, decode).ending.Spins?
      modifies `stdoutBuffer, `timers, `pending, `settled
      ensures Received(View(), stdoutBuffer, if threw then Threw else Returned) ==
        Receive(old(View()), old(stdoutBuffer) + chunk, decode)
    {
      stdoutBuffer := stdoutBuffer + chunk;
      while true
        invariant Receive(View(), stdoutBuffer, decode) == Receive(old(View()), old(stdoutBuffer) + chunk, decode)
        decreases |stdoutBuffer|
      {
        match Next(stdoutBuffer)
        case Wait => return false;
        case NoLength =>
          FailAll();
          return false;
        case Throw => return true;
        case Take(body, rest, _) =>
          stdoutBuffer := rest;
          threw := HandleMessage(decode(body));
          if threw { return; }
      }
    }

    /** The exit listener. */
    method ChildExits(ghost decode: seq<Byte> -> Reply)
      modifies this
      ensures State() == React(old(State()), ChildExit, decode)
    {
      if !closing { FailAll(); }
      connected := false;
    }

    method Disconnect(ghost decode: seq<Byte> -> Reply)
      modifies this
      ensures State() == React(old(State()), Event.Disconnect, decode)
    {
      if !connected { return; }
      closing := true;
      FailAll();
      connected := false;
      stdoutBuffer := [];
    }
  }
}
