/** The read/claim loop of the Redis Streams broker over one consumer group, with handlers wrapped by the
    event subscriber. Redis appears as the group state it keeps: which entries have been handed out, how
    often each pending entry has been delivered, and which have been acknowledged. */
module StreamBroker {
  import opened Wrappers
  import opened Delivery
  import opened IdempotencyStore

  /** One stream entry: without an `event` field, with one that is not JSON, or an event. */
  datatype Payload = NoEvent | Malformed | Event(id: string, eventType: string)

  datatype Options = Options(consumerId: string, maxAttempts: Option<int>, batchSize: nat)
  {
    function Max(): int
    {
      if maxAttempts.Some? then maxAttempts.value else 3
    }
  }

  /** `settled` holds what was acknowledged after its handlers ran, `discarded` what was acknowledged
      without any, with the registrations there were at that time. `alive` turns false when a call throws
      out of the loop. `tick` counts the calls made, and selects how the next one turns out. */
  datatype World = World(
    side: Side, handlers: seq<set<string>>, running: bool, alive: bool, tick: nat,
    stream: seq<Payload>, cursor: nat, pending: map<nat, nat>, settled: set<nat>, discarded: map<nat, seq<set<string>>>)
  {
    /** The loop starts with the first subscription. */
    predicate Active() { handlers != [] && running && alive }
  }

  /** `matchingHandlers`: how many registrations list the event's type. */
  function Matching(handlers: seq<set<string>>, eventType: string): nat
  {
    if handlers == [] then 0
    else (if eventType in handlers[0] then 1 else 0) + Matching(handlers[1..], eventType)
  }

  function ContextFor(o: Options, entry: nat, eventId: string, attempt: int, index: nat): Context
  {
    Context(o.consumerId, eventId, entry, index, attempt, o.Max())
  }

  /** The loop over the matching handlers from `index` on. */
  function RunHandlers(w: World, o: Options, entry: nat, eventId: string, attempt: int, index: nat, count: nat,
      outcome: Outcome, env: nat -> Calls): (World, Outcome, bool)
    requires index <= count
    decreases count - index
  {
    if index == count then (w, outcome, false)
    else
      var h := HandleOnce(w.side, ContextFor(o, entry, eventId, attempt, index), env(w.tick), outcome);
      var w' := w.(side := h.side, tick := w.tick + 1);
      if h.threw || h.outcome == Retry || h.outcome == DeadLettered then (w', h.outcome, h.threw)
      else RunHandlers(w', o, entry, eventId, attempt, index + 1, count, h.outcome, env)
  }

  /** XACK of an entry whose handlers ran. */
  function Settle(w: World, entry: nat, env: nat -> Calls): World
  {
    if env(w.tick).xack then
      w.(tick := w.tick + 1, pending := w.pending - {entry}, settled := w.settled + {entry})
    else w.(tick := w.tick + 1, alive := false)
  }

  /** XACK of an entry no handler is there for. */
  function Discard(w: World, entry: nat, env: nat -> Calls): World
  {
    if env(w.tick).xack then
      w.(tick := w.tick + 1, pending := w.pending - {entry}, discarded := w.discarded[entry := w.handlers])
    else w.(tick := w.tick + 1, alive := false)
  }

  /** What the loop does once the handlers have run. */
  function AfterHandlers(w: World, entry: nat, outcome: Outcome, threw: bool, env: nat -> Calls): World
  {
    if threw then w.(alive := false)
    else if outcome == Acked || outcome == DeadLettered then Settle(w, entry, env)
    else w
  }

  /** What the loop does with one entry it was handed. */
  function ProcessEntry(w: World, o: Options, entry: nat, attempt: int, env: nat -> Calls): World
    requires entry < |w.stream|
  {
    match w.stream[entry]
    case Malformed => w.(alive := false)
    case NoEvent => Discard(w, entry, env)
    case Event(id, eventType) =>
      var count := Matching(w.handlers, eventType);
      if count == 0 then Discard(w, entry, env)
      else
        var (w', outcome, threw) := RunHandlers(w, o, entry, id, attempt, 0, count, Unset, env);
        AfterHandlers(w', entry, outcome, threw, env)
  }

  /** The freshly read entries `from .. w.cursor`, in order, with attempt count 1. */
  function ReadLoop(w: World, o: Options, from: nat, env: nat -> Calls): World
    requires from <= w.cursor <= |w.stream|
    decreases w.cursor - from
  {
    if from == w.cursor || !w.alive then w
    else
      ProcessEntryFrame(w, o, from, 1, env);
      ReadLoop(ProcessEntry(w, o, from, 1, env), o, from + 1, env)
  }

  /** XPENDING: the first `limit` pending entries below `end`, from `from` on, with their delivery counts. */
  function PendingItems(pending: map<nat, nat>, from: nat, end: nat, limit: nat): (items: seq<(nat, nat)>)
    requires from <= end
    ensures Listed(items, pending, from, end)
    decreases end - from
  {
    if from == end || limit == 0 then []
    else if from in pending then [(from, pending[from])] + PendingItems(pending, from + 1, end, limit - 1)
    else PendingItems(pending, from + 1, end, limit)
  }

  predicate Listed(items: seq<(nat, nat)>, pending: map<nat, nat>, from: nat, end: nat)
  {
    && (forall i :: 0 <= i < |items| ==> items[i] in pending.Items && from <= items[i].0 < end)
    && (forall i, j :: 0 <= i < j < |items| ==> items[i].0 < items[j].0)
  }

  /** XCLAIM of an entry that is idle long enough: one more delivery is counted. */
  function Claim(w: World, entry: nat): World
    requires entry in w.pending
  {
    w.(pending := w.pending[entry := w.pending[entry] + 1])
  }

  /** The loop over XPENDING's answer. The attempt count is the delivery count from before the claim. */
  function ClaimLoop(w: World, o: Options, items: seq<(nat, nat)>, idle: set<nat>, env: nat -> Calls): World
    requires forall i :: 0 <= i < |items| ==> items[i].0 < |w.stream|
    decreases |items|
  {
    if items == [] || !w.alive then w
    else
      var (entry, deliveries) := items[0];
      if entry !in idle || entry !in w.pending then ClaimLoop(w, o, items[1..], idle, env)
      else
        var claimed := Claim(w, entry);
        var attempt := if deliveries > 1 then deliveries else 1;
        ProcessEntryFrame(claimed, o, entry, attempt, env);
        ClaimLoop(ProcessEntry(claimed, o, entry, attempt, env), o, items[1..], idle, env)
  }

  /** XREADGROUP: up to a batch of new entries become pending, delivered once. */
  function Fetch(w: World, o: Options): World
    requires w.cursor <= |w.stream|
  {
    var n := if |w.stream| - w.cursor < o.batchSize then |w.stream| - w.cursor else o.batchSize;
    w.(cursor := w.cursor + n, pending := HandedOut(w.pending, w.cursor, w.cursor + n))
  }

  function HandedOut(pending: map<nat, nat>, from: nat, end: nat): (p: map<nat, nat>)
    requires from <= end
    ensures forall e :: e in p <==> e in pending || from <= e < end
    ensures forall e :: e in p ==> p[e] == if from <= e < end then 1 else pending[e]
    decreases end - from
  {
    if from == end then pending else HandedOut(pending[from := 1], from + 1, end)
  }

  /** One round of `consume`: read, or claim when the read returned nothing. */
  function Poll(w: World, o: Options, idle: set<nat>, env: nat -> Calls): World
    requires w.cursor <= |w.stream|
  {
    if !w.Active() then w
    else
      var fetched := Fetch(w, o);
      if fetched.cursor > w.cursor then ReadLoop(fetched, o, w.cursor, env)
      else ClaimLoop(w, o, PendingItems(w.pending, 0, w.cursor, o.batchSize), idle, env)
  }

  /** `groupOk` says that creating the consumer group succeeds, or finds that it exists. */
  datatype Step =
    | Publish(payload: Payload)
    | Subscribe(eventTypes: set<string>, groupOk: bool)
    | Consume(idle: set<nat>)
    | Stop

  /** After `stop`, the next registration makes a new subscription, with a loop of its own. A loop that died takes the
      process with it. */
  function Do(w: World, o: Options, step: Step, env: nat -> Calls): World
    requires w.cursor <= |w.stream|
  {
    match step
    case Publish(payload) => w.(stream := w.stream + [payload])
    case Subscribe(eventTypes, groupOk) =>
      if !groupOk || !w.alive then w
      else if w.running then w.(handlers := w.handlers + [eventTypes])
      else w.(handlers := [eventTypes], running := true)
    case Consume(idle) => Poll(w, o, idle, env)
    case Stop => w.(running := false)
  }

  const START := World(Side(map[], [], []), [], true, true, 0, [], 0, map[], {}, map[])

  /** A whole run of one process. */
  function Execute(o: Options, steps: seq<Step>, env: nat -> Calls): (w: World)
    ensures w.cursor <= |w.stream|
  {
    if steps == [] then START
    else
      var w := Execute(o, steps[..|steps| - 1], env);
      DoFrame(w, o, steps[|steps| - 1], env);
      Do(w, o, steps[|steps| - 1], env)
  }

  // ---- the implementation -----------------------------------------------------------------------------

  class RedisStreamsEventBroker {
    const options: Options
    const subscriber: EventSubscriber
    var handlers: seq<set<string>>
    var running: bool
    var alive: bool
    var tick: nat
    var stream: seq<Payload>
    var cursor: nat
    var pending: map<nat, nat>
    var settled: set<nat>
    var discarded: map<nat, seq<set<string>>>

    ghost function View(): World
      reads this, subscriber
    {
      World(subscriber.View(), handlers, running, alive, tick, stream, cursor, pending, settled, discarded)
    }

    ghost predicate Valid()
      reads this
    {
      cursor <= |stream|
    }

    constructor (options: Options)
      ensures Valid() && View() == START && this.options == options && fresh(subscriber)
    {
      this.options := options;
      subscriber := new EventSubscriber();
      handlers, running, alive, tick := [], true, true, 0;
      stream, cursor, pending, settled, discarded := [], 0, map[], {}, map[];
    }

    method Publish(payload: Payload)
      requires Valid()
      modifies this
      ensures Valid() && forall env :: View() == Do(old(View()), options, Step.Publish(payload), env)
    {
      stream := stream + [payload];
    }

    /** False is a throw: the group could not be created. */
    method Subscribe(eventTypes: set<string>, groupOk: bool) returns (subscribed: bool)
      requires Valid()
      modifies this
      ensures Valid() && forall env :: View() == Do(old(View()), options, Step.Subscribe(eventTypes, groupOk), env)
      ensures subscribed == (groupOk && old(alive))
    {
      subscribed := groupOk && alive;
      if !groupOk || !alive { return; }
      handlers := if running then handlers + [eventTypes] else [eventTypes];
      running := true;
    }

    method Stop()
      requires Valid()
      modifies this
      ensures Valid() && forall env :: View() == Do(old(View()), options, Step.Stop, env)
    {
      running := false;
    }

    /** XACK of an entry, and the bookkeeping of why. */
    method Acknowledge(entry: nat, handled: bool, env: nat -> Calls)
      modifies this
      ensures View() == if handled then Settle(old(View()), entry, env) else Discard(old(View()), entry, env)
    {
      alive := alive && env(tick).xack;
      if env(tick).xack {
        pending := pending - {entry};
        if handled { settled := settled + {entry}; } else { discarded := discarded[entry := handlers]; }
      }
      tick := tick + 1;
    }

    /** `for (const handler of handlers)`, with its break. */
    method CallHandlers(entry: nat, eventId: string, attempt: int, count: nat, env: nat -> Calls)
        returns (outcome: Outcome, threw: bool)
      modifies this, subscriber
      ensures (View(), outcome, threw) ==
        RunHandlers(old(View()), options, entry, eventId, attempt, 0, count, Unset, env)
    {
      outcome, threw := Unset, false;
      var i := 0;
      while i < count
        invariant 0 <= i <= count
        invariant RunHandlers(View(), options, entry, eventId, attempt, i, count, outcome, env) ==
          RunHandlers(old(View()), options, entry, eventId, attempt, 0, count, Unset, env)
      {
        ghost var h, next := RunHandlersStep(View(), options, entry, eventId, attempt, i, count, outcome, env);
        outcome, threw := subscriber.Handle(ContextFor(options, entry, eventId, attempt, i), env(tick), outcome);
        tick := tick + 1;
        if threw || outcome == Retry || outcome == DeadLettered { return; }
        i := i + 1;
      }
      threw := false;
    }

    method HandleEntry(entry: nat, attempt: int, env: nat -> Calls)
      requires Valid() && entry < |stream|
      modifies this, subscriber
      ensures View() == ProcessEntry(old(View()), options, entry, attempt, env) && SameStream(old(View()), View())
    {
      ProcessEntryFrame(View(), options, entry, attempt, env);
      match stream[entry]
      case Malformed => alive := false;
      case NoEvent => Acknowledge(entry, false, env);
      case Event(id, eventType) =>
        var count := Matching(handlers, eventType);
        if count == 0 {
          Acknowledge(entry, false, env);
          return;
        }
        var outcome, threw := CallHandlers(entry, id, attempt, count, env);
        if threw {
          alive := false;
        } else if outcome == Acked || outcome == DeadLettered {
          Acknowledge(entry, true, env);
        }
    }

    /** `claimPending`. */
    method ClaimPending(idle: set<nat>, env: nat -> Calls)
      requires Valid()
      modifies this, subscriber
      ensures View() == ClaimLoop(old(View()), options, PendingItems(old(pending), 0, old(cursor), options.batchSize),
        idle, env)
      ensures SameStream(old(View()), View())
    {
      var items := PendingItems(pending, 0, cursor, options.batchSize);
      var i := 0;
      ghost var result := ClaimLoop(View(), options, items, idle, env);
      while i < |items| && alive
        invariant 0 <= i <= |items| && SameStream(old(View()), View())
        invariant ClaimLoop(View(), options, items[i..], idle, env) == result
      {
        var (entry, deliveries) := items[i];
        ghost var rest := items[i..];
        assert rest[0] == items[i] && rest[1..] == items[i + 1..];
        if entry in idle && entry in pending {
          ClaimEntry(entry, if deliveries > 1 then deliveries else 1, env);
        }
        i := i + 1;
      }
    }

    /** XCLAIM of one entry, and its handling. */
    method ClaimEntry(entry: nat, attempt: int, env: nat -> Calls)
      requires Valid() && entry < |stream| && entry in pending
      modifies this, subscriber
      ensures View() == ProcessEntry(Claim(old(View()), entry), options, entry, attempt, env)
      ensures SameStream(old(View()), View())
    {
      pending := pending[entry := pending[entry] + 1];
      assert View() == Claim(old(View()), entry);
      HandleEntry(entry, attempt, env);
    }

    /** Handling the messages that a read has left, from `from` on, leads to `end`. */
    ghost predicate Leads(from: nat, env: nat -> Calls, end: World)
      reads this, subscriber
    {
      from <= cursor <= |stream| && ReadLoop(View(), options, from, env) == end
    }

    /** The first message of those that a read has left. */
    method ReadEntry(entry: nat, env: nat -> Calls, ghost end: World)
      requires entry < cursor && alive && Leads(entry, env, end)
      modifies this, subscriber
      ensures cursor == old(cursor) && stream == old(stream) && Leads(entry + 1, env, end)
    {
      ghost var next := ReadLoopStep(View(), options, entry, env);
      HandleEntry(entry, 1, env);
    }

    /** The loop over the messages of one read. */
    method ReadEntries(from: nat, env: nat -> Calls)
      requires Valid() && from <= cursor
      modifies this, subscriber
      ensures View() == old(ReadLoop(View(), options, from, env))
      ensures cursor == old(cursor) && stream == old(stream)
    {
      var entry := from;
      ghost var end := ReadLoop(View(), options, from, env);
      while entry < cursor && alive
        invariant from <= entry <= cursor == old(cursor) && stream == old(stream)
        invariant Leads(entry, env, end)
      {
        ReadEntry(entry, env, end);
        entry := entry + 1;
      }
    }

    /** One round of `consume`. */
    method Consume(idle: set<nat>, env: nat -> Calls)
      requires Valid()
      modifies this, subscriber
      ensures Valid() && View() == Do(old(View()), options, Step.Consume(idle), env)
    {
      if handlers == [] || !running || !alive { return; }
      var from := cursor;
      var n := if |stream| - cursor < options.batchSize then |stream| - cursor else options.batchSize;
      if n == 0 {
        ClaimPending(idle, env);
      } else {
        pending := HandedOut(pending, cursor, cursor + n);
        cursor := cursor + n;
        assert View() == Fetch(old(View()), options);
        ReadEntries(from, env);
      }
    }
  }

  // ---- what a step leaves alone --------------------------------------------------------------------

  /** Handling entries changes keys, pending entries and acknowledgements, never the stream or the registrations. */
  predicate SameStream(w: World, w': World)
  {
    w'.stream == w.stream && w'.cursor == w.cursor && w'.handlers == w.handlers && w'.running == w.running
  }

  lemma {:induction false} RunHandlersFrame(w: World, o: Options, entry: nat, eventId: string, attempt: int, index: nat,
      count: nat, outcome: Outcome, env: nat -> Calls)
    requires index <= count
    ensures var w' := RunHandlers(w, o, entry, eventId, attempt, index, count, outcome, env).0;
      w' == w.(side := w'.side, tick := w'.tick)
    decreases count - index
  {
    if index < count {
      var h := HandleOnce(w.side, ContextFor(o, entry, eventId, attempt, index), env(w.tick), outcome);
      RunHandlersFrame(w.(side := h.side, tick := w.tick + 1), o, entry, eventId, attempt, index + 1, count, h.outcome,
        env);
    }
  }

  /** One handler call, and what it leads to. */
  lemma {:induction false} RunHandlersStep(w: World, o: Options, entry: nat, eventId: string, attempt: int, index: nat,
      count: nat, outcome: Outcome, env: nat -> Calls) returns (h: Handled, w': World)
    requires index < count
    ensures h == HandleOnce(w.side, ContextFor(o, entry, eventId, attempt, index), env(w.tick), outcome)
    ensures w' == w.(side := h.side, tick := w.tick + 1)
    ensures RunHandlers(w, o, entry, eventId, attempt, index, count, outcome, env) ==
      if h.threw || h.outcome == Retry || h.outcome == DeadLettered then (w', h.outcome, h.threw)
      else RunHandlers(w', o, entry, eventId, attempt, index + 1, count, h.outcome, env)
  {
    h := HandleOnce(w.side, ContextFor(o, entry, eventId, attempt, index), env(w.tick), outcome);
    w' := w.(side := h.side, tick := w.tick + 1);
  }

  lemma ProcessEntryFrame(w: World, o: Options, entry: nat, attempt: int, env: nat -> Calls)
    requires entry < |w.stream|
    ensures SameStream(w, ProcessEntry(w, o, entry, attempt, env))
  {
    match w.stream[entry]
    case Malformed =>
    case NoEvent =>
    case Event(id, eventType) =>
      RunHandlersFrame(w, o, entry, id, attempt, 0, Matching(w.handlers, eventType), Unset, env);
  }

  lemma {:induction false} ReadLoopFrame(w: World, o: Options, from: nat, env: nat -> Calls)
    requires from <= w.cursor <= |w.stream|
    ensures SameStream(w, ReadLoop(w, o, from, env))
    decreases w.cursor - from
  {
    if from < w.cursor && w.alive {
      ProcessEntryFrame(w, o, from, 1, env);
      ReadLoopFrame(ProcessEntry(w, o, from, 1, env), o, from + 1, env);
    }
  }

  lemma {:induction false} ClaimLoopFrame(w: World, o: Options, items: seq<(nat, nat)>, idle: set<nat>,
      env: nat -> Calls)
    requires forall i :: 0 <= i < |items| ==> items[i].0 < |w.stream|
    ensures SameStream(w, ClaimLoop(w, o, items, idle, env))
    decreases |items|
  {
    if items != [] && w.alive {
      var (entry, deliveries) := items[0];
      if entry !in idle || entry !in w.pending {
        ClaimLoopFrame(w, o, items[1..], idle, env);
      } else {
        var attempt := if deliveries > 1 then deliveries else 1;
        ProcessEntryFrame(Claim(w, entry), o, entry, attempt, env);
        ClaimLoopFrame(ProcessEntry(Claim(w, entry), o, entry, attempt, env), o, items[1..], idle, env);
      }
    }
  }

  lemma DoFrame(w: World, o: Options, step: Step, env: nat -> Calls)
    requires w.cursor <= |w.stream|
    ensures var w' := Do(w, o, step, env); w.cursor <= w'.cursor <= |w'.stream| && w.stream <= w'.stream
  {
    if step.Consume? && w.Active() {
      var fetched := Fetch(w, o);
      if fetched.cursor > w.cursor {
        ReadLoopFrame(fetched, o, w.cursor, env);
      } else {
        ClaimLoopFrame(w, o, PendingItems(w.pending, 0, w.cursor, o.batchSize), step.idle, env);
      }
    }
  }

  // ---- what handling one entry does ------------------------------------------------------------------

  /** Every final key stays final. */
  predicate FinalKept(s: Side, s': Side)
  {
    forall key :: key in s.store && s.store[key] != Processing ==> key in s'.store && s'.store[key] == s.store[key]
  }

  /** At most one handler call was added, and it carries the given context. */
  predicate RanAtMost(s: Side, s': Side, context: Context)
  {
    s'.runs == s.runs || exists succeeded :: s'.runs == s.runs + [HandlerRun(context, succeeded)]
  }

  lemma HandleEffect(s: Side, context: Context, c: Calls, before: Outcome)
    ensures var h := HandleOnce(s, context, c, before);
      && FinalKept(s, h.side)
      && RanAtMost(s, h.side, context)
      && (!h.threw && h.outcome == Retry ==> context.attemptCount < context.maxAttempts)
  {
    var h := HandleOnce(s, context, c, before);
    if s.Terminal(context.Key()) {
      FinalStatesAbsorb(s, context, c, before);
    } else {
      forall key | key in s.store && s.store[key] != Processing
        ensures key in h.side.store && h.side.store[key] == s.store[key]
      {
        OtherKeysKept(s, context, c, before, key);
      }
    }
    assert h.side.runs == s.runs || h.side.runs == s.runs + [HandlerRun(context, c.handler.Returns?)];
  }

  predicate LookupsSucceed(env: nat -> Calls, from: nat, end: nat)
  {
    forall t :: from <= t < end ==> env(t).get
  }

  /** Once the first matching handler has succeeded, the others find the key processed and do not run: each only looks
      the key up. */
  lemma {:induction false} OthersSkipped(w: World, o: Options, entry: nat, eventId: string, attempt: int, index: nat,
      count: nat, env: nat -> Calls)
    requires index <= count && w.side.Has(ConsumerKey(o.consumerId, eventId), Processed)
    ensures var (w', outcome, threw) := RunHandlers(w, o, entry, eventId, attempt, index, count, Acked, env);
      && w'.side == w.side && (!threw ==> outcome == Acked && w'.tick == w.tick + (count - index))
      && (!threw <==> LookupsSucceed(env, w.tick, w.tick + (count - index)))
    decreases count - index
  {
    if index < count {
      FinalStatesAbsorb(w.side, ContextFor(o, entry, eventId, attempt, index), env(w.tick), Acked);
      OthersSkipped(w.(tick := w.tick + 1), o, entry, eventId, attempt, index + 1, count, env);
    }
  }

  lemma RunHandlersEffect(w: World, o: Options, entry: nat, eventId: string, attempt: int, count: nat,
      env: nat -> Calls)
    requires count > 0
    ensures var (w', outcome, threw) := RunHandlers(w, o, entry, eventId, attempt, 0, count, Unset, env);
      && FinalKept(w.side, w'.side)
      && RanAtMost(w.side, w'.side, ContextFor(o, entry, eventId, attempt, 0))
      && (!threw && outcome in {Acked, DeadLettered} ==> w'.side.Terminal(ConsumerKey(o.consumerId, eventId)))
      && (!threw && outcome !in {Acked, DeadLettered} ==> attempt < o.Max())
  {
    var context := ContextFor(o, entry, eventId, attempt, 0);
    var h := HandleOnce(w.side, context, env(w.tick), Unset);
    HandleEffect(w.side, context, env(w.tick), Unset);
    OutcomeMeansState(w.side, context, env(w.tick), Unset);
    if !h.threw && h.outcome == Acked {
      OthersSkipped(w.(side := h.side, tick := w.tick + 1), o, entry, eventId, attempt, 1, count, env);
    }
  }

  /** The possible results of handling one entry: it stays pending, is settled, or is discarded. */
  predicate Effect(w: World, w': World, o: Options, entry: nat, attempt: int)
    requires entry < |w.stream|
  {
    && SameStream(w, w')
    && FinalKept(w.side, w'.side)
    && RanFor(w, w', o, entry, attempt)
    && (StaysPending(w, w', o, attempt) || WasSettled(w, w', o, entry) || WasDiscarded(w, w', entry))
  }

  predicate RanFor(w: World, w': World, o: Options, entry: nat, attempt: int)
    requires entry < |w.stream|
  {
    w'.side.runs == w.side.runs ||
    (w.stream[entry].Event? && RanAtMost(w.side, w'.side, ContextFor(o, entry, w.stream[entry].id, attempt, 0)))
  }

  predicate StaysPending(w: World, w': World, o: Options, attempt: int)
  {
    && w'.pending == w.pending && w'.settled == w.settled && w'.discarded == w.discarded
    && (w'.alive ==> attempt < o.Max())
  }

  predicate WasSettled(w: World, w': World, o: Options, entry: nat)
    requires entry < |w.stream|
  {
    && w'.pending == w.pending - {entry} && w'.settled == w.settled + {entry} && w'.discarded == w.discarded
    && w.stream[entry].Event? && w'.side.Terminal(ConsumerKey(o.consumerId, w.stream[entry].id))
  }

  predicate WasDiscarded(w: World, w': World, entry: nat)
    requires entry < |w.stream|
  {
    && w'.pending == w.pending - {entry} && w'.settled == w.settled &&
          w'.discarded == w.discarded[entry := w.handlers]
    && Unhandled(w.stream[entry], w.handlers)
  }

  /** There is no event in the entry, or none of the registrations lists its type. */
  predicate Unhandled(payload: Payload, handlers: seq<set<string>>)
  {
    payload.NoEvent? ||
    (payload.Event? && forall i :: 0 <= i < |handlers| ==> payload.eventType !in handlers[i])
  }

  /** The registrations that list an event type. */
  function Registered(handlers: seq<set<string>>, eventType: string): set<nat>
  {
    set i: nat | i < |handlers| && eventType in handlers[i]
  }

  /** As many handlers match as registrations list the type. */
  lemma {:induction false} MatchingCounts(handlers: seq<set<string>>, eventType: string)
    ensures Matching(handlers, eventType) == |Registered(handlers, eventType)|
    ensures Matching(handlers, eventType) == 0 <==> forall i :: 0 <= i < |handlers| ==> eventType !in handlers[i]
  {
    MatchingSize(handlers, eventType);
    var registered := Registered(handlers, eventType);
    if i :| 0 <= i < |handlers| && eventType in handlers[i] {
      assert i in registered;
    } else {
      assert registered == {};
    }
  }

  lemma {:induction false} MatchingSize(handlers: seq<set<string>>, eventType: string)
    ensures Matching(handlers, eventType) == |Registered(handlers, eventType)|
  {
    if handlers == [] {
    } else {
      var rest, registered := Registered(handlers[1..], eventType), Registered(handlers, eventType);
      MatchingSize(handlers[1..], eventType);
      RegisteredTail(handlers, eventType);
      SameSize(rest, registered - {0});
    }
  }

  lemma RegisteredTail(handlers: seq<set<string>>, eventType: string)
    requires handlers != []
    ensures forall i: nat :: i in Registered(handlers, eventType) - {0} <==>
      i > 0 && i - 1 in Registered(handlers[1..], eventType)
  {
  }

  lemma {:induction false} SameSize(s: set<nat>, shifted: set<nat>)
    requires forall i: nat :: i in shifted <==> i > 0 && i - 1 in s
    ensures |shifted| == |s|
    decreases |s|
  {
    if s == {} {
      assert shifted == {};
    } else {
      var i :| i in s;
      assert i + 1 in shifted;
      SameSize(s - {i}, shifted - {i + 1});
    }
  }

  lemma {:induction false} ProcessEntryEffect(w: World, o: Options, entry: nat, attempt: int, env: nat -> Calls)
    requires entry < |w.stream|
    ensures Effect(w, ProcessEntry(w, o, entry, attempt, env), o, entry, attempt)
  {
    match w.stream[entry]
    case Malformed =>
    case NoEvent => DiscardEffect(w, o, entry, attempt, env);
    case Event(id, eventType) =>
      var count := Matching(w.handlers, eventType);
      MatchingCounts(w.handlers, eventType);
      if count == 0 {
        DiscardEffect(w, o, entry, attempt, env);
      } else {
        var (w', outcome, threw) := RunHandlers(w, o, entry, id, attempt, 0, count, Unset, env);
        RunHandlersFrame(w, o, entry, id, attempt, 0, count, Unset, env);
        RunHandlersEffect(w, o, entry, id, attempt, count, env);
        HandledEffect(w, w', o, entry, attempt, outcome, threw, env);
      }
  }

  lemma DiscardEffect(w: World, o: Options, entry: nat, attempt: int, env: nat -> Calls)
    requires entry < |w.stream| && Unhandled(w.stream[entry], w.handlers)
    ensures Effect(w, Discard(w, entry, env), o, entry, attempt)
  {
  }

  lemma HandledEffect(w: World, w': World, o: Options, entry: nat, attempt: int, outcome: Outcome, threw: bool,
      env: nat -> Calls)
    requires entry < |w.stream| && w.stream[entry].Event? && w' == w.(side := w'.side, tick := w'.tick)
    requires FinalKept(w.side, w'.side)
    requires RanAtMost(w.side, w'.side, ContextFor(o, entry, w.stream[entry].id, attempt, 0))
    requires !threw && outcome in {Acked, DeadLettered} ==>
      w'.side.Terminal(ConsumerKey(o.consumerId, w.stream[entry].id))
    requires !threw && outcome !in {Acked, DeadLettered} ==> attempt < o.Max()
    ensures Effect(w, AfterHandlers(w', entry, outcome, threw, env), o, entry, attempt)
  {
  }

  // ---- invariants of every run -----------------------------------------------------------------------

  /** No entry is lost: each one handed out is pending, settled or discarded, and only one of these. */
  ghost predicate Accounted(w: World)
  {
    && w.cursor <= |w.stream|
    && (forall e: nat :: e < w.cursor <==> e in w.pending || e in w.settled || e in w.discarded)
    && (forall e :: e in w.pending ==> e !in w.settled && e !in w.discarded)
    && (forall e :: e in w.settled ==> e !in w.discarded)
  }

  /** Acknowledged with handlers: the key is final. Acknowledged without: there was no handler. */
  ghost predicate AckedRightly(w: World, o: Options)
  {
    && (forall e :: e in w.settled ==>
          e < |w.stream| && w.stream[e].Event? && w.side.Terminal(ConsumerKey(o.consumerId, w.stream[e].id)))
    && (forall e :: e in w.discarded ==>
          e < |w.stream| && Unhandled(w.stream[e], w.discarded[e]))
  }

  /** Handler calls made for one stream entry. */
  function RunsFor(runs: seq<HandlerRun>, entry: nat): nat
  {
    if runs == [] then 0
    else RunsFor(runs[..|runs| - 1], entry) + (if runs[|runs| - 1].context.entry == entry then 1 else 0)
  }

  /** The most handler calls an entry can cause: the first claim reuses attempt count 1. */
  function Limit(o: Options): nat
  {
    if o.Max() <= 1 then 1 else o.Max() + 1
  }

  /** The attempt count under which an entry with this delivery count was handled last. */
  function LastAttempt(deliveries: nat): nat
  {
    if deliveries > 1 then deliveries - 1 else 1
  }

  /** Handler calls stay below the delivery count, and an entry that is still pending has attempts left;
      entries from `from` on are handed out but not handled yet. */
  ghost predicate Counted(w: World, o: Options, from: nat)
  {
    && (forall e: nat :: RunsFor(w.side.runs, e) <= if e < from then Limit(o) else 0)
    && (forall e :: e in w.pending && e >= from ==> w.pending[e] == 1)
    && (w.alive ==> forall e :: e in w.pending && e < from ==>
          RunsFor(w.side.runs, e) <= w.pending[e] && 1 <= w.pending[e] && LastAttempt(w.pending[e]) < o.Max())
  }

  /** Only the first matching handler of an event ever runs, and under the consumer's own id. */
  ghost predicate OnlyFirstHandler(w: World, o: Options)
  {
    forall i :: 0 <= i < |w.side.runs| ==>
      w.side.runs[i].context.handlerIndex == 0 && w.side.runs[i].context.consumerId == o.consumerId
  }

  /** The keys, dead letters and handler calls come from a sequence of deliveries to this consumer. */
  ghost predicate Delivered(s: Side, o: Options, env: nat -> Calls)
  {
    exists deliveries: seq<(Context, Calls)> ::
      s == Deliver(Side(map[], [], []), deliveries) && From(deliveries, o, env)
  }

  ghost predicate From(deliveries: seq<(Context, Calls)>, o: Options, env: nat -> Calls)
  {
    forall i :: 0 <= i < |deliveries| ==> ToConsumer(deliveries[i].0, o) && IsCall(deliveries[i].1, env)
  }

  predicate ToConsumer(context: Context, o: Options)
  {
    context.consumerId == o.consumerId && context.maxAttempts == o.Max() && context.attemptCount >= 1
  }

  ghost predicate IsCall(c: Calls, env: nat -> Calls)
  {
    exists t: nat :: c == env(t)
  }

  ghost predicate Inv(w: World, o: Options, from: nat)
  {
    Accounted(w) && AckedRightly(w, o) && Counted(w, o, from) && OnlyFirstHandler(w, o)
  }

  /** The entries from `from` on have been handed out, and nothing has happened to them yet. */
  predicate Unread(w: World, from: nat)
  {
    forall e :: from <= e < w.cursor ==> e in w.pending
  }

  lemma RunsForAppend(runs: seq<HandlerRun>, run: HandlerRun, e: nat)
    ensures RunsFor(runs + [run], e) == RunsFor(runs, e) + if run.context.entry == e then 1 else 0
  {
    assert (runs + [run])[..|runs|] == runs;
  }

  lemma EffectRuns(w: World, w': World, o: Options, entry: nat, attempt: int)
    requires entry < |w.stream| && RanFor(w, w', o, entry, attempt)
    ensures forall e: nat :: RunsFor(w'.side.runs, e) <= RunsFor(w.side.runs, e) + if e == entry then 1 else 0
    ensures OnlyFirstHandler(w, o) ==> OnlyFirstHandler(w', o)
  {
    if w'.side.runs != w.side.runs {
      var succeeded :| w'.side.runs ==
        w.side.runs + [HandlerRun(ContextFor(o, entry, w.stream[entry].id, attempt, 0), succeeded)];
      forall e: nat ensures RunsFor(w'.side.runs, e) <= RunsFor(w.side.runs, e) + if e == entry then 1 else 0 {
        RunsForAppend(w.side.runs, HandlerRun(ContextFor(o, entry, w.stream[entry].id, attempt, 0), succeeded), e);
      }
    }
  }

  lemma EffectAccounted(w: World, w': World, o: Options, entry: nat, attempt: int)
    requires Accounted(w) && entry in w.pending && entry < |w.stream| && Effect(w, w', o, entry, attempt)
    ensures Accounted(w')
  {
  }

  lemma EffectAcked(w: World, w': World, o: Options, entry: nat, attempt: int)
    requires AckedRightly(w, o) && entry < |w.stream| && Effect(w, w', o, entry, attempt)
    ensures AckedRightly(w', o)
  {
  }

  /** The counts are in order but for one entry, which is being handled, one call short of its delivery count. */
  ghost predicate CountedBut(w: World, o: Options, entry: nat, from: nat, from': nat)
  {
    && entry in w.pending && entry < from' <= |w.stream| && from <= from'
    && (forall e :: e in w.pending && from <= e < from' ==> e == entry)
    && (forall e: nat :: RunsFor(w.side.runs, e) <= if e < from then Limit(o) else 0)
    && (forall e :: e in w.pending && e >= from' ==> w.pending[e] == 1)
    && (forall e :: e in w.pending && e < from && e != entry ==>
          RunsFor(w.side.runs, e) <= w.pending[e] && 1 <= w.pending[e] && LastAttempt(w.pending[e]) < o.Max())
    && 1 <= w.pending[entry] && RunsFor(w.side.runs, entry) < w.pending[entry] <= Limit(o)
  }

  /** Handling an entry under its current delivery count keeps the counts in order. */
  lemma {:induction false} EffectCounted(w: World, w': World, o: Options, entry: nat, from: nat, from': nat)
    requires CountedBut(w, o, entry, from, from') && w.alive
    requires Effect(w, w', o, entry, LastAttempt(w.pending[entry]))
    ensures Counted(w', o, from')
  {
    EffectRuns(w, w', o, entry, LastAttempt(w.pending[entry]));
  }

  lemma {:induction false} ReadLoopStep(w: World, o: Options, from: nat, env: nat -> Calls) returns (w': World)
    requires from < w.cursor <= |w.stream| && w.alive
    ensures w' == ProcessEntry(w, o, from, 1, env) && SameStream(w, w')
    ensures ReadLoop(w, o, from, env) == ReadLoop(w', o, from + 1, env)
  {
    ProcessEntryFrame(w, o, from, 1, env);
    w' := ProcessEntry(w, o, from, 1, env);
  }

  /** Handling an entry that has just been read. */
  lemma {:induction false} ReadOneInv(w: World, o: Options, from: nat, env: nat -> Calls) returns (w': World)
    requires Inv(w, o, from) && from < w.cursor && w.alive && Unread(w, from)
    ensures w' == ProcessEntry(w, o, from, 1, env) && Inv(w', o, from + 1) && Unread(w', from + 1)
  {
    w' := ProcessEntry(w, o, from, 1, env);
    ProcessEntryEffect(w, o, from, 1, env);
    OneEntryInv(w, w', o, from, from, from + 1);
  }

  /** What the effect of one entry means for the invariants. */
  lemma {:induction false} OneEntryInv(w: World, w': World, o: Options, entry: nat, from: nat, from': nat)
    requires Accounted(w) && AckedRightly(w, o) && OnlyFirstHandler(w, o) && w.alive
    requires CountedBut(w, o, entry, from, from')
    requires Effect(w, w', o, entry, LastAttempt(w.pending[entry]))
    ensures Inv(w', o, from')
    ensures Unread(w, from') ==> Unread(w', from')
  {
    var attempt := LastAttempt(w.pending[entry]);
    EffectAccounted(w, w', o, entry, attempt);
    EffectAcked(w, w', o, entry, attempt);
    EffectCounted(w, w', o, entry, from, from');
    EffectRuns(w, w', o, entry, attempt);
  }

  /** What holds before a loop over read entries, and is kept by handling one, holds when it ends, at the entry that it
      got to. */
  lemma {:induction false} ReadLoopKeeps(holds: (World, nat) -> bool, w: World, o: Options, from: nat,
      env: nat -> Calls)
      returns (reached: nat)
    requires from <= w.cursor <= |w.stream| && holds(w, from)
    requires forall x: World, k: nat {:trigger ProcessEntry(x, o, k, 1, env)} ::
      holds(x, k) && k < x.cursor <= |x.stream| && x.alive ==> holds(ProcessEntry(x, o, k, 1, env), k + 1)
    ensures var w' := ReadLoop(w, o, from, env);
      w'.cursor == w.cursor && reached <= w.cursor && holds(w', reached) && (w'.alive ==> reached == w.cursor)
    decreases w.cursor - from
  {
    if from == w.cursor || !w.alive {
      reached := from;
    } else {
      ProcessEntryFrame(w, o, from, 1, env);
      reached := ReadLoopKeeps(holds, ProcessEntry(w, o, from, 1, env), o, from + 1, env);
    }
  }

  lemma {:induction false} ReadLoopInv(w: World, o: Options, from: nat, env: nat -> Calls)
    requires Inv(w, o, from) && from <= w.cursor && Unread(w, from)
    ensures ReadLoop(w, o, from, env).cursor == w.cursor && Inv(ReadLoop(w, o, from, env), o, w.cursor)
  {
    var holds := (x: World, k: nat) => Inv(x, o, k) && Unread(x, k);
    forall x: World, k: nat | holds(x, k) && k < x.cursor <= |x.stream| && x.alive
      ensures holds(ProcessEntry(x, o, k, 1, env), k + 1)
    {
      var x' := ReadOneInv(x, o, k, env);
    }
    var reached := ReadLoopKeeps(holds, w, o, from, env);
    DeadInv(ReadLoop(w, o, from, env), o, reached);
  }

  /** Once the loop has died, what it had been handed and not reached stays pending. */
  lemma DeadInv(w: World, o: Options, from: nat)
    requires Inv(w, o, from) && from <= w.cursor && (w.alive ==> from == w.cursor)
    ensures Inv(w, o, w.cursor)
  {
    assert Counted(w, o, w.cursor);
  }

  /** Claiming and handling a pending entry. */
  lemma {:induction false} ClaimOneInv(w: World, o: Options, entry: nat, env: nat -> Calls) returns (w': World)
    requires Inv(w, o, w.cursor) && w.alive && entry in w.pending
    ensures w' == ProcessEntry(Claim(w, entry), o, entry, if w.pending[entry] > 1 then w.pending[entry] else 1, env)
    ensures Inv(w', o, w'.cursor) && w'.stream == w.stream
    ensures forall e :: e in w'.pending && e != entry ==> e in w.pending && w'.pending[e] == w.pending[e]
  {
    var claimed := Claim(w, entry);
    var attempt := if w.pending[entry] > 1 then w.pending[entry] else 1;
    w' := ProcessEntry(claimed, o, entry, attempt, env);
    assert Accounted(claimed) && AckedRightly(claimed, o);
    ProcessEntryEffect(claimed, o, entry, attempt, env);
    OneEntryInv(claimed, w', o, entry, w.cursor, w.cursor);
    PendingElsewhere(claimed, w', o, entry, attempt);
  }

  lemma PendingElsewhere(w: World, w': World, o: Options, entry: nat, attempt: int)
    requires entry < |w.stream| && Effect(w, w', o, entry, attempt)
    ensures forall e :: e in w'.pending ==> e in w.pending && w'.pending[e] == w.pending[e]
  {
  }

  /** The answer of XPENDING is accurate for the entries that the loop has not reached. */
  predicate Accurate(w: World, items: seq<(nat, nat)>)
  {
    && (forall i :: 0 <= i < |items| ==> items[i].0 < |w.stream|)
    && (forall i :: 0 <= i < |items| && items[i].0 in w.pending ==> w.pending[items[i].0] == items[i].1)
    && (forall i, j :: 0 <= i < j < |items| ==> items[i].0 < items[j].0)
  }

  lemma AccurateRest(w: World, w': World, items: seq<(nat, nat)>)
    requires items != [] && Accurate(w, items) && w'.stream == w.stream
    requires forall e :: e in w'.pending && e != items[0].0 ==> e in w.pending && w'.pending[e] == w.pending[e]
    ensures Accurate(w', items[1..])
  {
    assert forall i :: 0 <= i < |items| - 1 ==> items[1..][i] == items[i + 1];
  }

  lemma {:induction false} ClaimLoopInv(w: World, o: Options, items: seq<(nat, nat)>, idle: set<nat>, env: nat -> Calls)
      returns (w': World)
    requires Inv(w, o, w.cursor) && Accurate(w, items)
    ensures w' == ClaimLoop(w, o, items, idle, env) && Inv(w', o, w'.cursor)
    decreases |items|
  {
    if items == [] || !w.alive {
      w' := w;
    } else {
      var (entry, deliveries) := items[0];
      if entry !in idle || entry !in w.pending {
        AccurateRest(w, w, items);
        w' := ClaimLoopInv(w, o, items[1..], idle, env);
      } else {
        var w1 := ClaimOneInv(w, o, entry, env);
        AccurateRest(w, w1, items);
        w' := ClaimLoopInv(w1, o, items[1..], idle, env);
      }
    }
  }

  lemma {:induction false} FetchInv(w: World, o: Options) returns (w': World)
    requires Inv(w, o, w.cursor)
    ensures w' == Fetch(w, o) && Inv(w', o, w.cursor) && Unread(w', w.cursor) && w.cursor <= w'.cursor
  {
    w' := Fetch(w, o);
    assert Accounted(w') && AckedRightly(w', o) && Counted(w', o, w.cursor) && OnlyFirstHandler(w', o);
  }

  lemma {:induction false} PollInv(w: World, o: Options, idle: set<nat>, env: nat -> Calls) returns (w': World)
    requires Inv(w, o, w.cursor)
    ensures w' == Poll(w, o, idle, env) && Inv(w', o, w'.cursor)
  {
    w' := w;
    if w.Active() {
      var fetched := FetchInv(w, o);
      if fetched.cursor > w.cursor {
        w' := ReadLoop(fetched, o, w.cursor, env);
        ReadLoopInv(fetched, o, w.cursor, env);
      } else {
        w' := ClaimLoopInv(w, o, PendingItems(w.pending, 0, w.cursor, o.batchSize), idle, env);
      }
    }
  }

  lemma {:induction false} DoInv(w: World, o: Options, step: Step, env: nat -> Calls) returns (w': World)
    requires Inv(w, o, w.cursor)
    ensures w' == Do(w, o, step, env) && Inv(w', o, w'.cursor)
  {
    if step.Consume? {
      w' := PollInv(w, o, step.idle, env);
    } else {
      w' := Do(w, o, step, env);
      assert Accounted(w') && AckedRightly(w', o);
    }
  }

  /** In every run of one process, whichever calls fail: no entry is lost; an entry acknowledged after its
      handlers has a final key; no entry causes more than `Limit` handler calls; only the first matching
      handler ever runs. */
  lemma {:induction false} ExecuteInv(o: Options, steps: seq<Step>, env: nat -> Calls)
    ensures var w := Execute(o, steps, env); Inv(w, o, w.cursor)
  {
    if steps == [] {
    } else {
      ExecuteInv(o, steps[..|steps| - 1], env);
      var w := DoInv(Execute(o, steps[..|steps| - 1], env), o, steps[|steps| - 1], env);
    }
  }

  // ---- what is settled -----------------------------------------------------------------------------------

  /** What the matching handlers of an event under a key that is not final come to. */
  lemma {:induction false} RunHandlersExactly(w: World, o: Options, entry: nat, eventId: string, attempt: int,
      count: nat, env: nat -> Calls)
    requires count > 0 && !w.side.Terminal(ConsumerKey(o.consumerId, eventId))
    ensures var (w', outcome, threw) := RunHandlers(w, o, entry, eventId, attempt, 0, count, Unset, env);
      var c, context := env(w.tick), ContextFor(o, entry, eventId, attempt, 0);
      && (!threw && outcome == Acked <==> c.Succeeds() && LookupsSucceed(env, w.tick + 1, w.tick + count))
      && (!threw && outcome == Acked ==> w'.tick == w.tick + count && w'.side.Has(context.Key(), Processed))
      && (!threw && outcome == DeadLettered <==> Buried(context, c))
      && (!threw && outcome == DeadLettered ==> w'.tick == w.tick + 1 && w'.side.Has(context.Key(), Failed))
  {
    var context := ContextFor(o, entry, eventId, attempt, 0);
    var h := HandleOnce(w.side, context, env(w.tick), Unset);
    OutcomeExactly(w.side, context, env(w.tick), Unset);
    OutcomeMeansState(w.side, context, env(w.tick), Unset);
    if !h.threw && h.outcome == Acked {
      OthersSkipped(w.(side := h.side, tick := w.tick + 1), o, entry, eventId, attempt, 1, count, env);
    }
  }

  /** For every entry whose type some registration lists and whose key is not final, whatever its calls do: it is
      settled under a `processed` key exactly when its handler returns, that is recorded, the lookups of the other
      registrations for it succeed, and so does the acknowledgement; and under a `failed` key exactly when the delivery
      gives up and its record, its dead letter and its acknowledgement succeed. */
  lemma {:induction false} SettledExactly(w: World, o: Options, entry: nat, attempt: int, env: nat -> Calls)
    requires entry < |w.stream| && w.stream[entry].Event? && entry !in w.settled
    requires Registered(w.handlers, w.stream[entry].eventType) != {}
    requires !w.side.Terminal(ConsumerKey(o.consumerId, w.stream[entry].id))
    ensures var w', c := ProcessEntry(w, o, entry, attempt, env), env(w.tick);
      var n := |Registered(w.handlers, w.stream[entry].eventType)|;
      var context := ContextFor(o, entry, w.stream[entry].id, attempt, 0);
      && (entry in w'.settled && w'.side.Has(context.Key(), Processed) <==>
            c.Succeeds() && LookupsSucceed(env, w.tick + 1, w.tick + n) && env(w.tick + n).xack)
      && (entry in w'.settled && w'.side.Has(context.Key(), Failed) <==>
            Buried(context, c) && env(w.tick + 1).xack)
  {
    var payload := w.stream[entry];
    MatchingCounts(w.handlers, payload.eventType);
    RunHandlersFrame(w, o, entry, payload.id, attempt, 0, Matching(w.handlers, payload.eventType), Unset, env);
    RunHandlersExactly(w, o, entry, payload.id, attempt, Matching(w.handlers, payload.eventType), env);
  }

  lemma {:induction false} RunHandlersFinal(w: World, o: Options, entry: nat, eventId: string, attempt: int,
      count: nat, env: nat -> Calls)
    requires count > 0 && w.side.Terminal(ConsumerKey(o.consumerId, eventId))
    ensures var (w', outcome, threw) := RunHandlers(w, o, entry, eventId, attempt, 0, count, Unset, env);
      var lookups := if w.side.Has(ConsumerKey(o.consumerId, eventId), Processed) then count else 1;
      && w'.side == w.side && (!threw <==> LookupsSucceed(env, w.tick, w.tick + lookups))
      && (!threw ==> outcome in {Acked, DeadLettered} && w'.tick == w.tick + lookups)
  {
    var h, next := RunHandlersStep(w, o, entry, eventId, attempt, 0, count, Unset, env);
    FinalStatesAbsorb(w.side, ContextFor(o, entry, eventId, attempt, 0), env(w.tick), Unset);
    if h.outcome == Acked && !h.threw {
      OthersSkipped(next, o, entry, eventId, attempt, 1, count, env);
    }
  }

  /** Under a final key no handler runs, and the entry is settled exactly when the lookups that are made and the
      acknowledgement succeed: one for each registration if the key is processed, a single one if it is failed. */
  lemma {:induction false} SettledUnderFinalKey(w: World, o: Options, entry: nat, attempt: int, env: nat -> Calls)
    requires entry < |w.stream| && w.stream[entry].Event? && entry !in w.settled
    requires Registered(w.handlers, w.stream[entry].eventType) != {}
    requires w.side.Terminal(ConsumerKey(o.consumerId, w.stream[entry].id))
    ensures var w', key := ProcessEntry(w, o, entry, attempt, env), ConsumerKey(o.consumerId, w.stream[entry].id);
      var lookups := if w.side.Has(key, Processed) then |Registered(w.handlers, w.stream[entry].eventType)| else 1;
      && w'.side == w.side
      && (entry in w'.settled <==>
            LookupsSucceed(env, w.tick, w.tick + lookups) && env(w.tick + lookups).xack)
  {
    var payload := w.stream[entry];
    var count := Matching(w.handlers, payload.eventType);
    MatchingCounts(w.handlers, payload.eventType);
    RunHandlersFrame(w, o, entry, payload.id, attempt, 0, count, Unset, env);
    RunHandlersFinal(w, o, entry, payload.id, attempt, count, env);
  }

  /** Whatever the calls do: an entry is discarded exactly when it holds no event, or none that a registration lists,
      and its acknowledgement succeeds. Malformed entries and failing acknowledgements end the loop. */
  lemma {:induction false} DiscardedExactly(w: World, o: Options, entry: nat, attempt: int, env: nat -> Calls)
    requires entry < |w.stream| && entry !in w.discarded
    ensures var w' := ProcessEntry(w, o, entry, attempt, env);
      && (entry in w'.discarded <==> Unhandled(w.stream[entry], w.handlers) && env(w.tick).xack)
      && (w.stream[entry].Malformed? || (Unhandled(w.stream[entry], w.handlers) && !env(w.tick).xack) ==> !w'.alive)
  {
    var payload := w.stream[entry];
    if payload.Event? {
      var count := Matching(w.handlers, payload.eventType);
      MatchingCounts(w.handlers, payload.eventType);
      RunHandlersFrame(w, o, entry, payload.id, attempt, 0, count, Unset, env);
    }
  }

  /** From here on the handlers return, and every call succeeds. */
  ghost predicate Smooth(env: nat -> Calls, from: nat)
  {
    forall t :: from <= t ==> env(t).Succeeds() && env(t).xack
  }

  /** An event for which there is a registration among the given ones. */
  predicate Wanted(payload: Payload, handlers: seq<set<string>>)
  {
    payload.Event? && exists i :: 0 <= i < |handlers| && payload.eventType in handlers[i]
  }

  /** The entry is acknowledged, and its key is final. */
  predicate Done(w: World, o: Options, entry: nat)
  {
    && entry in w.settled && entry < |w.stream| && w.stream[entry].Event?
    && w.side.Terminal(ConsumerKey(o.consumerId, w.stream[entry].id))
  }

  predicate NoMalformed(w: World)
  {
    forall e :: 0 <= e < |w.stream| ==> !w.stream[e].Malformed?
  }

  /** What handling entries keeps while every call succeeds. */
  ghost predicate Advances(w: World, w': World, env: nat -> Calls)
  {
    && w'.alive && Smooth(env, w'.tick) && SameStream(w, w')
    && w.settled <= w'.settled && FinalKept(w.side, w'.side)
    && NoMoreFailed(w.side, w'.side)
  }

  /** No further key is `failed`. */
  ghost predicate NoMoreFailed(s: Side, s': Side)
  {
    forall key :: s'.Has(key, Failed) ==> s.Has(key, Failed)
  }

  lemma SmoothHandlers(w: World, o: Options, entry: nat, eventId: string, attempt: int, count: nat,
      env: nat -> Calls)
    requires count > 0 && Smooth(env, w.tick)
    ensures var (w', outcome, threw) := RunHandlers(w, o, entry, eventId, attempt, 0, count, Unset, env);
      && !threw && outcome in {Acked, DeadLettered} && w'.tick >= w.tick
      && w'.side.Terminal(ConsumerKey(o.consumerId, eventId)) && NoMoreFailed(w.side, w'.side)
  {
    var h, next := RunHandlersStep(w, o, entry, eventId, attempt, 0, count, Unset, env);
    SmoothHandle(w.side, ContextFor(o, entry, eventId, attempt, 0), env(w.tick));
    if h.outcome == Acked {
      OthersSkipped(next, o, entry, eventId, attempt, 1, count, env);
    }
  }

  lemma {:induction false} SmoothHandle(s: Side, context: Context, c: Calls)
    requires c.Succeeds()
    ensures var h := HandleOnce(s, context, c, Unset);
      && !h.threw && NoMoreFailed(s, h.side)
      && (|| (h.outcome == Acked && h.side.Has(context.Key(), Processed))
          || (h.outcome == DeadLettered && h.side.Has(context.Key(), Failed)))
  {
  }

  /** With every call successful, an entry that is no malformed one is settled if there is a registration for it. */
  lemma {:induction false} SmoothEntry(w: World, o: Options, entry: nat, attempt: int, env: nat -> Calls)
      returns (w': World)
    requires entry < |w.stream| && NoMalformed(w) && w.alive && Smooth(env, w.tick)
    ensures w' == ProcessEntry(w, o, entry, attempt, env) && Advances(w, w', env)
    ensures w'.pending == w.pending - {entry}
    ensures Wanted(w.stream[entry], w.handlers) ==> Done(w', o, entry)
  {
    w' := ProcessEntry(w, o, entry, attempt, env);
    var payload := w.stream[entry];
    ProcessEntryEffect(w, o, entry, attempt, env);
    assert env(w.tick).xack;
    if payload.Event? {
      MatchingCounts(w.handlers, payload.eventType);
      var count := Matching(w.handlers, payload.eventType);
      if count > 0 {
        SmoothHandlers(w, o, entry, payload.id, attempt, count, env);
        RunHandlersFrame(w, o, entry, payload.id, attempt, 0, count, Unset, env);
        assert env(RunHandlers(w, o, entry, payload.id, attempt, 0, count, Unset, env).0.tick).xack;
      }
    }
  }

  /** Since `w1` the loop has got on without a failure, and every wanted entry handed out since, below `k`, is done. */
  ghost predicate Progressed(w1: World, w: World, o: Options, env: nat -> Calls, k: nat)
  {
    && w.alive && w.running && w.cursor <= |w.stream| && Smooth(env, w.tick) && w1.handlers <= w.handlers
    && FinalKept(w1.side, w.side) && NoMoreFailed(w1.side, w.side)
    && (forall e :: w1.cursor <= e < k && e < |w.stream| && Wanted(w.stream[e], w1.handlers) ==> Done(w, o, e))
  }

  lemma {:induction false} AdvancesProgressed(w1: World, w: World, w': World, o: Options, env: nat -> Calls, k: nat)
    requires Progressed(w1, w, o, env, k) && Advances(w, w', env)
    ensures Progressed(w1, w', o, env, k)
  {
    forall e | w1.cursor <= e < k && e < |w'.stream| && Wanted(w'.stream[e], w1.handlers) ensures Done(w', o, e) {
      assert Done(w, o, e);
    }
  }

  lemma {:induction false} ReadLoopProgressed(w1: World, w: World, o: Options, from: nat, env: nat -> Calls)
      returns (w': World)
    requires Progressed(w1, w, o, env, from) && from <= w.cursor && NoMalformed(w)
    ensures w' == ReadLoop(w, o, from, env) && Progressed(w1, w', o, env, w'.cursor)
  {
    var holds := (x: World, k: nat) => Progressed(w1, x, o, env, k) && NoMalformed(x);
    forall x: World, k: nat | holds(x, k) && k < x.cursor <= |x.stream| && x.alive
      ensures holds(ProcessEntry(x, o, k, 1, env), k + 1)
    {
      var x' := SmoothEntry(x, o, k, 1, env);
      AdvancesProgressed(w1, x, x', o, env, k);
      if Wanted(x.stream[k], w1.handlers) {
        WantedOfMore(x.stream[k], w1.handlers, x.handlers);
      }
    }
    var reached := ReadLoopKeeps(holds, w, o, from, env);
    w' := ReadLoop(w, o, from, env);
  }

  lemma WantedOfMore(payload: Payload, handlers: seq<set<string>>, more: seq<set<string>>)
    requires handlers <= more && Wanted(payload, handlers)
    ensures Wanted(payload, more)
  {
    var i :| 0 <= i < |handlers| && payload.eventType in handlers[i];
    assert more[i] == handlers[i];
  }

  lemma {:induction false} AdvancesTwice(w: World, x: World, w': World, env: nat -> Calls)
    requires Advances(w, x, env) && Advances(x, w', env)
    ensures Advances(w, w', env)
  {
  }

  /** A round over pending entries, every call being successful. */
  lemma {:induction false} ClaimLoopAdvances(w: World, o: Options, items: seq<(nat, nat)>, idle: set<nat>,
      env: nat -> Calls) returns (w': World)
    requires NoMalformed(w) && w.alive && Smooth(env, w.tick)
    requires forall i :: 0 <= i < |items| ==> items[i].0 < |w.stream|
    ensures w' == ClaimLoop(w, o, items, idle, env) && Advances(w, w', env)
    ensures forall i :: 0 <= i < |items| && items[i].0 in idle && items[i].0 in w.pending ==>
      (Wanted(w.stream[items[i].0], w.handlers) ==> Done(w', o, items[i].0))
    decreases |items|
  {
    if items == [] {
      w' := w;
    } else {
      var (entry, deliveries) := items[0];
      if entry !in idle || entry !in w.pending {
        w' := ClaimLoopAdvances(w, o, items[1..], idle, env);
      } else {
        var x := SmoothEntry(Claim(w, entry), o, entry, if deliveries > 1 then deliveries else 1, env);
        w' := ClaimLoopAdvances(x, o, items[1..], idle, env);
        AdvancesTwice(w, x, w', env);
      }
    }
  }

  lemma {:induction false} DoProgressed(w1: World, w: World, o: Options, step: Step, env: nat -> Calls)
      returns (w': World)
    requires Progressed(w1, w, o, env, w.cursor) && step != Stop && NoMalformed(w)
    ensures w' == Do(w, o, step, env) && Progressed(w1, w', o, env, w'.cursor)
  {
    w' := Do(w, o, step, env);
    if step.Consume? && w.Active() {
      var fetched := Fetch(w, o);
      if fetched.cursor > w.cursor {
        w' := ReadLoopProgressed(w1, fetched, o, w.cursor, env);
      } else {
        w' := ClaimLoopAdvances(w, o, PendingItems(w.pending, 0, w.cursor, o.batchSize), step.idle, env);
        AdvancesProgressed(w1, w, w', o, env, w.cursor);
      }
    } else {
      StepProgressed(w1, w, o, step, env);
    }
  }

  lemma {:induction false} StepProgressed(w1: World, w: World, o: Options, step: Step, env: nat -> Calls)
    requires Progressed(w1, w, o, env, w.cursor) && step != Stop && (step.Consume? ==> !w.Active())
    ensures Progressed(w1, Do(w, o, step, env), o, env, w.cursor)
  {
    var w' := Do(w, o, step, env);
    forall e | w1.cursor <= e < w.cursor && e < |w'.stream| && Wanted(w'.stream[e], w1.handlers)
      ensures Done(w', o, e)
    {
      assert w'.stream[e] == w.stream[e] && Done(w, o, e);
    }
  }

  lemma ExecuteSnoc(o: Options, steps: seq<Step>, step: Step, env: nat -> Calls)
    ensures Execute(o, steps + [step], env) == Do(Execute(o, steps, env), o, step, env)
  {
    assert (steps + [step])[..|steps|] == steps;
  }

  lemma {:induction false} ExecuteProgressed(o: Options, before: seq<Step>, after: seq<Step>, env: nat -> Calls)
      returns (w: World)
    requires Stop !in after && NoMalformed(Execute(o, before + after, env))
    requires var w1 := Execute(o, before, env); w1.running && w1.alive && Smooth(env, w1.tick)
    ensures w == Execute(o, before + after, env) && Progressed(Execute(o, before, env), w, o, env, w.cursor)
    decreases |after|
  {
    if after == [] {
      assert before + after == before;
      w := Execute(o, before, env);
    } else {
      var steps, last := before + after[..|after| - 1], after[|after| - 1];
      assert before + after == steps + [last];
      ExecuteSnoc(o, steps, last, env);
      DoFrame(Execute(o, steps, env), o, last, env);
      StreamOfLess(Execute(o, steps, env), Execute(o, before + after, env));
      w := ExecuteProgressed(o, before, after[..|after| - 1], env);
      w := DoProgressed(Execute(o, before, env), w, o, last, env);
    }
  }

  lemma StreamOfLess(w: World, w': World)
    requires w.stream <= w'.stream && NoMalformed(w')
    ensures NoMalformed(w)
  {
    assert forall e :: 0 <= e < |w.stream| ==> w.stream[e] == w'.stream[e];
  }

  /** The other half over runs. After any run, however it went, let the handlers return and the calls succeed, and let
      the broker not be stopped: then every event that is read from there on, and whose type was registered by then,
      ends up acknowledged under a `processed` key, unless its key had been `failed` before. */
  lemma {:induction false} ReadIsSettled(o: Options, before: seq<Step>, after: seq<Step>, env: nat -> Calls, e: nat)
    requires Stop !in after && NoMalformed(Execute(o, before + after, env))
    requires var w1 := Execute(o, before, env); w1.running && w1.alive && Smooth(env, w1.tick)
    requires var w1, w := Execute(o, before, env), Execute(o, before + after, env);
      w1.cursor <= e < w.cursor && Wanted(w.stream[e], w1.handlers)
    ensures var w1, w := Execute(o, before, env), Execute(o, before + after, env);
      var key := ConsumerKey(o.consumerId, w.stream[e].id);
      e in w.settled && w.side.Has(key, if w1.side.Has(key, Failed) then Failed else Processed)
  {
    var w := ExecuteProgressed(o, before, after, env);
    assert Done(w, o, e);
  }

  /** XPENDING answers with the pending entries of the range, in order, up to the limit. */
  lemma {:induction false} PendingItemsComplete(pending: map<nat, nat>, from: nat, end: nat, limit: nat, e: nat)
    requires from <= e < end && e in pending
    ensures var items := PendingItems(pending, from, end, limit);
      (exists i :: 0 <= i < |items| && items[i] == (e, pending[e])) ||
      (|items| == limit && forall i :: 0 <= i < |items| ==> items[i].0 < e)
    decreases end - from
  {
    var items := PendingItems(pending, from, end, limit);
    if limit == 0 {
    } else if from == e {
      assert items[0] == (e, pending[e]);
    } else if from in pending {
      var rest := PendingItems(pending, from + 1, end, limit - 1);
      PendingItemsComplete(pending, from + 1, end, limit - 1, e);
      if i :| 0 <= i < |rest| && rest[i] == (e, pending[e]) {
        assert items[i + 1] == rest[i];
      } else {
        assert forall i :: 0 < i < |items| ==> items[i] == rest[i - 1];
      }
    } else {
      PendingItemsComplete(pending, from + 1, end, limit, e);
    }
  }

  /** And of claims: when nothing is left to read, a round settles each idle pending event that has a registration and
      fewer than a batch of pending entries before it. */
  lemma {:induction false} ClaimIsSettled(o: Options, before: seq<Step>, idle: set<nat>, env: nat -> Calls, e: nat)
    requires var w := Execute(o, before, env); NoMalformed(w) && w.Active() && Smooth(env, w.tick)
    requires var w := Execute(o, before, env);
      && w.cursor == |w.stream| && e in idle && e in w.pending && e < |w.stream|
      && |Earlier(w.pending, e)| < o.batchSize && Wanted(w.stream[e], w.handlers)
    ensures var w, w' := Execute(o, before, env), Execute(o, before + [Consume(idle)], env);
      var key := ConsumerKey(o.consumerId, w.stream[e].id);
      e in w'.settled && w'.side.Has(key, if w.side.Has(key, Failed) then Failed else Processed)
  {
    var w := Execute(o, before, env);
    var items := PendingItems(w.pending, 0, w.cursor, o.batchSize);
    ExecuteSnoc(o, before, Consume(idle), env);
    PendingItemsComplete(w.pending, 0, w.cursor, o.batchSize, e);
    if forall i :: 0 <= i < |items| ==> items[i].0 < e {
      FewerItems(items, w.pending, e);
    }
    var i :| 0 <= i < |items| && items[i].0 == e;
    assert Fetch(w, o).cursor == w.cursor;
    var w' := ClaimLoopAdvances(w, o, items, idle, env);
    assert Done(w', o, e);
  }

  /** The pending entries before `e`. */
  function Earlier(pending: map<nat, nat>, e: nat): set<nat>
  {
    set p | p in pending && p < e
  }

  lemma {:induction false} FewerItems(items: seq<(nat, nat)>, pending: map<nat, nat>, e: nat)
    requires forall i :: 0 <= i < |items| ==> items[i].0 in pending && items[i].0 < e
    requires forall i, j :: 0 <= i < j < |items| ==> items[i].0 < items[j].0
    ensures |items| <= |Earlier(pending, e)|
  {
    if items == [] {
    } else {
      var n := |items| - 1;
      var last := items[n].0;
      FewerItems(items[..n], pending, last);
      assert Earlier(pending, last) <= Earlier(pending, e) - {last};
      SmallerSet(Earlier(pending, last), Earlier(pending, e) - {last});
    }
  }

  lemma {:induction false} SmallerSet(s: set<nat>, t: set<nat>)
    requires s <= t
    ensures |s| <= |t|
  {
    assert t == s + (t - s);
  }

  // ---- who is registered -------------------------------------------------------------------------------------

  /** The event types of the subscriptions made since the last stop, of those for which the group could be created. */
  function SubscribedSince(steps: seq<Step>): seq<set<string>>
  {
    if steps == [] then []
    else
      match steps[|steps| - 1]
      case Stop => []
      case Subscribe(eventTypes, groupOk) =>
        SubscribedSince(steps[..|steps| - 1]) + if groupOk then [eventTypes] else []
      case _ => SubscribedSince(steps[..|steps| - 1])
  }

  /** What a step does to the registrations, and that a dead loop stays dead. */
  lemma {:induction false} DoRegisters(w: World, o: Options, step: Step, env: nat -> Calls)
    requires w.cursor <= |w.stream|
    ensures var w' := Do(w, o, step, env);
      && (w'.alive ==> w.alive)
      && (step.Publish? || step.Consume? ==> w'.handlers == w.handlers && w'.running == w.running)
      && (step == Stop ==> !w'.running)
      && (step.Subscribe? && w.alive ==>
            && w'.running == (w.running || step.groupOk)
            && var before := if w.running then w.handlers else [];
              w'.running ==> w'.handlers == before + if step.groupOk then [step.eventTypes] else [])
  {
    if step.Consume? && w.Active() {
      var fetched := Fetch(w, o);
      if fetched.cursor > w.cursor {
        ReadLoopFrame(fetched, o, w.cursor, env);
      } else {
        ClaimLoopFrame(w, o, PendingItems(w.pending, 0, w.cursor, o.batchSize), step.idle, env);
      }
    }
  }

  /** In every run whose loop has not died: it goes on exactly unless it was stopped and nobody has subscribed since,
      and the registrations are the subscriptions made since the last stop. */
  lemma {:induction false} RegisteredExactly(o: Options, steps: seq<Step>, env: nat -> Calls)
    requires Execute(o, steps, env).alive
    ensures var w := Execute(o, steps, env);
      && (w.running <==> Stop !in steps || SubscribedSince(steps) != [])
      && (w.running ==> w.handlers == SubscribedSince(steps))
  {
    if steps == [] {
    } else {
      var before, last := steps[..|steps| - 1], steps[|steps| - 1];
      assert steps == before + [last];
      DoRegisters(Execute(o, before, env), o, last, env);
      RegisteredExactly(o, before, env);
    }
  }

  // ---- the deliveries of a run ---------------------------------------------------------------------------

  lemma DeliverSnoc(deliveries: seq<(Context, Calls)>, last: (Context, Calls))
    ensures Deliver(Side(map[], [], []), deliveries + [last]) ==
      HandleOnce(Deliver(Side(map[], [], []), deliveries), last.0, last.1, Unset).side
  {
    assert (deliveries + [last])[..|deliveries|] == deliveries;
  }

  lemma BeforeIrrelevant(s: Side, context: Context, c: Calls, before: Outcome)
    ensures HandleOnce(s, context, c, before).side == HandleOnce(s, context, c, Unset).side
  {
  }

  lemma {:induction false} HandleDelivered(s: Side, context: Context, t: nat, before: Outcome, o: Options,
      env: nat -> Calls) returns (h: Handled)
    requires Delivered(s, o, env) && ToConsumer(context, o)
    ensures h == HandleOnce(s, context, env(t), before) && Delivered(h.side, o, env)
  {
    var deliveries :| s == Deliver(Side(map[], [], []), deliveries) && From(deliveries, o, env);
    h := HandleOnce(s, context, env(t), before);
    OneMoreDelivery(deliveries, context, t, before, o, env, h.side);
  }

  lemma {:induction false} OneMoreDelivery(deliveries: seq<(Context, Calls)>, context: Context, t: nat, before: Outcome,
      o: Options, env: nat -> Calls, after: Side)
    requires From(deliveries, o, env) && ToConsumer(context, o)
    requires after == HandleOnce(Deliver(Side(map[], [], []), deliveries), context, env(t), before).side
    ensures Delivered(after, o, env)
  {
    var more := deliveries + [(context, env(t))];
    BeforeIrrelevant(Deliver(Side(map[], [], []), deliveries), context, env(t), before);
    DeliverSnoc(deliveries, (context, env(t)));
    assert IsCall(env(t), env);
    assert after == Deliver(Side(map[], [], []), more) && From(more, o, env);
  }

  lemma {:induction false} RunHandlersDelivered(w: World, o: Options, entry: nat, eventId: string, attempt: int,
      index: nat,
      count: nat, outcome: Outcome, env: nat -> Calls) returns (s: Side)
    requires index <= count && Delivered(w.side, o, env) && attempt >= 1
    ensures s == RunHandlers(w, o, entry, eventId, attempt, index, count, outcome, env).0.side && Delivered(s, o, env)
    decreases count - index
  {
    s := w.side;
    if index < count {
      var step, next := RunHandlersStep(w, o, entry, eventId, attempt, index, count, outcome, env);
      var h := HandleDelivered(w.side, ContextFor(o, entry, eventId, attempt, index), w.tick, outcome, o, env);
      s := h.side;
      if !(h.threw || h.outcome == Retry || h.outcome == DeadLettered) {
        s := RunHandlersDelivered(next, o, entry, eventId, attempt, index + 1, count,
          h.outcome, env);
      }
    }
  }

  lemma ProcessEntrySide(w: World, o: Options, entry: nat, attempt: int, env: nat -> Calls)
    requires entry < |w.stream|
    ensures ProcessEntry(w, o, entry, attempt, env).side ==
      if w.stream[entry].Event? && Matching(w.handlers, w.stream[entry].eventType) > 0 then
        RunHandlers(w, o, entry, w.stream[entry].id, attempt, 0, Matching(w.handlers, w.stream[entry].eventType),
          Unset, env).0.side
      else w.side
  {
  }

  lemma {:induction false} ProcessEntryDelivered(w: World, o: Options, entry: nat, attempt: int, env: nat -> Calls)
      returns (w': World)
    requires entry < |w.stream| && Delivered(w.side, o, env) && attempt >= 1
    ensures w' == ProcessEntry(w, o, entry, attempt, env) && Delivered(w'.side, o, env) && SameStream(w, w')
  {
    w' := ProcessEntry(w, o, entry, attempt, env);
    ProcessEntryFrame(w, o, entry, attempt, env);
    ProcessEntrySide(w, o, entry, attempt, env);
    if w.stream[entry].Event? && Matching(w.handlers, w.stream[entry].eventType) > 0 {
      var s := RunHandlersDelivered(w, o, entry, w.stream[entry].id, attempt, 0,
        Matching(w.handlers, w.stream[entry].eventType), Unset, env);
    }
  }

  lemma {:induction false} ReadLoopDelivered(w: World, o: Options, from: nat, env: nat -> Calls) returns (w': World)
    requires from <= w.cursor <= |w.stream| && Delivered(w.side, o, env)
    ensures w' == ReadLoop(w, o, from, env) && Delivered(w'.side, o, env)
  {
    var holds := (x: World, k: nat) => Delivered(x.side, o, env);
    forall x: World, k: nat | holds(x, k) && k < x.cursor <= |x.stream| && x.alive
      ensures holds(ProcessEntry(x, o, k, 1, env), k + 1)
    {
      var x' := ProcessEntryDelivered(x, o, k, 1, env);
    }
    var reached := ReadLoopKeeps(holds, w, o, from, env);
    w' := ReadLoop(w, o, from, env);
  }

  lemma {:induction false} ClaimLoopDelivered(w: World, o: Options, items: seq<(nat, nat)>, idle: set<nat>,
      env: nat -> Calls) returns (w': World)
    requires Delivered(w.side, o, env) && forall i :: 0 <= i < |items| ==> items[i].0 < |w.stream|
    ensures w' == ClaimLoop(w, o, items, idle, env) && Delivered(w'.side, o, env)
    decreases |items|
  {
    if items == [] || !w.alive {
      w' := w;
    } else {
      var (entry, deliveries) := items[0];
      if entry !in idle || entry !in w.pending {
        w' := ClaimLoopDelivered(w, o, items[1..], idle, env);
      } else {
        var w1 := ProcessEntryDelivered(Claim(w, entry), o, entry, if deliveries > 1 then deliveries else 1, env);
        w' := ClaimLoopDelivered(w1, o, items[1..], idle, env);
      }
    }
  }

  lemma {:induction false} DoDelivered(w: World, o: Options, step: Step, env: nat -> Calls) returns (w': World)
    requires w.cursor <= |w.stream| && Delivered(w.side, o, env)
    ensures w' == Do(w, o, step, env) && Delivered(w'.side, o, env)
  {
    w' := Do(w, o, step, env);
    if step.Consume? && w.Active() {
      var fetched := Fetch(w, o);
      if fetched.cursor > w.cursor {
        w' := ReadLoopDelivered(fetched, o, w.cursor, env);
      } else {
        w' := ClaimLoopDelivered(w, o, PendingItems(w.pending, 0, w.cursor, o.batchSize), step.idle, env);
      }
    }
  }

  lemma {:induction false} ExecuteDelivered(o: Options, steps: seq<Step>, env: nat -> Calls)
    ensures Delivered(Execute(o, steps, env).side, o, env)
  {
    if steps == [] {
      assert Deliver(Side(map[], [], []), []) == START.side;
      assert From([], o, env);
    } else {
      ExecuteDelivered(o, steps[..|steps| - 1], env);
      var w := DoDelivered(Execute(o, steps[..|steps| - 1], env), o, steps[|steps| - 1], env);
    }
  }

  /** A success sticks under these calls, whatever the attempt. */
  predicate AlwaysSticks(o: Options, c: Calls)
  {
    c.Runs() && c.handler.Returns? ==>
      c.Recorded() || (c.Caught() && c.setAfterError && (o.Max() <= 1 || !c.callErrorRetryable))
  }

  /** An attempt that could be the last gets its error recorded and its dead letter written under these calls. */
  predicate AlwaysBuries(c: Calls)
  {
    c.Runs() && c.Caught() && c.setAfterError ==> c.Buries()
  }

  /** What a run does to one event of the consumer: at most one dead letter, whatever fails; at most one success, if
      successes stick; and if giving up always gets its record and its letter, a dead letter exactly when the key is
      `failed`. */
  lemma {:induction false} RunGuarantees(o: Options, steps: seq<Step>, env: nat -> Calls, e: string)
    requires ':' !in o.consumerId
    ensures var s, key := Execute(o, steps, env).side, ConsumerKey(o.consumerId, e);
      && DeadLettersFor(s.deadLetters, o.consumerId, e) <= 1
      && ((forall t :: AlwaysSticks(o, env(t))) ==> Successes(s.runs, o.consumerId, e) <= 1)
      && ((forall t :: AlwaysBuries(env(t))) ==>
            DeadLettersFor(s.deadLetters, o.consumerId, e) == if s.Has(key, Failed) then 1 else 0)
  {
    ExecuteDelivered(o, steps, env);
    var s := Execute(o, steps, env).side;
    var deliveries: seq<(Context, Calls)> :| s == Deliver(Side(map[], [], []), deliveries) && From(deliveries, o, env);
    AtMostOneDeadLetter(deliveries, o.consumerId, e);
    if forall t :: AlwaysSticks(o, env(t)) { AtMostOneSuccess(deliveries, o.consumerId, e); }
    if forall t :: AlwaysBuries(env(t)) { FailedMeansDeadLetter(deliveries, o.consumerId, e); }
  }

  /** The number of handler calls for one entry, stated on its own. */
  lemma HandlerCallsBounded(o: Options, steps: seq<Step>, env: nat -> Calls, entry: nat)
    ensures RunsFor(Execute(o, steps, env).side.runs, entry) <= Limit(o)
  {
    ExecuteInv(o, steps, env);
  }

  // ---- the bound is reached ----------------------------------------------------------------------------

  const ALL_OK := Calls(true, true, true, Throws(true), true, true, true, true, true, true, true, true, true)

  /** Every call succeeds, but the handler throws a retryable error. */
  function AlwaysFailing(t: nat): Calls
  {
    ALL_OK
  }

  /** One event whose handler keeps failing: read once, then claimed `k` times. */
  function FailingRun(k: nat): seq<Step>
  {
    if k == 0 then [Subscribe({"t"}, true), Publish(Event("e", "t")), Consume({})]
    else FailingRun(k - 1) + [Consume({0})]
  }

  /** The entry has been delivered `n` times, and its handler has failed as often. */
  predicate Delivering(w: World, o: Options, n: nat)
  {
    && w.Active() && w.cursor == 1 && w.stream == [Event("e", "t")] && w.pending == map[0 := n] &&
          Matching(w.handlers, "t") == 1
    && !w.side.Terminal(ConsumerKey(o.consumerId, "e")) && RunsFor(w.side.runs, 0) == n
  }

  lemma ReadSingle(w: World, o: Options, env: nat -> Calls)
    requires w.alive && w.cursor == 1 == |w.stream|
    ensures ReadLoop(w, o, 0, env) == ProcessEntry(w, o, 0, 1, env)
  {
    var w' := ProcessEntry(w, o, 0, 1, env);
    ProcessEntryFrame(w, o, 0, 1, env);
    assert ReadLoop(w', o, 1, env) == w';
  }

  lemma FirstRead(o: Options) returns (w: World)
    requires o.batchSize > 0
    ensures w == Execute(o, FailingRun(0), AlwaysFailing) && RunsFor(w.side.runs, 0) == 1
    ensures o.Max() > 1 ==> Delivering(w, o, 1)
  {
    var env := AlwaysFailing;
    var steps := FailingRun(0);
    w := Execute(o, steps, env);
    ExecuteSnoc(o, [], steps[0], env);
    ExecuteSnoc(o, [steps[0]], steps[1], env);
    ExecuteSnoc(o, [steps[0], steps[1]], steps[2], env);
    assert [] + [steps[0]] == [steps[0]] && [steps[0]] + [steps[1]] == [steps[0], steps[1]];
    assert [steps[0], steps[1]] + [steps[2]] == steps;
    var subscribed := START.(handlers := [{"t"}]);
    var ready := subscribed.(stream := [Event("e", "t")]);
    assert Execute(o, [steps[0]], env) == subscribed;
    assert Execute(o, [steps[0], steps[1]], env) == ready;
    assert w == Poll(ready, o, {}, env);
    var fetched := Fetch(ready, o);
    assert fetched.pending == map[0 := 1];
    FailOnce(fetched, o, 1);
    ReadSingle(fetched, o, env);
    assert w == ReadLoop(fetched, o, 0, env);
    assert RunsFor([], 0) == 0;
  }

  /** One failing handler call while attempts are left: the entry stays pending. */
  lemma FailOnce(w: World, o: Options, attempt: int)
    requires |w.stream| == 1 && w.stream[0] == Event("e", "t") && Matching(w.handlers, "t") == 1
    requires !w.side.Terminal(ConsumerKey(o.consumerId, "e"))
    ensures var w' := ProcessEntry(w, o, 0, attempt, AlwaysFailing);
      && RunsFor(w'.side.runs, 0) == RunsFor(w.side.runs, 0) + 1
      && (attempt < o.Max() ==>
            w' == w.(side := w'.side, tick := w'.tick) && !w'.side.Terminal(ConsumerKey(o.consumerId, "e")))
  {
    var env := AlwaysFailing;
    var context := ContextFor(o, 0, "e", attempt, 0);
    var h := HandleOnce(w.side, context, ALL_OK, Unset);
    RunsForAppend(w.side.runs, HandlerRun(context, false), 0);
    assert h.side.runs == w.side.runs + [HandlerRun(context, false)];
    RunHandlersFrame(w, o, 0, "e", attempt, 0, 1, Unset, env);
  }

  /** One more claim is one more failing call, and the entry stays pending while attempts are left. */
  lemma OneMoreClaim(o: Options, k: nat, w: World) returns (w': World)
    requires k > 0 && o.batchSize > 0 && w == Execute(o, FailingRun(k - 1), AlwaysFailing) && Delivering(w, o, k)
    ensures w' == Execute(o, FailingRun(k), AlwaysFailing) && RunsFor(w'.side.runs, 0) == k + 1
    ensures k < o.Max() ==> Delivering(w', o, k + 1)
  {
    var env := AlwaysFailing;
    w' := ProcessEntry(Claim(w, 0), o, 0, k, env);
    FailOnce(Claim(w, 0), o, k);
    PollSingle(w, o, k, env);
    ExecuteSnoc(o, FailingRun(k - 1), Consume({0}), env);
  }

  lemma {:induction false} FailingClaims(o: Options, k: nat) returns (w: World)
    requires o.Max() > 1 && k < o.Max() && o.batchSize > 0
    ensures w == Execute(o, FailingRun(k), AlwaysFailing) && Delivering(w, o, k + 1)
  {
    if k == 0 {
      w := FirstRead(o);
    } else {
      w := FailingClaims(o, k - 1);
      w := OneMoreClaim(o, k, w);
    }
  }

  /** With nothing to read and one idle pending entry, a round claims and handles that entry. */
  lemma PollSingle(w: World, o: Options, k: nat, env: nat -> Calls)
    requires w.Active() && w.cursor == 1 == |w.stream| && w.pending == map[0 := k] && k > 0 && o.batchSize > 0
    ensures Claim(w, 0).pending == map[0 := k + 1]
    ensures Poll(w, o, {0}, env) == ProcessEntry(Claim(w, 0), o, 0, k, env)
  {
    var items := PendingItems(w.pending, 0, 1, o.batchSize);
    assert items == [(0, k)] && items[1..] == [];
    assert Fetch(w, o).cursor == w.cursor;
    var w' := ProcessEntry(Claim(w, 0), o, 0, k, env);
    assert ClaimLoop(w', o, [], {0}, env) == w';
    assert ClaimLoop(w, o, items, {0}, env) == ClaimLoop(w', o, items[1..], {0}, env) by {
      ProcessEntryFrame(Claim(w, 0), o, 0, k, env);
    }
  }

  /** `Limit` handler calls do happen, whatever the number of attempts allowed. */
  lemma BoundReached(o: Options) returns (k: nat)
    requires o.batchSize > 0
    ensures RunsFor(Execute(o, FailingRun(k), AlwaysFailing).side.runs, 0) == Limit(o)
  {
    if o.Max() > 1 {
      k := o.Max();
      var w := FailingClaims(o, k - 1);
      w := OneMoreClaim(o, k, w);
    } else {
      k := 0;
      var w := FirstRead(o);
    }
  }
}
