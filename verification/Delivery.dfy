/** Delivery of one event to one consumer: `EventSubscriber.handle` with its idempotency key, and what
    any sequence of deliveries does to that key, to the handler and to the dead-letter stream. */
module Delivery {
  import opened IdempotencyStore
  import Text

  function ConsumerKey(consumerId: string, eventId: string): string
  {
    "consumer:" + (consumerId + [':'] + eventId)
  }

  /** Keys identify (consumer, event) as long as consumer ids hold no colon; event ids may. */
  lemma ConsumerKeyInjective(c: string, e: string, c': string, e': string)
    requires ':' !in c && ':' !in c'
    ensures ConsumerKey(c, e) == ConsumerKey(c', e') <==> c == c' && e == e'
  {
    Text.FirstSeparatorUnique(c, ':', e, c', e');
    assert ConsumerKey(c, e)[9..] == c + [':'] + e && ConsumerKey(c', e')[9..] == c' + [':'] + e';
  }

  /** With a colon in a consumer id, every event's key is also that of another consumer and event. */
  lemma ConsumerKeyCollision(c: string, k: nat, e: string)
    requires k < |c| && c[k] == ':'
    ensures ConsumerKey(c, e) == ConsumerKey(c[..k], c[k + 1..] + ":" + e) && c[..k] != c
  {
    assert c == c[..k] + ":" + c[k + 1..];
    assert c + ":" + e == c[..k] + ":" + (c[k + 1..] + ":" + e);
  }

  // ---- one delivery ------------------------------------------------------------------------------

  /** What the broker puts into the delivery context. `entry` is the stream entry delivered, `handlerIndex`
      says which of the matching handlers is being called. */
  datatype Context =
    Context(consumerId: string, eventId: string, entry: nat, handlerIndex: nat, attemptCount: int, maxAttempts: int)
  {
    function Key(): string { ConsumerKey(consumerId, eventId) }

    predicate AttemptsLeft() { attemptCount < maxAttempts }
  }

  /** A delivery that marks a key `failed`, unless the key is final before. */
  predicate GivesUp(context: Context, c: Calls)
  {
    c.Runs() && c.Caught() && c.setAfterError && !(context.AttemptsLeft() && c.Retryable())
  }

  /** A delivery that gives up, gets its dead letter through, and returns. */
  predicate Buried(context: Context, c: Calls)
  {
    GivesUp(context, c) && c.Buries() && c.recordDead && c.setFailed
  }

  /** A delivery that leaves the event for another attempt, and returns. */
  predicate PutOff(context: Context, c: Calls)
  {
    c.Runs() && c.Caught() && context.AttemptsLeft() && c.Retryable() && c.setAfterError && c.recordAfterError
  }

  /** A success of the handler sticks: its key becomes `processed`, or else `failed`. */
  predicate Sticks(context: Context, c: Calls)
  {
    c.Runs() && c.handler.Returns? ==> c.Recorded() || GivesUp(context, c)
  }

  datatype HandlerResult = Returns | Throws(retryable: bool)

  /** How the awaited calls of one delivery turn out: `true` is success. A call that throws has no effect.
      `callErrorRetryable` is the retryable bit that `normalizeDeliveryError` finds in what a failing
      store or archive call inside the try block throws. */
  datatype Calls = Calls(
    get: bool, begin: bool, recordBegin: bool, handler: HandlerResult, setProcessed: bool, recordProcessed: bool,
    callErrorRetryable: bool, setAfterError: bool, recordAfterError: bool, publishDead: bool, recordDead: bool,
    setFailed: bool, xack: bool)
  {
    /** Under a key that is not final, the handler gets to run. */
    predicate Runs()
    {
      get && begin && recordBegin
    }

    /** The handler returns, and everything that goes with it succeeds. */
    predicate Succeeds()
    {
      Runs() && handler.Returns? && setProcessed && recordProcessed
    }

    /** A success of the handler gets through to the key. */
    predicate Recorded()
    {
      setProcessed && (recordProcessed || !setAfterError)
    }

    /** The error that is caught, from the handler or from a call behind it, can be retried. */
    predicate Retryable()
    {
      if handler.Throws? then handler.retryable else callErrorRetryable
    }

    /** Something is caught. */
    predicate Caught()
    {
      handler.Throws? || !setProcessed || !recordProcessed
    }

    /** A caught error that is not to be retried is recorded and gets its dead letter. */
    predicate Buries()
    {
      recordAfterError && publishDead
    }
  }

  datatype Outcome = Unset | Acked | Retry | DeadLettered
  datatype HandlerRun = HandlerRun(context: Context, succeeded: bool)
  datatype DeadLetter = DeadLetter(consumerId: string, eventId: string)

  /** The keys, the dead-letter stream, and the history of handler calls. */
  datatype Side = Side(store: map<string, State>, deadLetters: seq<DeadLetter>, runs: seq<HandlerRun>)
  {
    function Put(key: string, state: State): Side
    {
      this.(store := store[key := state])
    }

    predicate Has(key: string, state: State)
    {
      key in store && store[key] == state
    }

    predicate Terminal(key: string)
    {
      Has(key, Processed) || Has(key, Failed)
    }
  }

  datatype Handled = Handled(side: Side, outcome: Outcome, threw: bool)

  /** `EventSubscriber.handle`. */
  function HandleOnce(s: Side, context: Context, c: Calls, outcome: Outcome): Handled
  {
    var key := context.Key();
    if !c.get then Handled(s, outcome, true)
    else if s.Has(key, Processed) then Handled(s, Acked, false)
    else if s.Has(key, Failed) then Handled(s, DeadLettered, false)
    else if !c.begin then Handled(s, outcome, true)
    else
      var begun := s.Put(key, Processing);
      if !c.recordBegin then Handled(begun, outcome, true) else AttemptOnce(begun, context, c, outcome)
  }

  /** Its try block: the handler runs, and its success is recorded. */
  function AttemptOnce(s: Side, context: Context, c: Calls, outcome: Outcome): Handled
  {
    var key := context.Key();
    var ran := s.(runs := s.runs + [HandlerRun(context, c.handler.Returns?)]);
    match c.handler
    case Throws(retryable) => RecoverOnce(ran, context, c, outcome, retryable)
    case Returns =>
      if !c.setProcessed then RecoverOnce(ran, context, c, Acked, c.callErrorRetryable)
      else if !c.recordProcessed then RecoverOnce(ran.Put(key, Processed), context, c, Acked, c.callErrorRetryable)
      else Handled(ran.Put(key, Processed), Acked, false)
  }

  /** Its catch block. */
  function RecoverOnce(s: Side, context: Context, c: Calls, outcome: Outcome, retryable: bool): Handled
  {
    var key := context.Key();
    var shouldRetry := context.attemptCount < context.maxAttempts && retryable;
    if !c.setAfterError then Handled(s, outcome, true)
    else
      var marked := s.Put(key, if shouldRetry then Processing else Failed);
      if !c.recordAfterError then Handled(marked, outcome, true)
      else if shouldRetry then Handled(marked, Retry, false)
      else if !c.publishDead then Handled(marked, outcome, true)
      else
        var buried := marked.(deadLetters := marked.deadLetters + [DeadLetter(context.consumerId, context.eventId)]);
        if !c.recordDead || !c.setFailed then Handled(buried, outcome, true)
        else Handled(buried.Put(key, Failed), DeadLettered, false)
  }

  class EventSubscriber {
    var store: map<string, State>
    var deadLetters: seq<DeadLetter>
    ghost var runs: seq<HandlerRun>

    ghost function View(): Side
      reads this
    {
      Side(store, deadLetters, runs)
    }

    constructor ()
      ensures View() == Side(map[], [], [])
    {
      store, deadLetters, runs := map[], [], [];
    }

    /** The handler wrapper that `subscribe` registers, with its try/catch written out. */
    method Handle(context: Context, c: Calls, before: Outcome) returns (outcome: Outcome, threw: bool)
      modifies this
      ensures Handled(View(), outcome, threw) == HandleOnce(old(View()), context, c, before)
    {
      var key := ConsumerKey(context.consumerId, context.eventId);
      outcome, threw := before, true;
      if !c.get { return; }
      if key in store && store[key] == Processed { return Acked, false; }
      if key in store && store[key] == Failed { return DeadLettered, false; }
      if !c.begin { return; }
      store := store[key := Processing];
      if !c.recordBegin { return; }
      outcome, threw := Attempt(context, c, before);
    }

    method Attempt(context: Context, c: Calls, before: Outcome) returns (outcome: Outcome, threw: bool)
      modifies this
      ensures Handled(View(), outcome, threw) == AttemptOnce(old(View()), context, c, before)
    {
      var key := ConsumerKey(context.consumerId, context.eventId);
      outcome, threw := before, false;
      var caught := false;
      var retryable := c.callErrorRetryable;
      runs := runs + [HandlerRun(context, c.handler.Returns?)];
      if c.handler.Throws? {
        caught, retryable := true, c.handler.retryable;
      } else {
        outcome := Acked;
        if c.setProcessed {
          store := store[key := Processed];
        }
        caught := !c.setProcessed || !c.recordProcessed;
      }
      if caught {
        outcome, threw := Recover(context, c, outcome, retryable);
      }
    }

    method Recover(context: Context, c: Calls, before: Outcome, retryable: bool) returns (outcome: Outcome, threw: bool)
      modifies this
      ensures Handled(View(), outcome, threw) == RecoverOnce(old(View()), context, c, before, retryable)
    {
      var key := ConsumerKey(context.consumerId, context.eventId);
      outcome, threw := before, true;
      var shouldRetry := context.attemptCount < context.maxAttempts && retryable;
      if !c.setAfterError { return; }
      store := store[key := if shouldRetry then Processing else Failed];
      if !c.recordAfterError { return; }
      if shouldRetry { return Retry, false; }
      if !c.publishDead { return; }
      deadLetters := deadLetters + [DeadLetter(context.consumerId, context.eventId)];
      if !c.recordDead { return; }
      if !c.setFailed { return; }
      store := store[key := Failed];
      return DeadLettered, false;
    }
  }

  // ---- what one delivery guarantees ----------------------------------------------------------------

  lemma RecoverOutcome(s: Side, context: Context, c: Calls, before: Outcome, retryable: bool)
    ensures var h := RecoverOnce(s, context, c, before, retryable);
      !h.threw ==>
        || (h.outcome == Retry && h.side.Has(context.Key(), Processing))
        || (h.outcome == DeadLettered && h.side.Has(context.Key(), Failed))
  {
  }

  /** The outcome that makes the broker acknowledge is only set once the key is in a final state, whatever
      call fails, and it says which. */
  lemma OutcomeMeansState(s: Side, context: Context, c: Calls, before: Outcome)
    ensures var h := HandleOnce(s, context, c, before);
      !h.threw ==>
        && (h.outcome == Acked <==> h.side.Has(context.Key(), Processed))
        && (h.outcome == DeadLettered <==> h.side.Has(context.Key(), Failed))
        && (h.outcome == Retry <==> h.side.Has(context.Key(), Processing))
  {
    var begun := s.Put(context.Key(), Processing);
    var ran := begun.(runs := begun.runs + [HandlerRun(context, c.handler.Returns?)]);
    RecoverOutcome(ran, context, c, if c.handler.Throws? then before else Acked, c.Retryable());
    RecoverOutcome(ran.Put(context.Key(), Processed), context, c, Acked, c.Retryable());
  }

  /** From the calls alone, under a key that is not final: when a delivery throws, and what it comes to otherwise. */
  lemma OutcomeExactly(s: Side, context: Context, c: Calls, before: Outcome)
    requires !s.Terminal(context.Key())
    ensures var h := HandleOnce(s, context, c, before);
      && (h.threw <==> !c.Succeeds() && !PutOff(context, c) && !Buried(context, c))
      && (!h.threw ==>
            h.outcome == if c.Succeeds() then Acked else if PutOff(context, c) then Retry else DeadLettered)
  {
    var begun := s.Put(context.Key(), Processing);
    var ran := begun.(runs := begun.runs + [HandlerRun(context, c.handler.Returns?)]);
    RecoverOutcome(ran, context, c, if c.handler.Throws? then before else Acked, c.Retryable());
    RecoverOutcome(ran.Put(context.Key(), Processed), context, c, Acked, c.Retryable());
  }

  /** Final states are absorbing: a delivery under one changes nothing. */
  lemma FinalStatesAbsorb(s: Side, context: Context, c: Calls, before: Outcome)
    requires s.Terminal(context.Key())
    ensures var h := HandleOnce(s, context, c, before);
      && h.side == s && (h.threw <==> !c.get)
      && (c.get ==> h.outcome == if s.Has(context.Key(), Processed) then Acked else DeadLettered)
  {
  }

  /** Two states agree on a key. */
  predicate SameAt(s: Side, t: Side, key: string)
  {
    (key in s.store <==> key in t.store) && (key in s.store ==> s.store[key] == t.store[key])
  }

  /** A delivery touches no key but its own. */
  lemma OtherKeysKept(s: Side, context: Context, c: Calls, before: Outcome, key: string)
    requires key != context.Key()
    ensures SameAt(s, HandleOnce(s, context, c, before).side, key)
  {
    if !s.Terminal(context.Key()) {
      var begun := s.Put(context.Key(), Processing);
      var ran := begun.(runs := begun.runs + [HandlerRun(context, c.handler.Returns?)]);
      var r := if c.handler.Throws? then c.handler.retryable else c.callErrorRetryable;
      var o := if c.handler.Throws? then before else Acked;
      RecoverOtherKeys(ran, context, c, o, r, key);
      RecoverOtherKeys(ran.Put(context.Key(), Processed), context, c, o, r, key);
    }
  }

  lemma RecoverOtherKeys(s: Side, context: Context, c: Calls, before: Outcome, retryable: bool, key: string)
    requires key != context.Key()
    ensures SameAt(s, RecoverOnce(s, context, c, before, retryable).side, key)
  {
  }

  // ---- any sequence of deliveries -------------------------------------------------------------------

  function Deliver(s: Side, deliveries: seq<(Context, Calls)>): Side
  {
    if deliveries == [] then s
    else
      var last := deliveries[|deliveries| - 1];
      HandleOnce(Deliver(s, deliveries[..|deliveries| - 1]), last.0, last.1, Unset).side
  }

  /** How often the handler of a consumer succeeded on an event. */
  function Successes(runs: seq<HandlerRun>, c: string, e: string): nat
  {
    if runs == [] then 0
    else
      var last := runs[|runs| - 1];
      Successes(runs[..|runs| - 1], c, e) +
      (if last.succeeded && last.context.consumerId == c && last.context.eventId == e then 1 else 0)
  }

  function DeadLettersFor(letters: seq<DeadLetter>, c: string, e: string): nat
  {
    if letters == [] then 0
    else DeadLettersFor(letters[..|letters| - 1], c, e) + (if letters[|letters| - 1] == DeadLetter(c, e) then 1 else 0)
  }

  lemma SuccessesAppend(runs: seq<HandlerRun>, run: HandlerRun, c: string, e: string)
    ensures Successes(runs + [run], c, e) == Successes(runs, c, e) +
      (if run.succeeded && run.context.consumerId == c && run.context.eventId == e then 1 else 0)
  {
    assert (runs + [run])[..|runs|] == runs;
  }

  lemma DeadLettersAppend(letters: seq<DeadLetter>, letter: DeadLetter, c: string, e: string)
    ensures DeadLettersFor(letters + [letter], c, e) ==
      DeadLettersFor(letters, c, e) + (if letter == DeadLetter(c, e) then 1 else 0)
  {
    assert (letters + [letter])[..|letters|] == letters;
  }

  /** A success is counted at most once, and only under a final key. */
  ghost predicate SuccessesBounded(s: Side, c: string, e: string)
  {
    Successes(s.runs, c, e) <= if s.Terminal(ConsumerKey(c, e)) then 1 else 0
  }

  /** A dead letter is written at most once, and only under a key that says so. */
  ghost predicate DeadLettersBounded(s: Side, c: string, e: string)
  {
    DeadLettersFor(s.deadLetters, c, e) <= if s.Has(ConsumerKey(c, e), Failed) then 1 else 0
  }

  lemma RecoverExactly(s: Side, context: Context, c: Calls, before: Outcome)
    requires !s.Has(context.Key(), Failed)
    ensures var h := RecoverOnce(s, context, c, before, c.Retryable()).side;
      var gives := c.setAfterError && !(context.AttemptsLeft() && c.Retryable());
      && h.runs == s.runs
      && (h.Has(context.Key(), Processed) <==> s.Has(context.Key(), Processed) && !c.setAfterError)
      && (h.Has(context.Key(), Failed) <==> gives)
      && h.deadLetters == s.deadLetters +
           (if gives && c.Buries() then [DeadLetter(context.consumerId, context.eventId)] else [])
  {
  }

  /** What a delivery under a key that is not final does, by its calls alone: when the handler runs, and what becomes
      of the key and of the dead letters. */
  lemma HandleExactly(s: Side, context: Context, c: Calls, before: Outcome)
    requires !s.Terminal(context.Key())
    ensures var h := HandleOnce(s, context, c, before).side;
      && h.runs == s.runs + (if c.Runs() then [HandlerRun(context, c.handler.Returns?)] else [])
      && (h.Has(context.Key(), Processed) <==> c.Runs() && c.handler.Returns? && c.Recorded())
      && (h.Has(context.Key(), Failed) <==> GivesUp(context, c))
      && h.deadLetters == s.deadLetters +
           (if GivesUp(context, c) && c.Buries() then [DeadLetter(context.consumerId, context.eventId)] else [])
  {
    var begun := s.Put(context.Key(), Processing);
    var ran := begun.(runs := begun.runs + [HandlerRun(context, c.handler.Returns?)]);
    RecoverExactly(ran, context, c, if c.handler.Throws? then before else Acked);
    RecoverExactly(ran.Put(context.Key(), Processed), context, c, Acked);
  }

  lemma HandleSuccesses(s: Side, context: Context, k: Calls, before: Outcome, c: string, e: string)
    requires ':' !in context.consumerId && ':' !in c && Sticks(context, k)
    requires SuccessesBounded(s, c, e)
    ensures SuccessesBounded(HandleOnce(s, context, k, before).side, c, e)
  {
    ConsumerKeyInjective(context.consumerId, context.eventId, c, e);
    if s.Terminal(context.Key()) {
      FinalStatesAbsorb(s, context, k, before);
    } else {
      HandleExactly(s, context, k, before);
      OtherKeyKept(s, context, k, before, ConsumerKey(c, e));
      SuccessesAppend(s.runs, HandlerRun(context, k.handler.Returns?), c, e);
    }
  }

  lemma OtherKeyKept(s: Side, context: Context, k: Calls, before: Outcome, key: string)
    ensures key == context.Key() || SameAt(s, HandleOnce(s, context, k, before).side, key)
  {
    if key != context.Key() { OtherKeysKept(s, context, k, before, key); }
  }

  lemma HandleDeadLetters(s: Side, context: Context, k: Calls, before: Outcome, c: string, e: string)
    requires ':' !in context.consumerId && ':' !in c
    requires DeadLettersBounded(s, c, e)
    ensures DeadLettersBounded(HandleOnce(s, context, k, before).side, c, e)
  {
    ConsumerKeyInjective(context.consumerId, context.eventId, c, e);
    if s.Terminal(context.Key()) {
      FinalStatesAbsorb(s, context, k, before);
    } else {
      HandleExactly(s, context, k, before);
      OtherKeyKept(s, context, k, before, ConsumerKey(c, e));
      DeadLettersAppend(s.deadLetters, DeadLetter(context.consumerId, context.eventId), c, e);
    }
  }

  /** Over any deliveries (redeliveries, duplicate entries, other consumers, any attempt counts): the handler
      succeeds at most once per (consumer, event), if every success sticks. */
  lemma {:induction false} AtMostOneSuccess(deliveries: seq<(Context, Calls)>, c: string, e: string)
    requires ':' !in c
    requires forall i :: 0 <= i < |deliveries| ==>
      ':' !in deliveries[i].0.consumerId && Sticks(deliveries[i].0, deliveries[i].1)
    ensures SuccessesBounded(Deliver(Side(map[], [], []), deliveries), c, e)
  {
    if deliveries == [] {
    } else {
      var n := |deliveries| - 1;
      AtMostOneSuccess(deliveries[..n], c, e);
      HandleSuccesses(Deliver(Side(map[], [], []), deliveries[..n]), deliveries[n].0, deliveries[n].1, Unset, c, e);
    }
  }

  /** At most one dead letter per (consumer, event), no matter which calls fail. */
  lemma {:induction false} AtMostOneDeadLetter(deliveries: seq<(Context, Calls)>, c: string, e: string)
    requires ':' !in c
    requires forall i :: 0 <= i < |deliveries| ==> ':' !in deliveries[i].0.consumerId
    ensures DeadLettersBounded(Deliver(Side(map[], [], []), deliveries), c, e)
  {
    if deliveries == [] {
    } else {
      var n := |deliveries| - 1;
      AtMostOneDeadLetter(deliveries[..n], c, e);
      HandleDeadLetters(Deliver(Side(map[], [], []), deliveries[..n]), deliveries[n].0, deliveries[n].1, Unset, c, e);
    }
  }

  ghost predicate DeadLetterIffFailed(s: Side, c: string, e: string)
  {
    DeadLettersFor(s.deadLetters, c, e) == if s.Has(ConsumerKey(c, e), Failed) then 1 else 0
  }

  lemma HandleBurials(s: Side, context: Context, k: Calls, before: Outcome, c: string, e: string)
    requires ':' !in context.consumerId && ':' !in c && (GivesUp(context, k) ==> k.Buries())
    requires DeadLetterIffFailed(s, c, e)
    ensures DeadLetterIffFailed(HandleOnce(s, context, k, before).side, c, e)
  {
    ConsumerKeyInjective(context.consumerId, context.eventId, c, e);
    if s.Terminal(context.Key()) {
      FinalStatesAbsorb(s, context, k, before);
    } else {
      HandleExactly(s, context, k, before);
      OtherKeyKept(s, context, k, before, ConsumerKey(c, e));
      DeadLettersAppend(s.deadLetters, DeadLetter(context.consumerId, context.eventId), c, e);
    }
  }

  /** When every delivery that gives up gets its error recorded and its dead letter written, a key is `failed` exactly
      when its dead letter has been written. */
  lemma {:induction false} FailedMeansDeadLetter(deliveries: seq<(Context, Calls)>, c: string, e: string)
    requires ':' !in c
    requires forall i :: 0 <= i < |deliveries| ==>
      ':' !in deliveries[i].0.consumerId && (GivesUp(deliveries[i].0, deliveries[i].1) ==> deliveries[i].1.Buries())
    ensures DeadLetterIffFailed(Deliver(Side(map[], [], []), deliveries), c, e)
  {
    if deliveries == [] {
    } else {
      var n := |deliveries| - 1;
      FailedMeansDeadLetter(deliveries[..n], c, e);
      HandleBurials(Deliver(Side(map[], [], []), deliveries[..n]), deliveries[n].0, deliveries[n].1, Unset, c, e);
    }
  }

  /** When the last attempt (or a non-retryable one) fails and no other call does, the event is buried. */
  lemma LastAttemptBuries(s: Side, context: Context, c: Calls, before: Outcome)
    requires c.Runs() && c.setAfterError && c.Buries() && c.recordDead && c.setFailed
    requires !s.Terminal(context.Key()) && c.handler.Throws?
    ensures var h := HandleOnce(s, context, c, before);
      && (h.outcome == DeadLettered <==> !context.AttemptsLeft() || !c.handler.retryable)
      && h.side.deadLetters == s.deadLetters +
           (if h.outcome == DeadLettered then [DeadLetter(context.consumerId, context.eventId)] else [])
  {
  }

  /** That condition on a delivery that gives up is exact: the key is `failed` whenever it gives up, and the letter is
      missing exactly when the archive write before it, or the dead-letter write itself, throws. */
  lemma FailedWithoutDeadLetter(s: Side, context: Context, c: Calls, before: Outcome)
    requires !s.Terminal(context.Key())
    ensures var h := HandleOnce(s, context, c, before).side;
      h.Has(context.Key(), Failed) && h.deadLetters == s.deadLetters <==> GivesUp(context, c) && !c.Buries()
  {
    HandleExactly(s, context, c, before);
    assert |s.deadLetters + [DeadLetter(context.consumerId, context.eventId)]| > |s.deadLetters|;
  }

  /** So is the condition that a success sticks: after a success the key is not final, and the next delivery of the
      event runs the handler again, exactly when it does not. */
  lemma LostSuccessRunsAgain(s: Side, context: Context, c: Calls, before: Outcome, again: Context, c': Calls,
      before': Outcome)
    requires !s.Terminal(context.Key()) && c.Runs() && c.handler.Returns?
    requires again.Key() == context.Key() && c'.Runs()
    ensures var h := HandleOnce(s, context, c, before).side;
      && (h.Has(context.Key(), Processed) <==> c.Recorded())
      && (!h.Terminal(context.Key()) <==> !Sticks(context, c))
      && HandleOnce(h, again, c', before').side.runs ==
           h.runs + (if Sticks(context, c) then [] else [HandlerRun(again, c'.handler.Returns?)])
  {
    var h := HandleOnce(s, context, c, before).side;
    HandleExactly(s, context, c, before);
    if h.Terminal(again.Key()) {
      FinalStatesAbsorb(h, again, c', before');
    } else {
      HandleExactly(h, again, c', before');
    }
  }
}
