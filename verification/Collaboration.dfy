/** The collaboration consumer on the in-memory event broker: publishing is synchronous, so handling one
    event can publish, and thereby handle, further ones. Store, archive and publish calls succeed here;
    sending and updating cards and writing artifacts may fail. */
module Collaboration {
  import opened Wrappers
  import opened IdempotencyStore
  import Delivery
  import Text

  datatype Action = Acknowledge | Claim | MarkFixed
  datatype Target = Target(targetType: string, targetId: string)

  /** The events involved. `Progress` and `NotificationFailed` have no subscriber here. */
  datatype Event =
    | Timeout(id: string, notificationId: Option<string>, messageId: Option<string>)
    | Escalation(id: string, notificationId: Option<string>, message: string, targetType: Option<string>,
      targetId: Option<string>)
    | NotificationSent(id: string, notificationId: Option<string>, messageId: Option<string>,
      escalationMessageId: Option<string>)
    | CardAction(id: string, message: string, action: Option<Action>, actionValue: Option<string>)
    | Replied(id: string, message: string, latestReply: Option<string>)
    | Progress(id: string, message: string)
    | NotificationFailed(id: string, notificationId: Option<string>)

  datatype Options = Options(consumerId: string, maxAttempts: int, target: Option<Target>, artifacts: bool)

  /** What `sendCard` does: answers (with the id of the message sent), or throws. */
  datatype CardResult = CardSent(messageId: Option<string>) | CardFailed | CardThrows

  /** What the next outside call does, and the id that a new event would get. */
  datatype Reaction = Reaction(card: CardResult, updateOk: bool, artifactOk: bool, retryable: bool, freshId: string)

  /** What there is to count: an escalation raised for a timeout key, and cards by their send key. */
  datatype Entry = Escalated(key: string) | Sent(key: string) | NotSent(key: string)

  /** The idempotency store, and what has been raised and sent. */
  datatype Ledger = Ledger(store: map<string, State>, log: seq<Entry>)
  {
    function Put(key: string, state: State): Ledger { this.(store := store[key := state]) }

    function Note(entry: Entry): Ledger { this.(log := log + [entry]) }

    predicate Busy(key: string) { key in store && store[key] != Failed }
  }

  datatype World = World(ledger: Ledger, published: seq<Event>, deadLetters: seq<string>, tick: nat)
  {
    function Put(key: string, state: State): World { this.(ledger := ledger.Put(key, state)) }

    function Note(entry: Entry): World { this.(ledger := ledger.Note(entry)) }

    function Tick(): World { this.(tick := tick + 1) }

    predicate Busy(key: string) { ledger.Busy(key) }
  }

  /** A handler's result; `Some` is a throw, with the retryable bit of the error. */
  datatype Result = Result(w: World, error: Option<bool>)

  // ---- keys ------------------------------------------------------------------------------------------------

  /** `value?.trim() || fallback`. */
  function TrimOr(value: Option<string>, fallback: string): string
  {
    if value.Some? && Text.Trim(value.value) != "" then Text.Trim(value.value) else fallback
  }

  function TimeoutKey(notificationId: Option<string>, message: string): string
  {
    "collaboration:timeout:" + TrimOr(notificationId, message)
  }

  function SendKey(notificationId: Option<string>, message: string, target: Target): string
  {
    "collaboration:escalation:" + (TrimOr(notificationId, message) + ":" + target.targetType + ":" + target.targetId)
  }

  function SentKey(notificationId: Option<string>, message: string, status: string): string
  {
    "collaboration:notification-sent:" + (TrimOr(notificationId, message) + ":" + status + ":" + message)
  }

  function ActionName(action: Action): string
  {
    match action
    case Acknowledge => "acknowledge"
    case Claim => "claim"
    case MarkFixed => "mark_fixed"
  }

  function ActionKey(message: string, action: Action, value: Option<string>): string
  {
    "collaboration:action:" + (message + ":" + ActionName(action) + ":" + OrEmpty(value))
  }

  /** `value ?? ""`. */
  function OrEmpty(value: Option<string>): string
  {
    if value.Some? then value.value else ""
  }

  /** A timeout without a notification id shares its key with those of the same message, and also with those whose
      notification id is that message, whatever theirs. */
  lemma TimeoutKeysShared(message: string, n': Option<string>, m': string)
    ensures TimeoutKey(None, message) == TimeoutKey(n', m') <==>
      if n'.Some? && Text.Trim(n'.value) != "" then Text.Trim(n'.value) == message else m' == message
  {
    assert TimeoutKey(None, message)[22..] == message && TimeoutKey(n', m')[22..] == TrimOr(n', m');
  }

  /** Notification `a` takes part of what is the target of `a'`: it is longer by a target type, and perhaps more, with
      which the other's target id begins. */
  predicate Absorbs(a': string, t': Target, a: string, t: Target)
  {
    var longer := a + ":" + t.targetType;
    || (a' == longer && t.targetId == t'.targetType + ":" + t'.targetId)
    || (longer + ":" <= a' && t.targetId == a'[|longer| + 1..] + ":" + t'.targetType + ":" + t'.targetId)
  }

  /** Target types hold no colon (they are chat, group and user). Escalations share a key, so that only the first gets
      its card, exactly when they share notification and target, or one notification absorbs a part of the other's
      target id; which takes a colon in both of these. */
  lemma SendKeysShared(n: Option<string>, m: string, t: Target, n': Option<string>, m': string, t': Target)
    requires ':' !in t.targetType && ':' !in t'.targetType
    ensures var a, a' := TrimOr(n, m), TrimOr(n', m');
      && (SendKey(n, m, t) == SendKey(n', m', t') <==>
            (a == a' && t == t') || Absorbs(a', t', a, t) || Absorbs(a, t, a', t'))
      && (Absorbs(a', t', a, t) ==> ':' in a' && ':' in t.targetId)
  {
    var a, a' := TrimOr(n, m), TrimOr(n', m');
    assert SendKey(n, m, t)[25..] == Parts(a, t) && SendKey(n', m', t')[25..] == Parts(a', t');
    if |a| <= |a'| { PartsShared(a, t, a', t'); } else { PartsShared(a', t', a, t); }
    ShorterDoesNotAbsorb(a, t, a', t');
    ShorterDoesNotAbsorb(a', t', a, t);
  }

  function Parts(a: string, t: Target): string
  {
    a + ":" + t.targetType + ":" + t.targetId
  }

  lemma ShorterDoesNotAbsorb(a: string, t: Target, a': string, t': Target)
    ensures Absorbs(a', t', a, t) ==> |a| < |a'| && ':' in a' && ':' in t.targetId
  {
    if Absorbs(a', t', a, t) {
      assert a'[|a|] == (a + ":" + t.targetType)[|a|] == ':';
      assert t.targetId[|t.targetId| - |t'.targetId| - 1] == ':';
    }
  }

  lemma PartsShared(a: string, t: Target, a': string, t': Target)
    requires ':' !in t.targetType && ':' !in t'.targetType && |a| <= |a'|
    ensures Parts(a, t) == Parts(a', t') <==> (a == a' && t == t') || Absorbs(a', t', a, t)
  {
    var b, c, b', c' := t.targetType, t.targetId, t'.targetType, t'.targetId;
    PartsSplit(a, t);
    PartsSplit(a', t');
    if Parts(a, t) == Parts(a', t') {
      var s, rest := Parts(a, t), b + ":" + c;
      assert a == s[..|a|] && a' == s[..|a'|];
      if |a| == |a'| {
        assert b + ":" + c == s[|a| + 1..] == b' + ":" + c';
        Text.FirstSeparatorUnique(b, ':', c, b', c');
      } else {
        var u := a'[|a| + 1..];
        assert a'[|a|] == s[|a|] == ':';
        assert a' == a + ":" + u;
        assert rest == s[|a| + 1..] == u + ":" + b' + ":" + c';
        UseOfTarget(b, c, u, b' + ":" + c');
        AbsorbsPart(a, t, u, t');
      }
    } else if a == a' && t == t' {
    } else if Absorbs(a', t', a, t) {
      AbsorbedShares(a, t, a', t');
    }
  }

  lemma PartsSplit(a: string, t: Target)
    ensures Parts(a, t) == a + [':'] + (t.targetType + ":" + t.targetId)
  {
  }

  /** A text that is read as type and id, and also as `u` and the rest, has the type in front of `u`. */
  lemma UseOfTarget(b: string, c: string, u: string, rest: string)
    requires ':' !in b && (b + ":" + c == u + ":" + rest)
    ensures (u == b && c == rest) || (b + ":" <= u && c == u[|b| + 1..] + ":" + rest)
  {
    var s := b + ":" + c;
    assert (u + ":" + rest)[|u|] == ':';
    assert forall i :: 0 <= i < |b| ==> s[i] == b[i];
    assert |b| <= |u|;
    if |u| == |b| {
      assert u == s[..|b|] && c == s[|b| + 1..] == rest;
    } else {
      assert u == s[..|u|] && s[|b|] == ':';
      assert u[..|b| + 1] == b + ":";
      assert c == s[|b| + 1..] == u[|b| + 1..] + ":" + rest;
    }
  }

  lemma AbsorbsPart(a: string, t: Target, u: string, t': Target)
    requires var rest := t'.targetType + ":" + t'.targetId; var b := t.targetType;
      (u == b && t.targetId == rest) || (b + ":" <= u && t.targetId == u[|b| + 1..] + ":" + rest)
    ensures Absorbs(a + ":" + u, t', a, t)
  {
    var b, longer, a' := t.targetType, a + ":" + t.targetType, a + ":" + u;
    if b + ":" <= u {
      assert u == b + ":" + u[|b| + 1..];
      assert a' == longer + ":" + u[|b| + 1..];
      assert a'[|longer| + 1..] == u[|b| + 1..];
    }
  }

  lemma AbsorbedShares(a: string, t: Target, a': string, t': Target)
    requires Absorbs(a', t', a, t)
    ensures Parts(a, t) == Parts(a', t')
  {
    var longer := a + ":" + t.targetType;
    if a' != longer {
      var y := a'[|longer| + 1..];
      assert a' == longer + ":" + y;
      assert Parts(a, t) == longer + ":" + (y + ":" + t'.targetType + ":" + t'.targetId);
    }
  }

  /** Two families of such pairs, for all notifications, types and ids. */
  lemma SendKeyCollision(x: string, y: string, z: string, targetType: string, otherType: string)
    ensures SendKey(None, x, Target(targetType, otherType + ":" + z)) ==
      SendKey(None, x + ":" + targetType, Target(otherType, z))
    ensures SendKey(None, x, Target(targetType, y + ":" + otherType + ":" + z)) ==
      SendKey(None, x + ":" + targetType + ":" + y, Target(otherType, z))
  {
    var longer := x + ":" + targetType;
    AbsorbedShares(x, Target(targetType, otherType + ":" + z), longer, Target(otherType, z));
    assert (longer + ":" + y)[|longer| + 1..] == y && longer + ":" <= longer + ":" + y;
    AbsorbedShares(x, Target(targetType, y + ":" + otherType + ":" + z), longer + ":" + y, Target(otherType, z));
  }

  /** Keys of the handlers tell each other apart, and from the subscriber's keys, by their first letters. */
  datatype Family = TimeoutFamily | SendFamily | OtherFamily

  function FamilyOf(key: string): Family
  {
    if Text.StartsWith(key, "collaboration:t") then TimeoutFamily
    else if Text.StartsWith(key, "collaboration:e") then SendFamily
    else OtherFamily
  }

  lemma KeyFamilies(n: Option<string>, m: string, t: Target, status: string, a: Action, v: Option<string>, c: string,
      e: string)
    ensures FamilyOf(TimeoutKey(n, m)) == TimeoutFamily
    ensures FamilyOf(SendKey(n, m, t)) == SendFamily
    ensures FamilyOf(SentKey(n, m, status)) == OtherFamily
    ensures FamilyOf(ActionKey(m, a, v)) == OtherFamily
    ensures FamilyOf(Delivery.ConsumerKey(c, e)) == OtherFamily
  {
    assert TimeoutKey(n, m)[..15] == "collaboration:t";
    assert SendKey(n, m, t)[..15] == "collaboration:e";
    assert SentKey(n, m, status)[14] == 'n';
    assert ActionKey(m, a, v)[14] == 'a';
    assert Delivery.ConsumerKey(c, e)[2] == 'n';
    assert "collaboration:t"[2] == 'l' && "collaboration:e"[2] == 'l';
    assert "collaboration:t"[14] == 't' && "collaboration:e"[14] == 'e';
  }

  // ---- publishing and handling -----------------------------------------------------------------------------

  /** How deep publishing an event can re-enter: every handler publishes events of a lower rank only. */
  function Rank(e: Event): nat
  {
    match e
    case Timeout(_, _, _) => 3
    case Escalation(_, _, _, _, _) => 2
    case NotificationSent(_, _, _, _) => 1
    case CardAction(_, _, _, _) => 1
    case Replied(_, _, _) => 1
    case Progress(_, _) => 0
    case NotificationFailed(_, _) => 0
  }

  /** `MemoryEventBroker.publish` with the consumer's subscription. */
  function Publish(w: World, o: Options, e: Event, env: nat -> Reaction): World
    decreases Rank(e), 2
  {
    var w1 := w.(published := w.published + [e]);
    if Rank(e) == 0 then w1 else Subscriber(w1, o, e, env)
  }

  /** The subscriber's wrapper. A broker in memory delivers once, with attempt count 1. */
  function Subscriber(w: World, o: Options, e: Event, env: nat -> Reaction): World
    requires Rank(e) > 0
    decreases Rank(e), 1
  {
    var key := Delivery.ConsumerKey(o.consumerId, e.id);
    if key in w.ledger.store && w.ledger.store[key] != Processing then w
    else
      var r := Handle(w.Put(key, Processing), o, e, env);
      if r.error.None? then r.w.Put(key, Processed)
      else if 1 < o.maxAttempts && r.error.value then r.w.Put(key, Processing)
      else r.w.Put(key, Failed).(deadLetters := r.w.deadLetters + [e.id])
  }

  function Handle(w: World, o: Options, e: Event, env: nat -> Reaction): Result
    requires Rank(e) > 0
    decreases Rank(e), 0
  {
    match e
    case Timeout(_, _, _) => HandleTimeout(w, o, e, env)
    case Escalation(_, _, _, _, _) => HandleEscalation(w, o, e, env)
    case NotificationSent(_, _, _, _) => HandleSent(w, o, e, env)
    case CardAction(_, _, _, _) => HandleCardAction(w, o, e, env)
    case Replied(_, message, latestReply) =>
      if latestReply.None? || Text.Trim(latestReply.value) == "" then Result(w, None)
      else PublishProgress(w, o, message, env)
  }

  /** `publishProgressUpdated`: the artifact first, then the event. */
  function PublishProgress(w: World, o: Options, message: string, env: nat -> Reaction): Result
  {
    if o.artifacts && !env(w.tick).artifactOk then Result(w.Tick(), Some(env(w.tick).retryable))
    else
      var w1 := if o.artifacts then w.Tick() else w;
      Result(w1.Tick().(published := w1.published + [Progress(env(w1.tick).freshId, message)]), None)
  }

  function HandleTimeout(w: World, o: Options, e: Event, env: nat -> Reaction): Result
    requires e.Timeout?
    decreases 3, 0, 0
  {
    var message := TrimOr(e.messageId, "");
    var key := TimeoutKey(e.notificationId, message);
    if message == "" || w.Busy(key) then Result(w, None)
    else
      var r := PublishProgress(w.Put(key, Processing), o, message, env);
      if r.error.Some? then Result(r.w.Put(key, Failed), r.error)
      else
        Result(Raise(r.w, o, e, message, key, env).Put(key, Processed), None)
  }

  /** Publishing the escalation of a timeout. */
  function Raise(w: World, o: Options, e: Event, message: string, key: string, env: nat -> Reaction): World
    requires e.Timeout?
    decreases 2, 3
  {
    var raised := Escalation(env(w.tick).freshId, e.notificationId, message, None, None);
    Publish(w.Tick().Note(Escalated(key)), o, raised, env)
  }

  /** `readEscalationTarget`. */
  function ReadTarget(e: Event, fallback: Option<Target>): Option<Target>
    requires e.Escalation?
  {
    if e.targetType.Some? && e.targetType.value != "" && TrimOr(e.targetId, "") != "" then
      Some(Target(e.targetType.value, TrimOr(e.targetId, "")))
    else if fallback.Some? && Text.Trim(fallback.value.targetId) != "" then
      Some(Target(fallback.value.targetType, Text.Trim(fallback.value.targetId)))
    else None
  }

  function HandleEscalation(w: World, o: Options, e: Event, env: nat -> Reaction): Result
    requires e.Escalation?
    decreases 2, 0, 0
  {
    var target := ReadTarget(e, o.target);
    if target.None? then Result(w, None)
    else
      var key := SendKey(e.notificationId, e.message, target.value);
      if w.Busy(key) then Result(w, None) else Send(w.Put(key, Processing), o, e, key, env)
  }

  /** Sending the card, and publishing how that went. */
  function Send(w: World, o: Options, e: Event, key: string, env: nat -> Reaction): Result
    requires e.Escalation?
    decreases 1, 3
  {
    var id := env(w.tick + 1).freshId;
    match env(w.tick).card
    case CardThrows => Result(w.Tick().Put(key, Failed), Some(env(w.tick).retryable))
    case CardSent(messageId) =>
      var sent := NotificationSent(id, e.notificationId, messageId, Some(e.message));
      Result(Publish(w.Tick().Tick().Note(Sent(key)), o, sent, env).Put(key, Processed), None)
    case CardFailed =>
      var failed := NotificationFailed(id, e.notificationId);
      Result(Publish(w.Tick().Tick().Note(NotSent(key)), o, failed, env).Put(key, Failed), None)
  }

  function HandleSent(w: World, o: Options, e: Event, env: nat -> Reaction): Result
    requires e.NotificationSent?
  {
    var message := TrimOr(e.messageId, "");
    if message == "" then Result(w, None)
    else
      var about := TrimOr(e.escalationMessageId, message);
      var status := if TrimOr(e.escalationMessageId, "") != "" then "escalated" else "unread";
      Guarded(w, o, SentKey(e.notificationId, about, status), about, env)
  }

  /** The handlers that only report progress, under a key of their own. */
  function Guarded(w: World, o: Options, key: string, message: string, env: nat -> Reaction): Result
  {
    if w.Busy(key) then Result(w, None)
    else
      var r := PublishProgress(w.Put(key, Processing), o, message, env);
      Result(r.w.Put(key, if r.error.None? then Processed else Failed), r.error)
  }

  function HandleCardAction(w: World, o: Options, e: Event, env: nat -> Reaction): Result
    requires e.CardAction?
  {
    var message := Text.Trim(e.message);
    if e.action.None? || message == "" then Result(w, None)
    else
      var key := ActionKey(message, e.action.value, e.actionValue);
      if w.Busy(key) then Result(w, None)
      else if !env(w.tick).updateOk then Result(w.Put(key, Failed).Tick(), Some(env(w.tick).retryable))
      else Guarded(w.Tick(), o, key, message, env)
  }

  // ---- what a cascade leaves alone ---------------------------------------------------------------------------

  function Times(log: seq<Entry>, entry: Entry): nat
  {
    multiset(log)[entry]
  }

  /** What was raised or sent under a key is under way or done according to that key, and happened once. */
  ghost predicate Inv(l: Ledger)
  {
    && (forall key :: Times(l.log, Escalated(key)) <= if FamilyOf(key) == TimeoutFamily && l.Busy(key) then 1 else 0)
    && (forall key :: Times(l.log, Sent(key)) <= if FamilyOf(key) == SendFamily && l.Busy(key) then 1 else 0)
  }

  /** Nothing happened to a key, to its escalations and to its cards. */
  predicate SameKey(l: Ledger, l': Ledger, key: string)
  {
    && (key in l.store <==> key in l'.store) && (key in l.store ==> l.store[key] == l'.store[key])
    && Times(l'.log, Escalated(key)) == Times(l.log, Escalated(key)) &&
          Times(l'.log, Sent(key)) == Times(l.log, Sent(key))
  }

  /** Handling an event of rank below 3 leaves the timeout keys alone, and below 2 the send keys as well. */
  ghost predicate Frame(l: Ledger, l': Ledger, rank: nat)
  {
    && (rank < 3 ==> forall key :: FamilyOf(key) == TimeoutFamily ==> SameKey(l, l', key))
    && (rank < 2 ==> forall key :: FamilyOf(key) == SendFamily ==> SameKey(l, l', key))
  }

  ghost predicate Keeps(l: Ledger, l': Ledger, rank: nat)
  {
    Inv(l') && Frame(l, l', rank)
  }

  lemma KeepsSame(l: Ledger, rank: nat)
    requires Inv(l)
    ensures Keeps(l, l, rank)
  {
  }

  lemma KeepsChain(l: Ledger, l1: Ledger, l2: Ledger, rank: nat)
    requires Keeps(l, l1, rank) && Keeps(l1, l2, rank)
    ensures Keeps(l, l2, rank)
  {
  }

  lemma PutOther(l: Ledger, key: string, state: State, rank: nat)
    requires FamilyOf(key) == OtherFamily && Inv(l)
    ensures Keeps(l, l.Put(key, state), rank)
  {
  }

  /** Starting on a key under which nothing has been raised or sent, or giving it up again. */
  lemma PutFree(l: Ledger, key: string, state: State, rank: nat)
    requires Inv(l) && Times(l.log, Escalated(key)) == 0 == Times(l.log, Sent(key))
    requires rank == if FamilyOf(key) == TimeoutFamily then 3 else 2
    ensures Keeps(l, l.Put(key, state), rank)
  {
  }

  /** Finishing a key. */
  lemma PutDone(l: Ledger, key: string, rank: nat)
    requires Inv(l) && rank == if FamilyOf(key) == TimeoutFamily then 3 else 2
    ensures Keeps(l, l.Put(key, Processed), rank)
  {
  }

  lemma NoteTimes(l: Ledger, entry: Entry)
    ensures forall x :: Times(l.Note(entry).log, x) == Times(l.log, x) + if x == entry then 1 else 0
  {
    assert multiset(l.log + [entry]) == multiset(l.log) + multiset{entry};
  }

  /** The one escalation, or the one card, under a key that is being worked on. */
  lemma NoteFirst(l: Ledger, key: string, entry: Entry, rank: nat)
    requires Inv(l) && l.Busy(key) && Times(l.log, Escalated(key)) == 0 == Times(l.log, Sent(key))
    requires (FamilyOf(key) == TimeoutFamily && entry == Escalated(key) && rank == 3) ||
      (FamilyOf(key) == SendFamily && (entry == Sent(key) || entry == NotSent(key)) && rank == 2)
    ensures Keeps(l, l.Note(entry), rank)
  {
    NoteTimes(l, entry);
  }

  lemma {:induction false} PublishKeeps(w: World, o: Options, e: Event, env: nat -> Reaction)
    requires Inv(w.ledger)
    ensures Keeps(w.ledger, Publish(w, o, e, env).ledger, Rank(e))
    decreases Rank(e), 2
  {
    if Rank(e) == 0 {
      KeepsSame(w.ledger, 0);
    } else {
      SubscriberKeeps(w.(published := w.published + [e]), o, e, env);
    }
  }

  lemma {:induction false} SubscriberKeeps(w: World, o: Options, e: Event, env: nat -> Reaction)
    requires Inv(w.ledger) && Rank(e) > 0
    ensures Keeps(w.ledger, Subscriber(w, o, e, env).ledger, Rank(e))
    decreases Rank(e), 1
  {
    var key := Delivery.ConsumerKey(o.consumerId, e.id);
    ConsumerKeyFamily(o.consumerId, e.id);
    if key in w.ledger.store && w.ledger.store[key] != Processing {
      KeepsSame(w.ledger, Rank(e));
    } else {
      var w1 := w.Put(key, Processing);
      PutOther(w.ledger, key, Processing, Rank(e));
      HandleKeeps(w1, o, e, env);
      var r := Handle(w1, o, e, env);
      var again := r.error.Some? && 1 < o.maxAttempts && r.error.value;
      var state := if r.error.None? then Processed else if again then Processing else Failed;
      PutOther(r.w.ledger, key, state, Rank(e));
      KeepsChain(w.ledger, w1.ledger, r.w.ledger, Rank(e));
      KeepsChain(w.ledger, r.w.ledger, r.w.ledger.Put(key, state), Rank(e));
    }
  }

  lemma ConsumerKeyFamily(c: string, e: string)
    ensures FamilyOf(Delivery.ConsumerKey(c, e)) == OtherFamily
  {
    KeyFamilies(None, "", Target("", ""), "", Claim, None, c, e);
  }

  lemma {:induction false} HandleKeeps(w: World, o: Options, e: Event, env: nat -> Reaction)
    requires Inv(w.ledger) && Rank(e) > 0
    ensures Keeps(w.ledger, Handle(w, o, e, env).w.ledger, Rank(e))
    decreases Rank(e), 0
  {
    KeepsSame(w.ledger, Rank(e));
    match e
    case Timeout(_, _, _) => TimeoutKeeps(w, o, e, env);
    case Escalation(_, _, _, _, _) => EscalationKeeps(w, o, e, env);
    case NotificationSent(_, _, _, _) => SentKeeps(w, o, e, env);
    case CardAction(_, _, _, _) => CardActionKeeps(w, o, e, env);
    case Replied(_, message, latestReply) =>
  }

  lemma GuardedKeeps(w: World, o: Options, key: string, message: string, env: nat -> Reaction)
    requires Inv(w.ledger) && FamilyOf(key) == OtherFamily
    ensures Keeps(w.ledger, Guarded(w, o, key, message, env).w.ledger, 1)
  {
    KeepsSame(w.ledger, 1);
    if !w.Busy(key) {
      var r := PublishProgress(w.Put(key, Processing), o, message, env);
      PutOther(w.ledger, key, Processing, 1);
      PutOther(r.w.ledger, key, if r.error.None? then Processed else Failed, 1);
      KeepsChain(w.ledger, r.w.ledger, Guarded(w, o, key, message, env).w.ledger, 1);
    }
  }

  lemma SentKeeps(w: World, o: Options, e: Event, env: nat -> Reaction)
    requires Inv(w.ledger) && e.NotificationSent?
    ensures Keeps(w.ledger, HandleSent(w, o, e, env).w.ledger, 1)
  {
    KeepsSame(w.ledger, 1);
    var message := TrimOr(e.messageId, "");
    var about := TrimOr(e.escalationMessageId, message);
    var status := if TrimOr(e.escalationMessageId, "") != "" then "escalated" else "unread";
    KeyFamilies(e.notificationId, about, Target("", ""), status, Claim, None, "", "");
    GuardedKeeps(w, o, SentKey(e.notificationId, about, status), about, env);
  }

  lemma CardActionKeeps(w: World, o: Options, e: Event, env: nat -> Reaction)
    requires Inv(w.ledger) && e.CardAction?
    ensures Keeps(w.ledger, HandleCardAction(w, o, e, env).w.ledger, 1)
  {
    KeepsSame(w.ledger, 1);
    var message := Text.Trim(e.message);
    if e.action.Some? && message != "" {
      var key := ActionKey(message, e.action.value, e.actionValue);
      KeyFamilies(None, message, Target("", ""), "", e.action.value, e.actionValue, "", "");
      PutOther(w.ledger, key, Failed, 1);
      GuardedKeeps(w.Tick(), o, key, message, env);
    }
  }

  lemma {:induction false} TimeoutKeeps(w: World, o: Options, e: Event, env: nat -> Reaction)
    requires Inv(w.ledger) && e.Timeout?
    ensures Keeps(w.ledger, HandleTimeout(w, o, e, env).w.ledger, 3)
    decreases 3, 0, 0
  {
    KeepsSame(w.ledger, 3);
    var message := TrimOr(e.messageId, "");
    var key := TimeoutKey(e.notificationId, message);
    if message != "" && !w.Busy(key) {
      KeyFamilies(e.notificationId, message, Target("", ""), "", Claim, None, "", "");
      PutFree(w.ledger, key, Processing, 3);
      var r := PublishProgress(w.Put(key, Processing), o, message, env);
      if r.error.Some? {
        PutFree(r.w.ledger, key, Failed, 3);
        KeepsChain(w.ledger, r.w.ledger, r.w.ledger.Put(key, Failed), 3);
      } else {
        RaiseKeeps(r.w, o, e, message, key, env);
        var l := Raise(r.w, o, e, message, key, env).ledger;
        PutDone(l, key, 3);
        KeepsChain(w.ledger, r.w.ledger, l, 3);
        KeepsChain(w.ledger, l, l.Put(key, Processed), 3);
      }
    }
  }

  lemma {:induction false} RaiseKeeps(w: World, o: Options, e: Event, message: string, key: string,
      env: nat -> Reaction)
    requires Inv(w.ledger) && e.Timeout? && FamilyOf(key) == TimeoutFamily
    requires w.ledger.Busy(key) && Times(w.ledger.log, Escalated(key)) == 0 == Times(w.ledger.log, Sent(key))
    ensures Keeps(w.ledger, Raise(w, o, e, message, key, env).ledger, 3)
    decreases 2, 3
  {
    NoteFirst(w.ledger, key, Escalated(key), 3);
    PublishKeeps(w.Tick().Note(Escalated(key)), o,
      Escalation(env(w.tick).freshId, e.notificationId, message, None, None), env);
  }

  lemma {:induction false} EscalationKeeps(w: World, o: Options, e: Event, env: nat -> Reaction)
    requires Inv(w.ledger) && e.Escalation?
    ensures Keeps(w.ledger, HandleEscalation(w, o, e, env).w.ledger, 2)
    decreases 2, 0, 0
  {
    KeepsSame(w.ledger, 2);
    var target := ReadTarget(e, o.target);
    if target.Some? {
      var key := SendKey(e.notificationId, e.message, target.value);
      if !w.Busy(key) {
        KeyFamilies(e.notificationId, e.message, target.value, "", Claim, None, "", "");
        PutFree(w.ledger, key, Processing, 2);
        SendKeeps(w.Put(key, Processing), o, e, key, env);
        KeepsChain(w.ledger, w.ledger.Put(key, Processing), Send(w.Put(key, Processing), o, e, key, env).w.ledger, 2);
      }
    }
  }

  lemma {:induction false} SendKeeps(w: World, o: Options, e: Event, key: string, env: nat -> Reaction)
    requires Inv(w.ledger) && e.Escalation? && FamilyOf(key) == SendFamily
    requires w.ledger.Busy(key) && Times(w.ledger.log, Escalated(key)) == 0 == Times(w.ledger.log, Sent(key))
    ensures Keeps(w.ledger, Send(w, o, e, key, env).w.ledger, 2)
    ensures Times(Send(w, o, e, key, env).w.ledger.log, Sent(key)) == if env(w.tick).card.CardSent? then 1 else 0
    decreases 1, 3
  {
    var id := env(w.tick + 1).freshId;
    match env(w.tick).card
    case CardThrows => PutFree(w.ledger, key, Failed, 2);
    case CardSent(messageId) =>
      var sent := NotificationSent(id, e.notificationId, messageId, Some(e.message));
      var l := AnnounceKeeps(w.Tick().Tick(), o, key, Sent(key), sent, env);
      PutDone(l, key, 2);
      KeepsChain(w.ledger, l, l.Put(key, Processed), 2);
    case CardFailed =>
      var l := AnnounceKeeps(w.Tick().Tick(), o, key, NotSent(key), NotificationFailed(id, e.notificationId), env);
      PutFree(l, key, Failed, 2);
      KeepsChain(w.ledger, l, l.Put(key, Failed), 2);
  }

  /** Noting how sending went, and publishing it. */
  lemma {:induction false} AnnounceKeeps(w: World, o: Options, key: string, entry: Entry, e: Event,
      env: nat -> Reaction)
      returns (l: Ledger)
    requires Inv(w.ledger) && FamilyOf(key) == SendFamily && Rank(e) < 2 &&
      (entry == Sent(key) || entry == NotSent(key))
    requires w.ledger.Busy(key) && Times(w.ledger.log, Escalated(key)) == 0 == Times(w.ledger.log, Sent(key))
    ensures l == Publish(w.Note(entry), o, e, env).ledger && Keeps(w.ledger, l, 2)
    ensures Times(l.log, Escalated(key)) == 0 && Times(l.log, Sent(key)) == if entry == Sent(key) then 1 else 0
    decreases 1, 3, 0
  {
    l := Publish(w.Note(entry), o, e, env).ledger;
    NoteFirst(w.ledger, key, entry, 2);
    NoteTimes(w.ledger, entry);
    PublishKeeps(w.Note(entry), o, e, env);
    assert SameKey(w.ledger.Note(entry), l, key);
    FrameWeaken(w.ledger.Note(entry), l, Rank(e), 2);
    KeepsChain(w.ledger, w.ledger.Note(entry), l, 2);
  }

  lemma FrameWeaken(l: Ledger, l': Ledger, rank: nat, rank': nat)
    requires Keeps(l, l', rank) && rank <= rank'
    ensures Keeps(l, l', rank')
  {
  }

  /** A card goes out for an escalation exactly when there is a target, nothing is under way or done for that
      target yet, and the connector accepts the card. */
  lemma CardSentExactlyWhen(w: World, o: Options, e: Event, env: nat -> Reaction)
    requires Inv(w.ledger) && e.Escalation?
    ensures var target := ReadTarget(e, o.target);
      target.Some? ==>
        var key := SendKey(e.notificationId, e.message, target.value);
        Times(HandleEscalation(w, o, e, env).w.ledger.log, Sent(key)) == Times(w.ledger.log, Sent(key)) +
          if !w.Busy(key) && env(w.tick).card.CardSent? then 1 else 0
    ensures ReadTarget(e, o.target).None? ==> HandleEscalation(w, o, e, env).w == w
  {
    var target := ReadTarget(e, o.target);
    if target.Some? && !w.Busy(SendKey(e.notificationId, e.message, target.value)) {
      var key := SendKey(e.notificationId, e.message, target.value);
      KeyFamilies(e.notificationId, e.message, target.value, "", Claim, None, "", "");
      PutFree(w.ledger, key, Processing, 2);
      SendKeeps(w.Put(key, Processing), o, e, key, env);
    }
  }

  /** An escalation is raised for a timeout exactly when it names a message, nothing is under way or done for
      its key yet, and the progress record (if there is one) gets written. */
  lemma RaisedExactlyWhen(w: World, o: Options, e: Event, env: nat -> Reaction)
    requires Inv(w.ledger) && e.Timeout?
    ensures var message := TrimOr(e.messageId, "");
      var key := TimeoutKey(e.notificationId, message);
      Times(HandleTimeout(w, o, e, env).w.ledger.log, Escalated(key)) == Times(w.ledger.log, Escalated(key)) +
        if message != "" && !w.Busy(key) && (o.artifacts ==> env(w.tick).artifactOk) then 1 else 0
  {
    var message := TrimOr(e.messageId, "");
    var key := TimeoutKey(e.notificationId, message);
    if message != "" && !w.Busy(key) {
      KeyFamilies(e.notificationId, message, Target("", ""), "", Claim, None, "", "");
      PutFree(w.ledger, key, Processing, 3);
      var r := PublishProgress(w.Put(key, Processing), o, message, env);
      if r.error.None? { RaiseCounts(r.w, o, e, message, key, env); }
    }
  }

  lemma {:induction false} RaiseCounts(w: World, o: Options, e: Event, message: string, key: string,
      env: nat -> Reaction)
    requires Inv(w.ledger) && e.Timeout? && FamilyOf(key) == TimeoutFamily
    requires w.ledger.Busy(key) && Times(w.ledger.log, Escalated(key)) == 0 == Times(w.ledger.log, Sent(key))
    ensures Times(Raise(w, o, e, message, key, env).ledger.log, Escalated(key)) == 1
  {
    var raised := Escalation(env(w.tick).freshId, e.notificationId, message, None, None);
    NoteFirst(w.ledger, key, Escalated(key), 3);
    NoteTimes(w.ledger, Escalated(key));
    PublishKeeps(w.Tick().Note(Escalated(key)), o, raised, env);
    assert SameKey(w.ledger.Note(Escalated(key)), Raise(w, o, e, message, key, env).ledger, key);
  }

  /** An escalation goes to the target that its event names, with a type and an id that is not blank; else to the
      configured one, if its id is not blank; and ids are trimmed. */
  lemma TargetRead(e: Event, fallback: Option<Target>)
    requires e.Escalation?
    ensures var target := ReadTarget(e, fallback);
      var named := e.targetType.Some? && e.targetType.value != "" && e.targetId.Some? &&
        Text.Trim(e.targetId.value) != "";
      && (named ==> target == Some(Target(e.targetType.value, Text.Trim(e.targetId.value))))
      && (!named && target.Some? ==> fallback == Some(Target(target.value.targetType, fallback.value.targetId)))
      && (!named && target.Some? ==> target.value.targetId == Text.Trim(fallback.value.targetId) != "")
      && (!named && target.None? ==> fallback.None? || Text.Trim(fallback.value.targetId) == "")
  {
  }

  /** The calls of a delivery of which only the handler can fail. */
  function OnlyHandlerFails(error: Option<bool>): Delivery.Calls
  {
    var handler := if error.None? then Delivery.Returns else Delivery.Throws(error.value);
    Delivery.Calls(true, true, true, handler, true, true, true, true, true, true, true, true, true)
  }

  /** What one consumer's delivery sees of the store. */
  function SideAt(w: World, key: string): Delivery.Side
  {
    Delivery.Side(if key in w.ledger.store then map[key := w.ledger.store[key]] else map[], [], [])
  }

  /** On top of what its handler does, the subscriber here does to its key and to the dead letters what one delivery
      with attempt count 1 does. */
  lemma AgreesWithDelivery(w: World, o: Options, e: Event, env: nat -> Reaction)
    requires Rank(e) > 0
    ensures var key, w' := Delivery.ConsumerKey(o.consumerId, e.id), Subscriber(w, o, e, env);
      var r := Handle(w.Put(key, Processing), o, e, env);
      var h := Delivery.HandleOnce(SideAt(w, key), Delivery.Context(o.consumerId, e.id, 0, 0, 1, o.maxAttempts),
                 OnlyHandlerFails(r.error), Delivery.Unset);
      if SideAt(w, key).Terminal(key) then w' == w && h.side == SideAt(w, key)
      else
        && key in h.side.store && w' == r.w.Put(key, h.side.store[key]).(deadLetters := w'.deadLetters)
        && |w'.deadLetters| == |r.w.deadLetters| + |h.side.deadLetters|
        && (w'.deadLetters == r.w.deadLetters || w'.deadLetters == r.w.deadLetters + [e.id])
  {
  }

  // ---- any sequence of events ----------------------------------------------------------------------------------

  function PublishAll(events: seq<Event>, o: Options, env: nat -> Reaction): World
  {
    if events == [] then World(Ledger(map[], []), [], [], 0)
    else Publish(PublishAll(events[..|events| - 1], o, env), o, events[|events| - 1], env)
  }

  /** Over any events from outside, with everything they set off: one escalation per timeout key, and one
      card that was sent per notification and target, whatever cards and artifacts fail. */
  lemma {:induction false} RaisedAndSentOnce(events: seq<Event>, o: Options, env: nat -> Reaction, key: string)
    ensures Inv(PublishAll(events, o, env).ledger)
    ensures var log := PublishAll(events, o, env).ledger.log;
      Times(log, Escalated(key)) <= 1 && Times(log, Sent(key)) <= 1
  {
    if events == [] {
    } else {
      RaisedAndSentOnce(events[..|events| - 1], o, env, key);
      PublishKeeps(PublishAll(events[..|events| - 1], o, env), o, events[|events| - 1], env);
    }
  }

  /** The number of events that publishing one event can amount to. */
  function Bound(e: Event): nat
  {
    match e
    case Timeout(_, _, _) => 5
    case Escalation(_, _, _, _, _) => 3
    case NotificationSent(_, _, _, _) => 2
    case CardAction(_, _, _, _) => 2
    case Replied(_, _, _) => 2
    case _ => 1
  }

  /** More events have been published, at most `n` of them. */
  predicate Grows(published: seq<Event>, published': seq<Event>, n: nat)
  {
    published <= published' && |published'| <= |published| + n
  }

  /** Every cascade starts with its event and ends, after at most five events in all. */
  lemma {:induction false} CascadeBounded(w: World, o: Options, e: Event, env: nat -> Reaction)
    ensures Grows(w.published + [e], Publish(w, o, e, env).published, Bound(e) - 1)
    decreases Rank(e), 2
  {
    var key := Delivery.ConsumerKey(o.consumerId, e.id);
    if Rank(e) > 0 {
      HandleBounded(w.(published := w.published + [e]).Put(key, Processing), o, e, env);
    }
  }

  lemma {:induction false} HandleBounded(w: World, o: Options, e: Event, env: nat -> Reaction)
    requires Rank(e) > 0
    ensures Grows(w.published, Handle(w, o, e, env).w.published, Bound(e) - 1)
    decreases Rank(e), 0
  {
    match e
    case Timeout(_, _, _) => var t := TimeoutAnnounces(w, o, e, env);
    case Escalation(_, _, _, _, _) => var t := EscalationAnnounces(w, o, e, env);
    case _ => ReportedExactlyWhen(w, o, e, env);
  }

  /** What the artifact and the progress event take: the id of the event, and the number of the next call. */
  function ProgressId(o: Options, tick: nat, env: nat -> Reaction): string
  {
    env(if o.artifacts then tick + 1 else tick).freshId
  }

  /** A timeout that raises an escalation publishes the progress and the escalation, in this order and before anything
      they set off; any other publishes nothing. */
  lemma {:induction false} TimeoutAnnounces(w: World, o: Options, e: Event, env: nat -> Reaction) returns (t: nat)
    requires e.Timeout?
    ensures t == w.tick + if o.artifacts then 2 else 1
    ensures var message, published' := TrimOr(e.messageId, ""), HandleTimeout(w, o, e, env).w.published;
      var key := TimeoutKey(e.notificationId, message);
      if message != "" && !w.Busy(key) && (o.artifacts ==> env(w.tick).artifactOk) then
        Grows(w.published + [Progress(ProgressId(o, w.tick, env), message),
            Escalation(env(t).freshId, e.notificationId, message, None, None)], published', 2)
      else published' == w.published
    decreases 3, 0, 0
  {
    t := w.tick + if o.artifacts then 2 else 1;
    var message := TrimOr(e.messageId, "");
    var key := TimeoutKey(e.notificationId, message);
    if message != "" && !w.Busy(key) && (o.artifacts ==> env(w.tick).artifactOk) {
      var w1 := PublishProgress(w.Put(key, Processing), o, message, env).w;
      var raised := Escalation(env(t).freshId, e.notificationId, message, None, None);
      CascadeBounded(w1.Tick().Note(Escalated(key)), o, raised, env);
      assert w1.published + [raised] == w.published + [Progress(ProgressId(o, w.tick, env), message), raised];
    }
  }

  /** An escalation publishes first how sending its card went: sent exactly when the connector accepts it, failed when
      it says so; and nothing when it throws, or when there is no target or nothing to do. */
  lemma {:induction false} EscalationAnnounces(w: World, o: Options, e: Event, env: nat -> Reaction) returns (t: nat)
    requires e.Escalation?
    ensures t == w.tick + 1
    ensures var target, card := ReadTarget(e, o.target), env(w.tick).card;
      var published' := HandleEscalation(w, o, e, env).w.published;
      if target.None? || w.Busy(SendKey(e.notificationId, e.message, target.value)) || card.CardThrows? then
        published' == w.published
      else if card.CardSent? then
        Grows(w.published + [NotificationSent(env(t).freshId, e.notificationId, card.messageId, Some(e.message))],
          published', 1)
      else published' == w.published + [NotificationFailed(env(t).freshId, e.notificationId)]
    decreases 2, 0, 0
  {
    t := w.tick + 1;
    var target := ReadTarget(e, o.target);
    if target.Some? {
      var key := SendKey(e.notificationId, e.message, target.value);
      if env(w.tick).card.CardSent? {
        var sent := NotificationSent(env(t).freshId, e.notificationId, env(w.tick).card.messageId, Some(e.message));
        CascadeBounded(w.Put(key, Processing).Tick().Tick().Note(Sent(key)), o, sent, env);
      } else if env(w.tick).card.CardFailed? {
        var failed := NotificationFailed(env(t).freshId, e.notificationId);
        CascadeBounded(w.Put(key, Processing).Tick().Tick().Note(NotSent(key)), o, failed, env);
      }
    }
  }

  /** What a card action, a sent notification or a reply has to report about, if anything. */
  function About(e: Event): Option<string>
    requires Rank(e) == 1
  {
    match e
    case CardAction(_, message, action, _) =>
      if action.None? || Text.Trim(message) == "" then None else Some(Text.Trim(message))
    case NotificationSent(_, _, messageId, escalationMessageId) =>
      if TrimOr(messageId, "") == "" then None else Some(TrimOr(escalationMessageId, TrimOr(messageId, "")))
    case Replied(_, message, latestReply) => if TrimOr(latestReply, "") == "" then None else Some(message)
  }

  /** The key of that report; replies have none. */
  function ReportKey(e: Event): Option<string>
    requires Rank(e) == 1 && About(e).Some?
  {
    match e
    case CardAction(_, message, action, value) => Some(ActionKey(Text.Trim(message), action.value, value))
    case NotificationSent(_, notificationId, _, escalationMessageId) =>
      var status := if TrimOr(escalationMessageId, "") != "" then "escalated" else "unread";
      Some(SentKey(notificationId, About(e).value, status))
    case Replied(_, _, _) => None
  }

  /** A card action, a sent notification or a reply publishes its progress event exactly when there is something to
      report, its key is free, the card of an action could be updated, and the artifact, if there is one, gets written;
      it never publishes anything else. Then its key is processed, and it is failed when a call failed. */
  lemma ReportedExactlyWhen(w: World, o: Options, e: Event, env: nat -> Reaction)
    requires Rank(e) == 1
    ensures var r, about := Handle(w, o, e, env), About(e);
      var t := w.tick + if e.CardAction? then 1 else 0;
      var started := about.Some? && (ReportKey(e).Some? ==> !w.Busy(ReportKey(e).value));
      var succeeds := (e.CardAction? ==> env(w.tick).updateOk) && (o.artifacts ==> env(t).artifactOk);
      && r.w.published == w.published +
          (if started && succeeds then [Progress(ProgressId(o, t, env), about.value)] else [])
      && (r.error.None? <==> (started ==> succeeds))
      && r.w.ledger == if started && ReportKey(e).Some? then
          w.ledger.Put(ReportKey(e).value, if succeeds then Processed else Failed) else w.ledger
  {
    match e
    case CardAction(_, _, _, _) =>
      if About(e).Some? && !w.Busy(ReportKey(e).value) {
        GuardedExactly(w.Tick(), o, ReportKey(e).value, About(e).value, env);
      }
    case NotificationSent(_, _, _, _) =>
      if About(e).Some? && !w.Busy(ReportKey(e).value) {
        GuardedExactly(w, o, ReportKey(e).value, About(e).value, env);
      }
    case Replied(_, _, _) =>
  }

  lemma GuardedExactly(w: World, o: Options, key: string, message: string, env: nat -> Reaction)
    requires !w.Busy(key)
    ensures var r, succeeds := Guarded(w, o, key, message, env), o.artifacts ==> env(w.tick).artifactOk;
      && r.w.published == w.published + (if succeeds then [Progress(ProgressId(o, w.tick, env), message)] else [])
      && (r.error.None? <==> succeeds)
      && r.w.ledger == w.ledger.Put(key, if succeeds then Processed else Failed)
  {
    var state := if o.artifacts ==> env(w.tick).artifactOk then Processed else Failed;
    assert w.ledger.store[key := Processing][key := state] == w.ledger.store[key := state];
  }

  // ---- the implementation ------------------------------------------------------------------------------------------

  class CollaborationEventConsumer {
    const options: Options
    var store: map<string, State>
    var published: seq<Event>
    var deadLetters: seq<string>
    var tick: nat
    ghost var log: seq<Entry>

    ghost function View(): World
      reads this
    {
      World(Ledger(store, log), published, deadLetters, tick)
    }

    constructor (options: Options)
      ensures View() == PublishAll([], options, _ => Reaction(CardFailed, true, true, true, "")) &&
        this.options == options
    {
      this.options := options;
      store, published, deadLetters, tick, log := map[], [], [], 0, [];
    }

    method PublishEvent(e: Event, env: nat -> Reaction)
      modifies this
      ensures View() == Publish(old(View()), options, e, env)
      decreases Rank(e), 2
    {
      published := published + [e];
      if Rank(e) > 0 { Deliver(e, env); }
    }

    /** The subscriber's wrapper around the handlers. */
    method Deliver(e: Event, env: nat -> Reaction)
      requires Rank(e) > 0
      modifies this
      ensures View() == Subscriber(old(View()), options, e, env)
      decreases Rank(e), 1
    {
      var key := Delivery.ConsumerKey(options.consumerId, e.id);
      if key in store && store[key] != Processing { return; }
      store := store[key := Processing];
      var error := Dispatch(e, env);
      if error.None? {
        store := store[key := Processed];
      } else if 1 < options.maxAttempts && error.value {
        store := store[key := Processing];
      } else {
        store := store[key := Failed];
        deadLetters := deadLetters + [e.id];
      }
    }

    /** The consumer's callback. */
    method Dispatch(e: Event, env: nat -> Reaction) returns (error: Option<bool>)
      requires Rank(e) > 0
      modifies this
      ensures Result(View(), error) == Handle(old(View()), options, e, env)
      decreases Rank(e), 0
    {
      match e
      case Escalation(_, _, _, _, _) => error := HandleEscalationTriggered(e, env);
      case NotificationSent(_, _, _, _) => error := HandleNotificationSent(e, env);
      case Timeout(_, _, _) => error := HandleNotificationTimeout(e, env);
      case Replied(_, message, latestReply) =>
        error := None;
        if latestReply.Some? && Text.Trim(latestReply.value) != "" {
          error := PublishProgressUpdated(message, env);
        }
      case CardAction(_, _, _, _) => error := HandleCardActionClicked(e, env);
    }

    method PublishProgressUpdated(message: string, env: nat -> Reaction) returns (error: Option<bool>)
      modifies this
      ensures Result(View(), error) == PublishProgress(old(View()), options, message, env)
    {
      if options.artifacts {
        tick := tick + 1;
        if !env(tick - 1).artifactOk { return Some(env(tick - 1).retryable); }
      }
      published := published + [Progress(env(tick).freshId, message)];
      tick := tick + 1;
      error := None;
    }

    method HandleNotificationTimeout(e: Event, env: nat -> Reaction) returns (error: Option<bool>)
      requires e.Timeout?
      modifies this
      ensures Result(View(), error) == HandleTimeout(old(View()), options, e, env)
      decreases 3, 0, 0
    {
      var message := TrimOr(e.messageId, "");
      if message == "" { return None; }
      var key := TimeoutKey(e.notificationId, message);
      if key in store && store[key] != Failed { return None; }
      store := store[key := Processing];
      error := PublishProgressUpdated(message, env);
      if error.Some? {
        store := store[key := Failed];
        return;
      }
      var raised := Escalation(env(tick).freshId, e.notificationId, message, None, None);
      tick := tick + 1;
      log := log + [Escalated(key)];
      PublishEvent(raised, env);
      store := store[key := Processed];
    }

    method HandleEscalationTriggered(e: Event, env: nat -> Reaction) returns (error: Option<bool>)
      requires e.Escalation?
      modifies this
      ensures Result(View(), error) == HandleEscalation(old(View()), options, e, env)
      decreases 2, 0, 0
    {
      var target := ReadTarget(e, options.target);
      if target.None? { return None; }
      var key := SendKey(e.notificationId, e.message, target.value);
      if key in store && store[key] != Failed { return None; }
      store := store[key := Processing];
      error := SendCard(e, key, env);
    }

    method SendCard(e: Event, key: string, env: nat -> Reaction) returns (error: Option<bool>)
      requires e.Escalation?
      modifies this
      ensures Result(View(), error) == Send(old(View()), options, e, key, env)
      decreases 1, 3
    {
      var reaction := env(tick);
      tick := tick + 1;
      match reaction.card
      case CardThrows =>
        store := store[key := Failed];
        error := Some(reaction.retryable);
      case CardSent(messageId) =>
        var sent := NotificationSent(env(tick).freshId, e.notificationId, messageId, Some(e.message));
        tick := tick + 1;
        log := log + [Sent(key)];
        PublishEvent(sent, env);
        store := store[key := Processed];
        error := None;
      case CardFailed =>
        var failed := NotificationFailed(env(tick).freshId, e.notificationId);
        tick := tick + 1;
        log := log + [NotSent(key)];
        PublishEvent(failed, env);
        store := store[key := Failed];
        error := None;
    }

    /** A progress report under a key of its own. */
    method ReportOnce(key: string, message: string, env: nat -> Reaction) returns (error: Option<bool>)
      modifies this
      ensures Result(View(), error) == Guarded(old(View()), options, key, message, env)
    {
      if key in store && store[key] != Failed { return None; }
      store := store[key := Processing];
      error := PublishProgressUpdated(message, env);
      store := store[key := if error.None? then Processed else Failed];
    }

    method HandleNotificationSent(e: Event, env: nat -> Reaction) returns (error: Option<bool>)
      requires e.NotificationSent?
      modifies this
      ensures Result(View(), error) == HandleSent(old(View()), options, e, env)
    {
      var message := TrimOr(e.messageId, "");
      if message == "" { return None; }
      var about := TrimOr(e.escalationMessageId, message);
      var status := if TrimOr(e.escalationMessageId, "") != "" then "escalated" else "unread";
      error := ReportOnce(SentKey(e.notificationId, about, status), about, env);
    }

    method HandleCardActionClicked(e: Event, env: nat -> Reaction) returns (error: Option<bool>)
      requires e.CardAction?
      modifies this
      ensures Result(View(), error) == HandleCardAction(old(View()), options, e, env)
    {
      var message := Text.Trim(e.message);
      if e.action.None? || message == "" { return None; }
      var key := ActionKey(message, e.action.value, e.actionValue);
      if key in store && store[key] != Failed { return None; }
      var reaction := env(tick);
      tick := tick + 1;
      if !reaction.updateOk {
        store := store[key := Failed];
        return Some(reaction.retryable);
      }
      error := ReportOnce(key, message, env);
    }
  }
}
