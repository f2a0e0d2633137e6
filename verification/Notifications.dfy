/** Deliveries and overlapping dispatchers. */
module Notifications {
  import opened Wrappers

  datatype DeliveryState = DELIVERY_PENDING | SENDING | DELIVERY_SENT | DELIVERY_FAILED | WAITING_CONFIGURATION

  datatype Delivery = Delivery(state: DeliveryState, attempts: nat, nextAttemptAt: Option<int>)

  /** A delivery's identity is a fingerprint of its event and recipient; the pair stands for it. */
  datatype DeliveryId = DeliveryId(logicalKey: string, recipient: string)

  datatype SendResult = SentMessage | Retryable | Permanent | UnknownResult

  /** One request made to the transport: which claim made it, what came back, and whether the dispatcher has
      stored it. */
  datatype Send = Send(id: DeliveryId, attempt: nat, answer: Option<SendResult>, reported: bool)

  datatype World = World(deliveries: map<DeliveryId, Delivery>, sends: seq<Send>)

  datatype Event =
    | Register(logicalKey: string, recipients: seq<string>)
    | ClaimDelivery(id: DeliveryId, now: int)
    | Answered(send: nat, result: SendResult)
    | Report(send: nat, now: int)
    | ReconcileUnknown(now: int)
    | ManualRetry(id: DeliveryId, recipientConfigured: bool)

  const CONFIGURATION_RECIPIENT := "__server_configuration__"
  const BACKOFF_MS := [5_000, 15_000, 45_000]
  const MAX_SENDS := 3

  // ---------------------------------------------------------------------------------------------
  // Row updates
  // ---------------------------------------------------------------------------------------------

  predicate IsDue(delivery: Delivery, now: int) {
    delivery.state == DELIVERY_PENDING && (delivery.nextAttemptAt.None? || delivery.nextAttemptAt.value <= now)
  }

  function Claimed(delivery: Delivery, now: int): Delivery {
    Delivery(SENDING, delivery.attempts + 1, Some(now))
  }

  /** What a dispatcher stores after its send; every update is guarded by the delivery still being SENDING.
      Claims number the attempts from one. */
  function Settled(delivery: Delivery, attempt: nat, result: SendResult, now: int): Delivery {
    if delivery.state != SENDING || attempt == 0 then delivery
    else if result == SentMessage then delivery.(state := DELIVERY_SENT, nextAttemptAt := None)
    else if result == Retryable && attempt < MAX_SENDS
          then delivery.(state := DELIVERY_PENDING, nextAttemptAt := Some(now + BACKOFF_MS[attempt - 1]))
    else if result == UnknownResult then delivery.(nextAttemptAt := Some(now
          + BACKOFF_MS[if attempt < |BACKOFF_MS| then attempt - 1 else |BACKOFF_MS| - 1]))
    else delivery.(state := DELIVERY_FAILED, nextAttemptAt := None)
  }

  predicate IsOverdue(delivery: Delivery, now: int) {
    delivery.state == SENDING && delivery.nextAttemptAt.Some? && delivery.nextAttemptAt.value <= now
  }

  function Reconciled(delivery: Delivery, now: int): Delivery {
    if IsOverdue(delivery, now) then delivery.(state := DELIVERY_FAILED, nextAttemptAt := None) else delivery
  }

  predicate NeedsHuman(delivery: Delivery) {
    delivery.state == DELIVERY_FAILED || delivery.state == WAITING_CONFIGURATION
  }

  function Retried(recipientConfigured: bool): Delivery {
    Delivery(if recipientConfigured then DELIVERY_PENDING else WAITING_CONFIGURATION, 0, None)
  }

  function Recipients(recipients: seq<string>): set<string> {
    if recipients == [] then {CONFIGURATION_RECIPIENT} else set recipient | recipient in recipients
  }

  function Fresh(recipient: string): Delivery {
    Delivery(if recipient == CONFIGURATION_RECIPIENT then WAITING_CONFIGURATION else DELIVERY_PENDING, 0, None)
  }

  /** Existing rows win over new ones. */
  function Registered(deliveries: map<DeliveryId, Delivery>, logicalKey: string,
      recipients: seq<string>): map<DeliveryId, Delivery> {
    (map recipient | recipient in Recipients(recipients) :: DeliveryId(logicalKey, recipient) := Fresh(recipient))
        + deliveries
  }

  // ---------------------------------------------------------------------------------------------
  // Runs
  // ---------------------------------------------------------------------------------------------

  function Next(world: World, event: Event): World {
    match event
    case Register(logicalKey, recipients) => world.(deliveries := Registered(world.deliveries, logicalKey, recipients))
    case ClaimDelivery(id, now) =>
      if id !in world.deliveries || !IsDue(world.deliveries[id], now) then world
      else
        var claimed := Claimed(world.deliveries[id], now);
        World(world.deliveries[id := claimed], world.sends + [Send(id, claimed.attempts, None, false)])
    case Answered(send, result) =>
      if send >= |world.sends| || world.sends[send].answer.Some? then world
      else world.(sends := world.sends[send := world.sends[send].(answer := Some(result))])
    case Report(send, now) =>
      if send >= |world.sends| || world.sends[send].answer.None? || world.sends[send].reported then world
      else
        var request := world.sends[send];
        var sends := world.sends[send := request.(reported := true)];
        if request.id !in world.deliveries then world.(sends := sends)
        else World(world.deliveries[request.id := Settled(world.deliveries[request.id], request.attempt,
              request.answer.value, now)], sends)
    case ReconcileUnknown(now) =>
      world.(deliveries := map id | id in world.deliveries :: Reconciled(world.deliveries[id], now))
    case ManualRetry(id, recipientConfigured) =>
      if id !in world.deliveries || !NeedsHuman(world.deliveries[id]) then world
      else world.(deliveries := world.deliveries[id := Retried(recipientConfigured)])
  }

  function Play(world: World, events: seq<Event>): World
    decreases |events|
  {
    if events == [] then world else Play(Next(world, events[0]), events[1..])
  }

  predicate Unattended(events: seq<Event>, id: DeliveryId) {
    forall i :: 0 <= i < |events| ==> !(events[i].ManualRetry? && events[i].id == id)
  }

  /** A send that could still put its delivery back to PENDING. */
  predicate MayReopen(send: Send) {
    !send.reported && send.attempt < MAX_SENDS && (send.answer.None? || send.answer == Some(Retryable))
  }

  predicate NoStaleSend(world: World, id: DeliveryId) {
    forall i :: 0 <= i < |world.sends| && world.sends[i].id == id ==> !MayReopen(world.sends[i])
  }

  /** The delivery as it is after registration, or after a human has asked for it again. */
  predicate IsReady(world: World, id: DeliveryId) {
    id in world.deliveries && world.deliveries[id] == Delivery(DELIVERY_PENDING, 0, None)
  }

  predicate Precedes(sends: seq<Send>, i: int, j: int, id: DeliveryId) {
    0 <= i < j < |sends| && sends[i].id == id && sends[j].id == id
  }

  /** Among the sends from `base` on, only one that came back retryable is followed by another. */
  ghost predicate OnlyRetriesAreRepeated(sends: seq<Send>, base: nat, id: DeliveryId) {
    forall i, j :: base <= i && Precedes(sends, i, j, id) ==> sends[i].answer == Some(Retryable)
  }

  function CountFrom(sends: seq<Send>, base: nat, id: DeliveryId): nat {
    if |sends| <= base then 0
    else CountFrom(sends[..|sends| - 1], base, id) + (if sends[|sends| - 1].id == id then 1 else 0)
  }

  // ---------------------------------------------------------------------------------------------
  // At most three sends
  // ---------------------------------------------------------------------------------------------

  predicate IsRetried(send: Send) {
    send.answer == Some(Retryable) && send.reported && send.attempt < MAX_SENDS
  }

  /** Every send since `base` but the one of the current claim has been retried; while the delivery is
      PENDING that one has been retried too. */
  ghost predicate Tracked(world: World, base: nat, id: DeliveryId) {
    && id in world.deliveries
    && base <= |world.sends|
    && var delivery := world.deliveries[id];
    && CountFrom(world.sends, base, id) == delivery.attempts <= MAX_SENDS
    && (delivery.state == DELIVERY_PENDING ==> delivery.attempts < MAX_SENDS)
    && (forall i :: 0 <= i < base && world.sends[i].id == id ==> !MayReopen(world.sends[i]))
    && (forall i :: base <= i < |world.sends| && world.sends[i].id == id ==>
          && 1 <= world.sends[i].attempt <= delivery.attempts
          && (delivery.state == DELIVERY_PENDING || world.sends[i].attempt < delivery.attempts ==>
              IsRetried(world.sends[i])))
    && (forall i, j :: base <= i && Precedes(world.sends, i, j, id) ==> world.sends[i].attempt < world.sends[j].attempt)
  }

  lemma {:induction false} CountIgnoresAnswers(sends: seq<Send>, changed: seq<Send>, base: nat, id: DeliveryId)
    requires |changed| == |sends| && forall i :: 0 <= i < |sends| ==> changed[i].id == sends[i].id
    ensures CountFrom(changed, base, id) == CountFrom(sends, base, id)
    decreases |sends|
  {
    if |sends| > base {
      CountIgnoresAnswers(sends[..|sends| - 1], changed[..|sends| - 1], base, id);
    }
  }

  lemma {:induction false} CountGrows(sends: seq<Send>, send: Send, base: nat, id: DeliveryId)
    requires base <= |sends|
    ensures CountFrom(sends + [send], base, id) == CountFrom(sends, base, id) + (if send.id == id then 1 else 0)
  {
    assert (sends + [send])[..|sends|] == sends;
  }

  lemma {:induction false} ClaimKeepsTracked(world: World, base: nat, id: DeliveryId, event: Event)
    requires Tracked(world, base, id) && event.ClaimDelivery?
    ensures Tracked(Next(world, event), base, id)
  {
    var next := Next(world, event);
    if next != world {
      CountGrows(world.sends, next.sends[|world.sends|], base, id);
      forall i, j | base <= i && Precedes(next.sends, i, j, id)
        ensures next.sends[i].attempt < next.sends[j].attempt
      {
        assert j < |world.sends| ==> Precedes(world.sends, i, j, id);
      }
    }
  }

  lemma {:induction false} AnswerKeepsTracked(world: World, base: nat, id: DeliveryId, event: Event)
    requires Tracked(world, base, id) && event.Answered?
    ensures Tracked(Next(world, event), base, id)
  {
    var next := Next(world, event);
    CountIgnoresAnswers(world.sends, next.sends, base, id);
    forall i, j | base <= i && Precedes(next.sends, i, j, id)
      ensures next.sends[i].attempt < next.sends[j].attempt
    {
      assert Precedes(world.sends, i, j, id);
    }
  }

  lemma {:induction false} ReportKeepsTracked(world: World, base: nat, id: DeliveryId, event: Event)
    requires Tracked(world, base, id) && event.Report?
    ensures Tracked(Next(world, event), base, id)
  {
    var next := Next(world, event);
    CountIgnoresAnswers(world.sends, next.sends, base, id);
    forall i, j | base <= i && Precedes(next.sends, i, j, id)
      ensures next.sends[i].attempt < next.sends[j].attempt
    {
      assert Precedes(world.sends, i, j, id);
    }
    var send := event.send;
    if next != world && world.sends[send].id == id {
      forall i | base <= i < |next.sends| && next.sends[i].id == id && next.deliveries[id].state == DELIVERY_PENDING
        ensures IsRetried(next.sends[i])
      {
        assert i < send ==> Precedes(world.sends, i, send, id);
        assert send < i ==> Precedes(world.sends, send, i, id);
      }
    }
  }

  lemma {:induction false} EventKeepsTracked(world: World, base: nat, id: DeliveryId, event: Event)
    requires Tracked(world, base, id)
    requires !(event.ManualRetry? && event.id == id)
    ensures Tracked(Next(world, event), base, id)
  {
    match event
    case ClaimDelivery(_, _) => ClaimKeepsTracked(world, base, id, event);
    case Answered(_, _) => AnswerKeepsTracked(world, base, id, event);
    case Report(_, _) => ReportKeepsTracked(world, base, id, event);
    case Register(_, _) => assert Next(world, event).deliveries[id] == world.deliveries[id];
    case ReconcileUnknown(_) =>
    case ManualRetry(_, _) =>
  }

  lemma {:induction false} RunKeepsTracked(world: World, base: nat, id: DeliveryId, events: seq<Event>)
    requires Tracked(world, base, id) && Unattended(events, id)
    ensures Tracked(Play(world, events), base, id)
    decreases |events|
  {
    if events != [] {
      EventKeepsTracked(world, base, id, events[0]);
      RunKeepsTracked(Next(world, events[0]), base, id, events[1..]);
    }
  }

  /** However dispatchers, reconcilers and registrations interleave, a ready delivery is sent at most three
      times, and only a send that came back retryable is followed by another. */
  lemma {:induction false} AtMostThreeSends(world: World, id: DeliveryId, events: seq<Event>)
    requires IsReady(world, id) && NoStaleSend(world, id) && Unattended(events, id)
    ensures CountFrom(Play(world, events).sends, |world.sends|, id) <= MAX_SENDS
    ensures OnlyRetriesAreRepeated(Play(world, events).sends, |world.sends|, id)
  {
    RunKeepsTracked(world, |world.sends|, id, events);
    var after := Play(world, events);
    forall i, j | |world.sends| <= i && Precedes(after.sends, i, j, id)
      ensures after.sends[i].answer == Some(Retryable)
    {
      assert after.sends[i].attempt < after.sends[j].attempt;
    }
  }

  // ---------------------------------------------------------------------------------------------
  // When asking again is safe
  // ---------------------------------------------------------------------------------------------

  ghost predicate NeverRepeatsNeedlessly(world: World, id: DeliveryId) {
    forall events :: Unattended(events, id) ==> OnlyRetriesAreRepeated(Play(world, events).sends, |world.sends|, id)
  }

  function RepeatingEvents(world: World, id: DeliveryId, stale: nat): seq<Event>
    requires stale < |world.sends|
  {
    var again := |world.sends|;
    [ClaimDelivery(id, 0), Answered(stale, Retryable), Report(stale, 0), Answered(again, SentMessage),
        ClaimDelivery(id, 45_000)]
  }

  lemma PlayThree(world: World, a: Event, b: Event, c: Event)
    ensures Play(world, [a, b, c]) == Next(Next(Next(world, a), b), c)
  {
    hide Next;
    PlayEndsWith(world, [], a);
    PlayEndsWith(world, [a], b);
    PlayEndsWith(world, [a, b], c);
    assert [] + [a] == [a] && [a] + [b] == [a, b] && [a, b] + [c] == [a, b, c];
  }

  lemma PlayFour(world: World, a: Event, b: Event, c: Event, d: Event)
    ensures Play(world, [a, b, c, d]) == Next(Next(Next(Next(world, a), b), c), d)
  {
    hide Next, Play;
    PlayThree(world, a, b, c);
    PlayEndsWith(world, [a, b, c], d);
    assert [a, b, c] + [d] == [a, b, c, d];
  }

  lemma PlayFive(world: World, a: Event, b: Event, c: Event, d: Event, e: Event)
    ensures Play(world, [a, b, c, d, e]) == Next(Next(Next(Next(Next(world, a), b), c), d), e)
  {
    hide Next, Play;
    PlayFour(world, a, b, c, d);
    PlayEndsWith(world, [a, b, c, d], e);
    assert [a, b, c, d] + [e] == [a, b, c, d, e];
  }

  /** The late answer of an older send reopens the delivery under a newer one: a message already delivered
      goes out again. */
  lemma {:induction false} StaleSendRepeats(world: World, id: DeliveryId, stale: nat)
    requires IsReady(world, id) && stale < |world.sends| && world.sends[stale].id == id
    requires MayReopen(world.sends[stale]) && world.sends[stale].attempt > 0
    ensures Unattended(RepeatingEvents(world, id, stale), id)
    ensures !OnlyRetriesAreRepeated(Play(world, RepeatingEvents(world, id, stale)).sends, |world.sends|, id)
  {
    var events := RepeatingEvents(world, id, stale);
    var again := |world.sends|;
    var first := Next(world, events[0]);
    var second := Next(first, events[1]);
    assert second.sends[stale].answer == Some(Retryable) && second.deliveries[id].state == SENDING;
    var third := Next(second, events[2]);
    assert third.deliveries[id].state == DELIVERY_PENDING && third.deliveries[id].nextAttemptAt.value <= 45_000;
    var fourth := Next(third, events[3]);
    assert fourth.sends[again].answer == Some(SentMessage);
    var fifth := Next(fourth, events[4]);
    PlayFive(world, events[0], events[1], events[2], events[3], events[4]);
    assert Play(world, events) == fifth;
    assert Precedes(fifth.sends, again, again + 1, id);
  }

  const NOTHING := World(map[], [])

  const RECIPIENT := "recipient"
  const NOTICE := DeliveryId("event", RECIPIENT)

  /** Registered, claimed, given up by the reconciler, and asked for again, while the first send is unanswered. */
  const GIVEN_UP := [Register("event", [RECIPIENT]), ClaimDelivery(NOTICE, 0), ReconcileUnknown(0),
      ManualRetry(NOTICE, true)]

  lemma GivenUp()
    ensures Play(NOTHING, GIVEN_UP) == World(map[NOTICE := Delivery(DELIVERY_PENDING, 0, None)],
        [Send(NOTICE, 1, None, false)])
  {
    PlayFour(NOTHING, GIVEN_UP[0], GIVEN_UP[1], GIVEN_UP[2], GIVEN_UP[3]);
    var first := Next(NOTHING, GIVEN_UP[0]);
    RegisterOne();
    var second := Next(first, GIVEN_UP[1]);
    assert second == World(map[NOTICE := Delivery(SENDING, 1, Some(0))], [Send(NOTICE, 1, None, false)]);
    var third := Next(second, GIVEN_UP[2]);
    assert third.deliveries == map[NOTICE := Delivery(DELIVERY_FAILED, 1, None)];
  }

  lemma RegisterOne()
    ensures Next(NOTHING, Register("event", [RECIPIENT])) ==
        World(map[NOTICE := Delivery(DELIVERY_PENDING, 0, None)], [])
  {
    assert Recipients([RECIPIENT]) == {RECIPIENT};
    assert RECIPIENT[0] != CONFIGURATION_RECIPIENT[0];
    assert Registered(map[], "event", [RECIPIENT]) == map[NOTICE := Delivery(DELIVERY_PENDING, 0, None)];
  }

  /** From empty tables: a human asks again for a delivery the reconciler has given up, the new send is delivered,
      and the late answer of the old send makes a dispatcher send the message once more. */
  lemma {:induction false} RepeatIsReached()
    ensures var world := Play(NOTHING, GIVEN_UP);
      && IsReady(world, NOTICE) && !NoStaleSend(world, NOTICE) && |world.sends| == 1
      && Unattended(RepeatingEvents(world, NOTICE, 0), NOTICE)
      && !OnlyRetriesAreRepeated(Play(world, RepeatingEvents(world, NOTICE, 0)).sends, 1, NOTICE)
  {
    GivenUp();
    StaleSendRepeats(Play(NOTHING, GIVEN_UP), NOTICE, 0);
  }

  predicate AttemptsNumbered(world: World) {
    forall i :: 0 <= i < |world.sends| ==> world.sends[i].attempt > 0
  }

  /** Whatever has happened so far, a ready delivery never repeats a send needlessly exactly when no older
      send of it may still be answered
      retryable. */
  lemma {:induction false} AskingAgainIsSafeExactly(past: seq<Event>, id: DeliveryId)
    requires IsReady(Play(NOTHING, past), id)
    ensures NeverRepeatsNeedlessly(Play(NOTHING, past), id) <==> NoStaleSend(Play(NOTHING, past), id)
  {
    var world := Play(NOTHING, past);
    NumberingIsKept(NOTHING, past);
    if NoStaleSend(world, id) {
      forall events | Unattended(events, id)
        ensures OnlyRetriesAreRepeated(Play(world, events).sends, |world.sends|, id)
      {
        AtMostThreeSends(world, id, events);
      }
    } else {
      var stale :| 0 <= stale < |world.sends| && world.sends[stale].id == id && MayReopen(world.sends[stale]);
      StaleSendRepeats(world, id, stale);
    }
  }

  /** What a caller of the retry can see: as long as nobody has asked for the delivery before, a row that shows
      no attempt or three attempts is safe to ask for again. */
  lemma {:induction false} RowShowsSafety(events: seq<Event>, id: DeliveryId, recipientConfigured: bool)
    requires Unattended(events, id) && id in Play(NOTHING, events).deliveries
    requires NeedsHuman(Play(NOTHING, events).deliveries[id])
        && Play(NOTHING, events).deliveries[id].attempts in {0, MAX_SENDS}
    ensures NoStaleSend(Next(Play(NOTHING, events), ManualRetry(id, recipientConfigured)), id)
  {
    EveryRowIsTracked(NOTHING, id, events);
  }

  /** No row without its sends, and sends are tracked from the beginning. */
  lemma {:induction false} EveryRowIsTracked(world: World, id: DeliveryId, events: seq<Event>)
    requires if id in world.deliveries then Tracked(world, 0, id) else forall i ::
        0 <= i < |world.sends| ==> world.sends[i].id != id
    requires Unattended(events, id)
    ensures id in Play(world, events).deliveries ==> Tracked(Play(world, events), 0, id)
    decreases |events|
  {
    if events != [] {
      var next := Next(world, events[0]);
      if id in world.deliveries {
        EventKeepsTracked(world, 0, id, events[0]);
      } else if id in next.deliveries {
        NoneCounted(next.sends, id);
      }
      EveryRowIsTracked(next, id, events[1..]);
    }
  }

  lemma {:induction false} NoneCounted(sends: seq<Send>, id: DeliveryId)
    requires forall i :: 0 <= i < |sends| ==> sends[i].id != id
    ensures CountFrom(sends, 0, id) == 0
    decreases |sends|
  {
    if sends != [] { NoneCounted(sends[..|sends| - 1], id); }
  }

  /** A row that shows one attempt or two tells nothing: the send behind it may have been refused for good, or
      may still be answered. Both leave the same row. */
  lemma {:induction false} RowHidesStaleSend()
    ensures var refused := [Register("event", [RECIPIENT]), ClaimDelivery(NOTICE, 0), Answered(0, Permanent),
        Report(0, 0)];
      var silent := [Register("event", [RECIPIENT]), ClaimDelivery(NOTICE, 0), ReconcileUnknown(0)];
      && Play(NOTHING, refused).deliveries == Play(NOTHING, silent).deliveries ==
          map[NOTICE := Delivery(DELIVERY_FAILED, 1, None)]
      && NoStaleSend(Next(Play(NOTHING, refused), ManualRetry(NOTICE, true)), NOTICE)
      && !NoStaleSend(Next(Play(NOTHING, silent), ManualRetry(NOTICE, true)), NOTICE)
  {
    RegisterOne();
    var first := Next(NOTHING, Register("event", [RECIPIENT]));
    var second := Next(first, ClaimDelivery(NOTICE, 0));
    assert second == World(map[NOTICE := Delivery(SENDING, 1, Some(0))], [Send(NOTICE, 1, None, false)]);
    PlayFour(NOTHING, Register("event", [RECIPIENT]), ClaimDelivery(NOTICE, 0), Answered(0, Permanent), Report(0, 0));
    PlayThree(NOTHING, Register("event", [RECIPIENT]), ClaimDelivery(NOTICE, 0), ReconcileUnknown(0));
    var third := Next(second, ReconcileUnknown(0));
    assert third.deliveries == map[NOTICE := Delivery(DELIVERY_FAILED, 1, None)] && MayReopen(third.sends[0]);
    var answered := Next(second, Answered(0, Permanent));
    assert answered.sends == [Send(NOTICE, 1, Some(Permanent), false)];
    var stored := Next(answered, Report(0, 0));
    assert stored.deliveries == map[NOTICE := Delivery(DELIVERY_FAILED, 1, None)]
        && stored.sends == [Send(NOTICE, 1, Some(Permanent), true)];
    var again := Next(third, ManualRetry(NOTICE, true));
    assert again.sends[0] == third.sends[0];
  }

  lemma {:induction false} NumberingIsKept(world: World, events: seq<Event>)
    requires AttemptsNumbered(world)
    ensures AttemptsNumbered(Play(world, events))
    decreases |events|
  {
    if events != [] {
      NumberingIsKept(Next(world, events[0]), events[1..]);
    }
  }

  /** A delivery registered in any reachable tables is sent at most three times in all, however the run goes on. */
  lemma {:induction false} FirstDeliveryIsSafe(events: seq<Event>, logicalKey: string, recipients: seq<string>,
      recipient: string, later: seq<Event>)
    requires recipient in recipients && recipient != CONFIGURATION_RECIPIENT
    requires DeliveryId(logicalKey, recipient) !in Play(NOTHING, events).deliveries
    requires Unattended(later, DeliveryId(logicalKey, recipient))
    ensures var world := Next(Play(NOTHING, events), Register(logicalKey, recipients));
            && CountFrom(Play(world, later).sends, |world.sends|, DeliveryId(logicalKey, recipient)) <= MAX_SENDS
            && OnlyRetriesAreRepeated(Play(world, later).sends, 0, DeliveryId(logicalKey, recipient))
  {
    var id := DeliveryId(logicalKey, recipient);
    var before := Play(NOTHING, events);
    SendsHaveRows(NOTHING, events);
    var world := Next(before, Register(logicalKey, recipients));
    assert recipient in Recipients(recipients);
    assert world.deliveries[id] == Fresh(recipient);
    AtMostThreeSends(world, id, later);
    RunKeepsPast(world, later);
    var after := Play(world, later);
    assert forall i :: 0 <= i < |world.sends| ==> after.sends[i].id != id;
  }

  predicate RowsExist(world: World) {
    forall i :: 0 <= i < |world.sends| ==> world.sends[i].id in world.deliveries
  }

  lemma {:induction false} SendsHaveRows(world: World, events: seq<Event>)
    requires RowsExist(world)
    ensures RowsExist(Play(world, events))
    decreases |events|
  {
    if events != [] {
      SendsHaveRows(Next(world, events[0]), events[1..]);
    }
  }

  /** The log of sends only grows, and a send keeps its delivery and its attempt. */
  lemma {:induction false} RunKeepsPast(world: World, events: seq<Event>)
    ensures |world.sends| <= |Play(world, events).sends|
    ensures forall i :: 0 <= i < |world.sends| ==>
              && Play(world, events).sends[i].id == world.sends[i].id
              && Play(world, events).sends[i].attempt == world.sends[i].attempt
    decreases |events|
  {
    if events != [] {
      RunKeepsPast(Next(world, events[0]), events[1..]);
    }
  }

  /** SENT is final: no later answer, reconciliation, registration or human request moves the delivery. */
  lemma {:induction false} SentIsFinal(world: World, id: DeliveryId, events: seq<Event>)
    requires id in world.deliveries && world.deliveries[id].state == DELIVERY_SENT
    ensures id in Play(world, events).deliveries && Play(world, events).deliveries[id] == world.deliveries[id]
    decreases |events|
  {
    if events != [] {
      var next := Next(world, events[0]);
      assert id in next.deliveries && next.deliveries[id] == world.deliveries[id];
      SentIsFinal(next, id, events[1..]);
    }
  }

  /** A retry waits out its delay: until then, whatever dispatchers and reconcilers do, the delivery is neither sent
      nor changed, unless a human asks for it. */
  lemma {:induction false} RetryWaits(world: World, id: DeliveryId, at: int, events: seq<Event>)
    requires id in world.deliveries && world.deliveries[id].state == DELIVERY_PENDING
        && world.deliveries[id].nextAttemptAt == Some(at)
    requires Unattended(events, id)
    requires forall i :: 0 <= i < |events| && events[i].ClaimDelivery? && events[i].id == id ==> events[i].now < at
    ensures id in Play(world, events).deliveries && Play(world, events).deliveries[id] == world.deliveries[id]
    decreases |events|
  {
    if events != [] {
      var next := Next(world, events[0]);
      assert !(events[0].ManualRetry? && events[0].id == id);
      assert id in next.deliveries && next.deliveries[id] == world.deliveries[id];
      RetryWaits(next, id, at, events[1..]);
    }
  }

  /** What a dispatcher stores after its send, while the delivery is still SENDING: a retry is due 5 or 15 seconds
      later, and there is none after the third attempt; an unknown result waits 5, 15 or 45 seconds for the
      reconciler. A delivery that has moved on is left alone. */
  lemma ReportExactly(world: World, send: nat, now: int)
    requires send < |world.sends| && world.sends[send].answer.Some? && !world.sends[send].reported
    requires world.sends[send].attempt >= 1 && world.sends[send].id in world.deliveries
    ensures var next, id := Next(world, Report(send, now)), world.sends[send].id;
      && next.sends == world.sends[send := world.sends[send].(reported := true)]
      && id in next.deliveries && next.deliveries == world.deliveries[id := next.deliveries[id]]
      && var before, after, n := world.deliveries[id], next.deliveries[id], world.sends[send].attempt;
        if before.state != SENDING then after == before
        else match world.sends[send].answer.value
          case SentMessage => after == Delivery(DELIVERY_SENT, before.attempts, None)
          case Retryable =>
            after == if n == 1 then Delivery(DELIVERY_PENDING, before.attempts, Some(now + 5_000))
              else if n == 2 then Delivery(DELIVERY_PENDING, before.attempts, Some(now + 15_000))
              else Delivery(DELIVERY_FAILED, before.attempts, None)
          case Permanent => after == Delivery(DELIVERY_FAILED, before.attempts, None)
          case UnknownResult =>
            after == Delivery(SENDING, before.attempts,
              Some(now + if n == 1 then 5_000 else if n == 2 then 15_000 else 45_000))
  {
  }

  /** A claim takes exactly a delivery that is PENDING and due; the reconciler fails exactly those that have been
      SENDING for too long. */
  lemma TakenExactly(world: World, id: DeliveryId, now: int)
    requires id in world.deliveries
    ensures var before := world.deliveries[id];
      && (Next(world, ClaimDelivery(id, now)) != world <==>
            before.state == DELIVERY_PENDING && (before.nextAttemptAt == None || before.nextAttemptAt.value <= now))
      && id in Next(world, ReconcileUnknown(now)).deliveries
      && Next(world, ReconcileUnknown(now)).deliveries[id] ==
          if before.state == SENDING && before.nextAttemptAt.Some? && before.nextAttemptAt.value <= now
          then Delivery(DELIVERY_FAILED, before.attempts, None) else before
  {
  }

  /** Registering an event again neither adds a row nor resets one, in whatever order the recipients are given. */
  lemma RegisteringAgainChangesNothing(deliveries: map<DeliveryId, Delivery>, logicalKey: string,
      recipients: seq<string>, again: seq<string>)
    requires forall recipient :: recipient in again <==> recipient in recipients
    ensures Registered(Registered(deliveries, logicalKey, recipients), logicalKey, again) ==
        Registered(deliveries, logicalKey, recipients)
    ensures forall id :: id in deliveries ==> Registered(deliveries, logicalKey, recipients)[id] == deliveries[id]
  {
    assert again == [] <==> recipients == [] by {
      if again != [] { assert again[0] in recipients; }
      if recipients != [] { assert recipients[0] in again; }
    }
    assert Recipients(again) == Recipients(recipients);
    var once := Registered(deliveries, logicalKey, recipients);
    var twice := Registered(once, logicalKey, again);
    assert twice.Keys == once.Keys;
  }

  lemma {:induction false} PlayConcatenates(world: World, first: seq<Event>, second: seq<Event>)
    ensures Play(world, first + second) == Play(Play(world, first), second)
    decreases |first|
  {
    if first == [] {
      assert first + second == second;
    } else {
      assert (first + second)[1..] == first[1..] + second;
      PlayConcatenates(Next(world, first[0]), first[1..], second);
    }
  }

  lemma {:induction false} PlayEndsWith(world: World, events: seq<Event>, event: Event)
    ensures Play(world, events + [event]) == Next(Play(world, events), event)
  {
    PlayConcatenates(world, events, [event]);
  }

  predicate IsDispatching(event: Event) {
    event.ClaimDelivery? || event.Answered? || event.Report?
  }

  /** The event is one of another process: before one of the claims, or while a send is under way. */
  ghost predicate IsAmong(event: Event, before: nat -> seq<Event>, meanwhile: nat -> seq<Event>) {
    (exists n: nat :: event in before(n)) || (exists n: nat :: event in meanwhile(n))
  }

  /** The due deliveries, in order. */
  function DueAmong(order: seq<DeliveryId>, deliveries: map<DeliveryId, Delivery>, now: int): (due: seq<DeliveryId>)
    ensures forall id :: id in due <==> id in order && id in deliveries && IsDue(deliveries[id], now)
  {
    if order == [] then []
    else
      var last := order[|order| - 1];
      DueAmong(order[..|order| - 1], deliveries, now)
          + (if last in deliveries && IsDue(deliveries[last], now) then [last] else [])
  }

  lemma {:induction false} DueGrows(order: seq<DeliveryId>, i: nat, deliveries: map<DeliveryId, Delivery>, now: int)
    requires i <= |order|
    ensures DueAmong(order[..i], deliveries, now) <= DueAmong(order, deliveries, now)
    ensures i == |order| ==> order[..i] == order
    decreases |order|
  {
    if i < |order| {
      DueGrows(order[..|order| - 1], i, deliveries, now);
      assert order[..|order| - 1][..i] == order[..i];
    } else {
      assert order[..i] == order;
    }
  }

  /** The first due deliveries, in order. */
  function FirstDue(order: seq<DeliveryId>, deliveries: map<DeliveryId, Delivery>, now: int,
      limit: nat): seq<DeliveryId> {
    var due := DueAmong(order, deliveries, now);
    if |due| <= limit then due else due[..limit]
  }

  /** The deliveries whose recipient is configured. */
  function Served(due: seq<DeliveryId>, recipients: map<string, string>): seq<DeliveryId> {
    if due == [] then []
    else
      var last := due[|due| - 1];
      Served(due[..|due| - 1], recipients) + (if last.recipient in recipients then [last] else [])
  }

  lemma ServedOneMore(due: seq<DeliveryId>, i: nat, recipients: map<string, string>)
    requires i < |due|
    ensures var served := Served(due[..i], recipients);
      Served(due[..i + 1], recipients) == if due[i].recipient in recipients then served + [due[i]] else served
  {
    assert due[..i + 1][..i] == due[..i];
  }

  /** A claim made after the first `n` events succeeds. */
  predicate ClaimsAt(world: World, events: seq<Event>, n: nat, id: DeliveryId, now: int)
    requires n <= |events|
  {
    var then_ := Play(world, events[..n]);
    id in then_.deliveries && IsDue(then_.deliveries[id], now)
  }

  /** The answer to the send that a claim after the first `n` events begins is heard and stored. */
  ghost predicate StoresAnswer(world: World, events: seq<Event>, n: nat, now: int, answers: nat -> SendResult)
    requires n <= |events|
  {
    var send := |Play(world, events[..n]).sends|;
    exists m: nat ::
        n < m && m + 1 < |events| && events[m] == Answered(send, answers(send)) && events[m + 1] == Report(send, now)
  }

  /** The delivery is claimed by the `n`-th event; if the claim succeeds it is sent and its answer stored. */
  ghost predicate ServesAt(world: World, events: seq<Event>, n: nat, id: DeliveryId, now: int,
      answers: nat -> SendResult) {
    && n < |events| && events[n] == ClaimDelivery(id, now)
    && (ClaimsAt(world, events, n, id, now) ==> StoresAnswer(world, events, n, now, answers))
  }

  /** Each of the deliveries is claimed, one after the other; `claims` says by which events. */
  ghost predicate Serves(world: World, events: seq<Event>, claims: seq<nat>, served: seq<DeliveryId>, now: int,
      answers: nat -> SendResult) {
    && |claims| == |served|
    && (forall k :: 0 <= k < |served| ==> ServesAt(world, events, claims[k], served[k], now, answers))
    && (forall j, k :: 0 <= j < k < |claims| ==> claims[j] < claims[k])
  }

  /** The deliveries whose claim succeeds, in order. */
  ghost function ClaimedAmong(world: World, events: seq<Event>, claims: seq<nat>, served: seq<DeliveryId>, now: int):
      seq<DeliveryId> {
    if served == [] || |claims| != |served| || claims[|claims| - 1] > |events| then []
    else
      var n := |served| - 1;
      ClaimedAmong(world, events, claims[..n], served[..n], now)
      + (if ClaimsAt(world, events, claims[n], served[n], now) then [served[n]] else [])
  }

  lemma PlayNothing(world: World)
    ensures Play(world, []) == world
  {
  }

  lemma NothingServed(world: World, now: int, answers: nat -> SendResult)
    ensures Serves(world, [], [], [], now, answers) && ClaimedAmong(world, [], [], [], now) == []
    ensures forall recipients :: Served([], recipients) == []
  {
  }

  lemma ServedStays(world: World, events: seq<Event>, more: seq<Event>, n: nat, id: DeliveryId, now: int,
      answers: nat -> SendResult)
    requires ServesAt(world, events, n, id, now, answers)
    ensures ServesAt(world, events + more, n, id, now, answers)
    ensures ClaimsAt(world, events + more, n, id, now) == ClaimsAt(world, events, n, id, now)
  {
    hide Play, IsDue;
    assert (events + more)[..n] == events[..n];
    if ClaimsAt(world, events, n, id, now) {
      var send := |Play(world, events[..n]).sends|;
      var m: nat :| n < m && m + 1 < |events| && events[m] == Answered(send, answers(send))
          && events[m + 1] == Report(send, now);
      assert (events + more)[m] == events[m] && (events + more)[m + 1] == events[m + 1];
    }
  }

  lemma {:induction false} ServeStays(world: World, events: seq<Event>, more: seq<Event>, claims: seq<nat>,
      served: seq<DeliveryId>, now: int, answers: nat -> SendResult)
    requires Serves(world, events, claims, served, now, answers)
    ensures Serves(world, events + more, claims, served, now, answers)
    ensures ClaimedAmong(world, events + more, claims, served, now) == ClaimedAmong(world, events, claims, served, now)
    decreases |served|
  {
    hide ServesAt, ClaimsAt;
    forall k | 0 <= k < |served|
      ensures ServesAt(world, events + more, claims[k], served[k], now, answers)
    {
      ServedStays(world, events, more, claims[k], served[k], now, answers);
    }
    if served != [] {
      var n := |served| - 1;
      ServedStays(world, events, more, claims[n], served[n], now, answers);
      ServedBefore(world, events, claims, served, now, answers);
      ServeStays(world, events, more, claims[..n], served[..n], now, answers);
    }
  }

  lemma ServedBefore(world: World, events: seq<Event>, claims: seq<nat>, served: seq<DeliveryId>, now: int,
      answers: nat -> SendResult)
    requires Serves(world, events, claims, served, now, answers) && served != []
    ensures claims[|served| - 1] < |events|
    ensures Serves(world, events, claims[..|served| - 1], served[..|served| - 1], now, answers)
  {
    hide ClaimsAt, StoresAnswer;
    assert ServesAt(world, events, claims[|served| - 1], served[|served| - 1], now, answers);
  }

  /** One more delivery is claimed after what others did, and, if the claim succeeds, sent and stored. */
  lemma ServesOneMore(world: World, done: seq<Event>, others: seq<Event>, events: seq<Event>, n: nat, claims: seq<nat>,
      served: seq<DeliveryId>, id: DeliveryId, now: int, answers: nat -> SendResult, claimable: bool, send: nat)
    requires Serves(world, done, claims, served, now, answers) && n == |done + others|
    requires done + others + [ClaimDelivery(id, now)] <= events
    requires claimable == ClaimsAt(world, done + others, n, id, now) && send == |Play(world, done + others).sends|
    requires claimable ==>
        && n + 2 < |events| && events[|events| - 2] == Answered(send, answers(send))
        && events[|events| - 1] == Report(send, now)
    ensures Serves(world, events, claims + [n], served + [id], now, answers)
    ensures ClaimedAmong(world, events, claims + [n], served + [id], now)
          == ClaimedAmong(world, done, claims, served, now) + (if claimable then [id] else [])
  {
    hide Play, IsDue;
    var more := events[|done|..];
    assert events == done + more;
    ServeStays(world, done, more, claims, served, now, answers);
    assert events[..n] == done + others && (done + others)[..n] == done + others && events[n] == ClaimDelivery(id, now);
    assert ServesAt(world, events, n, id, now, answers) by {
      if claimable { assert events[|events| - 2] == Answered(send, answers(send)); }
    }
    ClaimsAreBelow(world, done, claims, served, now, answers);
    assert (claims + [n])[..|served|] == claims && (served + [id])[..|served|] == served;
  }

  lemma ClaimsAreBelow(world: World, events: seq<Event>, claims: seq<nat>, served: seq<DeliveryId>, now: int,
      answers: nat -> SendResult)
    requires Serves(world, events, claims, served, now, answers)
    ensures forall k :: 0 <= k < |claims| ==> claims[k] < |events|
  {
    hide ClaimsAt, StoresAnswer;
    forall k | 0 <= k < |claims|
      ensures claims[k] < |events|
    {
      assert ServesAt(world, events, claims[k], served[k], now, answers);
    }
  }

  /** Only the dispatcher that made a send hears its answer and stores it. */
  predicate IsForeign(event: Event, send: nat) {
    (event.Answered? || event.Report?) ==> event.send != send
  }

  lemma {:induction false} OthersLeaveSend(world: World, events: seq<Event>, send: nat)
    requires send < |world.sends| && world.sends[send].id in world.deliveries && forall event ::
        event in events ==> IsForeign(event, send)
    ensures send < |Play(world, events).sends| && Play(world, events).sends[send] == world.sends[send]
    ensures world.sends[send].id in Play(world, events).deliveries
    decreases |events|
  {
    if events != [] {
      assert events[0] in events;
      OthersLeaveSend(Next(world, events[0]), events[1..], send);
    }
  }

  // ---------------------------------------------------------------------------------------------
  // The store and the dispatcher
  // ---------------------------------------------------------------------------------------------

  /** The delivery rows, with the log of what the transport was asked to send. */
  class NotificationDispatcher {
    var deliveries: map<DeliveryId, Delivery>
    var sends: seq<Send>

    ghost function Now(): World reads this { World(deliveries, sends) }

    constructor ()
      ensures Now() == World(map[], [])
    {
      deliveries := map[];
      sends := [];
    }

    method RegisterEvent(logicalKey: string, recipients: seq<string>)
      modifies this`deliveries
      ensures Now() == Next(old(Now()), Register(logicalKey, recipients))
    {
      ghost var before := deliveries;
      var references := if recipients == [] then [CONFIGURATION_RECIPIENT] else recipients;
      var i := 0;
      while i < |references|
        invariant 0 <= i <= |references|
        invariant forall id ::
            id in deliveries <==> id in before || (id.logicalKey == logicalKey && id.recipient in references[..i])
        invariant forall id ::
            id in deliveries ==> deliveries[id] == if id in before then before[id] else Fresh(id.recipient)
      {
        var id := DeliveryId(logicalKey, references[i]);
        if id !in deliveries {
          deliveries := deliveries[id := Delivery(if references[i] == CONFIGURATION_RECIPIENT then WAITING_CONFIGURATION
              else DELIVERY_PENDING, 0, None)];
        }
        i := i + 1;
      }
      assert references[..i] == references;
      var expected := Registered(before, logicalKey, recipients);
      forall id ensures id in expected <==> id in deliveries {
        assert id == DeliveryId(id.logicalKey, id.recipient);
        assert id.recipient in references <==> id.recipient in Recipients(recipients);
      }
      assert deliveries == expected;
    }

    /** The first due deliveries in the order of creation, up to the limit. */
    method Due(order: seq<DeliveryId>, now: int, limit: nat) returns (due: seq<DeliveryId>)
      ensures due == FirstDue(order, deliveries, now, limit)
    {
      due := [];
      var i := 0;
      while i < |order| && |due| < limit
        invariant 0 <= i <= |order| && |due| <= limit && due == DueAmong(order[..i], deliveries, now)
      {
        assert order[..i + 1][..i] == order[..i];
        if order[i] in deliveries && IsDue(deliveries[order[i]], now) {
          due := due + [order[i]];
        }
        i := i + 1;
      }
      DueGrows(order, i, deliveries, now);
    }

    method Claim(id: DeliveryId, now: int) returns (attempt: Option<nat>)
      modifies this
      ensures Now() == Next(old(Now()), ClaimDelivery(id, now))
      ensures attempt.Some? <==> id in old(deliveries) && IsDue(old(deliveries)[id], now)
      ensures attempt.Some? ==>
          |sends| == |old(sends)| + 1 && sends[|old(sends)|] == Send(id, attempt.value, None, false)
      ensures attempt.Some? ==> id in deliveries && deliveries[id].attempts == attempt.value > 0
    {
      if id in deliveries && deliveries[id].state == DELIVERY_PENDING
          && (deliveries[id].nextAttemptAt.None? || deliveries[id].nextAttemptAt.value <= now) {
        var claimed := Delivery(SENDING, deliveries[id].attempts + 1, Some(now));
        deliveries := deliveries[id := claimed];
        sends := sends + [Send(id, claimed.attempts, None, false)];
        attempt := Some(claimed.attempts);
      } else {
        attempt := None;
      }
    }

    /** The guarded updates a dispatcher may make after a send, chosen as its loop chooses them. */
    method Store(send: nat, result: SendResult, now: int)
      requires send < |sends| && sends[send].answer.None? && !sends[send].reported
      requires sends[send].attempt > 0 && sends[send].id in deliveries
      modifies this
      ensures Now() == Next(Next(old(Now()), Answered(send, result)), Report(send, now))
    {
      var id, attempt := sends[send].id, sends[send].attempt;
      sends := sends[send := Send(id, attempt, Some(result), true)];
      var row := deliveries[id];
      if row.state == SENDING {
        if result == SentMessage {
          row := row.(state := DELIVERY_SENT, nextAttemptAt := None);
        } else if result == Retryable && attempt < 3 {
          row := row.(state := DELIVERY_PENDING, nextAttemptAt := Some(now + BACKOFF_MS[attempt - 1]));
        } else if result == UnknownResult {
          row := row.(nextAttemptAt := Some(now + BACKOFF_MS[if attempt - 1 < 2 then attempt - 1 else 2]));
        } else {
          row := row.(state := DELIVERY_FAILED, nextAttemptAt := None);
        }
      }
      deliveries := deliveries[id := row];
    }

    /** What other processes do to the tables between two statements of the dispatcher. */
    method Interleave(events: seq<Event>)
      modifies this
      ensures Now() == Play(old(Now()), events)
    {
      var i := 0;
      var world := World(deliveries, sends);
      while i < |events|
        invariant 0 <= i <= |events|
        invariant Play(world, events[i..]) == Play(old(Now()), events)
      {
        world := Next(world, events[i]);
        i := i + 1;
      }
      deliveries, sends := world.deliveries, world.sends;
    }

    method Reconcile(now: int)
      modifies this`deliveries
      ensures Now() == Next(old(Now()), ReconcileUnknown(now))
    {
      deliveries := map id | id in deliveries ::
        if deliveries[id].state == SENDING && deliveries[id].nextAttemptAt.Some?
            && deliveries[id].nextAttemptAt.value <= now
        then deliveries[id].(state := DELIVERY_FAILED, nextAttemptAt := None) else deliveries[id];
    }

    method RetryManually(id: DeliveryId, recipientConfigured: bool) returns (changed: bool)
      modifies this`deliveries
      ensures Now() == Next(old(Now()), ManualRetry(id, recipientConfigured))
      ensures changed <==> id in old(deliveries) && NeedsHuman(old(deliveries)[id])
    {
      changed := id in deliveries && (deliveries[id].state == DELIVERY_FAILED
          || deliveries[id].state == WAITING_CONFIGURATION);
      if changed {
        deliveries := deliveries[id := Delivery(if recipientConfigured then DELIVERY_PENDING
            else WAITING_CONFIGURATION, 0, None)];
      }
    }

    /** One pass over the due deliveries. Other processes act before every claim, and while each send is under
        way: they may reconcile it away, and a human may ask for it again. Each of the first fifty due deliveries
        whose recipient is configured is claimed once, in order; the results are those whose claim succeeds, and
        each of these is sent and its answer stored. The pass is a run of claims, answers and reports among what
        others do, so everything proved about runs holds of it. */
    method Dispatch(recipients: map<string, string>, order: seq<DeliveryId>, now: int, answers: nat -> SendResult,
        before: nat -> seq<Event>, meanwhile: nat -> seq<Event>)
        returns (results: seq<DeliveryId>, ghost events: seq<Event>, ghost claims: seq<nat>)
      requires forall send: nat, event :: event in meanwhile(send) ==> IsForeign(event, send)
      modifies this
      ensures Now() == Play(old(Now()), events)
      ensures forall event :: event in events ==> IsDispatching(event) || IsAmong(event, before, meanwhile)
      ensures Serves(old(Now()), events, claims, Served(FirstDue(order, old(deliveries), now, 50), recipients), now,
          answers)
      ensures results == ClaimedAmong(old(Now()), events, claims,
          Served(FirstDue(order, old(deliveries), now, 50), recipients), now)
    {
      hide Serves, ClaimedAmong, Served, Play;
      var due := Due(order, now, 50);
      ghost var world := Now();
      results, events, claims := [], [], [];
      PlayNothing(world);
      assert due[..0] == [];
      NothingServed(world, now, answers);
      for i := 0 to |due|
        invariant Now() == Play(world, events)
        invariant forall event :: event in events ==> IsDispatching(event) || IsAmong(event, before, meanwhile)
        invariant Serves(world, events, claims, Served(due[..i], recipients), now, answers)
        invariant results == ClaimedAmong(world, events, claims, Served(due[..i], recipients), now)
      {
        ServedOneMore(due, i, recipients);
        if due[i].recipient in recipients {
          ghost var served := Served(due[..i], recipients);
          var claimed;
          claimed, events, claims := Serve(due[i], i, now, answers, before, meanwhile, world, events, claims, served);
          if claimed { results := results + [due[i]]; }
        }
      }
      assert due[..|due|] == due;
    }

    /** One due delivery: claimed and, if the claim succeeds, sent. */
    method Serve(id: DeliveryId, i: nat, now: int, answers: nat -> SendResult, before: nat -> seq<Event>,
        meanwhile: nat -> seq<Event>, ghost world: World, ghost done: seq<Event>, ghost earlier: seq<nat>,
        ghost served: seq<DeliveryId>)
        returns (claimed: bool, ghost events: seq<Event>, ghost claims: seq<nat>)
      requires Now() == Play(world, done) && Serves(world, done, earlier, served, now, answers)
      requires forall event :: event in done ==> IsDispatching(event) || IsAmong(event, before, meanwhile)
      requires forall send: nat, event :: event in meanwhile(send) ==> IsForeign(event, send)
      modifies this
      ensures Now() == Play(world, events) && Serves(world, events, claims, served + [id], now, answers)
      ensures forall event :: event in events ==> IsDispatching(event) || IsAmong(event, before, meanwhile)
      ensures var succeeded := ClaimedAmong(world, done, earlier, served, now);
        ClaimedAmong(world, events, claims, served + [id], now) == if claimed then succeeded + [id] else succeeded
    {
      hide Serves, ClaimedAmong, Play, StoresAnswer;
      Interleave(before(i));
      PlayConcatenates(world, done, before(i));
      events := done + before(i);
      ghost var n, send := |events|, |sends|;
      assert events[..n] == events;
      var attempt := Claim(id, now);
      claimed := attempt.Some?;
      PlayEndsWith(world, events, ClaimDelivery(id, now));
      events := events + [ClaimDelivery(id, now)];
      if claimed {
        events := Deliver(|sends| - 1, now, answers, meanwhile, world, events);
      }
      ServesOneMore(world, done, before(i), events, n, earlier, served, id, now, answers, claimed, send);
      claims := earlier + [n];
    }

    /** The claimed delivery is sent, and the answer is stored, while others go on. */
    method Deliver(send: nat, now: int, answers: nat -> SendResult, meanwhile: nat -> seq<Event>, ghost world: World,
        ghost before: seq<Event>) returns (ghost events: seq<Event>)
      requires Now() == Play(world, before) && send < |sends| && sends[send].answer.None? && !sends[send].reported
      requires sends[send].attempt > 0 && sends[send].id in deliveries
      requires forall event :: event in meanwhile(send) ==> IsForeign(event, send)
      modifies this
      ensures events == before + meanwhile(send) + [Answered(send, answers(send)), Report(send, now)]
      ensures Now() == Play(world, events)
    {
      hide Play;
      OthersLeaveSend(Now(), meanwhile(send), send);
      Interleave(meanwhile(send));
      PlayConcatenates(world, before, meanwhile(send));
      events := before + meanwhile(send);
      Store(send, answers(send), now);
      PlayEndsWith(world, events, Answered(send, answers(send)));
      PlayEndsWith(world, events + [Answered(send, answers(send))], Report(send, now));
      assert events + [Answered(send, answers(send))] + [Report(send, now)]
          == events + [Answered(send, answers(send)), Report(send, now)];
      events := events + [Answered(send, answers(send)), Report(send, now)];
    }
  }
}
