/** Publishers, workers and a broker that may lose, repeat and reorder, all over one database. Every event
    keeps it true that the message of a published row is on its way, or that its loss is on record. */
module DeliveryWorld {
  import opened Wrappers
  import opened RuntimeState
  import opened RuntimeTransitions
  import opened RuntimeInvariant
  import opened RuntimeSafety
  import opened RuntimeGuarantees
  import opened RuntimeOutbox

  // ---------------------------------------------------------------------------------------------
  // Messages
  // ---------------------------------------------------------------------------------------------

  datatype Envelope = Envelope(task: TaskId, version: nat, route: RoutingClass, attemptHint: nat)

  datatype Delivery = Undecodable | Message(envelope: Envelope)

  function KeyOf(e: Envelope): DispatchKey {
    DispatchKey(e.task, e.version)
  }

  predicate IsFor(d: Delivery, k: DispatchKey) {
    d.Message? && KeyOf(d.envelope) == k
  }

  /** The message of a row: the row exists, and the message is routed by the task's tool. */
  predicate Genuine(db: Db, e: Envelope) {
    KeyOf(e) in db.dispatches && e.task in db.tasks && e.route == db.tasks[e.task].tool.routingClass
  }

  /** What happened to one published message. A failed publish may still have reached the broker. */
  datatype Fate = Confirmed | Unroutable | Failed(reached: bool)

  predicate Reaches(fate: Fate) {
    fate == Confirmed || fate == Failed(true)
  }

  /** How far a worker is with a message: it waits for the claim's answer; the claim was refused for now and
      the row is to be deferred; it has a task to execute under a credential; it failed; or nothing is left but
      to acknowledge. */
  datatype Phase = Received | ToDefer | Working(c: Credential) | Failing | Settled

  datatype Holding = Holding(delivery: Delivery, phase: Phase)

  /** `sent` says which publisher has a row's message confirmed by the broker and has still to confirm the row.
      `lost` holds the rows whose latest message was lost by the broker or dead-lettered, `idled` those whose
      latest message was settled because the run could not start an attempt then. */
  datatype World = World(
    db: Db,
    broker: multiset<Delivery>,
    hands: map<nat, Holding>,
    nextTag: nat,
    sent: map<string, DispatchKey>,
    lost: set<DispatchKey>,
    idled: set<DispatchKey>)

  const QUIET := World(EMPTY, multiset{}, map[], 0, map[], {}, {})

  // ---------------------------------------------------------------------------------------------
  // Events
  // ---------------------------------------------------------------------------------------------

  predicate Deferral(code: Code) {
    code in {RABBIT_RUN_CONCURRENCY_LIMIT, RABBIT_POOL_CONCURRENCY_LIMIT, RABBIT_DEPENDENCY_NOT_READY,
        RABBIT_TASK_NOT_YET_AVAILABLE}
  }

  /** The commands that end an execution. */
  predicate IsReport(s: Step) {
    s.DoOutcome? || s.DoDefer? || s.DoWaitForHuman?
  }

  /** An event that is not possible changes nothing. `seen` says whether the answer reached the worker. */
  datatype Event =
    | Transact(s: Step)
    | Lease(publisher: string, now: int, leaseMs: int, size: int, batch: set<DispatchKey>)
    | Send(publisher: string, e: Envelope, fate: Fate)
    | Confirm(publisher: string, k: DispatchKey, now: int)
    | Crash(publisher: string)
    | Junk
    | Deliver(d: Delivery)
    | ClaimTask(tag: nat, e: Envelope, worker: Worker, now: int, leaseMs: int, limits: Limits, a: AttemptId, seen: bool)
    | DeferRow(tag: nat, e: Envelope, retryAt: int, seen: bool)
    | ReportTask(tag: nat, s: Step, seen: bool)
    | Throw(tag: nat)
    | Ack(tag: nat)
    | Nack(tag: nat)
    | DeadLetter(tag: nat)
    | Disconnect(tag: nat)
    | Lose(d: Delivery)

  predicate Holds(w: World, tag: nat, d: Delivery, phase: Phase) {
    tag in w.hands && w.hands[tag] == Holding(d, phase)
  }

  /** What a successful claim hands to the worker. */
  function CredentialFor(db: Db, e: Envelope, worker: Worker, a: AttemptId): Credential {
    Credential(e.task, a, worker, if e.task in db.tasks then db.tasks[e.task].leaseToken + 1 else 0)
  }

  /** After the claim's answer. */
  function AfterClaim(answer: Answer, seen: bool, c: Credential): Phase {
    if !seen then Failing
    else match answer
      case Null => Settled
      case Done => Working(c)
      case Refused(code) => if Deferral(code) then ToDefer else Failing
  }

  /** After the answer to the worker's report. */
  function AfterReport(answer: Answer, seen: bool): Phase {
    if seen && !answer.Refused? then Settled else Failing
  }

  function AfterDefer(answer: Answer, seen: bool): Phase {
    if answer == Done && seen then Settled else Failing
  }

  /** The worker executes the task of the message under the credential. */
  predicate WorksUnder(w: World, tag: nat, c: Credential) {
    tag in w.hands && w.hands[tag].phase == Working(c)
  }

  function KeysOf(d: Delivery): set<DispatchKey> {
    if d.Message? then {KeyOf(d.envelope)} else {}
  }

  function MoveTo(w: World, tag: nat, phase: Phase): World
    requires tag in w.hands
  {
    w.(hands := w.hands[tag := w.hands[tag].(phase := phase)])
  }

  function Claimed(w: World, e: Envelope, worker: Worker, now: int, leaseMs: int, limits: Limits,
      a: AttemptId): Commit {
    ClaimById(w.db, e.task, e.version, e.route, worker, now, leaseMs, limits, a)
  }

  function Happens(w: World, event: Event): World {
    match event
    case Transact(s) => if IsPublication(s) || !Quoted(w.db, s) then w else w.(db := Next(w.db, s))
    case Lease(p, now, leaseMs, size, batch) =>
      w.(db := ClaimDispatchBatch(w.db, p, now, leaseMs, size, batch).db, sent := w.sent - {p})
    case Send(p, e, fate) =>
      if !Genuine(w.db, e) || !Reaches(fate) then w
      else
        var arrived := w.(broker := w.broker + multiset{Message(e)}, lost := w.lost - {KeyOf(e)},
            idled := w.idled - {KeyOf(e)});
        if fate == Confirmed then arrived.(sent := w.sent[p := KeyOf(e)]) else arrived
    case Confirm(p, k, now) =>
      if !(p in w.sent && w.sent[p] == k) then w
          else w.(db := ConfirmDispatch(w.db, k, p, now).db, sent := w.sent - {p})
    case Crash(p) => w.(sent := w.sent - {p})
    case Junk => w.(broker := w.broker + multiset{Undecodable})
    case Deliver(d) =>
      if d !in w.broker then w
      else w.(broker := w.broker - multiset{d}, hands := w.hands[w.nextTag := Holding(d, Received)],
            nextTag := w.nextTag + 1)
    case ClaimTask(tag, e, worker, now, leaseMs, limits, a, seen) =>
      if now < 0 then w
      else
        var commit := Claimed(w, e, worker, now, leaseMs, limits, a);
        var next := w.(db := commit.db);
        if !Holds(w, tag, Message(e), Received) then next
        else
          var phase := AfterClaim(commit.answer, seen, CredentialFor(w.db, e, worker, a));
          MoveTo(next, tag, phase).(idled := if phase == Settled && Current(w.db, KeyOf(e)) then w.idled + {KeyOf(e)}
              else w.idled)
    case DeferRow(tag, e, retryAt, seen) =>
      var commit := DeferPublishedDispatch(w.db, e.task, e.version, retryAt);
      var next := w.(db := commit.db);
      if Holds(w, tag, Message(e), ToDefer) then MoveTo(next, tag, AfterDefer(commit.answer, seen)) else next
    case ReportTask(tag, s, seen) =>
      if !IsReport(s) || !Quoted(w.db, s) then w
      else
        var next := w.(db := Next(w.db, s));
        if WorksUnder(w, tag, s.c) then MoveTo(next, tag, AfterReport(Transition(w.db, s).answer, seen)) else next
    case Throw(tag) => if tag in w.hands then MoveTo(w, tag, Failing) else w
    case Ack(tag) => if tag in w.hands && w.hands[tag].phase == Settled then w.(hands := w.hands - {tag}) else w
    case Nack(tag) => if tag in w.hands && w.hands[tag].phase == Failing then Returned(w, tag) else w
    case DeadLetter(tag) =>
      if tag in w.hands && w.hands[tag].phase in {Received, Failing}
          then Forgotten(w.(hands := w.hands - {tag}), w.hands[tag].delivery) else w
    case Disconnect(tag) => if tag in w.hands then Returned(w, tag) else w
    case Lose(d) => if d in w.broker then Forgotten(w.(broker := w.broker - multiset{d}), d) else w
  }

  /** The broker takes an unacknowledged message back and will deliver it again. */
  function Returned(w: World, tag: nat): World
    requires tag in w.hands
  {
    w.(broker := w.broker + multiset{w.hands[tag].delivery}, hands := w.hands - {tag})
  }

  function Forgotten(w: World, d: Delivery): World {
    w.(lost := w.lost + KeysOf(d))
  }

  // ---------------------------------------------------------------------------------------------
  // Published rows are accounted for
  // ---------------------------------------------------------------------------------------------

  predicate OnBroker(w: World, k: DispatchKey) {
    exists d :: d in w.broker && IsFor(d, k)
  }

  /** A worker has the message and has not settled it. */
  predicate InHand(w: World, k: DispatchKey) {
    exists tag :: tag in w.hands && IsFor(w.hands[tag].delivery, k) && w.hands[tag].phase != Settled
  }

  /** The row's message is on its way, or its loss or settlement is on record. */
  predicate Accounted(w: World, k: DispatchKey) {
    OnBroker(w, k) || InHand(w, k) || k in w.lost || k in w.idled
  }

  /** Somebody has had the message of a current row confirmed by the broker. */
  predicate Vouched(w: World, k: DispatchKey) {
    && k in w.db.dispatches
    && Current(w.db, k)
    && (w.db.dispatches[k].state == PUBLISHED || exists p ::
        p in w.sent && w.sent[p] == k && PublishLeaseHeld(w.db, k, p))
  }

  ghost predicate HandSound(w: World, tag: nat)
    requires tag in w.hands
  {
    && tag < w.nextTag
    && (w.hands[tag].delivery.Message? ==> Genuine(w.db, w.hands[tag].delivery.envelope))
    && (w.hands[tag].phase.Working? ==>
        w.hands[tag].delivery.Message? && !Current(w.db, KeyOf(w.hands[tag].delivery.envelope)))
  }

  ghost predicate Shipped(w: World) {
    && (forall d :: d in w.broker && d.Message? ==> Genuine(w.db, d.envelope))
    && (forall tag :: tag in w.hands ==> HandSound(w, tag))
    && (forall p :: p in w.sent ==> w.sent[p] in w.db.dispatches)
  }

  ghost predicate AllAccounted(w: World) {
    forall k :: Vouched(w, k) ==> Accounted(w, k)
  }

  ghost predicate Sound(w: World) {
    && Safe(w.db)
    && RowsRouted(w.db)
    && Shipped(w)
    && AllAccounted(w)
  }

  // ---------------------------------------------------------------------------------------------
  // Changes of the database
  // ---------------------------------------------------------------------------------------------

  /** A transaction that publishes nothing. */
  ghost predicate Quiet(db: Db, next: Db) {
    Safe(db) && Safe(next) && Advances(db, next) && RowsRouted(next) && OutboxMoves(db, next)
  }

  lemma StepIsQuiet(db: Db, s: Step)
    requires Safe(db) && RowsRouted(db) && Quoted(db, s) && !IsPublication(s)
    ensures Quiet(db, Next(db, s))
  {
    hide Safe, RowsRouted, OutboxMoves, TasksAdvance, Quoted, Next;
    StepKeepsSafe(db, s);
    OnlyPublishersPublish(db, s);
    MovedRowsRouted(db, Next(db, s));
  }

  lemma GenuineStays(db: Db, next: Db, e: Envelope)
    requires TasksAdvance(db.tasks, next.tasks) && db.dispatches.Keys <= next.dispatches.Keys && Genuine(db, e)
    ensures Genuine(next, e)
  {
    assert TaskAdvances(db.tasks[e.task], next.tasks[e.task]);
  }

  lemma AdvancedShipped(w: World, next: World)
    requires Shipped(w) && Safe(w.db) && Advances(w.db, next.db) && next == w.(db := next.db)
    ensures Shipped(next)
  {
    hide Linked, Leased, Attempted, Counted, RetriesBounded, Honest, Budgeted, Current, RunsAdvance, AttemptsAdvance,
      TasksAdvance, Dispatched, Genuine;
    forall d | d in w.broker && d.Message?
      ensures Genuine(next.db, d.envelope)
    {
      GenuineStays(w.db, next.db, d.envelope);
    }
    forall tag | tag in w.hands
      ensures HandSound(next, tag)
    {
      assert HandSound(w, tag);
      if w.hands[tag].delivery.Message? {
        var e := w.hands[tag].delivery.envelope;
        GenuineStays(w.db, next.db, e);
        GenuineRow(w.db, e);
        if Current(next.db, KeyOf(e)) { CurrentStays(w.db, next.db, KeyOf(e)); }
      }
    }
  }

  lemma GenuineRow(db: Db, e: Envelope)
    requires Genuine(db, e)
    ensures KeyOf(e) in db.dispatches
  {
  }

  lemma QuietVouched(w: World, next: World, k: DispatchKey)
    requires Quiet(w.db, next.db) && next.sent == w.sent && Vouched(next, k)
    ensures Vouched(w, k)
  {
    hide Linked, Leased, Attempted, Counted, RetriesBounded, Honest, Budgeted, Current, RowsRouted, TasksAdvance,
      Dispatched, RunsAdvance, AttemptsAdvance;
    assert RowMoves(w.db, next.db, k);
    CurrentStays(w.db, next.db, k);
  }

  /** Everything but the database stays. */
  lemma QuietKeepsSound(w: World, next: World)
    requires Sound(w) && next == w.(db := next.db) && Quiet(w.db, next.db)
    ensures Sound(next)
  {
    hide Safe, Advances, RowsRouted, OutboxMoves, Shipped, Vouched, OnBroker, InHand;
    AdvancedShipped(w, next);
    forall k | Vouched(next, k)
      ensures Accounted(next, k)
    {
      QuietVouched(w, next, k);
      SameMessages(w, next, k);
    }
  }

  lemma SameMessages(w: World, next: World, k: DispatchKey)
    requires next.broker == w.broker && next.hands == w.hands && next.lost == w.lost && next.idled == w.idled
        && Accounted(w, k)
    ensures Accounted(next, k)
  {
  }

  // ---------------------------------------------------------------------------------------------
  // Publishers
  // ---------------------------------------------------------------------------------------------

  lemma LeasedRows(db: Db, p: string, now: int, leaseMs: int, size: int, batch: set<DispatchKey>, k: DispatchKey)
    requires k in db.dispatches
    ensures var next := ClaimDispatchBatch(db, p, now, leaseMs, size, batch).db;
      && next.dispatches.Keys == db.dispatches.Keys
      && (next.dispatches[k].state == PUBLISHED
          || (next.dispatches[k].state == PUBLISHING && next.dispatches[k].publishOwner != Some(p)) ==>
            next.dispatches[k] == db.dispatches[k])
  {
    hide Publishable;
  }

  lemma LeaseKeepsSound(w: World, p: string, now: int, leaseMs: int, size: int, batch: set<DispatchKey>)
    requires Sound(w)
    ensures Sound(Happens(w, Lease(p, now, leaseMs, size, batch)))
  {
    hide Safe, Advances, RowsRouted, Shipped, Vouched, Accounted, ClaimDispatchBatch;
    var s := DoClaimDispatchBatch(p, now, leaseMs, size, batch);
    var next := Happens(w, Lease(p, now, leaseMs, size, batch));
    StepKeepsSafe(w.db, s);
    PublicationRowsRouted(w.db, s);
    AdvancedShipped(w, w.(db := next.db));
    FewerSent(w.(db := next.db), next);
    forall k | Vouched(next, k)
      ensures Accounted(next, k)
    {
      LeaseVouched(w, p, now, leaseMs, size, batch, k);
      SameMessages(w, next, k);
    }
  }

  lemma FewerSent(w: World, next: World)
    requires Shipped(w) && next == w.(sent := next.sent) && next.sent.Keys <= w.sent.Keys && forall p ::
        p in next.sent ==> next.sent[p] == w.sent[p]
    ensures Shipped(next)
  {
    assert forall tag :: tag in w.hands ==> HandSound(w, tag);
  }

  lemma LeaseVouched(w: World, p: string, now: int, leaseMs: int, size: int, batch: set<DispatchKey>, k: DispatchKey)
    requires Vouched(Happens(w, Lease(p, now, leaseMs, size, batch)), k)
    ensures Vouched(w, k)
  {
    hide ClaimDispatchBatch;
    ClaimDispatchBatchFrame(w.db, p, now, leaseMs, size, batch);
    LeasedKeys(w.db, p, now, leaseMs, size, batch);
    LeasedRows(w.db, p, now, leaseMs, size, batch, k);
  }

  lemma LeasedKeys(db: Db, p: string, now: int, leaseMs: int, size: int, batch: set<DispatchKey>)
    ensures ClaimDispatchBatch(db, p, now, leaseMs, size, batch).db.dispatches.Keys == db.dispatches.Keys
  {
    hide Publishable;
  }

  lemma SendKeepsSound(w: World, p: string, e: Envelope, fate: Fate)
    requires Sound(w)
    ensures Sound(Happens(w, Send(p, e, fate)))
  {
    hide Safe, RowsRouted, Vouched, Accounted, Current, Genuine, HandSound;
    var next := Happens(w, Send(p, e, fate));
    if Genuine(w.db, e) && Reaches(fate) {
      GenuineRow(w.db, e);
      assert Shipped(next) by { SentShipped(w, next, p, e); }
      hide Shipped;
      forall k | Vouched(next, k)
        ensures Accounted(next, k)
      {
        SentAccounted(w, next, p, e, k);
      }
    }
  }

  lemma SentShipped(w: World, next: World, p: string, e: Envelope)
    requires Shipped(w) && Genuine(w.db, e) && next.db == w.db && next.hands == w.hands && next.nextTag == w.nextTag
    requires next.broker == w.broker + multiset{Message(e)}
        && (next.sent == w.sent || next.sent == w.sent[p := KeyOf(e)])
    ensures Shipped(next)
  {
    hide Current;
    forall d | d in next.broker && d.Message?
      ensures Genuine(next.db, d.envelope)
    {
      assert d in w.broker || d == Message(e);
    }
    forall tag | tag in next.hands
      ensures HandSound(next, tag)
    {
      assert HandSound(w, tag);
    }
  }

  lemma SentAccounted(w: World, next: World, p: string, e: Envelope, k: DispatchKey)
    requires AllAccounted(w) && Vouched(next, k) && next.db == w.db && next.hands == w.hands
    requires next.broker == w.broker + multiset{Message(e)}
        && (next.sent == w.sent || next.sent == w.sent[p := KeyOf(e)])
    requires next.lost == w.lost - {KeyOf(e)} && next.idled == w.idled - {KeyOf(e)}
    ensures Accounted(next, k)
  {
    hide Current, PublishLeaseHeld;
    if k == KeyOf(e) {
      assert Message(e) in next.broker && IsFor(Message(e), k);
    } else {
      assert Vouched(w, k);
      if OnBroker(w, k) {
        var d :| d in w.broker && IsFor(d, k);
        assert d in next.broker;
      }
    }
  }

  lemma ConfirmKeepsSound(w: World, p: string, k: DispatchKey, now: int)
    requires Sound(w)
    ensures Sound(Happens(w, Confirm(p, k, now)))
  {
    hide Safe, Advances, RowsRouted, Shipped, Vouched, Accounted, ConfirmDispatch;
    if p in w.sent && w.sent[p] == k {
      var s := DoConfirmDispatch(k, p, now);
      var next := Happens(w, Confirm(p, k, now));
      StepKeepsSafe(w.db, s);
      PublicationRowsRouted(w.db, s);
      AdvancedShipped(w, w.(db := next.db));
      FewerSent(w.(db := next.db), next);
      forall l | Vouched(next, l)
        ensures Accounted(next, l)
      {
        ConfirmVouched(w, p, k, now, l);
        SameMessages(w, next, l);
      }
    }
  }

  lemma ConfirmVouched(w: World, p: string, k: DispatchKey, now: int, l: DispatchKey)
    requires p in w.sent && w.sent[p] == k && Vouched(Happens(w, Confirm(p, k, now)), l)
    ensures Vouched(w, l)
  {
  }

  lemma CrashKeepsSound(w: World, p: string)
    requires Sound(w)
    ensures Sound(Happens(w, Crash(p)))
  {
    hide Safe, RowsRouted, Shipped, Accounted;
    var next := Happens(w, Crash(p));
    FewerSent(w, next);
    forall k | Vouched(next, k)
      ensures Accounted(next, k)
    {
      assert Vouched(w, k);
      SameMessages(w, next, k);
    }
  }

  // ---------------------------------------------------------------------------------------------
  // The broker
  // ---------------------------------------------------------------------------------------------

  /** Only messages move: between the broker, the hands of workers, and the record of losses. */
  ghost predicate OnlyMessages(w: World, next: World) {
    next.db == w.db && next.sent == w.sent
  }

  lemma MessagesKeepSound(w: World, next: World)
    requires Sound(w) && OnlyMessages(w, next) && Shipped(next) && forall k :: Accounted(w, k) ==> Accounted(next, k)
    ensures Sound(next)
  {
    hide Safe, RowsRouted, Shipped, Accounted;
    forall k | Vouched(next, k)
      ensures Accounted(next, k)
    {
      assert Vouched(w, k);
    }
  }

  lemma JunkKeepsSound(w: World)
    requires Sound(w)
    ensures Sound(Happens(w, Junk))
  {
    hide Safe, RowsRouted, AllAccounted, Genuine, Current;
    var next := Happens(w, Junk);
    assert forall tag :: tag in w.hands ==> HandSound(w, tag);
    forall d | d in next.broker && d.Message?
      ensures Genuine(next.db, d.envelope)
    {
      assert d in w.broker;
    }
    forall k | Accounted(w, k)
      ensures Accounted(next, k)
    {
      if OnBroker(w, k) {
        var d :| d in w.broker && IsFor(d, k);
        assert d in next.broker;
      }
    }
    MessagesKeepSound(w, next);
  }

  lemma DeliverKeepsSound(w: World, d: Delivery)
    requires Sound(w) && d in w.broker
    ensures Sound(Happens(w, Deliver(d)))
  {
    hide Safe, RowsRouted, AllAccounted, Genuine, Current;
    var next := Happens(w, Deliver(d));
    forall tag | tag in next.hands
      ensures HandSound(next, tag)
    {
      if tag in w.hands { assert HandSound(w, tag); }
    }
    TagIsFree(w);
    forall k | Accounted(w, k)
      ensures Accounted(next, k)
    {
      DeliverAccounted(w, d, k);
    }
    MessagesKeepSound(w, next);
  }

  lemma TagIsFree(w: World)
    requires Shipped(w)
    ensures w.nextTag !in w.hands
  {
    hide Genuine, Current;
    assert forall tag :: tag in w.hands ==> HandSound(w, tag);
  }

  lemma DeliverAccounted(w: World, d: Delivery, k: DispatchKey)
    requires d in w.broker && w.nextTag !in w.hands && Accounted(w, k)
    ensures Accounted(Happens(w, Deliver(d)), k)
  {
    var next := Happens(w, Deliver(d));
    if InHand(w, k) {
      var tag :| tag in w.hands && IsFor(w.hands[tag].delivery, k) && w.hands[tag].phase != Settled;
      assert tag in next.hands && next.hands[tag] == w.hands[tag];
    } else if OnBroker(w, k) {
      var x :| x in w.broker && IsFor(x, k);
      if x == d { assert next.hands[w.nextTag].delivery == d; } else { assert x in next.broker; }
    }
  }

  /** A message goes from a worker's hands back to the broker. */
  lemma ReturnKeepsSound(w: World, tag: nat)
    requires Sound(w) && tag in w.hands
    ensures Sound(Returned(w, tag))
  {
    hide Safe, RowsRouted, AllAccounted, Genuine, Current;
    var next := Returned(w, tag);
    assert HandSound(w, tag);
    assert forall t :: t in next.hands ==> HandSound(w, t);
    forall d | d in next.broker && d.Message?
      ensures Genuine(next.db, d.envelope)
    {
      assert d in w.broker || d == w.hands[tag].delivery;
    }
    forall k | Accounted(w, k)
      ensures Accounted(next, k)
    {
      ReturnAccounted(w, tag, k);
    }
    MessagesKeepSound(w, next);
  }

  lemma ReturnAccounted(w: World, tag: nat, k: DispatchKey)
    requires tag in w.hands && Accounted(w, k)
    ensures Accounted(Returned(w, tag), k)
  {
    var next := Returned(w, tag);
    if OnBroker(w, k) {
      var d :| d in w.broker && IsFor(d, k);
      assert d in next.broker;
    } else if InHand(w, k) {
      var t :| t in w.hands && IsFor(w.hands[t].delivery, k) && w.hands[t].phase != Settled;
      if t == tag { assert w.hands[t].delivery in next.broker; }
          else { assert t in next.hands && next.hands[t] == w.hands[t]; }
    }
  }

  /** A message leaves a worker's hands: it was settled, or its loss is recorded. */
  lemma DropKeepsSound(w: World, tag: nat, next: World)
    requires Sound(w) && tag in w.hands && next == w.(hands := w.hands - {tag}, lost := next.lost)
        && w.lost <= next.lost
    requires w.hands[tag].phase == Settled || KeysOf(w.hands[tag].delivery) <= next.lost
    ensures Sound(next)
  {
    hide Safe, RowsRouted, AllAccounted, Genuine, Current;
    assert forall t :: t in next.hands ==> HandSound(w, t);
    forall k | Accounted(w, k)
      ensures Accounted(next, k)
    {
      if OnBroker(w, k) {
        var d :| d in w.broker && IsFor(d, k);
        assert d in next.broker;
      } else if InHand(w, k) {
        var t :| t in w.hands && IsFor(w.hands[t].delivery, k) && w.hands[t].phase != Settled;
        if t != tag { assert t in next.hands && next.hands[t] == w.hands[t]; }
      }
    }
    MessagesKeepSound(w, next);
  }

  lemma LoseKeepsSound(w: World, d: Delivery)
    requires Sound(w) && d in w.broker
    ensures Sound(Happens(w, Lose(d)))
  {
    hide Safe, RowsRouted, AllAccounted, Genuine, Current;
    var next := Happens(w, Lose(d));
    assert forall t :: t in next.hands ==> HandSound(w, t);
    forall k | Accounted(w, k)
      ensures Accounted(next, k)
    {
      if OnBroker(w, k) {
        var x :| x in w.broker && IsFor(x, k);
        if x != d { assert x in next.broker; }
      } else if InHand(w, k) {
        var t :| t in w.hands && IsFor(w.hands[t].delivery, k) && w.hands[t].phase != Settled;
        assert t in next.hands;
      }
    }
    MessagesKeepSound(w, next);
  }

  // ---------------------------------------------------------------------------------------------
  // Workers
  // ---------------------------------------------------------------------------------------------

  /** A worker's message changes its phase. It is settled only if its row is no longer current, or is not
      vouched for any more, or the settlement is on record. */
  lemma MoveKeepsSound(w: World, tag: nat, phase: Phase, next: World)
    requires Sound(w) && tag in w.hands && next == MoveTo(w, tag, phase).(idled := next.idled) && w.idled <= next.idled
    requires phase.Working? || phase.Settled? ==>
        w.hands[tag].delivery.Message? && var k := KeyOf(w.hands[tag].delivery.envelope);
        if phase.Working? then !Current(w.db, k) else !Vouched(w, k) || k in next.idled
    ensures Sound(next)
  {
    hide Safe, RowsRouted, Genuine, Current, PublishLeaseHeld;
    assert HandSound(w, tag);
    forall t | t in next.hands
      ensures HandSound(next, t)
    {
      assert HandSound(w, t);
    }
    forall k | Vouched(next, k)
      ensures Accounted(next, k)
    {
      assert Vouched(w, k);
      MoveAccounted(w, tag, phase, next, k);
    }
  }

  lemma MoveAccounted(w: World, tag: nat, phase: Phase, next: World, k: DispatchKey)
    requires tag in w.hands && next == MoveTo(w, tag, phase).(idled := next.idled) && w.idled <= next.idled
        && Accounted(w, k)
    requires phase == Settled && IsFor(w.hands[tag].delivery, k) ==> k in next.idled
    ensures Accounted(next, k)
  {
    if InHand(w, k) {
      var t :| t in w.hands && IsFor(w.hands[t].delivery, k) && w.hands[t].phase != Settled;
      assert t in next.hands && (t != tag ==> next.hands[t] == w.hands[t]);
      if t == tag { assert next.hands[t].delivery == w.hands[t].delivery && next.hands[t].phase == phase; }
    }
  }

  /** A row whose version is not at hand is not current. */
  lemma GenuineIsAtVersion(db: Db, e: Envelope)
    requires Safe(db) && Genuine(db, e)
    ensures AtVersion(db, e.task, e.version, e.route) <==> Current(db, KeyOf(e))
  {
    hide Leased, Dispatched, Attempted, Counted, RetriesBounded, Honest, Budgeted;
    assert TaskSound(db.runs, db.tasks, db.groups, e.task);
  }

  /** After an accepted claim the version is passed. */
  lemma ClaimPasses(db: Db, e: Envelope, worker: Worker, now: int, leaseMs: int, limits: Limits, a: AttemptId)
    requires ClaimById(db, e.task, e.version, e.route, worker, now, leaseMs, limits, a).answer == Done
    ensures !Current(ClaimById(db, e.task, e.version, e.route, worker, now, leaseMs, limits, a).db, KeyOf(e))
  {
    hide StartGroup, Eligible, DependencyBlocked, RunFull, PoolFull;
  }

  lemma ClaimTaskKeepsSound(w: World, tag: nat, e: Envelope, worker: Worker, now: int, leaseMs: int, limits: Limits,
      a: AttemptId, seen: bool)
    requires Sound(w) && now >= 0
    ensures Sound(Happens(w, ClaimTask(tag, e, worker, now, leaseMs, limits, a, seen)))
  {
    hide Safe, RowsRouted, Shipped, AllAccounted, ClaimById, Current, Quiet, Vouched, Deferral;
    var s := DoClaimById(e.task, e.version, e.route, worker, now, leaseMs, limits, a);
    var commit := Claimed(w, e, worker, now, leaseMs, limits, a);
    var next := w.(db := commit.db);
    StepIsQuiet(w.db, s);
    QuietKeepsSound(w, next);
    if Holds(w, tag, Message(e), Received) {
      HeldIsGenuine(w, tag);
      var phase := AfterClaim(commit.answer, seen, CredentialFor(w.db, e, worker, a));
      if phase.Working? { ClaimPasses(w.db, e, worker, now, leaseMs, limits, a); }
      if phase == Settled {
        NullChangesNothing(w.db, e, worker, now, leaseMs, limits, a);
        VouchedIsCurrent(next, KeyOf(e));
      }
      MoveKeepsSound(next, tag, phase, Happens(w, ClaimTask(tag, e, worker, now, leaseMs, limits, a, seen)));
    }
  }

  lemma VouchedIsCurrent(w: World, k: DispatchKey)
    ensures Vouched(w, k) ==> Current(w.db, k)
  {
  }

  lemma HeldIsGenuine(w: World, tag: nat)
    requires Shipped(w) && tag in w.hands && w.hands[tag].delivery.Message?
    ensures Genuine(w.db, w.hands[tag].delivery.envelope)
  {
    assert HandSound(w, tag);
  }

  lemma NullChangesNothing(db: Db, e: Envelope, worker: Worker, now: int, leaseMs: int, limits: Limits, a: AttemptId)
    requires ClaimById(db, e.task, e.version, e.route, worker, now, leaseMs, limits, a).answer == Null
    ensures ClaimById(db, e.task, e.version, e.route, worker, now, leaseMs, limits, a).db == db
  {
    hide StartGroup, StartAttempt, Eligible, DependencyBlocked, RunFull, PoolFull;
  }

  lemma DeferRowKeepsSound(w: World, tag: nat, e: Envelope, retryAt: int, seen: bool)
    requires Sound(w)
    ensures Sound(Happens(w, DeferRow(tag, e, retryAt, seen)))
  {
    hide Safe, RowsRouted, Shipped, AllAccounted, DeferPublishedDispatch, Current, Quiet, Vouched;
    var commit := DeferPublishedDispatch(w.db, e.task, e.version, retryAt);
    var next := w.(db := commit.db);
    StepIsQuiet(w.db, DoDeferPublished(e.task, e.version, retryAt));
    QuietKeepsSound(w, next);
    if Holds(w, tag, Message(e), ToDefer) {
      if commit.answer == Done { DeferredIsPending(w, e, retryAt); }
      MoveKeepsSound(next, tag, AfterDefer(commit.answer, seen), Happens(w, DeferRow(tag, e, retryAt, seen)));
    }
  }

  lemma DeferredIsPending(w: World, e: Envelope, retryAt: int)
    requires DeferPublishedDispatch(w.db, e.task, e.version, retryAt).answer == Done
    ensures !Vouched(w.(db := DeferPublishedDispatch(w.db, e.task, e.version, retryAt).db), KeyOf(e))
  {
  }

  lemma EventKeepsSound(w: World, event: Event)
    requires Sound(w)
    ensures Sound(Happens(w, event))
  {
    hide Sound, Quoted, Next, Returned, MoveTo, ClaimDispatchBatch, ConfirmDispatch, DeferPublishedDispatch, ClaimById,
      Genuine, Reaches;
    match event
    case Transact(s) => TransactKeepsSound(w, s);
    case Lease(p, now, leaseMs, size, batch) => LeaseKeepsSound(w, p, now, leaseMs, size, batch);
    case Send(p, e, fate) => SendKeepsSound(w, p, e, fate);
    case Confirm(p, k, now) => ConfirmKeepsSound(w, p, k, now);
    case Crash(p) => CrashKeepsSound(w, p);
    case Junk => JunkKeepsSound(w);
    case Deliver(d) => if d in w.broker { DeliverKeepsSound(w, d); }
    case ClaimTask(tag, e, worker, now, leaseMs, limits, a, seen) =>
      if now >= 0 { ClaimTaskKeepsSound(w, tag, e, worker, now, leaseMs, limits, a, seen); }
    case DeferRow(tag, e, retryAt, seen) => DeferRowKeepsSound(w, tag, e, retryAt, seen);
    case ReportTask(tag, s, seen) => ReportKeepsSound(w, tag, s, seen);
    case Throw(tag) => ThrowKeepsSound(w, tag);
    case Ack(tag) => ReleaseKeepsSound(w, tag);
    case Nack(tag) => if tag in w.hands { ReturnKeepsSound(w, tag); }
    case DeadLetter(tag) => ReleaseKeepsSound(w, tag);
    case Disconnect(tag) => if tag in w.hands { ReturnKeepsSound(w, tag); }
    case Lose(d) => if d in w.broker { LoseKeepsSound(w, d); }
  }

  lemma TransactKeepsSound(w: World, s: Step)
    requires Sound(w)
    ensures Sound(Happens(w, Transact(s)))
  {
    hide Safe, RowsRouted, Shipped, AllAccounted, Quiet, Quoted, Next;
    if !IsPublication(s) && Quoted(w.db, s) {
      StepIsQuiet(w.db, s);
      QuietKeepsSound(w, w.(db := Next(w.db, s)));
    }
  }

  lemma ReportKeepsSound(w: World, tag: nat, s: Step, seen: bool)
    requires Sound(w)
    ensures Sound(Happens(w, ReportTask(tag, s, seen)))
  {
    hide Safe, RowsRouted, AllAccounted, Vouched, Current, Genuine, Quiet, Quoted, Transition, Next;
    if IsReport(s) && Quoted(w.db, s) {
      var next := w.(db := Next(w.db, s));
      StepIsQuiet(w.db, s);
      QuietKeepsSound(w, next);
      if WorksUnder(w, tag, s.c) {
        var phase := AfterReport(Transition(w.db, s).answer, seen);
        assert HandSound(next, tag);
        VouchedIsCurrent(next, KeyOf(w.hands[tag].delivery.envelope));
        MoveKeepsSound(next, tag, phase, MoveTo(next, tag, phase));
      }
    }
  }

  lemma ThrowKeepsSound(w: World, tag: nat)
    requires Sound(w)
    ensures Sound(Happens(w, Throw(tag)))
  {
    hide Safe, RowsRouted, AllAccounted, Vouched, Current, Genuine;
    if tag in w.hands { MoveKeepsSound(w, tag, Failing, MoveTo(w, tag, Failing)); }
  }

  lemma ReleaseKeepsSound(w: World, tag: nat)
    requires Sound(w)
    ensures Sound(Happens(w, Ack(tag))) && Sound(Happens(w, DeadLetter(tag)))
  {
    hide Sound;
    if tag in w.hands {
      var dropped := w.(hands := w.hands - {tag});
      if w.hands[tag].phase == Settled { DropKeepsSound(w, tag, dropped); }
      DropKeepsSound(w, tag, Forgotten(dropped, w.hands[tag].delivery));
    }
  }
}
