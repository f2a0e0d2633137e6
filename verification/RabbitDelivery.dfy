/** The publisher's round and the worker's handling of a message, with everybody else's events at every await. */
module RabbitDelivery {
  import opened Wrappers
  import opened RuntimeState
  import opened RuntimeTransitions
  import opened RuntimeInvariant
  import opened RuntimeUnits
  import opened RuntimeSafety
  import opened RuntimeGuarantees
  import opened RuntimeOutbox
  import opened RuntimeRepository
  import opened DeliveryWorld

  function Power(n: nat): (p: nat)
    ensures p >= 1
  {
    if n == 0 then 1 else 2 * Power(n - 1)
  }

  function Min(x: int, y: int): int {
    if x < y then x else y
  }

  function Max(x: int, y: int): int {
    if x < y then y else x
  }

  function PublishBackoff(attemptHint: nat): int {
    Min(30_000, 250 * Power(Min(attemptHint, 7)))
  }

  /** The retry delay doubles from a quarter of a second with each attempt and never exceeds thirty seconds, which it
      reaches at the eighth. */
  lemma BackoffIsBounded(n: nat, m: nat)
    ensures 250 <= PublishBackoff(n) <= 30_000
    ensures n <= m ==> PublishBackoff(n) <= PublishBackoff(m)
    ensures n >= 7 <==> PublishBackoff(n) == 30_000
    ensures PublishBackoff(0) == 250 && (n < 6 ==> PublishBackoff(n + 1) == 2 * PublishBackoff(n))
  {
    assert Power(0) == 1 && Power(1) == 2 && Power(2) == 4 && Power(3) == 8;
    assert Power(4) == 16 && Power(5) == 32 && Power(6) == 64 && Power(7) == 128;
  }

  // ---------------------------------------------------------------------------------------------
  // Sequences of events
  // ---------------------------------------------------------------------------------------------

  function Play(w: World, events: seq<Event>): World
    decreases |events|
  {
    if events == [] then w else Happens(Play(w, events[..|events| - 1]), events[|events| - 1])
  }

  lemma PlayOne(w: World, events: seq<Event>, event: Event)
    ensures Play(w, events + [event]) == Happens(Play(w, events), event)
  {
    assert (events + [event])[..|events|] == events;
  }

  lemma {:induction false} PlayMore(w: World, a: seq<Event>, b: seq<Event>)
    ensures Play(w, a + b) == Play(Play(w, a), b)
    decreases |b|
  {
    if b == [] {
      assert a + b == a;
    } else {
      var n := |b| - 1;
      assert (a + b)[..|a + b| - 1] == a + b[..n];
      PlayMore(w, a, b[..n]);
    }
  }

  /** The transaction that an event commits, if any. */
  function TransactionOf(w: World, event: Event): Option<Step> {
    match event
    case Transact(s) => if IsPublication(s) || !Quoted(w.db, s) then None else Some(s)
    case Lease(p, now, leaseMs, size, batch) => Some(DoClaimDispatchBatch(p, now, leaseMs, size, batch))
    case Confirm(p, k, now) => if HasSent(w, p, k) then Some(DoConfirmDispatch(k, p, now)) else None
    case ClaimTask(tag, e, worker, now, leaseMs, limits, a, seen) =>
      if now < 0 then None else Some(DoClaimById(e.task, e.version, e.route, worker, now, leaseMs, limits, a))
    case DeferRow(tag, e, retryAt, seen) => Some(DoDeferPublished(e.task, e.version, retryAt))
    case ReportTask(tag, s, seen) => if !IsReport(s) || !Quoted(w.db, s) then None else Some(s)
    case _ => None
  }

  lemma EventTransacts(w: World, event: Event)
    ensures match TransactionOf(w, event)
            case None => Happens(w, event).db == w.db
            case Some(s) => Quoted(w.db, s) && Happens(w, event).db == Next(w.db, s)
  {
    hide Issued, CreateRun, MaterializeFanout, CompleteFanout, Claim, ClaimById, Heartbeat, WaitForHuman, ResumeRun,
      ResolveEscalation, Defer, Outcome, RecoverStale, ClaimDispatchBatch, ConfirmDispatch, FailDispatch,
      DeferPublishedDispatch, Reconcile, Promote, Genuine, Current, Deferral;
  }

  lemma TagsGrow(w: World, event: Event)
    ensures w.nextTag <= Happens(w, event).nextTag
  {
    hide Quoted, Next, ClaimDispatchBatch, ConfirmDispatch, DeferPublishedDispatch, ClaimById, Genuine, Current,
      Deferral;
  }

  lemma EventAdvances(w: World, event: Event)
    requires Sound(w)
    ensures Sound(Happens(w, event)) && Advances(w.db, Happens(w, event).db) && w.nextTag <= Happens(w, event).nextTag
  {
    hide Sound, Advances, Quoted, Next, Happens, TransactionOf;
    SoundIsSafe(w);
    EventKeepsSound(w, event);
    TagsGrow(w, event);
    EventTransacts(w, event);
    if TransactionOf(w, event).Some? {
      StepKeepsSafe(w.db, TransactionOf(w, event).value);
    } else {
      AdvancesReflexive(w.db);
    }
  }

  lemma {:induction false} PlayAdvances(w: World, events: seq<Event>)
    requires Sound(w)
    ensures Sound(Play(w, events)) && Advances(w.db, Play(w, events).db) && w.nextTag <= Play(w, events).nextTag
    decreases |events|
  {
    hide Sound, Happens, Advances;
    if events == [] {
      SoundIsSafe(w);
      AdvancesReflexive(w.db);
    } else {
      var n := |events| - 1;
      PlayAdvances(w, events[..n]);
      EventAdvances(Play(w, events[..n]), events[n]);
      AdvancesTransitive(w.db, Play(w, events[..n]).db, Play(w, events).db);
    }
  }

  lemma SoundIsSafe(w: World)
    requires Sound(w)
    ensures Safe(w.db)
  {
    hide Safe;
  }

  // ---------------------------------------------------------------------------------------------
  // What others do
  // ---------------------------------------------------------------------------------------------

  /** The event is not the publisher's own. */
  predicate NotPublisher(event: Event, p: string) {
    match event
    case Lease(q, _, _, _, _) => q != p
    case Send(q, _, _) => q != p
    case Confirm(q, _, _) => q != p
    case Crash(q) => q != p
    case Transact(s) => s.DoFailDispatch? ==> s.publisher != p
    case _ => true
  }

  /** The event is not one of the worker that holds the message; the broker may still take it back. */
  predicate NotHolder(event: Event, tag: nat) {
    match event
    case ClaimTask(t, _, _, _, _, _, _, _) => t != tag
    case DeferRow(t, _, _, _) => t != tag
    case ReportTask(t, _, _) => t != tag
    case Throw(t) => t != tag
    case Ack(t) => t != tag
    case Nack(t) => t != tag
    case DeadLetter(t) => t != tag
    case _ => true
  }

  /** The broker's confirmation of the row is the publisher's to use. */
  predicate HasSent(w: World, p: string, k: DispatchKey) {
    p in w.sent && w.sent[p] == k
  }

  lemma OthersKeepSent(w: World, event: Event, p: string)
    requires NotPublisher(event, p)
    ensures p in Happens(w, event).sent <==> p in w.sent
    ensures p in w.sent ==> Happens(w, event).sent[p] == w.sent[p]
  {
    hide Quoted, Next, ClaimDispatchBatch, ConfirmDispatch, DeferPublishedDispatch, ClaimById, Genuine, Current,
      Deferral;
  }

  lemma {:induction false} PlayKeepsSent(w: World, events: seq<Event>, p: string)
    requires forall event :: event in events ==> NotPublisher(event, p)
    ensures p in Play(w, events).sent <==> p in w.sent
    ensures p in w.sent ==> Play(w, events).sent[p] == w.sent[p]
    decreases |events|
  {
    hide Happens, NotPublisher;
    if events != [] {
      var n := |events| - 1;
      forall event | event in events[..n]
        ensures NotPublisher(event, p)
      {
        assert event in events;
      }
      PlayKeepsSent(w, events[..n], p);
      assert events[n] in events;
      OthersKeepSent(Play(w, events[..n]), events[n], p);
    }
  }

  /** Nobody else leases a row to the publisher. */
  lemma OthersLeaseNone(w: World, event: Event, p: string, k: DispatchKey)
    requires Sound(w) && NotPublisher(event, p) && PublishLeaseHeld(Happens(w, event).db, k, p)
    ensures PublishLeaseHeld(w.db, k, p)
  {
    hide Sound, Quoted, Next, Happens, PublishLeaseHeld;
    SoundIsSafe(w);
    EventTransacts(w, event);
    if TransactionOf(w, event).Some? {
      var s := TransactionOf(w, event).value;
      if s.DoClaimDispatchBatch? {
        LeasedElsewhere(w.db, s, k, p);
      } else if s.DoConfirmDispatch? {
        ConfirmedLease(w.db, s, k, p);
      } else {
        MovedLease(w.db, s, k, p);
      }
    }
  }

  lemma MovedLease(db: Db, s: Step, k: DispatchKey, p: string)
    requires Safe(db) && !IsPublication(s)
    ensures PublishLeaseHeld(Next(db, s), k, p) ==> PublishLeaseHeld(db, k, p)
  {
    hide Safe, Next;
    OnlyPublishersPublish(db, s);
    if k in Next(db, s).dispatches { assert RowMoves(db, Next(db, s), k); }
  }

  lemma LeasedElsewhere(db: Db, s: Step, k: DispatchKey, p: string)
    requires s.DoClaimDispatchBatch? && s.publisher != p && PublishLeaseHeld(Next(db, s), k, p)
    ensures PublishLeaseHeld(db, k, p)
  {
    hide ClaimDispatchBatch;
    LeasedKeys(db, s.publisher, s.now, s.leaseMs, s.size, s.batch);
    LeasedRows(db, s.publisher, s.now, s.leaseMs, s.size, s.batch, k);
  }

  lemma ConfirmedLease(db: Db, s: Step, k: DispatchKey, p: string)
    requires s.DoConfirmDispatch? && PublishLeaseHeld(Next(db, s), k, p)
    ensures PublishLeaseHeld(db, k, p)
  {
  }

  lemma {:induction false} PlayLeasesNone(w: World, events: seq<Event>, p: string, ks: set<DispatchKey>)
    requires Sound(w) && forall event :: event in events ==> NotPublisher(event, p)
    requires forall k :: k in ks ==> !PublishLeaseHeld(w.db, k, p)
    ensures forall k :: k in ks ==> !PublishLeaseHeld(Play(w, events).db, k, p)
    decreases |events|
  {
    hide Sound, Happens, NotPublisher, PublishLeaseHeld;
    if events != [] {
      var n := |events| - 1;
      forall event | event in events[..n]
        ensures NotPublisher(event, p)
      {
        assert event in events;
      }
      PlayLeasesNone(w, events[..n], p, ks);
      PlayAdvances(w, events[..n]);
      assert events[n] in events;
      forall k | k in ks
        ensures !PublishLeaseHeld(Play(w, events).db, k, p)
      {
        if PublishLeaseHeld(Play(w, events).db, k, p) { OthersLeaseNone(Play(w, events[..n]), events[n], p, k); }
      }
    }
  }

  /** The worker's message is as it left it, or the broker has taken it back. */
  predicate Mine(w: World, tag: nat, d: Delivery, phase: Phase) {
    tag < w.nextTag && (tag in w.hands ==> w.hands[tag] == Holding(d, phase))
  }

  lemma OthersKeepMine(w: World, event: Event, tag: nat, d: Delivery, phase: Phase)
    requires Mine(w, tag, d, phase) && NotHolder(event, tag)
    ensures Mine(Happens(w, event), tag, d, phase)
  {
    hide Quoted, Next, ClaimDispatchBatch, ConfirmDispatch, DeferPublishedDispatch, ClaimById, Genuine, Current,
      Deferral;
  }

  lemma {:induction false} PlayKeepsMine(w: World, events: seq<Event>, tag: nat, d: Delivery, phase: Phase)
    requires Mine(w, tag, d, phase) && forall event :: event in events ==> NotHolder(event, tag)
    ensures Mine(Play(w, events), tag, d, phase)
    decreases |events|
  {
    hide Happens, NotHolder, Mine;
    if events != [] {
      var n := |events| - 1;
      forall event | event in events[..n]
        ensures NotHolder(event, tag)
      {
        assert event in events;
      }
      PlayKeepsMine(w, events[..n], tag, d, phase);
      assert events[n] in events;
      OthersKeepMine(Play(w, events[..n]), events[n], tag, d, phase);
    }
  }

  // ---------------------------------------------------------------------------------------------
  // The system that all processes share
  // ---------------------------------------------------------------------------------------------

  /** How a claimed task's execution ended: with one command to the runtime, or with an exception. */
  datatype Report =
    | Finished(verdict: Verdict)
    | RetryLater(retryAfterMs: int)
    | Waits(obstacle: string, escalation: EscalationId)
    | Threw

  function CommandOf(c: Credential, report: Report, now: int): Step
    requires !report.Threw?
  {
    match report
    case Finished(v) => DoOutcome(c, v, now)
    case RetryLater(ms) => DoDefer(c, now, ms)
    case Waits(obstacle, e) => DoWaitForHuman(c, obstacle, e)
  }

  class DeliverySystem {
    const repository: Repository
    var broker: multiset<Delivery>
    var hands: map<nat, Holding>
    var nextTag: nat
    var sent: map<string, DispatchKey>
    var lost: set<DispatchKey>
    var idled: set<DispatchKey>

    function View(): World
      reads this, repository
    {
      World(repository.Rows(), broker, hands, nextTag, sent, lost, idled)
    }

    constructor ()
      ensures View() == QUIET && fresh(repository)
    {
      repository := new Repository();
      broker, hands, nextTag, sent, lost, idled := multiset{}, map[], 0, map[], {}, {};
    }

    /** An await, as part of a history that began in `start`. */
    method Await(others: seq<Event>, ghost start: World, ghost before: seq<Event>) returns (ghost history: seq<Event>)
      requires Sound(start) && View() == Play(start, before)
      modifies this, repository
      ensures history == before + others && View() == Play(start, history) && View() == Play(old(View()), others)
      ensures Sound(View()) && Advances(old(repository.Rows()), repository.Rows())
    {
      hide Sound, Play, Advances;
      Elapse(others);
      history := before + others;
      PlayMore(start, before, others);
      PlayAdvances(start, before);
      PlayAdvances(Play(start, before), others);
    }

    method Become(w: World)
      modifies this, repository
      ensures View() == w
    {
      repository.Restore(w.db);
      broker, hands, nextTag, sent, lost, idled := w.broker, w.hands, w.nextTag, w.sent, w.lost, w.idled;
    }

    /** An await: the other processes and the broker go on. */
    method Elapse(others: seq<Event>)
      modifies this, repository
      ensures View() == Play(old(View()), others)
    {
      hide Happens;
      for i := 0 to |others|
        invariant View() == Play(old(View()), others[..i])
      {
        assert others[..i + 1][..i] == others[..i];
        Become(Happens(View(), others[i]));
      }
      assert others[..|others|] == others;
    }

    // -------------------------------------------------------------------------------------------
    // A publisher's calls
    // -------------------------------------------------------------------------------------------

    method RecoverStale(now: int)
      modifies this, repository
      ensures View() == Happens(old(View()), Transact(DoRecoverStale(now)))
    {
      hide RuntimeTransitions.RecoverStale;
      var _ := repository.RecoverStale(now);
    }

    method Reconcile(now: int, republishAfterMs: nat)
      modifies this, repository
      ensures View() == Happens(old(View()), Transact(DoReconcile(now, Some(republishAfterMs))))
    {
      hide RuntimeTransitions.Reconcile;
      var _ := repository.ReconcileDispatch(now, Some(republishAfterMs));
    }

    /** The batch comes with one envelope for each row, made from the row as it is leased. */
    method ClaimDispatchBatch(p: string, now: int, leaseMs: int, limit: int, rank: DispatchKey -> int)
        returns (answer: Answer, entries: seq<Envelope>)
      requires Sound(View())
      modifies this, repository
      ensures View() == Happens(old(View()), Lease(p, now, leaseMs, limit, Keys(entries))) && p !in sent
      ensures OnePerRow(repository.Rows(), entries) && forall e :: e in entries ==> Genuine(repository.Rows(), e)
      ensures answer == Done <==> p != "" && 1 <= limit <= 500
      ensures if answer == Done then Batch(ExpirePublishing(old(repository.Rows()), now), now, limit, rank,
          Keys(entries)) else entries == []
    {
      hide RuntimeTransitions.ClaimDispatchBatch, Sound, RowsRouted, Batch, Genuine, OnePerRow;
      ghost var before := View();
      var batch;
      answer, batch := repository.ClaimDispatchBatch(p, now, leaseMs, limit, rank);
      sent := sent - {p};
      EventKeepsSound(before, Lease(p, now, leaseMs, limit, batch));
      LeasedKeys(before.db, p, now, leaseMs, limit, batch);
      LeaseAnswer(before.db, p, now, leaseMs, limit, batch);
      if answer == Done {
        BatchHasRows(before.db, p, now, leaseMs, limit, rank, batch);
        entries := Envelopes(batch);
        SoundIsRouted(View());
        RoutedEnvelopes(repository.Rows(), entries);
      } else {
        entries := [];
        NoRows(repository.Rows());
        RefusedLease(before.db, p, now, leaseMs, limit, batch);
      }
    }

    method Envelopes(batch: set<DispatchKey>) returns (entries: seq<Envelope>)
      requires batch <= repository.dispatches.Keys
      ensures OnePerRow(repository.Rows(), entries) && Keys(entries) == batch
    {
      hide OnePerRow;
      entries := [];
      NoRows(repository.Rows());
      var left := batch;
      while left != {}
        invariant left <= batch && Keys(entries) == batch - left && OnePerRow(repository.Rows(), entries)
        decreases |left|
      {
        var k :| k in left;
        OneMoreRow(repository.Rows(), entries, k);
        entries := entries + [EnvelopeOf(k, repository.dispatches[k])];
        left := left - {k};
      }
    }

    /** The broker's answer to one message. */
    method Publish(p: string, e: Envelope, fate: Fate) returns (confirmed: bool)
      requires Genuine(repository.Rows(), e)
      modifies this
      ensures View() == Happens(old(View()), Send(p, e, fate))
      ensures confirmed <==> fate == Confirmed
    {
      if Reaches(fate) {
        broker, lost, idled := broker + multiset{Message(e)}, lost - {KeyOf(e)}, idled - {KeyOf(e)};
      }
      if fate == Confirmed {
        sent := sent[p := KeyOf(e)];
      }
      return fate == Confirmed;
    }

    /** A row is confirmed only after the broker has confirmed its message. */
    method ConfirmDispatch(p: string, k: DispatchKey, now: int) returns (answer: Answer)
      requires HasSent(View(), p, k)
      modifies this, repository
      ensures View() == Happens(old(View()), Confirm(p, k, now))
      ensures answer == RuntimeTransitions.ConfirmDispatch(old(repository.Rows()), k, p, now).answer
    {
      hide RuntimeTransitions.ConfirmDispatch;
      answer := repository.ConfirmDispatch(k, p, now);
      sent := sent - {p};
    }

    method FailDispatch(p: string, k: DispatchKey, retryAt: int)
      modifies this, repository
      ensures View() == Happens(old(View()), Transact(DoFailDispatch(k, p, retryAt)))
    {
      hide RuntimeTransitions.FailDispatch;
      var _ := repository.FailDispatch(k, p, retryAt);
    }

    // -------------------------------------------------------------------------------------------
    // A worker's calls
    // -------------------------------------------------------------------------------------------

    method ClaimTask(tag: nat, e: Envelope, worker: Worker, now: nat, leaseMs: int, limits: Limits, a: AttemptId,
        seen: bool) returns (answer: Answer, c: Credential)
      modifies this, repository
      ensures View() == Happens(old(View()), DeliveryWorld.ClaimTask(tag, e, worker, now, leaseMs, limits, a, seen))
      ensures answer == Claimed(old(View()), e, worker, now, leaseMs, limits, a).answer
      ensures c == CredentialFor(old(repository.Rows()), e, worker, a)
    {
      hide ClaimById, Current, Deferral;
      ghost var before := View();
      var current := Current(repository.Rows(), KeyOf(e));
      c := CredentialFor(repository.Rows(), e, worker, a);
      answer := repository.ClaimById(e.task, e.version, e.route, worker, now, leaseMs, limits, a);
      if tag in hands && hands[tag] == Holding(Message(e), Received) {
        var phase := AfterClaim(answer, seen, c);
        hands := hands[tag := Holding(Message(e), phase)];
        if phase == Settled && current { idled := idled + {KeyOf(e)}; }
      }
    }

    method DeferRow(tag: nat, e: Envelope, retryAt: int, seen: bool) returns (answer: Answer)
      modifies this, repository
      ensures View() == Happens(old(View()), DeliveryWorld.DeferRow(tag, e, retryAt, seen))
      ensures answer == DeferPublishedDispatch(old(repository.Rows()), e.task, e.version, retryAt).answer
    {
      hide RuntimeTransitions.DeferPublishedDispatch;
      answer := repository.DeferPublishedDispatch(e.task, e.version, retryAt);
      if tag in hands && hands[tag] == Holding(Message(e), ToDefer) {
        hands := hands[tag := Holding(Message(e), AfterDefer(answer, seen))];
      }
    }

    /** The one command that ends an execution. */
    method Command(tag: nat, c: Credential, report: Report, now: int, seen: bool) returns (answer: Answer)
      requires !report.Threw? && Issued(repository.Rows(), c)
      modifies this, repository
      ensures View() == Happens(old(View()), ReportTask(tag, CommandOf(c, report, now), seen))
      ensures answer == Transition(old(repository.Rows()), CommandOf(c, report, now)).answer
    {
      hide Issued, Transition;
      QuotedReport(repository.Rows(), c, report, now);
      answer := Perform(c, report, now);
      if tag in hands && hands[tag].phase == Working(c) {
        hands := hands[tag := hands[tag].(phase := AfterReport(answer, seen))];
      }
    }

    method Perform(c: Credential, report: Report, now: int) returns (answer: Answer)
      requires !report.Threw?
      modifies repository
      ensures Commit(repository.Rows(), answer) == Transition(old(repository.Rows()), CommandOf(c, report, now))
    {
      hide Outcome, Defer, WaitForHuman;
      match report {
        case Finished(v) => answer := repository.Outcome(c, v, now);
        case RetryLater(ms) => answer := repository.Defer(c, now, ms);
        case Waits(obstacle, e) => answer := repository.WaitForHuman(c, obstacle, e);
      }
    }

    /** After a success, the worker asks the runtime to wake the tasks that waited for it. */
    method PromoteEligible(r: RunId)
      modifies this, repository
      ensures View() == Happens(old(View()), Transact(DoPromote(r)))
    {
      hide Promote;
      repository.PromoteEligible(r);
    }

    method Throw(tag: nat)
      modifies this
      ensures View() == Happens(old(View()), DeliveryWorld.Throw(tag))
    {
      if tag in hands { hands := hands[tag := hands[tag].(phase := Failing)]; }
    }

    /** Only a settled message may be acknowledged. */
    method Ack(tag: nat)
      requires tag in hands ==> hands[tag].phase == Settled
      modifies this
      ensures View() == Happens(old(View()), DeliveryWorld.Ack(tag)) && tag !in hands
    {
      hands := hands - {tag};
    }

    /** A failed message goes back to the queue, or, if it is invalid, to the dead letters. */
    method Nack(tag: nat, requeue: bool)
      requires tag in hands ==> hands[tag].phase == Failing
      modifies this
      ensures View() == Happens(old(View()), if requeue then DeliveryWorld.Nack(tag) else DeadLetter(tag))
          && tag !in hands
    {
      if tag in hands {
        var d := hands[tag].delivery;
        hands := hands - {tag};
        if requeue { broker := broker + multiset{d}; } else { lost := lost + KeysOf(d); }
      }
    }
  }

  lemma QuotedReport(db: Db, c: Credential, report: Report, now: int)
    requires !report.Threw? && Issued(db, c)
    ensures var s := CommandOf(c, report, now); IsReport(s) && Quoted(db, s) && s.c == c
  {
    hide Issued;
  }

  function EnvelopeOf(k: DispatchKey, d: Dispatch): Envelope {
    Envelope(k.task, k.version, d.routingClass, if d.publishAttempts > 0 then d.publishAttempts - 1 else 0)
  }

  function Keys(entries: seq<Envelope>): set<DispatchKey> {
    set e | e in entries :: KeyOf(e)
  }

  /** One envelope for each row, as the row is stored. */
  ghost predicate OnePerRow(db: Db, entries: seq<Envelope>) {
    && (forall e :: e in entries ==> KeyOf(e) in db.dispatches && e == EnvelopeOf(KeyOf(e), db.dispatches[KeyOf(e)]))
    && (forall i, j :: 0 <= i < j < |entries| ==> KeyOf(entries[i]) != KeyOf(entries[j]))
  }

  lemma NoRows(db: Db)
    ensures OnePerRow(db, []) && Keys([]) == {}
  {
  }

  lemma OneMoreRow(db: Db, entries: seq<Envelope>, k: DispatchKey)
    requires OnePerRow(db, entries) && k in db.dispatches && k !in Keys(entries)
    ensures var more := entries + [EnvelopeOf(k, db.dispatches[k])];
      OnePerRow(db, more) && Keys(more) == Keys(entries) + {k}
  {
    var e := EnvelopeOf(k, db.dispatches[k]);
    MoreKeys(entries, e);
    forall i | 0 <= i < |entries|
      ensures KeyOf(entries[i]) != k
    {
      assert KeyOf(entries[i]) in Keys(entries);
    }
  }

  lemma MoreKeys(entries: seq<Envelope>, e: Envelope)
    ensures Keys(entries + [e]) == Keys(entries) + {KeyOf(e)}
  {
    forall k | k in Keys(entries) + {KeyOf(e)}
      ensures k in Keys(entries + [e])
    {
      if k == KeyOf(e) {
        assert (entries + [e])[|entries|] == e;
      } else {
        var x :| x in entries && KeyOf(x) == k;
        assert x in entries + [e];
      }
    }
  }

  lemma RoutedEnvelopes(db: Db, entries: seq<Envelope>)
    requires RowsRouted(db) && OnePerRow(db, entries)
    ensures forall e :: e in entries ==> Genuine(db, e)
  {
  }

  lemma LeaseAnswer(db: Db, p: string, now: int, leaseMs: int, limit: int, batch: set<DispatchKey>)
    ensures ClaimDispatchBatch(db, p, now, leaseMs, limit, batch).answer == Done <==> p != "" && 1 <= limit <= 500
  {
  }

  lemma SoundIsRouted(w: World)
    requires Sound(w)
    ensures RowsRouted(w.db)
  {
    hide Safe, RowsRouted;
  }

  lemma RefusedLease(db: Db, p: string, now: int, leaseMs: int, limit: int, batch: set<DispatchKey>)
    requires ClaimDispatchBatch(db, p, now, leaseMs, limit, batch).answer != Done
    ensures forall any :: ClaimDispatchBatch(db, p, now, leaseMs, limit, any).db == db
  {
  }

  lemma BatchHasRows(db: Db, p: string, now: int, leaseMs: int, limit: nat, rank: DispatchKey -> int,
      batch: set<DispatchKey>)
    requires Batch(ExpirePublishing(db, now), now, limit, rank, batch)
    ensures batch <= db.dispatches.Keys
  {
  }

  /** One more own event of a history. */
  lemma Extends(start: World, history: seq<Event>, event: Event, w: World, next: World)
    requires Sound(start) && w == Play(start, history) && next == Happens(w, event)
    ensures next == Play(start, history + [event]) && Sound(w) && Sound(next) && Advances(w.db, next.db)
  {
    hide Sound, Play, Happens, Advances;
    PlayOne(start, history, event);
    PlayAdvances(start, history);
    EventAdvances(w, event);
  }

  // ---------------------------------------------------------------------------------------------
  // Publisher
  // ---------------------------------------------------------------------------------------------

  /** At some moment the publisher confirms the row, whose message the broker has confirmed to it, and the row
      becomes PUBLISHED. */
  ghost predicate PublishedBy(start: World, history: seq<Event>, p: string, k: DispatchKey) {
    exists n: nat :: n < |history| && ConfirmsAt(start, history, n, p, k)
  }

  ghost predicate ConfirmsAt(start: World, history: seq<Event>, n: nat, p: string, k: DispatchKey)
    requires n < |history|
  {
    && history[n].Confirm? && history[n].publisher == p && history[n].k == k
    && HasSent(Play(start, history[..n]), p, k)
    && k in Play(start, history[..n + 1]).db.dispatches
        && Play(start, history[..n + 1]).db.dispatches[k].state == PUBLISHED
  }

  lemma StillPublished(start: World, history: seq<Event>, more: seq<Event>, p: string)
    ensures forall k :: PublishedBy(start, history, p, k) ==> PublishedBy(start, history + more, p, k)
  {
    hide Play, HasSent;
    forall k | PublishedBy(start, history, p, k)
      ensures PublishedBy(start, history + more, p, k)
    {
      var n: nat :| n < |history| && ConfirmsAt(start, history, n, p, k);
      assert (history + more)[..n] == history[..n] && (history + more)[..n + 1] == history[..n + 1];
      assert ConfirmsAt(start, history + more, n, p, k);
    }
  }

  lemma NowPublished(start: World, history: seq<Event>, p: string, k: DispatchKey, now: int)
    requires HasSent(Play(start, history), p, k) && ConfirmDispatch(Play(start, history).db, k, p, now).answer == Done
    ensures PublishedBy(start, history + [Confirm(p, k, now)], p, k)
  {
    hide Play, Happens, ConfirmDispatch;
    var longer, n := history + [Confirm(p, k, now)], |history|;
    PlayOne(start, history, Confirm(p, k, now));
    ConfirmPublishes(Play(start, history), p, k, now);
    assert longer[..n] == history && longer[..n + 1] == longer;
    assert ConfirmsAt(start, longer, n, p, k);
  }

  lemma ConfirmPublishes(w: World, p: string, k: DispatchKey, now: int)
    requires HasSent(w, p, k) && ConfirmDispatch(w.db, k, p, now).answer == Done
    ensures var next := Happens(w, Confirm(p, k, now)).db; k in next.dispatches && next.dispatches[k].state == PUBLISHED
  {
  }

  lemma ConfirmEndsLease(db: Db, k: DispatchKey, p: string, now: int)
    ensures !PublishLeaseHeld(ConfirmDispatch(db, k, p, now).db, k, p)
    ensures !PublishLeaseHeld(FailDispatch(db, k, p, now).db, k, p)
  {
  }

  ghost predicate NoneLeased(db: Db, p: string, ks: set<DispatchKey>) {
    forall k :: k in ks ==> !PublishLeaseHeld(db, k, p)
  }

  lemma OwnLeasesNone(db: Db, next: Db, s: Step, p: string, ks: set<DispatchKey>)
    requires Safe(db) && NoneLeased(db, p, ks) && next == Next(db, s)
    requires s.DoConfirmDispatch? || !IsPublication(s)
    ensures NoneLeased(next, p, ks)
  {
    hide Safe, Next, PublishLeaseHeld;
    forall k | k in ks
      ensures !PublishLeaseHeld(next, k, p)
    {
      if s.DoConfirmDispatch? {
        if PublishLeaseHeld(next, k, p) { ConfirmedLease(db, s, k, p); }
      } else {
        MovedLease(db, s, k, p);
      }
    }
  }

  lemma FewerLeased(db: Db, p: string, ks: set<DispatchKey>, k: DispatchKey)
    requires NoneLeased(db, p, ks + {k})
    ensures NoneLeased(db, p, ks)
  {
  }

  lemma AllGenuineStay(db: Db, next: Db, entries: seq<Envelope>)
    requires Advances(db, next) && forall e :: e in entries ==> Genuine(db, e)
    ensures forall e :: e in entries ==> Genuine(next, e)
  {
    hide Genuine, TasksAdvance, RunsAdvance, AttemptsAdvance;
    forall e | e in entries
      ensures Genuine(next, e)
    {
      GenuineStays(db, next, e);
    }
  }

  // What a publisher does, as events of a history.

  /** The publishing of leased rows one by one: what the broker does with the message of each, and what others do
      until its answer. */
  datatype Round = Round(publisher: string, entries: seq<Envelope>, fates: nat -> Fate, clock: nat -> int,
      others: nat -> seq<Event>)

  function Sending(r: Round, i: nat, before: seq<Event>): seq<Event>
    requires i < |r.entries|
  {
    before + [Send(r.publisher, r.entries[i], r.fates(i))] + r.others(i)
  }

  function Confirming(r: Round, i: nat, before: seq<Event>): seq<Event>
    requires i < |r.entries|
  {
    Sending(r, i, before) + [Confirm(r.publisher, KeyOf(r.entries[i]), r.clock(i))]
  }

  /** Row `i` is sent; it is confirmed too if the broker has confirmed its message. */
  function Trying(r: Round, i: nat, before: seq<Event>): seq<Event>
    requires i < |r.entries|
  {
    if r.fates(i) == Confirmed then Confirming(r, i, before) else Sending(r, i, before)
  }

  function GivingBack(r: Round, i: nat, before: seq<Event>): seq<Event>
    requires i < |r.entries|
  {
    before + [Transact(DoFailDispatch(KeyOf(r.entries[i]), r.publisher, r.clock(i + 1)
        + PublishBackoff(r.entries[i].attemptHint)))]
  }

  /** The rows before `n` are sent and confirmed. */
  function Through(r: Round, n: nat, before: seq<Event>): seq<Event>
    requires n <= |r.entries|
  {
    if n == 0 then before else Confirming(r, n - 1, Through(r, n - 1, before))
  }

  /** The broker confirms the message of row `i`, and nobody has taken the lease of the row by then. */
  predicate Delivers(r: Round, i: nat, start: World, before: seq<Event>)
    requires i < |r.entries|
  {
    && r.fates(i) == Confirmed
    && PublishLeaseHeld(Play(start, Sending(r, i, before)).db, KeyOf(r.entries[i]), r.publisher)
  }

  /** The rows are published in order up to the first that is not delivered, which goes back if that is
      `reported`. */
  ghost predicate PublishedInOrder(r: Round, reported: bool, start: World, before: seq<Event>, n: nat,
      history: seq<Event>) {
    && n <= |r.entries|
    && (forall i: nat :: i < n ==> Delivers(r, i, start, Through(r, i, before)))
    && (n == |r.entries| ==> history == Through(r, n, before))
    && (n < |r.entries| ==>
          && !Delivers(r, n, start, Through(r, n, before))
          && history == if reported then GivingBack(r, n, Trying(r, n, Through(r, n, before)))
              else Trying(r, n, Through(r, n, before)))
  }

  function Preparing(due: bool, clock: nat -> int, republishAfterMs: nat, others: nat -> seq<Event>): seq<Event> {
    (if due then [Transact(DoRecoverStale(clock(0)))] else []) + others(0)
    + [Transact(DoReconcile(clock(1), Some(republishAfterMs)))] + others(1)
  }

  function RoundAfter(p: string, entries: seq<Envelope>, fates: nat -> Fate, clock: nat -> int,
      others: nat -> seq<Event>): Round {
    Round(p, entries, fates, (i: nat) => clock(i + 3), (i: nat) => others(i + 2))
  }

  class RabbitDispatchPublisher {
    const system: DeliverySystem
    const publisherId: string
    const pollingMs: nat
    const publishLeaseMs: nat
    const republishAfterMs: nat
    const batchSize: nat
    var lastRecoveryAt: Option<int>

    constructor (system: DeliverySystem, publisherId: string, pollingMs: nat, publishLeaseMs: nat,
        republishAfterMs: nat, batchSize: nat)
      ensures this.system == system && lastRecoveryAt == None
    {
      this.system, this.publisherId := system, publisherId;
      this.pollingMs, this.publishLeaseMs, this.republishAfterMs, this.batchSize :=
          pollingMs, publishLeaseMs, republishAfterMs, batchSize;
      lastRecoveryAt := None;
    }

    predicate RecoveryDue(now: int): (due: bool)
      reads this
      ensures due <==>
          lastRecoveryAt == None
          || (now - lastRecoveryAt.value >= pollingMs
              && (now - lastRecoveryAt.value >= publishLeaseMs || now - lastRecoveryAt.value >= 30_000))
    {
      lastRecoveryAt == None || now - lastRecoveryAt.value >= Max(pollingMs, Min(publishLeaseMs, 30_000))
    }

    /** One round: recover leases when due, reconcile, lease a batch, and publish it row by row, while everybody
        else goes on. The batch is what the query returns at that moment. The round ends at the first row whose
        message the broker does not confirm, or whose lease somebody has taken in between; it succeeds exactly if
        there is none. All rows before it are PUBLISHED, after the broker has confirmed their messages, and none
        of them is left leased to this publisher. */
    method RunOnce(clock: nat -> int, rank: DispatchKey -> int, fates: nat -> Fate, reported: bool,
        others: nat -> seq<Event>)
        returns (ok: bool, entries: seq<Envelope>, n: nat, ghost history: seq<Event>)
      requires Sound(system.View())
      requires forall i, event :: event in others(i) ==> NotPublisher(event, publisherId)
      modifies this, system, system.repository
      ensures Sound(system.View()) && system.View() == Play(old(system.View()), history)
      ensures lastRecoveryAt == if old(RecoveryDue(clock(0))) then Some(clock(0)) else old(lastRecoveryAt)
      ensures
        var start := old(system.View());
        var prepared := Preparing(old(RecoveryDue(clock(0))), clock, republishAfterMs, others);
        var leased := prepared + [Lease(publisherId, clock(2), publishLeaseMs, batchSize, Keys(entries))];
        var round := RoundAfter(publisherId, entries, fates, clock, others);
        if publisherId == "" || !(1 <= batchSize <= 500) then !ok && entries == [] && n == 0 && history == leased
        else
          && Batch(ExpirePublishing(Play(start, prepared).db, clock(2)), clock(2), batchSize, rank, Keys(entries))
          && OnePerRow(Play(start, leased).db, entries)
          && PublishedInOrder(round, reported, start, leased, n, history)
          && (ok <==> n == |entries|)
      ensures n <= |entries| && NoneLeased(system.repository.Rows(), publisherId, Keys(entries[..n]))
      ensures AllPublished(entries[..n], old(system.View()), history, publisherId)
      ensures !ok && reported && entries != [] ==>
          !PublishLeaseHeld(system.repository.Rows(), KeyOf(entries[n]), publisherId)
    {
      hide Sound, Play, Happens, Advances, Safe, Genuine, PublishedBy, PublishLeaseHeld, NotPublisher, Batch,
        PublishedInOrder, AllPublished, OnePerRow, NoneLeased;
      ghost var start := system.View();
      history := Prepare(clock, others);
      ghost var w := system.View();
      var answer;
      answer, entries := system.ClaimDispatchBatch(publisherId, clock(2), publishLeaseMs, batchSize, rank);
      Extends(start, history, Lease(publisherId, clock(2), publishLeaseMs, batchSize, Keys(entries)), w, system.View());
      history := history + [Lease(publisherId, clock(2), publishLeaseMs, batchSize, Keys(entries))];
      ok, n := false, 0;
      assert entries[..0] == [];
      NonePublished(start, history, publisherId);
      NoneToLease(system.repository.Rows(), publisherId);
      if answer == Done {
        var round := RoundAfter(publisherId, entries, fates, clock, others);
        ok, n, history := PublishBatch(round, reported, start, history);
      }
    }

    /** Recovery when due, then reconciliation. */
    method Prepare(clock: nat -> int, others: nat -> seq<Event>) returns (ghost history: seq<Event>)
      requires Sound(system.View())
      modifies this, system, system.repository
      ensures Sound(system.View()) && system.View() == Play(old(system.View()), history)
      ensures history == Preparing(old(RecoveryDue(clock(0))), clock, republishAfterMs, others)
      ensures lastRecoveryAt == if old(RecoveryDue(clock(0))) then Some(clock(0)) else old(lastRecoveryAt)
    {
      hide Sound, Play, Happens, Advances;
      ghost var start := system.View();
      history := [];
      PlayNothing(start);
      if RecoveryDue(clock(0)) {
        ghost var w := system.View();
        system.RecoverStale(clock(0));
        Extends(start, history, Transact(DoRecoverStale(clock(0))), w, system.View());
        assert history + [Transact(DoRecoverStale(clock(0)))] == [Transact(DoRecoverStale(clock(0)))];
        history := [Transact(DoRecoverStale(clock(0)))];
        lastRecoveryAt := Some(clock(0));
      }
      history := system.Await(others(0), start, history);
      ghost var w := system.View();
      system.Reconcile(clock(1), republishAfterMs);
      Extends(start, history, Transact(DoReconcile(clock(1), Some(republishAfterMs))), w, system.View());
      history := history + [Transact(DoReconcile(clock(1), Some(republishAfterMs)))];
      history := system.Await(others(1), start, history);
    }

    method PublishBatch(r: Round, reported: bool, ghost start: World, ghost before: seq<Event>)
        returns (ok: bool, n: nat, ghost history: seq<Event>)
      requires Sound(start) && system.View() == Play(start, before) && r.publisher == publisherId
      requires forall i, event :: event in r.others(i) ==> NotPublisher(event, publisherId)
      requires forall e :: e in r.entries ==> Genuine(system.repository.Rows(), e)
      modifies system, system.repository
      ensures Sound(system.View()) && system.View() == Play(start, history)
      ensures PublishedInOrder(r, reported, start, before, n, history) && n <= |r.entries|
      ensures ok <==> n == |r.entries|
      ensures NoneLeased(system.repository.Rows(), publisherId, Keys(r.entries[..n]))
      ensures AllPublished(r.entries[..n], start, history, publisherId)
      ensures !ok && reported ==> !PublishLeaseHeld(system.repository.Rows(), KeyOf(r.entries[n]), publisherId)
    {
      hide Sound, Play, Happens, Advances, Safe, Genuine, PublishedBy, PublishLeaseHeld, NoneLeased, NotPublisher,
        AllPublished;
      history, n := before, 0;
      PlayAdvances(start, before);
      assert r.entries[..0] == [];
      NonePublished(start, before, publisherId);
      NoneToLease(system.repository.Rows(), publisherId);
      while n < |r.entries|
        invariant n <= |r.entries| && history == Through(r, n, before)
        invariant system.View() == Play(start, history) && Sound(system.View())
        invariant forall i: nat :: i < n ==> Delivers(r, i, start, Through(r, i, before))
        invariant AllPublished(r.entries[..n], start, history, publisherId)
        invariant NoneLeased(system.repository.Rows(), publisherId, Keys(r.entries[..n]))
        invariant forall e :: e in r.entries ==> Genuine(system.repository.Rows(), e)
      {
        ghost var done := history;
        var published;
        published, history := PublishRow(r, n, start, history);
        StayPublished(r.entries[..n], start, done, history, publisherId);
        if !published {
          if reported {
            done := history;
            history := GiveRowBack(r, n, start, history);
            StayPublished(r.entries[..n], start, done, history, publisherId);
          }
          return false, n, history;
        }
        OneMorePublished(r.entries, n, start, history, publisherId);
        n := n + 1;
      }
      ok := true;
    }

    /** One row: its message is sent, the broker answers, and the row is confirmed if the lease still stands. */
    method PublishRow(r: Round, i: nat, ghost start: World, ghost before: seq<Event>)
        returns (published: bool, ghost history: seq<Event>)
      requires Sound(start) && system.View() == Play(start, before) && r.publisher == publisherId && i < |r.entries|
      requires forall event :: event in r.others(i) ==> NotPublisher(event, publisherId)
      requires forall e :: e in r.entries ==> Genuine(system.repository.Rows(), e)
      requires NoneLeased(system.repository.Rows(), publisherId, Keys(r.entries[..i]))
      modifies system, system.repository
      ensures Sound(system.View()) && system.View() == Play(start, history)
          && history == Trying(r, i, before) && before <= history
      ensures published <==> Delivers(r, i, start, before)
      ensures published ==> PublishedBy(start, history, publisherId, KeyOf(r.entries[i]))
      ensures NoneLeased(system.repository.Rows(), publisherId, Keys(r.entries[..if published then i + 1 else i]))
      ensures forall e :: e in r.entries ==> Genuine(system.repository.Rows(), e)
    {
      hide Sound, Play, Happens, Advances, Safe, Genuine, PublishedBy, PublishLeaseHeld, NoneLeased, NotPublisher,
        ConfirmDispatch;
      ghost var w, ks := system.View(), Keys(r.entries[..i]);
      var e := r.entries[i];
      var accepted := system.Publish(publisherId, e, r.fates(i));
      Extends(start, before, Send(publisherId, e, r.fates(i)), w, system.View());
      history := before + [Send(publisherId, e, r.fates(i))];
      SendLeavesDb(w, publisherId, e, r.fates(i));
      ghost var sent := system.View();
      history := system.Await(r.others(i), start, history);
      OthersLeave(sent, r.others(i), publisherId, ks);
      AllGenuineStay(sent.db, system.repository.Rows(), r.entries);
      if !accepted { return false, history; }
      w := system.View();
      var answer := system.ConfirmDispatch(publisherId, KeyOf(e), r.clock(i));
      Extends(start, history, Confirm(publisherId, KeyOf(e), r.clock(i)), w, system.View());
      ConfirmedRow(w, publisherId, KeyOf(e), r.clock(i), ks);
      AllGenuineStay(w.db, system.repository.Rows(), r.entries);
      ConfirmAnswer(w.db, KeyOf(e), publisherId, r.clock(i));
      if answer == Done { NowPublished(start, history, publisherId, KeyOf(e), r.clock(i)); }
      history := history + [Confirm(publisherId, KeyOf(e), r.clock(i))];
      published := answer == Done;
      assert r.entries[..i + 1] == r.entries[..i] + [e];
      MoreKeys(r.entries[..i], e);
      FewerLeased(system.repository.Rows(), publisherId, ks, KeyOf(e));
    }

    /** The failed row goes back to PENDING, unless its lease is gone already. */
    method GiveRowBack(r: Round, i: nat, ghost start: World, ghost before: seq<Event>)
        returns (ghost history: seq<Event>)
      requires Sound(start) && system.View() == Play(start, before) && r.publisher == publisherId && i < |r.entries|
      requires NoneLeased(system.repository.Rows(), publisherId, Keys(r.entries[..i]))
      modifies system, system.repository
      ensures Sound(system.View()) && system.View() == Play(start, history)
          && history == GivingBack(r, i, before) && before <= history
      ensures NoneLeased(system.repository.Rows(), publisherId, Keys(r.entries[..i]))
          && !PublishLeaseHeld(system.repository.Rows(), KeyOf(r.entries[i]), publisherId)
    {
      hide Sound, Play, Happens, Advances, Safe, PublishLeaseHeld, NoneLeased, FailDispatch;
      ghost var w := system.View();
      var k, retryAt := KeyOf(r.entries[i]), r.clock(i + 1) + PublishBackoff(r.entries[i].attemptHint);
      system.FailDispatch(publisherId, k, retryAt);
      history := before + [Transact(DoFailDispatch(k, publisherId, retryAt))];
      Extends(start, before, Transact(DoFailDispatch(k, publisherId, retryAt)), w, system.View());
      SoundIsSafe(w);
      FailedRow(w, publisherId, k, retryAt);
      OwnLeasesNone(w.db, system.repository.Rows(), DoFailDispatch(k, publisherId, retryAt), publisherId,
        Keys(r.entries[..i]));
    }
  }

  ghost predicate AllPublished(entries: seq<Envelope>, start: World, history: seq<Event>, p: string) {
    forall i :: 0 <= i < |entries| ==> PublishedBy(start, history, p, KeyOf(entries[i]))
  }

  lemma NonePublished(start: World, history: seq<Event>, p: string)
    ensures AllPublished([], start, history, p) && Keys([]) == {}
  {
  }

  lemma StayPublished(entries: seq<Envelope>, start: World, before: seq<Event>, history: seq<Event>, p: string)
    requires AllPublished(entries, start, before, p) && before <= history
    ensures AllPublished(entries, start, history, p)
  {
    hide PublishedBy;
    StillPublished(start, before, history[|before|..], p);
    assert history == before + history[|before|..];
  }

  lemma OneMorePublished(entries: seq<Envelope>, n: nat, start: World, history: seq<Event>, p: string)
    requires n < |entries| && AllPublished(entries[..n], start, history, p)
    requires PublishedBy(start, history, p, KeyOf(entries[n]))
    ensures AllPublished(entries[..n + 1], start, history, p)
  {
    hide PublishedBy;
    forall i | 0 <= i < n
      ensures PublishedBy(start, history, p, KeyOf(entries[i]))
    {
      assert entries[..n][i] == entries[i];
    }
  }

  lemma ConfirmAnswer(db: Db, k: DispatchKey, p: string, now: int)
    ensures ConfirmDispatch(db, k, p, now).answer == Done <==> PublishLeaseHeld(db, k, p)
  {
  }

  lemma PlayNothing(w: World)
    ensures Play(w, []) == w
  {
  }

  lemma NoneToLease(db: Db, p: string)
    ensures NoneLeased(db, p, {})
  {
  }

  lemma SendLeavesDb(w: World, p: string, e: Envelope, fate: Fate)
    requires Genuine(w.db, e)
    ensures Happens(w, Send(p, e, fate)).db == w.db
    ensures fate == Confirmed ==> HasSent(Happens(w, Send(p, e, fate)), p, KeyOf(e))
  {
    hide Genuine;
  }

  lemma OthersLeave(w: World, others: seq<Event>, p: string, ks: set<DispatchKey>)
    requires Sound(w) && NoneLeased(w.db, p, ks) && forall event :: event in others ==> NotPublisher(event, p)
    ensures NoneLeased(Play(w, others).db, p, ks)
    ensures forall k :: HasSent(w, p, k) ==> HasSent(Play(w, others), p, k)
  {
    hide Sound, Play, NotPublisher, PublishLeaseHeld;
    PlayLeasesNone(w, others, p, ks);
    PlayKeepsSent(w, others, p);
  }

  lemma ConfirmedRow(w: World, p: string, k: DispatchKey, now: int, ks: set<DispatchKey>)
    requires Sound(w) && HasSent(w, p, k) && NoneLeased(w.db, p, ks)
    ensures NoneLeased(Happens(w, Confirm(p, k, now)).db, p, ks + {k})
  {
    hide Sound, Safe, Next, PublishLeaseHeld, ConfirmDispatch;
    SoundIsSafe(w);
    EventTransacts(w, Confirm(p, k, now));
    OwnLeasesNone(w.db, Happens(w, Confirm(p, k, now)).db, DoConfirmDispatch(k, p, now), p, ks);
    ConfirmEndsLease(w.db, k, p, now);
  }

  lemma FailedRow(w: World, p: string, k: DispatchKey, retryAt: int)
    ensures var next := Happens(w, Transact(DoFailDispatch(k, p, retryAt))).db;
      next == Next(w.db, DoFailDispatch(k, p, retryAt)) && !PublishLeaseHeld(next, k, p)
  {
    ConfirmEndsLease(w.db, k, p, retryAt);
    hide PublishLeaseHeld, FailDispatch;
  }

  // ---------------------------------------------------------------------------------------------
  // Worker
  // ---------------------------------------------------------------------------------------------

  /** A request to the runtime is answered, or its answer is lost, or it never arrives. */
  datatype Call = Answered | AnswerLost | NeverArrived

  datatype Reply = Acked | Requeued | DeadLettered | Ignored

  /** How the requests about one message fare, and how the execution of its task ends. After a success the worker
      asks to wake the run's next tasks, unless it no longer believes in its lease. */
  datatype Calls = Calls(claim: Call, report: Report, command: Call, promotion: Option<Call>, deferral: Call)

  /** One handling of a message: who handles it and when, how it goes, and what others do at each await. */
  datatype Job = Job(tag: nat, e: Envelope, worker: Worker, clock: nat -> nat, leaseMs: int, limits: Limits,
      a: AttemptId, calls: Calls, others: nat -> seq<Event>)

  predicate Reported(calls: Calls) {
    !calls.report.Threw? && calls.command != NeverArrived
  }

  predicate Accepted(calls: Calls, answer: Answer) {
    !calls.report.Threw? && calls.command == Answered && !answer.Refused?
  }

  predicate Promotes(calls: Calls, answer: Answer) {
    Accepted(calls, answer) && calls.report == Finished(Success) && calls.promotion.Some?
  }

  /** The execution ends without an exception. */
  predicate Executed(calls: Calls, answer: Answer) {
    Accepted(calls, answer) && (Promotes(calls, answer) ==> calls.promotion == Some(Answered))
  }

  function RunBehind(db: Db, t: TaskId): RunId {
    if t in db.tasks then db.tasks[t].run else ""
  }

  function ClaimEvent(j: Job): Event {
    ClaimTask(j.tag, j.e, j.worker, j.clock(0), j.leaseMs, j.limits, j.a, j.calls.claim == Answered)
  }

  function DeferEvent(j: Job): Event {
    DeferRow(j.tag, j.e, j.clock(1) + 1_000, j.calls.deferral == Answered)
  }

  function ReportEvent(j: Job, c: Credential): Event
    requires !j.calls.report.Threw?
  {
    ReportTask(j.tag, CommandOf(c, j.calls.report, j.clock(1)), j.calls.command == Answered)
  }

  /** The message is acknowledged, or is marked as failed and, after a moment, handed back. */
  function Ending(j: Job, before: seq<Event>, acked: bool, others: seq<Event>): seq<Event> {
    if acked then before + others + [Ack(j.tag)] else before + [Throw(j.tag)] + others + [Nack(j.tag)]
  }

  /** The execution under the credential: its report, and the request to wake the tasks of run `r`. */
  function Executing(j: Job, before: seq<Event>, c: Credential, r: RunId, answer: Answer): seq<Event> {
    if !Reported(j.calls) then before + j.others(1)
    else
      var reported := before + j.others(1) + [ReportEvent(j, c)];
      if !Promotes(j.calls, answer) then reported
      else if j.calls.promotion == Some(NeverArrived) then reported + j.others(2)
      else reported + j.others(2) + [Transact(DoPromote(r))]
  }

  /** The worker executes the task and reports it; it acknowledges the message exactly if it is told that the
      report is accepted and nothing fails after that. */
  ghost predicate ExecutedAs(j: Job, start: World, before: seq<Event>, c: Credential, r: RunId, answer: Answer,
      acked: bool, history: seq<Event>)
  {
    && (Reported(j.calls) ==>
          answer == Transition(Play(start, before + j.others(1)).db, CommandOf(c, j.calls.report, j.clock(1))).answer)
    && (acked <==> Executed(j.calls, answer))
    && history == Ending(j, Executing(j, before, c, r, answer), acked, j.others(3))
  }

  /** The worker asks to put the row of the message off; it acknowledges the message exactly if it is told that
      the row is back with the publishers. */
  ghost predicate DeferredAs(j: Job, start: World, before: seq<Event>, answer: Answer, acked: bool,
      history: seq<Event>)
  {
    var asked := before + j.others(1);
    && (j.calls.deferral != NeverArrived ==>
          answer == DeferPublishedDispatch(Play(start, asked).db, j.e.task, j.e.version, j.clock(1) + 1_000).answer)
    && (acked <==> j.calls.deferral == Answered && answer == Done)
    && history == Ending(j, if j.calls.deferral == NeverArrived then asked else asked + [DeferEvent(j)], acked,
          j.others(2))
  }

  /** Everything that the worker does about a message: the claim, and what its answer asks for. */
  ghost predicate HandledAs(j: Job, start: World, answer: Answer, second: Answer, acked: bool, history: seq<Event>) {
    if j.calls.claim == NeverArrived then !acked && history == Ending(j, j.others(0), false, j.others(1))
    else
      && answer == Claimed(Play(start, j.others(0)), j.e, j.worker, j.clock(0), j.leaseMs, j.limits, j.a).answer
      && AnsweredAs(j, start, j.others(0) + [ClaimEvent(j)], CredentialFor(Play(start, j.others(0)).db, j.e, j.worker,
            j.a), answer, second, acked, history)
  }

  ghost predicate AnsweredAs(j: Job, start: World, before: seq<Event>, c: Credential, answer: Answer, second: Answer,
      acked: bool, history: seq<Event>)
  {
    if j.calls.claim == Answered && answer == Done
    then ExecutedAs(j, start, before, c, RunBehind(Play(start, before).db, j.e.task), second, acked, history)
    else if j.calls.claim == Answered && answer in {Refused(RABBIT_RUN_CONCURRENCY_LIMIT),
        Refused(RABBIT_POOL_CONCURRENCY_LIMIT), Refused(RABBIT_DEPENDENCY_NOT_READY),
        Refused(RABBIT_TASK_NOT_YET_AVAILABLE)}
    then DeferredAs(j, start, before, second, acked, history)
    else
      && (acked <==> j.calls.claim == Answered && answer == Null)
      && history == Ending(j, before, acked, j.others(1))
  }

  /** At some moment the worker acknowledges the message, having settled it, or hands it back as failed; the
      broker may have taken the message back by then. */
  ghost predicate EndsWith(start: World, history: seq<Event>, tag: nat, d: Delivery, end: Event, phase: Phase) {
    |history| > 0 && history[|history| - 1] == end && Mine(Play(start, history[..|history| - 1]), tag, d, phase)
  }

  lemma EndsNow(start: World, before: seq<Event>, tag: nat, d: Delivery, end: Event, phase: Phase)
    requires Mine(Play(start, before), tag, d, phase)
    ensures EndsWith(start, before + [end], tag, d, end, phase)
  {
    hide Play, Mine;
    assert (before + [end])[..|before|] == before;
  }

  lemma ClaimMoves(w: World, tag: nat, e: Envelope, worker: Worker, now: nat, leaseMs: int, limits: Limits,
      a: AttemptId, seen: bool)
    requires Mine(w, tag, Message(e), Received)
    ensures Mine(Happens(w, ClaimTask(tag, e, worker, now, leaseMs, limits, a, seen)), tag, Message(e),
        AfterClaim(Claimed(w, e, worker, now, leaseMs, limits, a).answer, seen,
          CredentialFor(w.db, e, worker, a)))
  {
    hide ClaimById, Current, Deferral;
  }

  lemma DeferMoves(w: World, tag: nat, e: Envelope, retryAt: int, seen: bool)
    requires Mine(w, tag, Message(e), ToDefer)
    ensures Mine(Happens(w, DeferRow(tag, e, retryAt, seen)), tag, Message(e),
        AfterDefer(DeferPublishedDispatch(w.db, e.task, e.version, retryAt).answer, seen))
  {
    hide DeferPublishedDispatch;
  }

  lemma ReportMoves(w: World, tag: nat, d: Delivery, s: Step, seen: bool)
    requires IsReport(s) && Quoted(w.db, s) && Mine(w, tag, d, Working(s.c))
    ensures Mine(Happens(w, ReportTask(tag, s, seen)), tag, d, AfterReport(Transition(w.db, s).answer, seen))
  {
    hide Quoted, Transition, Next;
  }

  lemma ThrowMoves(w: World, tag: nat, d: Delivery, phase: Phase)
    requires Mine(w, tag, d, phase)
    ensures Mine(Happens(w, Throw(tag)), tag, d, Failing)
  {
  }

  lemma TransactKeepsMine(w: World, s: Step, tag: nat, d: Delivery, phase: Phase)
    requires Mine(w, tag, d, phase)
    ensures Mine(Happens(w, Transact(s)), tag, d, phase)
  {
    hide Quoted, Next;
  }

  /** A claim that succeeds hands out the credential the worker goes on to quote. */
  lemma ClaimIssues(w: World, e: Envelope, worker: Worker, now: int, leaseMs: int, limits: Limits, a: AttemptId)
    requires Claimed(w, e, worker, now, leaseMs, limits, a).answer == Done
    ensures Issued(Claimed(w, e, worker, now, leaseMs, limits, a).db, CredentialFor(w.db, e, worker, a))
  {
    hide StartGroup, Eligible, DependencyBlocked, RunFull, PoolFull;
  }

  lemma IssuedStays(db: Db, next: Db, c: Credential)
    requires Advances(db, next) && Issued(db, c)
    ensures Issued(next, c)
  {
    hide TasksAdvance, RunsAdvance;
  }

  lemma NoMismatch(w: World, tag: nat, e: Envelope, worker: Worker, now: nat, leaseMs: int, limits: Limits,
      a: AttemptId)
    requires Sound(w)
    ensures Claimed(w, e, worker, now, leaseMs, limits, a).answer != Refused(RABBIT_TASK_ROUTE_MISMATCH)
  {
    hide Sound, Safe, ClaimById;
    SoundIsSafe(w);
    RouteMismatchIsNeverAnswered(w.db, e.task, e.version, e.route, worker, now, leaseMs, limits, a);
  }

  class RabbitTaskWorker {
    const system: DeliverySystem
    const workerId: Worker
    const leaseMs: int
    const routingClasses: set<RoutingClass>
    const limits: Limits
    var connected: bool

    constructor (system: DeliverySystem, workerId: Worker, leaseMs: int, routingClasses: set<RoutingClass>,
        limits: Limits)
      ensures this.system == system && connected
    {
      this.system, this.workerId, this.leaseMs, this.routingClasses, this.limits :=
          system, workerId, leaseMs, routingClasses, limits;
      connected := true;
    }

    predicate Invalid(d: Delivery) {
      d == Undecodable || d.envelope.route !in routingClasses
    }

    function JobFor(tag: nat, e: Envelope, clock: nat -> nat, a: AttemptId, calls: Calls, others: nat -> seq<Event>):
        Job {
      Job(tag, e, workerId, clock, leaseMs, limits, a, calls, others)
    }

    /** One delivered message, while everybody else goes on and the broker may take the message back. A message
        that cannot be decoded or is not for this worker is dead-lettered, and no other. A message is acknowledged
        exactly if the runtime answered that there is nothing to do for it, or accepted the report on its task, or
        put its row off, and by then it is settled; else it goes back to the broker. */
    method ProcessMessage(tag: nat, clock: nat -> nat, a: AttemptId, calls: Calls, others: nat -> seq<Event>)
        returns (reply: Reply, answer: Answer, second: Answer, ghost history: seq<Event>)
      requires Sound(system.View()) && tag in system.hands && system.hands[tag].phase == Received
      requires forall i, event :: event in others(i) ==> NotHolder(event, tag)
      modifies system, system.repository
      ensures Sound(system.View()) && system.View() == Play(old(system.View()), history)
      ensures reply == Ignored <==> !connected
      ensures reply == DeadLettered <==> connected && Invalid(old(system.hands[tag].delivery))
      ensures reply == Ignored ==> history == []
      ensures reply == DeadLettered ==> history == [Throw(tag), DeadLetter(tag)]
      ensures reply in {Acked, Requeued} ==>
          HandledAs(JobFor(tag, old(system.hands[tag].delivery).envelope, clock, a, calls, others),
            old(system.View()), answer, second, reply == Acked, history)
      ensures reply == Acked ==>
          EndsWith(old(system.View()), history, tag, old(system.hands[tag].delivery), Ack(tag), Settled)
      ensures reply == Requeued ==>
          EndsWith(old(system.View()), history, tag, old(system.hands[tag].delivery), Nack(tag), Failing)
      ensures connected ==> tag !in system.hands
    {
      hide Sound, Play, Happens, Mine, EndsWith, Advances, NotHolder, HandledAs;
      ghost var start := system.View();
      history, answer, second := [], Null, Null;
      PlayNothing(start);
      if !connected {
        return Ignored, answer, second, history;
      }
      ReceivedIsMine(start, tag);
      var d := system.hands[tag].delivery;
      if Invalid(d) {
        reply, history := DeadLetterIt(tag, d, start);
      } else {
        var acked;
        acked, answer, second, history := HandleMessage(JobFor(tag, d.envelope, clock, a, calls, others), start);
        reply := if acked then Acked else Requeued;
      }
    }

    method HandleMessage(j: Job, ghost start: World)
        returns (acked: bool, answer: Answer, second: Answer, ghost history: seq<Event>)
      requires Sound(start) && system.View() == start && Mine(start, j.tag, Message(j.e), Received)
      requires forall i, event :: event in j.others(i) ==> NotHolder(event, j.tag)
      modifies system, system.repository
      ensures Sound(system.View()) && system.View() == Play(start, history) && j.tag !in system.hands
      ensures HandledAs(j, start, answer, second, acked, history)
      ensures EndsAs(start, history, j, acked)
    {
      hide Sound, Play, Happens, Claimed, Mine, EndsAs, Advances, NotHolder, AnsweredAs, AfterClaim, CredentialFor;
      history, answer, second := [], Null, Null;
      PlayNothing(start);
      history := system.Await(j.others(0), start, history);
      assert history == j.others(0);
      PlayKeepsMine(start, j.others(0), j.tag, Message(j.e), Received);
      if j.calls.claim == NeverArrived {
        history := Fail(j, Received, j.others(1), start, history);
        return false, answer, second, history;
      }
      ghost var w := system.View();
      var c;
      answer, c := system.ClaimTask(j.tag, j.e, j.worker, j.clock(0), j.leaseMs, j.limits, j.a,
          j.calls.claim == Answered);
      ClaimMoves(w, j.tag, j.e, j.worker, j.clock(0), j.leaseMs, j.limits, j.a, j.calls.claim == Answered);
      Extends(start, history, ClaimEvent(j), w, system.View());
      NoMismatch(w, j.tag, j.e, j.worker, j.clock(0), j.leaseMs, j.limits, j.a);
      ClaimStored(w, j.tag, j.e, j.worker, j.clock(0), j.leaseMs, j.limits, j.a, j.calls.claim == Answered);
      if answer == Done { ClaimIssues(w, j.e, j.worker, j.clock(0), j.leaseMs, j.limits, j.a); }
      history := history + [ClaimEvent(j)];
      acked, second, history := AnswerMessage(j, answer, c, start, history);
    }

    /** What the worker does with the claim's answer, which hands it the credential if it is accepted. */
    method AnswerMessage(j: Job, answer: Answer, c: Credential, ghost start: World, ghost before: seq<Event>)
        returns (acked: bool, second: Answer, ghost history: seq<Event>)
      requires Sound(start) && Sound(system.View()) && system.View() == Play(start, before)
      requires Mine(system.View(), j.tag, Message(j.e), AfterClaim(answer, j.calls.claim == Answered, c))
      requires answer == Done ==> Issued(system.repository.Rows(), c)
      requires forall i, event :: event in j.others(i) ==> NotHolder(event, j.tag)
      modifies system, system.repository
      ensures Sound(system.View()) && system.View() == Play(start, history) && j.tag !in system.hands
      ensures AnsweredAs(j, start, before, c, answer, second, acked, history)
      ensures EndsAs(start, history, j, acked)
    {
      hide Sound, Play, Happens, Mine, EndsAs, Advances, NotHolder, ExecutedAs, DeferredAs, Issued;
      second := Null;
      if j.calls.claim == Answered && answer == Done {
        acked, second, history := Execute(j, c, RunBehind(system.repository.Rows(), j.e.task), start, before);
      } else if j.calls.claim == Answered && answer.Refused? && Deferral(answer.code) {
        acked, second, history := DeferDelivery(j, start, before);
      } else if j.calls.claim == Answered && answer == Null {
        history := Acknowledge(j, j.others(1), start, before);
        acked := true;
      } else {
        history := Fail(j, Failing, j.others(1), start, before);
        acked := false;
      }
    }

    /** The task is executed and reported; then the message is settled or has failed. */
    method Execute(j: Job, c: Credential, r: RunId, ghost start: World, ghost before: seq<Event>)
        returns (acked: bool, answer: Answer, ghost history: seq<Event>)
      requires Sound(start) && Sound(system.View()) && system.View() == Play(start, before)
      requires Mine(system.View(), j.tag, Message(j.e), Working(c)) && Issued(system.repository.Rows(), c)
      requires forall i, event :: event in j.others(i) ==> NotHolder(event, j.tag)
      modifies system, system.repository
      ensures Sound(system.View()) && system.View() == Play(start, history) && j.tag !in system.hands
      ensures ExecutedAs(j, start, before, c, r, answer, acked, history)
      ensures EndsAs(start, history, j, acked)
    {
      hide Sound, Play, Happens, Mine, EndsAs, Advances, NotHolder, Issued, CommandOf, Transition, AfterReport;
      answer := Null;
      ghost var w := system.View();
      history := system.Await(j.others(1), start, before);
      PlayKeepsMine(w, j.others(1), j.tag, Message(j.e), Working(c));
      if !Reported(j.calls) {
        history := Fail(j, Working(c), j.others(3), start, history);
        return false, answer, history;
      }
      IssuedStays(w.db, system.repository.Rows(), c);
      w := system.View();
      answer := system.Command(j.tag, c, j.calls.report, j.clock(1), j.calls.command == Answered);
      CommandReports(w, j, c);
      Extends(start, history, ReportEvent(j, c), w, system.View());
      history := history + [ReportEvent(j, c)];
      PhaseAfterReport(answer, j.calls.command == Answered);
      ghost var phase := AfterReport(answer, j.calls.command == Answered);
      if Promotes(j.calls, answer) { history := PromoteNext(j, r, start, history); }
      if Executed(j.calls, answer) {
        history := Acknowledge(j, j.others(3), start, history);
      } else {
        history := Fail(j, phase, j.others(3), start, history);
      }
      acked := Executed(j.calls, answer);
    }

    /** After a success the worker asks to wake the tasks of the run that waited for it. */
    method PromoteNext(j: Job, r: RunId, ghost start: World, ghost before: seq<Event>)
        returns (ghost history: seq<Event>)
      requires Sound(start) && system.View() == Play(start, before) && j.calls.promotion.Some?
      requires Mine(system.View(), j.tag, Message(j.e), Settled)
      requires forall event :: event in j.others(2) ==> NotHolder(event, j.tag)
      modifies system, system.repository
      ensures system.View() == Play(start, history) && Mine(system.View(), j.tag, Message(j.e), Settled)
      ensures history == if j.calls.promotion == Some(NeverArrived) then before + j.others(2)
              else before + j.others(2) + [Transact(DoPromote(r))]
    {
      hide Sound, Play, Happens, Mine, Advances, NotHolder;
      ghost var w := system.View();
      history := system.Await(j.others(2), start, before);
      PlayKeepsMine(w, j.others(2), j.tag, Message(j.e), Settled);
      if j.calls.promotion != Some(NeverArrived) {
        w := system.View();
        system.PromoteEligible(r);
        TransactKeepsMine(w, DoPromote(r), j.tag, Message(j.e), Settled);
        Extends(start, history, Transact(DoPromote(r)), w, system.View());
        history := history + [Transact(DoPromote(r))];
      }
    }

    /** The claim was refused for now: the row is put off, or else the message goes back. */
    method DeferDelivery(j: Job, ghost start: World, ghost before: seq<Event>)
        returns (acked: bool, answer: Answer, ghost history: seq<Event>)
      requires Sound(start) && system.View() == Play(start, before)
      requires Mine(system.View(), j.tag, Message(j.e), ToDefer)
      requires forall i, event :: event in j.others(i) ==> NotHolder(event, j.tag)
      modifies system, system.repository
      ensures Sound(system.View()) && system.View() == Play(start, history) && j.tag !in system.hands
      ensures DeferredAs(j, start, before, answer, acked, history)
      ensures EndsAs(start, history, j, acked)
    {
      hide Sound, Play, Happens, Mine, EndsAs, Advances, NotHolder, DeferPublishedDispatch;
      answer := Null;
      ghost var w := system.View();
      history := system.Await(j.others(1), start, before);
      PlayKeepsMine(w, j.others(1), j.tag, Message(j.e), ToDefer);
      if j.calls.deferral == NeverArrived {
        history := Fail(j, ToDefer, j.others(2), start, history);
        return false, answer, history;
      }
      w := system.View();
      answer := system.DeferRow(j.tag, j.e, j.clock(1) + 1_000, j.calls.deferral == Answered);
      DeferMoves(w, j.tag, j.e, j.clock(1) + 1_000, j.calls.deferral == Answered);
      Extends(start, history, DeferEvent(j), w, system.View());
      history := history + [DeferEvent(j)];
      acked := j.calls.deferral == Answered && answer == Done;
      if acked {
        history := Acknowledge(j, j.others(2), start, history);
      } else {
        history := Fail(j, Failing, j.others(2), start, history);
      }
    }

    method Acknowledge(j: Job, others: seq<Event>, ghost start: World, ghost before: seq<Event>)
        returns (ghost history: seq<Event>)
      requires Sound(start) && system.View() == Play(start, before)
      requires Mine(system.View(), j.tag, Message(j.e), Settled)
      requires forall event :: event in others ==> NotHolder(event, j.tag)
      modifies system, system.repository
      ensures Sound(system.View()) && system.View() == Play(start, history) && j.tag !in system.hands
      ensures history == Ending(j, before, true, others) && EndsAs(start, history, j, true)
    {
      hide Sound, Play, Happens, Advances, NotHolder;
      ghost var w := system.View();
      history := system.Await(others, start, before);
      PlayKeepsMine(w, others, j.tag, Message(j.e), Settled);
      w := system.View();
      system.Ack(j.tag);
      Extends(start, history, Ack(j.tag), w, system.View());
      EndsNow(start, history, j.tag, Message(j.e), Ack(j.tag), Settled);
      history := history + [Ack(j.tag)];
    }

    /** The handling has failed: the worker backs off for a moment, then hands the message back. */
    method Fail(j: Job, ghost phase: Phase, others: seq<Event>, ghost start: World, ghost before: seq<Event>)
        returns (ghost history: seq<Event>)
      requires Sound(start) && system.View() == Play(start, before)
      requires Mine(system.View(), j.tag, Message(j.e), phase)
      requires forall event :: event in others ==> NotHolder(event, j.tag)
      modifies system, system.repository
      ensures Sound(system.View()) && system.View() == Play(start, history) && j.tag !in system.hands
      ensures history == Ending(j, before, false, others) && EndsAs(start, history, j, false)
    {
      hide Sound, Play, Happens, Advances, NotHolder;
      history := MarkFailed(j.tag, Message(j.e), phase, start, before);
      ghost var w := system.View();
      history := system.Await(others, start, history);
      PlayKeepsMine(w, others, j.tag, Message(j.e), Failing);
      w := system.View();
      system.Nack(j.tag, true);
      Extends(start, history, Nack(j.tag), w, system.View());
      EndsNow(start, history, j.tag, Message(j.e), Nack(j.tag), Failing);
      history := history + [Nack(j.tag)];
    }

    method MarkFailed(tag: nat, d: Delivery, ghost phase: Phase, ghost start: World, ghost before: seq<Event>)
        returns (ghost history: seq<Event>)
      requires Sound(start) && system.View() == Play(start, before) && Mine(system.View(), tag, d, phase)
      modifies system
      ensures system.View() == Play(start, history) && Mine(system.View(), tag, d, Failing)
      ensures history == before + [Throw(tag)]
    {
      hide Sound, Play, Happens, Mine, Advances;
      ghost var w := system.View();
      system.Throw(tag);
      ThrowMoves(w, tag, d, phase);
      Extends(start, before, Throw(tag), w, system.View());
      history := before + [Throw(tag)];
    }

    method DeadLetterIt(tag: nat, d: Delivery, ghost start: World) returns (reply: Reply, ghost history: seq<Event>)
      requires Sound(start) && system.View() == start && Mine(start, tag, d, Received)
      modifies system
      ensures Sound(system.View()) && system.View() == Play(start, history) && tag !in system.hands
      ensures reply == DeadLettered && history == [Throw(tag), DeadLetter(tag)]
    {
      hide Sound, Play, Happens, Advances;
      PlayNothing(start);
      history := MarkFailed(tag, d, Received, start, []);
      ghost var w := system.View();
      system.Nack(tag, false);
      Extends(start, history, DeadLetter(tag), w, system.View());
      history := history + [DeadLetter(tag)];
      reply := DeadLettered;
    }
  }

  /** The message is acknowledged when it is settled, and handed back when its handling has failed. */
  ghost predicate EndsAs(start: World, history: seq<Event>, j: Job, acked: bool) {
    if acked then EndsWith(start, history, j.tag, Message(j.e), Ack(j.tag), Settled)
    else EndsWith(start, history, j.tag, Message(j.e), Nack(j.tag), Failing)
  }

  /** The worker's command is a report, which it may quote; it settles the message or the handling has failed. */
  lemma CommandReports(w: World, j: Job, c: Credential)
    requires !j.calls.report.Threw? && Issued(w.db, c) && Mine(w, j.tag, Message(j.e), Working(c))
    ensures var s := CommandOf(c, j.calls.report, j.clock(1));
      Mine(Happens(w, ReportEvent(j, c)), j.tag, Message(j.e),
        AfterReport(Transition(w.db, s).answer, j.calls.command == Answered))
  {
    hide Issued, Mine, Happens, Transition, AfterReport;
    ReportMoves(w, j.tag, Message(j.e), CommandOf(c, j.calls.report, j.clock(1)), j.calls.command == Answered);
  }

  lemma PhaseAfterReport(answer: Answer, seen: bool)
    ensures AfterReport(answer, seen) == if seen && !answer.Refused? then Settled else Failing
  {
  }

  lemma ReceivedIsMine(w: World, tag: nat)
    requires Sound(w) && tag in w.hands && w.hands[tag].phase == Received
    ensures Mine(w, tag, w.hands[tag].delivery, Received)
  {
    hide Safe, RowsRouted, AllAccounted, Genuine, Current;
    assert HandSound(w, tag);
  }

  lemma ClaimStored(w: World, tag: nat, e: Envelope, worker: Worker, now: nat, leaseMs: int, limits: Limits,
      a: AttemptId, seen: bool)
    ensures Happens(w, ClaimTask(tag, e, worker, now, leaseMs, limits, a, seen)).db ==
        Claimed(w, e, worker, now, leaseMs, limits, a).db
  {
    hide ClaimById, Current, Deferral;
  }
}
