/** No published row is forgotten. */
module DeliveryGuarantees {
  import opened Wrappers
  import opened RuntimeState
  import opened RuntimeTransitions
  import opened RuntimeInvariant
  import opened RuntimeSafety
  import opened RuntimeGuarantees
  import opened RuntimeOutbox
  import opened DeliveryWorld

  // ---------------------------------------------------------------------------------------------
  // Histories
  // ---------------------------------------------------------------------------------------------

  /** Any events, in any order, from the empty system on. */
  datatype History = History(worlds: seq<World>, events: seq<Event>)

  ghost predicate IsHistory(history: History) {
    && |history.worlds| == |history.events| + 1
    && history.worlds[0] == QUIET
    && forall i {:trigger history.events[i]} ::
        0 <= i < |history.events| ==> history.worlds[i + 1] == Happens(history.worlds[i], history.events[i])
  }

  lemma QuietIsSound()
    ensures Sound(QUIET)
  {
    EmptyIsSafe();
    hide Safe;
  }

  lemma {:induction false} HistoryIsSound(history: History, i: nat)
    requires IsHistory(history) && i < |history.worlds|
    ensures Sound(history.worlds[i])
    decreases i
  {
    hide Sound, Happens;
    if i == 0 {
      QuietIsSound();
    } else {
      HistoryIsSound(history, i - 1);
      EventKeepsSound(history.worlds[i - 1], history.events[i - 1]);
    }
  }

  /** At step `j` the broker loses, or a worker dead-letters, a message of the row. */
  ghost predicate LostAt(history: History, j: nat, k: DispatchKey)
    requires j < |history.events| && j < |history.worlds|
  {
    var w := history.worlds[j];
    match history.events[j]
    case Lose(d) => d in w.broker && IsFor(d, k)
    case DeadLetter(tag) => tag in w.hands && IsFor(w.hands[tag].delivery, k)
    case _ => false
  }

  /** At step `j` a worker is told that there is nothing to do for the row, which is current: its run may not
      start an attempt then. */
  ghost predicate IdledAt(history: History, j: nat, k: DispatchKey)
    requires j < |history.events| && j < |history.worlds|
  {
    var w, event := history.worlds[j], history.events[j];
    && event.ClaimTask? && KeyOf(event.e) == k && Holds(w, event.tag, Message(event.e), Received)
    && Current(w.db, k)
    && !(RunIs(w.db, w.db.tasks[k.task].run, ACTIVE) && BudgetLeft(w.db, w.db.tasks[k.task].run))
  }

  ghost predicate SentAt(history: History, j: nat, k: DispatchKey)
    requires j < |history.events| && j < |history.worlds|
  {
    var event := history.events[j];
    event.Send? && KeyOf(event.e) == k && Genuine(history.worlds[j].db, event.e) && Reaches(event.fate)
  }

  /** The latest message of the row that reached the broker was lost, or settled while the run could not go on. */
  ghost predicate ExcusedSince(history: History, j: nat, i: nat, k: DispatchKey)
    requires |history.events| < |history.worlds|
  {
    && j < i <= |history.events|
    && (LostAt(history, j, k) || IdledAt(history, j, k))
    && forall m :: j < m < i ==> !SentAt(history, m, k)
  }

  lemma IdledNow(w: World, event: Event, k: DispatchKey)
    requires Sound(w) && k in Happens(w, event).idled && k !in w.idled
    ensures event.ClaimTask? && KeyOf(event.e) == k && Holds(w, event.tag, Message(event.e), Received)
        && Current(w.db, k)
    ensures !(RunIs(w.db, w.db.tasks[k.task].run, ACTIVE) && BudgetLeft(w.db, w.db.tasks[k.task].run))
  {
    hide Sound, Quoted, Next, ClaimDispatchBatch, ConfirmDispatch, DeferPublishedDispatch, ClaimById, Genuine, Current,
      Deferral;
    var e := event.e;
    assert Claimed(w, e, event.worker, event.now, event.leaseMs, event.limits, event.a).answer == Null;
    HeldAndNull(w, event.tag, e, event.worker, event.now, event.leaseMs, event.limits, event.a);
  }

  lemma HeldAndNull(w: World, tag: nat, e: Envelope, worker: Worker, now: int, leaseMs: int, limits: Limits,
      a: AttemptId)
    requires Sound(w) && Holds(w, tag, Message(e), Received) && Current(w.db, KeyOf(e)) && 0 <= now
    requires ClaimById(w.db, e.task, e.version, e.route, worker, now, leaseMs, limits, a).answer == Null
    ensures !(RunIs(w.db, w.db.tasks[e.task].run, ACTIVE) && BudgetLeft(w.db, w.db.tasks[e.task].run))
  {
    hide Safe, RowsRouted, AllAccounted, ClaimById, AtVersion, Genuine;
    HeldIsGenuine(w, tag);
    GenuineIsAtVersion(w.db, e);
    NullClaimExactly(w.db, e.task, e.version, e.route, worker, now, leaseMs, limits, a);
  }

  lemma LostNow(w: World, event: Event, k: DispatchKey)
    requires k in Happens(w, event).lost && k !in w.lost
    ensures || (event.Lose? && event.d in w.broker && IsFor(event.d, k))
            || (event.DeadLetter? && event.tag in w.hands && IsFor(w.hands[event.tag].delivery, k))
  {
    hide Quoted, Next, ClaimDispatchBatch, ConfirmDispatch, DeferPublishedDispatch, ClaimById, Genuine, Current,
      Deferral;
  }

  lemma SendClears(w: World, event: Event, k: DispatchKey)
    requires k in Happens(w, event).lost || k in Happens(w, event).idled
    ensures !(event.Send? && KeyOf(event.e) == k && Genuine(w.db, event.e) && Reaches(event.fate))
  {
    hide Quoted, Next, ClaimDispatchBatch, ConfirmDispatch, DeferPublishedDispatch, ClaimById, Genuine, Current,
      Deferral;
  }

  /** Every recorded loss and settlement has happened, and no message of the row has arrived since. */
  lemma {:induction false} RecordsAreTrue(history: History, i: nat, k: DispatchKey)
    requires IsHistory(history) && i < |history.worlds| && (k in history.worlds[i].lost || k in history.worlds[i].idled)
    ensures exists j: nat :: ExcusedSince(history, j, i, k)
    decreases i
  {
    hide Happens, Sound, Genuine, Current;
    if i > 0 {
      var w, event := history.worlds[i - 1], history.events[i - 1];
      SendClears(w, event, k);
      if k in w.lost || k in w.idled {
        RecordsAreTrue(history, i - 1, k);
        var j: nat :| ExcusedSince(history, j, i - 1, k);
        assert !SentAt(history, i - 1, k);
        assert ExcusedSince(history, j, i, k);
      } else {
        HistoryIsSound(history, i - 1);
        if k in history.worlds[i].lost { LostNow(w, event, k); } else { IdledNow(w, event, k); }
        assert ExcusedSince(history, i - 1, i, k);
      }
    }
  }

  /** No published row is forgotten: at every moment of every history, the message of a PUBLISHED row whose task
      is still RUNNABLE at the row's version is on the broker or in the hands of a worker that has not settled
      it, unless the latest message sent for the row was lost by the broker or dead-lettered, or was settled
      while the run was inactive or out of budget. */
  lemma {:induction false} PublishedIsOnItsWay(history: History, i: nat, k: DispatchKey)
    requires IsHistory(history) && i < |history.worlds|
    requires k in history.worlds[i].db.dispatches && history.worlds[i].db.dispatches[k].state == PUBLISHED
        && Current(history.worlds[i].db, k)
    ensures OnBroker(history.worlds[i], k) || InHand(history.worlds[i], k) || exists j: nat ::
        ExcusedSince(history, j, i, k)
  {
    hide Happens, Safe, RowsRouted, Shipped, Current, OnBroker, InHand, ExcusedSince;
    HistoryIsSound(history, i);
    assert Vouched(history.worlds[i], k);
    if k in history.worlds[i].lost || k in history.worlds[i].idled { RecordsAreTrue(history, i, k); }
  }

  /** An acknowledged message is never missed: whatever was acknowledged, at every later moment a task that is
      RUNNABLE in an ACTIVE run with budget left has the row of its revision, and that row waits for a publisher,
      or is leased to one, or has a message on its way, or its latest message was lost or came while the run
      could not go on. In each case one reconciliation late enough makes it publishable again. */
  lemma {:induction false} AcknowledgedNeverStrands(history: History, i: nat, t: TaskId, now: int,
      republishAfterMs: int)
    requires IsHistory(history) && i < |history.worlds| && republishAfterMs > 0
    requires t in history.worlds[i].db.tasks && history.worlds[i].db.tasks[t].state == RUNNABLE
    requires RunIs(history.worlds[i].db, history.worlds[i].db.tasks[t].run, ACTIVE)
    ensures var w, k := history.worlds[i], DispatchKey(t, history.worlds[i].db.tasks[t].revision);
      && k in w.db.dispatches
      && (w.db.dispatches[k].state in {DISPATCH_PENDING, PUBLISHING} || OnBroker(w, k) || InHand(w, k)
          || exists j: nat :: ExcusedSince(history, j, i, k))
      && (TakenUp(w.db.dispatches[k], now, republishAfterMs) ==>
          k in Publishable(Reconcile(w.db, now, Some(republishAfterMs)).db, now))
  {
    hide Happens, IsHistory, Linked, Leased, Attempted, Counted, RetriesBounded, Honest, Budgeted, RowsRouted, Shipped,
      AllAccounted, OnBroker, InHand, ExcusedSince, Reconcile, TakenUp, Publishable;
    HistoryIsSound(history, i);
    var w, k := history.worlds[i], DispatchKey(t, history.worlds[i].db.tasks[t].revision);
    RowIsTakenUp(w.db, t, now, republishAfterMs);
    if w.db.dispatches[k].state == PUBLISHED { PublishedIsOnItsWay(history, i, k); }
  }

  // ---------------------------------------------------------------------------------------------
  // What an acknowledgement means
  // ---------------------------------------------------------------------------------------------

  /** The worker that holds the message is told that it may execute the task, under this credential. */
  predicate Claims(w: World, event: Event, tag: nat, d: Delivery, c: Credential) {
    && event.ClaimTask? && event.tag == tag && event.seen && event.now >= 0
    && d == Message(event.e) && Holds(w, tag, d, Received)
    && Claimed(w, event.e, event.worker, event.now, event.leaseMs, event.limits, event.a).answer == Done
    && c == CredentialFor(w.db, event.e, event.worker, event.a)
  }

  /** The worker is told that there is nothing to do for the message. */
  predicate Idles(w: World, event: Event, tag: nat, d: Delivery) {
    && event.ClaimTask? && event.tag == tag && event.seen && event.now >= 0
    && d == Message(event.e) && Holds(w, tag, d, Received)
    && Claimed(w, event.e, event.worker, event.now, event.leaseMs, event.limits, event.a).answer == Null
  }

  /** The worker is told that the row of the message, which it may not claim yet, waits for a publisher again. */
  predicate PutsOff(w: World, event: Event, tag: nat, d: Delivery) {
    && event.DeferRow? && event.tag == tag && event.seen && d == Message(event.e) && Holds(w, tag, d, ToDefer)
    && DeferPublishedDispatch(w.db, event.e.task, event.e.version, event.retryAt).answer == Done
  }

  /** The worker is told that its report on the task is accepted: the attempt it executed under the credential
      is closed, or has asked for a human who is asked already. */
  predicate Finishes(w: World, event: Event, tag: nat, d: Delivery, c: Credential) {
    && event.ReportTask? && event.tag == tag && event.seen && IsReport(event.s) && event.s.c == c
    && Holds(w, tag, d, Working(c)) && Quoted(w.db, event.s) && !Transition(w.db, event.s).answer.Refused?
    && (Closed(Next(w.db, event.s), c) || (event.s.DoWaitForHuman? && Transition(w.db, event.s) == Commit(w.db, Null)))
  }

  predicate Closed(db: Db, c: Credential) {
    c.attempt in db.attempts && db.attempts[c.attempt].state != ATTEMPT_RUNNING
  }

  lemma OutcomeCloses(db: Db, c: Credential, v: Verdict, now: int)
    requires !Outcome(db, c, v, now).answer.Refused?
    ensures Closed(Outcome(db, c, v, now).db, c)
  {
    hide Finish, FinishBadly, Retry, Promote, CompleteRun, FailedAttemptsOf, TaskFailurePolicy, OthersKeepRunning;
    OutcomeLeavesTask(db, c, v, now);
  }

  lemma DeferCloses(db: Db, c: Credential, now: int, retryAfterMs: int)
    requires !Defer(db, c, now, retryAfterMs).answer.Refused?
    ensures Closed(Defer(db, c, now, retryAfterMs).db, c)
  {
    hide Refund, Wake, ReleasedTasks;
  }

  lemma WaitCloses(db: Db, c: Credential, obstacle: string, e: EscalationId)
    requires Issued(db, c) && !WaitForHuman(db, c, obstacle, e).answer.Refused?
    ensures Closed(WaitForHuman(db, c, obstacle, e).db, c) || WaitForHuman(db, c, obstacle, e) == Commit(db, Null)
  {
    hide SetRunState, AsksAlready;
  }

  lemma AcceptedCloses(db: Db, s: Step)
    requires IsReport(s) && Quoted(db, s) && !Transition(db, s).answer.Refused?
    ensures Closed(Next(db, s), s.c) || (s.DoWaitForHuman? && Transition(db, s) == Commit(db, Null))
  {
    hide Issued, Outcome, Defer, WaitForHuman, Closed;
    if s.DoOutcome? {
      OutcomeCloses(db, s.c, s.v, s.now);
    } else if s.DoDefer? {
      DeferCloses(db, s.c, s.now, s.retryAfterMs);
    } else {
      WaitCloses(db, s.c, s.obstacle, s.e);
    }
  }

  lemma WorkBegins(w: World, event: Event, tag: nat)
    requires Shipped(w) && tag in Happens(w, event).hands
    ensures var hand := Happens(w, event).hands[tag];
      && (tag in w.hands ==> hand.delivery == w.hands[tag].delivery)
      && (hand.phase.Working? ==>
            Holds(w, tag, hand.delivery, hand.phase) || Claims(w, event, tag, hand.delivery, hand.phase.c))
  {
    hide Shipped, Quoted, Next, ClaimDispatchBatch, ConfirmDispatch, DeferPublishedDispatch, ClaimById, Genuine,
      Current, Deferral;
    TagIsFree(w);
  }

  /** How a message comes to be settled. */
  predicate Settles(w: World, event: Event, tag: nat, d: Delivery) {
    || Idles(w, event, tag, d)
    || PutsOff(w, event, tag, d)
    || (event.ReportTask? && IsReport(event.s) && Finishes(w, event, tag, d, event.s.c))
  }

  lemma ReportSettles(w: World, event: Event, tag: nat)
    requires event.ReportTask? && tag in w.hands && Happens(w, event).hands[tag].phase == Settled
    ensures w.hands[tag].phase == Settled
        || (IsReport(event.s) && Finishes(w, event, tag, w.hands[tag].delivery, event.s.c))
  {
    hide Quoted, Transition, Next, Closed;
    var s := event.s;
    if IsReport(s) && Quoted(w.db, s) && !Transition(w.db, s).answer.Refused? { AcceptedCloses(w.db, s); }
  }

  lemma ClaimSettles(w: World, event: Event, tag: nat)
    requires event.ClaimTask? && tag in w.hands && Happens(w, event).hands[tag].phase == Settled
    ensures w.hands[tag].phase == Settled || Idles(w, event, tag, w.hands[tag].delivery)
  {
    hide ClaimById, Current, Deferral;
  }

  lemma DeferSettles(w: World, event: Event, tag: nat)
    requires event.DeferRow? && tag in w.hands && Happens(w, event).hands[tag].phase == Settled
    ensures w.hands[tag].phase == Settled || PutsOff(w, event, tag, w.hands[tag].delivery)
  {
    hide DeferPublishedDispatch;
  }

  lemma NothingElseSettles(w: World, event: Event, tag: nat)
    requires Shipped(w) && tag in Happens(w, event).hands && Happens(w, event).hands[tag].phase == Settled
    requires !event.ClaimTask? && !event.DeferRow? && !event.ReportTask?
    ensures Holds(w, tag, Happens(w, event).hands[tag].delivery, Settled)
  {
    hide Shipped, Quoted, Next, ClaimDispatchBatch, ConfirmDispatch, Genuine;
    TagIsFree(w);
  }

  lemma SettledNow(w: World, event: Event, tag: nat)
    requires Shipped(w) && tag in Happens(w, event).hands && Happens(w, event).hands[tag].phase == Settled
    ensures var d := Happens(w, event).hands[tag].delivery; Holds(w, tag, d, Settled) || Settles(w, event, tag, d)
  {
    hide Shipped, Happens, Idles, PutsOff, Finishes;
    WorkBegins(w, event, tag);
    if event.ClaimTask? || event.DeferRow? || event.ReportTask? { SameHands(w, event); }
    if event.ClaimTask? {
      ClaimSettles(w, event, tag);
    } else if event.DeferRow? {
      DeferSettles(w, event, tag);
    } else if event.ReportTask? {
      ReportSettles(w, event, tag);
    } else {
      NothingElseSettles(w, event, tag);
    }
  }

  lemma SameHands(w: World, event: Event)
    requires event.ClaimTask? || event.DeferRow? || event.ReportTask?
    ensures Happens(w, event).hands.Keys == w.hands.Keys
  {
    hide Quoted, Transition, Next, DeferPublishedDispatch, ClaimById, Current, Deferral;
  }

  ghost predicate ClaimedAt(history: History, j: nat, tag: nat, d: Delivery, c: Credential)
    requires j < |history.events| && j < |history.worlds|
  {
    Claims(history.worlds[j], history.events[j], tag, d, c)
  }

  /** At step `j` the worker learns that nothing is left to do: the runtime has nothing for it, or has taken back
      the row, or has accepted the report on the attempt that the worker started for this very message. */
  ghost predicate SettledAt(history: History, j: nat, tag: nat, d: Delivery)
    requires j < |history.events| && j < |history.worlds|
  {
    var w, event := history.worlds[j], history.events[j];
    || Idles(w, event, tag, d)
    || PutsOff(w, event, tag, d)
    || (event.ReportTask? && IsReport(event.s) && Finishes(w, event, tag, d, event.s.c)
        && exists m: nat :: m < j && ClaimedAt(history, m, tag, d, event.s.c))
  }

  lemma {:induction false} WorkWasClaimed(history: History, i: nat, tag: nat)
    requires IsHistory(history) && i < |history.worlds|
    requires tag in history.worlds[i].hands && history.worlds[i].hands[tag].phase.Working?
    ensures var hand := history.worlds[i].hands[tag];
      exists m: nat :: m < i && ClaimedAt(history, m, tag, hand.delivery, hand.phase.c)
    decreases i
  {
    hide Happens, Safe, RowsRouted, Shipped, AllAccounted, Claims;
    if i > 0 {
      HistoryIsSound(history, i - 1);
      WorkBegins(history.worlds[i - 1], history.events[i - 1], tag);
      var hand := history.worlds[i].hands[tag];
      if Holds(history.worlds[i - 1], tag, hand.delivery, hand.phase) {
        WorkWasClaimed(history, i - 1, tag);
      } else {
        assert ClaimedAt(history, i - 1, tag, hand.delivery, hand.phase.c);
      }
    }
  }

  lemma {:induction false} SettledWasFinished(history: History, i: nat, tag: nat)
    requires IsHistory(history) && i < |history.worlds|
    requires tag in history.worlds[i].hands && history.worlds[i].hands[tag].phase == Settled
    ensures exists j: nat :: j < i && SettledAt(history, j, tag, history.worlds[i].hands[tag].delivery)
    decreases i
  {
    hide Happens, Safe, RowsRouted, Shipped, AllAccounted, Idles, PutsOff;
    if i > 0 {
      HistoryIsSound(history, i - 1);
      var w, event, d := history.worlds[i - 1], history.events[i - 1], history.worlds[i].hands[tag].delivery;
      SettledNow(w, event, tag);
      if Holds(w, tag, d, Settled) {
        SettledWasFinished(history, i - 1, tag);
      } else {
        if event.ReportTask? && IsReport(event.s) && Finishes(w, event, tag, d, event.s.c) {
          WorkWasClaimed(history, i - 1, tag);
        }
        assert SettledAt(history, i - 1, tag, d);
      }
    }
  }

  /** A message is acknowledged only after its work is done: in every history, before a message leaves a worker's
      hands by an acknowledgement, the worker was told that there is nothing to do for it, or that its row is
      back with the publishers, or that its report on the attempt it had started for this very message was
      accepted, which closed the attempt. */
  lemma AcknowledgedIsFinished(history: History, i: nat, tag: nat)
    requires IsHistory(history) && i < |history.events| && history.events[i] == Ack(tag)
    requires tag in history.worlds[i].hands && history.worlds[i].hands[tag].phase == Settled
    ensures exists j: nat :: j < i && SettledAt(history, j, tag, history.worlds[i].hands[tag].delivery)
  {
    hide SettledAt;
    SettledWasFinished(history, i, tag);
  }
}
