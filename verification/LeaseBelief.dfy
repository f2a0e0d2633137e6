/** What a worker believes about its lease, and why it may trust it. */
module LeaseBelief {
  import opened Wrappers
  import opened RuntimeState
  import opened RuntimeTransitions
  import opened RuntimeInvariant
  import opened RuntimeUnits
  import opened RuntimeSafety
  import opened RuntimeTraces
  import opened RuntimeGuarantees
  import opened RuntimeGrowth
  import opened RuntimeOrder
  import opened RuntimeStartOrder
  import opened RuntimeExamples

  // ---------------------------------------------------------------------------------------------
  // The worker's side
  // ---------------------------------------------------------------------------------------------

  /** `pending` is the send time of the heartbeat in flight, if any. */
  datatype Execution = Execution(confirmedUntil: int, missedHeartbeats: nat, pending: Option<int>, closed: bool,
      aborted: bool)

  function Expired(x: Execution): Execution {
    if x.closed then x else x.(aborted := true)
  }

  predicate OwnershipHolds(x: Execution, now: int) {
    !x.aborted && (x.closed || now < x.confirmedUntil)
  }

  /** The ownership check gives up once the belief has run out. */
  function Checked(x: Execution, now: int): Execution {
    if now >= x.confirmedUntil then Expired(x) else x
  }

  predicate MaySend(x: Execution, now: int) {
    !x.closed && !x.aborted && x.pending == None && now < x.confirmedUntil
  }

  /** The interval timer: send a heartbeat unless one is in flight; give up once the belief has run out. */
  function Ticked(x: Execution, now: int): Execution {
    if x.closed || x.aborted || x.pending.Some? then x
    else if now >= x.confirmedUntil then Expired(x)
    else x.(pending := Some(now))
  }

  /** The lease counts from the time the request was sent, not from the answer. */
  function ConfirmedBelief(x: Execution, leaseMs: int): Execution
    requires x.pending.Some?
  {
    if x.closed || x.aborted then x.(pending := None)
    else x.(confirmedUntil := x.pending.value + leaseMs, missedHeartbeats := 0, pending := None)
  }

  function Missed(x: Execution, leaseLost: bool): Execution {
    if x.closed || x.aborted then x.(pending := None)
    else x.(missedHeartbeats := x.missedHeartbeats + 1, pending := None, aborted := leaseLost)
  }

  // ---------------------------------------------------------------------------------------------
  // What others may do to a running task
  // ---------------------------------------------------------------------------------------------

  /** The step quotes the lease of `c`. */
  predicate QuotesLease(s: Step, c: Credential) {
    match s
    case DoHeartbeat(k, _, _) => SameLease(k, c)
    case DoWaitForHuman(k, _, _) => SameLease(k, c)
    case DoDefer(k, _, _) => SameLease(k, c)
    case DoOutcome(k, _, _) => SameLease(k, c)
    case _ => false
  }

  predicate SameLease(k: Credential, c: Credential) {
    k.task == c.task && k.worker == c.worker && k.token == c.token
  }

  function Expiry(db: Db, c: Credential): int {
    if c.task in db.tasks && db.tasks[c.task].leaseExpiresAt.Some? then db.tasks[c.task].leaseExpiresAt.value else 0
  }

  /** The step leaves the row of the task as it is. */
  ghost predicate RowStays(db: Db, next: Db, t: TaskId)
    requires t in db.tasks
  {
    t in next.tasks && next.tasks[t] == db.tasks[t]
  }

  lemma PromoteRowStays(db: Db, rs: set<RunId>, t: TaskId)
    requires t in db.tasks && db.tasks[t].state == RUNNING
    ensures RowStays(db, Promote(db, rs), t)
  {
    hide Promote, Eligible;
    PromotedTask(db, rs, t);
  }

  lemma OutcomeRowStays(db: Db, k: Credential, v: Verdict, now: int, t: TaskId)
    requires t in db.tasks && db.tasks[t].state == RUNNING && (HoldsLease(db, k) ==> k.task != t)
    ensures RowStays(db, Outcome(db, k, v, now).db, t)
  {
    hide Outcome;
    if Outcome(db, k, v, now).answer == Done {
      OutcomeAccepted(db, k, v, now);
      OutcomeLeavesTask(db, k, v, now);
    } else {
      OutcomeRefused(db, k, v, now);
    }
  }

  lemma OutcomeRefused(db: Db, k: Credential, v: Verdict, now: int)
    ensures Outcome(db, k, v, now).answer != Done ==> Outcome(db, k, v, now).db == db
  {
    hide Finish, FinishBadly, Retry, CompleteRun, Promote;
  }

  lemma ClaimRowStays(db: Db, s: Step, t: TaskId)
    requires IsClaim(s) && t in db.tasks && db.tasks[t].state == RUNNING
    ensures RowStays(db, Next(db, s), t)
  {
    hide StartGroup, Eligible, DependencyBlocked, RunFull, PoolFull;
  }

  lemma DeferRowStays(db: Db, k: Credential, now: int, retryAfterMs: int, t: TaskId)
    requires t in db.tasks && (HoldsLease(db, k) ==> k.task != t)
    ensures RowStays(db, Defer(db, k, now, retryAfterMs).db, t)
  {
    hide WakeRows, Refund;
  }

  lemma WaitRowStays(db: Db, k: Credential, obstacle: string, e: EscalationId, t: TaskId)
    requires t in db.tasks && (HoldsLease(db, k) ==> k.task != t)
    ensures RowStays(db, WaitForHuman(db, k, obstacle, e).db, t)
  {
    hide SetRunState, SetAttemptState;
  }

  lemma ResumeRowStays(db: Db, e: EscalationId, runUnchanged: bool, t: TaskId)
    requires t in db.tasks && db.tasks[t].state == RUNNING
    ensures RowStays(db, ResumeRun(db, e, runUnchanged).db, t)
  {
    hide WakeRows, SetRunState, CloseEscalation;
  }

  lemma MaterializeRowStays(db: Db, coordinator: TaskId, join: TaskId, d: Descriptor, t: TaskId)
    requires Linked(db.runs, db.tasks, db.groups) && t in db.tasks && db.tasks[t].state == RUNNING
    ensures RowStays(db, MaterializeFanout(db, coordinator, join, d).db, t)
  {
    hide Linked, InsertGroup, ShardTasks, ShardsInsertable, NewGroup;
    if MaterializeFanout(db, coordinator, join, d).db != db {
      assert GroupOf(d) !in db.groups;
      FreshShards(db, d, coordinator);
      InsertedGroup(db, coordinator, join, d);
    }
  }

  /** Recovery takes only leases that have expired. */
  lemma RecoverRowStays(db: Db, now: int, t: TaskId)
    requires t in db.tasks && db.tasks[t].state == RUNNING && db.tasks[t].leaseExpiresAt.Some?
        && now < db.tasks[t].leaseExpiresAt.value
    ensures RowStays(db, RecoverStale(db, now).db, t)
  {
    hide FinishNotifications, RecoverTasks, Promote, FailedFanoutRuns, Stale;
    var notified := FinishNotifications(db);
    NotifiedRowStays(db, t);
    RecoveredRowStays(notified, now, t);
    var recovered := RecoverTasks(notified, Stale(notified, now));
    PromoteRowStays(recovered, FailedFanoutRuns(recovered), t);
  }

  lemma NotifiedRowStays(db: Db, t: TaskId)
    requires t in db.tasks && db.tasks[t].state == RUNNING
    ensures RowStays(db, FinishNotifications(db), t)
  {
    hide CompleteRuns, Published;
  }

  lemma RecoveredRowStays(db: Db, now: int, t: TaskId)
    requires t in db.tasks && db.tasks[t].state == RUNNING && db.tasks[t].leaseExpiresAt.Some?
        && now < db.tasks[t].leaseExpiresAt.value
    ensures Stale(db, now) <= db.tasks.Keys && RowStays(db, RecoverTasks(db, Stale(db, now)), t)
  {
    hide WakeRows, ClosedAttempts;
    assert t !in Stale(db, now);
  }

  /** While a lease has not expired, only its holder's commands touch the task. */
  lemma ForeignStepLeavesTask(db: Db, s: Step, c: Credential)
    requires Safe(db) && HoldsLease(db, c) && !QuotesLease(s, c) && (s.DoRecoverStale? ==> s.now < Expiry(db, c))
    ensures RowStays(db, Next(db, s), c.task)
  {
    hide Safe, Next;
    if s.DoClaimDispatchBatch? || s.DoConfirmDispatch? || s.DoFailDispatch? || s.DoDeferPublished? || s.DoReconcile? {
      OutboxLeavesTask(db, s, c.task);
    } else {
      WorkLeavesTask(db, s, c);
    }
  }

  lemma OutboxLeavesTask(db: Db, s: Step, t: TaskId)
    requires Safe(db) && t in db.tasks
    requires s.DoClaimDispatchBatch? || s.DoConfirmDispatch? || s.DoFailDispatch? || s.DoDeferPublished?
        || s.DoReconcile?
    ensures RowStays(db, Next(db, s), t)
  {
    hide Safe, ClaimDispatchBatch, ConfirmDispatch, FailDispatch, DeferPublishedDispatch, Reconcile;
    match s
    case DoClaimDispatchBatch(publisher, now, leaseMs, size, batch) =>
      ClaimDispatchBatchFrame(db, publisher, now, leaseMs, size, batch);
    case DoConfirmDispatch(k, publisher, now) => PublisherFrame(db, k, publisher, now);
    case DoFailDispatch(k, publisher, retryAt) => PublisherFrame(db, k, publisher, retryAt);
    case DoDeferPublished(u, version, retryAt) => DeferPublishedFrame(db, u, version, retryAt);
    case DoReconcile(now, republishAfterMs) => ReconcileReopens(db, now, republishAfterMs);
  }

  lemma WorkLeavesTask(db: Db, s: Step, c: Credential)
    requires Safe(db) && HoldsLease(db, c) && !QuotesLease(s, c) && (s.DoRecoverStale? ==> s.now < Expiry(db, c))
    requires !(s.DoClaimDispatchBatch? || s.DoConfirmDispatch? || s.DoFailDispatch? || s.DoDeferPublished?
        || s.DoReconcile?)
    ensures RowStays(db, Next(db, s), c.task)
  {
    hide Linked, Leased, Dispatched, Attempted, Counted, RetriesBounded, Honest, Budgeted, CreateRun, MaterializeFanout,
      CompleteFanout, Claim, ClaimById, Heartbeat, WaitForHuman, ResumeRun, ResolveEscalation, Defer, Outcome,
      RecoverStale, Promote;
    var t := c.task;
    match s
    case DoCreateRun(q, plan, limit, last, artifacts) => CreateRunSameTasks(db, q, plan, limit, last, artifacts, t);
    case DoPromote(q) => PromoteRowStays(db, {q}, t);
    case DoMaterialize(coordinator, join, d) => MaterializeRowStays(db, coordinator, join, d, t);
    case DoCompleteFanout(g) => CompleteFanoutFrame(db, g);
    case DoClaim(u, worker, now, leaseMs, a) => ClaimRowStays(db, s, t);
    case DoClaimById(u, version, route, worker, now, leaseMs, limits, a) => ClaimRowStays(db, s, t);
    case DoHeartbeat(k, now, leaseMs) => HeartbeatRowStays(db, k, now, leaseMs, t);
    case DoRecordEffect(u, effect) =>
    case DoWaitForHuman(k, obstacle, e) => WaitRowStays(db, k, obstacle, e, t);
    case DoResumeRun(e, runUnchanged) => ResumeRowStays(db, e, runUnchanged, t);
    case DoResolveEscalation(e, successor) => ResolveEscalationFrame(db, e, successor);
    case DoDefer(k, now, retryAfterMs) => DeferRowStays(db, k, now, retryAfterMs, t);
    case DoOutcome(k, v, now) => OutcomeRowStays(db, k, v, now, t);
    case DoRecoverStale(now) => StaleRowStays(db, now, c);
  }

  lemma StaleRowStays(db: Db, now: int, c: Credential)
    requires Leased(db.tasks) && HoldsLease(db, c) && now < Expiry(db, c)
    ensures RowStays(db, RecoverStale(db, now).db, c.task)
  {
    hide RecoverStale;
    RecoverRowStays(db, now, c.task);
  }

  lemma HeartbeatRowStays(db: Db, k: Credential, now: int, leaseMs: int, t: TaskId)
    requires t in db.tasks && (HoldsLease(db, k) ==> k.task != t)
    ensures RowStays(db, Heartbeat(db, k, now, leaseMs).db, t)
  {
  }

  // ---------------------------------------------------------------------------------------------
  // One clock, heartbeats applied in any order
  // ---------------------------------------------------------------------------------------------

  /** `wire` holds the heartbeats that have been sent and not yet reached the runtime, in send order;
      `applied` holds the send times of those the runtime has accepted, `lastApplied` that of the latest. */
  datatype World = World(clock: int, db: Db, execution: Execution, wire: seq<int>, applied: set<int>, lastApplied: int)

  /** `Deliver(i)` brings any heartbeat on the wire to the runtime; `Check` is the worker's ownership check. */
  datatype Event =
    | Pass(ms: nat)
    | Tick
    | Deliver(i: nat)
    | Drop(i: nat)
    | Confirm
    | TimeOut
    | Refusal
    | Timer
    | Check
    | Close
    | Other(s: Step)

  ghost predicate Possible(w: World, c: Credential, e: Event) {
    match e
    case Deliver(i) => i < |w.wire|
    case Drop(i) => i < |w.wire|
    case Confirm => w.execution.pending.Some? && w.execution.pending.value in w.applied
    case TimeOut => w.execution.pending.Some?
    case Refusal => w.execution.pending.Some?
    case Timer => w.clock >= w.execution.confirmedUntil
    case Other(s) => Quoted(w.db, s) && !QuotesLease(s, c) && (s.DoRecoverStale? ==> s.now <= w.clock)
    case _ => true
  }

  /** What the event does to the worker's side. */
  function Reacted(x: Execution, clock: int, leaseMs: int, e: Event): Execution {
    match e
    case Tick => Ticked(x, clock)
    case Confirm => if x.pending.Some? then ConfirmedBelief(x, leaseMs) else x
    case TimeOut => Missed(x, false)
    case Refusal => Missed(x, true)
    case Timer => Expired(x)
    case Check => Checked(x, clock)
    case Close => x.(closed := true, pending := None)
    case _ => x
  }

  /** What it does to the rest of the world. */
  ghost function Around(w: World, c: Credential, leaseMs: int, e: Event): World
    requires Possible(w, c, e)
  {
    match e
    case Pass(ms) => w.(clock := w.clock + ms)
    case Tick => w.(wire := if MaySend(w.execution, w.clock) then w.wire + [w.clock] else w.wire)
    case Deliver(i) =>
      var sentAt, wire := w.wire[i], w.wire[..i] + w.wire[i + 1..];
      if HoldsLease(w.db, c)
      then w.(db := Heartbeat(w.db, c, sentAt, leaseMs).db, wire := wire, applied := w.applied + {sentAt},
            lastApplied := sentAt)
      else w.(wire := wire)
    case Drop(i) => w.(wire := w.wire[..i] + w.wire[i + 1..])
    case Other(s) => w.(db := Next(w.db, s))
    case _ => w
  }

  ghost function Happens(w: World, c: Credential, leaseMs: int, e: Event): World
    requires Possible(w, c, e)
  {
    Around(w, c, leaseMs, e).(execution := Reacted(w.execution, w.clock, leaseMs, e))
  }

  /** The credential was handed out, and no later claim of the task has the same token. */
  ghost predicate TokenPassed(db: Db, c: Credential) {
    && Safe(db)
    && Issued(db, c)
    && c.task in db.tasks && c.token <= db.tasks[c.task].leaseToken
  }

  /** The stored expiry follows the heartbeat applied last, and until then nobody takes the task. */
  ghost predicate LeaseAsApplied(w: World, c: Credential, leaseMs: int) {
    && TokenPassed(w.db, c)
    && w.lastApplied <= w.clock
    && (forall i :: 0 <= i < |w.wire| ==> w.wire[i] <= w.clock)
    && (HoldsLease(w.db, c) ==> Expiry(w.db, c) == w.lastApplied + leaseMs)
    && (w.clock < w.lastApplied + leaseMs ==> HoldsLease(w.db, c))
  }

  lemma EventKeepsLease(w: World, c: Credential, leaseMs: int, e: Event)
    requires LeaseAsApplied(w, c, leaseMs) && Possible(w, c, e)
    ensures LeaseAsApplied(Happens(w, c, leaseMs, e), c, leaseMs)
  {
    hide TokenPassed, Next, Quoted;
    match e
    case Deliver(i) => DeliveryKeepsLease(w, c, leaseMs, i);
    case Other(s) => OthersKeepLease(w, c, leaseMs, s);
    case _ =>
  }

  lemma DeliveryKeepsLease(w: World, c: Credential, leaseMs: int, i: nat)
    requires LeaseAsApplied(w, c, leaseMs) && i < |w.wire|
    ensures LeaseAsApplied(Happens(w, c, leaseMs, Deliver(i)), c, leaseMs)
  {
    hide Safe, Advances;
    if HoldsLease(w.db, c) { HeartbeatKeeps(w.db, c, w.wire[i], leaseMs); }
  }

  lemma OthersKeepLease(w: World, c: Credential, leaseMs: int, s: Step)
    requires LeaseAsApplied(w, c, leaseMs) && Possible(w, c, Other(s))
    ensures LeaseAsApplied(Happens(w, c, leaseMs, Other(s)), c, leaseMs)
  {
    hide TokenPassed, Next, Quoted, QuotesLease, HoldsLease, Expiry;
    TokenStaysPassed(w.db, s, c);
    LeaseStaysOrEnds(w.db, s, c);
  }

  /** A transaction of another process leaves the lease as it is; recovery may end it once it has expired. */
  lemma LeaseStaysOrEnds(db: Db, s: Step, c: Credential)
    requires TokenPassed(db, c) && Quoted(db, s) && !QuotesLease(s, c)
    ensures HoldsLease(Next(db, s), c) ==> HoldsLease(db, c) && Expiry(Next(db, s), c) == Expiry(db, c)
    ensures HoldsLease(db, c) && (s.DoRecoverStale? ==> s.now < Expiry(db, c)) ==> HoldsLease(Next(db, s), c)
  {
    hide TokenPassed, Next, Quoted, QuotesLease;
    PassedIsSafe(db, c);
    if !HoldsLease(db, c) {
      LeaseNeverReturns(db, s, c);
    } else if s.DoRecoverStale? ==> s.now < Expiry(db, c) {
      ForeignStepLeavesTask(db, s, c);
    } else {
      ExpiredIsTakenOrLeft(db, s.now, c);
      RecoveredNext(db, s);
    }
  }

  lemma RecoveredNext(db: Db, s: Step)
    requires s.DoRecoverStale?
    ensures Next(db, s) == RecoverStale(db, s.now).db
  {
  }

  lemma PassedIsSafe(db: Db, c: Credential)
    requires TokenPassed(db, c)
    ensures Safe(db) && c.task in db.tasks
  {
  }

  lemma TokenStaysPassed(db: Db, s: Step, c: Credential)
    requires TokenPassed(db, c) && Quoted(db, s)
    ensures TokenPassed(Next(db, s), c)
  {
    hide Safe, Next, Quoted;
    StepKeepsSafe(db, s);
    assert TaskAdvances(db.tasks[c.task], Next(db, s).tasks[c.task]);
  }

  /** A lease that is lost is lost for good: the next claim has a higher token. */
  lemma LeaseNeverReturns(db: Db, s: Step, c: Credential)
    requires TokenPassed(db, c) && Quoted(db, s) && !HoldsLease(db, c)
    ensures !HoldsLease(Next(db, s), c)
  {
    hide Linked, Leased, Dispatched, Counted, RetriesBounded, Honest, Budgeted, Next, Quoted;
    StepKeepsSafe(db, s);
    assert TaskAdvances(db.tasks[c.task], Next(db, s).tasks[c.task]);
    if HoldsLease(Next(db, s), c) {
      if IsClaim(s) { ClaimRaisesToken(db, s, c.task); } else { OnlyClaimsRun(db, s, c.task); }
      RunningIsHeld(db, c);
      assert false;
    }
  }

  lemma ClaimRaisesToken(db: Db, s: Step, t: TaskId)
    requires IsClaim(s) && t in db.tasks
    ensures t in Next(db, s).tasks && (Next(db, s).tasks[t] == db.tasks[t]
        || Next(db, s).tasks[t].leaseToken > db.tasks[t].leaseToken)
  {
    hide StartGroup, Eligible, DependencyBlocked, RunFull, PoolFull;
  }

  lemma RunningIsHeld(db: Db, c: Credential)
    requires Attempted(db.tasks, db.attempts) && Issued(db, c) && c.task in db.tasks
    requires db.tasks[c.task].state == RUNNING && db.tasks[c.task].leaseToken == c.token
    ensures HoldsLease(db, c)
  {
    var x :| Open(db.attempts, x, c.task);
    assert AttemptSound(db.tasks, db.attempts[x]);
    assert x == c.attempt || Distinct(db.attempts[x], db.attempts[c.attempt]);
  }

  /** Recovery takes an expired lease away or, if the run is not active, leaves it. */
  lemma ExpiredIsTakenOrLeft(db: Db, now: int, c: Credential)
    requires Safe(db) && HoldsLease(db, c)
    ensures RowStays(db, RecoverStale(db, now).db, c.task) || !HoldsLease(RecoverStale(db, now).db, c)
  {
    hide Linked, Dispatched, Attempted, Counted, RetriesBounded, Honest, Budgeted, RecoverStale;
    if db.tasks[c.task].leaseExpiresAt.value > now {
      RecoverRowStays(db, now, c.task);
    } else if RunIs(db, db.tasks[c.task].run, ACTIVE) {
      StaleIsTaken(db, c, now);
    } else {
      InactiveRowStays(db, now, c.task);
    }
  }

  lemma InactiveRowStays(db: Db, now: int, t: TaskId)
    requires t in db.tasks && db.tasks[t].state == RUNNING && !RunIs(db, db.tasks[t].run, ACTIVE)
    ensures RowStays(db, RecoverStale(db, now).db, t)
  {
    hide FinishNotifications, RecoverTasks, Promote, FailedFanoutRuns, Stale;
    var notified := FinishNotifications(db);
    NotifiedRowStays(db, t);
    NotNewlyActive(db, db.tasks[t].run);
    StaleExist(notified, now);
    OutsideStale(notified, now, t);
    var recovered := RecoverTasks(notified, Stale(notified, now));
    PromoteRowStays(recovered, FailedFanoutRuns(recovered), t);
  }

  lemma NotNewlyActive(db: Db, r: RunId)
    ensures RunIs(FinishNotifications(db), r, ACTIVE) ==> RunIs(db, r, ACTIVE)
  {
    hide NotifiedEnough, RunsOf, AllSucceeded;
  }

  lemma OutsideStale(db: Db, now: int, t: TaskId)
    requires t in db.tasks && !RunIs(db, db.tasks[t].run, ACTIVE) && Stale(db, now) <= db.tasks.Keys
    ensures RowStays(db, RecoverTasks(db, Stale(db, now)), t)
  {
    hide WakeRows, ClosedAttempts;
    assert t !in Stale(db, now);
  }

  /** Events, each possible when it happens, with the worlds they lead through. */
  datatype Story = Story(worlds: seq<World>, events: seq<Event>)

  ghost predicate IsStory(story: Story, c: Credential, leaseMs: int) {
    && |story.worlds| == |story.events| + 1
    && forall i {:trigger story.events[i]} :: 0 <= i < |story.events| ==>
          Possible(story.worlds[i], c, story.events[i])
              && story.worlds[i + 1] == Happens(story.worlds[i], c, leaseMs, story.events[i])
  }

  lemma {:induction false} LeaseStaysAsApplied(story: Story, c: Credential, leaseMs: int, i: nat)
    requires IsStory(story, c, leaseMs) && LeaseAsApplied(story.worlds[0], c, leaseMs) && i < |story.worlds|
    ensures LeaseAsApplied(story.worlds[i], c, leaseMs)
    decreases i
  {
    hide LeaseAsApplied, Possible, Happens;
    if i > 0 {
      LeaseStaysAsApplied(story, c, leaseMs, i - 1);
      EventKeepsLease(story.worlds[i - 1], c, leaseMs, story.events[i - 1]);
    }
  }

  /** The world in which a worker starts to execute a task it has claimed, its belief being the expiry that
      the claim stored. */
  ghost function Starting(db: Db, now: int, leaseMs: int): World {
    World(now, db, Execution(now + leaseMs, 0, None, false, false), [], {}, now)
  }

  ghost predicate Starts(trace: Trace, t: nat, c: Credential, now: int, leaseMs: int, story: Story) {
    && IsTrace(trace) && t < |trace.states| && HoldsLease(trace.states[t], c) && Issued(trace.states[t], c)
    && Expiry(trace.states[t], c) == now + leaseMs
    && IsStory(story, c, leaseMs) && story.worlds[0] == Starting(trace.states[t], now, leaseMs)
  }

  lemma {:induction false} StoryKeepsLease(trace: Trace, t: nat, c: Credential, now: int, leaseMs: int, story: Story,
      i: nat)
    requires Starts(trace, t, c, now, leaseMs, story) && i < |story.worlds|
    ensures LeaseAsApplied(story.worlds[i], c, leaseMs)
  {
    hide Safe, IsTrace, Possible, Happens;
    TraceIsSafe(trace, t);
    LeaseStaysAsApplied(story, c, leaseMs, i);
  }

  /** The heartbeat applied last was sent before the one that the belief rests on. */
  predicate Overtaken(w: World, leaseMs: int) {
    w.lastApplied + leaseMs < w.execution.confirmedUntil
  }

  /** The lease is the worker's, and the stored expiry lies in the future. */
  predicate Owns(w: World, c: Credential) {
    HoldsLease(w.db, c) && w.clock < Expiry(w.db, c)
  }

  /** A check made `ms` milliseconds later passes. */
  predicate PassesAfter(w: World, ms: nat) {
    OwnershipHolds(w.execution, w.clock + ms)
  }

  /** Whatever the order in which heartbeats are applied: from any moment on, every ownership check passed
      before the next event finds the task RUNNING under the worker's own token with its lease outlasting the
      check, exactly when the belief has run out or was not overtaken. */
  lemma {:induction false} ChecksAreSoundExactly(trace: Trace, t: nat, c: Credential, now: int, leaseMs: int,
      story: Story, i: nat)
    requires Starts(trace, t, c, now, leaseMs, story) && i < |story.worlds|
    requires !story.worlds[i].execution.closed && !story.worlds[i].execution.aborted
    ensures (forall ms: nat ::
        PassesAfter(story.worlds[i], ms) ==> Owns(story.worlds[i].(clock := story.worlds[i].clock + ms), c))
        <==> story.worlds[i].clock >= story.worlds[i].execution.confirmedUntil || !Overtaken(story.worlds[i], leaseMs)
  {
    hide Starts, TokenPassed, HoldsLease, Expiry;
    StoryKeepsLease(trace, t, c, now, leaseMs, story, i);
    var w := story.worlds[i];
    if w.clock < w.execution.confirmedUntil && Overtaken(w, leaseMs) {
      var ms := if w.lastApplied + leaseMs > w.clock then w.lastApplied + leaseMs - w.clock else 0;
      assert PassesAfter(w, ms) && !Owns(w.(clock := w.clock + ms), c);
    }
  }

  // ---------------------------------------------------------------------------------------------
  // Heartbeats applied in the order they were sent
  // ---------------------------------------------------------------------------------------------

  ghost predicate InSendOrder(story: Story) {
    forall i {:trigger story.events[i]} ::
        0 <= i < |story.events| && story.events[i].Deliver? ==> story.events[i].i == 0
  }

  ghost predicate InOrder(wire: seq<int>, first: int, last: int) {
    && (forall i :: 0 <= i < |wire| ==> first <= wire[i] <= last)
    && (forall i, j :: 0 <= i < j < |wire| ==> wire[i] <= wire[j])
  }

  /** The belief never reaches beyond the lease last renewed. */
  ghost predicate Covered(w: World, leaseMs: int) {
    && w.lastApplied <= w.clock
    && InOrder(w.wire, w.lastApplied, w.clock)
    && (forall s :: s in w.applied ==> s <= w.lastApplied)
    && !Overtaken(w, leaseMs)
  }

  lemma {:induction false} OrderedIsNeverOvertaken(story: Story, c: Credential, leaseMs: int, i: nat)
    requires IsStory(story, c, leaseMs) && InSendOrder(story) && Covered(story.worlds[0], leaseMs) && i < |story.worlds|
    ensures Covered(story.worlds[i], leaseMs)
    decreases i
  {
    if i > 0 {
      OrderedIsNeverOvertaken(story, c, leaseMs, i - 1);
      assert story.events[i - 1].Deliver? ==> story.events[i - 1].i == 0;
      hide InSendOrder, HoldsLease, Quoted, Next, Heartbeat, QuotesLease;
      EventKeepsCovered(story.worlds[i - 1], c, leaseMs, story.events[i - 1]);
    }
  }

  lemma EventKeepsCovered(w: World, c: Credential, leaseMs: int, e: Event)
    requires Covered(w, leaseMs) && Possible(w, c, e) && (e.Deliver? ==> e.i == 0)
    ensures Covered(Happens(w, c, leaseMs, e), leaseMs)
  {
    hide HoldsLease, Quoted, Next, Heartbeat, QuotesLease;
  }

  /** Lease belief is sound: whenever a worker passes its ownership check, the task is still RUNNING under
      the worker's own token, and the lease stored for it outlasts the check. */
  lemma {:induction false} OwnershipCheckIsSound(trace: Trace, t: nat, c: Credential, now: int, leaseMs: int,
      story: Story, i: nat)
    requires Starts(trace, t, c, now, leaseMs, story) && InSendOrder(story) && i < |story.worlds|
    requires OwnershipHolds(story.worlds[i].execution, story.worlds[i].clock) && !story.worlds[i].execution.closed
    ensures HoldsLease(story.worlds[i].db, c) && story.worlds[i].clock < Expiry(story.worlds[i].db, c)
  {
    hide IsTrace, IsStory, InSendOrder, TokenPassed, HoldsLease, Expiry;
    OrderedIsNeverOvertaken(story, c, leaseMs, i);
    StoryKeepsLease(trace, t, c, now, leaseMs, story, i);
  }

  /** A claim by id starts the execution just so. */
  lemma ClaimGivesLease(db: Db, t: TaskId, version: nat, route: RoutingClass, worker: Worker, now: int, leaseMs: int,
      limits: Limits, a: AttemptId)
    requires ClaimById(db, t, version, route, worker, now, leaseMs, limits, a).answer == Done
    ensures t in db.tasks
    ensures var next, c := ClaimById(db, t, version, route, worker, now, leaseMs, limits, a).db,
        Credential(t, a, worker, db.tasks[t].leaseToken + 1);
            HoldsLease(next, c) && Issued(next, c) && Expiry(next, c) == now + leaseMs
  {
    hide StartGroup, Eligible, DependencyBlocked, RunFull, PoolFull;
  }

  // ---------------------------------------------------------------------------------------------
  // The worker's event loop
  // ---------------------------------------------------------------------------------------------

  class TaskExecution {
    const leaseMs: int
    var confirmedUntil: int
    var missedHeartbeats: nat
    var pendingHeartbeat: Option<int>
    var closed: bool
    var aborted: bool

    function View(): Execution
      reads this
    {
      Execution(confirmedUntil, missedHeartbeats, pendingHeartbeat, closed, aborted)
    }

    constructor (leaseExpiresAt: Option<int>, now: int, leaseMs: int)
      ensures this.leaseMs == leaseMs
      ensures View() == Execution(if leaseExpiresAt.Some? then leaseExpiresAt.value
          else now + leaseMs, 0, None, false, false)
    {
      this.leaseMs := leaseMs;
      confirmedUntil := if leaseExpiresAt.Some? then leaseExpiresAt.value else now + leaseMs;
      missedHeartbeats, pendingHeartbeat, closed, aborted := 0, None, false, false;
    }

    method Expire()
      modifies this`aborted
      ensures View() == Expired(old(View()))
    {
      if closed || aborted { return; }
      aborted := true;
    }

    /** Passes exactly when the execution is not aborted and the belief has not run out. */
    method AssertOwnership(now: int) returns (holds: bool)
      modifies this`aborted
      ensures holds == OwnershipHolds(old(View()), now)
      ensures View() == Checked(old(View()), now)
    {
      if now >= confirmedUntil { Expire(); }
      return !aborted;
    }

    method HeartbeatTick(now: int) returns (sent: Option<int>)
      modifies this`aborted, this`pendingHeartbeat
      ensures View() == Ticked(old(View()), now)
      ensures sent == if MaySend(old(View()), now) then Some(now) else None
    {
      if closed || aborted || pendingHeartbeat.Some? { return None; }
      if now >= confirmedUntil {
        Expire();
        return None;
      }
      pendingHeartbeat := Some(now);
      return Some(now);
    }

    method HeartbeatConfirmed()
      requires pendingHeartbeat.Some?
      modifies this`confirmedUntil, this`missedHeartbeats, this`pendingHeartbeat
      ensures View() == ConfirmedBelief(old(View()), leaseMs)
    {
      if !closed && !aborted {
        confirmedUntil := pendingHeartbeat.value + leaseMs;
        missedHeartbeats := 0;
      }
      pendingHeartbeat := None;
    }

    /** A failed or timed-out heartbeat; only an explicit refusal aborts at once. */
    method HeartbeatFailed(explicitLeaseLoss: bool)
      modifies this`missedHeartbeats, this`pendingHeartbeat, this`aborted
      ensures View() == Missed(old(View()), explicitLeaseLoss)
    {
      if !closed && !aborted {
        missedHeartbeats := missedHeartbeats + 1;
        if explicitLeaseLoss { aborted := true; }
      }
      pendingHeartbeat := None;
    }

    method Close()
      modifies this`closed, this`pendingHeartbeat
      ensures View() == old(View()).(closed := true, pending := None)
    {
      closed, pendingHeartbeat := true, None;
    }

    /** The execution of a claimed task: heartbeats, their answers, timers and ownership checks in whatever
        order they come. Every check that passes before the end, and whose belief was not overtaken by a
        heartbeat applied late, was made by the owner of the lease. */
    method ExecuteClaimedTask(events: seq<Event>, now: int, ghost trace: Trace, ghost t: nat, ghost c: Credential,
        ghost story: Story)
        returns (passed: set<nat>)
      requires View() == Execution(now + leaseMs, 0, None, false, false)
      requires Starts(trace, t, c, now, leaseMs, story) && story.events == events
      modifies this
      ensures forall i: nat :: i in passed <==> PassedAt(story, i)
      ensures forall i: nat ::
          i in passed ==>
          PassedAt(story, i) && (story.worlds[i].execution.closed || Overtaken(story.worlds[i], leaseMs)
          || Owns(story.worlds[i], c))
      ensures |story.worlds| == |events| + 1 && View() == story.worlds[|events|].execution
    {
      hide Starts, Owns, Overtaken, Reacted, LeaseAsApplied;
      StoryStarts(trace, t, c, now, leaseMs, story);
      var clock := now;
      passed := {};
      for i := 0 to |events|
        invariant View() == story.worlds[i].execution && clock == story.worlds[i].clock
        invariant forall j: nat :: j in passed <==> j < i && PassedAt(story, j)
        invariant forall j: nat :: j in passed ==>
            PassedAt(story, j) && (story.worlds[j].execution.closed || Overtaken(story.worlds[j], leaseMs)
                || Owns(story.worlds[j], c))
      {
        StoryGoesOn(trace, t, c, now, leaseMs, story, i);
        var holds := React(events[i], clock);
        if holds {
          StoryKeepsLease(trace, t, c, now, leaseMs, story, i);
          PassedIsOwned(story.worlds[i], c, leaseMs);
          passed := passed + {i};
        }
        if events[i].Pass? { clock := clock + events[i].ms; }
      }
    }

    method React(e: Event, clock: int) returns (passed: bool)
      requires e.Confirm? ==> pendingHeartbeat.Some?
      modifies this
      ensures View() == Reacted(old(View()), clock, leaseMs, e)
      ensures passed <==> e == Check && OwnershipHolds(old(View()), clock)
    {
      passed := false;
      match e {
        case Tick => var _ := HeartbeatTick(clock);
        case Confirm => HeartbeatConfirmed();
        case TimeOut => HeartbeatFailed(false);
        case Refusal => HeartbeatFailed(true);
        case Timer => Expire();
        case Check => passed := AssertOwnership(clock);
        case Close => Close();
        case _ =>
      }
    }
  }

  /** The event is an ownership check, and it passes. */
  predicate PassedAt(story: Story, i: nat) {
    && i < |story.events| && i < |story.worlds|
    && story.events[i] == Check && OwnershipHolds(story.worlds[i].execution, story.worlds[i].clock)
  }

  lemma StoryStarts(trace: Trace, t: nat, c: Credential, now: int, leaseMs: int, story: Story)
    requires Starts(trace, t, c, now, leaseMs, story)
    ensures |story.worlds| == |story.events| + 1 && story.worlds[0].clock == now
    ensures story.worlds[0].execution == Execution(now + leaseMs, 0, None, false, false)
  {
  }

  lemma StoryGoesOn(trace: Trace, t: nat, c: Credential, now: int, leaseMs: int, story: Story, i: nat)
    requires Starts(trace, t, c, now, leaseMs, story) && i < |story.events|
    ensures |story.worlds| == |story.events| + 1
    ensures story.worlds[i + 1].execution ==
        Reacted(story.worlds[i].execution, story.worlds[i].clock, leaseMs, story.events[i])
    ensures story.worlds[i + 1].clock == story.worlds[i].clock + if story.events[i].Pass? then story.events[i].ms else 0
    ensures story.events[i].Confirm? ==> story.worlds[i].execution.pending.Some?
  {
    hide IsTrace, Quoted, QuotesLease, HoldsLease, Issued, Next, Heartbeat, Expiry, Reacted;
    assert story.worlds[i + 1] == Happens(story.worlds[i], c, leaseMs, story.events[i]);
  }

  lemma PassedIsOwned(w: World, c: Credential, leaseMs: int)
    requires LeaseAsApplied(w, c, leaseMs) && OwnershipHolds(w.execution, w.clock)
    ensures w.execution.closed || Overtaken(w, leaseMs) || Owns(w, c)
  {
    hide TokenPassed;
  }

  // ---------------------------------------------------------------------------------------------
  // Out of order
  // ---------------------------------------------------------------------------------------------

  function LastWorld(story: Story): World
    requires |story.worlds| > 0
  {
    story.worlds[|story.worlds| - 1]
  }

  ghost function Goes(story: Story, c: Credential, leaseMs: int, e: Event): (next: Story)
    requires |story.worlds| > 0 && Possible(LastWorld(story), c, e)
    ensures |next.worlds| == |story.worlds| + 1 && next.worlds[0] == story.worlds[0]
        && LastWorld(next) == Happens(LastWorld(story), c, leaseMs, e)
  {
    Story(story.worlds + [Happens(LastWorld(story), c, leaseMs, e)], story.events + [e])
  }

  lemma GoesOn(story: Story, c: Credential, leaseMs: int, e: Event)
    requires |story.worlds| > 0 && IsStory(story, c, leaseMs) && Possible(LastWorld(story), c, e)
    ensures IsStory(Goes(story, c, leaseMs, e), c, leaseMs)
  {
    hide Possible, Happens;
    var next := Goes(story, c, leaseMs, e);
    forall i | 0 <= i < |next.events|
      ensures Possible(next.worlds[i], c, next.events[i])
          && next.worlds[i + 1] == Happens(next.worlds[i], c, leaseMs, next.events[i])
    {
      if i < |story.events| {
        assert next.events[i] == story.events[i] && next.worlds[i] == story.worlds[i]
            && next.worlds[i + 1] == story.worlds[i + 1];
      }
    }
  }

  /** The first of two heartbeats is given up by its sender and still on the wire; the second is confirmed. */
  lemma SecondConfirmed(db: Db) returns (story: Story)
    requires BothClaimed(db, 2)
    ensures |story.worlds| > 0 && IsStory(story, OF_A, LEASE) && story.worlds[0] == Starting(db, 0, LEASE)
    ensures var w := LastWorld(story);
      && w.clock == 20 && w.execution == Execution(120, 0, None, false, false) && w.wire == [10]
      && HoldsLease(w.db, OF_A) && RunIs(w.db, w.db.tasks[OF_A.task].run, ACTIVE)
  {
    hide IsStory, Next;
    story := Story([Starting(db, 0, LEASE)], []);
    assert IsStory(story, OF_A, LEASE) by { StoryBegins(Starting(db, 0, LEASE), OF_A, LEASE); }
    story := Also(story, Pass(10));
    story := Also(story, Tick);
    story := Also(story, TimeOut);
    story := Also(story, Pass(10));
    story := Also(story, Tick);
    assert LastWorld(story).wire == [10, 20];
    story := Also(story, Deliver(1));
    story := Also(story, Confirm);
  }

  /** Two heartbeats are on the wire, the first given up by its sender; the second is applied and confirmed,
      then the first is applied and pulls the stored expiry back below the belief. */
  lemma TwoHeartbeats(db: Db) returns (story: Story)
    requires BothClaimed(db, 2)
    ensures |story.worlds| > 0 && IsStory(story, OF_A, LEASE) && story.worlds[0] == Starting(db, 0, LEASE)
    ensures var w := LastWorld(story);
      && w.clock == 115 && w.execution == Execution(120, 0, None, false, false)
      && HoldsLease(w.db, OF_A) && w.db.tasks[OF_A.task].leaseExpiresAt == Some(110)
          && RunIs(w.db, w.db.tasks[OF_A.task].run, ACTIVE)
  {
    hide IsStory, Next;
    story := SecondConfirmed(db);
    story := Also(story, Deliver(0));
    story := Also(story, Pass(95));
  }

  lemma Also(story: Story, e: Event) returns (next: Story)
    requires |story.worlds| > 0 && IsStory(story, OF_A, LEASE) && Possible(LastWorld(story), OF_A, e)
    ensures |next.worlds| > 0 && IsStory(next, OF_A, LEASE) && next.worlds[0] == story.worlds[0]
    ensures LastWorld(next) == Happens(LastWorld(story), OF_A, LEASE, e)
  {
    hide IsStory, Possible, Happens;
    GoesOn(story, OF_A, LEASE, e);
    next := Goes(story, OF_A, LEASE, e);
  }

  lemma StoryBegins(w: World, c: Credential, leaseMs: int)
    ensures IsStory(Story([w], []), c, leaseMs)
  {
  }

  /** From the empty database: recovery takes the task away while the worker still believes in its lease, and
      its next ownership check passes. */
  lemma LateHeartbeatLosesTask() returns (trace: Trace, t: nat, story: Story)
    ensures Starts(trace, t, OF_A, 0, LEASE, story) && |story.worlds| > 0
    ensures var w := LastWorld(story);
        OwnershipHolds(w.execution, w.clock) && !w.execution.closed && !HoldsLease(w.db, OF_A)
  {
    hide IsTrace, IsStory, Next, RecoverStale;
    trace := ClaimTwo(2);
    t := |trace.states| - 1;
    story := TwoHeartbeats(trace.states[t]);
    var w := LastWorld(story);
    StaleIsTaken(w.db, OF_A, w.clock);
    RecoveredNext(w.db, DoRecoverStale(w.clock));
    story := Also(story, Other(DoRecoverStale(w.clock)));
  }

  lemma StaleIsTaken(db: Db, c: Credential, now: int)
    requires HoldsLease(db, c) && RunIs(db, db.tasks[c.task].run, ACTIVE) && db.tasks[c.task].leaseExpiresAt.Some?
        && db.tasks[c.task].leaseExpiresAt.value <= now
    ensures !HoldsLease(RecoverStale(db, now).db, c)
  {
    hide FinishNotifications, RecoverTasks, Promote, FailedFanoutRuns;
    var notified := FinishNotifications(db);
    NotifiedRowStays(db, c.task);
    StaleTaskMoves(db, c, now);
    var recovered := RecoverTasks(notified, Stale(notified, now));
    PromotedTask(recovered, FailedFanoutRuns(recovered), c.task);
  }

  lemma StaleTaskMoves(db: Db, c: Credential, now: int)
    requires HoldsLease(db, c) && RunIs(db, db.tasks[c.task].run, ACTIVE) && db.tasks[c.task].leaseExpiresAt.Some?
        && db.tasks[c.task].leaseExpiresAt.value <= now
    requires RowStays(db, FinishNotifications(db), c.task)
    ensures var notified := FinishNotifications(db);
      && Stale(notified, now) <= notified.tasks.Keys
      && c.task in RecoverTasks(notified, Stale(notified, now)).tasks
      && RecoverTasks(notified, Stale(notified, now)).tasks[c.task].state in {RUNNABLE, UNKNOWN_OUTCOME}
  {
    hide WakeRows, ClosedAttempts, Published;
    var notified := FinishNotifications(db);
    assert !AllSucceeded(notified, db.tasks[c.task].run);
    assert c.task in Stale(notified, now);
  }
}
