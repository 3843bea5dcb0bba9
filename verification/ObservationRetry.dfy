/**
 Retries of an observation: when an attempt leads to a retry, the outbox row that carries it,
 and the bound that the capture window sets on their number.
 */
module ObservationRetry {
  import opened Common
  import opened AnalyticsTables
  import opened ObservationProtocol
  import opened ObservationSafety

  // ---- when a retry follows ----

  /**
   A 429 leads to a retry exactly when the header asks for at least one second, a whole second of the
   window is left at the first clock reading, and from the second one the delay, or the time between the
   readings alone where the delay was cut to whole seconds, stays within the window. A header of zero or
   less therefore ends the observation as MISSED although its window is open.
   */
  lemma RateLimitRetriesIff(s: Snapshot, header: Option<int>, readAt: Time, dueFrom: Time)
    ensures var secs := if header.Some? then header.value else 60;
      var left, between := s.row.windowClosesAt - readAt, dueFrom - readAt;
      RateLimitRetries(s, header, readAt, dueFrom) <==>
        secs >= 1 && left >= 1000 && (Min(secs, 3600) * 1000 + between < left || between < left % 1000)
  {
    var left := s.row.windowClosesAt - readAt;
    assert left == left / 1000 * 1000 + left % 1000;
  }

  /** The attempt that holds `id` reports a 429 long before the window closes, and the observation ends as MISSED. */
  ghost predicate MissedEarly(w: World, e: Event, id: ObservationId) {
    && e.ReportRateLimit? && Loaded(w, e.token) && w.attempts[e.token].id == id && id in w.t.observations
    && Holds(w.t, id, e.token) && e.dueFrom + 3_600_000 < w.t.observations[id].windowClosesAt
    && id in Next(w, e).t.observations && Next(w, e).t.observations[id].status == Missed
  }

  /** It happens with a header of zero, or of any number below. */
  lemma ZeroHeaderMisses(secs: int)
    requires secs <= 0
    ensures exists es: seq<Event>, e: Event :: MissedEarly(Run(EMPTY, es), e, POST)
  {
    var es, w := AfterClaim24();
    RunAppend(EMPTY, es, Load(1));
    var loaded := Next(w, Load(1));
    assert Run(EMPTY, es + [Load(1)]) == loaded;
    assert Loaded(loaded, 1) && Holds(loaded.t, POST, 1);
    assert MissedEarly(loaded, ReportRateLimit(1, Some(secs), 24 * HOUR_MS, 24 * HOUR_MS, 24 * HOUR_MS), POST);
  }

  lemma {:induction false} PowGrows(n: nat)
    ensures Pow2(n) >= 1
    ensures n >= 5 ==> Pow2(n) >= 32
  {
    if n > 0 { PowGrows(n - 1); }
    if n == 5 { assert Pow2(5) == 2 * Pow2(4) == 4 * Pow2(3) == 8 * Pow2(2) == 16 * Pow2(1) == 32 * Pow2(0); }
  }

  /** The backoff doubles from 15 s, is capped at 300 s, and carries under 2 s of jitter. */
  lemma BackoffBounds(attempt: nat, jitterMs: nat)
    requires attempt >= 1 && jitterMs < JITTER_MS
    ensures 15000 <= BackoffMs(attempt, jitterMs) < 302000
    ensures attempt >= 6 ==> BackoffMs(attempt, 0) == 300000
    ensures attempt <= 5 ==> BackoffMs(attempt, 0) == 15000 * Pow2(attempt - 1)
  {
    PowGrows(attempt - 1);
    if attempt <= 5 {
      assert Pow2(4) == 2 * Pow2(3) == 4 * Pow2(2) == 8 * Pow2(1) == 16 * Pow2(0);
      assert Pow2(attempt - 1) in {1, 2, 4, 8, 16};
    }
  }

  // ---- the retry row ----

  /** A retry row for `id` that the step inserted. */
  ghost predicate FreshRetry(w: World, e: Event, id: ObservationId, k: DedupeKey) {
    && k !in w.t.outbox
    && k in NextTables(w, e).outbox
    && NextTables(w, e).outbox[k].payload == RetryObservation(id)
  }

  predicate MovesToRetry(w: World, e: Event, id: ObservationId) {
    && id in w.t.observations && id in NextTables(w, e).observations
    && w.t.observations[id].status == Processing
    && (NextTables(w, e).observations[id].status.Failed? || NextTables(w, e).observations[id].status.RateLimited?)
  }

  function WorkerRetryKey(w: World, e: Event): DedupeKey
    requires (e.ReportRateLimit? || e.ReportFailure?) && Loaded(w, e.token)
  {
    var s := SnapshotOf(w, e.token);
    if e.ReportRateLimit? then RateLimitKey(s.id, s.row.attemptCount) else FailureKey(s.id, s.row.attemptCount)
  }

  /**
   Every move of a worker to FAILED or RATE_LIMITED inserts a row under a key never used before,
   due strictly before the window closes.
   */
  lemma WorkerRetryIsFresh(w: World, e: Event, id: ObservationId)
    requires Inv(w) && MovesToRetry(w, e, id) && !e.SweepRecover?
    ensures (e.ReportRateLimit? || e.ReportFailure?) && Loaded(w, e.token) && w.attempts[e.token].id == id
    ensures FreshRetry(w, e, id, WorkerRetryKey(w, e))
    ensures NextTables(w, e).outbox[WorkerRetryKey(w, e)].executeAt < w.t.observations[id].windowClosesAt
  {
    WorkerMove(w, e, id);
    assert Holds(w.t, id, e.token);
  }

  /** Only the two failure reports move a row to a retry, and only for the attempt that holds it. */
  lemma WorkerMove(w: World, e: Event, id: ObservationId)
    requires LeaseInv(w) && MovesToRetry(w, e, id) && !e.SweepRecover?
    ensures (e.ReportRateLimit? || e.ReportFailure?) && Loaded(w, e.token) && w.attempts[e.token].id == id
    ensures Holds(w.t, id, e.token)
    ensures if e.ReportRateLimit? then RateLimitRetries(SnapshotOf(w, e.token), e.header, e.readAt, e.dueFrom)
            else FailureRetries(SnapshotOf(w, e.token), e.jitterMs, e.failedAt) && e.jitterMs < JITTER_MS
  {
    RowSteps(w, e, id);
  }

  /**
   A recovery inserts a fresh retry row exactly when no earlier recovery committed from the same
   read of the same row. When it does not, the observation is left FAILED with no new retry.
   */
  lemma RecoveryIsFreshIff(w: World, e: Event)
    requires Inv(w) && Recovers(w, e)
    ensures var r := w.sweeps[e.sweep];
      && MovesToRetry(w, e, r.id)
      && ((exists k :: FreshRetry(w, e, r.id, k)) <==> r !in w.recovered)
      && (r.count == w.t.observations[r.id].attemptCount ==> r !in w.recovered)
  {
    var r := w.sweeps[e.sweep];
    var key := RecoveredKey(r.id, r.count + 1);
    if r !in w.recovered {
      assert FreshRetry(w, e, r.id, key);
    } else {
      assert key in w.t.outbox;
      assert NextTables(w, e).outbox == w.t.outbox;
    }
  }

  const POST := ObservationId(1, T24H)

  /** A worker has claimed the row and gone silent. */
  lemma AfterClaim24() returns (es: seq<Event>, w: World)
    ensures w == Run(EMPTY, es) && w.sweeps == map[] && w.attempts == map[1 := Attempt(POST, None)]
    ensures w.t.outbox.Keys == {ObservationKey(POST)}
    ensures w.t.observations == map[POST := NewObservation(1, T24H, 0).(
      status := Processing, leaseToken := Some(1), leaseUntil := Some(24 * HOUR_MS + LEASE_MS),
      lastAttemptAt := Some(24 * HOUR_MS), attemptCount := 1)]
  {
    var e1, e2 := ScheduleSlot(1, POST, 0), Claim(1, POST, 24 * HOUR_MS);
    var w1 := Next(EMPTY, e1);
    assert w1.t.observations == map[POST := NewObservation(1, T24H, 0)];
    RunAppend(EMPTY, [], e1);
    RunAppend(EMPTY, [e1], e2);
    assert [] + [e1] == [e1];
    es, w := [e1] + [e2], Next(w1, e2);
  }

  /** Two sweepers have read the expired row. */
  lemma AfterSelects() returns (es: seq<Event>, w: World)
    ensures w == Run(EMPTY, es) && w.attempts.Keys == {1} && w.t.outbox.Keys == {ObservationKey(POST)}
    ensures w.sweeps == map[1 := SweepRead(POST, 1), 2 := SweepRead(POST, 1)]
    ensures POST in w.t.observations
      && w.t.observations[POST].status == Processing
      && w.t.observations[POST].windowClosesAt == 30 * HOUR_MS
      && w.t.observations[POST].leaseUntil == Some(24 * HOUR_MS + LEASE_MS)
  {
    var es0, w0 := AfterClaim24();
    var e3, e4 := SweepSelect(1, POST, 25 * HOUR_MS), SweepSelect(2, POST, 25 * HOUR_MS);
    var w3 := Next(w0, e3);
    assert w3.t == w0.t && w3.sweeps == map[1 := SweepRead(POST, 1)];
    RunAppend(EMPTY, es0, e3);
    RunAppend(EMPTY, es0 + [e3], e4);
    es, w := es0 + [e3] + [e4], Next(w3, e4);
  }

  /** The first of them has recovered it. */
  lemma AfterFirstRecovery() returns (es: seq<Event>, w: World)
    ensures w == Run(EMPTY, es)
    ensures POST in w.t.observations
      && w.t.observations[POST].status == Failed
      && w.t.observations[POST].windowClosesAt == 30 * HOUR_MS
      && RecoveredKey(POST, 2) in w.t.outbox
      && 2 !in w.attempts
      && 2 in w.sweeps && w.sweeps[2] == SweepRead(POST, 1)
  {
    var es0, w0 := AfterSelects();
    var e5 := SweepRecover(1, 25 * HOUR_MS, 25 * HOUR_MS);
    RunAppend(EMPTY, es0, e5);
    es, w := es0 + [e5], Next(w0, e5);
  }

  /**
   Then a worker claims the row and dies again, and the second sweeper's recovery finds its key
   taken: the observation moves to FAILED and the outbox does not change.
   */
  lemma RecoveryCanBeSilent()
    ensures exists es: seq<Event>, e: Event :: SilentRecovery(Run(EMPTY, es), e)
  {
    var es, w := AfterFirstRecovery();
    var claim, e := Claim(2, POST, 26 * HOUR_MS), SweepRecover(2, 27 * HOUR_MS, 27 * HOUR_MS);
    RunAppend(EMPTY, es, claim);
    var w' := Next(w, claim);
    assert w'.t.observations[POST].status == Processing && w'.t.outbox == w.t.outbox && w'.sweeps == w.sweeps;
    assert Recovers(w', e);
    assert SilentRecovery(Run(EMPTY, es + [claim]), e);
  }

  ghost predicate SilentRecovery(w: World, e: Event) {
    Recovers(w, e) && MovesToRetry(w, e, w.sweeps[e.sweep].id) && NextTables(w, e).outbox == w.t.outbox
  }

  // ---- the window bounds the retries ----

  /** Per observation: the moves to FAILED or RATE_LIMITED so far, and when the last retry is due. */
  datatype Budget = Budget(moves: map<ObservationId, nat>, due: map<ObservationId, Time>)

  function Moves(b: Budget, id: ObservationId): nat {
    if id in b.moves then b.moves[id] else 0
  }

  function Due(w: World, b: Budget, id: ObservationId): Time
    requires id in w.t.observations
  {
    if id in b.due then b.due[id] else w.t.observations[id].scheduledFor
  }

  function RetryTarget(w: World, e: Event): Option<ObservationId> {
    if (e.ReportRateLimit? || e.ReportFailure?) && Loaded(w, e.token) then Some(w.attempts[e.token].id)
    else if Recovers(w, e) then Some(w.sweeps[e.sweep].id)
    else None
  }

  function RetryDue(w: World, e: Event): Time
    requires RetryTarget(w, e).Some?
  {
    match e
    case ReportRateLimit(token, header, readAt, dueFrom, now) =>
      RateLimitDue(SnapshotOf(w, token), header, readAt, dueFrom)
    case ReportFailure(token, jitterMs, failedAt, now) => FailureDue(SnapshotOf(w, token), jitterMs, failedAt)
    case SweepRecover(sweep, now, appNow) => appNow
    case _ => 0
  }

  function NextBudget(w: World, b: Budget, e: Event): Budget {
    var target := RetryTarget(w, e);
    if target.Some? && MovesToRetry(w, e, target.value) then
      Budget(b.moves[target.value := Moves(b, target.value) + 1], b.due[target.value := RetryDue(w, e)])
    else b
  }

  /**
   One clock and punctual delivery: a claim never comes before the retry is due, and a worker's
   later readings are not earlier than its claim.
   */
  predicate Punctual(w: World, b: Budget, e: Event) {
    match e
    case Claim(token, id, now) => CanClaim(w.t, id, now) ==> now >= Due(w, b, id)
    case Renew(token, now) => AfterClaim(w, token, now)
    case ReportRateLimit(token, header, readAt, dueFrom, now) =>
      AfterClaim(w, token, dueFrom) && AfterClaim(w, token, now)
    case ReportFailure(token, jitterMs, failedAt, now) =>
      AfterClaim(w, token, failedAt) && AfterClaim(w, token, now)
    case SweepRecover(sweep, now, appNow) => appNow >= now
    case _ => true
  }

  predicate AfterClaim(w: World, token: Token, at: Time) {
    token in w.attempts && Holds(w.t, w.attempts[token].id, token) ==>
      var last := w.t.observations[w.attempts[token].id].lastAttemptAt;
      last.Some? && at >= last.value
  }

  ghost predicate PunctualRun(w: World, b: Budget, es: seq<Event>)
    decreases |es|
  {
    es == [] || (Punctual(w, b, es[0]) && PunctualRun(Next(w, es[0]), NextBudget(w, b, es[0]), es[1..]))
  }

  function RunBudget(w: World, b: Budget, es: seq<Event>): Budget
    decreases |es|
  {
    if es == [] then b else RunBudget(Next(w, es[0]), NextBudget(w, b, es[0]), es[1..])
  }

  /** How far the observation has come: its last claim while leased, otherwise the time of its next one. */
  function PositionOf(o: Observation, due: Time): Time {
    if o.status == Processing && o.lastAttemptAt.Some? then o.lastAttemptAt.value else due
  }

  function Position(w: World, b: Budget, id: ObservationId): Time
    requires id in w.t.observations
  {
    PositionOf(w.t.observations[id], Due(w, b, id))
  }

  ghost predicate BudgetOk(w: World, b: Budget, id: ObservationId)
    requires id in w.t.observations
  {
    RowBudget(w.t.observations[id], Moves(b, id), Due(w, b, id))
  }

  predicate RowBudget(o: Observation, moves: nat, due: Time) {
    && o.scheduledFor + 1000 * moves <= o.windowClosesAt
    && (!Terminal(o.status) ==> o.scheduledFor + 1000 * moves <= PositionOf(o, due))
    && (o.status == Processing ==>
          o.lastAttemptAt.Some? && o.leaseUntil.Some? && o.attemptCount >= 1
          && o.lastAttemptAt.value + LEASE_MS <= o.leaseUntil.value)
  }

  ghost predicate BudgetInv(w: World, b: Budget) {
    && (forall id | id in w.t.observations :: BudgetOk(w, b, id))
    && (forall id | id in b.moves || id in b.due :: id in w.t.observations)
  }

  lemma RetryIsLater(w: World, b: Budget, e: Event, id: ObservationId)
    requires Inv(w) && BudgetInv(w, b) && Punctual(w, b, e) && MovesToRetry(w, e, id)
    ensures RetryTarget(w, e) == Some(id)
    ensures RetryDue(w, e) >= w.t.observations[id].lastAttemptAt.value + 1000
    ensures e.SweepRecover? ==>
      w.t.observations[id].lastAttemptAt.value + 1000 <= e.now <= w.t.observations[id].windowClosesAt
    ensures !e.SweepRecover? ==> RetryDue(w, e) < w.t.observations[id].windowClosesAt
  {
    assert BudgetOk(w, b, id);
    if e.SweepRecover? {
      RowSteps(w, e, id);
    } else {
      WorkerRetryIsFresh(w, e, id);
      if e.ReportFailure? {
        BackoffBounds(SnapshotOf(w, e.token).row.attemptCount, e.jitterMs);
      }
    }
  }

  /** Time stamps of the event, as far as they matter to a row that does not move to a retry. */
  predicate PunctualRow(w: World, e: Event, id: ObservationId, o: Observation, due: Time) {
    && (e.Claim? && e.id == id && e.token !in w.attempts && Claimable(o, e.now) ==> e.now >= due)
    && (e.Renew? && HeldByActor(w, e, id, o) ==> o.lastAttemptAt.Some? && e.now >= o.lastAttemptAt.value)
  }

  lemma RowKeepsBudget(w: World, e: Event, id: ObservationId, o: Observation, o': Observation, moves: nat, due: Time)
    requires RowStep(w, e, id, o, o') && PunctualRow(w, e, id, o, due) && RowBudget(o, moves, due)
    requires !(o.status == Processing && (o'.status.Failed? || o'.status.RateLimited?))
    ensures RowBudget(o', moves, due)
    ensures !Terminal(o'.status) ==> PositionOf(o', due) >= PositionOf(o, due)
  {
  }

  lemma RowPunctual(w: World, b: Budget, e: Event, id: ObservationId)
    requires id in w.t.observations && Punctual(w, b, e)
    ensures PunctualRow(w, e, id, w.t.observations[id], Due(w, b, id))
  {
  }

  lemma DueKept(w: World, b: Budget, e: Event, id: ObservationId)
    requires id in w.t.observations && !MovesToRetry(w, e, id)
    ensures id in Next(w, e).t.observations
    ensures Due(Next(w, e), NextBudget(w, b, e), id) == Due(w, b, id)
    ensures Moves(NextBudget(w, b, e), id) == Moves(b, id)
  {
    RowSteps(w, e, id);
  }

  lemma DueSet(w: World, b: Budget, e: Event, id: ObservationId)
    requires MovesToRetry(w, e, id) && RetryTarget(w, e) == Some(id)
    ensures Due(Next(w, e), NextBudget(w, b, e), id) == RetryDue(w, e)
    ensures Moves(NextBudget(w, b, e), id) == Moves(b, id) + 1
    ensures SameIdentity(w.t.observations[id], Next(w, e).t.observations[id])
  {
    RowSteps(w, e, id);
  }

  lemma OtherStepsUseNone(w: World, b: Budget, e: Event, id: ObservationId)
    requires Inv(w) && BudgetInv(w, b) && Punctual(w, b, e) && id in w.t.observations && !MovesToRetry(w, e, id)
    ensures id in Next(w, e).t.observations && BudgetOk(Next(w, e), NextBudget(w, b, e), id)
    ensures !Terminal(Next(w, e).t.observations[id].status) ==>
      Position(Next(w, e), NextBudget(w, b, e), id) >= Position(w, b, id)
  {
    assert BudgetOk(w, b, id);
    DueKept(w, b, e, id);
    RowPunctual(w, b, e, id);
    RowSteps(w, e, id);
    RowKeepsBudget(w, e, id, w.t.observations[id], Next(w, e).t.observations[id], Moves(b, id), Due(w, b, id));
  }

  /**
   The remaining window is a termination measure: no step grows it, and every retry takes at
   least a second off it.
   */
  lemma StepUsesWindow(w: World, b: Budget, e: Event, id: ObservationId)
    requires Inv(w) && BudgetInv(w, b) && Punctual(w, b, e) && id in w.t.observations
    ensures id in Next(w, e).t.observations && BudgetOk(Next(w, e), NextBudget(w, b, e), id)
    ensures !Terminal(Next(w, e).t.observations[id].status) ==>
      Position(Next(w, e), NextBudget(w, b, e), id)
      >= Position(w, b, id) + if MovesToRetry(w, e, id) then 1000 else 0
  {
    if MovesToRetry(w, e, id) {
      assert BudgetOk(w, b, id);
      RetryIsLater(w, b, e, id);
      DueSet(w, b, e, id);
    } else {
      OtherStepsUseNone(w, b, e, id);
    }
  }

  lemma NewRowBudget(w: World, b: Budget, e: Event, id: ObservationId)
    requires BudgetInv(w, b) && id !in w.t.observations && id in Next(w, e).t.observations
    ensures BudgetOk(Next(w, e), NextBudget(w, b, e), id)
  {
    NewRows(w, e, id);
    assert NextBudget(w, b, e) == b;
  }

  lemma StepKeepsBudget(w: World, b: Budget, e: Event)
    requires Inv(w) && BudgetInv(w, b) && Punctual(w, b, e)
    ensures BudgetInv(Next(w, e), NextBudget(w, b, e))
  {
    forall id | id in Next(w, e).t.observations
      ensures BudgetOk(Next(w, e), NextBudget(w, b, e), id)
    {
      if id in w.t.observations { StepUsesWindow(w, b, e, id); } else { NewRowBudget(w, b, e, id); }
    }
    forall id | id in NextBudget(w, b, e).moves || id in NextBudget(w, b, e).due
      ensures id in Next(w, e).t.observations
    {
      if id in w.t.observations { StepUsesWindow(w, b, e, id); }
    }
  }

  lemma {:induction false} RunKeepsBudget(w: World, b: Budget, es: seq<Event>)
    requires Inv(w) && BudgetInv(w, b) && PunctualRun(w, b, es)
    ensures Inv(Run(w, es)) && BudgetInv(Run(w, es), RunBudget(w, b, es))
    decreases |es|
  {
    if es != [] {
      StepKeepsInv(w, es[0]);
      StepKeepsBudget(w, b, es[0]);
      RunKeepsBudget(Next(w, es[0]), NextBudget(w, b, es[0]), es[1..]);
    }
  }

  /** In every punctual run an observation has at most one retry per second of its window. */
  lemma RetriesFitTheWindow(es: seq<Event>, id: ObservationId)
    requires PunctualRun(EMPTY, Budget(map[], map[]), es) && id in Run(EMPTY, es).t.observations
    ensures var o := Run(EMPTY, es).t.observations[id];
      Moves(RunBudget(EMPTY, Budget(map[], map[]), es), id) * 1000 <= o.windowClosesAt - o.scheduledFor
  {
    RunKeepsBudget(EMPTY, Budget(map[], map[]), es);
    assert BudgetOk(Run(EMPTY, es), RunBudget(EMPTY, Budget(map[], map[]), es), id);
  }

  // ---- when observations are due, and how the sweeper ends or revives them ----

  /** A new observation that opens and closes these hours after the publication. */
  predicate OpensAt(o: Observation, account: Account, publishedAt: Time, opens: nat, closes: nat) {
    o == Observation(account, publishedAt + opens * 3_600_000, publishedAt + closes * 3_600_000, 3, Scheduled, 0, None, None, None, None)
  }

  /** The row, and the outbox row that will start it at its time, are new unless they are there already. */
  predicate ScheduledAs(t: Tables, t': Tables, id: ObservationId, account: Account, publishedAt: Time, opens: nat, closes: nat) {
    && t'.observations.Keys == t.observations.Keys + {id}
    && (forall i | i in t.observations :: t'.observations[i] == t.observations[i])
    && (id !in t.observations ==> OpensAt(t'.observations[id], account, publishedAt, opens, closes))
    && t'.outbox.Keys == t.outbox.Keys + {ObservationKey(id)}
    && (forall k | k in t.outbox :: t'.outbox[k] == t.outbox[k])
    && (ObservationKey(id) !in t.outbox ==>
          t'.outbox[ObservationKey(id)] == OutboxEvent(TriggerObservation(id), publishedAt + opens * 3_600_000))
    && t'.metrics == t.metrics
    && t'.sync.Keys == t.sync.Keys + {account} && (forall a | a in t.sync :: t'.sync[a] == t.sync[a])
    && (account !in t.sync ==> t'.sync[account] == SyncRow(0, 0, None))
  }

  /** A post is observed in five windows that follow each other, each with an outbox row due at its opening. */
  lemma FiveWindows(w: World, account: Account, id: ObservationId, publishedAt: Time)
    ensures var t, t' := w.t, Next(w, ScheduleSlot(account, id, publishedAt)).t;
      match id.slot
      case T1H => ScheduledAs(t, t', id, account, publishedAt, 1, 2)
      case T6H => ScheduledAs(t, t', id, account, publishedAt, 6, 8)
      case T24H => ScheduledAs(t, t', id, account, publishedAt, 24, 30)
      case T7D => ScheduledAs(t, t', id, account, publishedAt, 168, 192)
      case T30D => ScheduledAs(t, t', id, account, publishedAt, 720, 768)
  {
  }

  /** Nobody is at work on it: it waits for its first or next attempt, or its lease has run out. */
  predicate Unattended(o: Observation, now: Time) {
    o.status in {Scheduled, Failed, RateLimited} || (o.status == Processing && o.leaseUntil.Some? && o.leaseUntil.value < now)
  }

  /** The sweep ends as MISSED exactly the unattended observations whose windows have closed. */
  lemma SweepMissesIff(w: World, now: Time, id: ObservationId)
    requires id in w.t.observations
    ensures var o, t' := w.t.observations[id], Next(w, SweepClosed(now)).t;
      && t'.observations.Keys == w.t.observations.Keys
      && t'.observations[id] == (if Unattended(o, now) && o.windowClosesAt < now
                                 then o.(status := Missed, leaseToken := None, leaseUntil := None) else o)
      && t'.metrics == w.t.metrics && t'.sync == w.t.sync && t'.outbox == w.t.outbox
  {
  }

  /** Its worker has let the lease run out while the window is open. */
  predicate Abandoned(o: Observation, now: Time) {
    o.status == Processing && o.leaseUntil.Some? && o.leaseUntil.value < now <= o.windowClosesAt
  }

  /**
   A recovery revives the observation exactly if it is abandoned at that moment: it fails the attempt,
   counts one more, and has a retry due at once, under the count that its sweep had read.
   */
  lemma RecoveryRevivesIff(w: World, sweep: nat, now: Time, appNow: Time)
    requires sweep in w.sweeps && w.sweeps[sweep].id in w.t.observations
    ensures var r, t, t' := w.sweeps[sweep], w.t, Next(w, SweepRecover(sweep, now, appNow)).t;
      var o, key := t.observations[r.id], RecoveredKey(r.id, r.count + 1);
      if !Abandoned(o, now) then t' == t
      else
        && t'.observations == t.observations[r.id := o.(status := Failed, attemptCount := o.attemptCount + 1,
                                                         leaseToken := None, leaseUntil := None)]
        && t'.metrics == t.metrics && t'.sync == t.sync
        && t'.outbox == if key in t.outbox then t.outbox else t.outbox[key := OutboxEvent(RetryObservation(r.id), appNow)]
  {
  }

  /**
   A sweep after the window has closed ends every observation that no live lease protects, for
   good; and no recovery or claim-free retry is due after the window.
   */
  lemma SweepEndsObservation(w: World, now: Time, es: seq<Event>, id: ObservationId)
    requires Inv(w) && id in w.t.observations && w.t.observations[id].windowClosesAt < now
    requires w.t.observations[id].status == Processing ==> LeaseExpired(w.t.observations[id], now)
    ensures var w' := Run(Next(w, SweepClosed(now)), es);
      id in w'.t.observations && Terminal(w'.t.observations[id].status)
  {
    StepKeepsInv(w, SweepClosed(now));
    SweepEnds(w, now, id);
    TerminalForever(Next(w, SweepClosed(now)), es, id);
  }

  lemma SweepEnds(w: World, now: Time, id: ObservationId)
    requires id in w.t.observations && w.t.observations[id].windowClosesAt < now
    requires w.t.observations[id].status == Processing ==> LeaseExpired(w.t.observations[id], now)
    ensures id in Next(w, SweepClosed(now)).t.observations
    ensures Terminal(Next(w, SweepClosed(now)).t.observations[id].status)
  {
  }

  /** A worker that claims after the closing time and checks the clock can only end the observation. */
  lemma LateAttemptEnds(w: World, token: Token, appNow: Time)
    requires Inv(w) && Loaded(w, token) && Holds(w.t, w.attempts[token].id, token)
    requires w.t.observations[w.attempts[token].id].windowClosesAt <= appNow
    ensures NextTables(w, CloseEarly(token, appNow)).observations[w.attempts[token].id].status == Missed
    ensures forall now :: now >= appNow ==>
      NextTables(w, Capture(token, now, appNow)).observations[w.attempts[token].id].status == Missed
      && NextTables(w, Capture(token, now, appNow)).metrics == w.t.metrics
  {
    assert AttemptOk(w.t, w.attempts[token], token);
    LateClose(w, token, appNow);
    forall now | now >= appNow
      ensures NextTables(w, Capture(token, now, appNow)).observations[w.attempts[token].id].status == Missed
      ensures NextTables(w, Capture(token, now, appNow)).metrics == w.t.metrics
    {
      LateCapture(w, token, now, appNow);
    }
  }

  lemma LateClose(w: World, token: Token, appNow: Time)
    requires Loaded(w, token) && Holds(w.t, w.attempts[token].id, token) && SnapshotOf(w, token).row.windowClosesAt <= appNow
    ensures NextTables(w, CloseEarly(token, appNow)).observations[w.attempts[token].id].status == Missed
  {
  }

  lemma LateCapture(w: World, token: Token, now: Time, appNow: Time)
    requires Loaded(w, token) && Holds(w.t, w.attempts[token].id, token) && now >= appNow
    requires w.t.observations[w.attempts[token].id].windowClosesAt <= appNow
    ensures NextTables(w, Capture(token, now, appNow)).observations[w.attempts[token].id].status == Missed
    ensures NextTables(w, Capture(token, now, appNow)).metrics == w.t.metrics
  {
  }
}
