/**
 The analytics tables and the effect of each transaction of the observation worker and of the
 expired-observation sweeper. One function per SQL transaction; `AnalyticsStore` carries them out
 on mutable tables.

 `NOW()` and the application's `new Date()` are separate parameters everywhere: nothing here
 assumes that the two clocks agree or that either moves forward.
 */
module AnalyticsTables {
  import opened Common

  type Account = nat
  type Post = nat
  type Token = nat
  type Time = int  // milliseconds

  datatype Slot = T1H | T6H | T24H | T7D | T30D

  const HOUR_MS := 3600 * 1000
  const LEASE_MS := 60 * 1000
  const DEFAULT_MAX_ATTEMPTS := 3

  function DelayMs(slot: Slot): Time {
    match slot
    case T1H => HOUR_MS
    case T6H => 6 * HOUR_MS
    case T24H => 24 * HOUR_MS
    case T7D => 7 * 24 * HOUR_MS
    case T30D => 30 * 24 * HOUR_MS
  }

  function WindowMs(slot: Slot): Time {
    match slot
    case T1H => HOUR_MS
    case T6H => 2 * HOUR_MS
    case T24H => 6 * HOUR_MS
    case T7D => 24 * HOUR_MS
    case T30D => 48 * HOUR_MS
  }

  datatype Status =
    | Scheduled | Processing | Captured | Failed | RateLimited | Missed | Deleted | Unavailable

  predicate Terminal(s: Status) {
    s.Captured? || s.Missed? || s.Deleted? || s.Unavailable?
  }

  /** The transition table of the observation state machine. */
  predicate ValidTransition(from: Status, to: Status) {
    match from
    case Scheduled => to.Processing? || to.Missed?
    case Processing => to.Captured? || to.Failed? || to.RateLimited? || to.Missed? || to.Deleted? || to.Unavailable?
    case Failed => to.Processing? || to.Missed?
    case RateLimited => to.Processing? || to.Missed?
    case _ => false
  }

  /** An observation is identified by its post and slot, which the table keeps unique together. */
  datatype ObservationId = ObservationId(post: Post, slot: Slot)

  datatype Observation = Observation(
    account: Account,
    scheduledFor: Time,
    windowClosesAt: Time,
    maxAttempts: nat,
    status: Status,
    attemptCount: nat,
    lastAttemptAt: Option<Time>,
    leaseToken: Option<Token>,
    leaseUntil: Option<Time>,
    capturedAt: Option<Time>)

  /**
   A captured metric. `generation` is not a column: it records the value that the transaction
   inserting the row gave to the account's ingestion_generation.
   */
  datatype Metric = Metric(observation: ObservationId, account: Account, capturedAt: Time, generation: nat)

  datatype SyncRow = SyncRow(generation: nat, revision: nat, lastAggregationAt: Option<Time>)

  /** The structure of the outbox dedupe keys; the key column is unique. */
  datatype DedupeKey =
    | ObservationKey(id: ObservationId)
    | RateLimitKey(id: ObservationId, attempt: nat)
    | FailureKey(id: ObservationId, attempt: nat)
    | RecoveredKey(id: ObservationId, attempt: nat)
    | AggregateKey(account: Account, generation: nat, slot: Slot)
    | InsightsKey(account: Account, revision: nat, slot: Slot)
    | LearningKey(account: Account, revision: nat)
    | RecommendationsKey(account: Account, revision: nat)

  datatype Payload =
    | TriggerObservation(id: ObservationId)
    | RetryObservation(id: ObservationId)
    | TriggerAggregation(account: Account, slot: Slot, generation: nat)
    | TriggerInsights(account: Account, sourceRevision: nat, slot: Slot, asOf: Time)
    | TriggerLearning(account: Account, sourceRevision: nat, asOf: Time)
    | TriggerRecommendations(account: Account, sourceRevision: nat, asOf: Time)

  datatype OutboxEvent = OutboxEvent(payload: Payload, executeAt: Time)

  datatype Tables = Tables(
    observations: map<ObservationId, Observation>,
    metrics: seq<Metric>,
    sync: map<Account, SyncRow>,
    outbox: map<DedupeKey, OutboxEvent>)

  /** The worker's own copy of the row, read by the query after the claim. */
  datatype Snapshot = Snapshot(id: ObservationId, row: Observation)

  function Generation(t: Tables, a: Account): nat {
    if a in t.sync then t.sync[a].generation else 0
  }

  function Revision(t: Tables, a: Account): nat {
    if a in t.sync then t.sync[a].revision else 0
  }

  /** An upsert whose update part is empty: an existing row wins. */
  function UpsertEvent(outbox: map<DedupeKey, OutboxEvent>, k: DedupeKey, e: OutboxEvent)
    : map<DedupeKey, OutboxEvent>
  {
    if k in outbox then outbox else outbox[k := e]
  }

  // ---- scheduling ----

  function NewObservation(account: Account, slot: Slot, publishedAt: Time): Observation {
    var scheduledFor := publishedAt + DelayMs(slot);
    Observation(account, scheduledFor, scheduledFor + WindowMs(slot), DEFAULT_MAX_ATTEMPTS,
                Scheduled, 0, None, None, None, None)
  }

  function ScheduleTx(t: Tables, account: Account, id: ObservationId, publishedAt: Time): Tables {
    var row := NewObservation(account, id.slot, publishedAt);
    Tables(
      if id in t.observations then t.observations else t.observations[id := row],
      t.metrics,
      if account in t.sync then t.sync else t.sync[account := SyncRow(0, 0, None)],
      UpsertEvent(t.outbox, ObservationKey(id), OutboxEvent(TriggerObservation(id), row.scheduledFor)))
  }

  // ---- the lease ----

  predicate LeaseExpired(o: Observation, now: Time) {
    o.leaseUntil.Some? && o.leaseUntil.value < now
  }

  predicate Claimable(o: Observation, now: Time) {
    o.status.Scheduled? || o.status.Failed? || o.status.RateLimited? || (o.status == Processing && LeaseExpired(o, now))
  }

  predicate CanClaim(t: Tables, id: ObservationId, now: Time) {
    id in t.observations && Claimable(t.observations[id], now)
  }

  function ClaimTx(t: Tables, id: ObservationId, token: Token, now: Time): Tables {
    if CanClaim(t, id, now) then
      var o := t.observations[id];
      t.(observations := t.observations[id := o.(
           status := Processing, leaseToken := Some(token), leaseUntil := Some(now + LEASE_MS),
           lastAttemptAt := Some(now), attemptCount := o.attemptCount + 1)])
    else t
  }

  /** The guard of every later statement of a worker: the row is still its own. */
  predicate Holds(t: Tables, id: ObservationId, token: Token) {
    id in t.observations
    && t.observations[id].status == Processing
    && t.observations[id].leaseToken == Some(token)
  }

  function RenewTx(t: Tables, id: ObservationId, token: Token, now: Time): Tables {
    if Holds(t, id, token) then
      t.(observations := t.observations[id := t.observations[id].(leaseUntil := Some(now + LEASE_MS))])
    else t
  }

  /** Leave PROCESSING for `to`, giving up the lease, if the token still holds the row. */
  function ReleaseTx(t: Tables, id: ObservationId, token: Token, to: Status, attemptedAt: Option<Time>): Tables {
    if Holds(t, id, token) then
      var o := t.observations[id];
      t.(observations := t.observations[id := o.(
           status := to, leaseToken := None, leaseUntil := None,
           lastAttemptAt := if attemptedAt.Some? then attemptedAt else o.lastAttemptAt)])
    else t
  }

  // ---- the capture ----

  predicate CanCapture(t: Tables, id: ObservationId, token: Token, now: Time) {
    Holds(t, id, token) && t.observations[id].windowClosesAt > now
  }

  function BumpGeneration(sync: map<Account, SyncRow>, a: Account): map<Account, SyncRow> {
    sync[a := if a in sync then sync[a].(generation := sync[a].generation + 1) else SyncRow(1, 0, None)]
  }

  function CaptureTx(t: Tables, token: Token, s: Snapshot, now: Time, appNow: Time): Tables {
    if CanCapture(t, s.id, token, now) then
      var o := t.observations[s.id];
      var a := s.row.account;
      var g := Generation(t, a) + 1;
      Tables(
        t.observations[s.id := o.(
          status := Captured, leaseToken := None, leaseUntil := None,
          lastAttemptAt := Some(now), capturedAt := Some(now))],
        t.metrics + [Metric(s.id, a, appNow, g)],
        BumpGeneration(t.sync, a),
        UpsertEvent(t.outbox, AggregateKey(a, g, s.id.slot),
                    OutboxEvent(TriggerAggregation(a, s.id.slot, g), appNow)))
    else if s.id in t.observations
         && t.observations[s.id].leaseToken == Some(token)
         && t.observations[s.id].windowClosesAt <= appNow then
      ReleaseTx(t, s.id, token, Missed, None)
    else t  // the stale-worker error rolls the transaction back
  }

  // ---- failed attempts ----

  /** A missing or unparsable retry-after header counts as sixty seconds. */
  function RetryAfterSecs(header: Option<int>, windowClosesAt: Time, readAt: Time): int {
    var parsed := if header.Some? then header.value else 60;
    Min(Min(Max(0, parsed), 3600), Max(0, (windowClosesAt - readAt) / 1000))
  }

  function RateLimitDue(s: Snapshot, header: Option<int>, readAt: Time, dueFrom: Time): Time {
    dueFrom + RetryAfterSecs(header, s.row.windowClosesAt, readAt) * 1000
  }

  predicate RateLimitRetries(s: Snapshot, header: Option<int>, readAt: Time, dueFrom: Time) {
    RetryAfterSecs(header, s.row.windowClosesAt, readAt) > 0
    && RateLimitDue(s, header, readAt, dueFrom) < s.row.windowClosesAt
  }

  function RetryTx(t: Tables, token: Token, id: ObservationId, to: Status, key: DedupeKey, due: Time, now: Time): Tables {
    var released := ReleaseTx(t, id, token, to, Some(now));
    if Holds(t, id, token) then
      released.(outbox := UpsertEvent(t.outbox, key, OutboxEvent(RetryObservation(id), due)))
    else released
  }

  function RateLimitTx(t: Tables, token: Token, s: Snapshot, header: Option<int>, readAt: Time, dueFrom: Time, now: Time)
    : Tables
  {
    if RateLimitRetries(s, header, readAt, dueFrom) then
      RetryTx(t, token, s.id, RateLimited, RateLimitKey(s.id, s.row.attemptCount),
              RateLimitDue(s, header, readAt, dueFrom), now)
    else ReleaseTx(t, s.id, token, Missed, Some(now))
  }

  const JITTER_MS := 2000

  /** Exponential backoff capped at five minutes plus less than two seconds of jitter. */
  function BackoffMs(attempt: nat, jitterMs: nat): Time {
    Min(300, 15 * Pow2(Max(0, attempt - 1))) * 1000 + jitterMs
  }

  function FailureDue(s: Snapshot, jitterMs: nat, failedAt: Time): Time {
    failedAt + BackoffMs(s.row.attemptCount, jitterMs)
  }

  predicate FailureRetries(s: Snapshot, jitterMs: nat, failedAt: Time) {
    FailureDue(s, jitterMs, failedAt) < s.row.windowClosesAt && s.row.attemptCount < s.row.maxAttempts
  }

  function FailureTx(t: Tables, token: Token, s: Snapshot, jitterMs: nat, failedAt: Time, now: Time): Tables {
    if FailureRetries(s, jitterMs, failedAt) then
      RetryTx(t, token, s.id, Failed, FailureKey(s.id, s.row.attemptCount), FailureDue(s, jitterMs, failedAt), now)
    else ReleaseTx(t, s.id, token, Missed, Some(now))
  }

  // ---- the sweeper ----

  predicate SweptAsMissed(o: Observation, now: Time) {
    Claimable(o, now) && o.windowClosesAt < now
  }

  /** One UPDATE over the whole table. */
  function SweepClosedTx(t: Tables, now: Time): Tables {
    t.(observations := map id | id in t.observations ::
         var o := t.observations[id];
         if SweptAsMissed(o, now) then o.(status := Missed, leaseToken := None, leaseUntil := None) else o)
  }

  predicate SweepSelects(o: Observation, appNow: Time) {
    o.status == Processing && LeaseExpired(o, appNow) && o.windowClosesAt >= appNow
  }

  predicate CanRecover(t: Tables, id: ObservationId, now: Time) {
    id in t.observations && SweepSelects(t.observations[id], now)
  }

  /** `readCount` is the attempt count of the sweeper's earlier SELECT. */
  function RecoverTx(t: Tables, id: ObservationId, readCount: nat, now: Time, appNow: Time): Tables {
    if CanRecover(t, id, now) then
      var o := t.observations[id];
      t.(observations := t.observations[id := o.(
           status := Failed, attemptCount := o.attemptCount + 1, leaseToken := None, leaseUntil := None)],
         outbox := UpsertEvent(t.outbox, RecoveredKey(id, readCount + 1), OutboxEvent(RetryObservation(id), appNow)))
    else t
  }
}
