/**
 The observation transactions carried out on mutable tables, statement by statement, and the
 sequence of them that one attempt and one sweep perform. Each method is proved to have the effect
 that the protocol assigns to it.
 */
module AnalyticsStore {
  import opened Common
  import opened AnalyticsTables
  import opened ObservationProtocol

  datatype CaptureOutcome = CaptureCommitted | ClosedMeanwhile | StaleWorker

  /**
   What the request led to: metrics, or an exception with its HTTP code, if it has one, whether its text
   speaks of a missing permission, the retry-after header, and the jitter drawn for it.
   */
  datatype FetchResult =
    | Metrics
    | Thrown(code: Option<int>, permissionText: bool, header: Option<int>, jitterMs: nat)

  /** The clock readings of one attempt, in the order they are taken. */
  datatype Readings = Readings(claimed: Time, checked: Time, first: Time, second: Time, commit: Time)

  function Selections(n: nat, order: seq<ObservationId>, selectAt: Time): (es: seq<Event>)
    requires n <= |order|
    ensures |es| == n && forall i | 0 <= i < n :: es[i] == SweepSelect(i, order[i], selectAt)
  {
    if n == 0 then [] else Selections(n - 1, order, selectAt) + [SweepSelect(n - 1, order[n - 1], selectAt)]
  }

  function Recoveries(n: nat, clock: nat -> (Time, Time)): (es: seq<Event>)
    ensures |es| == n && forall i | 0 <= i < n :: es[i] == SweepRecover(i, clock(i).0, clock(i).1)
  {
    if n == 0 then [] else Recoveries(n - 1, clock) + [SweepRecover(n - 1, clock(n - 1).0, clock(n - 1).1)]
  }

  /** The steps of one sweep: the closing update, the rows its query returned, a transaction for each. */
  function SweepEvents(closeAt: Time, selectAt: Time, order: seq<ObservationId>, clock: nat -> (Time, Time)): seq<Event> {
    [SweepClosed(closeAt)] + Selections(|order|, order, selectAt) + Recoveries(|order|, clock)
  }

  /** What a sweep leaves of a row, given the clock at its transaction if it was selected. */
  function Recovered(o: Observation, now: Time): Observation {
    if SweepSelects(o, now)
    then o.(status := Failed, attemptCount := o.attemptCount + 1, leaseToken := None, leaseUntil := None) else o
  }

  // ---- what an attempt comes to, column by column ----

  /** A scheduled or retried observation can be begun, and one in processing whose lease has run out. */
  predicate CanBegin(o: Observation, now: Time) {
    o.status in {Scheduled, Failed, RateLimited} || (o.status == Processing && o.leaseUntil.Some? && o.leaseUntil.value < now)
  }

  /** The tables with the observation taken for one more attempt, for a minute. */
  function Begun(t: Tables, id: ObservationId, token: Token, now: Time): Tables
    requires id in t.observations
  {
    var o := t.observations[id];
    var row := Observation(o.account, o.scheduledFor, o.windowClosesAt, o.maxAttempts, Processing, o.attemptCount + 1,
                           Some(now), Some(token), Some(now + 60_000), o.capturedAt);
    Tables(t.observations[id := row], t.metrics, t.sync, t.outbox)
  }

  /** The observation ends its attempt in this status without a lease; its other rows and columns stay. */
  predicate EndsAs(t: Tables, t': Tables, id: ObservationId, status: Status) {
    && id in t.observations && id in t'.observations
    && t'.observations == t.observations[id := t'.observations[id]]
    && var o, o' := t.observations[id], t'.observations[id];
       && o'.status == status && o'.leaseToken.None? && o'.leaseUntil.None?
       && o'.account == o.account && o'.scheduledFor == o.scheduledFor && o'.windowClosesAt == o.windowClosesAt
       && o'.maxAttempts == o.maxAttempts && o'.attemptCount == o.attemptCount
       && o'.capturedAt == (if status == Captured then o'.capturedAt else o.capturedAt)
  }

  predicate NothingElse(t: Tables, t': Tables) {
    t'.metrics == t.metrics && t'.sync == t.sync && t'.outbox == t.outbox
  }

  /** A capture: one more metric of the observation, the account's generation one higher, and its trigger. */
  predicate Captures(t: Tables, t': Tables, id: ObservationId, capturedAt: Time, readAt: Time)
    requires id in t.observations
  {
    var a := t.observations[id].account;
    var g := (if a in t.sync then t.sync[a].generation else 0) + 1;
    var key := AggregateKey(a, g, id.slot);
    && EndsAs(t, t', id, Captured) && t'.observations[id].capturedAt == Some(capturedAt)
    && t'.metrics == t.metrics + [Metric(id, a, readAt, g)]
    && a in t'.sync && t'.sync[a].generation == g && t'.sync.Keys == t.sync.Keys + {a}
    && (forall b | b in t.sync && b != a :: t'.sync[b] == t.sync[b])
    && (a in t.sync ==> t'.sync[a].revision == t.sync[a].revision)
    && key in t'.outbox && t'.outbox.Keys == t.outbox.Keys + {key}
    && (key !in t.outbox ==> t'.outbox[key] == OutboxEvent(TriggerAggregation(a, id.slot, g), readAt))
    && (forall k | k in t.outbox :: t'.outbox[k] == t.outbox[k])
  }

  /** A retry: the status, and a retry row that is due at this time unless there is one under its key. */
  predicate RetriesAs(t: Tables, t': Tables, id: ObservationId, status: Status, key: DedupeKey, due: Time) {
    && EndsAs(t, t', id, status) && t'.metrics == t.metrics && t'.sync == t.sync
    && key in t'.outbox && t'.outbox.Keys == t.outbox.Keys + {key}
    && (key !in t.outbox ==> t'.outbox[key] == OutboxEvent(RetryObservation(id), due))
    && (forall k | k in t.outbox :: t'.outbox[k] == t.outbox[k])
  }

  /** Seconds to wait after a 429, in whole seconds of the window left at the first clock reading, an hour at most. */
  function Wait429(header: Option<int>, left: Time): int {
    var asked := if header.Some? then header.value else 60;
    if asked < 0 || left < 0 then 0 else Min(asked, Min(3600, left / 1000))
  }

  /** How one attempt ends, by the answer and the clock readings; `t` are the tables once it has begun. */
  predicate Decided(t: Tables, t': Tables, id: ObservationId, token: Token, result: FetchResult, at: Readings) {
    id in t.observations
    && var o := t.observations[id];
       var closes, n := o.windowClosesAt, o.attemptCount;
       if closes <= at.checked then EndsAs(t, t', id, Missed) && NothingElse(t, t')
       else if result.Metrics? then
         if at.commit < closes then Captures(t, t', id, at.commit, at.second)
         else if closes <= at.second then EndsAs(t, t', id, Missed) && NothingElse(t, t')
         else t' == t
       else
         match result.code
         case Some(404) => EndsAs(t, t', id, Deleted) && NothingElse(t, t')
         case Some(401) => EndsAs(t, t', id, Unavailable) && NothingElse(t, t')
         case Some(403) => EndsAs(t, t', id, Unavailable) && NothingElse(t, t')
         case Some(429) =>
           var wait := Wait429(result.header, closes - at.first);
           if wait > 0 && at.second + wait * 1000 < closes
           then RetriesAs(t, t', id, RateLimited, RateLimitKey(id, n), at.second + wait * 1000)
           else EndsAs(t, t', id, Missed) && NothingElse(t, t')
         case _ =>
           if result.code == Some(500) && result.permissionText then EndsAs(t, t', id, Unavailable) && NothingElse(t, t')
           else
             var due := at.first + Backoff(n) + result.jitterMs;
             if n < o.maxAttempts && due < closes
             then RetriesAs(t, t', id, Failed, FailureKey(id, n), due)
             else EndsAs(t, t', id, Missed) && NothingElse(t, t')
  }

  /** 15 s, doubled with each further attempt, five minutes at most. */
  function Backoff(n: nat): Time {
    if n <= 1 then 15_000 else Min(2 * Backoff(n - 1), 300_000)
  }

  lemma {:induction false} BackoffIs(n: nat)
    ensures Backoff(n) == BackoffMs(n, 0)
  {
    if n > 1 { BackoffIs(n - 1); }
  }

  /** The protocol's step for the end of an attempt. */
  function LastEvent(token: Token, s: Snapshot, result: FetchResult, at: Readings): Event {
    if s.row.windowClosesAt <= at.checked then CloseEarly(token, at.checked)
    else if result.Metrics? then Capture(token, at.commit, at.second)
    else if result.code == Some(404) then ReportDeleted(token, at.commit)
    else if result.code == Some(401) || result.code == Some(403) || (result.code == Some(500) && result.permissionText)
    then ReportUnavailable(token, at.commit)
    else if result.code == Some(429) then ReportRateLimit(token, result.header, at.first, at.second, at.commit)
    else ReportFailure(token, result.jitterMs, at.first, at.commit)
  }

  /** What that step does to the tables. */
  function LastTx(t: Tables, token: Token, s: Snapshot, result: FetchResult, at: Readings): Tables {
    if s.row.windowClosesAt <= at.checked then ReleaseTx(t, s.id, token, Missed, None)
    else if result.Metrics? then CaptureTx(t, token, s, at.commit, at.second)
    else if result.code == Some(404) then ReleaseTx(t, s.id, token, Deleted, Some(at.commit))
    else if result.code == Some(401) || result.code == Some(403) || (result.code == Some(500) && result.permissionText)
    then ReleaseTx(t, s.id, token, Unavailable, Some(at.commit))
    else if result.code == Some(429) then RateLimitTx(t, token, s, result.header, at.first, at.second, at.commit)
    else FailureTx(t, token, s, result.jitterMs, at.first, at.commit)
  }

  lemma LastTables(w: World, token: Token, s: Snapshot, result: FetchResult, at: Readings)
    requires Loaded(w, token) && SnapshotOf(w, token) == s
    requires result.Thrown? ==> result.jitterMs < JITTER_MS
    ensures NextTables(w, LastEvent(token, s, result, at)) == LastTx(w.t, token, s, result, at)
  {
  }

  lemma ReleaseEnds(t: Tables, token: Token, id: ObservationId)
    requires Holds(t, id, token)
    ensures forall to, when | to in {Missed, Deleted, Unavailable} ::
      EndsAs(t, ReleaseTx(t, id, token, to, when), id, to) && NothingElse(t, ReleaseTx(t, id, token, to, when))
  {
  }

  lemma LastDecides(t: Tables, w: World, token: Token, s: Snapshot, result: FetchResult, at: Readings)
    requires w.t == t && Loaded(w, token) && SnapshotOf(w, token) == s && Holds(t, s.id, token) && t.observations[s.id] == s.row
    requires result.Thrown? ==> result.jitterMs < JITTER_MS
    ensures Decided(t, NextTables(w, LastEvent(token, s, result, at)), s.id, token, result, at)
  {
    LastTables(w, token, s, result, at);
    ReleaseEnds(t, token, s.id);
    if s.row.windowClosesAt <= at.checked {
    } else if result.Metrics? {
      CaptureDecides(t, token, s, at);
    } else if result.code == Some(429) {
      RateLimitDecides(t, token, s, result.header, at);
    } else if result.code !in {Some(401), Some(403), Some(404)} && !(result.code == Some(500) && result.permissionText) {
      FailureDecides(t, token, s, result.jitterMs, at);
    }
  }

  lemma CaptureDecides(t: Tables, token: Token, s: Snapshot, at: Readings)
    requires Holds(t, s.id, token) && t.observations[s.id] == s.row && s.row.windowClosesAt > at.checked
    ensures Decided(t, CaptureTx(t, token, s, at.commit, at.second), s.id, token, Metrics, at)
  {
  }

  lemma RateLimitDecides(t: Tables, token: Token, s: Snapshot, header: Option<int>, at: Readings)
    requires Holds(t, s.id, token) && t.observations[s.id] == s.row
    ensures var t' := RateLimitTx(t, token, s, header, at.first, at.second, at.commit);
      var wait, closes := Wait429(header, s.row.windowClosesAt - at.first), s.row.windowClosesAt;
      if wait > 0 && at.second + wait * 1000 < closes
      then RetriesAs(t, t', s.id, RateLimited, RateLimitKey(s.id, s.row.attemptCount), at.second + wait * 1000)
      else EndsAs(t, t', s.id, Missed) && NothingElse(t, t')
  {
  }

  /**
   A failure ends the observation at the last attempt allowed, or if its retry would come after the
   window; an earlier one within the window is retried.
   */
  lemma FailureDecides(t: Tables, token: Token, s: Snapshot, jitterMs: nat, at: Readings)
    requires Holds(t, s.id, token) && t.observations[s.id] == s.row
    ensures var t' := FailureTx(t, token, s, jitterMs, at.first, at.commit);
      var due, n := at.first + Backoff(s.row.attemptCount) + jitterMs, s.row.attemptCount;
      if n < s.row.maxAttempts && due < s.row.windowClosesAt
      then RetriesAs(t, t', s.id, Failed, FailureKey(s.id, n), due)
      else EndsAs(t, t', s.id, Missed) && NothingElse(t, t')
  {
    BackoffIs(s.row.attemptCount);
  }

  lemma ClaimAndLoad(w: World, token: Token, id: ObservationId, now: Time) returns (w': World)
    requires token !in w.attempts && CanClaim(w.t, id, now)
    ensures w' == Run(w, [Claim(token, id, now), Load(token)])
    ensures w'.t == ClaimTx(w.t, id, token, now)
    ensures Loaded(w', token) && SnapshotOf(w', token) == Snapshot(id, ClaimTx(w.t, id, token, now).observations[id])
  {
    RunAppend(w, [], Claim(token, id, now));
    assert [] + [Claim(token, id, now)] == [Claim(token, id, now)];
    RunAppend(w, [Claim(token, id, now)], Load(token));
    assert [Claim(token, id, now)] + [Load(token)] == [Claim(token, id, now), Load(token)];
    w' := Next(Next(w, Claim(token, id, now)), Load(token));
  }

  class Store {
    var observations: map<ObservationId, Observation>
    var metrics: seq<Metric>
    var sync: map<Account, SyncRow>
    var outbox: map<DedupeKey, OutboxEvent>

    function View(): Tables
      reads this
    {
      Tables(observations, metrics, sync, outbox)
    }

    constructor ()
      ensures View() == EMPTY.t
    {
      observations, metrics, sync, outbox := map[], [], map[], map[];
    }

    method Upsert(k: DedupeKey, payload: Payload, executeAt: Time)
      modifies this`outbox
      ensures outbox == UpsertEvent(old(outbox), k, OutboxEvent(payload, executeAt))
    {
      if k !in outbox {
        outbox := outbox[k := OutboxEvent(payload, executeAt)];
      }
    }

    method ClaimLease(id: ObservationId, token: Token, now: Time) returns (claimed: bool)
      modifies this`observations
      ensures View() == ClaimTx(old(View()), id, token, now)
      ensures claimed == CanClaim(old(View()), id, now)
      ensures claimed ==> Holds(View(), id, token)
    {
      claimed := id in observations && Claimable(observations[id], now);
      if claimed {
        var o := observations[id];
        observations := observations[id := o.(
          status := Processing, leaseToken := Some(token), leaseUntil := Some(now + LEASE_MS),
          lastAttemptAt := Some(now), attemptCount := o.attemptCount + 1)];
      }
    }

    method RenewLease(id: ObservationId, token: Token, now: Time) returns (renewed: bool)
      modifies this`observations
      ensures View() == RenewTx(old(View()), id, token, now)
      ensures renewed == Holds(old(View()), id, token) && Holds(View(), id, token) == renewed
    {
      renewed := id in observations && observations[id].status == Processing && observations[id].leaseToken == Some(token);
      if renewed {
        observations := observations[id := observations[id].(leaseUntil := Some(now + LEASE_MS))];
      }
    }

    method Release(id: ObservationId, token: Token, to: Status, attemptedAt: Option<Time>) returns (affected: bool)
      modifies this`observations
      ensures View() == ReleaseTx(old(View()), id, token, to, attemptedAt)
      ensures affected == Holds(old(View()), id, token)
    {
      affected := id in observations && observations[id].status == Processing && observations[id].leaseToken == Some(token);
      if affected {
        var o := observations[id].(status := to, leaseToken := None, leaseUntil := None);
        if attemptedAt.Some? {
          o := o.(lastAttemptAt := attemptedAt);
        }
        observations := observations[id := o];
      }
    }

    /** The capture transaction; a stale worker's transaction leaves no trace. */
    method CommitCapture(token: Token, s: Snapshot, now: Time, appNow: Time) returns (outcome: CaptureOutcome)
      modifies this
      ensures View() == CaptureTx(old(View()), token, s, now, appNow)
      ensures outcome.CaptureCommitted? <==> CanCapture(old(View()), s.id, token, now)
      ensures outcome.CaptureCommitted? <==> |metrics| == |old(metrics)| + 1
      ensures outcome.StaleWorker? ==> View() == old(View())
      ensures outcome.ClosedMeanwhile? <==>
        && !CanCapture(old(View()), s.id, token, now) && s.id in old(observations)
        && old(observations)[s.id].leaseToken == Some(token) && old(observations)[s.id].windowClosesAt <= appNow
    {
      var affected := s.id in observations && observations[s.id].status == Processing
        && observations[s.id].leaseToken == Some(token) && observations[s.id].windowClosesAt > now;
      if !affected {
        if s.id in observations && observations[s.id].leaseToken == Some(token)
           && observations[s.id].windowClosesAt <= appNow {
          var _ := Release(s.id, token, Missed, None);
          return ClosedMeanwhile;
        }
        return StaleWorker;
      }
      observations := observations[s.id := observations[s.id].(
        status := Captured, capturedAt := Some(now), lastAttemptAt := Some(now), leaseToken := None, leaseUntil := None)];
      var account := s.row.account;
      if account in sync {
        sync := sync[account := sync[account].(generation := sync[account].generation + 1)];
      } else {
        sync := sync[account := SyncRow(1, 0, None)];
      }
      var generation := sync[account].generation;
      metrics := metrics + [Metric(s.id, account, appNow, generation)];
      Upsert(AggregateKey(account, generation, s.id.slot), TriggerAggregation(account, s.id.slot, generation), appNow);
      return CaptureCommitted;
    }

    method HandleRateLimit(token: Token, s: Snapshot, header: Option<int>, readAt: Time, dueFrom: Time, now: Time)
      modifies this
      ensures View() == RateLimitTx(old(View()), token, s, header, readAt, dueFrom, now)
    {
      var parsed := if header.Some? then header.value else 60;
      var remaining := Max(0, (s.row.windowClosesAt - readAt) / 1000);
      var retryAfter := Min(Min(Max(0, parsed), 3600), remaining);
      var next := dueFrom + retryAfter * 1000;
      if retryAfter > 0 && next < s.row.windowClosesAt {
        var affected := Release(s.id, token, RateLimited, Some(now));
        if affected {
          Upsert(RateLimitKey(s.id, s.row.attemptCount), RetryObservation(s.id), next);
        }
      } else {
        var _ := Release(s.id, token, Missed, Some(now));
      }
    }

    method HandleGeneralFailure(token: Token, s: Snapshot, jitterMs: nat, failedAt: Time, now: Time)
      modifies this
      ensures View() == FailureTx(old(View()), token, s, jitterMs, failedAt, now)
    {
      var retryCount := s.row.attemptCount;
      var next := failedAt + BackoffMs(retryCount, jitterMs);
      if next < s.row.windowClosesAt && retryCount < s.row.maxAttempts {
        var affected := Release(s.id, token, Failed, Some(now));
        if affected {
          Upsert(FailureKey(s.id, retryCount), RetryObservation(s.id), next);
        }
      } else {
        var _ := Release(s.id, token, Missed, Some(now));
      }
    }

    /** The part of an attempt after its claim and load: a single step of the protocol. */
    method Finish(token: Token, s: Snapshot, result: FetchResult, at: Readings, ghost w: World) returns (ghost last: Event)
      requires result.Thrown? ==> result.jitterMs < JITTER_MS
      requires w.t == View() && Loaded(w, token) && SnapshotOf(w, token) == s
      requires Holds(View(), s.id, token) && observations[s.id] == s.row
      modifies this
      ensures View() == NextTables(w, last)
      ensures last == LastEvent(token, s, result, at)
      ensures (result.Metrics? ==> at.second >= at.commit) ==>
        s.id in observations && observations[s.id].status != Processing
    {
      if s.row.windowClosesAt <= at.checked {
        last := CloseEarly(token, at.checked);
        var _ := Release(s.id, token, Missed, None);
        return;
      }
      if result.Metrics? {
        last := Capture(token, at.commit, at.second);
        var _ := CommitCapture(token, s, at.commit, at.second);
      } else if result.code == Some(404) {
        last := ReportDeleted(token, at.commit);
        var _ := Release(s.id, token, Deleted, Some(at.commit));
      } else if result.code == Some(401) || result.code == Some(403) || (result.code == Some(500) && result.permissionText) {
        last := ReportUnavailable(token, at.commit);
        var _ := Release(s.id, token, Unavailable, Some(at.commit));
      } else if result.code == Some(429) {
        last := ReportRateLimit(token, result.header, at.first, at.second, at.commit);
        HandleRateLimit(token, s, result.header, at.first, at.second, at.commit);
      } else {
        last := ReportFailure(token, result.jitterMs, at.first, at.commit);
        HandleGeneralFailure(token, s, result.jitterMs, at.first, at.commit);
      }
    }

    /**
     One attempt from claim to outcome with nothing in between. It performs a run of the protocol,
     and it always ends with the lease given up.
     */
    method ProcessAttempt(token: Token, id: ObservationId, result: FetchResult, at: Readings) returns (ghost es: seq<Event>)
      requires result.Thrown? ==> result.jitterMs < JITTER_MS
      modifies this
      ensures View() == Run(World(old(View()), map[], map[], {}), es).t
      ensures !CanClaim(old(View()), id, at.claimed) ==> View() == old(View())
      ensures id in old(observations) && CanBegin(old(observations)[id], at.claimed) ==>
        Decided(Begun(old(View()), id, token, at.claimed), View(), id, token, result, at)
      ensures !(id in old(observations) && CanBegin(old(observations)[id], at.claimed)) ==> View() == old(View())
      ensures CanClaim(old(View()), id, at.claimed) && (result.Metrics? ==> at.second >= at.commit) ==>
        id in observations && observations[id].status != Processing
    {
      ghost var w0 := World(View(), map[], map[], {});
      var claimed := ClaimLease(id, token, at.claimed);
      if !claimed {
        es := [];
        return;
      }
      var s := Snapshot(id, observations[id]);
      ghost var w2 := ClaimAndLoad(w0, token, id, at.claimed);
      ghost var t := View();
      ghost var last := Finish(token, s, result, at, w2);
      LastDecides(t, w2, token, s, result, at);
      RunAppend(w0, [Claim(token, id, at.claimed), Load(token)], last);
      es := [Claim(token, id, at.claimed), Load(token)] + [last];
    }

    /** The rows a query for those to recover returns, in its order. */
    method FindExpired(order: seq<ObservationId>) returns (found: seq<SweepRead>)
      requires forall i | 0 <= i < |order| :: order[i] in observations
      ensures |found| == |order|
      ensures forall i | 0 <= i < |found| :: found[i] == SweepRead(order[i], observations[order[i]].attemptCount)
    {
      found := [];
      for i := 0 to |order|
        invariant |found| == i
        invariant forall k | 0 <= k < i :: found[k] == SweepRead(order[k], observations[order[k]].attemptCount)
      {
        found := found + [SweepRead(order[i], observations[order[i]].attemptCount)];
      }
    }

    /** The recoveries, one transaction each, with the clock read for each. */
    method RecoverEach(found: seq<SweepRead>, clock: nat -> (Time, Time), ghost w: World) returns (recovered: nat)
      requires w.t == View() && w.recovered == {}
      requires forall i: nat | i < |found| :: i in w.sweeps && w.sweeps[i] == found[i]
      requires forall i, j | 0 <= i < j < |found| :: found[i].id != found[j].id
      modifies this
      ensures View() == AfterRecoveries(w, clock, |found|).t && recovered == |AfterRecoveries(w, clock, |found|).recovered|
    {
      recovered := 0;
      for i := 0 to |found|
        invariant View() == AfterRecoveries(w, clock, i).t && recovered == Affected(w, clock, i)
      {
        var r, at := found[i], clock(i);
        assert w.sweeps[i] == r;
        var affected := RecoverRow(r, at.0, at.1);
        if affected { recovered := recovered + 1; }
      }
      AffectedIsRecovered(w, clock, |found|);
    }

    /**
     The sweeper: one UPDATE for closed windows, a query that returns some rows to recover, and one
     transaction for each of them. It performs a run of the protocol; the count is that of the
     recoveries that committed.
     */
    method Reconcile(closeAt: Time, selectAt: Time, order: seq<ObservationId>, clock: nat -> (Time, Time)) returns (recovered: nat)
      requires Selectable(View(), closeAt, selectAt, order)
      modifies this
      ensures var w := Run(World(old(View()), map[], map[], {}), SweepEvents(closeAt, selectAt, order, clock));
        View() == w.t && recovered == |w.recovered|
    {
      ghost var t := View();
      observations := SweepClosedTx(View(), closeAt).observations;
      var found := FindExpired(order);
      ghost var selected := SweepIs(t, closeAt, selectAt, order, found, clock);
      recovered := RecoverEach(found, clock, selected);
    }

    /** The transaction of one recovery. */
    method RecoverRow(r: SweepRead, now: Time, appNow: Time) returns (affected: bool)
      modifies `observations, `outbox
      ensures View() == RecoverTx(old(View()), r.id, r.count, now, appNow)
      ensures affected == CanRecover(old(View()), r.id, now)
    {
      affected := r.id in observations && SweepSelects(observations[r.id], now);
      if affected {
        var o := observations[r.id];
        observations := observations[r.id := o.(
          status := Failed, attemptCount := o.attemptCount + 1, leaseToken := None, leaseUntil := None)];
        Upsert(RecoveredKey(r.id, r.count + 1), RetryObservation(r.id), appNow);
      }
    }
  }

  lemma {:induction false} RunConcat(w: World, xs: seq<Event>, ys: seq<Event>)
    ensures Run(w, xs + ys) == Run(Run(w, xs), ys)
    decreases |xs|
  {
    if xs == [] {
      assert xs + ys == ys;
    } else {
      assert (xs + ys)[1..] == xs[1..] + ys;
      RunConcat(Next(w, xs[0]), xs[1..], ys);
    }
  }

  lemma CloseOne(w: World, closeAt: Time) returns (w': World)
    ensures w' == Next(w, SweepClosed(closeAt)) && w' == w.(t := SweepClosedTx(w.t, closeAt))
  {
    w' := Next(w, SweepClosed(closeAt));
  }

  lemma SelectOne(v: World, i: nat, id: ObservationId, selectAt: Time)
    requires i !in v.sweeps && id in v.t.observations && SweepSelects(v.t.observations[id], selectAt)
    ensures Next(v, SweepSelect(i, id, selectAt)) == v.(sweeps := v.sweeps[i := SweepRead(id, v.t.observations[id].attemptCount)])
  {
  }

  predicate FoundBy(w: World, id: ObservationId, selectAt: Time, r: SweepRead) {
    && id in w.t.observations && SweepSelects(w.t.observations[id], selectAt)
    && r == SweepRead(id, w.t.observations[id].attemptCount)
  }

  lemma SelectNext(w: World, n: nat, id: ObservationId, selectAt: Time, found: seq<SweepRead>)
    requires n < |found| && FoundBy(w, id, selectAt, found[n])
    ensures Next(w.(sweeps := Reads(n, found)), SweepSelect(n, id, selectAt)) == w.(sweeps := Reads(n + 1, found))
  {
    assert Reads(n + 1, found) == Reads(n, found)[n := found[n]];
    SelectOne(w.(sweeps := Reads(n, found)), n, id, selectAt);
  }

  lemma {:induction false} SelectionsAreARun(w: World, n: nat, order: seq<ObservationId>, selectAt: Time, found: seq<SweepRead>)
    requires w.sweeps == map[] && n <= |found| == |order|
    requires forall i | 0 <= i < |order| :: FoundBy(w, order[i], selectAt, found[i])
    ensures Run(w, Selections(n, order, selectAt)) == w.(sweeps := Reads(n, found))
  {
    if n > 0 {
      SelectionsAreARun(w, n - 1, order, selectAt, found);
      RunAppend(w, Selections(n - 1, order, selectAt), SweepSelect(n - 1, order[n - 1], selectAt));
      SelectNext(w, n - 1, order[n - 1], selectAt, found);
    } else {
      assert Reads(0, found) == map[];
    }
  }

  /** The world after the first `n` recoveries. */
  ghost function AfterRecoveries(w: World, clock: nat -> (Time, Time), n: nat): (v: World)
    requires forall i: nat | i < n :: i in w.sweeps
    ensures v.sweeps == w.sweeps
  {
    if n == 0 then w
    else
      var v, r, at := AfterRecoveries(w, clock, n - 1), w.sweeps[n - 1], clock(n - 1);
      v.(t := RecoverTx(v.t, r.id, r.count, at.0, at.1),
         recovered := if CanRecover(v.t, r.id, at.0) then v.recovered + {r} else v.recovered)
  }

  /** How many of the first `n` recoveries take effect. */
  ghost function Affected(w: World, clock: nat -> (Time, Time), n: nat): nat
    requires forall i: nat | i < n :: i in w.sweeps
  {
    if n == 0 then 0
    else
      Affected(w, clock, n - 1)
      + if CanRecover(AfterRecoveries(w, clock, n - 1).t, w.sweeps[n - 1].id, clock(n - 1).0) then 1 else 0
  }

  lemma {:induction false} RecoveredAreFound(w: World, clock: nat -> (Time, Time), n: nat, r: SweepRead)
    requires (forall i: nat | i < n :: i in w.sweeps) && w.recovered == {} && r in AfterRecoveries(w, clock, n).recovered
    ensures exists i: nat :: i < n && w.sweeps[i] == r
  {
    if r in AfterRecoveries(w, clock, n - 1).recovered { RecoveredAreFound(w, clock, n - 1, r); }
  }

  lemma LastRecovery(w: World, clock: nat -> (Time, Time), n: nat)
    requires n > 0 && forall i: nat | i < n :: i in w.sweeps
    ensures var v := AfterRecoveries(w, clock, n - 1);
      var committed := CanRecover(v.t, w.sweeps[n - 1].id, clock(n - 1).0);
      && AfterRecoveries(w, clock, n).recovered == (if committed then v.recovered + {w.sweeps[n - 1]} else v.recovered)
      && Affected(w, clock, n) == Affected(w, clock, n - 1) + (if committed then 1 else 0)
  {
  }

  lemma RecoverOne(w: World, clock: nat -> (Time, Time), n: nat)
    requires n > 0 && forall i: nat | i < n :: i in w.sweeps
    ensures AfterRecoveries(w, clock, n)
         == Next(AfterRecoveries(w, clock, n - 1), SweepRecover(n - 1, clock(n - 1).0, clock(n - 1).1))
  {
  }

  lemma NotYetRecovered(w: World, clock: nat -> (Time, Time), n: nat)
    requires n > 0 && (forall i: nat | i < n :: i in w.sweeps) && w.recovered == {}
    requires forall i: nat, j: nat | i < j < n :: w.sweeps[i].id != w.sweeps[j].id
    ensures w.sweeps[n - 1] !in AfterRecoveries(w, clock, n - 1).recovered
  {
    if w.sweeps[n - 1] in AfterRecoveries(w, clock, n - 1).recovered {
      RecoveredAreFound(w, clock, n - 1, w.sweeps[n - 1]);
      assert false;
    }
  }

  lemma {:induction false} AffectedIsRecovered(w: World, clock: nat -> (Time, Time), n: nat)
    requires (forall i: nat | i < n :: i in w.sweeps) && w.recovered == {}
    requires forall i: nat, j: nat | i < j < n :: w.sweeps[i].id != w.sweeps[j].id
    ensures Affected(w, clock, n) == |AfterRecoveries(w, clock, n).recovered|
  {
    if n > 0 {
      AffectedIsRecovered(w, clock, n - 1);
      LastRecovery(w, clock, n);
      NotYetRecovered(w, clock, n);
    }
  }

  lemma {:induction false} RecoveriesAreARun(w: World, clock: nat -> (Time, Time), n: nat)
    requires forall i: nat | i < n :: i in w.sweeps
    ensures AfterRecoveries(w, clock, n) == Run(w, Recoveries(n, clock))
  {
    if n > 0 {
      RecoveriesAreARun(w, clock, n - 1);
      RecoverOne(w, clock, n);
      RunAppend(w, Recoveries(n - 1, clock), SweepRecover(n - 1, clock(n - 1).0, clock(n - 1).1));
    }
  }

  lemma {:induction false} KeysKept(w: World, clock: nat -> (Time, Time), n: nat)
    requires forall i: nat | i < n :: i in w.sweeps
    ensures AfterRecoveries(w, clock, n).t.observations.Keys == w.t.observations.Keys
  {
    if n > 0 { KeysKept(w, clock, n - 1); }
  }

  lemma {:induction false} RowKept(w: World, clock: nat -> (Time, Time), n: nat, id: ObservationId)
    requires forall i: nat | i < n :: i in w.sweeps && w.sweeps[i].id != id
    requires id in w.t.observations
    ensures var rows := AfterRecoveries(w, clock, n).t.observations; id in rows && rows[id] == w.t.observations[id]
  {
    if n > 0 { RowKept(w, clock, n - 1, id); }
  }

  lemma {:induction false} RowRecovered(w: World, clock: nat -> (Time, Time), n: nat, i: nat)
    requires i < n && (forall k: nat | k < n :: k in w.sweeps) && w.sweeps[i].id in w.t.observations
    requires forall k: nat | k < n && k != i :: w.sweeps[k].id != w.sweeps[i].id
    ensures var rows, id := AfterRecoveries(w, clock, n).t.observations, w.sweeps[i].id;
      id in rows && rows[id] == Recovered(w.t.observations[id], clock(i).0)
  {
    if i < n - 1 { RowRecovered(w, clock, n - 1, i); } else { RowKept(w, clock, i, w.sweeps[i].id); }
  }

  /** The recoveries change the rows found and no others, each by its own clock. */
  lemma RecoveredRows(w: World, order: seq<ObservationId>, clock: nat -> (Time, Time))
    requires forall i: nat | i < |order| :: i in w.sweeps && w.sweeps[i].id == order[i] && order[i] in w.t.observations
    requires forall i, j | 0 <= i < j < |order| :: order[i] != order[j]
    ensures var rows := AfterRecoveries(w, clock, |order|).t.observations;
      && rows.Keys == w.t.observations.Keys
      && (forall id | id in rows && id !in order :: rows[id] == w.t.observations[id])
      && (forall i | 0 <= i < |order| :: rows[order[i]] == Recovered(w.t.observations[order[i]], clock(i).0))
  {
    KeysKept(w, clock, |order|);
    var rows := AfterRecoveries(w, clock, |order|).t.observations;
    forall id | id in rows && id !in order ensures rows[id] == w.t.observations[id] { RowKept(w, clock, |order|, id); }
    forall i | 0 <= i < |order| ensures rows[order[i]] == Recovered(w.t.observations[order[i]], clock(i).0) {
      RowRecovered(w, clock, |order|, i);
    }
  }

  lemma SweepRuns(w: World, closeAt: Time, selectAt: Time, order: seq<ObservationId>, clock: nat -> (Time, Time))
    ensures Run(w, SweepEvents(closeAt, selectAt, order, clock))
         == Run(Run(Next(w, SweepClosed(closeAt)), Selections(|order|, order, selectAt)), Recoveries(|order|, clock))
  {
    var first := [SweepClosed(closeAt)];
    RunConcat(w, first + Selections(|order|, order, selectAt), Recoveries(|order|, clock));
    RunConcat(w, first, Selections(|order|, order, selectAt));
    assert first[1..] == [];
    assert Run(w, first) == Run(Next(w, first[0]), []);
  }

  /** What the query may return: rows that qualify after the closing update, once each. */
  ghost predicate Selectable(t: Tables, closeAt: Time, selectAt: Time, order: seq<ObservationId>) {
    && (forall i, j | 0 <= i < j < |order| :: order[i] != order[j])
    && forall i | 0 <= i < |order| ::
         order[i] in t.observations && SweepSelects(SweepClosedTx(t, closeAt).observations[order[i]], selectAt)
  }

  /** A sweep up to its recoveries, and its whole run. */
  lemma SweepIs(t: Tables, closeAt: Time, selectAt: Time, order: seq<ObservationId>, found: seq<SweepRead>, clock: nat -> (Time, Time))
      returns (selected: World)
    requires Selectable(t, closeAt, selectAt, order) && |found| == |order|
    requires forall i | 0 <= i < |order| ::
      found[i] == SweepRead(order[i], SweepClosedTx(t, closeAt).observations[order[i]].attemptCount)
    ensures selected == World(SweepClosedTx(t, closeAt), map[], Reads(|found|, found), {})
    ensures Run(World(t, map[], map[], {}), SweepEvents(closeAt, selectAt, order, clock)) == AfterRecoveries(selected, clock, |order|)
  {
    var w := World(t, map[], map[], {});
    var closed := CloseOne(w, closeAt);
    assert forall i | 0 <= i < |order| :: FoundBy(closed, order[i], selectAt, found[i]);
    SelectionsAreARun(closed, |order|, order, selectAt, found);
    selected := closed.(sweeps := Reads(|found|, found));
    SweepRuns(w, closeAt, selectAt, order, clock);
    RecoveriesAreARun(selected, clock, |order|);
  }

  lemma SelectedAre(t: Tables, closeAt: Time, selectAt: Time, order: seq<ObservationId>, found: seq<SweepRead>, selected: World)
    requires Selectable(t, closeAt, selectAt, order) && |found| == |order|
    requires forall i | 0 <= i < |order| :: found[i].id == order[i]
    requires selected.t == SweepClosedTx(t, closeAt) && selected.sweeps == Reads(|found|, found)
    ensures forall i: nat | i < |order| ::
      i in selected.sweeps && selected.sweeps[i].id == order[i] && order[i] in selected.t.observations
  {
  }

  /**
   What a sweep leaves behind: the rows its query did not return are as the closing update left them,
   and each of the others is recovered exactly if it still qualifies at the clock of its own transaction.
   */
  lemma SweptRows(t: Tables, closeAt: Time, selectAt: Time, order: seq<ObservationId>, clock: nat -> (Time, Time))
    requires Selectable(t, closeAt, selectAt, order)
    ensures var closed := SweepClosedTx(t, closeAt).observations;
      var rows := Run(World(t, map[], map[], {}), SweepEvents(closeAt, selectAt, order, clock)).t.observations;
      && rows.Keys == t.observations.Keys
      && (forall id | id in rows && id !in order :: rows[id] == closed[id])
      && (forall i | 0 <= i < |order| :: rows[order[i]] == Recovered(closed[order[i]], clock(i).0))
  {
    var found := seq(|order|, i requires 0 <= i < |order| =>
      SweepRead(order[i], SweepClosedTx(t, closeAt).observations[order[i]].attemptCount));
    var selected := SweepIs(t, closeAt, selectAt, order, found, clock);
    SelectedAre(t, closeAt, selectAt, order, found, selected);
    RecoveredRows(selected, order, clock);
  }

  ghost function Reads(n: nat, found: seq<SweepRead>): map<nat, SweepRead>
    requires n <= |found|
  {
    map i: nat | i < n :: found[i]
  }
}
