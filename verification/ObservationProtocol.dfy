/**
 The observation protocol: any number of worker attempts, heartbeats and sweeper passes act on
 the tables, one transaction at a time, in any order. An attempt that crashes is an attempt that
 takes no further step, so crashes need no event of their own. A worker may repeat any of its
 steps; the source only ever does fewer.
 */
module ObservationProtocol {
  import opened Common
  import opened AnalyticsTables

  /** One call of processObservationAttempt, named by its random lease token. */
  datatype Attempt = Attempt(id: ObservationId, loaded: Option<Observation>)

  /** What one SELECT of the sweeper saw of one row. */
  datatype SweepRead = SweepRead(id: ObservationId, count: nat)

  datatype World = World(
    t: Tables,
    attempts: map<Token, Attempt>,
    sweeps: map<nat, SweepRead>,
    recovered: set<SweepRead>)  // history: the reads from which a recovery has committed

  datatype Event =
    | ScheduleSlot(account: Account, id: ObservationId, publishedAt: Time)
    | Claim(token: Token, id: ObservationId, now: Time)
    | Load(token: Token)
    | CloseEarly(token: Token, appNow: Time)
    | Renew(token: Token, now: Time)
    | Capture(token: Token, now: Time, appNow: Time)
    | ReportDeleted(token: Token, now: Time)
    | ReportUnavailable(token: Token, now: Time)
    | ReportRateLimit(token: Token, header: Option<int>, readAt: Time, dueFrom: Time, now: Time)
    | ReportFailure(token: Token, jitterMs: nat, failedAt: Time, now: Time)
    | SweepClosed(now: Time)
    | SweepSelect(sweep: nat, id: ObservationId, appNow: Time)
    | SweepRecover(sweep: nat, now: Time, appNow: Time)

  const EMPTY := World(Tables(map[], [], map[], map[]), map[], map[], {})

  predicate Loaded(w: World, token: Token) {
    token in w.attempts && w.attempts[token].loaded.Some?
  }

  function SnapshotOf(w: World, token: Token): Snapshot
    requires Loaded(w, token)
  {
    Snapshot(w.attempts[token].id, w.attempts[token].loaded.value)
  }

  /** The token whose attempt takes the step; sweeps and scheduling have none. */
  function Actor(e: Event): Option<Token> {
    if e.ScheduleSlot? || e.Claim? || e.SweepClosed? || e.SweepSelect? || e.SweepRecover? then None
    else Some(e.token)
  }

  /** The effect of a step on the tables. An event whose actor is not ready for it does nothing. */
  function NextTables(w: World, e: Event): Tables {
    match e
    case ScheduleSlot(a, id, publishedAt) => ScheduleTx(w.t, a, id, publishedAt)
    case Claim(token, id, now) => if token in w.attempts then w.t else ClaimTx(w.t, id, token, now)
    case Load(token) => w.t
    case CloseEarly(token, appNow) =>
      if Loaded(w, token) && SnapshotOf(w, token).row.windowClosesAt <= appNow
      then ReleaseTx(w.t, w.attempts[token].id, token, Missed, None) else w.t
    case Renew(token, now) =>
      if token in w.attempts then RenewTx(w.t, w.attempts[token].id, token, now) else w.t
    case Capture(token, now, appNow) =>
      if Loaded(w, token) then CaptureTx(w.t, token, SnapshotOf(w, token), now, appNow) else w.t
    case ReportDeleted(token, now) =>
      if Loaded(w, token) then ReleaseTx(w.t, w.attempts[token].id, token, Deleted, Some(now)) else w.t
    case ReportUnavailable(token, now) =>
      if Loaded(w, token) then ReleaseTx(w.t, w.attempts[token].id, token, Unavailable, Some(now)) else w.t
    case ReportRateLimit(token, header, readAt, dueFrom, now) =>
      if Loaded(w, token) then RateLimitTx(w.t, token, SnapshotOf(w, token), header, readAt, dueFrom, now) else w.t
    case ReportFailure(token, jitterMs, failedAt, now) =>
      if Loaded(w, token) && jitterMs < JITTER_MS
      then FailureTx(w.t, token, SnapshotOf(w, token), jitterMs, failedAt, now) else w.t
    case SweepClosed(now) => SweepClosedTx(w.t, now)
    case SweepSelect(sweep, id, appNow) => w.t
    case SweepRecover(sweep, now, appNow) =>
      if sweep in w.sweeps then RecoverTx(w.t, w.sweeps[sweep].id, w.sweeps[sweep].count, now, appNow) else w.t
  }

  function NextAttempts(w: World, e: Event): map<Token, Attempt> {
    match e
    case Claim(token, id, now) =>
      if token !in w.attempts && CanClaim(w.t, id, now) then w.attempts[token := Attempt(id, None)] else w.attempts
    case Load(token) =>
      if token in w.attempts && w.attempts[token].id in w.t.observations && !Loaded(w, token)
      then w.attempts[token := w.attempts[token].(loaded := Some(w.t.observations[w.attempts[token].id]))]
      else w.attempts
    case _ => w.attempts
  }

  predicate Recovers(w: World, e: Event) {
    e.SweepRecover? && e.sweep in w.sweeps && CanRecover(w.t, w.sweeps[e.sweep].id, e.now)
  }

  function Next(w: World, e: Event): World {
    World(
      NextTables(w, e),
      NextAttempts(w, e),
      if e.SweepSelect? && e.sweep !in w.sweeps && e.id in w.t.observations
         && SweepSelects(w.t.observations[e.id], e.appNow)
      then w.sweeps[e.sweep := SweepRead(e.id, w.t.observations[e.id].attemptCount)] else w.sweeps,
      if Recovers(w, e) then w.recovered + {w.sweeps[e.sweep]} else w.recovered)
  }

  function Run(w: World, es: seq<Event>): World
    decreases |es|
  {
    if es == [] then w else Run(Next(w, es[0]), es[1..])
  }

  lemma {:induction false} RunAppend(w: World, es: seq<Event>, e: Event)
    ensures Run(w, es + [e]) == Next(Run(w, es), e)
    decreases |es|
  {
    if es == [] {
      assert Run(w, [e]) == Run(Next(w, e), []);
      assert es + [e] == [e];
    } else {
      assert (es + [e])[1..] == es[1..] + [e];
      RunAppend(Next(w, es[0]), es[1..], e);
    }
  }

  // ---- invariants ----

  /** Status, token and expiry move together, and a token belongs to the attempt that drew it. */
  ghost predicate LeaseInv(w: World) {
    forall id | id in w.t.observations ::
      var o := w.t.observations[id];
      && (o.status == Processing <==> o.leaseToken.Some?)
      && (o.leaseToken.Some? <==> o.leaseUntil.Some?)
      && (o.leaseToken.Some? ==>
            o.leaseToken.value in w.attempts && w.attempts[o.leaseToken.value].id == id)
  }

  predicate SameIdentity(x: Observation, y: Observation) {
    x.account == y.account && x.scheduledFor == y.scheduledFor
    && x.windowClosesAt == y.windowClosesAt && x.maxAttempts == y.maxAttempts
  }

  /** An attempt's copy is current in every fixed column, and in attempt_count while it holds the row. */
  ghost predicate AttemptInv(w: World) {
    forall token | token in w.attempts :: AttemptOk(w.t, w.attempts[token], token)
  }

  ghost predicate AttemptOk(t: Tables, a: Attempt, token: Token) {
    && a.id in t.observations
    && (a.loaded.Some? ==>
          && SameIdentity(a.loaded.value, t.observations[a.id])
          && a.loaded.value.attemptCount <= t.observations[a.id].attemptCount
          && (t.observations[a.id].leaseToken == Some(token) ==>
                a.loaded.value.attemptCount == t.observations[a.id].attemptCount))
  }

  /** Metrics are exactly the captured observations, once each. */
  ghost predicate MetricInv(t: Tables) {
    && (forall i, j | 0 <= i < j < |t.metrics| :: t.metrics[i].observation != t.metrics[j].observation)
    && (forall i | 0 <= i < |t.metrics| ::
          && t.metrics[i].observation in t.observations
          && t.observations[t.metrics[i].observation].status == Captured
          && t.observations[t.metrics[i].observation].account == t.metrics[i].account)
    && (forall id | id in t.observations && t.observations[id].status == Captured ::
          exists i :: 0 <= i < |t.metrics| && t.metrics[i].observation == id)
  }

  ghost predicate WindowInv(t: Tables) {
    forall id | id in t.observations ::
      var o := t.observations[id];
      o.status == Captured ==> o.capturedAt.Some? && o.capturedAt.value < o.windowClosesAt
  }

  function CountFor(metrics: seq<Metric>, a: Account): nat {
    if metrics == [] then 0
    else CountFor(metrics[..|metrics| - 1], a) + if metrics[|metrics| - 1].account == a then 1 else 0
  }

  /** The generation counter counts the account's metrics, and each metric bears its own rank. */
  ghost predicate GenerationInv(t: Tables) {
    && (forall a: Account {:trigger Generation(t, a)} :: Generation(t, a) == CountFor(t.metrics, a))
    && (forall i | 0 <= i < |t.metrics| ::
          t.metrics[i].generation == CountFor(t.metrics[..i + 1], t.metrics[i].account))
  }

  /** Every metric has its aggregation trigger, and no trigger runs ahead of the counter. */
  ghost predicate TriggerInv(t: Tables) {
    && (forall i | 0 <= i < |t.metrics| ::
          var m := t.metrics[i];
          AggregateKey(m.account, m.generation, m.observation.slot) in t.outbox)
    && (forall k | k in t.outbox && k.AggregateKey? ::
          && k.generation <= Generation(t, k.account)
          && t.outbox[k].payload == TriggerAggregation(k.account, k.slot, k.generation))
  }

  /** Retry keys of worker attempts never run ahead of attempt_count, and stay behind it while leased. */
  ghost predicate RetryKeyInv(t: Tables) {
    forall k | k in t.outbox && (k.RateLimitKey? || k.FailureKey?) ::
      && k.id in t.observations
      && k.attempt <= t.observations[k.id].attemptCount
      && (t.observations[k.id].status == Processing ==> k.attempt < t.observations[k.id].attemptCount)
  }

  /** Recovery keys are exactly the recoveries that committed. */
  ghost predicate RecoveryInv(w: World) {
    && (forall k | k in w.t.outbox && k.RecoveredKey? :: k.attempt > 0 && SweepRead(k.id, k.attempt - 1) in w.recovered)
    && (forall r | r in w.recovered :: RecoveredKey(r.id, r.count + 1) in w.t.outbox)
    && (forall r | r in w.recovered ::
          r.id in w.t.observations && r.count < w.t.observations[r.id].attemptCount)
    && (forall s | s in w.sweeps ::
          w.sweeps[s].id in w.t.observations && w.sweeps[s].count <= w.t.observations[w.sweeps[s].id].attemptCount)
  }

  ghost predicate Inv(w: World) {
    LeaseInv(w) && AttemptInv(w) && MetricInv(w.t) && WindowInv(w.t) && GenerationInv(w.t)
    && TriggerInv(w.t) && RetryKeyInv(w.t) && RecoveryInv(w)
  }

  // ---- what one step may do to one row ----

  /** The attempt that takes the step holds the row. */
  predicate HeldByActor(w: World, e: Event, id: ObservationId, o: Observation) {
    && Actor(e).Some?
    && Actor(e).value in w.attempts
    && w.attempts[Actor(e).value].id == id
    && o.status == Processing
    && o.leaseToken == Actor(e)
  }

  predicate Taken(w: World, e: Event, id: ObservationId, o: Observation, o': Observation) {
    && e.Claim? && e.token !in w.attempts && e.id == id && Claimable(o, e.now)
    && o' == o.(status := Processing, leaseToken := Some(e.token), leaseUntil := Some(e.now + LEASE_MS),
                lastAttemptAt := Some(e.now), attemptCount := o.attemptCount + 1)
  }

  predicate Renewed(w: World, e: Event, id: ObservationId, o: Observation, o': Observation) {
    HeldByActor(w, e, id, o) && e.Renew? && o' == o.(leaseUntil := Some(e.now + LEASE_MS))
  }

  predicate CapturedNow(w: World, e: Event, id: ObservationId, o: Observation, o': Observation) {
    && HeldByActor(w, e, id, o) && e.Capture? && Loaded(w, e.token)
    && o.windowClosesAt > e.now
    && o' == o.(status := Captured, leaseToken := None, leaseUntil := None,
                lastAttemptAt := o'.lastAttemptAt, capturedAt := Some(e.now))
  }

  predicate GivenUp(w: World, e: Event, id: ObservationId, o: Observation, o': Observation) {
    && (HeldByActor(w, e, id, o)
        || (e.SweepClosed? && Claimable(o, e.now) && o'.status == Missed)
        || (Recovers(w, e) && w.sweeps[e.sweep].id == id && o.status == Processing && o'.status == Failed))
    && (o'.status.Failed? || o'.status.RateLimited? || o'.status.Missed? || o'.status.Deleted? || o'.status.Unavailable?)
    && o' == o.(status := o'.status, leaseToken := None, leaseUntil := None, lastAttemptAt := o'.lastAttemptAt,
                attemptCount := o.attemptCount + if e.SweepRecover? then 1 else 0)
  }

  predicate RowStep(w: World, e: Event, id: ObservationId, o: Observation, o': Observation) {
    o' == o || Taken(w, e, id, o, o') || Renewed(w, e, id, o, o') || CapturedNow(w, e, id, o, o')
    || GivenUp(w, e, id, o, o')
  }

  lemma RowSteps(w: World, e: Event, id: ObservationId)
    requires id in w.t.observations
    ensures id in NextTables(w, e).observations
    ensures RowStep(w, e, id, w.t.observations[id], NextTables(w, e).observations[id])
  {
  }

  /** Rows appear only by scheduling, in their initial state. */
  lemma NewRows(w: World, e: Event, id: ObservationId)
    requires id !in w.t.observations && id in NextTables(w, e).observations
    ensures e.ScheduleSlot? && NextTables(w, e).observations[id] == NewObservation(e.account, id.slot, e.publishedAt)
  {
  }

  /** The step is a capture that commits. */
  predicate Captures(w: World, e: Event) {
    e.Capture? && Loaded(w, e.token) && CanCapture(w.t, w.attempts[e.token].id, e.token, e.now)
  }

  lemma OtherTables(w: World, e: Event)
    ensures var t, t' := w.t, NextTables(w, e);
      if Captures(w, e) then
        var s := SnapshotOf(w, e.token);
        var g := Generation(t, s.row.account) + 1;
        && t'.metrics == t.metrics + [Metric(s.id, s.row.account, e.appNow, g)]
        && t'.sync == BumpGeneration(t.sync, s.row.account)
        && t'.outbox == UpsertEvent(t.outbox, AggregateKey(s.row.account, g, s.id.slot),
                                    OutboxEvent(TriggerAggregation(s.row.account, s.id.slot, g), e.appNow))
      else
        && t'.metrics == t.metrics
        && forall a :: Generation(t', a) == Generation(t, a) && Revision(t', a) == Revision(t, a)
  {
  }

  // ---- each step keeps the invariant ----

  lemma StepKeepsLeases(w: World, e: Event)
    requires LeaseInv(w)
    ensures LeaseInv(Next(w, e))
  {
    var w' := Next(w, e);
    forall id | id in w'.t.observations
      ensures var o := w'.t.observations[id];
        && (o.status == Processing <==> o.leaseToken.Some?)
        && (o.leaseToken.Some? <==> o.leaseUntil.Some?)
        && (o.leaseToken.Some? ==> o.leaseToken.value in w'.attempts && w'.attempts[o.leaseToken.value].id == id)
    {
      if id in w.t.observations {
        RowSteps(w, e, id);
        assert Taken(w, e, id, w.t.observations[id], w'.t.observations[id]) ==> CanClaim(w.t, id, e.now);
      } else {
        NewRows(w, e, id);
      }
    }
  }

  /** What a row step means to an attempt that already exists. */
  lemma RowForToken(w: World, e: Event, id: ObservationId, o: Observation, o': Observation, token: Token)
    requires RowStep(w, e, id, o, o') && token in w.attempts
    ensures SameIdentity(o, o') && o.attemptCount <= o'.attemptCount
    ensures o'.leaseToken == Some(token) ==> o.leaseToken == Some(token) && o'.attemptCount == o.attemptCount
  {
  }

  lemma AttemptSteps(w: World, e: Event, token: Token)
    requires token in NextAttempts(w, e)
    ensures var a := NextAttempts(w, e)[token];
      || (token in w.attempts && a == w.attempts[token])
      || (a.id in w.t.observations && a.loaded == None)
      || (token in w.attempts && a.id == w.attempts[token].id && a.id in w.t.observations
          && NextTables(w, e) == w.t && a.loaded == Some(w.t.observations[a.id]))
  {
  }

  lemma StepKeepsAttempt(w: World, e: Event, token: Token)
    requires AttemptInv(w) && token in NextAttempts(w, e)
    ensures AttemptOk(NextTables(w, e), NextAttempts(w, e)[token], token)
  {
    AttemptSteps(w, e, token);
    var id := NextAttempts(w, e)[token].id;
    RowSteps(w, e, id);
    if token in w.attempts {
      RowForToken(w, e, id, w.t.observations[id], NextTables(w, e).observations[id], token);
    }
  }

  lemma StepKeepsAttempts(w: World, e: Event)
    requires AttemptInv(w)
    ensures AttemptInv(Next(w, e))
  {
    forall token | token in NextAttempts(w, e)
      ensures AttemptOk(NextTables(w, e), NextAttempts(w, e)[token], token)
    {
      StepKeepsAttempt(w, e, token);
    }
  }

  /** A metric's row stays captured. */
  lemma CapturedRowKept(w: World, e: Event, id: ObservationId)
    requires id in w.t.observations && w.t.observations[id].status == Captured
    ensures id in NextTables(w, e).observations && NextTables(w, e).observations[id] == w.t.observations[id]
  {
    RowSteps(w, e, id);
  }

  /** A row that becomes captured does so in a capture of its own attempt. */
  lemma CapturedRowSource(w: World, e: Event, id: ObservationId)
    requires id in NextTables(w, e).observations && NextTables(w, e).observations[id].status == Captured
    requires id in w.t.observations ==> w.t.observations[id].status != Captured
    ensures Captures(w, e) && w.attempts[e.token].id == id
  {
    if id in w.t.observations { RowSteps(w, e, id); } else { NewRows(w, e, id); }
  }

  lemma CaptureRow(w: World, e: Event)
    requires AttemptInv(w) && Captures(w, e)
    ensures var s := SnapshotOf(w, e.token);
      && s.id in w.t.observations && w.t.observations[s.id].status == Processing
      && s.id in NextTables(w, e).observations
      && NextTables(w, e).observations[s.id].status == Captured
      && NextTables(w, e).observations[s.id].account == s.row.account
  {
  }

  lemma StepKeepsMetrics(w: World, e: Event)
    requires AttemptInv(w) && MetricInv(w.t)
    ensures MetricInv(Next(w, e).t)
  {
    var t := w.t;
    OtherTables(w, e);
    forall i | 0 <= i < |t.metrics| {
      CapturedRowKept(w, e, t.metrics[i].observation);
    }
    forall id | id in NextTables(w, e).observations && NextTables(w, e).observations[id].status == Captured
      ensures (id in t.observations && t.observations[id].status == Captured)
              || (Captures(w, e) && w.attempts[e.token].id == id)
    {
      if !(id in t.observations && t.observations[id].status == Captured) { CapturedRowSource(w, e, id); }
    }
    if Captures(w, e) {
      CaptureRow(w, e);
      MetricAdded(t, NextTables(w, e), SnapshotOf(w, e.token).id);
    } else {
      MetricsSame(t, NextTables(w, e));
    }
  }

  lemma MetricAdded(t: Tables, t': Tables, id: ObservationId)
    requires MetricInv(t)
    requires |t'.metrics| == |t.metrics| + 1 && t'.metrics[..|t.metrics|] == t.metrics
    requires t'.metrics[|t.metrics|].observation == id
    requires id in t.observations && t.observations[id].status != Captured
    requires id in t'.observations && t'.observations[id].status == Captured
    requires t'.observations[id].account == t'.metrics[|t.metrics|].account
    requires forall i | 0 <= i < |t.metrics| ::
      t.metrics[i].observation in t'.observations
      && t'.observations[t.metrics[i].observation] == t.observations[t.metrics[i].observation]
    requires forall x | x in t'.observations && t'.observations[x].status == Captured ::
      (x in t.observations && t.observations[x].status == Captured) || x == id
    ensures MetricInv(t')
  {
    var n := |t.metrics|;
    forall i | 0 <= i < n ensures t'.metrics[i] == t.metrics[i] {
      assert t'.metrics[..n][i] == t.metrics[i];
    }
    assert forall i | 0 <= i < n :: t.metrics[i].observation != id;
    forall i, j | 0 <= i < j <= n ensures t'.metrics[i].observation != t'.metrics[j].observation {}
    forall x | x in t'.observations && t'.observations[x].status == Captured
      ensures exists i :: 0 <= i < |t'.metrics| && t'.metrics[i].observation == x
    {
      if x == id {
        assert t'.metrics[|t.metrics|].observation == x;
      } else {
        var i :| 0 <= i < |t.metrics| && t.metrics[i].observation == x;
        assert t'.metrics[i].observation == x;
      }
    }
  }

  lemma MetricsSame(t: Tables, t': Tables)
    requires MetricInv(t) && t'.metrics == t.metrics
    requires forall i | 0 <= i < |t.metrics| ::
      t.metrics[i].observation in t'.observations
      && t'.observations[t.metrics[i].observation] == t.observations[t.metrics[i].observation]
    requires forall x | x in t'.observations && t'.observations[x].status == Captured ::
      x in t.observations && t.observations[x].status == Captured
    ensures MetricInv(t')
  {
    forall x | x in t'.observations && t'.observations[x].status == Captured
      ensures exists i :: 0 <= i < |t'.metrics| && t'.metrics[i].observation == x
    {
      var i :| 0 <= i < |t.metrics| && t.metrics[i].observation == x;
      assert t'.metrics[i].observation == x;
    }
  }

  lemma StepKeepsWindows(w: World, e: Event)
    requires WindowInv(w.t)
    ensures WindowInv(Next(w, e).t)
  {
    var t, t' := w.t, Next(w, e).t;
    forall id | id in t'.observations && t'.observations[id].status == Captured
      ensures t'.observations[id].capturedAt.Some?
      ensures t'.observations[id].capturedAt.value < t'.observations[id].windowClosesAt
    {
      if id in t.observations { RowSteps(w, e, id); } else { NewRows(w, e, id); }
    }
  }

  lemma StepKeepsGeneration(w: World, e: Event)
    requires GenerationInv(w.t)
    ensures GenerationInv(Next(w, e).t)
  {
    OtherTables(w, e);
    var t, t' := w.t, NextTables(w, e);
    if Captures(w, e) {
      var m := t'.metrics[|t.metrics|];
      GenerationKept(t, t', m);
    } else {
      forall a: Account ensures Generation(t', a) == CountFor(t'.metrics, a) {
        assert Generation(t, a) == CountFor(t.metrics, a);
      }
    }
  }

  lemma GenerationKept(t: Tables, t': Tables, m: Metric)
    requires GenerationInv(t)
    requires t'.metrics == t.metrics + [m] && t'.sync == BumpGeneration(t.sync, m.account)
    requires m.generation == Generation(t, m.account) + 1
    ensures GenerationInv(t')
  {
    assert t'.metrics[..|t.metrics|] == t.metrics;
    forall a: Account ensures Generation(t', a) == CountFor(t'.metrics, a) {
      assert Generation(t, a) == CountFor(t.metrics, a);
    }
    forall i | 0 <= i < |t'.metrics|
      ensures t'.metrics[i].generation == CountFor(t'.metrics[..i + 1], t'.metrics[i].account)
    {
      if i < |t.metrics| {
        assert t'.metrics[..i + 1] == t.metrics[..i + 1];
      } else {
        assert t'.metrics[..i + 1] == t'.metrics;
        assert Generation(t, m.account) == CountFor(t.metrics, m.account);
      }
    }
  }

  lemma StepKeepsTriggers(w: World, e: Event)
    requires TriggerInv(w.t)
    ensures TriggerInv(Next(w, e).t)
  {
    OtherTables(w, e);
  }

  lemma StepKeepsRetryKeys(w: World, e: Event)
    requires AttemptInv(w) && RetryKeyInv(w.t)
    ensures RetryKeyInv(Next(w, e).t)
  {
    var t, t' := w.t, Next(w, e).t;
    forall k | k in t'.outbox && (k.RateLimitKey? || k.FailureKey?)
      ensures
        && k.id in t'.observations
        && k.attempt <= t'.observations[k.id].attemptCount
        && (t'.observations[k.id].status == Processing ==> k.attempt < t'.observations[k.id].attemptCount)
    {
      if k in t.outbox {
        RowSteps(w, e, k.id);
      }
    }
  }

  /** Outbox rows are never changed, and recovery keys come only from recoveries. */
  lemma OutboxSteps(w: World, e: Event, k: DedupeKey)
    ensures k in w.t.outbox ==> k in NextTables(w, e).outbox && NextTables(w, e).outbox[k] == w.t.outbox[k]
    ensures Recovers(w, e) && k == RecoveredKey(w.sweeps[e.sweep].id, w.sweeps[e.sweep].count + 1)
            ==> k in NextTables(w, e).outbox
    ensures k.RecoveredKey? && k !in w.t.outbox && k in NextTables(w, e).outbox
            ==> Recovers(w, e) && k == RecoveredKey(w.sweeps[e.sweep].id, w.sweeps[e.sweep].count + 1)
    ensures (k.InsightsKey? || k.LearningKey? || k.RecommendationsKey?) && k !in w.t.outbox
            ==> k !in NextTables(w, e).outbox
  {
  }

  lemma CountsKept(w: World, e: Event, id: ObservationId)
    requires id in w.t.observations
    ensures id in NextTables(w, e).observations
    ensures NextTables(w, e).observations[id].attemptCount >= w.t.observations[id].attemptCount
  {
    RowSteps(w, e, id);
  }

  lemma RecoveryCounts(w: World, e: Event)
    requires Recovers(w, e)
    ensures var id := w.sweeps[e.sweep].id;
      id in w.t.observations && id in NextTables(w, e).observations
      && NextTables(w, e).observations[id].attemptCount == w.t.observations[id].attemptCount + 1
  {
  }

  lemma RecoveredKept(w: World, e: Event, r: SweepRead)
    requires RecoveryInv(w) && r in Next(w, e).recovered
    ensures RecoveredKey(r.id, r.count + 1) in NextTables(w, e).outbox
    ensures r.id in NextTables(w, e).observations && r.count < NextTables(w, e).observations[r.id].attemptCount
  {
    OutboxSteps(w, e, RecoveredKey(r.id, r.count + 1));
    if r in w.recovered {
      CountsKept(w, e, r.id);
    } else {
      RecoveryCounts(w, e);
    }
  }

  lemma SweepKept(w: World, e: Event, s: nat)
    requires RecoveryInv(w) && s in Next(w, e).sweeps
    ensures var r := Next(w, e).sweeps[s];
      r.id in NextTables(w, e).observations && r.count <= NextTables(w, e).observations[r.id].attemptCount
  {
    CountsKept(w, e, Next(w, e).sweeps[s].id);
  }

  lemma StepKeepsRecoveries(w: World, e: Event)
    requires RecoveryInv(w)
    ensures RecoveryInv(Next(w, e))
  {
    forall k | k in NextTables(w, e).outbox && k.RecoveredKey?
      ensures k.attempt > 0 && SweepRead(k.id, k.attempt - 1) in Next(w, e).recovered
    {
      OutboxSteps(w, e, k);
    }
    forall r | r in Next(w, e).recovered
      ensures RecoveredKey(r.id, r.count + 1) in NextTables(w, e).outbox
      ensures r.id in NextTables(w, e).observations && r.count < NextTables(w, e).observations[r.id].attemptCount
    {
      RecoveredKept(w, e, r);
    }
    forall s | s in Next(w, e).sweeps
      ensures Next(w, e).sweeps[s].id in NextTables(w, e).observations
      ensures Next(w, e).sweeps[s].count <= NextTables(w, e).observations[Next(w, e).sweeps[s].id].attemptCount
    {
      SweepKept(w, e, s);
    }
  }
}
