/**
 Who may change a schedule, and when: leases that are running, retries that are not due, and the calls of
 the services, told by the columns of the schedule.
 */
module PublishingServices {
  import opened Common
  import opened ScheduleStatus
  import opened PublishingTables
  import opened PublishingProtocol
  import opened PublishingSteps
  import opened PublishingSafety

  // ---- leases and waits ----

  /**
   While a lease is running, its schedule changes by steps of the worker that bears its token and of
   nobody else; a deletion that had found it before may take it away as it is.
   */
  lemma LiveLeaseProtects(w: World, e: Event, i: Id)
    requires Reachable(w) && Enabled(w, e) && i in w.rows && w.rows[i].leaseUntil.Some? && w.rows[i].leaseUntil.value >= w.now
    requires !((e.Do? || e.Commit?) && Some(w.workers[e.worker].token) == w.rows[i].attemptId)
    requires e.SweepWrite? ==> w.rows[i].leaseUntil.value > w.now
    ensures if i in Next(w, e).rows then Next(w, e).rows[i] == w.rows[i] else e.DeleteCommit? && Next(w, e).gone[i] == w.rows[i]
  {
    ReachableInv(w);
    if e.Do? || e.Commit? {
      WorkerRow(w, e, i);
    } else if e.DeleteCommit? {
      if i !in Next(w, e).rows { GoneTakesNothing(w, e, i); }
    } else {
      LeaseFromServices(w, e, i);
    }
  }

  lemma LeaseFromServices(w: World, e: Event, i: Id)
    requires Enabled(w, e) && !e.Do? && !e.Commit? && !e.DeleteCommit?
    requires i in w.rows && RowInv(w.rows[i]) && w.rows[i].leaseUntil.Some? && w.rows[i].leaseUntil.value >= w.now
    requires e.SweepWrite? ==> w.rows[i].leaseUntil.value > w.now
    ensures i in Next(w, e).rows && Next(w, e).rows[i] == w.rows[i]
  {
    ServiceRow(w, e, i);
  }

  predicate AwaitsTime(r: Schedule, t: Time) {
    (r.status.FailedRetryable? || r.status.QuotaBlocked?) && r.nextRetryAt == Some(t)
  }

  lemma WaitingRow(w: World, e: Event, i: Id, r: Schedule, t: Time)
    requires Inv(w) && Enabled(w, e) && !e.DeleteCommit? && w.now < t && AwaitsTime(r, t)
    requires i in w.rows && RowInv(w.rows[i]) && w.rows[i] in {r, r.(status := Cancelled)}
    ensures i in Next(w, e).rows && Next(w, e).rows[i] in {r, r.(status := Cancelled)}
  {
    if e.Do? || e.Commit? { WorkerRow(w, e, i); } else { ServiceRow(w, e, i); }
  }

  lemma WaitingStep(w: World, e: Event, i: Id, r: Schedule, t: Time)
    requires Inv(w) && Enabled(w, e) && w.now < t && AwaitsTime(r, t)
    requires Made(w, i) && Last(w, i) in {r, r.(status := Cancelled)}
    ensures Made(Next(w, e), i) && Last(Next(w, e), i) in {r, r.(status := Cancelled)}
  {
    if i in w.gone {
      GoneStays(w, e, i);
    } else if i !in Next(w, e).rows {
      GoneTakesNothing(w, e, i);
    } else if !e.DeleteCommit? {
      WaitingRow(w, e, i, r, t);
    }
  }

  lemma {:induction false} RunTime(w: World, events: seq<Event>, w': World)
    requires Run(w, events, w')
    ensures w.now <= w'.now
    decreases |events|
  {
    if events != [] {
      TimeGoesOn(w, events[0]);
      RunTime(Next(w, events[0]), events[1..], w');
    }
  }

  lemma {:induction false} WaitingRun(w: World, events: seq<Event>, w': World, i: Id, r: Schedule, t: Time)
    requires Inv(w) && Run(w, events, w') && w'.now < t && AwaitsTime(r, t)
    requires Made(w, i) && Last(w, i) in {r, r.(status := Cancelled)}
    ensures Made(w', i) && Last(w', i) in {r, r.(status := Cancelled)}
    decreases |events|
  {
    if events != [] {
      RunTime(w, events, w');
      WaitingStep(w, events[0], i, r, t);
      StepKeepsInv(w, events[0]);
      WaitingRun(Next(w, events[0]), events[1..], w', i, r, t);
    }
  }

  /** Before its time for a retry comes, all that happens to a schedule is that it is cancelled or deleted. */
  lemma WaitsUntilDue(w: World, events: seq<Event>, w': World, i: Id)
    requires Reachable(w) && Run(w, events, w') && i in w.rows
    requires (w.rows[i].status.FailedRetryable? || w.rows[i].status.QuotaBlocked?) && w.rows[i].nextRetryAt.Some?
    requires w'.now < w.rows[i].nextRetryAt.value
    ensures Made(w', i) && Last(w', i) in {w.rows[i], w.rows[i].(status := Cancelled)}
  {
    ReachableInv(w);
    WaitingRun(w, events, w', i, w.rows[i], w.rows[i].nextRetryAt.value);
  }

  /** A worker can take the schedule up at this time or later if nothing else happens. */
  ghost predicate ComesUp(w: World, i: Id) {
    exists t, a, token :: ClaimedAt(w, t, a, i, token)
  }

  ghost predicate ClaimedAt(w: World, t: Time, a: Id, i: Id, token: Id) {
    Enabled(w, Tick(t)) && Enabled(Next(w, Tick(t)), Claim(a, i, token))
  }

  /** What a schedule needs for that. */
  predicate CanComeUp(r: Schedule) {
    && r.status !in {Cancelled, Published, Expired, FailedPermanent, RecoveryRequired, AuthRequired}
    && (r.attemptCount < 5 || r.status.QuotaBlocked?
        || (!r.status.Scheduled? && (r.publishRequestedAt.Some? || r.ambiguityDetectedAt.Some?)))
  }

  lemma ClaimedAtIs(w: World, t: Time, a: Id, i: Id, token: Id)
    requires i in w.rows
    ensures ClaimedAt(w, t, a, i, token) <==> t >= w.now && a !in w.workers && token !in w.tokens && Claimable(w.rows[i], t)
  {
  }

  lemma ClaimableThen(r: Schedule, now: Time) returns (t: Time)
    requires RowInv(r)
    ensures t >= now && (CanComeUp(r) ==> Claimable(r, t)) && forall t' :: Claimable(r, t') ==> CanComeUp(r)
  {
    t := Max(now, if r.nextRetryAt.Some? then r.nextRetryAt.value else now);
    if r.leaseUntil.Some? { t := Max(t, r.leaseUntil.value + 1); }
  }

  /**
   Left alone, a schedule comes up for a worker unless it is settled, waits for an operator or for the
   account to be reconnected, or has used up its executions without a trace; the quota's wait is no execution.
   */
  lemma ComesUpIff(w: World, i: Id)
    requires Reachable(w) && i in w.rows
    ensures ComesUp(w, i) <==> CanComeUp(w.rows[i])
  {
    ReachableInv(w);
    var t := ClaimableThen(w.rows[i], w.now);
    if CanComeUp(w.rows[i]) {
      var a := Unused(w.workers.Keys);
      var token := Unused(w.tokens);
      ClaimedAtIs(w, t, a, i, token);
    }
    if t', a, token :| ClaimedAt(w, t', a, i, token) { ClaimedAtIs(w, t', a, i, token); }
  }

  // ---- the calls of the services ----

  /** A schedule becomes CANCELLED exactly by its own workspace's call, as long as it is not begun or is over for now, or by a resolution. */
  lemma CancelledIff(w: World, e: Event, i: Id)
    requires Reachable(w) && Enabled(w, e) && i in w.rows && !w.rows[i].status.Cancelled?
    ensures var r := w.rows[i];
      Made(Next(w, e), i) &&
      (Last(Next(w, e), i).status.Cancelled? <==>
        || (e == Cancel(r.workspace, i) && r.status in {Scheduled, QuotaBlocked, FailedRetryable, AuthRequired}
            && r.publishRequestedAt.None? && r.ambiguityDetectedAt.None?)
        || (e.ResolveUnpublished? && w.pending[e.call] == Resolving(i) && r.status.RecoveryRequired?))
    ensures Last(Next(w, e), i).status.Cancelled? ==> i in Next(w, e).rows && Next(w, e).rows[i] == w.rows[i].(status := Cancelled)
  {
    ReachableInv(w);
    OnlyOperatorsCancel(w, e, i);
    if e.Cancel? || e.ResolveUnpublished? { CancelIs(w, e, i); }
  }

  lemma CancelIs(w: World, e: Event, i: Id)
    requires Enabled(w, e) && (e.Cancel? || e.ResolveUnpublished?) && i in w.rows && !w.rows[i].status.Cancelled?
    ensures var r, w' := w.rows[i], Next(w, e);
      i in w'.rows && w'.rows[i] ==
        if (e == Cancel(r.workspace, i) && r.status in {Scheduled, QuotaBlocked, FailedRetryable, AuthRequired}
            && r.publishRequestedAt.None? && r.ambiguityDetectedAt.None?)
           || (e.ResolveUnpublished? && w.pending[e.call] == Resolving(i) && r.status.RecoveryRequired?)
        then r.(status := Cancelled) else r
  {
    match e {
      case Cancel(_, _) =>
      case ResolveUnpublished(_) =>
    }
  }

  /** A call for another workspace finds nothing to cancel and nothing to resolve. */
  lemma OtherWorkspacesHaveNoSay(w: World, workspace: Id, call: Id, i: Id)
    requires i in w.rows && w.rows[i].workspace != workspace
    ensures Next(w, Cancel(workspace, i)) == w && !Enabled(w, ResolveRead(call, workspace, i))
  {
  }

  /** What a reconnect of the account may put back. */
  predicate Disconnected(r: Schedule, account: Id) {
    r.account == account && r.status.AuthRequired? && r.publishRequestedAt.None? && r.ambiguityDetectedAt.None?
  }

  /** Putting it back would leave two active schedules of one draft and account. */
  predicate Clashes(rows: Schedules, account: Id, i: Id)
    requires i in rows
  {
    Disconnected(rows[i], account)
    && exists j :: j in rows && j != i && rows[j].draft == rows[i].draft && rows[j].account == account
                   && (Disconnected(rows[j], account)
                       || rows[j].status !in {Cancelled, Published, Expired, FailedPermanent, AuthRequired})
  }

  lemma ClashesIff(rows: Schedules, account: Id)
    ensures Competing(rows, account) <==> exists i :: i in rows && Clashes(rows, account, i)
  {
    if i, j :| i in rows && j in rows && i != j && Restorable(rows[i], account)
               && (Active(rows[j].status) || Restorable(rows[j], account))
               && rows[j].account == account && rows[j].draft == rows[i].draft {
      assert Clashes(rows, account, i);
    }
    if i :| i in rows && Clashes(rows, account, i) {
      var j :| j in rows && j != i && rows[j].draft == rows[i].draft && rows[j].account == account
               && (Disconnected(rows[j], account)
                   || rows[j].status !in {Cancelled, Published, Expired, FailedPermanent, AuthRequired});
      assert Restorable(rows[i], account) && (Active(rows[j].status) || Restorable(rows[j], account));
    }
  }

  lemma RestoredIs(w: World, account: Id)
    ensures var w', after := Next(w, Reconnect(account)), Restored(w.rows, account);
      if ActiveUnique(after) then w' == w.(rows := after) else w' == w
    ensures var after := Restored(w.rows, account);
      after.Keys == w.rows.Keys
      && forall i | i in w.rows :: after[i] == if Disconnected(w.rows[i], account) then w.rows[i].(status := Scheduled) else w.rows[i]
  {
  }

  /** A reconnect puts back to SCHEDULED every schedule of the account that lost its authorization without a trace, or none. */
  lemma ReconnectDoes(w: World, account: Id)
    requires Reachable(w)
    ensures var w' := Next(w, Reconnect(account));
      if exists i :: i in w.rows && Clashes(w.rows, account, i) then w' == w
      else
        && w' == w.(rows := w'.rows) && w'.rows.Keys == w.rows.Keys
        && forall i | i in w.rows :: w'.rows[i] == if Disconnected(w.rows[i], account) then w.rows[i].(status := Scheduled) else w.rows[i]
  {
    ReconnectFailsIff(w, account);
    ClashesIff(w.rows, account);
    RestoredIs(w, account);
  }

  lemma SweepBegins(w: World, call: Id, i: Id)
    requires i in w.rows && RowInv(w.rows[i])
    ensures var r := w.rows[i];
      Enabled(w, SweepRead(call, i)) <==> call !in w.pending && SweptFor(r, w.now)
  {
  }

  /** Its lease is over, and it has used up its executions without a trace. */
  predicate SweptFor(r: Schedule, now: Time) {
    && r.status in {Claimed, CreatingContainer, ContainerCreated, Publishing}
    && r.leaseUntil.Some? && r.leaseUntil.value <= now && r.attemptCount >= 5
    && r.publishRequestedAt.None? && r.ambiguityDetectedAt.None?
  }

  lemma SweepWrites(w: World, call: Id, i: Id)
    requires Inv(w) && i in w.rows && Enabled(w, SweepWrite(call))
    ensures i in Next(w, SweepWrite(call)).rows
    ensures var r, r' := w.rows[i], Next(w, SweepWrite(call)).rows[i];
      r' == if w.pending[call].schedule == i && r == w.pending[call].seen
            then r.(status := FailedPermanent, attemptId := None, leaseUntil := None) else r
  {
    assert PendingOk(w.pending[call], w);
  }

  /**
   The sweep begins with schedules whose lease is over and that have used up their executions without a
   trace, and fails the one it has found unless that has changed, which only another sweep can do.
   */
  lemma SweepFailsIff(w: World, call: Id, i: Id)
    requires Reachable(w) && i in w.rows
    ensures Enabled(w, SweepRead(call, i)) <==> call !in w.pending && SweptFor(w.rows[i], w.now)
    ensures Enabled(w, SweepWrite(call)) ==>
      && i in Next(w, SweepWrite(call)).rows
      && var r, r' := w.rows[i], Next(w, SweepWrite(call)).rows[i];
         r' == if w.pending[call].schedule == i && SweptFor(r, w.now)
               then r.(status := FailedPermanent, attemptId := None, leaseUntil := None) else r
  {
    ReachableInv(w);
    SweepBegins(w, call, i);
    if Enabled(w, SweepWrite(call)) {
      SweepWrites(w, call, i);
      assert PendingOk(w.pending[call], w);
    }
  }

  // ---- how a schedule is begun ----

  /** Made for its time, and nothing done for it. */
  predicate Fresh(r: Schedule) {
    r == Schedule(r.workspace, r.draft, r.account, r.version, r.key, r.fingerprint, r.scheduledAt,
                  Scheduled, None, None, 0, None, 0, None, None, None)
  }

  /**
   What is asked before a schedule is made: a draft that is there, for a call that it is not published to
   the account and has no unsettled schedule for it but one that lost its authorization; for the operator
   that it is published nowhere and has no schedule in one of four states, which leave out five others
   that are active.
   */
  lemma MadeOnlyAfter(w: World, call: Id, row: Schedule)
    ensures Enabled(w, CreateRead(call, row)) <==>
      && call !in w.pending && Fresh(row) && row.draft !in w.erased && (row.draft, row.account) !in w.posts
      && forall i | i in w.rows && w.rows[i].draft == row.draft && w.rows[i].account == row.account ::
           w.rows[i].status in {Cancelled, Published, Expired, FailedPermanent, AuthRequired}
    ensures Enabled(w, PlanRead(call, row)) <==>
      && call !in w.pending && Fresh(row) && row.draft !in w.erased && (forall k | k in w.posts :: k.0 != row.draft)
      && forall i | i in w.rows && w.rows[i].draft == row.draft ::
           w.rows[i].status !in {Scheduled, Claimed, Publishing, Published}
  {
    assert IsNew(row) <==> Fresh(row);
  }

  // ---- what stays unique and what stays written ----

  ghost predicate Slots(rows: Schedules) {
    forall i, j | i in rows && j in rows && i != j ::
      && !(rows[i].account == rows[j].account && rows[i].scheduledAt == rows[j].scheduledAt)
      && !(rows[i].workspace == rows[j].workspace && rows[i].key == rows[j].key)
  }

  lemma CreationKeepsSlots(w: World, call: Id, id: Id)
    requires Slots(w.rows) && Enabled(w, CreateCommit(call, id))
    ensures Slots(Next(w, CreateCommit(call, id)).rows)
  {
  }

  lemma StepKeepsSlots(w: World, e: Event)
    requires Inv(w) && Enabled(w, e) && Slots(w.rows)
    ensures Slots(Next(w, e).rows)
  {
    if e.CreateCommit? {
      CreationKeepsSlots(w, e.call, e.schedule);
    } else {
      var w' := Next(w, e);
      forall i | i in w'.rows ensures i in w.rows && SameSchedule(w.rows[i], w'.rows[i]) {
        if i !in w.rows { NewRowIsNew(w, e, i); }
        Persists(w, e, i);
      }
    }
  }

  lemma {:induction false} RunKeepsSlots(w: World, events: seq<Event>, w': World)
    requires Inv(w) && Run(w, events, w') && Slots(w.rows)
    ensures Slots(w'.rows)
    decreases |events|
  {
    if events != [] {
      StepKeepsInv(w, events[0]);
      StepKeepsSlots(w, events[0]);
      RunKeepsSlots(Next(w, events[0]), events[1..], w');
    }
  }

  /** Two schedules never share an account and a time, nor a workspace and an idempotency key. */
  lemma SlotsAreUnique(w: World, i: Id, j: Id)
    requires Reachable(w) && i in w.rows && j in w.rows && i != j
    ensures w.rows[i].account == w.rows[j].account ==> w.rows[i].scheduledAt != w.rows[j].scheduledAt
    ensures w.rows[i].workspace == w.rows[j].workspace ==> w.rows[i].key != w.rows[j].key
  {
    var w0, events :| Initial(w0) && Run(w0, events, w);
    RunKeepsSlots(w0, events, w);
  }

  lemma ActKeepsTimes(k: Worker, act: Act, r: Schedule, now: Time)
    requires k.Working? && React(k, act).Some? && React(k, act).value.update.Some? && RowInv(r) && Knows(k, r)
    ensures KeepsTimes(r, Apply(React(k, act).value.update.value, r, now))
  {
  }

  predicate KeepsTimes(r: Schedule, r': Schedule) {
    (r.publishRequestedAt.Some? ==> r'.publishRequestedAt == r.publishRequestedAt)
    && (r.ambiguityDetectedAt.Some? ==> r'.ambiguityDetectedAt == r.ambiguityDetectedAt)
  }

  lemma StepKeepsTimes(w: World, e: Event, i: Id)
    requires Inv(w) && Enabled(w, e) && Made(w, i)
    ensures Made(Next(w, e), i) && KeepsTimes(Last(w, i), Last(Next(w, e), i))
  {
    Persists(w, e, i);
    if i in w.gone {
      GoneStays(w, e, i);
    } else if i !in Next(w, e).rows {
      GoneTakesNothing(w, e, i);
    } else if e.Do? || e.Commit? {
      WorkerRow(w, e, i);
      var k := w.workers[e.worker];
      assert About(k, w);
      if e.Do? && React(k, e.act).value.update.Some? && k.schedule == i && Fenced(w.rows[i], k.token, w.now) {
        ActKeepsTimes(k, e.act, w.rows[i], w.now);
      }
    } else if !e.DeleteCommit? {
      ServiceRow(w, e, i);
    }
  }

  /** The times of the request and of the first suspicion, once written, stay as they are in every run. */
  lemma {:induction false} TraceTimesStay(w: World, events: seq<Event>, w': World, i: Id)
    requires Inv(w) && Run(w, events, w') && Made(w, i)
    ensures Made(w', i)
    ensures Last(w, i).publishRequestedAt.Some? ==> Last(w', i).publishRequestedAt == Last(w, i).publishRequestedAt
    ensures Last(w, i).ambiguityDetectedAt.Some? ==> Last(w', i).ambiguityDetectedAt == Last(w, i).ambiguityDetectedAt
    decreases |events|
  {
    if events != [] {
      StepKeepsTimes(w, events[0], i);
      StepKeepsInv(w, events[0]);
      TraceTimesStay(Next(w, events[0]), events[1..], w', i);
    }
  }
}
