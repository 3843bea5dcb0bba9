/**
 Runs of scheduled publishing that can always be continued: how a schedule is brought out of the active
 states, how one is made, and how one is brought to be sent, from any world that keeps the invariants.
 */
module PublishingRuns {
  import opened Common
  import opened ScheduleStatus
  import opened PublishingTables
  import opened PublishingProtocol
  import opened PublishingSteps
  import opened PublishingSafety

  ghost predicate Leads(w: World, w': World) {
    exists events :: Run(w, events, w')
  }

  lemma {:induction false} RunSnoc(w: World, events: seq<Event>, w': World, e: Event)
    requires Run(w, events, w') && Enabled(w', e)
    ensures Run(w, events + [e], Next(w', e))
    decreases |events|
  {
    if events == [] {
      assert (events + [e])[1..] == [];
    } else {
      RunSnoc(Next(w, events[0]), events[1..], w', e);
      assert (events + [e])[1..] == events[1..] + [e];
    }
  }

  // ---- clocks in step ----

  predicate ReadsClock(act: Act) {
    act.Guard? || act.QuotaExhausted? || act.ContainerAnswered? || act.Request? || act.CallAnswered? || act.Handle?
  }

  /** Every reading of the application's clock that the step carries agrees with the database's clock. */
  predicate InStep(w: World, e: Event) {
    e.Do? && ReadsClock(e.act) ==> e.act.appNow == w.now
  }

  ghost predicate RunInStep(w: World, events: seq<Event>, w': World)
    decreases |events|
  {
    if events == [] then w == w'
    else Enabled(w, events[0]) && InStep(w, events[0]) && RunInStep(Next(w, events[0]), events[1..], w')
  }

  lemma {:induction false} InStepIsRun(w: World, events: seq<Event>, w': World)
    requires RunInStep(w, events, w')
    ensures Run(w, events, w')
    decreases |events|
  {
    if events != [] { InStepIsRun(Next(w, events[0]), events[1..], w'); }
  }

  lemma {:induction false} InStepSnoc(w: World, events: seq<Event>, w': World, e: Event)
    requires RunInStep(w, events, w') && Enabled(w', e) && InStep(w', e)
    ensures RunInStep(w, events + [e], Next(w', e))
    decreases |events|
  {
    if events == [] {
      assert (events + [e])[1..] == [];
    } else {
      InStepSnoc(Next(w, events[0]), events[1..], w', e);
      assert (events + [e])[1..] == events[1..] + [e];
    }
  }

  ghost predicate LeadsInStep(w: World, w': World) {
    exists events :: RunInStep(w, events, w')
  }

  /** Where a run starts, and whether the two clocks agree in all its steps. */
  datatype Origin = Origin(world: World, inStep: bool)

  /** A world that a reachable one leads to. */
  ghost predicate After(o: Origin, w: World) {
    Reachable(o.world) && if o.inStep then LeadsInStep(o.world, w) else Leads(o.world, w)
  }

  lemma Here(o: Origin)
    requires Reachable(o.world)
    ensures After(o, o.world)
  {
    assert Run(o.world, [], o.world) && RunInStep(o.world, [], o.world);
  }

  lemma AfterLeads(o: Origin, w: World)
    requires After(o, w)
    ensures Leads(o.world, w)
  {
    if o.inStep {
      var events :| RunInStep(o.world, events, w);
      InStepIsRun(o.world, events, w);
    }
  }

  lemma AfterInv(o: Origin, w: World)
    requires After(o, w)
    ensures Inv(w)
  {
    AfterLeads(o, w);
    ReachableInv(o.world);
    var events :| Run(o.world, events, w);
    RunKeepsInv(o.world, events, w);
  }

  lemma Step(o: Origin, w: World, e: Event) returns (w': World)
    requires After(o, w) && Enabled(w, e) && (o.inStep ==> InStep(w, e))
    ensures w' == Next(w, e) && After(o, w')
  {
    w' := Next(w, e);
    if o.inStep {
      var events :| RunInStep(o.world, events, w);
      InStepSnoc(o.world, events, w, e);
    } else {
      var events :| Run(o.world, events, w);
      RunSnoc(o.world, events, w, e);
    }
  }

  /** All but the schedules, the clock and the history of attempts is as it was. */
  predicate Around(w: World, w': World) {
    w'.posts == w.posts && w'.workers == w.workers && w'.pending == w.pending && w'.calls == w.calls
    && w'.gone == w.gone && w'.erased == w.erased && w'.now >= w.now
  }

  predicate Beside(w: World, w': World, j: Id) {
    Around(w, w') && j in w.rows && j in w'.rows && w'.rows == w.rows[j := w'.rows[j]] && SameSchedule(w.rows[j], w'.rows[j])
  }

  lemma Wait(o: Origin, w: World, time: Time) returns (w': World)
    requires After(o, w)
    ensures After(o, w') && w' == w.(now := Max(w.now, time))
  {
    w' := Step(o, w, Tick(Max(w.now, time)));
  }

  // ---- one worker on one schedule ----

  function Taken(r: Schedule, j: Id, token: Id, now: Time): (k: Worker)
    ensures k.Working?
  {
    Begin(Claiming(j, token, r.status.Scheduled? && r.attemptCount == 0), ClaimRow(r, token, now))
  }

  /** A new worker claims a schedule and reads it. */
  lemma Take(o: Origin, w: World, j: Id) returns (w': World, a: Id, token: Id)
    requires After(o, w) && j in w.rows && Claimable(w.rows[j], w.now)
    ensures After(o, w') && a !in w.workers
    ensures w' == w.(rows := w.rows[j := ClaimRow(w.rows[j], token, w.now)], tokens := w.tokens + {token},
                     workers := w.workers[a := Taken(w.rows[j], j, token, w.now)])
  {
    a := Unused(w.workers.Keys);
    token := Unused(w.tokens);
    var v := Step(o, w, Claim(a, j, token));
    w' := Step(o, v, Read(a));
  }

  /** A worker's act that goes ahead. */
  lemma Goes(o: Origin, w: World, a: Id, act: Act) returns (w': World)
    requires After(o, w) && a in w.workers && w.workers[a].Working? && !act.Call?
    requires React(w.workers[a], act).Some? && React(w.workers[a], act).value.go.Some?
    requires o.inStep ==> InStep(w, Do(a, act))
    requires React(w.workers[a], act).value.update.Some? ==> Holds(w, w.workers[a])
    ensures var k, plan := w.workers[a], React(w.workers[a], act).value;
      && After(o, w') && Around(w, w'.(workers := w.workers)) && w'.now == w.now
      && w'.workers == w.workers[a := plan.go.value]
      && w'.rows == if plan.update.Some? then w.rows[k.schedule := Apply(plan.update.value, w.rows[k.schedule], w.now)] else w.rows
  {
    w' := Step(o, w, Do(a, act));
  }

  /** A worker's last act. */
  lemma Ends(o: Origin, w: World, a: Id, act: Act, u: Update) returns (w': World)
    requires After(o, w) && a in w.workers && w.workers[a].Working? && !act.Call?
    requires React(w.workers[a], act) == Stop(u) && Holds(w, w.workers[a]) && (o.inStep ==> InStep(w, Do(a, act)))
    ensures var j := w.workers[a].schedule;
      && After(o, w') && Around(w, w'.(workers := w.workers)) && w'.now == w.now && w'.workers == w.workers - {a}
      && w'.rows == w.rows[j := Apply(u, w.rows[j], w.now)]
  {
    w' := Step(o, w, Do(a, act));
  }

  /** A schedule that can be claimed can end in AUTH_REQUIRED, with its trace or without one. */
  lemma LoseAuth(o: Origin, w: World, j: Id) returns (w': World)
    requires After(o, w) && j in w.rows && Claimable(w.rows[j], w.now)
    ensures After(o, w') && Beside(w, w', j) && w'.rows[j] == Release(w.rows[j], AuthRequired) && w'.now == w.now
  {
    var v, a, token := Take(o, w, j);
    v := Goes(o, v, a, Throw(Auth));
    w' := Ends(o, v, a, Handle(v.now), Finish(AuthRequired));
    assert w'.workers == w.workers;
  }

  // ---- out of the active states ----

  lemma Resolve(o: Origin, w: World, j: Id) returns (w': World)
    requires After(o, w) && j in w.rows && w.rows[j].status.RecoveryRequired?
    ensures After(o, w') && Beside(w, w', j) && w'.rows[j] == w.rows[j].(status := Cancelled)
  {
    var c := Unused(w.pending.Keys);
    var v := Step(o, w, ResolveRead(c, w.rows[j].workspace, j));
    w' := Step(o, v, ResolveUnpublished(c));
    assert w.pending[c := Resolving(j)] - {c} == w.pending;
  }

  lemma Sweep(o: Origin, w: World, j: Id) returns (w': World)
    requires After(o, w) && j in w.rows && Hopeless(w.rows[j], w.now)
    ensures After(o, w') && Beside(w, w', j) && w'.rows[j] == Release(w.rows[j], FailedPermanent)
  {
    var c := Unused(w.pending.Keys);
    var v := Step(o, w, SweepRead(c, j));
    w' := Step(o, v, SweepWrite(c));
    assert w.pending[c := Sweeping(j, w.rows[j])] - {c} == w.pending;
  }

  lemma Retract(o: Origin, w: World, j: Id) returns (w': World)
    requires After(o, w) && j in w.rows && Cancellable(w.rows[j], w.rows[j].workspace)
    ensures After(o, w') && Beside(w, w', j) && w'.rows[j] == w.rows[j].(status := Cancelled)
  {
    w' := Step(o, w, Cancel(w.rows[j].workspace, j));
  }

  lemma RowAfter(o: Origin, w: World, j: Id)
    requires After(o, w) && j in w.rows
    ensures RowInv(w.rows[j])
  {
    AfterInv(o, w);
  }

  lemma WorkerAfter(o: Origin, w: World, a: Id)
    requires After(o, w) && a in w.workers
    ensures About(w.workers[a], w)
  {
    AfterInv(o, w);
  }

  /** Every active schedule can be brought into a state that does not keep its draft. */
  lemma Settle(o: Origin, w: World, j: Id) returns (w': World)
    requires After(o, w) && j in w.rows && Active(w.rows[j].status)
    ensures After(o, w') && Beside(w, w', j) && !Keeps(w'.rows[j].status)
  {
    var r := w.rows[j];
    RowAfter(o, w, j);
    if r.status.RecoveryRequired? {
      w' := Resolve(o, w, j);
    } else if Executing(r.status) {
      var v := Wait(o, w, r.leaseUntil.value + 1);
      if r.attemptCount < MAX_ATTEMPTS || Traced(r) {
        w' := LoseAuth(o, v, j);
      } else {
        w' := Sweep(o, v, j);
      }
    } else if !Traced(r) {
      w' := Retract(o, w, j);
    } else {
      var v := Wait(o, w, if r.nextRetryAt.Some? then r.nextRetryAt.value else w.now);
      w' := LoseAuth(o, v, j);
    }
  }

  /** The schedules of one draft and account after the active one among them, if any, has been settled. */
  predicate SettledFor(w: World, w': World, draft: Id, account: Id) {
    Around(w, w') && w'.rows.Keys == w.rows.Keys
    && (forall i | i in w.rows ::
          SameSchedule(w.rows[i], w'.rows[i])
          && (w'.rows[i] == w.rows[i] || (Active(w.rows[i].status) && !Keeps(w'.rows[i].status))))
    && forall i | i in w'.rows && Of(w'.rows[i]) == (draft, account) :: !Active(w'.rows[i].status)
  }

  lemma SettlePair(o: Origin, w: World, draft: Id, account: Id) returns (w': World)
    requires After(o, w)
    ensures After(o, w') && SettledFor(w, w', draft, account)
  {
    AfterInv(o, w);
    w' := w;
    if j :| j in w.rows && Active(w.rows[j].status) && Of(w.rows[j]) == (draft, account) { w' := Settle(o, w, j); }
  }

  // ---- creation ----

  lemma Make(o: Origin, w: World, row: Schedule) returns (w': World, j: Id)
    requires After(o, w) && MayCreate(w, row) && CanInsert(w.rows, row)
    ensures After(o, w') && Around(w, w') && w'.now == w.now && !Made(w, j) && w'.rows == w.rows[j := row]
  {
    var c := Unused(w.pending.Keys);
    j := Unused(w.rows.Keys + w.gone.Keys);
    var v := Step(o, w, CreateRead(c, row));
    w' := Step(o, v, CreateCommit(c, j));
    assert w.pending[c := Inserting(row)] - {c} == w.pending;
  }

  function NewRow(draft: Id, account: Id, key: Id, scheduledAt: Time): (r: Schedule)
    ensures IsNew(r) && Of(r) == (draft, account)
  {
    Schedule(0, draft, account, 0, key, key, scheduledAt, Scheduled, None, None, 0, None, 0, None, None, None)
  }

  /** A draft that is there and not published to the account can be given a new schedule for it. */
  lemma MakeFor(o: Origin, w: World, draft: Id, account: Id) returns (w': World, j: Id)
    requires After(o, w) && draft !in w.erased && (draft, account) !in w.posts
    requires forall i | i in w.rows && Of(w.rows[i]) == (draft, account) :: !Active(w.rows[i].status)
    ensures After(o, w') && Around(w, w') && !Made(w, j) && j in w'.rows && w'.rows == w.rows[j := w'.rows[j]]
    ensures IsNew(w'.rows[j]) && Of(w'.rows[j]) == (draft, account) && w'.rows[j].scheduledAt >= w'.now
  {
    var keys := set i | i in w.rows :: w.rows[i].key;
    var slots := set i | i in w.rows && w.rows[i].scheduledAt >= w.now :: (w.rows[i].scheduledAt - w.now) as Id;
    var key := Unused(keys);
    var slot := Unused(slots);
    var row := NewRow(draft, account, key, w.now + slot);
    forall i | i in w.rows ensures w.rows[i].key != key && w.rows[i].scheduledAt != w.now + slot {
      assert w.rows[i].key in keys;
      if w.rows[i].scheduledAt >= w.now { assert (w.rows[i].scheduledAt - w.now) as Id in slots; }
    }
    w', j := Make(o, w, row);
  }

  // ---- to the call ----

  /** The platform has been asked to publish `j`, which is for the draft and account of `r`. */
  ghost predicate Asked(o: Origin, w': World, j: Id, r: Schedule) {
    After(o, w') && j in w'.calls && Made(w', j) && Of(Last(w', j)) == Of(r)
  }

  /** What a call leaves as it was. */
  predicate Frames(w: World, w': World) {
    w'.posts == w.posts && w'.pending == w.pending && w'.gone == w.gone && w'.erased == w.erased && w'.now == w.now
  }

  lemma FromCalling(o: Origin, w: World, a: Id) returns (w': World)
    requires After(o, w) && a in w.workers && w.workers[a].Working? && w.workers[a].phase.Calling?
    ensures Asked(o, w', w.workers[a].schedule, w.workers[a].post) && Frames(w, w')
    ensures w'.rows == w.rows && w'.calls == w.calls + [w.workers[a].schedule]
    ensures w'.workers == w.workers[a := w.workers[a].(phase := Called)]
  {
    WorkerAfter(o, w, a);
    w' := Step(o, w, Do(a, Call));
  }

  /** What a worker that has just been granted its call has written. */
  predicate Sent(w: World, w': World, a: Id) {
    && Frames(w, w') && a in w.workers && a in w'.workers && w'.workers[a].Working?
    && w'.workers == w.workers[a := w'.workers[a]] && w'.workers[a].schedule == w.workers[a].schedule
    && w'.workers[a].phase.Called? && Holds(w', w'.workers[a]) && w'.calls == w.calls + [w.workers[a].schedule]
    && w'.workers[a].ambiguous && w'.rows == w.rows[w.workers[a].schedule := w'.rows[w.workers[a].schedule]]
    && w'.rows[w.workers[a].schedule].status.Publishing?
    && w.workers[a].schedule in w.rows
    && SameSchedule(w.rows[w.workers[a].schedule], w'.rows[w.workers[a].schedule])
  }

  lemma FromRequesting(o: Origin, w: World, a: Id) returns (w': World)
    requires After(o, w) && a in w.workers && w.workers[a].Working? && Holds(w, w.workers[a]) && w.workers[a].phase.Requesting?
    ensures Asked(o, w', w.workers[a].schedule, w.workers[a].post) && Sent(w, w', a)
  {
    var v := Goes(o, w, a, Request(w.now));
    w' := FromCalling(o, v, a);
  }

  lemma FromPolling(o: Origin, w: World, a: Id) returns (w': World)
    requires After(o, w) && a in w.workers && w.workers[a].Working? && Holds(w, w.workers[a]) && !w.workers[a].ambiguous
    requires w.workers[a].phase.Polling? || w.workers[a].phase.Asking?
    ensures Asked(o, w', w.workers[a].schedule, w.workers[a].post) && Sent(w, w', a)
  {
    var v := w;
    if w.workers[a].phase.Polling? { v := Goes(o, w, a, Beat); }
    WorkerAfter(o, w, a);
    v := Goes(o, v, a, ContainerAnswered(Finished, v.now));
    w' := FromRequesting(o, v, a);
  }

  lemma FromCreating(o: Origin, w: World, a: Id) returns (w': World)
    requires After(o, w) && a in w.workers && w.workers[a].Working? && Holds(w, w.workers[a]) && !w.workers[a].ambiguous
    requires w.workers[a].phase.Creating?
    ensures Asked(o, w', w.workers[a].schedule, w.workers[a].post) && Sent(w, w', a)
  {
    var v := Goes(o, w, a, ContainerMade(0));
    w' := FromPolling(o, v, a);
  }

  /** A worker that holds its schedule and has what it needs to send it. */
  predicate OnItsWay(k: Worker, r: Schedule, now: Time) {
    k.Working? && Fenced(r, k.token, now)
    && (k.phase.Requesting?
        || (!k.ambiguous
            && (k.phase.Creating? || k.phase.Polling? || k.phase.Asking?
                || (k.phase.Preparing? && (k.post.container.Some? || k.post.containerAttempts < MAX_CONTAINERS)))))
  }

  lemma GoOn(o: Origin, w: World, a: Id) returns (w': World)
    requires After(o, w) && a in w.workers && w.workers[a].schedule in w.rows
    requires OnItsWay(w.workers[a], w.rows[w.workers[a].schedule], w.now)
    ensures Asked(o, w', w.workers[a].schedule, w.workers[a].post) && Sent(w, w', a)
  {
    var phase := w.workers[a].phase;
    if phase.Preparing? {
      var v := Goes(o, w, a, PrepareContainer);
      if v.workers[a].phase.Creating? { w' := FromCreating(o, v, a); } else { w' := FromPolling(o, v, a); }
    } else if phase.Creating? {
      w' := FromCreating(o, w, a);
    } else if phase.Requesting? {
      w' := FromRequesting(o, w, a);
    } else {
      w' := FromPolling(o, w, a);
    }
  }

  /** A schedule that is not settled, bears no trace, and has an execution and a container left. */
  predicate Fit(r: Schedule) {
    !Traced(r) && !Final(r.status) && !r.status.RecoveryRequired? && r.attemptCount < MAX_ATTEMPTS
    && (r.container.Some? || r.containerAttempts < MAX_CONTAINERS)
  }

  /** What the age guard lets pass of a schedule without a trace: neither a late first execution nor one after a day. */
  predicate Timely(r: Schedule, now: Time) {
    && (r.status.Scheduled? && r.attemptCount == 0 ==> r.scheduledAt >= now - LATE_MS)
    && r.scheduledAt >= now - MAX_AGE_MS
  }

  lemma Send(o: Origin, w: World, j: Id) returns (w': World, a: Id)
    requires After(o, w) && j in w.rows && Fit(w.rows[j]) && Claimable(w.rows[j], w.now)
    requires o.inStep ==> Timely(w.rows[j], w.now)
    ensures Asked(o, w', j, w.rows[j]) && Frames(w, w') && a !in w.workers && a in w'.workers && w'.workers[a].Working?
    ensures w'.workers[a].schedule == j && w'.workers[a].phase.Called? && w'.workers[a].ambiguous && Holds(w', w'.workers[a])
    ensures w'.calls == w.calls + [j] && w'.rows == w.rows[j := w'.rows[j]] && w'.rows[j].status.Publishing?
    ensures SameSchedule(w.rows[j], w'.rows[j])
    ensures w'.workers == w.workers[a := w'.workers[a]]
  {
    var v, b, token := Take(o, w, j);
    a := b;
    v := PassGuard(o, v, a, w.rows[j].status.Scheduled? && w.rows[j].attemptCount == 0);
    w' := FromGating(o, v, a);
  }

  lemma FromGating(o: Origin, w: World, a: Id) returns (w': World)
    requires After(o, w) && a in w.workers && w.workers[a].Working? && Holds(w, w.workers[a]) && !w.workers[a].ambiguous
    requires w.workers[a].phase.Gating? && w.workers[a].post.attemptCount < MAX_ATTEMPTS
    requires w.workers[a].post.container.Some? || w.workers[a].post.containerAttempts < MAX_CONTAINERS
    ensures Asked(o, w', w.workers[a].schedule, w.workers[a].post) && Sent(w, w', a)
  {
    var v := Goes(o, w, a, QuotaFree);
    w' := GoOn(o, v, a);
  }

  /** The age guard lets a worker pass; where the clocks need not agree, some reading does. */
  lemma PassGuard(o: Origin, w: World, a: Id, initial: bool) returns (w': World)
    requires After(o, w) && a in w.workers && w.workers[a].Working? && w.workers[a].phase.Guarding? && !w.workers[a].ambiguous
    requires w.workers[a].post.attemptCount < MAX_ATTEMPTS && w.workers[a].initial == initial
    requires o.inStep ==> (initial ==> w.workers[a].post.scheduledAt >= w.now - LATE_MS) && w.workers[a].post.scheduledAt >= w.now - MAX_AGE_MS
    ensures After(o, w') && Around(w, w'.(workers := w.workers)) && w'.now == w.now && w'.rows == w.rows
    ensures w'.workers == w.workers[a := w.workers[a].(phase := Gating)]
  {
    w' := Goes(o, w, a, Guard(if o.inStep then w.now else w.workers[a].post.scheduledAt));
  }
}
