/**
 When the platform can be asked again to publish a draft on an account. A schedule is called for once at
 most; a draft and account may have several schedules, and this says exactly when a further one can be
 called for, with a reachable world for each way it comes about.
 */
module PublishingTwice {
  import opened Common
  import opened ScheduleStatus
  import opened PublishingTables
  import opened PublishingProtocol
  import opened PublishingSteps
  import opened PublishingSafety
  import opened PublishingRuns

  /** A call for the draft and account can come in some run, by a schedule not called for yet. */
  ghost predicate FurtherCall(w: World, draft: Id, account: Id) {
    exists w', j :: Leads(w, w') && j in w'.calls && j !in w.calls && Made(w', j) && Of(Last(w', j)) == (draft, account)
  }

  /** The same by a run in which the application's clock agrees with the database's. */
  ghost predicate FurtherCallInStep(w: World, draft: Id, account: Id) {
    exists w', j :: LeadsInStep(w, w') && j in w'.calls && j !in w.calls && Made(w', j) && Of(Last(w', j)) == (draft, account)
  }

  ghost predicate Follows(o: Origin, draft: Id, account: Id) {
    FurtherCall(o.world, draft, account) && (o.inStep ==> FurtherCallInStep(o.world, draft, account))
  }

  // ---- the ways ----

  predicate Collides(r: Schedule, row: Schedule) {
    (r.workspace == row.workspace && r.key == row.key) || (r.account == row.account && r.scheduledAt == row.scheduledAt)
  }

  /** What holds the row's key or slot belongs to a draft that can still be deleted. */
  predicate Insertable(w: World, row: Schedule) {
    forall i | i in w.rows && Collides(w.rows[i], row) :: !HasPost(w.posts, w.rows[i].draft)
  }

  predicate Unpublished(w: World, draft: Id, account: Id) {
    draft !in w.erased && (draft, account) !in w.posts
  }

  predicate Awaited(w: World, c: Id, draft: Id, account: Id)
    requires c in w.pending
  {
    w.pending[c].Inserting? && Of(w.pending[c].row) == (draft, account) && Insertable(w, w.pending[c].row)
  }

  /** A scheduling call has made its checks and not yet inserted. */
  predicate InsertionPending(w: World, draft: Id, account: Id) {
    draft !in w.erased && exists c | c in w.pending :: Awaited(w, c, draft, account)
  }

  /** A schedule not called for has an execution left, or a worker is on its way with it. */
  predicate Sendable(w: World, j: Id)
    requires j in w.rows
  {
    Fit(w.rows[j])
    || exists b | b in w.workers :: w.workers[b].schedule == j && OnItsWay(w.workers[b], w.rows[j], w.now)
  }

  /** A worker has passed the age guard with the schedule it holds and counts its execution next. */
  predicate PastGuard(k: Worker, r: Schedule, now: Time) {
    k.Working? && k.phase.Gating? && !k.ambiguous && Fenced(r, k.token, now)
  }

  /** A worker has the schedule in hand and no clock stands between it and the call. */
  predicate Engaged(w: World, j: Id)
    requires j in w.rows
  {
    exists b | b in w.workers ::
      w.workers[b].schedule == j
      && (OnItsWay(w.workers[b], w.rows[j], w.now) || (Fit(w.rows[j]) && PastGuard(w.workers[b], w.rows[j], w.now)))
  }

  predicate EngagedFor(w: World, draft: Id, account: Id) {
    exists j | j in w.rows :: Of(w.rows[j]) == (draft, account) && Engaged(w, j)
  }

  predicate ScheduleLeft(w: World, draft: Id, account: Id) {
    exists j | j in w.rows :: Of(w.rows[j]) == (draft, account) && Sendable(w, j)
  }

  predicate Commits(k: Worker, draft: Id, account: Id) {
    k.Working? && k.phase.Calling? && Of(k.post) == (draft, account)
  }

  /** A worker has put its request on record and not yet sent it. */
  predicate CallPending(w: World, draft: Id, account: Id) {
    exists b | b in w.workers :: Commits(w.workers[b], draft, account)
  }

  predicate Open(w: World, draft: Id, account: Id) {
    || Unpublished(w, draft, account)
    || InsertionPending(w, draft, account)
    || ScheduleLeft(w, draft, account)
    || CallPending(w, draft, account)
  }

  // ---- each way leads to a call ----

  lemma Further(o: Origin, w: World, j: Id, r: Schedule)
    requires Asked(o, w, j, r) && j !in o.world.calls
    ensures Follows(o, r.draft, r.account)
  {
    AfterLeads(o, w);
  }

  lemma CalledAreMade(o: Origin, w: World)
    requires After(o, w)
    ensures forall j | j in w.calls :: Made(w, j)
  {
    AfterInv(o, w);
  }

  lemma SendNew(o: Origin, w: World, j: Id)
    requires After(o, w) && j in w.rows && IsNew(w.rows[j]) && j !in o.world.calls
    requires o.inStep ==> w.rows[j].scheduledAt >= w.now
    ensures Follows(o, w.rows[j].draft, w.rows[j].account)
  {
    var w', _ := Send(o, w, j);
    Further(o, w', j, w.rows[j]);
  }

  /** As long as the draft is there and not published to the account, another call can follow, whatever has happened. */
  lemma UnpublishedLeads(o: Origin, draft: Id, account: Id)
    requires Reachable(o.world) && Unpublished(o.world, draft, account)
    ensures Follows(o, draft, account)
  {
    Here(o);
    var w := SettlePair(o, o.world, draft, account);
    CalledAreMade(o, w);
    var w', j := MakeFor(o, w, draft, account);
    SendNew(o, w', j);
  }

  // -- a pending insertion

  predicate Lively(w: World, draft: Id, i: Id) {
    i in w.rows && w.rows[i].draft == draft && Active(w.rows[i].status)
  }

  /** All schedules of an unpublished draft can be settled, and the draft deleted. */
  lemma {:induction false} SettleDraft(o: Origin, w: World, draft: Id) returns (w': World)
    requires After(o, w)
    ensures After(o, w') && Around(w, w') && w'.rows.Keys == w.rows.Keys
    ensures forall i | i in w.rows :: SameSchedule(w.rows[i], w'.rows[i])
    ensures forall i | i in w'.rows && w'.rows[i].draft == draft :: !Active(w'.rows[i].status)
    decreases |set i | i in w.rows && Lively(w, draft, i)|
  {
    w' := w;
    if j :| Lively(w, draft, j) {
      var v := Settle(o, w, j);
      var before, after := set i | i in w.rows && Lively(w, draft, i), set i | i in v.rows && Lively(v, draft, i);
      assert after <= before - {j};
      Fewer(after, before, j);
      w' := SettleDraft(o, v, draft);
    } else {
      forall i | i in w'.rows && w'.rows[i].draft == draft ensures !Active(w'.rows[i].status) {
        assert !Lively(w, draft, i);
      }
    }
  }

  lemma Fewer(s: set<Id>, t: set<Id>, x: Id)
    requires s <= t - {x} && x in t
    ensures |s| < |t|
  {
    Subset(s, t - {x});
  }

  lemma {:induction false} Subset(s: set<Id>, t: set<Id>)
    requires s <= t
    ensures |s| <= |t|
    decreases s
  {
    if x :| x in s { Subset(s - {x}, t - {x}); }
  }

  lemma PublishedHasPost(o: Origin, w: World, i: Id)
    requires After(o, w) && i in w.rows && w.rows[i].status.Published?
    ensures HasPost(w.posts, w.rows[i].draft)
  {
    AfterInv(o, w);
    assert (w.rows[i].draft, w.rows[i].account) in w.posts;
  }

  lemma Erase(o: Origin, w: World, draft: Id) returns (w': World)
    requires After(o, w) && draft !in w.erased && !HasPost(w.posts, draft)
    ensures After(o, w') && w'.posts == w.posts && w'.pending == w.pending && w'.calls == w.calls
    ensures w'.rows.Keys <= w.rows.Keys && forall i | i in w'.rows :: SameSchedule(w.rows[i], w'.rows[i])
    ensures forall i | i in w.rows && w.rows[i].draft == draft :: i !in w'.rows
  {
    var v := SettleDraft(o, w, draft);
    forall i | i in v.rows && v.rows[i].draft == draft ensures !Keeps(v.rows[i].status) {
      if v.rows[i].status.Published? { PublishedHasPost(o, v, i); }
    }
    var c := Unused(v.pending.Keys);
    var u := Step(o, v, DeleteRead(c, draft));
    w' := Step(o, u, DeleteCommit(c));
    assert v.pending[c := u.pending[c]] - {c} == v.pending;
    assert Deletes(u, draft, u.pending[c].found);
  }

  lemma {:induction false} FreeSlot(o: Origin, w: World, row: Schedule) returns (w': World)
    requires After(o, w) && HasPost(w.posts, row.draft) && Insertable(w, row)
    ensures After(o, w') && w'.posts == w.posts && w'.pending == w.pending && w'.calls == w.calls
    ensures forall i | i in w'.rows :: !Collides(w'.rows[i], row)
    decreases |w.rows|
  {
    w' := w;
    if x :| x in w.rows && Collides(w.rows[x], row) {
      NotErased(o, w, x);
      var v := Erase(o, w, w.rows[x].draft);
      Fewer(v.rows.Keys, w.rows.Keys, x);
      assert |v.rows| == |v.rows.Keys| && |w.rows| == |w.rows.Keys|;
      w' := FreeSlot(o, v, row);
    }
  }

  lemma NotErased(o: Origin, w: World, i: Id)
    requires After(o, w) && i in w.rows
    ensures w.rows[i].draft !in w.erased
  {
    AfterInv(o, w);
  }

  lemma PostedNotErased(o: Origin, w: World, draft: Id, account: Id)
    requires After(o, w) && (draft, account) in w.posts
    ensures draft !in w.erased
  {
    AfterInv(o, w);
  }

  lemma AwaitedIsNew(o: Origin, w: World, c: Id)
    requires After(o, w) && c in w.pending && w.pending[c].Inserting?
    ensures IsNew(w.pending[c].row)
  {
    AfterInv(o, w);
    assert PendingOk(w.pending[c], w);
  }

  /** A call whose checks came before the publication inserts after it. */
  lemma AwaitedLeads(o: Origin, c: Id, draft: Id, account: Id)
    requires Reachable(o.world) && !o.inStep
    requires c in o.world.pending && Awaited(o.world, c, draft, account) && (draft, account) in o.world.posts
    ensures Follows(o, draft, account)
  {
    Here(o);
    var row := o.world.pending[c].row;
    var w := FreeSlot(o, o.world, row);
    w := SettlePair(o, w, draft, account);
    CalledAreMade(o, w);
    PostedNotErased(o, w, draft, account);
    AwaitedIsNew(o, w, c);
    var j := Unused(w.rows.Keys + w.gone.Keys);
    var v := Step(o, w, CreateCommit(c, j));
    SendNew(o, v, j);
  }

  // -- a schedule that is left

  predicate Blocked(w: World, account: Id, j: Id, i: Id) {
    i in w.rows && i != j && Restorable(w.rows[i], account)
  }

  /** All other schedules a reconnect would put back can be cancelled before. */
  lemma {:induction false} ClearAccount(o: Origin, w: World, account: Id, j: Id) returns (w': World)
    requires After(o, w) && j in w.rows
    ensures After(o, w') && w'.rows.Keys == w.rows.Keys && w'.rows[j] == w.rows[j]
    ensures forall i | i in w.rows :: SameSchedule(w.rows[i], w'.rows[i]) && (Active(w'.rows[i].status) ==> Active(w.rows[i].status))
    ensures forall i | i in w'.rows && i != j :: !Restorable(w'.rows[i], account)
    decreases |set i | i in w.rows && Blocked(w, account, j, i)|
  {
    w' := w;
    if x :| Blocked(w, account, j, x) {
      var v := Retract(o, w, x);
      var before, after := set i | i in w.rows && Blocked(w, account, j, i), set i | i in v.rows && Blocked(v, account, j, i);
      assert after <= before - {x};
      Fewer(after, before, x);
      w' := ClearAccount(o, v, account, j);
    } else {
      forall i | i in w'.rows && i != j ensures !Restorable(w'.rows[i], account) {
        assert !Blocked(w, account, j, i);
      }
    }
  }

  lemma ActiveAfter(o: Origin, w: World)
    requires After(o, w)
    ensures ActiveUnique(w.rows)
  {
    AfterInv(o, w);
  }

  /** A reconnect puts a schedule back that waits for it. */
  lemma Unblock(o: Origin, w: World, j: Id) returns (w': World)
    requires After(o, w) && j in w.rows && w.rows[j].status.AuthRequired? && !Traced(w.rows[j])
    ensures After(o, w') && j in w'.rows && w'.rows[j] == w.rows[j].(status := Scheduled)
  {
    var r := w.rows[j];
    var u := SettlePair(o, w, r.draft, r.account);
    var v := ClearAccount(o, u, r.account, j);
    ActiveAfter(o, v);
    forall i | i in v.rows && Of(v.rows[i]) == Of(r) ensures !Active(v.rows[i].status) {
      assert Of(u.rows[i]) == Of(r);
    }
    assert ActiveUnique(Restored(v.rows, r.account));
    w' := Step(o, v, Reconnect(r.account));
  }

  lemma FitLeads(o: Origin, j: Id)
    requires Reachable(o.world) && !o.inStep && j in o.world.rows && Fit(o.world.rows[j]) && j !in o.world.calls
    ensures Follows(o, o.world.rows[j].draft, o.world.rows[j].account)
  {
    var r, w := o.world.rows[j], o.world;
    Here(o);
    RowAfter(o, w, j);
    if r.status.AuthRequired? {
      w := Unblock(o, w, j);
    } else if Executing(r.status) {
      w := Wait(o, w, r.leaseUntil.value + 1);
    } else {
      w := Wait(o, w, if r.nextRetryAt.Some? then r.nextRetryAt.value else w.now);
    }
    var w', _ := Send(o, w, j);
    Further(o, w', j, r);
  }

  lemma SendableIsNotCalled(w: World, j: Id)
    requires Reachable(w) && j in w.rows && Sendable(w, j)
    ensures j !in w.calls
  {
    ReachableInv(w);
    assert j in w.calls ==> Last(w, j).publishRequestedAt.Some?;
    if !Fit(w.rows[j]) {
      var b :| b in w.workers && w.workers[b].schedule == j && OnItsWay(w.workers[b], w.rows[j], w.now);
      assert About(w.workers[b], w);
    }
  }

  lemma WorkerLeads(o: Origin, b: Id)
    requires Reachable(o.world) && b in o.world.workers && o.world.workers[b].schedule in o.world.rows
    requires o.world.workers[b].schedule !in o.world.calls
    requires OnItsWay(o.world.workers[b], o.world.rows[o.world.workers[b].schedule], o.world.now)
    ensures var r := o.world.rows[o.world.workers[b].schedule]; Follows(o, r.draft, r.account)
  {
    Here(o);
    WorkerAfter(o, o.world, b);
    var w' := GoOn(o, o.world, b);
    Further(o, w', o.world.workers[b].schedule, o.world.workers[b].post);
  }

  lemma LeftLeads(o: Origin, j: Id)
    requires Reachable(o.world) && !o.inStep && j in o.world.rows && Sendable(o.world, j)
    ensures Follows(o, o.world.rows[j].draft, o.world.rows[j].account)
  {
    var w := o.world;
    SendableIsNotCalled(w, j);
    if Fit(w.rows[j]) {
      FitLeads(o, j);
    } else {
      var b :| b in w.workers && w.workers[b].schedule == j && OnItsWay(w.workers[b], w.rows[j], w.now);
      WorkerLeads(o, b);
    }
  }

  lemma PendingLeads(o: Origin, b: Id)
    requires Reachable(o.world) && b in o.world.workers && o.world.workers[b].Working? && o.world.workers[b].phase.Calling?
    ensures Follows(o, o.world.workers[b].post.draft, o.world.workers[b].post.account)
  {
    Here(o);
    WorkerAfter(o, o.world, b);
    var w' := FromCalling(o, o.world, b);
    Further(o, w', o.world.workers[b].schedule, o.world.workers[b].post);
  }

  lemma OpenLeads(w: World, draft: Id, account: Id)
    requires Reachable(w) && Open(w, draft, account)
    ensures FurtherCall(w, draft, account)
  {
    var o := Origin(w, false);
    if Unpublished(w, draft, account) {
      UnpublishedLeads(o, draft, account);
    } else if InsertionPending(w, draft, account) {
      var c :| c in w.pending && Awaited(w, c, draft, account);
      AwaitedLeads(o, c, draft, account);
    } else if ScheduleLeft(w, draft, account) {
      var j :| j in w.rows && Of(w.rows[j]) == (draft, account) && Sendable(w, j);
      LeftLeads(o, j);
    } else {
      var b :| b in w.workers && Commits(w.workers[b], draft, account);
      PendingLeads(o, b);
    }
  }

  // ---- and there is no other way ----

  lemma ErasedGrows(w: World, e: Event)
    requires Enabled(w, e)
    ensures w.erased <= Next(w, e).erased
  {
    if !e.DeleteCommit? { GoneElsewhere(w, e); }
  }

  lemma UnpublishedBefore(w: World, e: Event, draft: Id, account: Id)
    requires Inv(w) && Enabled(w, e) && Unpublished(Next(w, e), draft, account)
    ensures Unpublished(w, draft, account)
  {
    ErasedGrows(w, e);
    if (draft, account) in w.posts { PostsGrow(w, e, (draft, account)); }
  }

  /** A published draft keeps its schedules. */
  lemma PostedStays(w: World, e: Event, i: Id)
    requires Inv(w) && Enabled(w, e) && i in w.rows && HasPost(w.posts, w.rows[i].draft)
    ensures i in Next(w, e).rows && SameSchedule(w.rows[i], Next(w, e).rows[i])
    ensures HasPost(Next(w, e).posts, w.rows[i].draft)
  {
    var k :| k in w.posts && k.0 == w.rows[i].draft;
    PostsGrow(w, e, k);
    Persists(w, e, i);
    if e.DeleteCommit? { DeletionSparesPosted(w, e.call, i); } else { RowsStay(w, e, i); }
  }

  lemma DeletionSparesPosted(w: World, call: Id, i: Id)
    requires SweepsInv(w) && Enabled(w, DeleteCommit(call)) && i in w.rows && HasPost(w.posts, w.rows[i].draft)
    ensures i in Next(w, DeleteCommit(call)).rows
  {
    assert PendingOk(w.pending[call], w);
    assert i in w.pending[call].found ==> Made(w, i);
  }

  /** A new pending insertion has passed its checks, an older one finds no slot freed that was taken for good. */
  lemma InsertionBefore(w: World, e: Event, c: Id, draft: Id, account: Id)
    requires Inv(w) && Enabled(w, e) && c in Next(w, e).pending && Awaited(Next(w, e), c, draft, account)
    requires draft !in Next(w, e).erased
    ensures draft !in w.erased
    ensures Unpublished(w, draft, account)
            || (c in w.pending && w.pending[c] == Next(w, e).pending[c] && Awaited(w, c, draft, account))
  {
    var w' := Next(w, e);
    ErasedGrows(w, e);
    ComesUnpublished(w, e, c);
    if c in w.pending && w.pending[c] == w'.pending[c] {
      var row := w.pending[c].row;
      forall i | i in w.rows && Collides(w.rows[i], row) ensures !HasPost(w.posts, w.rows[i].draft) {
        if HasPost(w.posts, w.rows[i].draft) { PostedStays(w, e, i); }
      }
    }
  }

  // -- schedules

  /** A worker gets on its way only with a schedule that was fit or that it was on its way with. */
  lemma GetsOnItsWay(k: Worker, act: Act, r: Schedule, now: Time)
    requires k.Working? && React(k, act).Some? && RowInv(r) && Knows(k, r)
    ensures var plan := React(k, act).value;
      && (plan.no.Some? ==> !OnItsWay(plan.no.value, r, now))
      && (plan.go.Some? && plan.update.None? && OnItsWay(plan.go.value, r, now) ==> OnItsWay(k, r, now))
      && (plan.go.Some? && plan.update.Some? && Fenced(r, k.token, now)
          && OnItsWay(plan.go.value, Apply(plan.update.value, r, now), now)
          ==> OnItsWay(k, r, now) || (Fit(r) && PastGuard(k, r, now)))
  {
    if act.ContainerAnswered? {
      if k.phase.Asking? { AnswerOnItsWay(k, act.answer, act.appNow, r, now); }
    } else if act.Guard? || act.QuotaExhausted? || act.QuotaFree? || act.PrepareContainer? || act.ContainerMade? || act.Beat? {
      EarlyOnItsWay(k, act, r, now);
    }
  }

  lemma AnswerOnItsWay(k: Worker, answer: ContainerAnswer, appNow: Time, r: Schedule, now: Time)
    requires k.Working? && k.phase.Asking? && AtAnswer(k, answer, appNow).Some?
    ensures var plan := AtAnswer(k, answer, appNow).value;
      && (plan.no.Some? ==> !OnItsWay(plan.no.value, r, now))
      && (plan.go.Some? && plan.update.None? && OnItsWay(plan.go.value, r, now) ==> OnItsWay(k, r, now))
      && (plan.go.Some? && plan.update.Some? ==> plan.go.value.phase.Recovering?)
  {
  }

  lemma EarlyOnItsWay(k: Worker, act: Act, r: Schedule, now: Time)
    requires k.Working? && React(k, act).Some? && RowInv(r) && Knows(k, r)
    requires act.Guard? || act.QuotaExhausted? || act.QuotaFree? || act.PrepareContainer? || act.ContainerMade? || act.Beat?
    ensures var plan := React(k, act).value;
      && plan.no.None?
      && (plan.go.Some? && plan.update.None? && OnItsWay(plan.go.value, r, now) ==> OnItsWay(k, r, now))
      && (plan.go.Some? && plan.update.Some? && Fenced(r, k.token, now)
          && OnItsWay(plan.go.value, Apply(plan.update.value, r, now), now)
          ==> OnItsWay(k, r, now) || (Fit(r) && PastGuard(k, r, now)))
  {
  }

  /** And makes a schedule fit only if it is on its way with it or it was fit. */
  lemma ActFits(k: Worker, act: Act, r: Schedule, now: Time)
    requires k.Working? && React(k, act).Some? && React(k, act).value.update.Some?
    requires RowInv(r) && Knows(k, r) && Fenced(r, k.token, now) && Fit(Apply(React(k, act).value.update.value, r, now))
    ensures Fit(r) || OnItsWay(k, r, now)
  {
    ActKeepsRow(k, act, r, now);
  }

  /** The statement of a service makes a schedule fit only if it was. */
  lemma ServiceFits(w: World, e: Event, i: Id, r: Schedule, r': Schedule)
    requires Enabled(w, e) && ServiceChange(w, e, i, r, r') && Fit(r')
    ensures Fit(r)
  {
  }

  lemma WorkerFits(w: World, e: Event, j: Id)
    requires j in w.rows && RowInv(w.rows[j]) && Enabled(w, e) && (e.Do? || e.Commit?) && About(w.workers[e.worker], w)
    requires j in Next(w, e).rows && Fit(Next(w, e).rows[j])
    ensures Sendable(w, j)
  {
    var k := w.workers[e.worker];
    WorkerRow(w, e, j);
    if e.Do? && Next(w, e).rows[j] != w.rows[j] {
      ActFits(k, e.act, w.rows[j], w.now);
    }
  }

  lemma FitBefore(w: World, e: Event, j: Id)
    requires Inv(w) && Enabled(w, e) && j in w.rows && j in Next(w, e).rows && Fit(Next(w, e).rows[j])
    ensures Sendable(w, j)
  {
    if e.DeleteCommit? {
      DeletionChangesNothing(w, e.call, j);
    } else if e.Do? || e.Commit? {
      assert About(w.workers[e.worker], w);
      WorkerFits(w, e, j);
    } else {
      ServiceRow(w, e, j);
      if Next(w, e).rows[j] != w.rows[j] { ServiceFits(w, e, j, w.rows[j], Next(w, e).rows[j]); }
    }
  }

  lemma DeletionChangesNothing(w: World, call: Id, j: Id)
    requires Enabled(w, DeleteCommit(call)) && j in Next(w, DeleteCommit(call)).rows
    ensures j in w.rows && Next(w, DeleteCommit(call)).rows[j] == w.rows[j]
  {
  }

  lemma OthersWay(w: World, e: Event, b: Id)
    requires Inv(w) && Enabled(w, e) && !Acts(e, b) && b in w.workers && w.workers[b].schedule in w.rows
    requires w.workers[b].schedule in Next(w, e).rows
    requires OnItsWay(w.workers[b], Next(w, e).rows[w.workers[b].schedule], Next(w, e).now)
    ensures OnItsWay(w.workers[b], w.rows[w.workers[b].schedule], w.now)
  {
    TokenIsLost(w, e, b);
    TimeGoesOn(w, e);
  }

  lemma OwnWay(w: World, b: Id, act: Act)
    requires Enabled(w, Do(b, act)) && About(w.workers[b], w) && w.workers[b].schedule in w.rows
    requires RowInv(w.rows[w.workers[b].schedule])
    requires var w' := Carry(w, b, React(w.workers[b], act).value, act.Call?);
      b in w'.workers && OnItsWay(w'.workers[b], w'.rows[w.workers[b].schedule], w'.now)
    ensures Engaged(w, w.workers[b].schedule)
  {
    var k, r := w.workers[b], w.rows[w.workers[b].schedule];
    ActKeepsWorker(k, act);
    CarryWay(w, b, React(k, act).value, act.Call?);
    GetsOnItsWay(k, act, r, w.now);
  }

  lemma CarryWay(w: World, b: Id, plan: Plan, calls: bool)
    requires b in w.workers && w.workers[b].schedule in w.rows && w.workers[b].Working?
    requires forall l: Worker | plan.go == Some(l) || plan.no == Some(l) :: l.Working? && l.token == w.workers[b].token
    requires var w' := Carry(w, b, plan, calls);
      b in w'.workers && OnItsWay(w'.workers[b], w'.rows[w.workers[b].schedule], w'.now)
    ensures var k, r := w.workers[b], w.rows[w.workers[b].schedule];
      && (r.attemptId == Some(k.token))
      && ((plan.update.None? && plan.go.Some? && OnItsWay(plan.go.value, r, w.now))
          || (plan.update.Some? && Fenced(r, k.token, w.now) && plan.go.Some?
              && OnItsWay(plan.go.value, Apply(plan.update.value, r, w.now), w.now))
          || (plan.no.Some? && OnItsWay(plan.no.value, r, w.now)))
  {
  }

  /** A worker on its way after a step was so before, or past the guard with a schedule that is fit. */
  lemma WayBefore(w: World, e: Event, j: Id, b: Id)
    requires Inv(w) && Enabled(w, e) && j in w.rows && j in Next(w, e).rows && b in Next(w, e).workers
    requires Next(w, e).workers[b].schedule == j && OnItsWay(Next(w, e).workers[b], Next(w, e).rows[j], Next(w, e).now)
    ensures Engaged(w, j)
  {
    if !Acts(e, b) {
      OthersStay(w, e, b);
      OthersWay(w, e, b);
    } else if e.Do? {
      assert About(w.workers[b], w);
      ActKeepsWorker(w.workers[b], e.act);
      SameScheduleAfter(w, b, React(w.workers[b], e.act).value, e.act.Call?);
      assert RowInv(w.rows[j]);
      OwnWay(w, b, e.act);
    } else {
      StartsNowhere(w, e, b);
    }
  }

  lemma SameScheduleAfter(w: World, b: Id, plan: Plan, calls: bool)
    requires b in w.workers && b in Carry(w, b, plan, calls).workers
    requires forall l: Worker | plan.go == Some(l) || plan.no == Some(l) :: l.schedule == w.workers[b].schedule
    ensures Carry(w, b, plan, calls).workers[b].schedule == w.workers[b].schedule
  {
  }

  lemma StartsNowhere(w: World, e: Event, b: Id)
    requires Enabled(w, e) && Acts(e, b) && !e.Do? && b in Next(w, e).workers && Next(w, e).workers[b].Working?
    ensures Next(w, e).workers[b].phase.Guarding? || Next(w, e).workers[b].phase.Failing?
  {
  }

  lemma ScheduleBefore(w: World, e: Event, j: Id)
    requires Inv(w) && Enabled(w, e) && j in Next(w, e).rows && Sendable(Next(w, e), j)
    ensures var r := Next(w, e).rows[j]; Open(w, r.draft, r.account)
  {
    var w' := Next(w, e);
    var r := w'.rows[j];
    if j in w.rows {
      Persists(w, e, j);
      assert Of(w.rows[j]) == Of(r);
      if Fit(r) {
        FitBefore(w, e, j);
      } else {
        var b :| b in w'.workers && w'.workers[b].schedule == j && OnItsWay(w'.workers[b], r, w'.now);
        WayBefore(w, e, j, b);
      }
    } else {
      NewRowIsNew(w, e, j);
      InsertedWasAwaited(w, e.call, e.schedule);
    }
  }

  lemma InsertedWasAwaited(w: World, call: Id, id: Id)
    requires Enabled(w, CreateCommit(call, id)) && id in Next(w, CreateCommit(call, id)).rows
    ensures var row := w.pending[call].row; row.draft !in w.erased && Awaited(w, call, row.draft, row.account)
  {
    var row := w.pending[call].row;
    assert CanInsert(w.rows, row) && row.draft !in w.erased;
  }

  // -- calls

  lemma CallBefore(w: World, e: Event, b: Id)
    requires Inv(w) && Enabled(w, e) && b in Next(w, e).workers
    requires Next(w, e).workers[b].Working? && Next(w, e).workers[b].phase.Calling?
    ensures var p := Next(w, e).workers[b].post; CallPending(w, p.draft, p.account) || EngagedFor(w, p.draft, p.account)
  {
    var p := Next(w, e).workers[b].post;
    if !Acts(e, b) {
      OthersStay(w, e, b);
      assert Commits(w.workers[b], p.draft, p.account);
    } else if e.Do? {
      assert About(w.workers[b], w);
      OwnCallBefore(w, b, e.act);
    } else {
      StartsNowhere(w, e, b);
    }
  }

  lemma OwnCallBefore(w: World, b: Id, act: Act)
    requires Enabled(w, Do(b, act)) && About(w.workers[b], w)
    requires var w' := Carry(w, b, React(w.workers[b], act).value, act.Call?);
      b in w'.workers && w'.workers[b].Working? && w'.workers[b].phase.Calling?
    ensures var p := Carry(w, b, React(w.workers[b], act).value, act.Call?).workers[b].post; EngagedFor(w, p.draft, p.account)
  {
    var k, plan := w.workers[b], React(w.workers[b], act).value;
    ActKeepsWorker(k, act);
    RequestBefore(w, b, plan, act.Call?);
    assert OnItsWay(k, w.rows[k.schedule], w.now);
    assert Engaged(w, k.schedule) && Of(w.rows[k.schedule]) == Of(k.post);
  }

  lemma RequestBefore(w: World, b: Id, plan: Plan, calls: bool)
    requires b in w.workers && w.workers[b].Working? && b in Carry(w, b, plan, calls).workers
    requires Carry(w, b, plan, calls).workers[b].Working? && Carry(w, b, plan, calls).workers[b].phase.Calling?
    requires forall l: Worker | plan.go == Some(l) || plan.no == Some(l) :: l.Working? && SameWorker(w.workers[b], l)
    requires plan.no.Some? ==> plan.no.value.Working? && !plan.no.value.phase.Calling?
    requires plan.go.Some? && plan.go.value.Working? && plan.go.value.phase.Calling? ==> plan.update.Some?
    ensures Holds(w, w.workers[b]) && plan.go == Some(Carry(w, b, plan, calls).workers[b])
    ensures SameWorker(w.workers[b], Carry(w, b, plan, calls).workers[b])
  {
  }

  /** No step opens what is closed. */
  lemma OpenBefore(w: World, e: Event, draft: Id, account: Id)
    requires Inv(w) && Enabled(w, e) && Open(Next(w, e), draft, account)
    ensures Open(w, draft, account)
  {
    var w' := Next(w, e);
    if Unpublished(w', draft, account) {
      UnpublishedBefore(w, e, draft, account);
    } else if InsertionPending(w', draft, account) {
      var c :| c in w'.pending && Awaited(w', c, draft, account);
      InsertionBefore(w, e, c, draft, account);
    } else if ScheduleLeft(w', draft, account) {
      var j :| j in w'.rows && Of(w'.rows[j]) == (draft, account) && Sendable(w', j);
      ScheduleBefore(w, e, j);
    } else {
      var b :| b in w'.workers && Commits(w'.workers[b], draft, account);
      CallBefore(w, e, b);
      if EngagedFor(w, draft, account) { EngagedIsLeft(w, draft, account); }
    }
  }

  lemma EngagedIsLeft(w: World, draft: Id, account: Id)
    requires EngagedFor(w, draft, account)
    ensures ScheduleLeft(w, draft, account)
  {
    var j :| j in w.rows && Of(w.rows[j]) == (draft, account) && Engaged(w, j);
    assert Sendable(w, j);
  }

  lemma CallWasPending(w: World, e: Event, j: Id)
    requires Inv(w) && Enabled(w, e) && j in Next(w, e).calls && j !in w.calls
    ensures Made(w, j) && CallPending(w, Last(w, j).draft, Last(w, j).account)
  {
    CallComes(w, e);
    var k := w.workers[e.worker];
    assert About(k, w);
    ActKeepsWorker(k, e.act);
    assert Commits(k, Last(w, j).draft, Last(w, j).account);
  }

  lemma {:induction false} RunOpens(w: World, events: seq<Event>, w': World, j: Id)
    requires Inv(w) && Run(w, events, w') && j in w'.calls && j !in w.calls && Made(w', j)
    ensures Open(w, Last(w', j).draft, Last(w', j).account)
    decreases |events|
  {
    if events != [] {
      var v := Next(w, events[0]);
      StepKeepsInv(w, events[0]);
      if j in v.calls {
        CallWasPending(w, events[0], j);
        Persists(w, events[0], j);
        RunMoves(v, events[1..], w', j);
      } else {
        RunOpens(v, events[1..], w', j);
        OpenBefore(w, events[0], Last(w', j).draft, Last(w', j).account);
      }
    }
  }

  /**
   A further call for a draft and account can follow if and only if the draft is there and not published
   to the account, or a scheduling call that made its checks before can still insert, or a schedule is
   left that can be sent, or a worker has its request on record. That another of their schedules was
   called for before, and what became of it, makes no difference as long as it was not published.
   */
  lemma FurtherCallIff(w: World, draft: Id, account: Id)
    requires Reachable(w)
    ensures FurtherCall(w, draft, account) <==> Open(w, draft, account)
  {
    if FurtherCall(w, draft, account) {
      var w', j :| Leads(w, w') && j in w'.calls && j !in w.calls && Made(w', j) && Of(Last(w', j)) == (draft, account);
      var events :| Run(w, events, w');
      ReachableInv(w);
      RunOpens(w, events, w', j);
    } else if Open(w, draft, account) {
      OpenLeads(w, draft, account);
    }
  }

  /**
   After a call for schedule i, another one for its draft and account can follow if and only if i is in
   the table and its draft is not published to the account, or one of three remnants is there.
   */
  lemma SecondCallIff(w: World, i: Id)
    requires Reachable(w) && i in w.calls && Made(w, i)
    ensures var r := Last(w, i);
      FurtherCall(w, r.draft, r.account)
      <==> (i in w.rows && (r.draft, r.account) !in w.posts)
           || InsertionPending(w, r.draft, r.account) || ScheduleLeft(w, r.draft, r.account)
           || CallPending(w, r.draft, r.account)
  {
    FurtherCallIff(w, Last(w, i).draft, Last(w, i).account);
    ReachableInv(w);
  }
}
