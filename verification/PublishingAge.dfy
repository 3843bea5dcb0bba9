/**
 Further calls when the application's clock agrees with the database's: a schedule whose age guard has
 not been passed yet must then be sent within a day of its time.
 */
module PublishingAge {
  import opened Common
  import opened ScheduleStatus
  import opened PublishingTables
  import opened PublishingProtocol
  import opened PublishingSteps
  import opened PublishingSafety
  import opened PublishingRuns
  import opened PublishingTwice

  predicate WithinADay(w: World, r: Schedule) {
    r.scheduledAt >= w.now - MAX_AGE_MS
  }

  predicate InsertionInDay(w: World, draft: Id, account: Id) {
    draft !in w.erased && exists c | c in w.pending :: Awaited(w, c, draft, account) && WithinADay(w, w.pending[c].row)
  }

  predicate LeftInDay(w: World, draft: Id, account: Id) {
    exists j | j in w.rows :: Of(w.rows[j]) == (draft, account) && Fit(w.rows[j]) && WithinADay(w, w.rows[j])
  }

  /** What a further call takes. */
  predicate OpenInDay(w: World, draft: Id, account: Id) {
    || Unpublished(w, draft, account)
    || InsertionInDay(w, draft, account)
    || LeftInDay(w, draft, account)
    || EngagedFor(w, draft, account)
    || CallPending(w, draft, account)
  }

  predicate ReadyNow(w: World, draft: Id, account: Id) {
    exists j | j in w.rows ::
      Of(w.rows[j]) == (draft, account) && Fit(w.rows[j]) && Claimable(w.rows[j], w.now) && Timely(w.rows[j], w.now)
  }

  /** What is enough for one. */
  predicate OpenNow(w: World, draft: Id, account: Id) {
    || Unpublished(w, draft, account)
    || ReadyNow(w, draft, account)
    || EngagedFor(w, draft, account)
    || CallPending(w, draft, account)
  }

  // ---- enough ----

  lemma EngagedLeads(w: World, j: Id)
    requires Reachable(w) && j in w.rows && Engaged(w, j)
    ensures FurtherCallInStep(w, w.rows[j].draft, w.rows[j].account)
  {
    var o := Origin(w, true);
    assert Sendable(w, j);
    SendableIsNotCalled(w, j);
    var b :| b in w.workers && w.workers[b].schedule == j
             && (OnItsWay(w.workers[b], w.rows[j], w.now) || (Fit(w.rows[j]) && PastGuard(w.workers[b], w.rows[j], w.now)));
    if OnItsWay(w.workers[b], w.rows[j], w.now) {
      WorkerLeads(o, b);
    } else {
      Here(o);
      WorkerAfter(o, w, b);
      var w' := FromGating(o, w, b);
      Further(o, w', j, w.workers[b].post);
    }
  }

  lemma ReadyLeads(w: World, j: Id)
    requires Reachable(w) && j in w.rows && Fit(w.rows[j]) && Claimable(w.rows[j], w.now) && Timely(w.rows[j], w.now)
    ensures FurtherCallInStep(w, w.rows[j].draft, w.rows[j].account)
  {
    var o := Origin(w, true);
    assert Sendable(w, j);
    SendableIsNotCalled(w, j);
    Here(o);
    var w', _ := Send(o, w, j);
    Further(o, w', j, w.rows[j]);
  }

  lemma OpenNowLeads(w: World, draft: Id, account: Id)
    requires Reachable(w) && OpenNow(w, draft, account)
    ensures FurtherCallInStep(w, draft, account)
  {
    if Unpublished(w, draft, account) {
      UnpublishedLeads(Origin(w, true), draft, account);
    } else if ReadyNow(w, draft, account) {
      var j :| j in w.rows && Of(w.rows[j]) == (draft, account) && Fit(w.rows[j]) && Claimable(w.rows[j], w.now)
               && Timely(w.rows[j], w.now);
      ReadyLeads(w, j);
    } else if EngagedFor(w, draft, account) {
      var j :| j in w.rows && Of(w.rows[j]) == (draft, account) && Engaged(w, j);
      EngagedLeads(w, j);
    } else {
      var b :| b in w.workers && Commits(w.workers[b], draft, account);
      PendingLeads(Origin(w, true), b);
    }
  }

  // ---- needed ----

  /** A worker passes the age guard with a schedule that is within a day of its time. */
  lemma GuardInDay(k: Worker, act: Act, r: Schedule, now: Time)
    requires k.Working? && React(k, act).Some? && (ReadsClock(act) ==> act.appNow == now)
    ensures var plan := React(k, act).value;
      && (plan.no.Some? && plan.no.value.Working? ==> !plan.no.value.phase.Gating?)
      && (plan.go.Some? && plan.go.value.Working? && plan.go.value.phase.Gating? ==>
            && plan.update.None? && plan.go.value.token == k.token && plan.go.value.ambiguous == k.ambiguous
            && (k.ambiguous || k.post.scheduledAt >= now - MAX_AGE_MS))
  {
    if act.ContainerAnswered? && k.phase.Asking? { AnswerIsLate(k, act.answer, act.appNow); }
  }

  lemma AnswerIsLate(k: Worker, answer: ContainerAnswer, appNow: Time)
    requires k.Working? && k.phase.Asking? && AtAnswer(k, answer, appNow).Some?
    ensures var plan := AtAnswer(k, answer, appNow).value;
      && (plan.no.Some? ==> plan.no.value.Working? && !plan.no.value.phase.Gating?)
      && (plan.go.Some? ==> plan.go.value.Working? && !plan.go.value.phase.Gating?)
  {
  }

  lemma CarryToGating(w: World, b: Id, plan: Plan, calls: bool)
    requires b in w.workers && b in Carry(w, b, plan, calls).workers && Carry(w, b, plan, calls).workers[b].Working?
    requires Carry(w, b, plan, calls).workers[b].phase.Gating?
    requires plan.no.Some? && plan.no.value.Working? ==> !plan.no.value.phase.Gating?
    requires plan.go.Some? && plan.go.value.Working? && plan.go.value.phase.Gating? ==> plan.update.None?
    ensures plan.go == Some(Carry(w, b, plan, calls).workers[b]) && Carry(w, b, plan, calls).rows == w.rows
  {
  }

  lemma OwnGuardBefore(w: World, b: Id, act: Act)
    requires Enabled(w, Do(b, act)) && InStep(w, Do(b, act)) && About(w.workers[b], w) && w.workers[b].schedule in w.rows
    requires var w' := Carry(w, b, React(w.workers[b], act).value, act.Call?);
      b in w'.workers && w'.workers[b].Working? && w'.workers[b].phase.Gating? && !w'.workers[b].ambiguous
    ensures Carry(w, b, React(w.workers[b], act).value, act.Call?).rows == w.rows
    ensures WithinADay(w, w.rows[w.workers[b].schedule])
  {
    var k := w.workers[b];
    GuardInDay(k, act, w.rows[k.schedule], w.now);
    CarryToGating(w, b, React(k, act).value, act.Call?);
  }

  lemma OthersGuard(w: World, e: Event, b: Id)
    requires Inv(w) && Enabled(w, e) && !Acts(e, b) && b in w.workers && w.workers[b].schedule in w.rows
    requires w.workers[b].schedule in Next(w, e).rows
    requires PastGuard(w.workers[b], Next(w, e).rows[w.workers[b].schedule], Next(w, e).now)
    ensures Next(w, e).rows[w.workers[b].schedule] == w.rows[w.workers[b].schedule]
    ensures PastGuard(w.workers[b], w.rows[w.workers[b].schedule], w.now)
  {
    TokenIsLost(w, e, b);
    TimeGoesOn(w, e);
  }

  /** A worker past the guard after a step was so before, or has just found its schedule within a day of its time. */
  lemma GuardBefore(w: World, e: Event, j: Id, b: Id)
    requires Inv(w) && Enabled(w, e) && InStep(w, e) && j in w.rows && j in Next(w, e).rows && b in Next(w, e).workers
    requires Next(w, e).workers[b].schedule == j && PastGuard(Next(w, e).workers[b], Next(w, e).rows[j], Next(w, e).now)
    requires Fit(Next(w, e).rows[j])
    ensures Engaged(w, j) || (Fit(w.rows[j]) && WithinADay(w, w.rows[j]))
  {
    if !Acts(e, b) {
      OthersStay(w, e, b);
      OthersGuard(w, e, b);
    } else if e.Do? {
      assert About(w.workers[b], w);
      ActKeepsWorker(w.workers[b], e.act);
      SameScheduleAfter(w, b, React(w.workers[b], e.act).value, e.act.Call?);
      OwnGuardBefore(w, b, e.act);
    } else {
      StartsNowhere(w, e, b);
    }
  }

  lemma FitInDayBefore(w: World, e: Event, j: Id)
    requires Inv(w) && Enabled(w, e) && j in w.rows && j in Next(w, e).rows
    requires Fit(Next(w, e).rows[j]) && WithinADay(Next(w, e), Next(w, e).rows[j])
    ensures Engaged(w, j) || (Fit(w.rows[j]) && WithinADay(w, w.rows[j]))
  {
    FitBefore(w, e, j);
    Persists(w, e, j);
    TimeGoesOn(w, e);
    if !Fit(w.rows[j]) {
      var b :| b in w.workers && w.workers[b].schedule == j && OnItsWay(w.workers[b], w.rows[j], w.now);
    }
  }

  lemma InsertedInDay(w: World, e: Event, j: Id)
    requires Inv(w) && Enabled(w, e) && j in Next(w, e).rows && j !in w.rows && WithinADay(Next(w, e), Next(w, e).rows[j])
    ensures var r := Next(w, e).rows[j]; InsertionInDay(w, r.draft, r.account)
  {
    NewRowIsNew(w, e, j);
    InsertedWasAwaited(w, e.call, e.schedule);
    TimeGoesOn(w, e);
  }

  lemma LeftBefore(w: World, e: Event, j: Id)
    requires Inv(w) && Enabled(w, e) && InStep(w, e) && j in Next(w, e).rows
    requires Engaged(Next(w, e), j) || (Fit(Next(w, e).rows[j]) && WithinADay(Next(w, e), Next(w, e).rows[j]))
    ensures var r := Next(w, e).rows[j]; OpenInDay(w, r.draft, r.account)
  {
    var w' := Next(w, e);
    var r := w'.rows[j];
    if j !in w.rows {
      NewRowIsNew(w, e, j);
      InsertedInDay(w, e, j);
    } else {
      Persists(w, e, j);
      assert Of(w.rows[j]) == Of(r);
      if Fit(r) && WithinADay(w', r) {
        FitInDayBefore(w, e, j);
      } else {
        var b :| b in w'.workers && w'.workers[b].schedule == j
                 && (OnItsWay(w'.workers[b], r, w'.now) || (Fit(r) && PastGuard(w'.workers[b], r, w'.now)));
        if OnItsWay(w'.workers[b], r, w'.now) { WayBefore(w, e, j, b); } else { GuardBefore(w, e, j, b); }
      }
    }
  }

  lemma InsertionInDayBefore(w: World, e: Event, c: Id, draft: Id, account: Id)
    requires Inv(w) && Enabled(w, e) && c in Next(w, e).pending && Awaited(Next(w, e), c, draft, account)
    requires draft !in Next(w, e).erased && WithinADay(Next(w, e), Next(w, e).pending[c].row)
    ensures Unpublished(w, draft, account) || InsertionInDay(w, draft, account)
  {
    InsertionBefore(w, e, c, draft, account);
    TimeGoesOn(w, e);
  }

  lemma OpenInDayBefore(w: World, e: Event, draft: Id, account: Id)
    requires Inv(w) && Enabled(w, e) && InStep(w, e) && OpenInDay(Next(w, e), draft, account)
    ensures OpenInDay(w, draft, account)
  {
    var w' := Next(w, e);
    if Unpublished(w', draft, account) {
      UnpublishedBefore(w, e, draft, account);
    } else if InsertionInDay(w', draft, account) {
      var c :| c in w'.pending && Awaited(w', c, draft, account) && WithinADay(w', w'.pending[c].row);
      InsertionInDayBefore(w, e, c, draft, account);
    } else if LeftInDay(w', draft, account) {
      var j :| j in w'.rows && Of(w'.rows[j]) == (draft, account) && Fit(w'.rows[j]) && WithinADay(w', w'.rows[j]);
      LeftBefore(w, e, j);
    } else if EngagedFor(w', draft, account) {
      var j :| j in w'.rows && Of(w'.rows[j]) == (draft, account) && Engaged(w', j);
      LeftBefore(w, e, j);
    } else {
      var b :| b in w'.workers && Commits(w'.workers[b], draft, account);
      CallBefore(w, e, b);
    }
  }

  lemma {:induction false} RunOpensInDay(w: World, events: seq<Event>, w': World, j: Id)
    requires Inv(w) && RunInStep(w, events, w') && j in w'.calls && j !in w.calls && Made(w', j)
    ensures OpenInDay(w, Last(w', j).draft, Last(w', j).account)
    decreases |events|
  {
    if events != [] {
      var v := Next(w, events[0]);
      StepKeepsInv(w, events[0]);
      if j in v.calls {
        CallWasPending(w, events[0], j);
        Persists(w, events[0], j);
        InStepIsRun(v, events[1..], w');
        RunMoves(v, events[1..], w', j);
      } else {
        RunOpensInDay(v, events[1..], w', j);
        OpenInDayBefore(w, events[0], Last(w', j).draft, Last(w', j).account);
      }
    }
  }

  /**
   With the clocks in step, a further call needs a draft that is there and not published to the account,
   a pending insertion or a fit schedule within a day of its time, a worker past the age guard, or a
   request on record. All but those two are enough for one, and so is a fit schedule that can be claimed
   now and is in time.
   */
  lemma FurtherCallInDay(w: World, draft: Id, account: Id)
    requires Reachable(w)
    ensures OpenNow(w, draft, account) ==> FurtherCallInStep(w, draft, account)
    ensures FurtherCallInStep(w, draft, account) ==> OpenInDay(w, draft, account)
  {
    if OpenNow(w, draft, account) { OpenNowLeads(w, draft, account); }
    if w', j :| LeadsInStep(w, w') && j in w'.calls && j !in w.calls && Made(w', j) && Of(Last(w', j)) == (draft, account) {
      var events :| RunInStep(w, events, w');
      ReachableInv(w);
      RunOpensInDay(w, events, w', j);
    }
  }

  /**
   After a call for schedule i, and with nothing pending or left that is younger than a day, another
   one can follow if and only if i is in the table and its draft not published to the account, or a
   worker is past the guard or has its request on record.
   */
  lemma SecondCallInStepIff(w: World, i: Id)
    requires Reachable(w) && i in w.calls && Made(w, i)
    requires !InsertionInDay(w, Last(w, i).draft, Last(w, i).account) && !LeftInDay(w, Last(w, i).draft, Last(w, i).account)
    ensures var r := Last(w, i);
      FurtherCallInStep(w, r.draft, r.account)
      <==> (i in w.rows && Of(r) !in w.posts) || EngagedFor(w, r.draft, r.account) || CallPending(w, r.draft, r.account)
  {
    FurtherCallInDay(w, Last(w, i).draft, Last(w, i).account);
    ReachableInv(w);
  }
}
