/**
 Reachable worlds of scheduled publishing, each built step by step from the empty tables, with the
 application's clock in step with the database's.
 */
module PublishingWitnesses {
  import opened Common
  import opened ScheduleStatus
  import opened PublishingTables
  import opened PublishingProtocol
  import opened PublishingSteps
  import opened PublishingSafety
  import opened PublishingRuns
  import opened PublishingTwice
  import opened PublishingRecords

  function Empty(): World {
    World(0, map[], map[], map[], map[], [], [], [], [], {}, map[], {}, {})
  }

  function FromEmpty(): Origin {
    Origin(Empty(), true)
  }

  lemma Begin() returns (o: Origin)
    ensures o == FromEmpty() && After(o, Empty())
  {
    o := FromEmpty();
    assert Initial(Empty()) && Run(Empty(), [], Empty());
    Here(o);
  }

  lemma {:induction false} RunConcat(u: World, first: seq<Event>, v: World, second: seq<Event>, w: World)
    requires Run(u, first, v) && Run(v, second, w)
    ensures Run(u, first + second, w)
    decreases |first|
  {
    if first == [] {
      assert first + second == second;
    } else {
      RunConcat(Next(u, first[0]), first[1..], v, second, w);
      assert (first + second)[1..] == first[1..] + second;
    }
  }

  lemma AfterIsReachable(o: Origin, w: World)
    requires After(o, w)
    ensures Reachable(w)
  {
    AfterLeads(o, w);
    var w0, first :| Initial(w0) && Run(w0, first, o.world);
    var second :| Run(o.world, second, w);
    RunConcat(w0, first, o.world, second, w);
  }

  // ---- two calls for one draft and account ----

  /** Schedule i has been called for, and another call for its draft and account can follow. */
  ghost predicate CalledAndOpen(w: World, i: Id) {
    Reachable(w) && i in w.calls && i in w.rows && FurtherCall(w, w.rows[i].draft, w.rows[i].account)
  }

  lemma Finds(o: Origin, w: World, i: Id)
    requires After(o, w) && i in w.calls && i in w.rows && Open(w, w.rows[i].draft, w.rows[i].account)
    ensures CalledAndOpen(w, i)
  {
    AfterIsReachable(o, w);
    FurtherCallIff(w, w.rows[i].draft, w.rows[i].account);
  }

  /** The first schedule is sent, and then its worker meets an exception that ends it. */
  lemma SentAndFailed(failure: Failure) returns (w: World, i: Id)
    requires failure.Auth? || failure.Permanent?
    ensures After(FromEmpty(), w) && w.calls == [i] && i in w.rows && w.posts == map[] && w.erased == {} && Of(w.rows[i]) == (0, 0)
    ensures w.rows.Keys == {i} && w.rows[i].status == if failure.Auth? then AuthRequired else RecoveryRequired
  {
    var o := Begin();
    var u, j := Make(o, Empty(), NewRow(0, 0, 0, 0));
    var v, a := Send(o, u, j);
    i := j;
    w := Fail(o, v, a, failure);
  }

  lemma Fail(o: Origin, v: World, a: Id, failure: Failure) returns (w: World)
    requires After(o, v) && a in v.workers && v.workers[a].Working? && v.workers[a].phase.Called? && v.workers[a].ambiguous
    requires Holds(v, v.workers[a]) && (failure.Auth? || failure.Permanent?)
    ensures After(o, w) && Around(v, w.(workers := v.workers))
    ensures w.rows == v.rows[v.workers[a].schedule := Release(v.rows[v.workers[a].schedule],
                                                              if failure.Auth? then AuthRequired else RecoveryRequired)]
  {
    var u := Goes(o, v, a, Throw(failure));
    w := Ends(o, u, a, Handle(u.now), Finish(if failure.Auth? then AuthRequired else RecoveryRequired));
  }

  /** The first way: the schedule sent ends in AUTH_REQUIRED, which the active index does not cover. */
  lemma OpenAfterLostAuthorization()
    ensures exists w, i :: CalledAndOpen(w, i) && w.rows[i].status.AuthRequired?
  {
    var w, i := SentAndFailed(Auth);
    Finds(FromEmpty(), w, i);
  }

  /** The second way: an operator takes the schedule sent for unpublished. */
  lemma OpenAfterCancellation()
    ensures exists w, i :: CalledAndOpen(w, i) && w.rows[i].status.Cancelled?
  {
    var v, i := SentAndFailed(Permanent);
    var w := Resolve(FromEmpty(), v, i);
    Finds(FromEmpty(), w, i);
  }

  lemma Publish(o: Origin, w: World, j: Id) returns (w': World)
    requires After(o, w) && j in w.rows && Fit(w.rows[j]) && Claimable(w.rows[j], w.now) && w.posts == map[]
    requires o.inStep ==> Timely(w.rows[j], w.now)
    ensures After(o, w') && j in w'.rows && w'.rows == w.rows[j := w'.rows[j]]
    ensures w'.rows[j].status.Published? && SameSchedule(w.rows[j], w'.rows[j])
    ensures w'.calls == w.calls + [j] && w'.workers == w.workers && w'.pending == w.pending && w'.erased == w.erased
    ensures w'.posts.Keys == {Of(w.rows[j])}
  {
    var v, a := Send(o, w, j);
    v := Goes(o, v, a, CallAnswered(Some(0), v.now));
    WorkerAfter(o, v, a);
    w' := Step(o, v, Commit(a));
    assert w'.workers == w.workers;
  }

  /** The third way: a scheduling call that made its checks before the publication inserts after it. */
  lemma OpenAfterPublication()
    ensures exists w, i ::
      CalledAndOpen(w, i) && w.rows[i].status.Published?
      && !ScheduleLeft(w, w.rows[i].draft, w.rows[i].account) && !CallPending(w, w.rows[i].draft, w.rows[i].account)
  {
    var o := Begin();
    var late := NewRow(0, 0, 1, 1);
    var u := Step(o, Empty(), CreateRead(0, late));
    var v, i := Make(o, u, NewRow(0, 0, 0, 0));
    var w := Publish(o, v, i);
    assert w.pending[0] == Inserting(late) && w.rows.Keys == {i};
    assert Awaited(w, 0, 0, 0);
    Finds(o, w, i);
  }

  /** The fourth way: a schedule blocked before its replacement was published is put back by a reconnect. */
  lemma OpenAfterReplacement()
    ensures exists w, i ::
      CalledAndOpen(w, i) && w.rows[i].status.Published?
      && !InsertionPending(w, w.rows[i].draft, w.rows[i].account) && !CallPending(w, w.rows[i].draft, w.rows[i].account)
  {
    var o := Begin();
    var u, j := Make(o, Empty(), NewRow(0, 0, 0, 0));
    u := LoseAuth(o, u, j);
    var v, i := Make(o, u, NewRow(0, 0, 1, 1));
    var w := Publish(o, v, i);
    assert Fit(w.rows[j]) && Sendable(w, j);
    Finds(o, w, i);
  }

  /** The platform can be asked twice to publish one draft on one account, by two schedules. */
  lemma OneDraftCanBeCalledForTwice()
    ensures exists w: World, i: Id, j: Id {:trigger w.rows[i], w.rows[j]} ::
      Reachable(w) && i in w.calls && j in w.calls && i != j && i in w.rows && j in w.rows
      && w.rows[i].draft == w.rows[j].draft && w.rows[i].account == w.rows[j].account
  {
    var o := FromEmpty();
    var v, i := SentAndFailed(Auth);
    var u, j := MakeFor(o, v, 0, 0);
    AfterInv(o, v);
    assert Made(v, i);
    SentToo(o, v, u, i, j);
  }

  lemma SentToo(o: Origin, v: World, u: World, i: Id, j: Id)
    requires After(o, u) && i in u.calls && i in u.rows && i != j && j in u.rows && IsNew(u.rows[j]) && Of(u.rows[i]) == Of(u.rows[j])
    requires u.rows[j].scheduledAt >= u.now
    ensures exists w: World, i: Id, j: Id {:trigger w.rows[i], w.rows[j]} ::
      Reachable(w) && i in w.calls && j in w.calls && i != j && i in w.rows && j in w.rows
      && w.rows[i].draft == w.rows[j].draft && w.rows[i].account == w.rows[j].account
  {
    var w, _ := Send(o, u, j);
    AfterIsReachable(o, w);
    assert w.rows[i] == u.rows[i];
  }

  // ---- the guard against a late first execution ----

  /**
   A schedule has been called for that was still new, not executed once, more than 15 minutes after its
   time, all clock readings agreeing.
   */
  ghost predicate SentLate(w: World, i: Id) {
    exists v :: Reachable(v) && LeadsInStep(v, w) && i in v.rows && IsNew(v.rows[i])
                && v.rows[i].scheduledAt < v.now - LATE_MS && i !in v.calls && i in w.calls
  }

  /**
   The guard asks whether the claim came from SCHEDULED. A worker that crashes between its claim and the
   guard leaves the schedule CLAIMED, and the next one is not asked.
   */
  lemma LateGuardCanBeSkipped()
    ensures exists w, i :: SentLate(w, i)
  {
    var o := Begin();
    var u, i := Make(o, Empty(), NewRow(0, 0, 0, 0));
    u := Wait(o, u, LATE_MS + 1);
    AfterIsReachable(o, u);
    CrashAndRetry(u, i);
  }

  lemma CrashAndRetry(u: World, i: Id)
    requires Reachable(u) && u.rows == map[i := NewRow(0, 0, 0, 0)] && u.now == LATE_MS + 1 && u.calls == []
    ensures exists w, i :: SentLate(w, i)
  {
    var o := Origin(u, true);
    Here(o);
    var v, a, token := Take(o, u, i);
    v := Step(o, v, Crash(a));
    v := Wait(o, v, v.now + LEASE_MS + 1);
    var w, _ := Send(o, v, i);
    assert SentLate(w, i);
  }

  // ---- reconnecting ----

  /** A reachable world in which a reconnect fails: a blocked schedule and the one created in its place. */
  lemma ReconnectCanFail()
    ensures exists w: World, account: Id {:trigger Restored(w.rows, account)} ::
      Reachable(w) && !ActiveUnique(Restored(w.rows, account))
  {
    var o := Begin();
    var u, j := Make(o, Empty(), NewRow(0, 0, 0, 0));
    u := LoseAuth(o, u, j);
    var v, i := Make(o, u, NewRow(0, 0, 1, 1));
    AfterIsReachable(o, v);
    assert Restorable(v.rows[j], 0) && Active(v.rows[i].status);
    ReconnectFailsIff(v, 0);
  }

  // ---- recording ----

  /**
   A worker that holds its schedule has been told the post it published and is about to record it; if
   ingestion imports that post first, it never can be recorded.
   */
  ghost predicate ImportComesFirst(w: World, i: Id, a: Id, draft: Id) {
    && Reachable(w) && i in w.calls && i in w.rows && a in w.workers && w.workers[a].schedule == i && Holds(w, w.workers[a])
    && w.workers[a].Working? && w.workers[a].phase.Committing?
    && var threadsPost, e := w.workers[a].phase.threadsPost, Ingest(draft, w.rows[i].account, 0, w.workers[a].phase.threadsPost);
       CanBeRecorded(w, i, threadsPost) && Enabled(w, e) && !CanBeRecorded(Next(w, e), i, threadsPost)
  }

  lemma PostCanBeImportedFirst()
    ensures exists w, i, a, draft :: ImportComesFirst(w, i, a, draft)
  {
    var o := Begin();
    var u, i := Make(o, Empty(), NewRow(0, 0, 0, 0));
    var v, a := Send(o, u, i);
    var w := Goes(o, v, a, CallAnswered(Some(0), v.now));
    ImportFirst(o, w, i, a);
  }

  lemma ImportFirst(o: Origin, w: World, i: Id, a: Id)
    requires After(o, w) && w.calls == [i] && w.rows.Keys == {i} && Of(w.rows[i]) == (0, 0) && w.rows[i].status.Publishing?
    requires w.posts == map[] && w.pending == map[] && w.gone == map[] && w.erased == {}
    requires a in w.workers && w.workers[a].schedule == i && Holds(w, w.workers[a])
    requires w.workers[a].Working? && w.workers[a].phase == Committing(0)
    ensures exists w, i, a, draft :: ImportComesFirst(w, i, a, draft)
  {
    var e := Ingest(1, 0, 0, 0);
    AfterIsReachable(o, w);
    CanBeRecordedIff(w, i, 0);
    var w' := Step(o, w, e);
    AfterIsReachable(o, w');
    assert w'.posts[(1, 0)] == Post(0, 0) && Made(w', i);
    CanBeRecordedIff(w', i, 0);
    assert ImportComesFirst(w, i, a, 1);
  }

  // ---- deleting ----

  /** A deletion is about to remove a schedule that was sent and whose worker holds it. */
  ghost predicate DeletesSent(w: World, call: Id, i: Id, a: Id) {
    Reachable(w) && Enabled(w, DeleteCommit(call)) && i in w.calls && i in w.rows && i !in Next(w, DeleteCommit(call)).rows
    && a in w.workers && w.workers[a].schedule == i && Holds(w, w.workers[a]) && w.workers[a].Working? && w.workers[a].phase.Called?
  }

  /**
   The run: a schedule loses its authorization before anything is sent, a deletion of its draft finds
   it so, a reconnect puts it back, a worker sends it, and the deletion goes through.
   */
  lemma SentScheduleCanBeDeleted()
    ensures exists w, call, i, a :: DeletesSent(w, call, i, a)
  {
    var o := Begin();
    var v, i := Make(o, Empty(), NewRow(0, 0, 0, 0));
    v := LoseAuth(o, v, i);
    FindBeforeReconnect(o, v, i);
  }

  lemma FindBeforeReconnect(o: Origin, v: World, i: Id)
    requires After(o, v) && v.pending == map[] && v.posts == map[] && v.erased == {} && v.rows.Keys == {i}
    requires v.rows[i] == Release(NewRow(0, 0, 0, 0), AuthRequired) && v.now == 0
    ensures exists w, call, i, a :: DeletesSent(w, call, i, a)
  {
    var u := Find(o, v, 0, 0);
    assert SchedulesOf(v.rows, 0) == v.rows;
    u := PutBack(o, u, i);
    SendBeforeDeletion(o, u, i, v.rows);
  }

  lemma Find(o: Origin, w: World, call: Id, draft: Id) returns (w': World)
    requires After(o, w) && call !in w.pending && MayDelete(w, draft)
    ensures After(o, w') && w' == w.(pending := w.pending[call := Deleting(draft, SchedulesOf(w.rows, draft))])
  {
    w' := Step(o, w, DeleteRead(call, draft));
  }

  /** A reconnect of the account of the only schedule. */
  lemma PutBack(o: Origin, w: World, i: Id) returns (w': World)
    requires After(o, w) && w.rows.Keys == {i} && Restorable(w.rows[i], w.rows[i].account)
    ensures After(o, w') && w' == w.(rows := w.rows[i := w.rows[i].(status := Scheduled)])
  {
    w' := Step(o, w, Reconnect(w.rows[i].account));
    assert Restored(w.rows, w.rows[i].account) == w.rows[i := w.rows[i].(status := Scheduled)];
  }

  lemma SendBeforeDeletion(o: Origin, u: World, i: Id, found: Schedules)
    requires After(o, u) && u.pending == map[0 := Deleting(0, found)] && u.posts == map[]
    requires u.rows.Keys == {i} && i in found && Fit(u.rows[i]) && u.rows[i].status.Scheduled? && Timely(u.rows[i], u.now)
    ensures exists w, call, i, a :: DeletesSent(w, call, i, a)
  {
    var w, a := Send(o, u, i);
    AfterIsReachable(o, w);
    DeletedIff(w, DeleteCommit(0), i);
    assert DeletesSent(w, 0, i, a);
  }
}
