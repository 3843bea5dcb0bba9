/** Every step of scheduled publishing keeps the invariants. */
module PublishingSteps {
  import opened Common
  import opened ScheduleStatus
  import opened PublishingTables
  import opened PublishingProtocol

  // ---- one schedule ----

  /** The states nothing but a deletion leads out of. */
  predicate Settled(r: Schedule) {
    Final(r.status) || (r.status.AuthRequired? && Traced(r))
  }

  /** How a schedule may change in one step. */
  predicate Evolves(r: Schedule, r': Schedule) {
    && SameSchedule(r, r')
    && (r.publishRequestedAt.Some? ==> r'.publishRequestedAt.Some?)
    && (Traced(r) ==> Traced(r'))
    && (Settled(r) ==> r' == r)
    && (Active(r'.status) ==> Active(r.status))
  }

  /** What a reconnect does to a schedule it unblocks. */
  predicate Restores(r: Schedule, r': Schedule) {
    r.status.AuthRequired? && !Traced(r) && r' == r.(status := Scheduled)
  }

  /** What a worker's plan leaves alone. */
  lemma CarryFrames(w: World, worker: Id, plan: Plan, calls: bool)
    requires worker in w.workers
    ensures var w' := Carry(w, worker, plan, calls);
      && w'.now == w.now && w'.posts == w.posts && w'.pending == w.pending && w'.decisions == w.decisions
      && w'.tokens == w.tokens && w'.gone == w.gone && w'.erased == w.erased && w'.imported == w.imported
      && (w'.calls == w.calls || (plan.update.None? && calls && w'.calls == w.calls + [w.workers[worker].schedule] && w'.rows == w.rows))
      && (!Holds(w, w.workers[worker]) ==> w'.rows == w.rows)
  {
  }

  lemma DoFrames(w: World, worker: Id, act: Act)
    requires Enabled(w, Do(worker, act))
    ensures var w' := Next(w, Do(worker, act));
      && w'.now == w.now && w'.posts == w.posts && w'.pending == w.pending && w'.decisions == w.decisions
      && w'.tokens == w.tokens && w'.gone == w.gone && w'.erased == w.erased && w'.imported == w.imported
      && (w'.calls == w.calls || (act.Call? && w'.calls == w.calls + [w.workers[worker].schedule] && w'.rows == w.rows))
      && (!Holds(w, w.workers[worker]) ==> w'.rows == w.rows)
  {
    CarryFrames(w, worker, React(w.workers[worker], act).value, act.Call?);
  }

  lemma CommitFrames(w: World, worker: Id)
    requires Enabled(w, Commit(worker))
    ensures var w' := Next(w, Commit(worker));
      && w'.now == w.now && w'.pending == w.pending && w'.decisions == w.decisions && w'.tokens == w.tokens
      && w'.gone == w.gone && w'.erased == w.erased && w'.imported == w.imported && w'.calls == w.calls
      && w'.executions == w.executions && w'.containers == w.containers
      && (!Holds(w, w.workers[worker]) ==> w'.rows == w.rows && w'.posts == w.posts)
  {
  }

  lemma ResolveFrames(w: World, e: Event)
    requires Enabled(w, e) && (e.ResolveUnpublished? || e.ResolvePublished?)
    ensures var w' := Next(w, e);
      && w'.now == w.now && w'.pending == w.pending - {e.call} && w'.tokens == w.tokens && w'.workers == w.workers
      && w'.gone == w.gone && w'.erased == w.erased && w'.imported == w.imported && w'.calls == w.calls
      && w'.executions == w.executions && w'.containers == w.containers
  {
    match e {
      case ResolveUnpublished(_) =>
      case ResolvePublished(_, _) =>
    }
  }

  /** A worker's fenced statement keeps the schedule sound. */
  lemma ActKeepsRow(k: Worker, act: Act, r: Schedule, now: Time)
    requires k.Working? && React(k, act).Some? && React(k, act).value.update.Some?
    requires RowInv(r) && Knows(k, r) && Fenced(r, k.token, now)
    ensures var r' := Apply(React(k, act).value.update.value, r, now);
      RowInv(r') && Evolves(r, r') && !r'.status.Published?
      && (r'.attemptId.Some? ==> r'.attemptId == r.attemptId)
  {
    if act.Handle? {
      HandleKeepsRow(k, k.phase.failure, act.appNow, r, now);
    } else if act.ContainerAnswered? {
      AnswerKeepsRow(k, act.answer, act.appNow, r, now);
    }
  }

  lemma HandleKeepsRow(k: Worker, failure: Failure, appNow: Time, r: Schedule, now: Time)
    requires k.Working? && AtFailure(k, failure, appNow).Some? && RowInv(r) && Knows(k, r) && Fenced(r, k.token, now)
    ensures AtFailure(k, failure, appNow).value.update.Some?
    ensures var r' := Apply(AtFailure(k, failure, appNow).value.update.value, r, now);
      RowInv(r') && Evolves(r, r') && !r'.status.Published? && r'.attemptId.None?
  {
  }

  lemma AnswerKeepsRow(k: Worker, answer: ContainerAnswer, appNow: Time, r: Schedule, now: Time)
    requires k.Working? && k.phase.Asking? && AtAnswer(k, answer, appNow).Some? && AtAnswer(k, answer, appNow).value.update.Some?
    requires RowInv(r) && Knows(k, r) && Fenced(r, k.token, now)
    ensures var r' := Apply(AtAnswer(k, answer, appNow).value.update.value, r, now);
      RowInv(r') && Evolves(r, r') && !r'.status.Published?
      && (r'.attemptId.Some? ==> r'.attemptId == r.attemptId)
  {
  }

  /** And leaves the worker with knowledge that is still right. */
  lemma ActKeepsKnowledge(k: Worker, act: Act, r: Schedule, now: Time)
    requires k.Working? && React(k, act).Some? && RowInv(r) && Knows(k, r)
    ensures var plan := React(k, act).value;
      && (plan.update.None? && plan.go.Some? ==> Knows(plan.go.value, r))
      && (plan.update.Some? && plan.go.Some? ==> Knows(plan.go.value, Apply(plan.update.value, r, now)))
      && (plan.no.Some? ==> Knows(plan.no.value, r))
  {
    if act.ContainerAnswered? {
      if k.phase.Asking? { AnswerKeepsKnowledge(k, act.answer, act.appNow, r, now); }
    } else if act.Guard? || act.QuotaExhausted? || act.QuotaFree? || act.PrepareContainer? || act.ContainerMade? || act.Beat? {
      EarlyKeepsKnowledge(k, act, r, now);
    } else {
      LateKeepsKnowledge(k, act, r, now);
    }
  }

  lemma AnswerKeepsKnowledge(k: Worker, answer: ContainerAnswer, appNow: Time, r: Schedule, now: Time)
    requires k.Working? && k.phase.Asking? && AtAnswer(k, answer, appNow).Some? && RowInv(r) && Knows(k, r)
    ensures var plan := AtAnswer(k, answer, appNow).value;
      && (plan.update.None? && plan.go.Some? ==> Knows(plan.go.value, r))
      && (plan.update.Some? && plan.go.Some? ==> Knows(plan.go.value, Apply(plan.update.value, r, now)))
      && (plan.no.Some? ==> Knows(plan.no.value, r))
  {
  }

  lemma EarlyKeepsKnowledge(k: Worker, act: Act, r: Schedule, now: Time)
    requires k.Working? && React(k, act).Some? && RowInv(r) && Knows(k, r)
    requires act.Guard? || act.QuotaExhausted? || act.QuotaFree? || act.PrepareContainer? || act.ContainerMade? || act.Beat?
    ensures var plan := React(k, act).value;
      && (plan.update.None? && plan.go.Some? ==> Knows(plan.go.value, r))
      && (plan.update.Some? && plan.go.Some? ==> Knows(plan.go.value, Apply(plan.update.value, r, now)))
      && plan.no.None?
  {
  }

  lemma LateKeepsKnowledge(k: Worker, act: Act, r: Schedule, now: Time)
    requires k.Working? && React(k, act).Some? && RowInv(r) && Knows(k, r)
    requires act.FeedAnswered? || act.Deadline? || act.Request? || act.Call? || act.CallAnswered? || act.Throw? || act.Handle?
    ensures var plan := React(k, act).value;
      && (plan.update.None? && plan.go.Some? ==> Knows(plan.go.value, r))
      && (plan.update.Some? && plan.go.Some? ==> Knows(plan.go.value, Apply(plan.update.value, r, now)))
      && (plan.no.Some? ==> Knows(plan.no.value, r))
  {
  }

  /** What a step leaves of a worker's identity, and how it comes to call the platform. */
  lemma ActKeepsWorker(k: Worker, act: Act)
    requires k.Working? && React(k, act).Some?
    ensures var plan := React(k, act).value;
      && (plan.go.Some?
          ==> && plan.go.value.Working? && SameWorker(k, plan.go.value)
              && (plan.go.value.phase.Calling?
                  ==> act.Request? && plan.update == Some(RequestPublish(act.appNow)) && k.phase.Requesting?))
      && (plan.no.Some? ==> plan.no.value.Working? && SameWorker(k, plan.no.value) && !plan.no.value.phase.Calling?)
      && (plan.update.None? && act.Call? ==> k.phase.Calling?)
      && (act.Call? ==> plan.update.None?)
  {
  }

  predicate SameWorker(k: Worker, l: Worker)
    requires k.Working? && l.Working?
  {
    l.schedule == k.schedule && l.token == k.token && SameSchedule(k.post, l.post)
  }

  // ---- what each step writes ----

  /** The change a step other than a worker's makes to a schedule. */
  predicate ServiceChange(w: World, e: Event, i: Id, r: Schedule, r': Schedule)
    requires Enabled(w, e)
  {
    match e
    case Claim(_, schedule, token) => i == schedule && Claimable(r, w.now) && r' == ClaimRow(r, token, w.now)
    case Cancel(workspace, schedule) => i == schedule && Cancellable(r, workspace) && r' == r.(status := Cancelled)
    case ResolveUnpublished(call) => i == w.pending[call].schedule && r.status.RecoveryRequired? && r' == r.(status := Cancelled)
    case ResolvePublished(call, _) => i == w.pending[call].schedule && r.status.RecoveryRequired? && r' == Release(r, Published)
    case Reconnect(account) => Restorable(r, account) && r' == r.(status := Scheduled)
    case SweepWrite(call) => i == w.pending[call].schedule && Stale(r, w.now) && r' == Release(r, FailedPermanent)
    case _ => false
  }

  lemma ClaimRowIs(w: World, worker: Id, schedule: Id, token: Id, i: Id)
    requires Enabled(w, Claim(worker, schedule, token)) && i in w.rows
    ensures var e := Claim(worker, schedule, token);
      i in Next(w, e).rows && (Next(w, e).rows[i] == w.rows[i] || ServiceChange(w, e, i, w.rows[i], Next(w, e).rows[i]))
  {
  }

  lemma DecisionRowIs(w: World, e: Event, i: Id)
    requires Enabled(w, e) && (e.Cancel? || e.ResolveUnpublished? || e.ResolvePublished?) && i in w.rows
    ensures i in Next(w, e).rows && (Next(w, e).rows[i] == w.rows[i] || ServiceChange(w, e, i, w.rows[i], Next(w, e).rows[i]))
  {
    match e {
      case Cancel(_, _) =>
      case ResolveUnpublished(_) =>
      case ResolvePublished(_, _) =>
    }
  }

  lemma OtherRowIs(w: World, e: Event, i: Id)
    requires Enabled(w, e) && (e.Reconnect? || e.SweepWrite? || e.CreateCommit?) && i in w.rows
    ensures i in Next(w, e).rows && (Next(w, e).rows[i] == w.rows[i] || ServiceChange(w, e, i, w.rows[i], Next(w, e).rows[i]))
  {
    match e {
      case Reconnect(_) =>
      case SweepWrite(_) =>
      case CreateCommit(_, _) =>
    }
  }

  predicate Writes(e: Event) {
    e.Do? || e.Commit? || e.Claim? || e.CreateCommit? || e.Cancel? || e.ResolveUnpublished? || e.ResolvePublished?
    || e.Reconnect? || e.SweepWrite? || e.DeleteCommit? || e.Ingest?
  }

  lemma SilentSteps(w: World, e: Event)
    requires Enabled(w, e) && !Writes(e)
    ensures Next(w, e).rows == w.rows && Next(w, e).posts == w.posts
  {
  }

  lemma IngestRows(w: World, draft: Id, account: Id, version: Id, threadsPost: Id)
    requires Enabled(w, Ingest(draft, account, version, threadsPost))
    ensures Next(w, Ingest(draft, account, version, threadsPost)).rows == w.rows
  {
  }

  lemma ServiceRow(w: World, e: Event, i: Id)
    requires Enabled(w, e) && !e.Do? && !e.Commit? && !e.DeleteCommit? && i in w.rows
    ensures i in Next(w, e).rows && (Next(w, e).rows[i] == w.rows[i] || ServiceChange(w, e, i, w.rows[i], Next(w, e).rows[i]))
  {
    if !Writes(e) {
      SilentSteps(w, e);
    } else if e.Ingest? {
      IngestRows(w, e.draft, e.account, e.version, e.threadsPost);
    } else if e.Claim? {
      ClaimRowIs(w, e.worker, e.schedule, e.token, i);
    } else if e.Cancel? || e.ResolveUnpublished? || e.ResolvePublished? {
      DecisionRowIs(w, e, i);
    } else {
      OtherRowIs(w, e, i);
    }
  }

  /** A worker's step writes its own schedule under its fence, or nothing. */
  lemma WorkerRow(w: World, e: Event, i: Id)
    requires Enabled(w, e) && (e.Do? || e.Commit?) && i in w.rows
    ensures i in Next(w, e).rows
    ensures var k, r, r' := w.workers[e.worker], w.rows[i], Next(w, e).rows[i];
      r' == r || (i == k.schedule && Fenced(r, k.token, w.now)
                  && if e.Commit? then r' == Release(r, Published)
                     else React(k, e.act).value.update.Some? && r' == Apply(React(k, e.act).value.update.value, r, w.now))
  {
    match e {
      case Do(_, _) =>
      case Commit(_) =>
    }
  }

  // ---- rows ----

  ghost predicate RowsMove(w: World, w': World) {
    forall i | i in w.rows ::
      || (i in w'.rows && (Evolves(w.rows[i], w'.rows[i]) || Restores(w.rows[i], w'.rows[i])))
      || (i in w'.gone && w'.gone[i] == w.rows[i] && i !in w'.rows)
  }

  ghost predicate RowsEvolve(w: World, w': World) {
    w'.rows.Keys == w.rows.Keys && w'.gone == w.gone && forall i | i in w.rows :: Evolves(w.rows[i], w'.rows[i])
  }

  ghost predicate RowsOk(w: World, w': World) {
    RowsInv(w') && RowsEvolve(w, w')
  }

  lemma PutRow(w: World, w': World, id: Id, r: Schedule)
    requires RowsInv(w) && id in w.rows && w'.rows == w.rows[id := r] && w.tokens <= w'.tokens && w'.gone == w.gone
    requires RowInv(r) && Evolves(w.rows[id], r) && (r.attemptId.Some? ==> r.attemptId.value in w'.tokens)
    ensures RowsOk(w, w')
  {
  }

  lemma KeepRows(w: World, w': World)
    requires RowsInv(w) && w'.rows == w.rows && w.tokens <= w'.tokens && w'.gone == w.gone
    ensures RowsOk(w, w')
  {
  }

  lemma DoKeepsRows(w: World, worker: Id, act: Act)
    requires RowsInv(w) && WorkersInv(w) && Enabled(w, Do(worker, act))
    ensures RowsOk(w, Next(w, Do(worker, act)))
  {
    var k := w.workers[worker];
    assert About(k, w);
    var plan := React(k, act).value;
    if plan.update.Some? && Holds(w, k) {
      ActKeepsRow(k, act, w.rows[k.schedule], w.now);
      PutRow(w, Next(w, Do(worker, act)), k.schedule, Apply(plan.update.value, w.rows[k.schedule], w.now));
    } else {
      KeepRows(w, Next(w, Do(worker, act)));
    }
  }

  lemma CommitKeepsRows(w: World, worker: Id)
    requires RowsInv(w) && WorkersInv(w) && Enabled(w, Commit(worker))
    ensures RowsOk(w, Next(w, Commit(worker)))
  {
    var k := w.workers[worker];
    assert About(k, w);
    if Holds(w, k) && CanPublish(w.posts, k.post, k.phase.threadsPost) {
      PutRow(w, Next(w, Commit(worker)), k.schedule, Release(w.rows[k.schedule], Published));
    } else {
      KeepRows(w, Next(w, Commit(worker)));
    }
  }

  lemma ClaimKeepsRows(w: World, worker: Id, schedule: Id, token: Id)
    requires RowsInv(w) && Enabled(w, Claim(worker, schedule, token))
    ensures RowsOk(w, Next(w, Claim(worker, schedule, token)))
  {
    PutRow(w, Next(w, Claim(worker, schedule, token)), schedule, ClaimRow(w.rows[schedule], token, w.now));
  }

  lemma CancelKeepsRows(w: World, workspace: Id, schedule: Id)
    requires RowsInv(w)
    ensures RowsOk(w, Next(w, Cancel(workspace, schedule)))
  {
    var w' := Next(w, Cancel(workspace, schedule));
    if schedule in w.rows && Cancellable(w.rows[schedule], workspace) {
      PutRow(w, w', schedule, w.rows[schedule].(status := Cancelled));
    } else {
      KeepRows(w, w');
    }
  }

  lemma ResolveKeepsRows(w: World, call: Id, threadsPost: Option<Id>)
    requires RowsInv(w) && call in w.pending && w.pending[call].Resolving?
    ensures RowsOk(w, ResolveNext(w, call, threadsPost))
  {
    var w', id := ResolveNext(w, call, threadsPost), w.pending[call].schedule;
    if w'.rows == w.rows {
      KeepRows(w, w');
    } else {
      PutRow(w, w', id, w'.rows[id]);
    }
  }

  lemma SweepKeepsRows(w: World, call: Id)
    requires RowsInv(w) && SweepsInv(w) && Enabled(w, SweepWrite(call))
    ensures RowsOk(w, Next(w, SweepWrite(call)))
  {
    var id := w.pending[call].schedule;
    if id in w.rows && Stale(w.rows[id], w.now) {
      PutRow(w, Next(w, SweepWrite(call)), id, Release(w.rows[id], FailedPermanent));
    } else {
      KeepRows(w, Next(w, SweepWrite(call)));
    }
  }

  lemma CreateKeepsRows(w: World, call: Id, schedule: Id)
    requires RowsInv(w) && SweepsInv(w) && Enabled(w, CreateCommit(call, schedule))
    ensures RowsInv(Next(w, CreateCommit(call, schedule)))
    ensures RowsMove(w, Next(w, CreateCommit(call, schedule)))
  {
  }

  lemma ReconnectKeepsRows(w: World, account: Id)
    requires RowsInv(w)
    ensures RowsInv(Next(w, Reconnect(account)))
    ensures RowsMove(w, Next(w, Reconnect(account)))
  {
    var w' := Next(w, Reconnect(account));
    ReconnectRows(w, account);
    forall i | i in w'.rows
      ensures RowInv(w'.rows[i]) && (w'.rows[i].attemptId.Some? ==> w'.rows[i].attemptId.value in w'.tokens)
      ensures Evolves(w.rows[i], w'.rows[i]) || Restores(w.rows[i], w'.rows[i])
    {
      assert RowInv(w.rows[i]);
    }
  }

  lemma ReconnectRows(w: World, account: Id)
    ensures var w' := Next(w, Reconnect(account));
      && w'.rows.Keys == w.rows.Keys && w'.tokens == w.tokens && w'.gone == w.gone
      && forall i | i in w.rows :: w'.rows[i] == w.rows[i]
                                   || (Restorable(w.rows[i], account) && w'.rows[i] == w.rows[i].(status := Scheduled))
  {
  }

  /** A deletion removes schedules and changes none. */
  lemma DeletionKeepsRows(w: World, call: Id)
    requires RowsInv(w) && GoneInv(w) && Enabled(w, DeleteCommit(call))
    ensures RowsInv(Next(w, DeleteCommit(call)))
    ensures RowsMove(w, Next(w, DeleteCommit(call)))
  {
  }

  lemma StepKeepsRows(w: World, e: Event)
    requires RowsInv(w) && GoneInv(w) && WorkersInv(w) && SweepsInv(w) && Enabled(w, e)
    ensures RowsInv(Next(w, e)) && RowsMove(w, Next(w, e))
    ensures e.CreateCommit? || e.Reconnect? || e.DeleteCommit? || RowsEvolve(w, Next(w, e))
  {
    if e.Do? {
      DoKeepsRows(w, e.worker, e.act);
    } else if e.Commit? {
      CommitKeepsRows(w, e.worker);
    } else if e.Claim? {
      ClaimKeepsRows(w, e.worker, e.schedule, e.token);
    } else if e.Cancel? {
      CancelKeepsRows(w, e.workspace, e.schedule);
    } else if e.ResolveUnpublished? {
      ResolveKeepsRows(w, e.call, None);
    } else if e.ResolvePublished? {
      ResolveKeepsRows(w, e.call, Some(e.threadsPost));
    } else if e.SweepWrite? {
      SweepKeepsRows(w, e.call);
    } else if e.CreateCommit? {
      CreateKeepsRows(w, e.call, e.schedule);
    } else if e.Reconnect? {
      ReconnectKeepsRows(w, e.account);
    } else if e.DeleteCommit? {
      DeletionKeepsRows(w, e.call);
    } else {
      KeepRows(w, Next(w, e));
    }
  }

  /** The partial index can only stand in the way of an insertion or a reconnect. */
  lemma StepKeepsActive(w: World, e: Event)
    requires RowsInv(w) && GoneInv(w) && WorkersInv(w) && SweepsInv(w) && ActiveUnique(w.rows) && Enabled(w, e)
    ensures ActiveUnique(Next(w, e).rows)
  {
    if !e.CreateCommit? && !e.Reconnect? { StepKeepsRows(w, e); }
  }

  // ---- what is made stays made ----

  lemma NewRowIsNew(w: World, e: Event, i: Id)
    requires RowsInv(w) && GoneInv(w) && WorkersInv(w) && SweepsInv(w) && Enabled(w, e) && i in Next(w, e).rows && i !in w.rows
    ensures IsNew(Next(w, e).rows[i]) && !Made(w, i)
    ensures e.CreateCommit? && Next(w, e).rows[i] == w.pending[e.call].row
  {
    if e.CreateCommit? {
      assert PendingOk(w.pending[e.call], w);
    } else if !e.Reconnect? {
      StepKeepsRows(w, e);
    }
  }

  lemma GoneElsewhere(w: World, e: Event)
    requires Enabled(w, e) && !e.DeleteCommit?
    ensures Next(w, e).gone == w.gone && Next(w, e).erased == w.erased
  {
    if e.Do? {
      DoFrames(w, e.worker, e.act);
    } else if e.ResolveUnpublished? || e.ResolvePublished? {
      ResolveFrames(w, e);
    } else if e.Commit? {
      CommitFrames(w, e.worker);
    }
  }

  lemma GoneStays(w: World, e: Event, i: Id)
    requires RowsInv(w) && GoneInv(w) && WorkersInv(w) && SweepsInv(w) && Enabled(w, e) && i in w.gone
    ensures i in Next(w, e).gone && Next(w, e).gone[i] == w.gone[i] && i !in Next(w, e).rows
  {
    if i in Next(w, e).rows { NewRowIsNew(w, e, i); }
    if !e.DeleteCommit? { GoneElsewhere(w, e); }
  }

  lemma RowPersists(w: World, w': World, id: Id)
    requires RowsMove(w, w') && id in w.rows
    ensures Made(w', id)
    ensures var r, r' := w.rows[id], Last(w', id);
      && SameSchedule(r, r') && (r.publishRequestedAt.Some? ==> r'.publishRequestedAt.Some?)
      && (Traced(r) ==> Traced(r')) && (Settled(r) ==> r' == r)
  {
  }

  /** A schedule stays where it was, with its constant columns, its request and its trace, or is deleted. */
  lemma Persists(w: World, e: Event, i: Id)
    requires RowsInv(w) && GoneInv(w) && WorkersInv(w) && SweepsInv(w) && Enabled(w, e) && Made(w, i)
    ensures Made(Next(w, e), i) && (i in Next(w, e).rows ==> i in w.rows)
    ensures var r, r' := Last(w, i), Last(Next(w, e), i);
      && SameSchedule(r, r') && (r.publishRequestedAt.Some? ==> r'.publishRequestedAt.Some?)
      && (Traced(r) ==> Traced(r')) && (Settled(r) ==> r' == r)
  {
    StepKeepsRows(w, e);
    if i in w.rows { RowPersists(w, Next(w, e), i); } else { GoneStays(w, e, i); }
  }

  // ---- workers ----

  /** A worker that does not act keeps what it knows, or loses its token. */
  lemma Bystander(k: Worker, w: World, w': World)
    requires About(k, w) && Made(w', k.schedule) && w.tokens <= w'.tokens
    requires k.schedule in w'.rows ==> k.schedule in w.rows
    requires var r, r' := Last(w, k.schedule), Last(w', k.schedule);
      && SameSchedule(r, r') && (r.publishRequestedAt.Some? ==> r'.publishRequestedAt.Some?)
      && (r' == r || r'.attemptId != Some(k.token))
    requires k.Working? && k.phase.Calling? ==> k.schedule !in w'.calls
    ensures About(k, w')
  {
  }

  /** A schedule written by another worker or a service no longer carries the token. */
  lemma WorkerTakesToken(w: World, e: Event, k: Worker)
    requires RowsInv(w) && WorkersInv(w) && Enabled(w, e) && (e.Do? || e.Commit?)
    requires k.schedule in w.rows && Apart(k, w.workers[e.worker])
    ensures k.schedule in Next(w, e).rows
    ensures Next(w, e).rows[k.schedule] == w.rows[k.schedule] || Next(w, e).rows[k.schedule].attemptId != Some(k.token)
  {
    var l := w.workers[e.worker];
    assert About(l, w);
    WorkerRow(w, e, k.schedule);
    if e.Do? && React(l, e.act).value.update.Some? && Holds(w, l) && k.schedule == l.schedule {
      ActKeepsRow(l, e.act, w.rows[k.schedule], w.now);
    }
  }

  lemma ServiceTakesToken(w: World, e: Event, k: Worker)
    requires RowsInv(w) && Enabled(w, e) && !e.Do? && !e.Commit? && !e.DeleteCommit? && k.schedule in w.rows && k.token in w.tokens
    ensures k.schedule in Next(w, e).rows
    ensures Next(w, e).rows[k.schedule] == w.rows[k.schedule] || Next(w, e).rows[k.schedule].attemptId != Some(k.token)
  {
    ServiceRow(w, e, k.schedule);
  }

  /** No step but those of worker `a` itself touches a schedule and leaves `a` its token. */
  lemma TokenIsLost(w: World, e: Event, a: Id)
    requires RowsInv(w) && WorkersInv(w) && Enabled(w, e) && a in w.workers
    requires e.Read? || e.Do? || e.Commit? || e.Crash? ==> e.worker != a
    requires w.workers[a].schedule in w.rows && w.workers[a].schedule in Next(w, e).rows
    ensures var k, w' := w.workers[a], Next(w, e);
      w'.rows[k.schedule] == w.rows[k.schedule] || w'.rows[k.schedule].attemptId != Some(k.token)
  {
    var k := w.workers[a];
    assert About(k, w);
    if e.DeleteCommit? {
    } else if e.Do? || e.Commit? {
      assert Apart(k, w.workers[e.worker]);
      WorkerTakesToken(w, e, k);
    } else {
      ServiceTakesToken(w, e, k);
    }
  }

  /** Only a worker's own call adds its schedule to those called for. */
  lemma CallsElsewhere(w: World, e: Event, a: Id)
    requires WorkersInv(w) && Enabled(w, e) && a in w.workers && w.workers[a].Working? && w.workers[a].phase.Calling?
    requires e.Do? ==> e.worker != a
    ensures w.workers[a].schedule !in Next(w, e).calls
  {
    assert About(w.workers[a], w);
    if e.Do? {
      assert Apart(w.workers[a], w.workers[e.worker]);
      DoFrames(w, e.worker, e.act);
      ActKeepsWorker(w.workers[e.worker], e.act);
    } else {
      CallsStay(w, e);
    }
  }

  lemma TokensGrow(w: World, e: Event)
    requires Enabled(w, e)
    ensures w.tokens <= Next(w, e).tokens
  {
    if e.Do? {
      DoFrames(w, e.worker, e.act);
    } else if e.Commit? {
      CommitFrames(w, e.worker);
    } else if e.ResolveUnpublished? || e.ResolvePublished? {
      ResolveFrames(w, e);
    }
  }

  lemma GoneTakesNothing(w: World, e: Event, i: Id)
    requires RowsInv(w) && GoneInv(w) && WorkersInv(w) && SweepsInv(w) && Enabled(w, e) && i in w.rows && i !in Next(w, e).rows
    ensures i in Next(w, e).gone && Next(w, e).gone[i] == w.rows[i]
  {
    StepKeepsRows(w, e);
  }

  lemma BystandersKeep(w: World, e: Event, a: Id)
    requires RowsInv(w) && GoneInv(w) && WorkersInv(w) && SweepsInv(w) && Enabled(w, e) && a in w.workers
    requires e.Read? || e.Do? || e.Commit? || e.Crash? ==> e.worker != a
    ensures About(w.workers[a], Next(w, e))
  {
    var k, w' := w.workers[a], Next(w, e);
    assert About(k, w);
    Persists(w, e, k.schedule);
    if k.schedule in w'.rows { TokenIsLost(w, e, a); } else if k.schedule in w.rows { GoneTakesNothing(w, e, k.schedule); }
    if k.schedule in w.gone { GoneStays(w, e, k.schedule); }
    TokensGrow(w, e);
    if k.Working? && k.phase.Calling? { CallsElsewhere(w, e, a); }
    Bystander(k, w, w');
  }

  /** A worker that carries out a plan knows what it needs if the plan's two outcomes do. */
  lemma CarryKeepsAbout(w: World, worker: Id, plan: Plan, calls: bool)
    requires worker in w.workers && About(w.workers[worker], w)
    requires var k, r := w.workers[worker], Last(w, w.workers[worker].schedule);
      && k.Working?
      && (forall l: Worker | plan.go == Some(l) || plan.no == Some(l) :: l.Working? && SameWorker(k, l))
      && (forall l: Worker | plan.no == Some(l) ::
            !l.phase.Calling? && (k.schedule in w.rows && r.attemptId == Some(k.token) ==> Knows(l, r)))
      && (forall l: Worker | plan.go == Some(l) && plan.update.None? ::
            !l.phase.Calling? && (k.schedule in w.rows && r.attemptId == Some(k.token) ==> Knows(l, r)))
      && (plan.update.Some? && Holds(w, k) ==> SameSchedule(r, Apply(plan.update.value, r, w.now)))
      && (forall l: Worker | plan.go == Some(l) && plan.update.Some? && Holds(w, k) ::
            Knows(l, Apply(plan.update.value, r, w.now))
            && (l.phase.Calling? ==> Apply(plan.update.value, r, w.now).publishRequestedAt.Some? && k.schedule !in w.calls))
    ensures var w' := Carry(w, worker, plan, calls); worker in w'.workers ==> About(w'.workers[worker], w')
  {
  }

  lemma DoKeepsAbout(w: World, worker: Id, act: Act)
    requires RowsInv(w) && WorkersInv(w) && CallsInv(w) && Enabled(w, Do(worker, act))
    ensures var w' := Next(w, Do(worker, act)); worker in w'.workers ==> About(w'.workers[worker], w')
  {
    var k := w.workers[worker];
    var plan := React(k, act).value;
    assert About(k, w);
    ActKeepsWorker(k, act);
    if k.schedule in w.rows && w.rows[k.schedule].attemptId == Some(k.token) {
      ActKeepsKnowledge(k, act, w.rows[k.schedule], w.now);
    }
    if plan.update.Some? && Holds(w, k) { ActKeepsRow(k, act, w.rows[k.schedule], w.now); }
    CarryKeepsAbout(w, worker, plan, act.Call?);
  }

  lemma DoKeepsApart(w: World, worker: Id, act: Act, b: Id)
    requires RowsInv(w) && WorkersInv(w) && CallsInv(w) && Enabled(w, Do(worker, act)) && b in w.workers && b != worker
    ensures var w' := Next(w, Do(worker, act)); worker in w'.workers ==> Apart(w'.workers[worker], w.workers[b])
  {
    var k := w.workers[worker];
    assert About(k, w) && About(w.workers[b], w) && Apart(k, w.workers[b]);
    ActKeepsWorker(k, act);
  }

  lemma DoKeepsActor(w: World, worker: Id, act: Act)
    requires RowsInv(w) && WorkersInv(w) && CallsInv(w) && Enabled(w, Do(worker, act))
    ensures var w' := Next(w, Do(worker, act));
      worker in w'.workers ==>
        && About(w'.workers[worker], w')
        && forall b | b in w.workers && b != worker :: Apart(w'.workers[worker], w.workers[b])
  {
    DoKeepsAbout(w, worker, act);
    forall b | b in w.workers && b != worker && worker in Next(w, Do(worker, act)).workers
      ensures Apart(Next(w, Do(worker, act)).workers[worker], w.workers[b])
    {
      DoKeepsApart(w, worker, act, b);
    }
  }

  lemma ReaderKnows(w: World, worker: Id)
    requires RowsInv(w) && WorkersInv(w) && Enabled(w, Read(worker)) && worker in Next(w, Read(worker)).workers
    ensures About(Next(w, Read(worker)).workers[worker], Next(w, Read(worker)))
  {
    assert About(w.workers[worker], w);
  }

  lemma CommitterFails(w: World, worker: Id)
    requires Enabled(w, Commit(worker)) && worker in Next(w, Commit(worker)).workers
    ensures Next(w, Commit(worker)) == w.(workers := w.workers[worker := w.workers[worker].(phase := Failing(Transient))])
  {
  }

  lemma CommitterKnows(w: World, worker: Id)
    requires RowsInv(w) && WorkersInv(w) && Enabled(w, Commit(worker)) && worker in Next(w, Commit(worker)).workers
    ensures About(Next(w, Commit(worker)).workers[worker], Next(w, Commit(worker)))
  {
    CommitterFails(w, worker);
    assert About(w.workers[worker], w);
  }

  lemma ClaimerKnows(w: World, worker: Id, schedule: Id, token: Id)
    requires Enabled(w, Claim(worker, schedule, token))
    ensures var w' := Next(w, Claim(worker, schedule, token)); worker in w'.workers && About(w'.workers[worker], w')
  {
  }

  lemma OtherActorKnows(w: World, e: Event)
    requires RowsInv(w) && GoneInv(w) && WorkersInv(w) && SweepsInv(w) && Enabled(w, e)
    requires (e.Read? || e.Commit? || e.Claim?) && e.worker in Next(w, e).workers
    ensures About(Next(w, e).workers[e.worker], Next(w, e))
  {
    if e.Read? {
      ReaderKnows(w, e.worker);
    } else if e.Commit? {
      CommitterKnows(w, e.worker);
    } else {
      ClaimerKnows(w, e.worker, e.schedule, e.token);
    }
  }

  /** A worker that keeps its token and is not about to call stays apart from the others. */
  lemma StaysApart(k: Worker, k': Worker, l: Worker)
    requires Apart(k, l) && k'.token == k.token && !(k'.Working? && k'.phase.Calling?)
    ensures Apart(k', l)
  {
  }

  lemma KeepsToken(w: World, e: Event)
    requires Enabled(w, e) && (e.Read? || e.Commit?) && e.worker in Next(w, e).workers
    ensures e.worker in w.workers && Next(w, e).workers[e.worker].token == w.workers[e.worker].token
    ensures Next(w, e).workers[e.worker].Working? && !Next(w, e).workers[e.worker].phase.Calling?
  {
    match e {
      case Read(_) =>
      case Commit(_) =>
    }
  }

  lemma NewToken(w: World, worker: Id, schedule: Id, token: Id)
    requires Enabled(w, Claim(worker, schedule, token))
    ensures var w' := Next(w, Claim(worker, schedule, token));
      worker in w'.workers && w'.workers[worker].Claiming? && w'.workers[worker].token == token
  {
  }

  lemma OtherActorApart(w: World, e: Event, b: Id)
    requires WorkersInv(w) && Enabled(w, e) && (e.Read? || e.Commit? || e.Claim?) && e.worker in Next(w, e).workers
    requires b in w.workers && b != e.worker
    ensures Apart(Next(w, e).workers[e.worker], w.workers[b])
  {
    assert About(w.workers[b], w);
    if e.Claim? {
      NewToken(w, e.worker, e.schedule, e.token);
    } else {
      KeepsToken(w, e);
      StaysApart(w.workers[e.worker], Next(w, e).workers[e.worker], w.workers[b]);
    }
  }

  lemma OtherActors(w: World, e: Event)
    requires RowsInv(w) && GoneInv(w) && WorkersInv(w) && SweepsInv(w) && Enabled(w, e)
    requires (e.Read? || e.Commit? || e.Claim?) && e.worker in Next(w, e).workers
    ensures About(Next(w, e).workers[e.worker], Next(w, e))
    ensures forall b | b in w.workers && b != e.worker :: Apart(Next(w, e).workers[e.worker], w.workers[b])
  {
    OtherActorKnows(w, e);
    forall b | b in w.workers && b != e.worker ensures Apart(Next(w, e).workers[e.worker], w.workers[b]) {
      OtherActorApart(w, e, b);
    }
  }

  predicate Acts(e: Event, a: Id) {
    (e.Read? || e.Do? || e.Commit? || e.Crash? || e.Claim?) && e.worker == a
  }

  lemma OnlyWorkersAct(w: World, e: Event)
    requires Enabled(w, e) && !(e.Read? || e.Do? || e.Commit? || e.Crash? || e.Claim?)
    ensures Next(w, e).workers == w.workers
  {
  }

  lemma OneWorkerActs(w: World, e: Event)
    requires Enabled(w, e) && (e.Read? || e.Do? || e.Commit? || e.Crash? || e.Claim?)
    ensures var w' := Next(w, e);
      && (w'.workers.Keys == w.workers.Keys + {e.worker} || w'.workers.Keys == w.workers.Keys - {e.worker})
      && forall a | a in w.workers && a != e.worker :: w'.workers[a] == w.workers[a]
  {
    match e {
      case Read(_) =>
      case Do(worker, act) => DoActs(w, worker, act);
      case Commit(_) =>
      case Crash(_) =>
      case Claim(_, _, _) =>
    }
  }

  lemma OneWorkerSet(w: World, worker: Id, k: Option<Worker>)
    requires worker in w.workers
    ensures var after := SetWorker(w, worker, k).workers;
      && (after.Keys == w.workers.Keys + {worker} || after.Keys == w.workers.Keys - {worker})
      && forall a | a in w.workers && a != worker :: after[a] == w.workers[a]
  {
  }

  lemma CarryActs(w: World, worker: Id, plan: Plan, calls: bool)
    requires worker in w.workers
    ensures var w' := Carry(w, worker, plan, calls);
      && (w'.workers.Keys == w.workers.Keys + {worker} || w'.workers.Keys == w.workers.Keys - {worker})
      && forall a | a in w.workers && a != worker :: w'.workers[a] == w.workers[a]
  {
    OneWorkerSet(w, worker, plan.go);
    OneWorkerSet(w, worker, plan.no);
    assert Carry(w, worker, plan, calls).workers in {SetWorker(w, worker, plan.go).workers, SetWorker(w, worker, plan.no).workers};
  }

  lemma DoActs(w: World, worker: Id, act: Act)
    requires Enabled(w, Do(worker, act))
    ensures var w' := Next(w, Do(worker, act));
      && (w'.workers.Keys == w.workers.Keys + {worker} || w'.workers.Keys == w.workers.Keys - {worker})
      && forall a | a in w.workers && a != worker :: w'.workers[a] == w.workers[a]
  {
    CarryActs(w, worker, React(w.workers[worker], act).value, act.Call?);
  }

  lemma OthersStay(w: World, e: Event, a: Id)
    requires Enabled(w, e) && !Acts(e, a)
    ensures var w' := Next(w, e);
      (a in w'.workers <==> a in w.workers) && (a in w.workers ==> w'.workers[a] == w.workers[a])
  {
    if e.Read? || e.Do? || e.Commit? || e.Crash? || e.Claim? { OneWorkerActs(w, e); } else { OnlyWorkersAct(w, e); }
  }

  lemma ActorKeeps(w: World, e: Event, a: Id)
    requires RowsInv(w) && GoneInv(w) && WorkersInv(w) && SweepsInv(w) && CallsInv(w) && Enabled(w, e)
    requires Acts(e, a) && a in Next(w, e).workers
    ensures About(Next(w, e).workers[a], Next(w, e))
    ensures forall b | b in w.workers && b != a :: Apart(Next(w, e).workers[a], w.workers[b])
  {
    if e.Do? { DoKeepsActor(w, a, e.act); } else { OtherActors(w, e); }
  }

  lemma StepKeepsWorkers(w: World, e: Event)
    requires RowsInv(w) && GoneInv(w) && WorkersInv(w) && SweepsInv(w) && CallsInv(w) && Enabled(w, e)
    ensures WorkersInv(Next(w, e))
  {
    var w' := Next(w, e);
    forall a | a in w'.workers ensures About(w'.workers[a], w') {
      if Acts(e, a) { ActorKeeps(w, e, a); } else { OthersStay(w, e, a); BystandersKeep(w, e, a); }
    }
    forall a, b | a in w'.workers && b in w'.workers && a != b ensures Apart(w'.workers[a], w'.workers[b]) {
      if Acts(e, a) {
        OthersStay(w, e, b);
        ActorKeeps(w, e, a);
      } else if Acts(e, b) {
        OthersStay(w, e, a);
        ActorKeeps(w, e, b);
      } else {
        OthersStay(w, e, a);
        OthersStay(w, e, b);
      }
    }
  }

  // ---- calls, posts, decisions, sweeps ----

  /** A call adds a schedule that was not called for before, and whose request is on record. */
  lemma CallComes(w: World, e: Event)
    requires WorkersInv(w) && Enabled(w, e) && Next(w, e).calls != w.calls
    ensures e.Do? && e.act.Call? && e.worker in w.workers && w.workers[e.worker].Working?
    ensures var id, w' := w.workers[e.worker].schedule, Next(w, e);
      && w'.calls == w.calls + [id] && id !in w.calls && w'.rows == w.rows
      && Made(w, id) && Last(w, id).publishRequestedAt.Some?
  {
    if !e.Do? { CallsStay(w, e); } else { CallComesByDo(w, e.worker, e.act); }
  }

  lemma CallsStay(w: World, e: Event)
    requires Enabled(w, e) && !e.Do?
    ensures Next(w, e).calls == w.calls
  {
    if e.Commit? {
      CommitFrames(w, e.worker);
    } else if e.ResolveUnpublished? || e.ResolvePublished? {
      ResolveFrames(w, e);
    } else {
      OtherCallsStay(w, e);
    }
  }

  lemma OtherCallsStay(w: World, e: Event)
    requires Enabled(w, e) && !e.Do? && !e.Commit? && !e.ResolveUnpublished? && !e.ResolvePublished?
    ensures Next(w, e).calls == w.calls
  {
  }

  lemma CallComesByDo(w: World, worker: Id, act: Act)
    requires WorkersInv(w) && Enabled(w, Do(worker, act)) && Next(w, Do(worker, act)).calls != w.calls
    ensures var id, w' := w.workers[worker].schedule, Next(w, Do(worker, act));
      && act.Call? && w'.calls == w.calls + [id] && id !in w.calls && w'.rows == w.rows
      && Made(w, id) && Last(w, id).publishRequestedAt.Some?
  {
    var k := w.workers[worker];
    assert About(k, w);
    DoFrames(w, worker, act);
    ActKeepsWorker(k, act);
  }

  lemma StepKeepsCalls(w: World, e: Event)
    requires RowsInv(w) && GoneInv(w) && WorkersInv(w) && SweepsInv(w) && CallsInv(w) && Enabled(w, e)
    ensures CallsInv(Next(w, e))
  {
    var w' := Next(w, e);
    if w'.calls != w.calls { CallComes(w, e); }
    forall i | i in w'.calls ensures Made(w', i) && Last(w', i).publishRequestedAt.Some? {
      Persists(w, e, i);
    }
  }

  lemma TimesSnoc(s: seq<Id>, x: Id, i: Id)
    ensures Times(s + [x], i) == Times(s, i) + if x == i then 1 else 0
  {
    assert (s + [x])[..|s|] == s;
  }

  lemma ApplyCounts(u: Update, r: Schedule, now: Time)
    ensures Apply(u, r, now).attemptCount == r.attemptCount + if u.Count? then 1 else 0
    ensures Apply(u, r, now).containerAttempts == r.containerAttempts + if u.BeginContainer? then 1 else 0
  {
  }

  lemma OneMore(s: seq<Id>, s': seq<Id>, id: Id, more: bool, i: Id, n: nat, n': nat)
    requires Times(s, i) == n && s' == if more then s + [id] else s
    requires n' == n + if more && id == i then 1 else 0
    ensures Times(s', i) == n'
  {
    if more { TimesSnoc(s, id, i); }
  }

  lemma PutCounts(w: World, w': World, id: Id, r: Schedule, executes: bool, contains: bool, i: Id)
    requires Counted(w, i) && id in w.rows && w'.rows == w.rows[id := r] && w'.gone == w.gone
    requires r.attemptCount == w.rows[id].attemptCount + if executes then 1 else 0
    requires r.containerAttempts == w.rows[id].containerAttempts + if contains then 1 else 0
    requires w'.executions == if executes then w.executions + [id] else w.executions
    requires w'.containers == if contains then w.containers + [id] else w.containers
    ensures Counted(w', i)
  {
    assert i != id ==> Executions(w', i) == Executions(w, i) && Containers(w', i) == Containers(w, i);
    OneMore(w.executions, w'.executions, id, executes, i, Executions(w, i), Executions(w', i));
    OneMore(w.containers, w'.containers, id, contains, i, Containers(w, i), Containers(w', i));
  }

  lemma CarryKeepsCounts(w: World, worker: Id, plan: Plan, calls: bool, i: Id)
    requires Counted(w, i) && worker in w.workers
    ensures Counted(Carry(w, worker, plan, calls), i)
  {
    var k := w.workers[worker];
    if plan.update.Some? && Holds(w, k) {
      var u, r := plan.update.value, w.rows[k.schedule];
      ApplyCounts(u, r, w.now);
      PutCounts(w, Carry(w, worker, plan, calls), k.schedule, Apply(u, r, w.now), u.Count?, u.BeginContainer?, i);
    }
  }

  lemma DoKeepsCounts(w: World, worker: Id, act: Act, i: Id)
    requires CountsInv(w) && Enabled(w, Do(worker, act))
    ensures Counted(Next(w, Do(worker, act)), i)
  {
    assert Counted(w, i);
    CarryKeepsCounts(w, worker, React(w.workers[worker], act).value, act.Call?, i);
  }

  lemma HistoryKept(w: World, e: Event)
    requires Enabled(w, e) && !e.Do?
    ensures Next(w, e).executions == w.executions && Next(w, e).containers == w.containers
  {
    if e.Commit? {
      CommitFrames(w, e.worker);
    } else if e.ResolveUnpublished? || e.ResolvePublished? {
      ResolveFrames(w, e);
    } else {
      OtherHistoryKept(w, e);
    }
  }

  lemma OtherHistoryKept(w: World, e: Event)
    requires Enabled(w, e) && !e.Do? && !e.Commit? && !e.ResolveUnpublished? && !e.ResolvePublished?
    ensures Next(w, e).executions == w.executions && Next(w, e).containers == w.containers
  {
  }

  /** The counters move only with what they count. */
  lemma StepKeepsCounts(w: World, e: Event)
    requires RowsInv(w) && GoneInv(w) && WorkersInv(w) && SweepsInv(w) && CountsInv(w) && Enabled(w, e)
    ensures CountsInv(Next(w, e))
  {
    forall i ensures Counted(Next(w, e), i) {
      assert Counted(w, i);
      if e.Do? {
        DoKeepsCounts(w, e.worker, e.act, i);
      } else {
        HistoryKept(w, e);
        if i in w.gone {
          GoneStays(w, e, i);
        } else if e.DeleteCommit? {
        } else if i !in w.rows {
          GoneElsewhere(w, e);
          if i in Next(w, e).rows { NewRowIsNew(w, e, i); }
        } else if e.Commit? {
          WorkerRow(w, e, i);
        } else {
          ServiceRow(w, e, i);
        }
      }
    }
  }

  /** A schedule becomes PUBLISHED exactly together with the insertion of its post. */
  ghost predicate PublishesAt(w: World, w': World, id: Id) {
    && id in w.rows && id in w'.rows && !w.rows[id].status.Published?
    && w'.rows == w.rows[id := w'.rows[id]] && w'.rows[id].status.Published?
    && SameSchedule(w.rows[id], w'.rows[id])
    && (w.rows[id].draft, w.rows[id].account) !in w.posts
    && (exists threadsPost ::
          w'.posts == w.posts[(w.rows[id].draft, w.rows[id].account) := Post(w.rows[id].version, threadsPost)])
  }

  ghost predicate PublishesNothing(w: World, w': World) {
    w'.posts == w.posts
    && (forall i | i in w'.rows && w'.rows[i].status.Published? :: i in w.rows && w.rows[i] == w'.rows[i])
    && (forall i | i in w.rows && w.rows[i].status.Published? :: i in w'.rows && w'.rows[i] == w.rows[i])
  }

  lemma PublishKeepsPosts(w: World, w': World, id: Id)
    requires PostsInv(w) && PublishesAt(w, w', id) && w'.imported == w.imported
    ensures PostsInv(w')
  {
    var key := (w.rows[id].draft, w.rows[id].account);
    forall k | k in w'.posts && k !in w'.imported
      ensures exists i :: i in w'.rows && w'.rows[i].status.Published? && (w'.rows[i].draft, w'.rows[i].account) == k
    {
      if k == key {
        assert w'.rows[id].status.Published?;
      } else {
        var i :| i in w.rows && w.rows[i].status.Published? && (w.rows[i].draft, w.rows[i].account) == k;
        assert w'.rows[i] == w.rows[i];
      }
    }
  }

  lemma SilenceKeepsPosts(w: World, w': World)
    requires PostsInv(w) && PublishesNothing(w, w') && w'.imported == w.imported
    ensures PostsInv(w')
  {
    forall k | k in w'.posts && k !in w'.imported
      ensures exists i :: i in w'.rows && w'.rows[i].status.Published? && (w'.rows[i].draft, w'.rows[i].account) == k
    {
      var i :| i in w.rows && w.rows[i].status.Published? && (w.rows[i].draft, w.rows[i].account) == k;
      assert w'.rows[i] == w.rows[i];
    }
  }

  lemma CommitPublishes(w: World, worker: Id)
    requires RowsInv(w) && WorkersInv(w) && Enabled(w, Commit(worker))
    ensures var w', id := Next(w, Commit(worker)), w.workers[worker].schedule;
      PublishesAt(w, w', id) || (w'.rows == w.rows && w'.posts == w.posts)
  {
    var k, w' := w.workers[worker], Next(w, Commit(worker));
    assert About(k, w);
    if w'.rows != w.rows {
      assert w'.posts == w.posts[(k.post.draft, k.post.account) := Post(k.post.version, k.phase.threadsPost)];
    }
  }

  lemma ResolvePublishes(w: World, call: Id, threadsPost: Id)
    requires RowsInv(w) && Enabled(w, ResolvePublished(call, threadsPost))
    ensures var w', id := Next(w, ResolvePublished(call, threadsPost)), w.pending[call].schedule;
      PublishesAt(w, w', id) || (w'.rows == w.rows && w'.posts == w.posts)
  {
    var id, w' := w.pending[call].schedule, Next(w, ResolvePublished(call, threadsPost));
    if w'.rows != w.rows {
      var r := w.rows[id];
      assert w'.posts == w.posts[(r.draft, r.account) := Post(r.version, threadsPost)];
    }
  }

  lemma PublishedBefore(w: World, e: Event, i: Id)
    requires RowsInv(w) && GoneInv(w) && WorkersInv(w) && SweepsInv(w) && Enabled(w, e) && !e.Commit? && !e.ResolvePublished?
    requires i in Next(w, e).rows && Next(w, e).rows[i].status.Published?
    ensures i in w.rows && w.rows[i].status.Published?
  {
    if i !in w.rows {
      NewRowIsNew(w, e, i);
    } else if e.DeleteCommit? {
    } else if e.Do? {
      var k := w.workers[e.worker];
      assert About(k, w);
      WorkerRow(w, e, i);
      if i == k.schedule && React(k, e.act).value.update.Some? && Holds(w, k) {
        ActKeepsRow(k, e.act, w.rows[i], w.now);
      }
    } else {
      ServiceRow(w, e, i);
    }
  }

  lemma PostsUntouched(w: World, e: Event)
    requires Enabled(w, e) && !e.Commit? && !e.ResolvePublished? && !e.Ingest?
    ensures Next(w, e).posts == w.posts
  {
    if e.Do? { DoFrames(w, e.worker, e.act); }
  }

  /** A deletion leaves the published schedules, whose posts stand in its way. */
  lemma PublishedIsKept(w: World, call: Id, i: Id)
    requires PostsInv(w) && SweepsInv(w) && Enabled(w, DeleteCommit(call)) && i in w.rows && w.rows[i].status.Published?
    ensures i in Next(w, DeleteCommit(call)).rows
  {
    assert PendingOk(w.pending[call], w);
    if i in w.pending[call].found {
      assert Made(w, i) && w.rows[i].draft == w.pending[call].draft;
      assert (w.rows[i].draft, w.rows[i].account) in w.posts;
    }
  }

  lemma OthersPublishNothing(w: World, e: Event)
    requires RowsInv(w) && GoneInv(w) && WorkersInv(w) && SweepsInv(w) && PostsInv(w) && Enabled(w, e)
    requires !e.Commit? && !e.ResolvePublished? && !e.Ingest?
    ensures PublishesNothing(w, Next(w, e))
  {
    var w' := Next(w, e);
    PostsUntouched(w, e);
    forall i | i in w'.rows && w'.rows[i].status.Published? ensures i in w.rows && w.rows[i] == w'.rows[i] {
      PublishedBefore(w, e, i);
      Persists(w, e, i);
    }
    forall i | i in w.rows && w.rows[i].status.Published? ensures i in w'.rows && w'.rows[i] == w.rows[i] {
      Persists(w, e, i);
      if e.DeleteCommit? { PublishedIsKept(w, e.call, i); } else { RowsStay(w, e, i); }
    }
  }

  lemma RowsStay(w: World, e: Event, i: Id)
    requires RowsInv(w) && GoneInv(w) && WorkersInv(w) && SweepsInv(w) && Enabled(w, e) && !e.DeleteCommit? && i in w.rows
    ensures i in Next(w, e).rows
  {
    if e.Do? || e.Commit? { WorkerRow(w, e, i); } else { ServiceRow(w, e, i); }
  }

  lemma ImportedElsewhere(w: World, e: Event)
    requires Enabled(w, e) && !e.Ingest?
    ensures Next(w, e).imported == w.imported
  {
    if e.Do? {
      DoFrames(w, e.worker, e.act);
    } else if e.Commit? {
      CommitFrames(w, e.worker);
    } else if e.ResolveUnpublished? || e.ResolvePublished? {
      ResolveFrames(w, e);
    }
  }

  /** An imported post is that of no schedule. */
  lemma IngestKeepsPosts(w: World, draft: Id, account: Id, version: Id, threadsPost: Id)
    requires PostsInv(w) && Enabled(w, Ingest(draft, account, version, threadsPost))
    ensures PostsInv(IngestNext(w, draft, account, version, threadsPost))
  {
    var w' := IngestNext(w, draft, account, version, threadsPost);
    forall i | i in w'.rows && w'.rows[i].status.Published?
      ensures Of(w'.rows[i]) in w'.posts && w'.posts[Of(w'.rows[i])].version == w'.rows[i].version
    {
      assert Made(w, i);
      assert Of(w.rows[i]) == (w.rows[i].draft, w.rows[i].account);
    }
    forall k | k in w'.posts && k !in w'.imported
      ensures exists i :: i in w'.rows && w'.rows[i].status.Published? && (w'.rows[i].draft, w'.rows[i].account) == k
    {
      var i :| i in w.rows && w.rows[i].status.Published? && (w.rows[i].draft, w.rows[i].account) == k;
      assert w'.rows[i] == w.rows[i];
    }
  }

  /** Posts stay as they are. */
  lemma PostsGrow(w: World, e: Event, k: (Id, Id))
    requires RowsInv(w) && WorkersInv(w) && Enabled(w, e) && k in w.posts
    ensures k in Next(w, e).posts && Next(w, e).posts[k] == w.posts[k]
  {
    if e.Commit? {
      CommitPublishes(w, e.worker);
    } else if e.ResolvePublished? {
      ResolvePublishes(w, e.call, e.threadsPost);
    } else if e.Ingest? {
      IngestGrows(w, e.draft, e.account, e.version, e.threadsPost, k);
    } else {
      PostsUntouched(w, e);
    }
  }

  lemma IngestGrows(w: World, draft: Id, account: Id, version: Id, threadsPost: Id, k: (Id, Id))
    requires Enabled(w, Ingest(draft, account, version, threadsPost)) && k in w.posts
    ensures var w' := Next(w, Ingest(draft, account, version, threadsPost)); k in w'.posts && w'.posts[k] == w.posts[k]
  {
    assert k.0 != draft;
  }

  /** An insertion gets pending by a call that has made its checks. */
  lemma InsertionComes(w: World, e: Event, c: Id)
    requires Enabled(w, e) && c in Next(w, e).pending && Next(w, e).pending[c].Inserting?
    ensures (c in w.pending && w.pending[c] == Next(w, e).pending[c])
            || (e.CreateRead? && Next(w, e).pending[c].row == e.row && MayCreate(w, e.row))
            || (e.PlanRead? && Next(w, e).pending[c].row == e.row && MayPlan(w, e.row))
  {
    if e.Do? {
      DoFrames(w, e.worker, e.act);
    } else if e.Commit? {
      CommitFrames(w, e.worker);
    } else if e.ResolveUnpublished? || e.ResolvePublished? {
      ResolveFrames(w, e);
    }
  }

  /** Either service's checks include that the draft is there and not published to the account. */
  lemma ComesUnpublished(w: World, e: Event, c: Id)
    requires Enabled(w, e) && c in Next(w, e).pending && Next(w, e).pending[c].Inserting?
    ensures var row := Next(w, e).pending[c].row;
      (c in w.pending && w.pending[c] == Next(w, e).pending[c]) || (row.draft !in w.erased && Of(row) !in w.posts)
  {
    InsertionComes(w, e, c);
    var k := Of(Next(w, e).pending[c].row);
    if e.PlanRead? && k in w.posts { assert k.0 == k.0; }
  }

  lemma ImportedStays(w: World, e: Event, k: (Id, Id))
    requires Inv(w) && Enabled(w, e) && k in w.imported
    ensures var w' := Next(w, e);
      && k in w'.posts && (forall i | Made(w', i) :: Of(Last(w', i)) != k)
      && (forall c | c in w'.pending && w'.pending[c].Inserting? :: Of(w'.pending[c].row) != k)
  {
    var w' := Next(w, e);
    PostsGrow(w, e, k);
    forall i | Made(w', i) ensures Of(Last(w', i)) != k {
      if Made(w, i) {
        Persists(w, e, i);
      } else {
        if i in w'.rows { NewRowIsNew(w, e, i); } else { GoneComes(w, e, i); }
      }
    }
    forall c | c in w'.pending && w'.pending[c].Inserting? ensures Of(w'.pending[c].row) != k {
      ComesUnpublished(w, e, c);
    }
  }

  lemma GoneComes(w: World, e: Event, i: Id)
    requires Enabled(w, e) && i in Next(w, e).gone
    ensures Made(w, i)
  {
    if !e.DeleteCommit? { GoneElsewhere(w, e); }
  }

  lemma IngestedIsNew(w: World, draft: Id, account: Id, version: Id, threadsPost: Id)
    requires ImportedInv(w) && Enabled(w, Ingest(draft, account, version, threadsPost))
    ensures ImportedInv(IngestNext(w, draft, account, version, threadsPost))
  {
    var w' := IngestNext(w, draft, account, version, threadsPost);
    forall k | k in w'.imported
      ensures k in w'.posts && (forall i | Made(w', i) :: Of(Last(w', i)) != k)
              && (forall c | c in w'.pending && w'.pending[c].Inserting? :: Of(w'.pending[c].row) != k)
    {
      forall i | Made(w', i) ensures Of(Last(w', i)) != k { assert Made(w, i) && Last(w', i) == Last(w, i); }
    }
  }

  lemma StepKeepsImported(w: World, e: Event)
    requires Inv(w) && Enabled(w, e)
    ensures ImportedInv(Next(w, e))
  {
    if e.Ingest? {
      IngestedIsNew(w, e.draft, e.account, e.version, e.threadsPost);
    } else {
      ImportedElsewhere(w, e);
      forall k | k in w.imported
        ensures var w' := Next(w, e);
          && k in w'.posts && (forall i | Made(w', i) :: Of(Last(w', i)) != k)
          && (forall c | c in w'.pending && w'.pending[c].Inserting? :: Of(w'.pending[c].row) != k)
      {
        ImportedStays(w, e, k);
      }
    }
  }

  lemma StepKeepsPosts(w: World, e: Event)
    requires RowsInv(w) && GoneInv(w) && WorkersInv(w) && SweepsInv(w) && PostsInv(w) && Enabled(w, e)
    ensures PostsInv(Next(w, e))
  {
    var w' := Next(w, e);
    if !e.Ingest? { ImportedElsewhere(w, e); }
    if e.Commit? {
      CommitPublishes(w, e.worker);
      var id := w.workers[e.worker].schedule;
      if PublishesAt(w, w', id) { PublishKeepsPosts(w, w', id); } else { SilenceKeepsPosts(w, w'); }
    } else if e.ResolvePublished? {
      ResolvePublishes(w, e.call, e.threadsPost);
      var id := w.pending[e.call].schedule;
      if PublishesAt(w, w', id) { PublishKeepsPosts(w, w', id); } else { SilenceKeepsPosts(w, w'); }
    } else if e.Ingest? {
      IngestKeepsPosts(w, e.draft, e.account, e.version, e.threadsPost);
    } else {
      OthersPublishNothing(w, e);
      SilenceKeepsPosts(w, w');
    }
  }

  /** A decision moves a schedule from an open state to a final one. */
  lemma DecisionComes(w: World, e: Event)
    requires Enabled(w, e) && Next(w, e).decisions != w.decisions
    ensures e.Cancel? || e.ResolveUnpublished? || e.ResolvePublished?
    ensures var id, w' := if e.Cancel? then e.schedule else w.pending[e.call].schedule, Next(w, e);
      && w'.decisions == w.decisions + [id] && id in w.rows && id in w'.rows && !Final(w.rows[id].status)
      && (w'.rows[id].status.Cancelled? || w'.rows[id].status.Published?)
  {
    if e.Do? {
      DoFrames(w, e.worker, e.act);
    } else if e.Commit? {
      CommitFrames(w, e.worker);
    } else {
      DecisionComesByService(w, e);
    }
  }

  lemma DecisionComesByService(w: World, e: Event)
    requires Enabled(w, e) && Next(w, e).decisions != w.decisions && !e.Do? && !e.Commit?
    ensures e.Cancel? || e.ResolveUnpublished? || e.ResolvePublished?
    ensures var id, w' := if e.Cancel? then e.schedule else w.pending[e.call].schedule, Next(w, e);
      && w'.decisions == w.decisions + [id] && id in w.rows && id in w'.rows && !Final(w.rows[id].status)
      && (w'.rows[id].status.Cancelled? || w'.rows[id].status.Published?)
  {
  }

  lemma StepKeepsDecisions(w: World, e: Event)
    requires RowsInv(w) && GoneInv(w) && WorkersInv(w) && SweepsInv(w) && DecisionsInv(w) && Enabled(w, e)
    ensures DecisionsInv(Next(w, e))
  {
    var w' := Next(w, e);
    if w'.decisions != w.decisions {
      DecisionComes(w, e);
      var id := if e.Cancel? then e.schedule else w.pending[e.call].schedule;
      assert id in w.decisions ==> Final(Last(w, id).status);
    }
    forall i | i in w'.decisions
      ensures Made(w', i) && (Last(w', i).status.Cancelled? || Last(w', i).status.Published?)
    {
      if i in w.decisions { Persists(w, e, i); }
    }
  }

  /** A schedule that is out of attempts, bears no trace and has lost its lease is out of every worker's reach. */
  lemma HopelessStays(w: World, e: Event, id: Id)
    requires RowsInv(w) && GoneInv(w) && WorkersInv(w) && SweepsInv(w) && Enabled(w, e)
    requires Made(w, id) && Hopeless(Last(w, id), w.now)
    ensures Made(Next(w, e), id)
    ensures var r, r' := Last(w, id), Last(Next(w, e), id); r' == r || r' == Release(r, FailedPermanent)
  {
    if id in w.gone {
      GoneStays(w, e, id);
    } else if e.DeleteCommit? {
    } else if e.Do? || e.Commit? {
      WorkerRow(w, e, id);
    } else {
      ServiceRow(w, e, id);
    }
  }

  /** What a deletion has found stays as it was unless a reconnect puts it back. */
  lemma FoundStays(w: World, e: Event, r: Schedule, i: Id)
    requires RowsInv(w) && GoneInv(w) && WorkersInv(w) && SweepsInv(w) && Enabled(w, e)
    requires Made(w, i) && FoundOk(r, Last(w, i))
    ensures Made(Next(w, e), i) && FoundOk(r, Last(Next(w, e), i))
  {
    Persists(w, e, i);
  }

  lemma TimeGoesOn(w: World, e: Event)
    requires Enabled(w, e)
    ensures Next(w, e).now >= w.now
  {
    if e.Do? {
      DoFrames(w, e.worker, e.act);
    } else if e.Commit? {
      CommitFrames(w, e.worker);
    } else if e.ResolveUnpublished? || e.ResolvePublished? {
      ResolveFrames(w, e);
    }
  }

  lemma PendingStays(w: World, e: Event, p: Pending)
    requires RowsInv(w) && GoneInv(w) && WorkersInv(w) && SweepsInv(w) && Enabled(w, e) && PendingOk(p, w)
    ensures PendingOk(p, Next(w, e))
  {
    TimeGoesOn(w, e);
    match p {
      case Inserting(_) =>
      case Resolving(i) => Persists(w, e, i);
      case Sweeping(i, seen) =>
        Persists(w, e, i);
        if Last(w, i) == seen { HopelessStays(w, e, i); }
      case Deleting(draft, found) =>
        forall i | i in found
          ensures Made(Next(w, e), i) && found[i].draft == draft && FoundOk(found[i], Last(Next(w, e), i))
        {
          FoundStays(w, e, found[i], i);
        }
    }
  }

  lemma PendingComes(w: World, e: Event, c: Id)
    requires SweepsInv(w) && Enabled(w, e) && c in Next(w, e).pending
    ensures (c in w.pending && w.pending[c] == Next(w, e).pending[c]) || PendingOk(Next(w, e).pending[c], w)
  {
    if e.Do? {
      DoFrames(w, e.worker, e.act);
    } else if e.ResolveUnpublished? || e.ResolvePublished? {
      ResolveFrames(w, e);
    } else if e.DeleteRead? || e.DeleteCommit? {
      DeletionPending(w, e, c);
    } else {
      OtherPending(w, e, c);
    }
  }

  lemma DeletionPending(w: World, e: Event, c: Id)
    requires SweepsInv(w) && Enabled(w, e) && c in Next(w, e).pending && (e.DeleteRead? || e.DeleteCommit?)
    ensures (c in w.pending && w.pending[c] == Next(w, e).pending[c]) || PendingOk(Next(w, e).pending[c], w)
  {
    if e.DeleteRead? && c == e.call {
      var found := SchedulesOf(w.rows, e.draft);
      forall i | i in found ensures Made(w, i) && found[i].draft == e.draft && FoundOk(found[i], Last(w, i)) {}
    }
  }

  lemma OtherPending(w: World, e: Event, c: Id)
    requires SweepsInv(w) && Enabled(w, e) && c in Next(w, e).pending
    requires !e.Do? && !e.ResolveUnpublished? && !e.ResolvePublished? && !e.DeleteRead? && !e.DeleteCommit?
    ensures (c in w.pending && w.pending[c] == Next(w, e).pending[c]) || PendingOk(Next(w, e).pending[c], w)
  {
    if e.Commit? {
      CommitFrames(w, e.worker);
    } else if e.CreateRead? || e.PlanRead? || e.ResolveRead? || e.SweepRead? {
      ReadPending(w, e, c);
    } else {
      NothingPending(w, e, c);
    }
  }

  lemma ReadPending(w: World, e: Event, c: Id)
    requires Enabled(w, e) && c in Next(w, e).pending && (e.CreateRead? || e.PlanRead? || e.ResolveRead? || e.SweepRead?)
    ensures (c in w.pending && w.pending[c] == Next(w, e).pending[c]) || PendingOk(Next(w, e).pending[c], w)
  {
  }

  lemma NothingPending(w: World, e: Event, c: Id)
    requires Enabled(w, e) && c in Next(w, e).pending && !e.Do? && !e.Commit? && !e.ResolveUnpublished? && !e.ResolvePublished?
    requires !e.DeleteRead? && !e.DeleteCommit? && !e.CreateRead? && !e.PlanRead? && !e.ResolveRead? && !e.SweepRead?
    ensures c in w.pending && w.pending[c] == Next(w, e).pending[c]
  {
  }

  lemma StepKeepsSweeps(w: World, e: Event)
    requires RowsInv(w) && GoneInv(w) && WorkersInv(w) && SweepsInv(w) && Enabled(w, e)
    ensures SweepsInv(Next(w, e))
  {
    forall c | c in Next(w, e).pending ensures PendingOk(Next(w, e).pending[c], Next(w, e)) {
      PendingComes(w, e, c);
      PendingStays(w, e, Next(w, e).pending[c]);
    }
  }

  lemma DeletionMoves(w: World, call: Id, i: Id)
    requires Enabled(w, DeleteCommit(call)) && i in Next(w, DeleteCommit(call)).gone
    ensures var w', draft, found := Next(w, DeleteCommit(call)), w.pending[call].draft, w.pending[call].found;
      (i in w.gone && (i in w'.rows ==> i in w.rows) && w.erased <= w'.erased && (i !in w.rows ==> w'.gone[i] == w.gone[i]))
      || (i in w.rows && i in found && Deletes(w, draft, found) && w'.gone[i] == w.rows[i] && i !in w'.rows && draft in w'.erased)
  {
  }

  lemma DeletionKeepsGone(w: World, call: Id)
    requires RowsInv(w) && GoneInv(w) && SweepsInv(w) && PostsInv(w) && Enabled(w, DeleteCommit(call))
    ensures GoneInv(Next(w, DeleteCommit(call)))
  {
    var w' := Next(w, DeleteCommit(call));
    forall i | i in w'.gone
      ensures i !in w'.rows && RowInv(w'.gone[i]) && !w'.gone[i].status.Published? && w'.gone[i].draft in w'.erased
    {
      DeletionMoves(w, call, i);
      if i in w.rows && i in w.pending[call].found {
        assert PendingOk(w.pending[call], w) && Made(w, i);
        if w.rows[i].status.Published? { PublishedIsKept(w, call, i); }
      }
    }
    DeletionKeepsDrafts(w, call);
  }

  lemma DeletionKeepsDrafts(w: World, call: Id)
    requires GoneInv(w) && SweepsInv(w) && Enabled(w, DeleteCommit(call))
    ensures var w' := Next(w, DeleteCommit(call));
      (forall i | i in w'.rows :: w'.rows[i].draft !in w'.erased) && (forall k | k in w'.posts :: k.0 !in w'.erased)
  {
  }

  lemma StepKeepsGone(w: World, e: Event)
    requires RowsInv(w) && GoneInv(w) && WorkersInv(w) && SweepsInv(w) && PostsInv(w) && Enabled(w, e)
    ensures GoneInv(Next(w, e))
  {
    var w' := Next(w, e);
    if e.DeleteCommit? {
      DeletionKeepsGone(w, e.call);
    } else {
      GoneElsewhere(w, e);
      forall i | i in w'.gone ensures i !in w'.rows { GoneStays(w, e, i); }
      forall i | i in w'.rows ensures w'.rows[i].draft !in w'.erased {
        if i in w.rows { Persists(w, e, i); } else { NewRowIsNew(w, e, i); }
      }
      PostsOfKept(w, e);
    }
  }

  /** A new post is that of a schedule, whose draft is there, or of a draft made for it. */
  lemma PostsOfKept(w: World, e: Event)
    requires RowsInv(w) && GoneInv(w) && WorkersInv(w) && Enabled(w, e) && !e.DeleteCommit?
    ensures forall k | k in Next(w, e).posts :: k.0 !in w.erased
  {
    if e.Commit? {
      CommitPublishes(w, e.worker);
    } else if e.ResolvePublished? {
      ResolvePublishes(w, e.call, e.threadsPost);
    } else if e.Ingest? {
      IngestOfKept(w, e.draft, e.account, e.version, e.threadsPost);
    } else {
      PostsUntouched(w, e);
    }
  }

  lemma IngestOfKept(w: World, draft: Id, account: Id, version: Id, threadsPost: Id)
    requires GoneInv(w) && Enabled(w, Ingest(draft, account, version, threadsPost))
    ensures forall k | k in Next(w, Ingest(draft, account, version, threadsPost)).posts :: k.0 !in w.erased
  {
  }

  lemma StepKeepsInv(w: World, e: Event)
    requires Inv(w) && Enabled(w, e)
    ensures Inv(Next(w, e))
  {
    StepKeepsRows(w, e);
    StepKeepsActive(w, e);
    StepKeepsWorkers(w, e);
    StepKeepsCalls(w, e);
    StepKeepsCounts(w, e);
    StepKeepsPosts(w, e);
    StepKeepsImported(w, e);
    StepKeepsDecisions(w, e);
    StepKeepsSweeps(w, e);
    StepKeepsGone(w, e);
  }

  lemma {:induction false} RunKeepsInv(w: World, events: seq<Event>, w': World)
    requires Inv(w) && Run(w, events, w')
    ensures Inv(w')
    decreases |events|
  {
    if events != [] {
      StepKeepsInv(w, events[0]);
      RunKeepsInv(Next(w, events[0]), events[1..], w');
    }
  }
}
