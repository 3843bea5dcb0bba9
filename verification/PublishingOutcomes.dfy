/**
 What a publishing worker leaves behind, told by the columns of its schedule: which of its steps end the
 execution and in which state, what the others record, and what comes of the platform's answer.
 */
module PublishingOutcomes {
  import opened Common
  import opened ScheduleStatus
  import opened PublishingTables
  import opened PublishingProtocol
  import opened PublishingSteps
  import opened PublishingSafety
  import opened PublishingRuns
  import opened PublishingGuard

  // ---- how an execution ends ----

  predicate UsedUp(k: Worker)
    requires k.Working?
  {
    k.post.attemptCount >= 5
  }

  predicate Fails(k: Worker, act: Act, failure: Failure) {
    k.Working? && act.Handle? && k.phase == Failing(failure)
  }

  /** Late, and not perhaps published. */
  predicate EndsExpired(k: Worker, act: Act) {
    k.Working? && act.Guard? && !k.ambiguous && TooLate(k.post, k.initial, act.appNow)
  }

  /** Nothing may have been published, and no execution or container is left, or the failure is for good. */
  predicate EndsFailed(k: Worker, act: Act) {
    k.Working?
    && (|| (act.Guard? && !k.ambiguous && !TooLate(k.post, k.initial, act.appNow) && UsedUp(k))
        || (act.QuotaFree? && !k.ambiguous && UsedUp(k))
        || (act.PrepareContainer? && k.post.container.None? && k.post.containerAttempts >= 3)
        || (act.ContainerAnswered? && !k.ambiguous && (act.answer.InError? || (act.answer.ContainerExpired? && UsedUp(k))))
        || (!k.ambiguous && (Fails(k, act, Permanent) || (Fails(k, act, Transient) && UsedUp(k)))))
  }

  predicate EndsForRetry(k: Worker, act: Act) {
    k.Working?
    && (|| (act.ContainerAnswered? && act.answer.ContainerExpired? && !k.ambiguous && !UsedUp(k))
        || (Fails(k, act, Transient) && (k.ambiguous || !UsedUp(k))))
  }

  /** Perhaps published, and not to be found out. */
  predicate EndsUnclear(k: Worker, act: Act) {
    act.Deadline? || Fails(k, act, FeedMatch) || (k.Working? && k.ambiguous && Fails(k, act, Permanent))
  }

  predicate Ends(k: Worker, act: Act) {
    EndsExpired(k, act) || EndsFailed(k, act) || EndsForRetry(k, act) || EndsUnclear(k, act) || Fails(k, act, Auth)
    || act.QuotaExhausted?
  }

  /** Half a minute, doubled with each execution, a quarter of an hour at most. */
  function Wait(executions: nat): Time {
    if executions >= 5 then 900_000 else [30_000, 60_000, 120_000, 240_000, 480_000][executions]
  }

  /** The schedule without its lease. */
  predicate Released(r: Schedule, r': Schedule, status: Status, retryAt: Option<Time>, container: Option<Id>) {
    r' == r.(status := status, attemptId := None, leaseUntil := None, nextRetryAt := retryAt, container := container)
  }

  predicate EndedBy(k: Worker, act: Act, r: Schedule, r': Schedule) {
    && (EndsExpired(k, act) ==> Released(r, r', Expired, r.nextRetryAt, r.container))
    && (EndsFailed(k, act) ==>
          Released(r, r', FailedPermanent, r.nextRetryAt,
                   if act.ContainerAnswered? && act.answer.ContainerExpired? then None else r.container))
    && (EndsForRetry(k, act) && (act.ContainerAnswered? || act.Handle?) ==>
          Released(r, r', FailedRetryable, Some(act.appNow + Wait(k.post.attemptCount)),
                   if act.ContainerAnswered? then None else r.container))
    && (EndsUnclear(k, act) ==> Released(r, r', RecoveryRequired, r.nextRetryAt, r.container))
    && (Fails(k, act, Auth) ==> Released(r, r', AuthRequired, r.nextRetryAt, r.container))
    && (act.QuotaExhausted? ==> Released(r, r', QuotaBlocked, Some(act.appNow + 900_000), r.container))
  }

  lemma WaitIs(k: Worker, appNow: Time)
    requires k.Working?
    ensures RetryAt(k, appNow) == appNow + Wait(k.post.attemptCount)
  {
    RetryWaits(k, appNow);
    Powers(k.post.attemptCount);
  }

  lemma EndIs(k: Worker, act: Act, r: Schedule, now: Time)
    requires k.Working? && React(k, act).Some? && Ends(k, act) && (SeesAmbiguity(k) ==> k.ambiguous)
    ensures var plan := React(k, act).value;
      plan.update.Some? && plan.go.None? && plan.no.None? && EndedBy(k, act, r, Apply(plan.update.value, r, now))
  {
    if act.ContainerAnswered? {
      AnswerEnds(k, act.answer, act.appNow, r, now);
    } else if act.Handle? {
      HandleEnds(k, act.appNow, r, now);
    }
  }

  lemma AnswerEnds(k: Worker, answer: ContainerAnswer, appNow: Time, r: Schedule, now: Time)
    requires k.Working? && k.phase.Asking? && Ends(k, ContainerAnswered(answer, appNow)) && AtAnswer(k, answer, appNow).Some?
    ensures var plan := AtAnswer(k, answer, appNow).value;
      && plan.update.Some? && plan.go.None? && plan.no.None?
      && EndedBy(k, ContainerAnswered(answer, appNow), r, Apply(plan.update.value, r, now))
  {
    WaitIs(k, appNow);
  }

  lemma HandleEnds(k: Worker, appNow: Time, r: Schedule, now: Time)
    requires k.Working? && k.phase.Failing? && (SeesAmbiguity(k) ==> k.ambiguous) && AtFailure(k, k.phase.failure, appNow).Some?
    ensures var plan := AtFailure(k, k.phase.failure, appNow).value;
      plan.update.Some? && plan.go.None? && plan.no.None? && EndedBy(k, Handle(appNow), r, Apply(plan.update.value, r, now))
  {
    WaitIs(k, appNow);
  }

  // ---- what the other steps record ----

  /** A statement of a step that does not end the execution. */
  predicate Recorded(k: Worker, act: Act, r: Schedule, r': Schedule, now: Time)
    requires k.Working?
  {
    var lease := Some(now + 90_000);
    match act
    case QuotaFree => r' == r.(attemptCount := r.attemptCount + 1)
    case PrepareContainer =>
      r' == if k.post.container.Some? then r
            else r.(status := CreatingContainer, containerAttempts := r.containerAttempts + 1, leaseUntil := lease)
    case ContainerMade(container) => r' == r.(status := ContainerCreated, container := Some(container), leaseUntil := lease)
    case Beat => r' == r.(leaseUntil := lease)
    case Request(appNow) => r' == r.(status := Publishing, publishRequestedAt := Some(appNow), leaseUntil := lease)
    case ContainerAnswered(answer, appNow) => r' == if answer.AlreadyPublished? then Noted(k, r, appNow) else r
    case CallAnswered(published, appNow) => r' == if published.None? then Noted(k, r, appNow) else r
    case _ => r' == r
  }

  /** The time at which a publication was first suspected is kept: the row's, the worker's, or this moment. */
  function Noted(k: Worker, r: Schedule, appNow: Time): Schedule
    requires k.Working?
  {
    if r.ambiguityDetectedAt.Some? then r
    else r.(ambiguityDetectedAt := if k.reference.Some? then k.reference else Some(appNow))
  }

  lemma GoesOnIs(k: Worker, act: Act, r: Schedule, now: Time)
    requires k.Working? && React(k, act).Some? && !Ends(k, act) && (SeesAmbiguity(k) ==> k.ambiguous)
    ensures var plan := React(k, act).value;
      && plan.go.Some? && plan.go.value.Working? && plan.go.value.token == k.token && plan.go.value.schedule == k.schedule
      && Recorded(k, act, r, if plan.update.Some? then Apply(plan.update.value, r, now) else r, now)
  {
    if act.ContainerAnswered? { AnswerGoesOn(k, act.answer, act.appNow, r, now); }
  }

  lemma AnswerGoesOn(k: Worker, answer: ContainerAnswer, appNow: Time, r: Schedule, now: Time)
    requires k.Working? && k.phase.Asking? && AtAnswer(k, answer, appNow).Some? && !Ends(k, ContainerAnswered(answer, appNow))
    ensures var plan := AtAnswer(k, answer, appNow).value;
      && plan.go.Some? && plan.go.value.Working? && plan.go.value.token == k.token && plan.go.value.schedule == k.schedule
      && Recorded(k, ContainerAnswered(answer, appNow), r, if plan.update.Some? then Apply(plan.update.value, r, now) else r, now)
  {
  }

  lemma CarryWrites(w: World, a: Id, plan: Plan, calls: bool)
    requires a in w.workers && Holds(w, w.workers[a])
    ensures var w', k := Carry(w, a, plan, calls), w.workers[a];
      && (a in w'.workers <==> plan.go.Some?)
      && w'.rows == if plan.update.Some? then w.rows[k.schedule := Apply(plan.update.value, w.rows[k.schedule], w.now)] else w.rows
  {
  }

  /**
   What a step of a worker whose lease is running makes of its schedule. It ends the execution exactly
   in the cases listed, each in its own state, and otherwise records what it is about; no other schedule changes.
   */
  lemma StepOutcome(w: World, a: Id, act: Act)
    requires Reachable(w) && Enabled(w, Do(a, act)) && Holds(w, w.workers[a])
    ensures var k, w' := w.workers[a], Next(w, Do(a, act));
      && k.schedule in w'.rows && w'.rows == w.rows[k.schedule := w'.rows[k.schedule]]
      && (a !in w'.workers <==> Ends(k, act))
      && if Ends(k, act) then EndedBy(k, act, w.rows[k.schedule], w'.rows[k.schedule])
         else Recorded(k, act, w.rows[k.schedule], w'.rows[k.schedule], w.now)
  {
    ReachableInv(w);
    var k := w.workers[a];
    assert About(k, w);
    CarryWrites(w, a, React(k, act).value, act.Call?);
    if Ends(k, act) { EndIs(k, act, w.rows[k.schedule], w.now); } else { GoesOnIs(k, act, w.rows[k.schedule], w.now); }
  }

  /**
   Where the answers lead: a worker that knows of no possible publication goes on to publish or fails,
   one that does goes on to look for the post, and it looks until its deadline.
   */
  lemma AnswersLeadOn(w: World, a: Id, act: Act)
    requires Enabled(w, Do(a, act)) && !Ends(w.workers[a], act) && a in Next(w, Do(a, act)).workers
    ensures var k, k' := w.workers[a], Next(w, Do(a, act)).workers[a];
      && k'.Working?
      && (act.FeedAnswered? && act.feed.NotFound? ==> Enabled(Next(w, Do(a, act)), Do(a, Deadline)))
      && (act.FeedAnswered? && act.feed.Several? ==> k'.phase == Failing(FeedMatch))
      && (act.Throw? ==> k'.phase == Failing(act.failure))
      && (act.CallAnswered? && act.published.None? ==> k'.ambiguous && k'.phase.Recovering?)
      && (act.ContainerAnswered? ==> AnswerLeadsOn(k, act.answer, k'))
  {
    CarryIs(w, a, React(w.workers[a], act).value, act.Call?);
  }

  predicate AnswerLeadsOn(k: Worker, answer: ContainerAnswer, k': Worker)
    requires k.Working? && k'.Working?
  {
    if answer.InProgress? && k.phase.Asking? && k.phase.polls < 4 then k'.phase == Polling(k.phase.polls + 1)
    else if k.ambiguous || answer.AlreadyPublished? then k'.ambiguous && k'.phase.Recovering?
    else if answer.Finished? then k'.phase == if k.post.publishRequestedAt.Some? then Recovering else Requesting
    else k'.phase == Failing(if answer.Unavailable? then answer.failure else Transient)
  }

  // ---- what comes of the platform's answer ----

  /** The answer to the call, or a single match in the feed. */
  predicate Reports(act: Act, threadsPost: Id) {
    (act.CallAnswered? && act.published == Some(threadsPost)) || act == FeedAnswered(Found(threadsPost))
  }

  lemma {:induction false} WorkerIdles(w: World, events: seq<Event>, w': World, a: Id)
    requires Run(w, events, w') && a in w.workers && forall i | 0 <= i < |events| :: !Acts(events[i], a)
    ensures a in w'.workers && w'.workers[a] == w.workers[a]
    decreases |events|
  {
    if events != [] {
      OthersStay(w, events[0], a);
      assert forall i | 0 <= i < |events[1..]| :: events[1..][i] == events[i + 1];
      WorkerIdles(Next(w, events[0]), events[1..], w', a);
    }
  }

  lemma ReportIs(w: World, a: Id, act: Act, threadsPost: Id)
    requires Enabled(w, Do(a, act)) && Reports(act, threadsPost)
    ensures var k, w' := w.workers[a], Next(w, Do(a, act));
      && w'.rows == w.rows && w'.posts == w.posts && k.Working?
      && a in w'.workers && w'.workers[a] == k.(phase := Committing(threadsPost))
  {
  }

  /** No post of the draft and account, and no other one of the account, stands in the way. */
  predicate HasRoom(posts: Posts, r: Schedule, threadsPost: Id) {
    (r.draft, r.account) !in posts && forall k | k in posts && k.1 == r.account :: posts[k].threadsPost != threadsPost
  }

  lemma CommitOutcome(v: World, a: Id, threadsPost: Id)
    requires Inv(v) && a in v.workers && v.workers[a].Working? && v.workers[a].phase == Committing(threadsPost)
    requires v.workers[a].schedule in v.rows && Holds(v, v.workers[a])
    ensures Enabled(v, Commit(a))
    ensures var k, u := v.workers[a], Next(v, Commit(a));
      var r := v.rows[k.schedule];
      if HasRoom(v.posts, r, threadsPost)
      then && a !in u.workers && u.posts == v.posts[(r.draft, r.account) := Post(r.version, threadsPost)]
           && u.rows == v.rows[k.schedule := r.(status := Published, attemptId := None, leaseUntil := None)]
      else u.posts == v.posts && u.rows == v.rows && a in u.workers && u.workers[a] == k.(phase := Failing(Transient))
  {
    RoomIs(v, a, threadsPost);
    if HasRoom(v.posts, v.rows[v.workers[a].schedule], threadsPost) {
      CommitInserts(v, a);
    } else {
      CommitRefused(v, a);
    }
  }

  lemma CommitInserts(v: World, a: Id)
    requires Enabled(v, Commit(a)) && Holds(v, v.workers[a])
    requires CanPublish(v.posts, v.workers[a].post, v.workers[a].phase.threadsPost)
    ensures var k, u := v.workers[a], Next(v, Commit(a));
      && a !in u.workers && u.posts == v.posts[(k.post.draft, k.post.account) := Post(k.post.version, k.phase.threadsPost)]
      && u.rows == v.rows[k.schedule := v.rows[k.schedule].(status := Published, attemptId := None, leaseUntil := None)]
  {
  }

  lemma CommitRefused(v: World, a: Id)
    requires Enabled(v, Commit(a)) && Holds(v, v.workers[a])
    requires !CanPublish(v.posts, v.workers[a].post, v.workers[a].phase.threadsPost)
    ensures var k, u := v.workers[a], Next(v, Commit(a));
      u.posts == v.posts && u.rows == v.rows && a in u.workers && u.workers[a] == k.(phase := Failing(Transient))
  {
  }

  lemma RoomIs(v: World, a: Id, threadsPost: Id)
    requires Inv(v) && a in v.workers && v.workers[a].Working? && v.workers[a].schedule in v.rows
    ensures var k, r := v.workers[a], v.rows[v.workers[a].schedule];
      && (CanPublish(v.posts, k.post, threadsPost) <==> HasRoom(v.posts, r, threadsPost))
      && k.post.draft == r.draft && k.post.account == r.account && k.post.version == r.version
  {
    assert About(v.workers[a], v);
  }

  lemma LostCommit(v: World, a: Id)
    requires Enabled(v, Commit(a)) && !Holds(v, v.workers[a])
    ensures var u := Next(v, Commit(a)); u.posts == v.posts && u.rows == v.rows && a !in u.workers
  {
  }

  /** A report waits at its worker. */
  lemma ReportWaits(w: World, a: Id, act: Act, threadsPost: Id, events: seq<Event>, v: World)
    requires Reachable(w) && Enabled(w, Do(a, act)) && Reports(act, threadsPost)
    requires Run(Next(w, Do(a, act)), events, v) && forall i | 0 <= i < |events| :: !Acts(events[i], a)
    ensures Inv(v) && a in v.workers && v.workers[a].Working? && v.workers[a].schedule == w.workers[a].schedule
    ensures v.workers[a].phase == Committing(threadsPost) && Enabled(v, Commit(a))
  {
    ReachableInv(w);
    ReportIs(w, a, act, threadsPost);
    StepKeepsInv(w, Do(a, act));
    WorkerIdles(Next(w, Do(a, act)), events, v, a);
    RunKeepsInv(Next(w, Do(a, act)), events, v);
  }

  /**
   What the platform reports is what is posted: whatever the others do meanwhile, the worker's next step
   inserts the post under the identifier reported, with the version scheduled, and publishes the schedule.
   It changes nothing if the lease is over, and if the table has no room the schedule can only be retried.
   */
  lemma ReportIsPosted(w: World, a: Id, act: Act, threadsPost: Id, events: seq<Event>, v: World)
    requires Reachable(w) && Enabled(w, Do(a, act)) && Reports(act, threadsPost)
    requires Run(Next(w, Do(a, act)), events, v) && forall i | 0 <= i < |events| :: !Acts(events[i], a)
    ensures Enabled(v, Commit(a)) && a in v.workers && v.workers[a].schedule == w.workers[a].schedule
    ensures var i, u := w.workers[a].schedule, Next(v, Commit(a));
      if !Holds(v, v.workers[a]) then u.posts == v.posts && u.rows == v.rows && a !in u.workers
      else
        && i in v.rows
        && (HasRoom(v.posts, v.rows[i], threadsPost) ==>
              && u.posts == v.posts[(v.rows[i].draft, v.rows[i].account) := Post(v.rows[i].version, threadsPost)]
              && u.rows == v.rows[i := v.rows[i].(status := Published, attemptId := None, leaseUntil := None)])
        && (!HasRoom(v.posts, v.rows[i], threadsPost) ==>
              && u.posts == v.posts && u.rows == v.rows
              && a in u.workers && u.workers[a].Working? && u.workers[a].phase == Failing(Transient))
  {
    ReportWaits(w, a, act, threadsPost, events, v);
    if Holds(v, v.workers[a]) { CommitOutcome(v, a, threadsPost); } else { LostCommit(v, a); }
  }

  /** In time and with everything in order, a schedule that can be claimed can be published, as any post it has room for. */
  lemma CanBePublished(w: World, j: Id, threadsPost: Id) returns (w': World)
    requires Reachable(w) && j in w.rows && Fit(w.rows[j]) && Claimable(w.rows[j], w.now) && Timely(w.rows[j], w.now)
    requires HasRoom(w.posts, w.rows[j], threadsPost)
    ensures LeadsInStep(w, w') && j in w'.rows && w'.rows[j].status.Published?
    ensures var r := w.rows[j]; w'.posts == w.posts[(r.draft, r.account) := Post(r.version, threadsPost)]
  {
    var o := Origin(w, true);
    Here(o);
    var v, a := Send(o, w, j);
    assert InStep(v, Do(a, CallAnswered(Some(threadsPost), v.now)));
    ReportIs(v, a, CallAnswered(Some(threadsPost), v.now), threadsPost);
    StillHolds(v, a, CallAnswered(Some(threadsPost), v.now));
    var u := Step(o, v, Do(a, CallAnswered(Some(threadsPost), v.now)));
    AfterInv(o, u);
    CommitOutcome(u, a, threadsPost);
    w' := Step(o, u, Commit(a));
  }

  lemma StillHolds(v: World, a: Id, act: Act)
    requires Enabled(v, Do(a, act)) && Next(v, Do(a, act)).rows == v.rows && Holds(v, v.workers[a])
    requires var w' := Next(v, Do(a, act));
      a in w'.workers && w'.workers[a].token == v.workers[a].token && w'.workers[a].schedule == v.workers[a].schedule
    ensures Holds(Next(v, Do(a, act)), Next(v, Do(a, act)).workers[a])
  {
    DoFrames(v, a, act);
  }

  // ---- how long a worker asks ----

  /** How often the worker has asked for the state of its container, five once it has stopped asking. */
  function Asked(k: Worker): nat {
    if k.Claiming? || Early(k.phase) || k.phase.Creating? then 0
    else if k.phase.Polling? || k.phase.Asking? then k.phase.polls
    else 5
  }

  predicate AsksInTime(k: Worker) {
    k.Working? && (k.phase.Polling? || k.phase.Asking?) ==> k.phase.polls < 5
  }

  lemma AskingGoesOn(k: Worker, act: Act)
    requires k.Working? && React(k, act).Some? && AsksInTime(k)
    ensures var plan, more := React(k, act).value, if act.ContainerAnswered? then 1 else 0;
      && (plan.go.Some? ==> AsksInTime(plan.go.value) && Asked(k) + more <= Asked(plan.go.value) <= 5)
      && (plan.no.Some? ==> AsksInTime(plan.no.value) && Asked(k) + more <= Asked(plan.no.value) <= 5)
      && Asked(k) + more <= 5
  {
    if act.ContainerAnswered? { AnswersCount(k, act.answer, act.appNow); }
  }

  lemma AnswersCount(k: Worker, answer: ContainerAnswer, appNow: Time)
    requires k.Working? && k.phase.Asking? && AsksInTime(k) && AtAnswer(k, answer, appNow).Some?
    ensures var plan := AtAnswer(k, answer, appNow).value;
      && (plan.go.Some? ==> AsksInTime(plan.go.value) && Asked(k) + 1 <= Asked(plan.go.value) <= 5)
      && (plan.no.Some? ==> AsksInTime(plan.no.value) && Asked(k) + 1 <= Asked(plan.no.value) <= 5)
      && Asked(k) + 1 <= 5
  {
  }

  predicate IsAnswer(e: Event, a: Id) {
    e.Do? && e.worker == a && e.act.ContainerAnswered?
  }

  function Answers(events: seq<Event>, a: Id): nat {
    if events == [] then 0 else (if IsAnswer(events[0], a) then 1 else 0) + Answers(events[1..], a)
  }

  lemma ActorAsks(w: World, e: Event, a: Id)
    requires Enabled(w, e) && Acts(e, a) && !e.Claim? && a in w.workers && AsksInTime(w.workers[a])
    ensures Asked(w.workers[a]) + (if IsAnswer(e, a) then 1 else 0) <= 5
    ensures var w' := Next(w, e);
      a in w'.workers ==> AsksInTime(w'.workers[a])
                          && Asked(w.workers[a]) + (if IsAnswer(e, a) then 1 else 0) <= Asked(w'.workers[a]) <= 5
  {
    if e.Do? {
      AskingGoesOn(w.workers[a], e.act);
      if a in Next(w, e).workers { CarryIs(w, a, React(w.workers[a], e.act).value, e.act.Call?); }
    } else {
      OtherActorAsks(w, e, a);
    }
  }

  lemma OtherActorAsks(w: World, e: Event, a: Id)
    requires Enabled(w, e) && (e.Read? || e.Commit? || e.Crash?) && e.worker == a && AsksInTime(w.workers[a])
    ensures var w' := Next(w, e);
      a in w'.workers ==> AsksInTime(w'.workers[a]) && Asked(w.workers[a]) <= Asked(w'.workers[a]) <= 5
    ensures Asked(w.workers[a]) <= 5
  {
    match e {
      case Read(_) =>
      case Commit(_) =>
      case Crash(_) =>
    }
  }

  lemma {:induction false} AnswersLeft(w: World, events: seq<Event>, w': World, a: Id)
    requires Run(w, events, w') && forall i | 0 <= i < |events| :: !(events[i].Claim? && events[i].worker == a)
    requires a in w.workers ==> AsksInTime(w.workers[a]) && Asked(w.workers[a]) <= 5
    ensures Answers(events, a) <= if a in w.workers then 5 - Asked(w.workers[a]) else 0
    decreases |events|
  {
    if events != [] {
      assert forall i | 0 <= i < |events[1..]| :: events[1..][i] == events[i + 1];
      if a in w.workers && Acts(events[0], a) {
        ActorAsks(w, events[0], a);
      } else if !Acts(events[0], a) {
        OthersStay(w, events[0], a);
      }
      AnswersLeft(Next(w, events[0]), events[1..], w', a);
    }
  }

  /** From its claim on, a worker asks for the state of its container five times at most. */
  lemma AsksFiveTimes(w: World, a: Id, j: Id, token: Id, events: seq<Event>, w': World)
    requires Enabled(w, Claim(a, j, token)) && Run(Next(w, Claim(a, j, token)), events, w')
    requires forall i | 0 <= i < |events| :: !(events[i].Claim? && events[i].worker == a)
    ensures Answers(events, a) <= 5
  {
    NewToken(w, a, j, token);
    AnswersLeft(Next(w, Claim(a, j, token)), events, w', a);
  }
}
