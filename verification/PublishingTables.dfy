/**
 The tables of scheduled publishing and one function per statement or transaction on them: what a
 publishing worker does with one schedule between two awaits, and what the content service does.
 */
module PublishingTables {
  import opened Common
  import opened ScheduleStatus

  type Id = nat
  type Time = int  // milliseconds

  const LEASE_MS := 90_000
  const QUOTA_WAIT_MS := 900_000
  const LATE_MS := 900_000
  const MAX_AGE_MS := 86_400_000
  const MAX_ATTEMPTS := 5
  const MAX_CONTAINERS := 3
  const MAX_POLLS := 5

  datatype Schedule = Schedule(
    workspace: Id, draft: Id, account: Id, version: Id, key: Id, fingerprint: Id, scheduledAt: Time,
    status: Status, attemptId: Option<Id>, leaseUntil: Option<Time>, attemptCount: nat,
    container: Option<Id>, containerAttempts: nat,
    publishRequestedAt: Option<Time>, ambiguityDetectedAt: Option<Time>, nextRetryAt: Option<Time>)

  /** A row of published_posts; its key (draft, account) is the key of the table. */
  datatype Post = Post(version: Id, threadsPost: Id)

  type Schedules = map<Id, Schedule>
  type Posts = map<(Id, Id), Post>

  /** The schedule bears a trace of a publication that may have happened. */
  predicate Traced(r: Schedule) {
    r.publishRequestedAt.Some? || r.ambiguityDetectedAt.Some?
  }

  // ---- constraints ----

  ghost predicate ActiveUnique(rows: Schedules) {
    forall i, j | i in rows && j in rows && i != j && Active(rows[i].status) && Active(rows[j].status) ::
      rows[i].draft != rows[j].draft || rows[i].account != rows[j].account
  }

  /** The three unique indexes, for a row to be inserted. */
  predicate CanInsert(rows: Schedules, r: Schedule) {
    forall i | i in rows ::
      && !(rows[i].workspace == r.workspace && rows[i].key == r.key)
      && !(rows[i].account == r.account && rows[i].scheduledAt == r.scheduledAt)
      && !(Active(rows[i].status) && rows[i].draft == r.draft && rows[i].account == r.account)
  }

  /** The draft and account of a schedule, which are the key of its post. */
  function Of(r: Schedule): (Id, Id) {
    (r.draft, r.account)
  }

  /** No post of the account has the identifier of this post on the platform. */
  predicate IsFree(posts: Posts, account: Id, threadsPost: Id) {
    forall k | k in posts && k.1 == account :: posts[k].threadsPost != threadsPost
  }

  /**
   The unique indexes of published_posts. A version belongs to one draft, so that the third one, on
   version and account, is implied.
   */
  predicate CanPublish(posts: Posts, r: Schedule, threadsPost: Id) {
    Of(r) !in posts && IsFree(posts, r.account, threadsPost)
  }

  // ---- statements of a worker ----

  predicate Fenced(r: Schedule, token: Id, now: Time) {
    r.attemptId == Some(token) && r.leaseUntil.Some? && r.leaseUntil.value > now
  }

  predicate Due(r: Schedule, now: Time) {
    r.nextRetryAt.None? || r.nextRetryAt.value <= now
  }

  predicate Claimable(r: Schedule, now: Time) {
    || (r.status.Scheduled? && r.attemptCount < MAX_ATTEMPTS)
    || (r.status.FailedRetryable? && Due(r, now) && (r.attemptCount < MAX_ATTEMPTS || Traced(r)))
    || (r.status.QuotaBlocked? && Due(r, now))
    || (Executing(r.status) && r.leaseUntil.Some? && r.leaseUntil.value < now
        && (r.attemptCount < MAX_ATTEMPTS || Traced(r)))
  }

  function ClaimRow(r: Schedule, token: Id, now: Time): Schedule {
    r.(status := Claimed, attemptId := Some(token), leaseUntil := Some(now + LEASE_MS))
  }

  /** The fenced updates; the first four also release the schedule. */
  datatype Update =
    | Finish(status: Status)
    | FinishAndDropContainer
    | Block(retryAt: Time)
    | Retry(retryAt: Time, dropContainer: bool)
    | Count
    | BeginContainer
    | StoreContainer(container: Id)
    | Heartbeat
    | NoteAmbiguity(at: Time)
    | RequestPublish(at: Time)

  function Release(r: Schedule, status: Status): Schedule {
    r.(status := status, attemptId := None, leaseUntil := None)
  }

  function Apply(u: Update, r: Schedule, now: Time): Schedule {
    match u
    case Finish(status) => Release(r, status)
    case FinishAndDropContainer => Release(r, FailedPermanent).(container := None)
    case Block(retryAt) => Release(r, QuotaBlocked).(nextRetryAt := Some(retryAt))
    case Retry(retryAt, dropContainer) =>
      Release(r, FailedRetryable).(nextRetryAt := Some(retryAt), container := if dropContainer then None else r.container)
    case Count => r.(attemptCount := r.attemptCount + 1)
    case BeginContainer =>
      r.(status := CreatingContainer, containerAttempts := r.containerAttempts + 1, leaseUntil := Some(now + LEASE_MS))
    case StoreContainer(container) =>
      r.(status := ContainerCreated, container := Some(container), leaseUntil := Some(now + LEASE_MS))
    case Heartbeat => r.(leaseUntil := Some(now + LEASE_MS))
    case NoteAmbiguity(at) =>
      r.(ambiguityDetectedAt := if r.ambiguityDetectedAt.Some? then r.ambiguityDetectedAt else Some(at))
    case RequestPublish(at) => r.(status := Publishing, publishRequestedAt := Some(at), leaseUntil := Some(now + LEASE_MS))
  }

  // ---- the worker ----

  /** How an exception is classified; FeedMatch is the one of several matching posts in the feed. */
  datatype Failure = Permanent | Auth | Transient | FeedMatch

  /** Between which two awaits a worker is. */
  datatype Phase =
    | Guarding | Gating | Preparing | Creating | Polling(polls: nat) | Asking(polls: nat)
    | Recovering | Feeding | Requesting | Calling | Called | Committing(threadsPost: Id) | Failing(failure: Failure)

  /** A worker's own variables: after the claim, and after it has read the schedule. */
  datatype Worker =
    | Claiming(schedule: Id, token: Id, initial: bool)
    | Working(schedule: Id, token: Id, initial: bool,
              post: Schedule, ambiguous: bool, reference: Option<Time>, phase: Phase)

  function Begin(k: Worker, r: Schedule): Worker
    requires k.Claiming?
  {
    Working(k.schedule, k.token, k.initial, r, Traced(r) || r.status.Publishing?,
            if r.publishRequestedAt.Some? then r.publishRequestedAt else r.ambiguityDetectedAt, Guarding)
  }

  predicate SeesAmbiguity(k: Worker)
    requires k.Working?
  {
    k.ambiguous || Traced(k.post) || k.post.status.Publishing?
  }

  datatype ContainerAnswer =
    | AlreadyPublished | Finished | InError | ContainerExpired | InProgress | Unavailable(failure: Failure) | NoAnswer

  datatype FeedAnswer = Found(threadsPost: Id) | NotFound | Several

  /** What the surroundings tell a worker: a clock reading, an answer of the platform, an exception. */
  datatype Act =
    | Guard(appNow: Time)
    | QuotaExhausted(appNow: Time)
    | QuotaFree
    | PrepareContainer
    | ContainerMade(container: Id)
    | Beat
    | ContainerAnswered(answer: ContainerAnswer, appNow: Time)
    | FeedAnswered(feed: FeedAnswer)
    | Deadline
    | Request(appNow: Time)
    | Call
    | CallAnswered(published: Option<Id>, appNow: Time)
    | Throw(failure: Failure)
    | Handle(appNow: Time)

  /** A statement to issue, if any, and how the worker goes on if it takes effect and if it does not. */
  datatype Plan = Plan(update: Option<Update>, go: Option<Worker>, no: Option<Worker>)

  function Stop(u: Update): Option<Plan> {
    Some(Plan(Some(u), None, None))
  }

  function Go(k: Worker, phase: Phase): Option<Plan>
    requires k.Working?
  {
    Some(Plan(None, Some(k.(phase := phase)), None))
  }

  function RetryAt(k: Worker, appNow: Time): Time
    requires k.Working?
  {
    appNow + Min(30 * Pow2(k.post.attemptCount), 900) * 1000
  }

  function AtGuard(k: Worker, appNow: Time): Option<Plan>
    requires k.Working?
  {
    var late := k.initial && !k.ambiguous && k.post.scheduledAt < appNow - LATE_MS;
    var aged := !k.ambiguous && k.post.scheduledAt < appNow - MAX_AGE_MS;
    if late || aged then Stop(Finish(Expired))
    else if !k.ambiguous && k.post.attemptCount >= MAX_ATTEMPTS then Stop(Finish(FailedPermanent))
    else Go(k, Gating)
  }

  function AtPreparation(k: Worker): Option<Plan>
    requires k.Working?
  {
    if k.post.container.Some? then Go(k, Polling(0))
    else if k.post.containerAttempts >= MAX_CONTAINERS then Stop(Finish(FailedPermanent))
    else Some(Plan(Some(BeginContainer), Some(k.(phase := Creating)), None))
  }

  /** The reference time is kept once known. */
  function Suspect(k: Worker, appNow: Time): Worker
    requires k.Working?
  {
    var at := if k.reference.Some? then k.reference else Some(appNow);
    k.(ambiguous := true, reference := at, post := k.post.(ambiguityDetectedAt := at), phase := Recovering)
  }

  function NoteAndRecover(k: Worker, appNow: Time): Option<Plan>
    requires k.Working?
  {
    var k' := Suspect(k, appNow);
    Some(Plan(Some(NoteAmbiguity(k'.reference.value)), Some(k'), Some(k')))
  }

  function AfterPolling(k: Worker, failure: Failure): Option<Plan>
    requires k.Working?
  {
    Go(k, if k.ambiguous then Recovering else Failing(failure))
  }

  function AtAnswer(k: Worker, answer: ContainerAnswer, appNow: Time): Option<Plan>
    requires k.Working? && k.phase.Asking?
  {
    match answer
    case AlreadyPublished => NoteAndRecover(k, appNow)
    case Finished => Go(k, if k.ambiguous || k.post.publishRequestedAt.Some? then Recovering else Requesting)
    case InError => if k.ambiguous then Go(k, Recovering) else Stop(Finish(FailedPermanent))
    case ContainerExpired =>
      if k.ambiguous then Go(k, Recovering)
      else if k.post.attemptCount >= MAX_ATTEMPTS then Stop(FinishAndDropContainer)
      else Stop(Retry(RetryAt(k, appNow), true))
    case InProgress => if k.phase.polls + 1 < MAX_POLLS then Go(k, Polling(k.phase.polls + 1)) else AfterPolling(k, Transient)
    case Unavailable(failure) => AfterPolling(k, failure)
    case NoAnswer => AfterPolling(k, Transient)
  }

  /** The catch clause. */
  function AtFailure(k: Worker, failure: Failure, appNow: Time): Option<Plan>
    requires k.Working?
  {
    match failure
    case FeedMatch => Stop(Finish(RecoveryRequired))
    case Permanent => Stop(Finish(if SeesAmbiguity(k) then RecoveryRequired else FailedPermanent))
    case Auth => Stop(Finish(AuthRequired))
    case Transient =>
      if k.post.attemptCount >= MAX_ATTEMPTS && !SeesAmbiguity(k) then Stop(Finish(FailedPermanent))
      else Stop(Retry(RetryAt(k, appNow), false))
  }

  /** What a worker does next; None where the act does not fit its phase. Commits are apart. */
  function React(k: Worker, act: Act): Option<Plan>
    requires k.Working?
  {
    match act
    case Guard(appNow) => if k.phase.Guarding? then AtGuard(k, appNow) else None
    case QuotaExhausted(appNow) => if k.phase.Gating? then Stop(Block(appNow + QUOTA_WAIT_MS)) else None
    case QuotaFree =>
      if !k.phase.Gating? then None
      else if !k.ambiguous && k.post.attemptCount >= MAX_ATTEMPTS then Stop(Finish(FailedPermanent))
      else
        var post := k.post.(attemptCount := k.post.attemptCount + 1);
        Some(Plan(Some(Count), Some(k.(post := post, phase := Preparing)), None))
    case PrepareContainer => if k.phase.Preparing? then AtPreparation(k) else None
    case ContainerMade(container) =>
      if k.phase.Creating? then Some(Plan(Some(StoreContainer(container)), Some(k.(phase := Polling(0))), None)) else None
    case Beat =>
      if k.phase.Polling? then Some(Plan(Some(Heartbeat), Some(k.(phase := Asking(k.phase.polls))), None))
      else if k.phase.Recovering? then Some(Plan(Some(Heartbeat), Some(k.(phase := Feeding)), None))
      else None
    case ContainerAnswered(answer, appNow) => if k.phase.Asking? then AtAnswer(k, answer, appNow) else None
    case FeedAnswered(feed) =>
      if !k.phase.Feeding? then None
      else (match feed
            case Found(threadsPost) => Go(k, Committing(threadsPost))
            case NotFound => Go(k, Recovering)
            case Several => Go(k, Failing(FeedMatch)))
    case Deadline => if k.phase.Recovering? then Stop(Finish(RecoveryRequired)) else None
    case Request(appNow) =>
      if !k.phase.Requesting? then None
      else
        var post := k.post.(publishRequestedAt := Some(appNow), status := Publishing);
        Some(Plan(Some(RequestPublish(appNow)), Some(k.(post := post, ambiguous := true, phase := Calling)), None))
    case Call => if k.phase.Calling? then Go(k, Called) else None
    case CallAnswered(published, appNow) =>
      if !k.phase.Called? then None
      else if published.Some? then Go(k, Committing(published.value))
      else NoteAndRecover(k, appNow)
    case Throw(failure) => if k.phase.Failing? then None else Go(k, Failing(failure))
    case Handle(appNow) => if k.phase.Failing? then AtFailure(k, k.phase.failure, appNow) else None
  }

  // ---- statements of the services ----

  predicate Cancellable(r: Schedule, workspace: Id) {
    && r.workspace == workspace
    && (r.status.Scheduled? || r.status.QuotaBlocked? || r.status.FailedRetryable? || r.status.AuthRequired?)
    && !Traced(r)
  }

  predicate Restorable(r: Schedule, account: Id) {
    r.account == account && r.status.AuthRequired? && !Traced(r)
  }

  /** The unblocking update of a reconnect. */
  function Restored(rows: Schedules, account: Id): Schedules {
    map i | i in rows :: if Restorable(rows[i], account) then rows[i].(status := Scheduled) else rows[i]
  }

  /** What the sweep of stale leases fails for good. */
  predicate Hopeless(r: Schedule, now: Time) {
    Executing(r.status) && r.leaseUntil.Some? && r.leaseUntil.value <= now
    && r.attemptCount >= MAX_ATTEMPTS
    && !r.publishRequestedAt.Some? && !r.status.Publishing? && !r.ambiguityDetectedAt.Some?
  }

  predicate Stale(r: Schedule, now: Time) {
    Executing(r.status) && r.leaseUntil.Some? && r.leaseUntil.value <= now
  }
}
