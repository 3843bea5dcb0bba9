/**
 Scheduled publishing as a state machine over any number of workers, callers and sweeps: each step is
 one statement or transaction, and what a worker or caller has read stays with it until its next step.
 */
module PublishingProtocol {
  import opened Common
  import opened ScheduleStatus
  import opened PublishingTables

  /** What a call of a service has read and not yet acted on. */
  datatype Pending =
    | Inserting(row: Schedule)
    | Resolving(schedule: Id)
    | Sweeping(schedule: Id, seen: Schedule)
    | Deleting(draft: Id, found: Schedules)

  /**
   History: `calls` are the schedules for which the platform has been asked to publish, `executions` and
   `containers` those for which an execution was begun or a container asked for, `decisions` those an
   operator has cancelled or resolved, `tokens` the attempt ids drawn so far, `erased` the drafts deleted,
   `gone` the schedules deleted with them, as they were, and `imported` the posts that ingestion inserted.
   */
  datatype World = World(
    now: Time, rows: Schedules, posts: Posts, workers: map<Id, Worker>, pending: map<Id, Pending>,
    calls: seq<Id>, executions: seq<Id>, containers: seq<Id>, decisions: seq<Id>, tokens: set<Id>,
    gone: Schedules, erased: set<Id>, imported: set<(Id, Id)>)

  datatype Event =
    | Tick(time: Time)
    | Claim(worker: Id, schedule: Id, token: Id)
    | Read(worker: Id)
    | Do(worker: Id, act: Act)
    | Commit(worker: Id)
    | Crash(worker: Id)
    | CreateRead(call: Id, row: Schedule)
    | PlanRead(call: Id, row: Schedule)
    | CreateCommit(call: Id, schedule: Id)
    | Cancel(workspace: Id, schedule: Id)
    | ResolveRead(call: Id, workspace: Id, schedule: Id)
    | ResolveUnpublished(call: Id)
    | ResolvePublished(call: Id, threadsPost: Id)
    | Reconnect(account: Id)
    | SweepRead(call: Id, schedule: Id)
    | SweepWrite(call: Id)
    | DeleteRead(call: Id, draft: Id)
    | DeleteCommit(call: Id)
    | Ingest(draft: Id, account: Id, version: Id, threadsPost: Id)

  /** A new schedule as the service inserts it. */
  predicate IsNew(r: Schedule) {
    r.status.Scheduled? && r.attemptId.None? && r.leaseUntil.None? && r.attemptCount == 0 && r.container.None?
    && r.containerAttempts == 0 && r.publishRequestedAt.None? && r.ambiguityDetectedAt.None? && r.nextRetryAt.None?
  }

  /** The checks before the insertion: the draft is there, not published to the account and not being so. */
  predicate MayCreate(w: World, r: Schedule) {
    IsNew(r) && r.draft !in w.erased && (r.draft, r.account) !in w.posts
    && forall i | i in w.rows :: !(Active(w.rows[i].status) && w.rows[i].draft == r.draft && w.rows[i].account == r.account)
  }

  /**
   The autonomous operator's checks: it takes a draft without any post and without a schedule in one of
   four states, which are not all of the active ones.
   */
  predicate MayPlan(w: World, r: Schedule) {
    IsNew(r) && r.draft !in w.erased && !HasPost(w.posts, r.draft)
    && forall i | i in w.rows && w.rows[i].draft == r.draft ::
         var s := w.rows[i].status; !(s.Scheduled? || s.Claimed? || s.Publishing? || s.Published?)
  }

  /** A draft that nothing refers to yet. */
  predicate NewDraft(w: World, draft: Id) {
    && draft !in w.erased && !HasPost(w.posts, draft)
    && (forall i | i in w.rows :: w.rows[i].draft != draft) && (forall i | i in w.gone :: w.gone[i].draft != draft)
    && (forall c | c in w.pending && w.pending[c].Inserting? :: w.pending[c].row.draft != draft)
  }

  predicate HasPost(posts: Posts, draft: Id) {
    exists k | k in posts :: k.0 == draft
  }

  /** The states that keep a draft from being deleted. */
  predicate Keeps(s: Status) {
    s.Published? || Active(s)
  }

  /** The checks before a deletion: neither the draft's posts nor its schedules stand in the way. */
  predicate MayDelete(w: World, draft: Id) {
    draft !in w.erased && !HasPost(w.posts, draft)
    && forall i | i in w.rows && w.rows[i].draft == draft :: !Keeps(w.rows[i].status)
  }

  function SchedulesOf(rows: Schedules, draft: Id): Schedules {
    map i | i in rows && rows[i].draft == draft :: rows[i]
  }

  /**
   The transaction deletes the schedules found before, whatever they have become, and then the draft,
   whose foreign keys undo it all if another schedule or a post refers to it.
   */
  predicate Deletes(w: World, draft: Id, found: Schedules) {
    draft !in w.erased && !HasPost(w.posts, draft)
    && forall i | i in w.rows && w.rows[i].draft == draft :: i in found
  }

  predicate Made(w: World, i: Id) {
    i in w.rows || i in w.gone
  }

  /** A schedule as it is or, once deleted, as it was. */
  function Last(w: World, i: Id): Schedule
    requires Made(w, i)
  {
    if i in w.rows then w.rows[i] else w.gone[i]
  }

  /** The worker's fence: its schedule is there, bears its token, and the lease is running. */
  predicate Holds(w: World, k: Worker) {
    k.schedule in w.rows && Fenced(w.rows[k.schedule], k.token, w.now)
  }

  predicate Enabled(w: World, e: Event) {
    match e
    case Tick(time) => time >= w.now
    case Claim(worker, schedule, token) =>
      worker !in w.workers && token !in w.tokens && schedule in w.rows && Claimable(w.rows[schedule], w.now)
    case Read(worker) => worker in w.workers && w.workers[worker].Claiming?
    case Do(worker, act) =>
      worker in w.workers && w.workers[worker].Working? && React(w.workers[worker], act).Some?
    case Commit(worker) =>
      worker in w.workers && w.workers[worker].Working? && w.workers[worker].phase.Committing?
    case Crash(worker) => worker in w.workers
    case CreateRead(call, row) => call !in w.pending && MayCreate(w, row)
    case PlanRead(call, row) => call !in w.pending && MayPlan(w, row)
    case CreateCommit(call, schedule) => call in w.pending && w.pending[call].Inserting? && !Made(w, schedule)
    case Cancel(_, _) => true
    case ResolveRead(call, workspace, schedule) =>
      call !in w.pending && schedule in w.rows && w.rows[schedule].workspace == workspace
      && w.rows[schedule].status.RecoveryRequired?
    case ResolveUnpublished(call) => call in w.pending && w.pending[call].Resolving?
    case ResolvePublished(call, _) => call in w.pending && w.pending[call].Resolving?
    case Reconnect(_) => true
    case SweepRead(call, schedule) => call !in w.pending && schedule in w.rows && Hopeless(w.rows[schedule], w.now)
    case SweepWrite(call) => call in w.pending && w.pending[call].Sweeping?
    case DeleteRead(call, draft) => call !in w.pending && MayDelete(w, draft)
    case DeleteCommit(call) => call in w.pending && w.pending[call].Deleting?
    case Ingest(draft, _, _, _) => NewDraft(w, draft)
  }

  function Put(w: World, id: Id, r: Schedule): World {
    w.(rows := w.rows[id := r])
  }

  function SetWorker(w: World, worker: Id, k: Option<Worker>): World {
    w.(workers := if k.Some? then w.workers[worker := k.value] else w.workers - {worker})
  }

  /** A worker carries out a plan: the statement, if its fence holds, and the next local state. */
  function Carry(w: World, worker: Id, plan: Plan, calls: bool): World
    requires worker in w.workers
  {
    var k := w.workers[worker];
    if plan.update.None? then
      SetWorker(w, worker, plan.go).(calls := if calls then w.calls + [k.schedule] else w.calls)
    else if Holds(w, k) then
      SetWorker(Put(w, k.schedule, Apply(plan.update.value, w.rows[k.schedule], w.now)), worker, plan.go).(
        executions := if plan.update.value.Count? then w.executions + [k.schedule] else w.executions,
        containers := if plan.update.value.BeginContainer? then w.containers + [k.schedule] else w.containers)
    else SetWorker(w, worker, plan.no)
  }

  function DoNext(w: World, worker: Id, act: Act): World
    requires Enabled(w, Do(worker, act))
  {
    Carry(w, worker, React(w.workers[worker], act).value, act.Call?)
  }

  /** The terminal transaction: rolled back if the lease is lost or an index of published_posts is violated. */
  function CommitNext(w: World, worker: Id): World
    requires Enabled(w, Commit(worker))
  {
    var k := w.workers[worker];
    if !Holds(w, k) then SetWorker(w, worker, None)
    else if CanPublish(w.posts, k.post, k.phase.threadsPost) then
      SetWorker(Put(w, k.schedule, Release(w.rows[k.schedule], Published)), worker, None)
        .(posts := w.posts[(k.post.draft, k.post.account) := Post(k.post.version, k.phase.threadsPost)])
    else SetWorker(w, worker, Some(k.(phase := Failing(Transient))))
  }

  function Decide(w: World, id: Id, status: Status): World
    requires id in w.rows
  {
    Put(w, id, w.rows[id].(status := status)).(decisions := w.decisions + [id])
  }

  /** A resolution takes effect if the schedule still awaits recovery and the post can be inserted. */
  function ResolveNext(w: World, call: Id, threadsPost: Option<Id>): World
    requires call in w.pending && w.pending[call].Resolving?
  {
    var id := w.pending[call].schedule;
    var done := w.(pending := w.pending - {call});
    if id !in w.rows || !w.rows[id].status.RecoveryRequired? then done
    else if threadsPost.None? then Decide(done, id, Cancelled)
    else if !CanPublish(w.posts, w.rows[id], threadsPost.value) then done
    else
      var r := w.rows[id];
      Put(done, id, Release(r, Published))
        .(decisions := w.decisions + [id],
          posts := w.posts[(r.draft, r.account) := Post(r.version, threadsPost.value)])
  }

  /** A deletion takes effect as a whole or not at all. */
  function DeleteNext(w: World, call: Id): World
    requires call in w.pending && w.pending[call].Deleting?
  {
    var draft, found := w.pending[call].draft, w.pending[call].found;
    var done := w.(pending := w.pending - {call});
    if !Deletes(w, draft, found) then done
    else
      done.(rows := w.rows - found.Keys,
            gone := w.gone + (map i | i in w.rows && i in found :: w.rows[i]),
            erased := w.erased + {draft})
  }

  /**
   A post found on the platform is inserted with a draft and a version made for it, unless another row
   of the account has it already.
   */
  function IngestNext(w: World, draft: Id, account: Id, version: Id, threadsPost: Id): World {
    if IsFree(w.posts, account, threadsPost)
    then w.(posts := w.posts[(draft, account) := Post(version, threadsPost)], imported := w.imported + {(draft, account)})
    else w
  }

  ghost function Next(w: World, e: Event): World
    requires Enabled(w, e)
  {
    match e
    case Tick(time) => w.(now := time)
    case Claim(worker, schedule, token) =>
      var r := w.rows[schedule];
      SetWorker(Put(w, schedule, ClaimRow(r, token, w.now)), worker,
                Some(Claiming(schedule, token, r.status.Scheduled? && r.attemptCount == 0)))
        .(tokens := w.tokens + {token})
    case Read(worker) =>
      var k := w.workers[worker];
      SetWorker(w, worker, if k.schedule in w.rows then Some(Begin(k, w.rows[k.schedule])) else None)
    case Do(worker, act) => DoNext(w, worker, act)
    case Commit(worker) => CommitNext(w, worker)
    case Crash(worker) => SetWorker(w, worker, None)
    case CreateRead(call, row) => w.(pending := w.pending[call := Inserting(row)])
    case PlanRead(call, row) => w.(pending := w.pending[call := Inserting(row)])
    case CreateCommit(call, schedule) =>
      var done := w.(pending := w.pending - {call});
      var row := w.pending[call].row;
      if row.draft !in w.erased && CanInsert(w.rows, row) then Put(done, schedule, row) else done
    case Cancel(workspace, schedule) =>
      if schedule in w.rows && Cancellable(w.rows[schedule], workspace) then Decide(w, schedule, Cancelled) else w
    case ResolveRead(call, workspace, schedule) => w.(pending := w.pending[call := Resolving(schedule)])
    case ResolveUnpublished(call) => ResolveNext(w, call, None)
    case ResolvePublished(call, threadsPost) => ResolveNext(w, call, Some(threadsPost))
    case Reconnect(account) => if ActiveUnique(Restored(w.rows, account)) then w.(rows := Restored(w.rows, account)) else w
    case SweepRead(call, schedule) => w.(pending := w.pending[call := Sweeping(schedule, w.rows[schedule])])
    case SweepWrite(call) =>
      var id := w.pending[call].schedule;
      var done := w.(pending := w.pending - {call});
      if id in w.rows && Stale(w.rows[id], w.now) then Put(done, id, Release(w.rows[id], FailedPermanent)) else done
    case DeleteRead(call, draft) => w.(pending := w.pending[call := Deleting(draft, SchedulesOf(w.rows, draft))])
    case DeleteCommit(call) => DeleteNext(w, call)
    case Ingest(draft, account, version, threadsPost) => IngestNext(w, draft, account, version, threadsPost)
  }

  ghost predicate Initial(w: World) {
    w.rows == map[] && w.posts == map[] && w.workers == map[] && w.pending == map[]
    && w.calls == [] && w.executions == [] && w.containers == [] && w.decisions == []
    && w.gone == map[] && w.erased == {} && w.imported == {}
  }

  ghost predicate Run(w: World, events: seq<Event>, w': World)
    decreases |events|
  {
    if events == [] then w == w'
    else Enabled(w, events[0]) && Run(Next(w, events[0]), events[1..], w')
  }

  // ---- invariants ----

  /** What a single schedule keeps. */
  predicate RowInv(r: Schedule) {
    && (r.attemptId.Some? <==> Executing(r.status))
    && (r.leaseUntil.Some? <==> Executing(r.status))
    && (r.status.Scheduled? || r.status.FailedPermanent? || r.status.Expired? ==> !Traced(r))
    && (r.status.Publishing? ==> r.publishRequestedAt.Some?)
    && (r.attemptCount > MAX_ATTEMPTS ==> Traced(r))
    && r.containerAttempts <= MAX_CONTAINERS
    && (Traced(r) ==> r.container.Some?)
  }

  /** What a worker knows of the schedule whose token it holds. */
  predicate Knows(k: Worker, r: Schedule) {
    k.Working? ==>
      && k.post.attemptCount == r.attemptCount
      && (Traced(r) ==> k.ambiguous)
      && (SeesAmbiguity(k) ==> k.ambiguous)
      && (k.phase.Creating? || k.phase.Requesting? ==> !k.ambiguous)
      && (k.phase.Gating? && !k.ambiguous ==> r.attemptCount < MAX_ATTEMPTS)
      && (if Early(k.phase)
          then (k.ambiguous ==> Traced(r)) && k.post.containerAttempts == r.containerAttempts
               && (k.post.container.Some? <==> r.container.Some?)
          else k.phase.Creating? || k.phase.Failing? || r.container.Some?)
  }

  predicate Early(p: Phase) {
    p.Guarding? || p.Gating? || p.Preparing?
  }

  /** The constant columns of a schedule. */
  predicate SameSchedule(r: Schedule, r': Schedule) {
    && r'.workspace == r.workspace && r'.draft == r.draft && r'.account == r.account && r'.version == r.version
    && r'.key == r.key && r'.fingerprint == r.fingerprint && r'.scheduledAt == r.scheduledAt
  }

  ghost predicate RowsInv(w: World) {
    forall i | i in w.rows :: RowInv(w.rows[i]) && (w.rows[i].attemptId.Some? ==> w.rows[i].attemptId.value in w.tokens)
  }

  predicate About(k: Worker, w: World)
  {
    && Made(w, k.schedule) && k.token in w.tokens
    && (k.Working? ==> SameSchedule(Last(w, k.schedule), k.post))
    && (k.schedule in w.rows && w.rows[k.schedule].attemptId == Some(k.token) ==> Knows(k, w.rows[k.schedule]))
    && (k.Working? && k.phase.Calling? ==> Last(w, k.schedule).publishRequestedAt.Some? && k.schedule !in w.calls)
  }

  ghost predicate WorkersInv(w: World) {
    && (forall a | a in w.workers :: About(w.workers[a], w))
    && (forall a, b | a in w.workers && b in w.workers && a != b :: Apart(w.workers[a], w.workers[b]))
  }

  predicate Apart(k: Worker, l: Worker) {
    && k.token != l.token
    && !(k.Working? && l.Working? && k.phase.Calling? && l.phase.Calling? && k.schedule == l.schedule)
  }

  /** The platform is asked to publish a schedule at most once, and only after the request is on record. */
  ghost predicate CallsInv(w: World) {
    && (forall i | i in w.calls :: Made(w, i) && Last(w, i).publishRequestedAt.Some?)
    && (forall a, b | 0 <= a < b < |w.calls| :: w.calls[a] != w.calls[b])
  }

  function Times(s: seq<Id>, i: Id): nat {
    if s == [] then 0 else Times(s[..|s| - 1], i) + if s[|s| - 1] == i then 1 else 0
  }

  /** The counters of a schedule, zero before it is made. */
  function Executions(w: World, i: Id): nat {
    if Made(w, i) then Last(w, i).attemptCount else 0
  }

  function Containers(w: World, i: Id): nat {
    if Made(w, i) then Last(w, i).containerAttempts else 0
  }

  /** They count what was done for it. */
  predicate Counted(w: World, i: Id) {
    Times(w.executions, i) == Executions(w, i) && Times(w.containers, i) == Containers(w, i)
  }

  ghost predicate CountsInv(w: World) {
    forall i :: Counted(w, i)
  }

  /** Published schedules and the posts that were not imported correspond one to one. */
  ghost predicate PostsInv(w: World) {
    && (forall i | i in w.rows && w.rows[i].status.Published? ::
          (w.rows[i].draft, w.rows[i].account) in w.posts
          && w.posts[(w.rows[i].draft, w.rows[i].account)].version == w.rows[i].version)
    && (forall k | k in w.posts && k !in w.imported ::
          exists i :: i in w.rows && w.rows[i].status.Published? && (w.rows[i].draft, w.rows[i].account) == k)
    && (forall i, j | i in w.rows && j in w.rows && i != j && w.rows[i].status.Published? && w.rows[j].status.Published? ::
          (w.rows[i].draft, w.rows[i].account) != (w.rows[j].draft, w.rows[j].account))
  }

  /** An imported post stays, and its draft is scheduled for its account neither before nor after. */
  ghost predicate ImportedInv(w: World) {
    forall k | k in w.imported ::
      && k in w.posts && (forall i | Made(w, i) :: Of(Last(w, i)) != k)
      && (forall c | c in w.pending && w.pending[c].Inserting? :: Of(w.pending[c].row) != k)
  }

  ghost predicate DecisionsInv(w: World) {
    && (forall i | i in w.decisions :: Made(w, i) && (Last(w, i).status.Cancelled? || Last(w, i).status.Published?))
    && (forall a, b | 0 <= a < b < |w.decisions| :: w.decisions[a] != w.decisions[b])
  }

  /** What a deletion found stays as it was, except for schedules that a reconnect may have put back. */
  predicate FoundOk(r: Schedule, r': Schedule) {
    !Keeps(r.status) && SameSchedule(r, r') && (r' == r || (r.status.AuthRequired? && !Traced(r)))
  }

  /** Until a sweep writes, the schedule it has seen stays as it was or has been failed by another sweep. */
  predicate PendingOk(p: Pending, w: World) {
    match p
    case Inserting(row) => IsNew(row)
    case Resolving(i) => Made(w, i)
    case Sweeping(i, seen) =>
      Made(w, i) && Hopeless(seen, w.now) && (Last(w, i) == seen || Last(w, i) == Release(seen, FailedPermanent))
    case Deleting(draft, found) =>
      forall i | i in found :: Made(w, i) && found[i].draft == draft && FoundOk(found[i], Last(w, i))
  }

  ghost predicate SweepsInv(w: World) {
    forall c | c in w.pending :: PendingOk(w.pending[c], w)
  }

  /** Nothing of a deleted draft is left: no schedule, no post. */
  ghost predicate GoneInv(w: World) {
    && (forall i | i in w.gone :: i !in w.rows && RowInv(w.gone[i]) && !w.gone[i].status.Published? && w.gone[i].draft in w.erased)
    && (forall i | i in w.rows :: w.rows[i].draft !in w.erased)
    && (forall k | k in w.posts :: k.0 !in w.erased)
  }

  ghost predicate Inv(w: World) {
    && RowsInv(w) && GoneInv(w) && WorkersInv(w) && CallsInv(w) && CountsInv(w) && ActiveUnique(w.rows) && PostsInv(w)
    && ImportedInv(w)
    && DecisionsInv(w) && SweepsInv(w)
  }
}
