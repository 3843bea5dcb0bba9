/**
 Reply ingestion: workers take a lease on a root post, fetch a page of replies that may overlap or repeat
 earlier ones, create an interaction per unknown reply, queue one classification for each that is not the
 account's own, and advance the watermark when they release the lease. A reconciliation scan clears leases
 it has found expired.
 */
module ReplyIngest {
  import opened Common

  type Id = nat
  type Time = int

  const LEASE_MS := 180_000

  datatype SyncStatus = Idle | Syncing | Failed

  datatype Sync = Sync(
    status: SyncStatus, token: Option<Id>, until: Option<Time>, watermark: Option<Time>, cursor: Option<Id>, errors: nat)

  /** A reply of the platform; a user name stands for its lower-case form, an empty one for none. */
  datatype Reply = Reply(
    id: Id, timestamp: Time, ownedFlag: bool,
    username: Option<Id>, owner: Option<Id>, author: Option<Id>, parent: Option<Id>)

  datatype Account = Account(username: Id, externalId: Option<Id>)

  datatype Interaction = Interaction(own: bool, postedAt: Time, parentId: Option<Id>, parent: Option<Id>)

  predicate OwnedByMe(a: Account, r: Reply) {
    || r.ownedFlag
    || r.username == Some(a.username)
    || (a.externalId.Some? && (r.owner == a.externalId || r.author == a.externalId))
  }

  /** Neither the flag, nor the user name, nor owner or author is that of the account. */
  predicate PointsElsewhere(a: Account, r: Reply) {
    && !r.ownedFlag
    && r.username != Some(a.username)
    && (a.externalId.Some? ==> r.owner != a.externalId && r.author != a.externalId)
  }

  /** The interaction created for a reply; its parent is linked if it is known by then. */
  function NewInteraction(a: Account, known: map<Id, Interaction>, r: Reply): Interaction {
    Interaction(OwnedByMe(a, r), r.timestamp, r.parent, if r.parent.Some? && r.parent.value in known then r.parent else None)
  }

  function Later(seen: Option<Time>, t: Time): Option<Time> {
    if seen.None? || t > seen.value then Some(t) else seen
  }

  // ---- the protocol ----

  /**
   Where a worker is: before the lease, before the fetch, before reply `next`, between finding a reply
   unknown and creating it, between creating and queueing it, in its catch clause.
   */
  datatype Phase = Entering | Fetching | Looking | Creating | Queueing | Failing

  datatype Worker = Worker(
    root: Id, token: Option<Id>, watermark: Option<Time>, replies: seq<Reply>, cursor: Option<Id>,
    next: nat, maxSeen: Option<Time>, phase: Phase)

  /** What a scan has read of a row and not yet acted on. */
  datatype Scan = Scan(root: Id, seen: Sync)

  datatype World = World(
    now: Time, rows: map<Id, Sync>, interactions: map<Id, Interaction>, jobs: seq<Id>,
    workers: map<Id, Worker>, tokens: set<Id>, scans: map<Id, Scan>)

  datatype Event =
    | Tick(time: Time)
    | Start(worker: Id, root: Id)
    | Acquire(worker: Id, token: Id)
    | Fetched(worker: Id, replies: seq<Reply>, cursor: Option<Id>)
    | Look(worker: Id)
    | Create(worker: Id)
    | Queue(worker: Id)
    | Finish(worker: Id)
    | Throw(worker: Id)
    | Fail(worker: Id)
    | Crash(worker: Id)
    | ScanRead(scan: Id, root: Id)
    | ScanWrite(scan: Id)

  predicate IsWorkers(e: Event) {
    !e.Tick? && !e.ScanRead? && !e.ScanWrite?
  }

  predicate Acts(e: Event, worker: Id) {
    IsWorkers(e) && e.worker == worker
  }

  /** A lease is running. */
  predicate Live(s: Sync, now: Time) {
    s.token.Some? && s.until.Some? && s.until.value >= now
  }

  predicate Free(s: Sync, now: Time) {
    s.status.Idle? || s.status.Failed? || (s.until.Some? && s.until.value < now)
  }

  predicate In(w: World, worker: Id, phase: Phase) {
    worker in w.workers && w.workers[worker].phase == phase && w.workers[worker].root in w.rows
  }

  predicate Enabled(w: World, e: Event) {
    match e
    case Tick(time) => time >= w.now
    case Start(worker, root) => worker !in w.workers
    case Acquire(worker, token) => In(w, worker, Entering) && token !in w.tokens
    case Fetched(worker, _, _) => In(w, worker, Fetching)
    case Look(worker) => In(w, worker, Looking) && w.workers[worker].next < |w.workers[worker].replies|
    case Create(worker) => In(w, worker, Creating) && w.workers[worker].next < |w.workers[worker].replies|
    case Queue(worker) => In(w, worker, Queueing) && w.workers[worker].next < |w.workers[worker].replies|
    case Finish(worker) => In(w, worker, Looking) && w.workers[worker].next == |w.workers[worker].replies|
    case Throw(worker) => worker in w.workers && !w.workers[worker].phase.Entering? && !w.workers[worker].phase.Failing?
    case Fail(worker) => In(w, worker, Failing)
    case Crash(worker) => worker in w.workers
    case ScanRead(scan, root) =>
      scan !in w.scans && root in w.rows && w.rows[root].status.Syncing?
      && w.rows[root].until.Some? && w.rows[root].until.value < w.now
    case ScanWrite(scan) => scan in w.scans && w.scans[scan].root in w.rows
  }

  function Set(w: World, worker: Id, k: Worker): World {
    w.(workers := w.workers[worker := k])
  }

  function Drop(w: World, worker: Id): World {
    w.(workers := w.workers - {worker})
  }

  function Advance(k: Worker): Worker {
    k.(next := k.next + 1, phase := Looking)
  }

  predicate Holds(w: World, k: Worker) {
    k.root in w.rows && k.token.Some? && w.rows[k.root].token == k.token
  }

  function Next(a: Account, w: World, e: Event): World
    requires Enabled(w, e)
  {
    match e
    case Tick(time) => w.(now := time)
    case Start(worker, root) =>
      var row := if root in w.rows then w.rows[root] else Sync(Idle, None, None, None, None, 0);
      Set(w, worker, Worker(root, None, row.watermark, [], None, 0, row.watermark, Entering)).(rows := w.rows[root := row])
    case Acquire(worker, token) =>
      var k := w.workers[worker];
      if Free(w.rows[k.root], w.now)
      then
        Set(w, worker, k.(token := Some(token), phase := Fetching)).(
          rows := w.rows[k.root := w.rows[k.root].(status := Syncing, token := Some(token), until := Some(w.now + LEASE_MS))],
          tokens := w.tokens + {token})
      else Drop(w, worker)
    case Fetched(worker, replies, cursor) =>
      Set(w, worker, w.workers[worker].(replies := replies, cursor := cursor, phase := Looking))
    case Look(worker) =>
      var k := w.workers[worker];
      var r := k.replies[k.next];
      var k' := k.(maxSeen := Later(k.maxSeen, r.timestamp));
      Set(w, worker, if r.id in w.interactions then Advance(k') else k'.(phase := Creating))
    case Create(worker) =>
      var k := w.workers[worker];
      var r := k.replies[k.next];
      if r.id in w.interactions then Set(w, worker, k.(phase := Failing))  // unique violation
      else
        Set(w, worker, if OwnedByMe(a, r) then Advance(k) else k.(phase := Queueing))
          .(interactions := w.interactions[r.id := NewInteraction(a, w.interactions, r)])
    case Queue(worker) =>
      var k := w.workers[worker];
      Set(w, worker, Advance(k)).(jobs := w.jobs + [k.replies[k.next].id])
    case Finish(worker) =>
      var k := w.workers[worker];
      var row := w.rows[k.root];
      if Holds(w, k)
      then
        var seen := if k.maxSeen.Some? then k.maxSeen else row.watermark;
        Drop(w, worker).(rows := w.rows[k.root := Sync(Idle, None, None, seen, k.cursor, 0)])
      else Drop(w, worker)
    case Throw(worker) => Set(w, worker, w.workers[worker].(phase := Failing))
    case Fail(worker) =>
      var k := w.workers[worker];
      var row := w.rows[k.root];
      if Holds(w, k)
      then
        Drop(w, worker).(
          rows := w.rows[k.root := row.(status := Failed, token := None, until := None, errors := row.errors + 1)])
      else Drop(w, worker)
    case Crash(worker) => Drop(w, worker)
    case ScanRead(scan, root) => w.(scans := w.scans[scan := Scan(root, w.rows[root])])
    case ScanWrite(scan) =>
      var root := w.scans[scan].root;
      w.(scans := w.scans - {scan}, rows := w.rows[root := w.rows[root].(status := Idle, token := None, until := None)])
  }

  ghost predicate Initial(w: World) {
    w.interactions == map[] && w.jobs == [] && w.workers == map[] && w.scans == map[]
    && forall r | r in w.rows :: !w.rows[r].status.Syncing? && w.rows[r].token.None? && w.rows[r].until.None?
  }

  ghost predicate Run(a: Account, w: World, events: seq<Event>, w': World)
    decreases |events|
  {
    if events == [] then w == w' else Enabled(w, events[0]) && Run(a, Next(a, w, events[0]), events[1..], w')
  }

  // ---- invariants ----

  function MaxSeen(start: Option<Time>, replies: seq<Reply>): Option<Time> {
    if replies == [] then start else Later(MaxSeen(start, replies[..|replies| - 1]), replies[|replies| - 1].timestamp)
  }

  predicate LooksAt(k: Worker) {
    k.phase.Creating? || k.phase.Queueing?
  }

  predicate WorkerOk(a: Account, k: Worker, w: World) {
    && k.root in w.rows && (k.token.Some? ==> k.token.value in w.tokens)
    && (k.token.None? <==> k.phase.Entering?)
    && k.next <= |k.replies| && (LooksAt(k) ==> k.next < |k.replies|)
    && (k.phase.Looking? ==> k.maxSeen == MaxSeen(k.watermark, k.replies[..k.next]))
    && (LooksAt(k) ==> k.maxSeen == MaxSeen(k.watermark, k.replies[..k.next + 1]))
    && (k.phase.Entering? || k.phase.Fetching? ==> k.next == 0 && k.replies == [] && k.maxSeen == k.watermark)
    && (k.phase.Queueing? ==>
          && k.replies[k.next].id in w.interactions && !w.interactions[k.replies[k.next].id].own
          && k.replies[k.next].id !in w.jobs)
  }

  /** A row is SYNCING exactly while it carries a lease. */
  predicate RowOk(s: Sync, w: World) {
    && (s.status.Syncing? <==> s.token.Some?) && (s.token.Some? <==> s.until.Some?)
    && (s.token.Some? ==> s.token.value in w.tokens)
  }

  /** What a scan has seen had expired, and is still there as long as its token is. */
  predicate ScanOk(c: Scan, w: World) {
    && c.root in w.rows && c.seen.status.Syncing? && c.seen.token.Some? && c.seen.token.value in w.tokens
    && c.seen.until.Some? && c.seen.until.value < w.now
    && (w.rows[c.root].token == c.seen.token ==> w.rows[c.root] == c.seen)
  }

  /** Two workers never draw the same token nor are about to queue the same reply. */
  predicate Apart(k: Worker, l: Worker) {
    && (k.token.Some? && l.token.Some? ==> k.token != l.token)
    && (k.phase.Queueing? && l.phase.Queueing? && k.next < |k.replies| && l.next < |l.replies|
        ==> k.replies[k.next].id != l.replies[l.next].id)
  }

  ghost predicate Inv(a: Account, w: World) {
    && (forall i | i in w.workers :: WorkerOk(a, w.workers[i], w))
    && (forall i, j | i in w.workers && j in w.workers && i != j :: Apart(w.workers[i], w.workers[j]))
    && (forall r | r in w.rows :: RowOk(w.rows[r], w))
    && (forall c | c in w.scans :: ScanOk(w.scans[c], w))
    && (forall e | e in w.jobs :: e in w.interactions && !w.interactions[e].own)
    && (forall i, j | 0 <= i < j < |w.jobs| :: w.jobs[i] != w.jobs[j])
    && (forall i | i in w.interactions && w.interactions[i].parent.Some? :: w.interactions[i].parent.value in w.interactions)
  }
}
