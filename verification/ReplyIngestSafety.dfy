/** What reply ingestion keeps in every interleaving, and what it may lose. */
module ReplyIngestSafety {
  import opened Common
  import opened ReplyIngest

  // ---- steps ----

  /** The part of a worker's promise that its own step renews. */
  lemma ActorOk(a: Account, w: World, e: Event, i: Id)
    requires Inv(a, w) && Enabled(w, e) && Acts(e, i) && i in Next(a, w, e).workers
    ensures WorkerOk(a, Next(a, w, e).workers[i], Next(a, w, e))
  {
    if e.Look? {
      LookOk(a, w, i);
    } else if e.Fetched? {
      assert e.replies[..0] == [];
    } else if e.Create? {
      CreateOk(a, w, i);
    } else {
      OtherOk(a, w, e, i);
    }
  }

  lemma LookOk(a: Account, w: World, i: Id)
    requires Inv(a, w) && Enabled(w, Look(i))
    ensures i in Next(a, w, Look(i)).workers && WorkerOk(a, Next(a, w, Look(i)).workers[i], Next(a, w, Look(i)))
  {
    var k := w.workers[i];
    assert WorkerOk(a, k, w);
    assert k.replies[..k.next + 1][..k.next] == k.replies[..k.next];
  }

  lemma CreateOk(a: Account, w: World, i: Id)
    requires Inv(a, w) && Enabled(w, Create(i))
    ensures i in Next(a, w, Create(i)).workers && WorkerOk(a, Next(a, w, Create(i)).workers[i], Next(a, w, Create(i)))
  {
    assert WorkerOk(a, w.workers[i], w);
  }

  lemma OtherOk(a: Account, w: World, e: Event, i: Id)
    requires Inv(a, w) && Enabled(w, e) && Acts(e, i) && i in Next(a, w, e).workers
    requires !e.Look? && !e.Fetched? && !e.Create?
    ensures WorkerOk(a, Next(a, w, e).workers[i], Next(a, w, e))
  {
    assert i in w.workers ==> WorkerOk(a, w.workers[i], w);
  }

  lemma BystanderStays(a: Account, w: World, e: Event, i: Id)
    requires Enabled(w, e) && i in w.workers && !Acts(e, i)
    ensures i in Next(a, w, e).workers && Next(a, w, e).workers[i] == w.workers[i]
  {
  }

  /** What of the tables a worker relies on only grows. */
  lemma TablesGrow(a: Account, w: World, e: Event)
    requires Enabled(w, e)
    ensures var w' := Next(a, w, e);
      && w.rows.Keys <= w'.rows.Keys && w.tokens <= w'.tokens
      && (forall i | i in w.interactions :: i in w'.interactions && w'.interactions[i] == w.interactions[i])
      && w'.jobs == if e.Queue? then w.jobs + [w.workers[e.worker].replies[w.workers[e.worker].next].id] else w.jobs
  {
  }

  lemma BystanderOk(a: Account, w: World, e: Event, i: Id)
    requires Inv(a, w) && Enabled(w, e) && i in w.workers && !Acts(e, i)
    ensures i in Next(a, w, e).workers && Next(a, w, e).workers[i] == w.workers[i]
    ensures WorkerOk(a, w.workers[i], Next(a, w, e))
  {
    var k := w.workers[i];
    BystanderStays(a, w, e, i);
    TablesGrow(a, w, e);
    assert WorkerOk(a, k, w);
    if e.Queue? { assert Apart(k, w.workers[e.worker]); }
  }

  lemma ActorApart(a: Account, w: World, e: Event, i: Id)
    requires Inv(a, w) && Enabled(w, e) && IsWorkers(e) && e.worker in Next(a, w, e).workers && i in w.workers && i != e.worker
    ensures Apart(Next(a, w, e).workers[e.worker], w.workers[i])
  {
    if e.Start? || e.Acquire? { NewcomerApart(a, w, e, i); } else { HolderApart(a, w, e, i); }
  }

  lemma NewcomerApart(a: Account, w: World, e: Event, i: Id)
    requires Inv(a, w) && Enabled(w, e) && (e.Start? || e.Acquire?) && e.worker in Next(a, w, e).workers
    requires i in w.workers && i != e.worker
    ensures Apart(Next(a, w, e).workers[e.worker], w.workers[i])
  {
    assert WorkerOk(a, w.workers[i], w);
  }

  lemma HolderApart(a: Account, w: World, e: Event, i: Id)
    requires Inv(a, w) && Enabled(w, e) && IsWorkers(e) && !e.Start? && !e.Acquire? && e.worker in Next(a, w, e).workers
    requires i in w.workers && i != e.worker
    ensures Apart(Next(a, w, e).workers[e.worker], w.workers[i])
  {
    assert WorkerOk(a, w.workers[i], w) && Apart(w.workers[e.worker], w.workers[i]);
  }

  lemma NoNewWorkers(a: Account, w: World, e: Event, i: Id)
    requires Enabled(w, e) && i in Next(a, w, e).workers && !Acts(e, i)
    ensures i in w.workers
  {
  }

  lemma StepKeepsWorkers(a: Account, w: World, e: Event)
    requires Inv(a, w) && Enabled(w, e)
    ensures var w' := Next(a, w, e);
      && (forall i | i in w'.workers :: WorkerOk(a, w'.workers[i], w'))
      && (forall i, j | i in w'.workers && j in w'.workers && i != j :: Apart(w'.workers[i], w'.workers[j]))
  {
    var w' := Next(a, w, e);
    forall i | i in w'.workers ensures WorkerOk(a, w'.workers[i], w') {
      if Acts(e, i) {
        ActorOk(a, w, e, i);
      } else {
        NoNewWorkers(a, w, e, i);
        BystanderOk(a, w, e, i);
      }
    }
    forall i, j | i in w'.workers && j in w'.workers && i != j ensures Apart(w'.workers[i], w'.workers[j]) {
      if Acts(e, i) {
        NoNewWorkers(a, w, e, j);
        BystanderOk(a, w, e, j);
        ActorApart(a, w, e, j);
      } else if Acts(e, j) {
        NoNewWorkers(a, w, e, i);
        BystanderOk(a, w, e, i);
        ActorApart(a, w, e, i);
      } else {
        NoNewWorkers(a, w, e, i);
        NoNewWorkers(a, w, e, j);
        BystanderOk(a, w, e, i);
        BystanderOk(a, w, e, j);
        assert Apart(w.workers[i], w.workers[j]);
      }
    }
  }

  lemma StepKeepsTables(a: Account, w: World, e: Event)
    requires Inv(a, w) && Enabled(w, e)
    ensures var w' := Next(a, w, e);
      && (forall i | i in w.interactions :: i in w'.interactions && w'.interactions[i] == w.interactions[i])
      && (forall i | i in w'.interactions && w'.interactions[i].parent.Some? :: w'.interactions[i].parent.value in w'.interactions)
  {
  }

  lemma StepKeepsRows(a: Account, w: World, e: Event)
    requires Inv(a, w) && Enabled(w, e)
    ensures forall r | r in Next(a, w, e).rows :: RowOk(Next(a, w, e).rows[r], Next(a, w, e))
  {
  }

  lemma RowsStay(a: Account, w: World, e: Event, root: Id)
    requires Enabled(w, e) && root in w.rows
    ensures root in Next(a, w, e).rows && w.tokens <= Next(a, w, e).tokens && w.now <= Next(a, w, e).now
    ensures var row, row' := w.rows[root], Next(a, w, e).rows[root];
      row' == row || row'.token.None? || row'.token.value !in w.tokens
  {
  }

  lemma ScanStays(a: Account, w: World, e: Event, c: Scan)
    requires Inv(a, w) && Enabled(w, e) && ScanOk(c, w)
    ensures ScanOk(c, Next(a, w, e))
  {
    RowsStay(a, w, e, c.root);
  }

  lemma ScanComes(a: Account, w: World, e: Event, c: Id)
    requires Enabled(w, e) && c in Next(a, w, e).scans
    ensures (c in w.scans && Next(a, w, e).scans[c] == w.scans[c])
            || (e.ScanRead? && Next(a, w, e).scans[c] == Scan(e.root, w.rows[e.root]) && Next(a, w, e).rows == w.rows
                && Next(a, w, e).now == w.now && Next(a, w, e).tokens == w.tokens)
  {
  }

  lemma StepKeepsScans(a: Account, w: World, e: Event)
    requires Inv(a, w) && Enabled(w, e)
    ensures forall c | c in Next(a, w, e).scans :: ScanOk(Next(a, w, e).scans[c], Next(a, w, e))
  {
    forall c | c in Next(a, w, e).scans ensures ScanOk(Next(a, w, e).scans[c], Next(a, w, e)) {
      ScanComes(a, w, e, c);
      if c in w.scans && Next(a, w, e).scans[c] == w.scans[c] {
        ScanStays(a, w, e, w.scans[c]);
      } else {
        assert RowOk(w.rows[e.root], w);
      }
    }
  }

  lemma StepKeepsJobs(a: Account, w: World, e: Event)
    requires Inv(a, w) && Enabled(w, e)
    ensures var w' := Next(a, w, e);
      && (forall x | x in w'.jobs :: x in w'.interactions && !w'.interactions[x].own)
      && (forall i, j | 0 <= i < j < |w'.jobs| :: w'.jobs[i] != w'.jobs[j])
  {
    StepKeepsTables(a, w, e);
    if e.Queue? { assert WorkerOk(a, w.workers[e.worker], w); }
  }

  lemma StepKeepsInv(a: Account, w: World, e: Event)
    requires Inv(a, w) && Enabled(w, e)
    ensures Inv(a, Next(a, w, e))
  {
    StepKeepsWorkers(a, w, e);
    StepKeepsTables(a, w, e);
    StepKeepsRows(a, w, e);
    StepKeepsScans(a, w, e);
    StepKeepsJobs(a, w, e);
  }

  lemma {:induction false} RunKeepsInv(a: Account, w: World, events: seq<Event>, w': World)
    requires Inv(a, w) && Run(a, w, events, w')
    ensures Inv(a, w')
    decreases |events|
  {
    if events != [] {
      StepKeepsInv(a, w, events[0]);
      RunKeepsInv(a, Next(a, w, events[0]), events[1..], w');
    }
  }

  ghost predicate Reachable(a: Account, w: World) {
    exists w0, events :: Initial(w0) && Run(a, w0, events, w)
  }

  lemma ReachableInv(a: Account, w: World)
    requires Reachable(a, w)
    ensures Inv(a, w)
  {
    var w0, events :| Initial(w0) && Run(a, w0, events, w);
    RunKeepsInv(a, w0, events, w);
  }

  // ---- jobs ----

  /** Ingestion queues each reply for classification at most once, own replies never, and only stored ones. */
  lemma OneJobPerReply(a: Account, w: World)
    requires Reachable(a, w)
    ensures forall i, j | 0 <= i < j < |w.jobs| :: w.jobs[i] != w.jobs[j]
    ensures forall x | x in w.jobs :: x in w.interactions && !w.interactions[x].own
  {
    ReachableInv(a, w);
  }

  /** A reply that is stored as the account's own is never queued, whatever happens. */
  lemma OwnIsNeverQueued(a: Account, w: World, events: seq<Event>, w': World, x: Id)
    requires Reachable(a, w) && Run(a, w, events, w') && x in w.interactions && w.interactions[x].own
    ensures x !in w'.jobs
  {
    ReachableInv(a, w);
    assert x !in w.jobs;
    assert forall i | i in w.workers :: WorkerOk(a, w.workers[i], w);
    LostForever(a, w, events, w', x);
  }

  /**
   The loop breaker over runs, field by field: a worker that creates the interaction of a reply with the
   flag, the account's user name, or its external id as owner or author stores it as the account's own,
   and no run from there queues it. Of a reply with none of these the interaction is foreign, and the
   worker's next step can queue it.
   */
  lemma LoopBreakerOverRuns(a: Account, w: World, i: Id, events: seq<Event>, w': World)
    requires Reachable(a, w) && Enabled(w, Create(i))
    requires w.workers[i].replies[w.workers[i].next].id !in w.interactions && Run(a, Next(a, w, Create(i)), events, w')
    ensures var r, v := w.workers[i].replies[w.workers[i].next], Next(a, w, Create(i));
      && r.id in v.interactions
      && (r.ownedFlag || r.username == Some(a.username) ==> v.interactions[r.id].own && r.id !in w'.jobs)
      && (a.externalId.Some? && r.owner == a.externalId ==> v.interactions[r.id].own && r.id !in w'.jobs)
      && (a.externalId.Some? && r.author == a.externalId ==> v.interactions[r.id].own && r.id !in w'.jobs)
      && (PointsElsewhere(a, r) ==>
            !v.interactions[r.id].own && Enabled(v, Queue(i)) && Next(a, v, Queue(i)).jobs == v.jobs + [r.id])
  {
    var r := w.workers[i].replies[w.workers[i].next];
    var v := Step(a, w, Create(i));
    if v.interactions[r.id].own { OwnIsNeverQueued(a, v, events, w', r.id); }
  }

  ghost predicate AboutToQueue(w: World, x: Id) {
    exists i :: i in w.workers && w.workers[i].phase.Queueing? && w.workers[i].next < |w.workers[i].replies|
                && w.workers[i].replies[w.workers[i].next].id == x
  }

  /** A stored reply that is not queued and that no worker is about to queue is never queued. */
  lemma LostStep(a: Account, w: World, e: Event, x: Id)
    requires Inv(a, w) && Enabled(w, e) && x in w.interactions && x !in w.jobs && !AboutToQueue(w, x)
    ensures var w' := Next(a, w, e); x in w'.interactions && x !in w'.jobs && !AboutToQueue(w', x)
  {
    var w' := Next(a, w, e);
    StepKeepsTables(a, w, e);
    if e.Queue? { assert WorkerOk(a, w.workers[e.worker], w); }
    if AboutToQueue(w', x) {
      var i :| i in w'.workers && w'.workers[i].phase.Queueing? && w'.workers[i].next < |w'.workers[i].replies|
               && w'.workers[i].replies[w'.workers[i].next].id == x;
      QueueingComes(a, w, e, i);
    }
  }

  /** A worker comes to queue a reply only by creating it. */
  lemma QueueingComes(a: Account, w: World, e: Event, i: Id)
    requires Inv(a, w) && Enabled(w, e) && i in Next(a, w, e).workers
    requires var l := Next(a, w, e).workers[i]; l.phase.Queueing? && l.next < |l.replies|
    ensures var l := Next(a, w, e).workers[i];
      (i in w.workers && w.workers[i] == l) || l.replies[l.next].id !in w.interactions
  {
    if !Acts(e, i) {
      NoNewWorkers(a, w, e, i);
      BystanderOk(a, w, e, i);
    }
  }

  /**
   A worker that stops between creating an interaction and queueing it loses the classification for
   good: later pages find the reply known.
   */
  lemma {:induction false} LostForever(a: Account, w: World, events: seq<Event>, w': World, x: Id)
    requires Inv(a, w) && Run(a, w, events, w') && x in w.interactions && x !in w.jobs && !AboutToQueue(w, x)
    ensures x in w'.interactions && x !in w'.jobs
    decreases |events|
  {
    if events != [] {
      LostStep(a, w, events[0], x);
      StepKeepsInv(a, w, events[0]);
      LostForever(a, Next(a, w, events[0]), events[1..], w', x);
    }
  }

  /** From a world a run leads on to another one. */
  ghost predicate Leads(a: Account, w: World, w': World) {
    exists events :: Run(a, w, events, w')
  }

  /**
   A stored reply that is not queued yet can still be queued if and only if a worker is about to; and
   then its next step does it.
   */
  lemma CanBeQueuedIff(a: Account, w: World, x: Id)
    requires Reachable(a, w) && x in w.interactions && x !in w.jobs
    ensures AboutToQueue(w, x) <==> exists w' :: Leads(a, w, w') && x in w'.jobs
    ensures AboutToQueue(w, x) ==> exists i :: Enabled(w, Queue(i)) && Next(a, w, Queue(i)).jobs == w.jobs + [x]
  {
    ReachableInv(a, w);
    if AboutToQueue(w, x) {
      var i :| i in w.workers && w.workers[i].phase.Queueing? && w.workers[i].next < |w.workers[i].replies|
               && w.workers[i].replies[w.workers[i].next].id == x;
      assert WorkerOk(a, w.workers[i], w);
      var w' := Next(a, w, Queue(i));
      assert Run(a, w', [], w') && [Queue(i)][1..] == [];
      assert Run(a, w, [Queue(i)], w') && w'.jobs[|w.jobs|] == x;
    } else if w' :| Leads(a, w, w') && x in w'.jobs {
      var events :| Run(a, w, events, w');
      LostForever(a, w, events, w', x);
    }
  }

  lemma {:induction false} RunSnoc(a: Account, w: World, events: seq<Event>, w': World, e: Event)
    requires Run(a, w, events, w') && Enabled(w', e)
    ensures Run(a, w, events + [e], Next(a, w', e))
    decreases |events|
  {
    if events == [] {
      assert (events + [e])[1..] == [];
    } else {
      RunSnoc(a, Next(a, w, events[0]), events[1..], w', e);
      assert (events + [e])[1..] == events[1..] + [e];
    }
  }

  lemma Step(a: Account, w: World, e: Event) returns (w': World)
    requires Reachable(a, w) && Enabled(w, e)
    ensures w' == Next(a, w, e) && Reachable(a, w')
  {
    w' := Next(a, w, e);
    var w0, events :| Initial(w0) && Run(a, w0, events, w);
    RunSnoc(a, w0, events, w, e);
  }

  /** A foreign reply that is stored, not queued, and never will be. */
  ghost predicate Lost(a: Account, w: World, x: Id) {
    && x in w.interactions && !w.interactions[x].own && x !in w.jobs
    && forall w' | Leads(a, w, w') :: x !in w'.jobs
  }

  function Foreign(a: Account, id: Id, timestamp: Time): (r: Reply)
    ensures !OwnedByMe(a, r)
  {
    Reply(id, timestamp, false, None, None, None, None)
  }

  lemma AboutToCreate(a: Account) returns (w: World)
    ensures Reachable(a, w) && w.workers.Keys == {0} && w.interactions == map[] && w.jobs == [] && 0 in w.rows
    ensures w.workers[0] == Worker(0, Some(0), None, [Foreign(a, 0, 0)], None, 0, Some(0), Creating)
  {
    w := World(0, map[], map[], [], map[], {}, map[]);
    assert Initial(w) && Run(a, w, [], w);
    w := Step(a, w, Start(0, 0));
    w := Step(a, w, Acquire(0, 0));
    w := Step(a, w, Fetched(0, [Foreign(a, 0, 0)], None));
    w := Step(a, w, Look(0));
  }

  /** A worker that crashes between storing a foreign reply and queueing it leaves it lost. */
  lemma RepliesGetLost(a: Account)
    ensures exists w: World, x: Id :: Reachable(a, w) && Lost(a, w, x)
  {
    var w := AboutToCreate(a);
    w := Step(a, w, Create(0));
    w := Step(a, w, Crash(0));
    assert w.workers == map[] && !AboutToQueue(w, 0);
    CanBeQueuedIff(a, w, 0);
    assert Lost(a, w, 0);
  }

  // ---- the lease ----

  predicate ReleasesRoot(w: World, e: Event, root: Id) {
    Enabled(w, e) && e.Finish? && w.workers[e.worker].root == root && Holds(w, w.workers[e.worker])
  }

  /**
   Watermark and cursor of a row change only by a release of the lease's holder. Its status and lease
   change also by a failure of the holder, by the acquiring of a free lease, and by a scan, which clears
   the lease it finds and leaves the rest.
   */
  lemma OnlyTheHolderWrites(a: Account, w: World, e: Event, root: Id)
    requires Enabled(w, e) && root in w.rows
    ensures root in Next(a, w, e).rows
    ensures var row, row' := w.rows[root], Next(a, w, e).rows[root];
      && (row'.watermark != row.watermark || row'.cursor != row.cursor ==> ReleasesRoot(w, e, root))
      && row' ==
           if e.Finish? && HeldBy(w, e.worker, root) then
             var k := w.workers[e.worker];
             Sync(Idle, None, None, if k.maxSeen.Some? then k.maxSeen else row.watermark, k.cursor, 0)
           else if e.Fail? && HeldBy(w, e.worker, root) then
             Sync(Failed, None, None, row.watermark, row.cursor, row.errors + 1)
           else if e.Acquire? && w.workers[e.worker].root == root && MayBeTaken(row, w.now) then
             Sync(Syncing, Some(e.token), Some(w.now + 180_000), row.watermark, row.cursor, row.errors)
           else if e.ScanWrite? && w.scans[e.scan].root == root then
             Sync(Idle, None, None, row.watermark, row.cursor, row.errors)
           else row
  {
  }

  /** The worker synchronises this post and bears the token of its row. */
  predicate HeldBy(w: World, i: Id, root: Id) {
    && i in w.workers && root in w.rows && w.workers[i].root == root
    && w.workers[i].token.Some? && w.rows[root].token == w.workers[i].token
  }

  /** Nobody synchronises the post, or its lease has run out. */
  predicate MayBeTaken(row: Sync, now: Time) {
    row.status != Syncing || (row.until.Some? && row.until.value < now)
  }

  /** A worker goes on exactly if it could take the lease, and a scan looks only at leases that have run out. */
  lemma LeaseIsTakenIff(a: Account, w: World, i: Id, token: Id, scan: Id, root: Id)
    requires root in w.rows
    ensures Enabled(w, Acquire(i, token)) && w.workers[i].root == root ==>
      (i in Next(a, w, Acquire(i, token)).workers <==> MayBeTaken(w.rows[root], w.now))
    ensures Enabled(w, ScanRead(scan, root)) <==>
      && scan !in w.scans && w.rows[root].status == Syncing
      && w.rows[root].until.Some? && w.rows[root].until.value < w.now
  {
  }

  /** The step at position n of a run is a release of the root's lease by its holder that writes this watermark and cursor. */
  ghost predicate WrittenAt(a: Account, w: World, events: seq<Event>, n: nat, root: Id, watermark: Option<Time>, cursor: Option<Id>) {
    n < |events| && exists v ::
      && Run(a, w, events[..n], v) && ReleasesRoot(v, events[n], root)
      && Next(a, v, events[n]).rows[root].watermark == watermark && Next(a, v, events[n]).rows[root].cursor == cursor
  }

  /** Over any run: a watermark or cursor that has changed was written by a release of a holder. */
  lemma {:induction false} WrittenByRelease(a: Account, w: World, events: seq<Event>, w': World, root: Id)
    requires Run(a, w, events, w') && root in w.rows
    ensures root in w'.rows
    ensures var row, row' := w.rows[root], w'.rows[root];
      row'.watermark != row.watermark || row'.cursor != row.cursor
      ==> exists n :: WrittenAt(a, w, events, n, root, row'.watermark, row'.cursor)
    decreases |events|
  {
    if events != [] {
      var e, v := events[0], Next(a, w, events[0]);
      OnlyTheHolderWrites(a, w, e, root);
      WrittenByRelease(a, v, events[1..], w', root);
      var row' := w'.rows[root];
      if row'.watermark != v.rows[root].watermark || row'.cursor != v.rows[root].cursor {
        var n :| WrittenAt(a, v, events[1..], n, root, row'.watermark, row'.cursor);
        LaterInRun(a, w, events, n, root, row'.watermark, row'.cursor);
      } else if v.rows[root].watermark != w.rows[root].watermark || v.rows[root].cursor != w.rows[root].cursor {
        assert events[..0] == [] && Run(a, w, events[..0], w);
        assert WrittenAt(a, w, events, 0, root, row'.watermark, row'.cursor);
      }
    }
  }

  lemma LaterInRun(a: Account, w: World, events: seq<Event>, n: nat, root: Id, watermark: Option<Time>, cursor: Option<Id>)
    requires events != [] && Enabled(w, events[0]) && WrittenAt(a, Next(a, w, events[0]), events[1..], n, root, watermark, cursor)
    ensures WrittenAt(a, w, events, n + 1, root, watermark, cursor)
  {
    var first := Next(a, w, events[0]);
    var v :| Run(a, first, events[1..][..n], v) && ReleasesRoot(v, events[1..][n], root)
             && Next(a, v, events[1..][n]).rows[root].watermark == watermark && Next(a, v, events[1..][n]).rows[root].cursor == cursor;
    assert events[..n + 1][1..] == events[1..][..n] && events[..n + 1][0] == events[0];
    assert Run(a, w, events[..n + 1], v) && events[1..][n] == events[n + 1];
  }

  // ---- the scan ----

  /** A live lease that a scan clears was acquired after the scan had read the row. */
  lemma ScanClearsLaterLease(a: Account, w: World, scan: Id)
    requires Reachable(a, w) && Enabled(w, ScanWrite(scan))
    ensures var c := w.scans[scan];
      Live(w.rows[c.root], w.now)
      <==> w.rows[c.root].token.Some? && w.rows[c.root].token != c.seen.token && !Free(w.rows[c.root], w.now)
  {
    ReachableInv(a, w);
    assert ScanOk(w.scans[scan], w) && RowOk(w.rows[w.scans[scan].root], w);
  }

  /** No worker bears the token any more. */
  predicate Spent(w: World, token: Id) {
    token in w.tokens && forall i | i in w.workers :: w.workers[i].token != Some(token)
  }

  lemma {:induction false} SpentForever(a: Account, w: World, events: seq<Event>, w': World, token: Id)
    requires Inv(a, w) && Run(a, w, events, w') && Spent(w, token)
    ensures Spent(w', token)
    decreases |events|
  {
    if events != [] {
      SpentStep(a, w, events[0], token);
      StepKeepsInv(a, w, events[0]);
      SpentForever(a, Next(a, w, events[0]), events[1..], w', token);
    }
  }

  lemma SpentStep(a: Account, w: World, e: Event, token: Id)
    requires Inv(a, w) && Enabled(w, e) && Spent(w, token)
    ensures Spent(Next(a, w, e), token)
  {
  }

  lemma {:induction false} TimeGoesOn(a: Account, w: World, events: seq<Event>, w': World)
    requires Run(a, w, events, w')
    ensures w.now <= w'.now
    decreases |events|
  {
    if events != [] { TimeGoesOn(a, Next(a, w, events[0]), events[1..], w'); }
  }

  /** The root's lease has this token and end, and no scan is about to clear it. */
  predicate Leased(w: World, root: Id, token: Id, until: Time) {
    && root in w.rows && w.rows[root].status.Syncing? && w.rows[root].token == Some(token) && w.rows[root].until == Some(until)
    && forall c | c in w.scans :: w.scans[c].root != root
  }

  lemma LeasedStep(a: Account, w: World, e: Event, root: Id, token: Id, until: Time)
    requires Inv(a, w) && Enabled(w, e) && Leased(w, root, token, until) && w.now <= until
    ensures Leased(Next(a, w, e), root, token, until) || Spent(Next(a, w, e), token)
  {
    if e.Finish? || e.Fail? { LeaseReleased(a, w, e, root, token, until); } else { LeaseKept(a, w, e, root, token, until); }
  }

  lemma LeaseReleased(a: Account, w: World, e: Event, root: Id, token: Id, until: Time)
    requires Inv(a, w) && Enabled(w, e) && Leased(w, root, token, until) && (e.Finish? || e.Fail?)
    ensures Leased(Next(a, w, e), root, token, until) || Spent(Next(a, w, e), token)
  {
    var k := w.workers[e.worker];
    assert WorkerOk(a, k, w);
    forall i | i in w.workers && i != e.worker ensures k.token == Some(token) ==> w.workers[i].token != Some(token) {
      assert Apart(k, w.workers[i]);
    }
  }

  lemma LeaseKept(a: Account, w: World, e: Event, root: Id, token: Id, until: Time)
    requires Inv(a, w) && Enabled(w, e) && Leased(w, root, token, until) && w.now <= until && !e.Finish? && !e.Fail?
    ensures Leased(Next(a, w, e), root, token, until)
  {
    assert RowOk(w.rows[root], w);
    OnlyTheHolderWrites(a, w, e, root);
  }

  lemma {:induction false} LeasedRun(a: Account, w: World, events: seq<Event>, w': World, root: Id, token: Id, until: Time)
    requires Inv(a, w) && Run(a, w, events, w') && Leased(w, root, token, until) && w'.now <= until && !Spent(w', token)
    ensures Leased(w', root, token, until)
    decreases |events|
  {
    if events != [] {
      var v := Next(a, w, events[0]);
      TimeGoesOn(a, w, events, w');
      LeasedStep(a, w, events[0], root, token, until);
      StepKeepsInv(a, w, events[0]);
      if Leased(v, root, token, until) {
        LeasedRun(a, v, events[1..], w', root, token, until);
      } else {
        SpentForever(a, v, events[1..], w', token);
      }
    }
  }

  /** The worker goes on with its token and has lost its lease before the lease ends. */
  ghost predicate LosesLiveLease(a: Account, w: World, i: Id, token: Id, until: Time) {
    exists w' :: Leads(a, w, w') && w'.now <= until && i in w'.workers && w'.workers[i].token == Some(token) && !Holds(w', w'.workers[i])
  }

  predicate ScanPending(w: World, root: Id) {
    exists c | c in w.scans :: w.scans[c].root == root
  }

  /**
   A worker that holds a live lease can lose it before it ends if and only if a scan has read the row and
   not yet written. The scan has then seen an earlier lease, which had expired.
   */
  lemma LiveLeaseCanBeLostIff(a: Account, w: World, i: Id)
    requires Reachable(a, w) && i in w.workers && Holds(w, w.workers[i]) && Live(w.rows[w.workers[i].root], w.now)
    ensures var k := w.workers[i];
      LosesLiveLease(a, w, i, k.token.value, w.rows[k.root].until.value) <==> ScanPending(w, k.root)
  {
    ReachableInv(a, w);
    var k := w.workers[i];
    var token, until := k.token.value, w.rows[k.root].until.value;
    assert RowOk(w.rows[k.root], w);
    if ScanPending(w, k.root) {
      var c :| c in w.scans && w.scans[c].root == k.root;
      var w' := Next(a, w, ScanWrite(c));
      assert Run(a, w', [], w') && [ScanWrite(c)][1..] == [];
      assert Run(a, w, [ScanWrite(c)], w');
    } else if w' :| Leads(a, w, w') && w'.now <= until && i in w'.workers && w'.workers[i].token == Some(token)
                    && !Holds(w', w'.workers[i]) {
      var events :| Run(a, w, events, w');
      assert !Spent(w', token);
      LeasedRun(a, w, events, w', k.root, token, until);
      SameRoot(a, w, events, w', i, token);
    }
  }

  /** A token stays with its worker, which stays with its root. */
  lemma {:induction false} SameRoot(a: Account, w: World, events: seq<Event>, w': World, i: Id, token: Id)
    requires Run(a, w, events, w') && token in w.tokens
    requires i in w'.workers && w'.workers[i].token == Some(token)
    ensures i in w.workers && w.workers[i].token == Some(token) && w'.workers[i].root == w.workers[i].root
    decreases |events|
  {
    if events != [] {
      SameRootStep(a, w, events[0], i, token);
      SameRoot(a, Next(a, w, events[0]), events[1..], w', i, token);
      SameRootStep(a, w, events[0], i, token);
    }
  }

  lemma SameRootStep(a: Account, w: World, e: Event, i: Id, token: Id)
    requires Enabled(w, e) && token in w.tokens
    ensures token in Next(a, w, e).tokens
    ensures i in Next(a, w, e).workers && Next(a, w, e).workers[i].token == Some(token)
      ==> i in w.workers && w.workers[i].token == Some(token) && Next(a, w, e).workers[i].root == w.workers[i].root
  {
  }

  /** A worker with a live lease is about to write a later watermark, and a scan is about to clear the lease. */
  ghost predicate ReleaseGetsLost(a: Account, w: World, scan: Id, i: Id) {
    && Reachable(a, w) && i in w.workers && Enabled(w, ScanWrite(scan)) && w.scans[scan].root == w.workers[i].root
    && Holds(w, w.workers[i]) && Live(w.rows[w.workers[i].root], w.now) && Enabled(w, Finish(i))
    && Next(a, w, Finish(i)).rows != w.rows
    && var cleared := Next(a, w, ScanWrite(scan)); Enabled(cleared, Finish(i)) && Next(a, cleared, Finish(i)).rows == cleared.rows
  }

  /** A worker whose lease has been taken over. */
  predicate Superseded(w: World, i: Id) {
    i in w.workers && w.workers[i].token.Some? && !Holds(w, w.workers[i])
  }

  lemma SupersededStep(a: Account, w: World, e: Event, i: Id)
    requires Inv(a, w) && Enabled(w, e) && Superseded(w, i)
    ensures Superseded(Next(a, w, e), i) || (Acts(e, i) && i !in Next(a, w, e).workers)
    ensures Acts(e, i) ==> Next(a, w, e).rows == w.rows
  {
    assert WorkerOk(a, w.workers[i], w);
    if !Acts(e, i) { BystanderOk(a, w, e, i); }
  }

  /** From then on none of its steps writes the watermark, the cursor or anything else of a sync row. */
  lemma {:induction false} SupersededNeverWrites(a: Account, w: World, events: seq<Event>, w': World, i: Id, e: Event)
    requires Inv(a, w) && Superseded(w, i) && Run(a, w, events, w') && i in w'.workers
    requires forall x | x in events :: !Acts(x, i) || !(x.Finish? || x.Fail? || x.Crash?)
    requires Enabled(w', e) && Acts(e, i)
    ensures Next(a, w', e).rows == w'.rows
    decreases |events|
  {
    if events == [] {
      SupersededStep(a, w', e, i);
    } else {
      SupersededStep(a, w, events[0], i);
      StepKeepsInv(a, w, events[0]);
      SupersededNeverWrites(a, Next(a, w, events[0]), events[1..], w', i, e);
    }
  }

  /** A release writes as watermark the latest of the one read at the start and of the page's timestamps. */
  lemma WatermarkIsMaximum(a: Account, w: World, e: Event)
    requires Reachable(a, w) && Enabled(w, e) && e.Finish? && Holds(w, w.workers[e.worker])
    ensures var k := w.workers[e.worker];
      var seen := Next(a, w, e).rows[k.root].watermark;
      && (forall i | 0 <= i < |k.replies| :: seen.Some? && k.replies[i].timestamp <= seen.value)
      && (k.watermark.Some? ==> seen.Some? && k.watermark.value <= seen.value)
      && (k.watermark.Some? || k.replies != [] ==>
            seen == k.watermark || exists i :: 0 <= i < |k.replies| && seen == Some(k.replies[i].timestamp))
  {
    ReachableInv(a, w);
    var k := w.workers[e.worker];
    assert WorkerOk(a, k, w);
    assert k.replies[..k.next] == k.replies;
    MaxSeenIs(k.watermark, k.replies);
  }

  lemma {:induction false} MaxSeenIs(start: Option<Time>, replies: seq<Reply>)
    ensures var seen := MaxSeen(start, replies);
      && (forall i | 0 <= i < |replies| :: seen.Some? && replies[i].timestamp <= seen.value)
      && (start.Some? ==> seen.Some? && start.value <= seen.value)
      && (seen == start || exists i :: 0 <= i < |replies| && seen == Some(replies[i].timestamp))
  {
    if replies != [] {
      var init := replies[..|replies| - 1];
      MaxSeenIs(start, init);
      if i :| 0 <= i < |init| && MaxSeen(start, init) == Some(init[i].timestamp) {
        assert replies[i] == init[i];
      }
      assert forall i | 0 <= i < |init| :: replies[i] == init[i];
    }
  }

  predicate Older(s: Option<Time>, t: Option<Time>) {
    s.Some? && t.Some? && s.value < t.value
  }

  /**
   A release puts the watermark back if and only if the latest of the one its worker read at the start
   and of the page's timestamps is older than the row's. That takes a worker that read its own before
   the row's was written, which the lease does not prevent.
   */
  lemma WatermarkGoesBackIff(a: Account, w: World, e: Event)
    requires Reachable(a, w) && Enabled(w, e) && e.Finish? && Holds(w, w.workers[e.worker])
    ensures var k := w.workers[e.worker];
      var row := w.rows[k.root];
      && (Older(Next(a, w, e).rows[k.root].watermark, row.watermark) <==> Older(MaxSeen(k.watermark, k.replies), row.watermark))
      && (Older(MaxSeen(k.watermark, k.replies), row.watermark) ==> k.watermark.None? || Older(k.watermark, row.watermark))
  {
    ReachableInv(a, w);
    var k := w.workers[e.worker];
    assert WorkerOk(a, k, w);
    assert k.replies[..k.next] == k.replies;
    MaxSeenIs(k.watermark, k.replies);
  }

  lemma EmptyPageRun(a: Account, w: World, worker: Id, token: Id, cursor: Option<Id>) returns (w': World)
    requires Enabled(w, Acquire(worker, token)) && Free(w.rows[w.workers[worker].root], w.now)
    requires w.workers[worker].next == 0 && w.workers[worker].maxSeen == w.workers[worker].watermark
    ensures Run(a, w, [Acquire(worker, token), Fetched(worker, [], cursor), Finish(worker)], w')
    ensures var k := w.workers[worker];
      k.root in w'.rows && w'.rows[k.root].watermark == if k.watermark.Some? then k.watermark else w.rows[k.root].watermark
  {
    var e1, e2, e3 := Acquire(worker, token), Fetched(worker, [], cursor), Finish(worker);
    var w1 := Next(a, w, e1);
    var w2 := Next(a, w1, e2);
    w' := Next(a, w2, e3);
    assert [e1, e2, e3][1..] == [e2, e3] && [e2, e3][1..] == [e3] && [e3][1..] == [];
    assert Run(a, w', [], w') && Run(a, w2, [e3], w') && Run(a, w1, [e2, e3], w');
  }

  /** A worker that finds the lease free and the page empty puts the watermark back if its own is older. */
  lemma EmptyPageGoesBackIff(a: Account, w: World, worker: Id, token: Id, cursor: Option<Id>)
    requires Reachable(a, w) && In(w, worker, Entering) && token !in w.tokens && Free(w.rows[w.workers[worker].root], w.now)
    ensures var k := w.workers[worker];
      exists w' {:trigger w'.rows[k.root]} ::
      && Run(a, w, [Acquire(worker, token), Fetched(worker, [], cursor), Finish(worker)], w')
      && k.root in w'.rows && (Older(w'.rows[k.root].watermark, w.rows[k.root].watermark) <==> Older(k.watermark, w.rows[k.root].watermark))
  {
    ReachableInv(a, w);
    assert WorkerOk(a, w.workers[worker], w);
    var w' := EmptyPageRun(a, w, worker, token, cursor);
    var k := w.workers[worker];
    assert w'.rows[k.root].watermark == if k.watermark.Some? then k.watermark else w.rows[k.root].watermark;
  }

  /** A worker that waits before the lease with an older watermark than the row has by now. */
  ghost predicate Outdated(w: World, worker: Id) {
    In(w, worker, Entering) && Older(w.workers[worker].watermark, w.rows[w.workers[worker].root].watermark)
    && Free(w.rows[w.workers[worker].root], w.now)
  }

  /**
   The run: two workers read the row, the second takes the lease, reads a later reply and releases; the
   first then puts the older watermark back.
   */
  lemma WatermarkCanGoBack(a: Account)
    ensures exists w: World, worker: Id, w': World {:trigger Outdated(w, worker), Leads(a, w, w')} ::
      Reachable(a, w) && Outdated(w, worker) && Leads(a, w, w')
      && var root := w.workers[worker].root; root in w'.rows && Older(w'.rows[root].watermark, w.rows[root].watermark)
  {
    var w := SecondReleased(a);
    EmptyPageGoesBackIff(a, w, 0, 1, None);
    var w' :| Run(a, w, [Acquire(0, 1), Fetched(0, [], None), Finish(0)], w')
              && 0 in w'.rows && (Older(w'.rows[0].watermark, w.rows[0].watermark) <==> Older(Some(10), w.rows[0].watermark));
    assert Leads(a, w, w');
  }

  lemma SecondReleased(a: Account) returns (w: World)
    ensures Reachable(a, w) && Outdated(w, 0) && 1 !in w.tokens
    ensures w.workers[0].root == 0 && w.workers[0].watermark == Some(10) && w.rows[0].watermark == Some(20)
  {
    w := SecondHasPage(a);
    w := Step(a, w, Look(1));
    w := Step(a, w, Create(1));
    w := Step(a, w, Queue(1));
    w := Step(a, w, Finish(1));
  }

  lemma SecondHasPage(a: Account) returns (w: World)
    ensures Reachable(a, w) && w.tokens == {0} && w.interactions == map[] && w.now == 0 && w.workers.Keys == {0, 1}
    ensures w.rows == map[0 := Sync(Syncing, Some(0), Some(LEASE_MS), Some(10), None, 0)]
    ensures w.workers[0] == Worker(0, None, Some(10), [], None, 0, Some(10), Entering)
    ensures w.workers[1] == Worker(0, Some(0), Some(10), [Foreign(a, 0, 20)], None, 0, Some(10), Looking)
  {
    w := TwoStarted(a);
    w := Step(a, w, Acquire(1, 0));
    w := Step(a, w, Fetched(1, [Foreign(a, 0, 20)], None));
  }

  lemma TwoStarted(a: Account) returns (w: World)
    ensures Reachable(a, w) && w.tokens == {} && w.interactions == map[] && w.now == 0 && w.scans == map[]
    ensures w.rows == map[0 := Sync(Idle, None, None, Some(10), None, 0)]
    ensures w.workers.Keys == {0, 1}
    ensures forall i | i in w.workers :: w.workers[i] == Worker(0, None, Some(10), [], None, 0, Some(10), Entering)
  {
    w := World(0, map[0 := Sync(Idle, None, None, Some(10), None, 0)], map[], [], map[], {}, map[]);
    assert Initial(w) && Run(a, w, [], w);
    w := Step(a, w, Start(0, 0));
    w := Step(a, w, Start(1, 0));
  }

  /** The first worker's lease has expired, a scan has seen it, and the second worker has taken the lease over. */
  lemma TakenOver(a: Account) returns (w: World)
    ensures Reachable(a, w) && w.tokens == {0, 1} && w.interactions == map[] && w.now == LEASE_MS + 1
    ensures w.rows == map[0 := Sync(Syncing, Some(1), Some(LEASE_MS + 1 + LEASE_MS), Some(10), None, 0)]
    ensures 1 in w.workers && w.workers[1] == Worker(0, Some(1), Some(10), [], None, 0, Some(10), Fetching)
    ensures 0 in w.scans && w.scans[0].root == 0
  {
    w := TwoStarted(a);
    w := Step(a, w, Acquire(0, 0));
    w := Step(a, w, Tick(LEASE_MS + 1));
    w := Step(a, w, ScanRead(0, 0));
    w := Step(a, w, Acquire(1, 1));
  }

  /** A reachable state in which a live holder's release, and with it its watermark, is lost to a scan. */
  lemma ScanCanLoseRelease(a: Account)
    ensures exists w, scan, i :: ReleaseGetsLost(a, w, scan, i)
  {
    var w := TakenOver(a);
    var page := [Reply(0, 20, true, None, None, None, None)];
    w := Step(a, w, Fetched(1, page, None));
    w := Step(a, w, Look(1));
    w := Step(a, w, Create(1));
    assert w.workers[1].next == 1 && w.workers[1].maxSeen == Some(20);
    assert ReleaseGetsLost(a, w, 0, 1);
  }
}
