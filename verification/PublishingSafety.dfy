/** What scheduled publishing guarantees over every run, and where its guarantees end. */
module PublishingSafety {
  import opened Common
  import opened ScheduleStatus
  import opened PublishingTables
  import opened PublishingProtocol
  import opened PublishingSteps

  ghost predicate Reachable(w: World) {
    exists w0, events :: Initial(w0) && Run(w0, events, w)
  }

  lemma ReachableInv(w: World)
    requires Reachable(w)
    ensures Inv(w)
  {
    var w0, events :| Initial(w0) && Run(w0, events, w);
    RunKeepsInv(w0, events, w);
  }

  // ---- at most once ----

  /** The platform is asked at most once to publish a schedule, whatever crashes and takeovers happen. */
  lemma AtMostOneCall(w: World)
    requires Reachable(w)
    ensures forall a, b | 0 <= a < b < |w.calls| :: w.calls[a] != w.calls[b]
    ensures forall i | i in w.calls :: Made(w, i) && Last(w, i).publishRequestedAt.Some?
  {
    ReachableInv(w);
  }

  /** At most one cancellation or resolution takes effect per schedule, which stays as it leaves it. */
  lemma AtMostOneDecision(w: World)
    requires Reachable(w)
    ensures forall a, b | 0 <= a < b < |w.decisions| :: w.decisions[a] != w.decisions[b]
    ensures forall i | i in w.decisions :: Made(w, i) && (Last(w, i).status.Cancelled? || Last(w, i).status.Published?)
  {
    ReachableInv(w);
  }

  /** At most one active schedule per draft and account. */
  lemma OneActiveSchedule(w: World, i: Id, j: Id)
    requires Reachable(w) && i in w.rows && j in w.rows && Active(w.rows[i].status) && Active(w.rows[j].status)
    requires w.rows[i].draft == w.rows[j].draft && w.rows[i].account == w.rows[j].account
    ensures i == j
  {
    ReachableInv(w);
  }

  /** Some schedule of this draft and account is PUBLISHED, or was ever made. */
  ghost predicate HasPublished(w: World, k: (Id, Id)) {
    exists i :: i in w.rows && w.rows[i].status.Published? && Of(w.rows[i]) == k
  }

  ghost predicate WasScheduled(w: World, k: (Id, Id)) {
    exists i :: Made(w, i) && Of(Last(w, i)) == k
  }

  /**
   Published schedules have posts, one each, with the version that was scheduled. The post of a draft
   and account is that of a published schedule exactly if there ever was a schedule for them; otherwise
   ingestion imported it.
   */
  lemma PostsAreOfPublished(w: World)
    requires Reachable(w)
    ensures forall i | i in w.rows && w.rows[i].status.Published? ::
      Of(w.rows[i]) in w.posts && w.posts[Of(w.rows[i])].version == w.rows[i].version
    ensures forall k | k in w.posts ::
      (HasPublished(w, k) <==> WasScheduled(w, k)) && (HasPublished(w, k) <==> k !in w.imported)
    ensures forall i, j | i in w.rows && j in w.rows && i != j && w.rows[i].status.Published? && w.rows[j].status.Published? ::
      Of(w.rows[i]) != Of(w.rows[j])
  {
    ReachableInv(w);
    forall k | k in w.posts
      ensures (HasPublished(w, k) <==> WasScheduled(w, k)) && (HasPublished(w, k) <==> k !in w.imported)
    {
      if k !in w.imported {
        var i :| i in w.rows && w.rows[i].status.Published? && (w.rows[i].draft, w.rows[i].account) == k;
        assert Made(w, i) && Of(Last(w, i)) == k;
      } else {
        assert forall i | Made(w, i) :: Of(Last(w, i)) != k;
        assert forall i | i in w.rows :: Made(w, i);
      }
    }
  }

  /**
   In one step a post is inserted if and only if a schedule becomes PUBLISHED or ingestion finds a post
   on the platform that no row of the account has yet.
   */
  lemma PostWithPublished(w: World, e: Event)
    requires Reachable(w) && Enabled(w, e)
    ensures Next(w, e).posts != w.posts <==>
      || (exists i :: i in w.rows && i in Next(w, e).rows && !w.rows[i].status.Published? && Next(w, e).rows[i].status.Published?)
      || (e.Ingest? && IsFree(w.posts, e.account, e.threadsPost))
  {
    ReachableInv(w);
    var w' := Next(w, e);
    if e.Commit? {
      CommitPublishes(w, e.worker);
      PublishedInsert(w, w', w.workers[e.worker].schedule);
    } else if e.ResolvePublished? {
      ResolvePublishes(w, e.call, e.threadsPost);
      PublishedInsert(w, w', w.pending[e.call].schedule);
    } else if e.Ingest? {
      IngestInserts(w, e.draft, e.account, e.version, e.threadsPost);
    } else {
      OthersPublishNothing(w, e);
    }
  }

  lemma IngestInserts(w: World, draft: Id, account: Id, version: Id, threadsPost: Id)
    requires Enabled(w, Ingest(draft, account, version, threadsPost))
    ensures var w' := Next(w, Ingest(draft, account, version, threadsPost));
      w'.rows == w.rows && (w'.posts != w.posts <==> IsFree(w.posts, account, threadsPost))
  {
    assert (draft, account) in w.posts ==> HasPost(w.posts, draft);
  }

  lemma PublishedInsert(w: World, w': World, id: Id)
    requires PublishesAt(w, w', id) || (w'.rows == w.rows && w'.posts == w.posts)
    ensures w'.posts != w.posts <==>
      exists i :: i in w.rows && i in w'.rows && !w.rows[i].status.Published? && w'.rows[i].status.Published?
  {
    if PublishesAt(w, w', id) {
      assert (w.rows[id].draft, w.rows[id].account) in w'.posts;
    }
  }

  // ---- what is settled stays settled ----

  lemma {:induction false} RunMoves(w: World, events: seq<Event>, w': World, i: Id)
    requires Inv(w) && Run(w, events, w') && Made(w, i)
    ensures Made(w', i) && SameSchedule(Last(w, i), Last(w', i)) && (Traced(Last(w, i)) ==> Traced(Last(w', i)))
    ensures Settled(Last(w, i)) ==> Last(w', i) == Last(w, i)
    ensures i in w.gone ==> i !in w'.rows && w'.gone[i] == w.gone[i]
    decreases |events|
  {
    if events != [] {
      var v := Next(w, events[0]);
      Persists(w, events[0], i);
      StepKeepsInv(w, events[0]);
      if i in w.gone { GoneStays(w, events[0], i); }
      RunMoves(v, events[1..], w', i);
    }
  }

  /**
   Cancelled, published, expired and failed schedules never change again. A published one stays for good;
   of the others one that is not in the table any more was deleted as it was.
   */
  lemma FinalForever(w: World, events: seq<Event>, w': World, i: Id)
    requires Reachable(w) && Run(w, events, w') && i in w.rows && Final(w.rows[i].status)
    ensures if i in w'.rows then w'.rows[i] == w.rows[i] else i in w'.gone && w'.gone[i] == w.rows[i]
    ensures w.rows[i].status.Published? ==> i in w'.rows
  {
    ReachableInv(w);
    RunMoves(w, events, w', i);
    RunKeepsInv(w, events, w');
  }

  /** A schedule in AUTH_REQUIRED that bears a trace is stuck: all that can happen to it is to be deleted. */
  lemma TracedAuthIsStuck(w: World, events: seq<Event>, w': World, i: Id)
    requires Reachable(w) && Run(w, events, w') && i in w.rows && w.rows[i].status.AuthRequired? && Traced(w.rows[i])
    ensures if i in w'.rows then w'.rows[i] == w.rows[i] else i in w'.gone && w'.gone[i] == w.rows[i]
  {
    ReachableInv(w);
    RunMoves(w, events, w', i);
  }

  /** A schedule cancelled without a resolution is never published afterwards. */
  lemma CancellationHolds(w: World, events: seq<Event>, w': World, i: Id)
    requires Reachable(w) && Run(w, events, w')
    requires i in w.rows && w.rows[i].status.Cancelled? && !Traced(w.rows[i])
    ensures i !in w'.calls
    ensures if i in w'.rows then w'.rows[i] == w.rows[i] else i in w'.gone && w'.gone[i] == w.rows[i]
  {
    ReachableInv(w);
    RunMoves(w, events, w', i);
    RunKeepsInv(w, events, w');
    assert Last(w', i).publishRequestedAt.None?;
  }

  /**
   A schedule with a trace of a possible publication is cancelled only by an operator's resolution of
   RECOVERY_REQUIRED, is never put back to SCHEDULED, and is never given up as failed or expired, be it
   in the table or in what was deleted.
   */
  lemma TracesAreRespected(w: World, e: Event, i: Id)
    requires Reachable(w) && Enabled(w, e) && i in w.rows && Traced(w.rows[i])
    ensures Made(Next(w, e), i) && Traced(Last(Next(w, e), i))
    ensures var r' := Last(Next(w, e), i);
      && !r'.status.Scheduled? && !r'.status.FailedPermanent? && !r'.status.Expired?
      && (r'.status.Cancelled? && !w.rows[i].status.Cancelled?
          ==> e.ResolveUnpublished? && w.rows[i].status.RecoveryRequired?)
  {
    ReachableInv(w);
    StepKeepsInv(w, e);
    Persists(w, e, i);
    if !w.rows[i].status.Cancelled? { OnlyOperatorsCancel(w, e, i); }
  }

  lemma OnlyOperatorsCancel(w: World, e: Event, i: Id)
    requires Inv(w) && Enabled(w, e) && i in w.rows && !w.rows[i].status.Cancelled?
    ensures Made(Next(w, e), i)
    ensures Last(Next(w, e), i).status.Cancelled?
      ==> (e.Cancel? && e.schedule == i && Cancellable(w.rows[i], e.workspace))
          || (e.ResolveUnpublished? && w.pending[e.call].schedule == i && w.rows[i].status.RecoveryRequired?)
  {
    if e.DeleteCommit? {
      Persists(w, e, i);
      if i !in Next(w, e).rows { GoneTakesNothing(w, e, i); }
    } else if e.Do? || e.Commit? {
      var k := w.workers[e.worker];
      WorkerRow(w, e, i);
      if e.Do? && React(k, e.act).value.update.Some? { WorkersDoNotCancel(k, e.act, w.rows[i], w.now); }
    } else {
      ServiceRow(w, e, i);
    }
  }

  lemma WorkersDoNotCancel(k: Worker, act: Act, r: Schedule, now: Time)
    requires k.Working? && React(k, act).Some? && React(k, act).value.update.Some? && !r.status.Cancelled?
    ensures !Apply(React(k, act).value.update.value, r, now).status.Cancelled?
  {
  }

  // ---- deletions ----

  /** No schedule of the draft was left out of what the deletion found, and no post refers to the draft. */
  predicate NothingElse(w: World, draft: Id, found: Schedules) {
    !HasPost(w.posts, draft) && forall i | i in w.rows && w.rows[i].draft == draft :: i in found
  }

  /**
   A schedule leaves the table exactly when a deletion that found it commits while its draft has no post
   and no schedule besides those found. Nothing else is asked at that moment: what was in AUTH_REQUIRED
   without a trace when it was found may be anything but published by then. What the deletion removes
   otherwise is as it found it, in none of the states that keep a draft.
   */
  lemma DeletedIff(w: World, e: Event, i: Id)
    requires Reachable(w) && Enabled(w, e) && i in w.rows
    ensures i !in Next(w, e).rows
      <==> e.DeleteCommit? && i in w.pending[e.call].found
           && NothingElse(w, w.pending[e.call].draft, w.pending[e.call].found)
    ensures i !in Next(w, e).rows ==>
      && i in Next(w, e).gone && Next(w, e).gone[i] == w.rows[i] && !w.rows[i].status.Published?
      && FoundOk(w.pending[e.call].found[i], w.rows[i])
  {
    ReachableInv(w);
    if e.DeleteCommit? {
      assert PendingOk(w.pending[e.call], w);
      assert i in w.pending[e.call].found ==> Made(w, i);
      if w.rows[i].status.Published? { PublishedIsKept(w, e.call, i); }
    } else {
      RowsStay(w, e, i);
    }
  }

  /**
   A deletion takes a schedule away from the worker executing it exactly when it had found it in
   AUTH_REQUIRED without a trace and nothing else refers to the draft when it commits.
   */
  lemma DeletedUnderExecutionIff(w: World, call: Id, i: Id)
    requires Reachable(w) && Enabled(w, DeleteCommit(call)) && i in w.rows && Executing(w.rows[i].status)
    ensures var found := w.pending[call].found;
      i !in Next(w, DeleteCommit(call)).rows
      <==> i in found && found[i].status.AuthRequired? && !Traced(found[i]) && NothingElse(w, w.pending[call].draft, found)
  {
    DeletedIff(w, DeleteCommit(call), i);
    ReachableInv(w);
    assert PendingOk(w.pending[call], w);
    if i in w.pending[call].found { assert Made(w, i) && FoundOk(w.pending[call].found[i], w.rows[i]); }
  }

  /** A schedule deleted is never posted, and whatever a worker still does for it leaves no record. */
  lemma DeletedIsNeverPosted(w: World, events: seq<Event>, w': World, i: Id)
    requires Reachable(w) && Run(w, events, w') && i in w.gone
    ensures i !in w'.rows && i in w'.gone && w'.gone[i] == w.gone[i] && !HasPost(w'.posts, w.gone[i].draft)
  {
    ReachableInv(w);
    RunMoves(w, events, w', i);
    RunKeepsInv(w, events, w');
  }

  /**
   A schedule is executed as often as its counter says, at most five times unless it bears a trace, and
   at most three containers are asked for.
   */
  lemma AttemptsAreBounded(w: World, i: Id)
    requires Reachable(w) && Made(w, i)
    ensures Times(w.executions, i) == Last(w, i).attemptCount && (Times(w.executions, i) <= 5 || Traced(Last(w, i)))
    ensures Times(w.containers, i) <= 3
  {
    ReachableInv(w);
    assert Counted(w, i);
  }

  /** The wait before a retry doubles from half a minute with each execution, up to a quarter of an hour. */
  lemma RetryWaits(k: Worker, appNow: Time)
    requires k.Working?
    ensures 30_000 <= RetryAt(k, appNow) - appNow <= 900_000
    ensures k.post.attemptCount < 5 ==> RetryAt(k, appNow) - appNow == 30_000 * Pow2(k.post.attemptCount)
    ensures k.post.attemptCount >= 5 ==> RetryAt(k, appNow) - appNow == 900_000
  {
    Powers(k.post.attemptCount);
  }

  lemma {:induction false} Powers(n: nat)
    ensures if n < 5 then Pow2(n) == [1, 2, 4, 8, 16][n] else Pow2(n) >= 32
  {
    if n > 0 { Powers(n - 1); }
  }

  // ---- fencing ----

  /**
   A worker whose schedule bears another token or is gone changes no schedule and no post. What it may
   still do is make the one call it had already put on record.
   */
  lemma LostTokenIsHarmless(w: World, e: Event)
    requires Reachable(w) && Enabled(w, e) && (e.Do? || e.Commit?)
    requires var k := w.workers[e.worker]; k.schedule in w.rows ==> w.rows[k.schedule].attemptId != Some(k.token)
    ensures Next(w, e).rows == w.rows && Next(w, e).posts == w.posts
    ensures Next(w, e).calls != w.calls ==> w.workers[e.worker].Working? && w.workers[e.worker].phase.Calling?
  {
    if e.Commit? {
      CommitFrames(w, e.worker);
    } else {
      DoFrames(w, e.worker, e.act);
      ActKeepsWorker(w.workers[e.worker], e.act);
    }
  }

  // ---- reconnecting ----

  /** Two schedules the reconnect would leave active for one draft. */
  ghost predicate Competing(rows: Schedules, account: Id) {
    exists i, j :: i in rows && j in rows && i != j && Restorable(rows[i], account)
                   && (Active(rows[j].status) || Restorable(rows[j], account))
                   && rows[j].account == account && rows[j].draft == rows[i].draft
  }

  /** A reconnect fails as a whole exactly when a schedule it would unblock competes with another one. */
  lemma ReconnectFailsIff(w: World, account: Id)
    requires Reachable(w)
    ensures ActiveUnique(Restored(w.rows, account)) <==> !Competing(w.rows, account)
  {
    ReachableInv(w);
    var rows, after := w.rows, Restored(w.rows, account);
    if Competing(rows, account) {
      var i, j :| i in rows && j in rows && i != j && Restorable(rows[i], account)
                  && (Active(rows[j].status) || Restorable(rows[j], account))
                  && rows[j].account == account && rows[j].draft == rows[i].draft;
      assert Active(after[i].status) && Active(after[j].status);
    }
  }
}
