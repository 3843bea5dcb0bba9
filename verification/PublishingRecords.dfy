/**
 Whether a schedule that was sent can still be recorded as published. The platform has one post for it;
 ingestion imports posts it finds there, and a row of published_posts for that post may come first.
 */
module PublishingRecords {
  import opened Common
  import opened ScheduleStatus
  import opened PublishingTables
  import opened PublishingProtocol
  import opened PublishingSteps
  import opened PublishingSafety
  import opened PublishingRuns

  /** The schedule is PUBLISHED and its row of published_posts names this post of the platform. */
  predicate Recorded(w: World, i: Id, threadsPost: Id) {
    i in w.rows && w.rows[i].status.Published? && Of(w.rows[i]) in w.posts
    && w.posts[Of(w.rows[i])].threadsPost == threadsPost
  }

  ghost predicate CanBeRecorded(w: World, i: Id, threadsPost: Id) {
    exists w' :: Leads(w, w') && Recorded(w', i, threadsPost)
  }

  /** Nothing stands in the way: the schedule is there and not settled, its draft not published, the post not taken. */
  predicate Recordable(w: World, i: Id, threadsPost: Id) {
    i in w.rows && !Settled(w.rows[i]) && CanPublish(w.posts, w.rows[i], threadsPost)
  }

  // ---- what can be recorded is ----

  lemma ToRecovery(o: Origin, w: World, i: Id) returns (w': World)
    requires After(o, w) && i in w.rows && Claimable(w.rows[i], w.now) && Traced(w.rows[i])
    ensures After(o, w') && Beside(w, w', i) && w'.rows[i] == Release(w.rows[i], RecoveryRequired)
  {
    var v, a, _ := Take(o, w, i);
    v := Goes(o, v, a, Throw(Permanent));
    w' := Ends(o, v, a, Handle(v.now), Finish(RecoveryRequired));
    assert w'.workers == w.workers;
  }

  /** A schedule with a trace that is not settled can be brought before an operator. */
  lemma BringToRecovery(o: Origin, w: World, i: Id) returns (w': World)
    requires After(o, w) && i in w.rows && Traced(w.rows[i]) && !Settled(w.rows[i])
    ensures After(o, w') && Beside(w, w', i) && w'.rows[i].status.RecoveryRequired?
  {
    var r := w.rows[i];
    RowAfter(o, w, i);
    if r.status.RecoveryRequired? {
      w' := w;
    } else {
      var time := if Executing(r.status) then r.leaseUntil.value + 1
                  else if r.nextRetryAt.Some? then r.nextRetryAt.value else w.now;
      var v := Wait(o, w, time);
      w' := ToRecovery(o, v, i);
    }
  }

  lemma Confirm(o: Origin, w: World, i: Id, threadsPost: Id) returns (w': World)
    requires After(o, w) && i in w.rows && w.rows[i].status.RecoveryRequired? && CanPublish(w.posts, w.rows[i], threadsPost)
    ensures After(o, w') && Recorded(w', i, threadsPost)
  {
    var c := Unused(w.pending.Keys);
    var v := Step(o, w, ResolveRead(c, w.rows[i].workspace, i));
    w' := Step(o, v, ResolvePublished(c, threadsPost));
  }

  lemma RecordableLeads(w: World, i: Id, threadsPost: Id)
    requires Reachable(w) && Recordable(w, i, threadsPost) && Traced(w.rows[i])
    ensures CanBeRecorded(w, i, threadsPost)
  {
    var o := Origin(w, false);
    Here(o);
    var v := BringToRecovery(o, w, i);
    var w' := Confirm(o, v, i, threadsPost);
  }

  // ---- and nothing else ----

  lemma {:induction false} PostsStay(w: World, events: seq<Event>, w': World, k: (Id, Id))
    requires Inv(w) && Run(w, events, w') && k in w.posts
    ensures k in w'.posts && w'.posts[k] == w.posts[k]
    decreases |events|
  {
    if events != [] {
      PostsGrow(w, events[0], k);
      StepKeepsInv(w, events[0]);
      PostsStay(Next(w, events[0]), events[1..], w', k);
    }
  }

  /** Posts of one account are different posts of the platform. */
  ghost predicate PostsDiffer(w: World) {
    forall k, l | k in w.posts && l in w.posts && k != l && k.1 == l.1 :: w.posts[k].threadsPost != w.posts[l].threadsPost
  }

  lemma StepKeepsPostsDiffer(w: World, e: Event)
    requires Inv(w) && PostsDiffer(w) && Enabled(w, e)
    ensures PostsDiffer(Next(w, e))
  {
    if e.Commit? {
      assert About(w.workers[e.worker], w);
      CommitKeepsPostsDiffer(w, e.worker);
    } else if e.ResolvePublished? {
      ResolveKeepsPostsDiffer(w, e.call, e.threadsPost);
    } else if e.Ingest? {
      IngestKeepsPostsDiffer(w, e.draft, e.account, e.version, e.threadsPost);
    } else {
      PostsUntouched(w, e);
    }
  }

  lemma CommitKeepsPostsDiffer(w: World, worker: Id)
    requires PostsDiffer(w) && Enabled(w, Commit(worker))
    ensures PostsDiffer(Next(w, Commit(worker)))
  {
  }

  lemma ResolveKeepsPostsDiffer(w: World, call: Id, threadsPost: Id)
    requires PostsDiffer(w) && Enabled(w, ResolvePublished(call, threadsPost))
    ensures PostsDiffer(Next(w, ResolvePublished(call, threadsPost)))
  {
  }

  lemma IngestKeepsPostsDiffer(w: World, draft: Id, account: Id, version: Id, threadsPost: Id)
    requires PostsDiffer(w) && Enabled(w, Ingest(draft, account, version, threadsPost))
    ensures PostsDiffer(Next(w, Ingest(draft, account, version, threadsPost)))
  {
  }

  lemma {:induction false} RunKeepsPostsDiffer(w: World, events: seq<Event>, w': World)
    requires Inv(w) && PostsDiffer(w) && Run(w, events, w')
    ensures PostsDiffer(w')
    decreases |events|
  {
    if events != [] {
      StepKeepsPostsDiffer(w, events[0]);
      StepKeepsInv(w, events[0]);
      RunKeepsPostsDiffer(Next(w, events[0]), events[1..], w');
    }
  }

  lemma ReachablePostsDiffer(w: World)
    requires Reachable(w)
    ensures PostsDiffer(w)
  {
    var w0, events :| Initial(w0) && Run(w0, events, w);
    RunKeepsPostsDiffer(w0, events, w);
  }

  lemma RecordedWasRecordable(w: World, events: seq<Event>, w': World, i: Id, threadsPost: Id)
    requires Reachable(w) && Run(w, events, w') && Made(w, i) && Recorded(w', i, threadsPost)
    ensures Recorded(w, i, threadsPost) || Recordable(w, i, threadsPost)
  {
    ReachableInv(w);
    ReachablePostsDiffer(w);
    RunMoves(w, events, w', i);
    RunKeepsInv(w, events, w');
    RunKeepsPostsDiffer(w, events, w');
    var r := Last(w, i);
    if Of(r) in w.posts {
      PostsStay(w, events, w', Of(r));
      if !(i in w.rows && w.rows[i].status.Published?) { OthersPost(w, events, w', i); }
    } else if !IsFree(w.posts, r.account, threadsPost) {
      var k :| k in w.posts && k.1 == r.account && w.posts[k].threadsPost == threadsPost;
      PostsStay(w, events, w', k);
    }
  }

  /** The post of a draft and account is that of one schedule, or imported. */
  lemma OthersPost(w: World, events: seq<Event>, w': World, i: Id)
    requires Reachable(w) && Run(w, events, w') && Made(w, i) && Of(Last(w, i)) in w.posts
    requires !(i in w.rows && w.rows[i].status.Published?)
    ensures !(i in w'.rows && w'.rows[i].status.Published?)
  {
    var k := Of(Last(w, i));
    ReachableInv(w);
    PostsAreOfPublished(w);
    assert WasScheduled(w, k);
    var j :| j in w.rows && w.rows[j].status.Published? && Of(w.rows[j]) == k;
    RunMoves(w, events, w', j);
    RunMoves(w, events, w', i);
    RunKeepsInv(w, events, w');
  }

  /**
   A schedule that was sent can still be recorded with its post if and only if it is, or it is in the
   table and not settled, its draft is not published to the account, and no row of the account has the
   post. In particular an import of the post rules it out for good, by the worker's last transaction as
   by an operator's confirmation.
   */
  lemma CanBeRecordedIff(w: World, i: Id, threadsPost: Id)
    requires Reachable(w) && i in w.calls && Made(w, i)
    ensures CanBeRecorded(w, i, threadsPost) <==> Recorded(w, i, threadsPost) || Recordable(w, i, threadsPost)
  {
    ReachableInv(w);
    assert Traced(Last(w, i));
    if Recorded(w, i, threadsPost) {
      assert Run(w, [], w);
    } else if Recordable(w, i, threadsPost) {
      RecordableLeads(w, i, threadsPost);
    } else if CanBeRecorded(w, i, threadsPost) {
      var w' :| Leads(w, w') && Recorded(w', i, threadsPost);
      var events :| Run(w, events, w');
      RecordedWasRecordable(w, events, w', i, threadsPost);
    }
  }
}
