/**
 The guard against late first executions: what it lets pass, what becomes of a schedule first claimed
 more than a quarter of an hour after its time, and how such a schedule can still come to be sent.
 */
module PublishingGuard {
  import opened Common
  import opened ScheduleStatus
  import opened PublishingTables
  import opened PublishingProtocol
  import opened PublishingSteps
  import opened PublishingSafety
  import opened PublishingRuns

  predicate AtTheGuard(w: World, a: Id) {
    a in w.workers && w.workers[a].Working? && w.workers[a].phase.Guarding?
  }

  /** The clock stands more than a quarter of an hour, for later executions more than a day, after its time. */
  predicate TooLate(r: Schedule, initial: bool, appNow: Time) {
    r.scheduledAt < appNow - 86_400_000 || (initial && r.scheduledAt < appNow - 900_000)
  }

  /**
   A schedule passes the guard exactly if it may have been published already, or is neither too late
   nor out of executions. Otherwise its worker ends, and with its lease running the schedule does too.
   */
  lemma GuardIff(w: World, a: Id, appNow: Time)
    requires AtTheGuard(w, a)
    ensures Enabled(w, Do(a, Guard(appNow)))
    ensures var k, w' := w.workers[a], Next(w, Do(a, Guard(appNow)));
      var late := TooLate(k.post, k.initial, appNow);
      if k.ambiguous || (!late && k.post.attemptCount < 5)
      then w' == w.(workers := w.workers[a := k.(phase := Gating)])
      else
        && w' == w.(workers := w.workers - {a}, rows := w'.rows)
        && w'.rows == if !Holds(w, k) then w.rows
                      else w.rows[k.schedule := w.rows[k.schedule].(
                             status := if late then Expired else FailedPermanent, attemptId := None, leaseUntil := None)]
  {
  }

  // ---- a first execution that comes too late ----

  /** The worker can only look for a post that may be there already. */
  predicate OnlyRecovers(k: Worker) {
    k.Working? && k.ambiguous && !k.phase.Requesting? && !k.phase.Calling?
  }

  predicate BeforeGuard(k: Worker) {
    k.Claiming? || k.phase.Guarding?
  }

  /** A worker of a first claim; `stopped` once the guard has found it late. */
  predicate First(k: Worker, stopped: bool) {
    k.initial && (stopped ==> OnlyRecovers(k))
  }

  /** Its schedule bears no trace while it bears the token and the guard is ahead. */
  ghost predicate FirstInv(w: World, j: Id, token: Id, stopped: bool) {
    && token in w.tokens
    && forall b | b in w.workers && w.workers[b].token == token ::
         && First(w.workers[b], stopped) && w.workers[b].schedule == j
         && (BeforeGuard(w.workers[b]) && j in w.rows && w.rows[j].attemptId == Some(token) ==> !Traced(w.rows[j]))
  }

  lemma FirstActs(k: Worker, act: Act, stopped: bool)
    requires k.Working? && React(k, act).Some? && First(k, stopped)
    ensures var plan := React(k, act).value;
      && (plan.go.Some? ==> First(plan.go.value, stopped) && !BeforeGuard(plan.go.value) && plan.go.value.token == k.token
                            && plan.go.value.schedule == k.schedule)
      && (plan.no.Some? ==> First(plan.no.value, stopped) && !BeforeGuard(plan.no.value) && plan.no.value.token == k.token
                            && plan.no.value.schedule == k.schedule)
  {
    if act.ContainerAnswered? { FirstAnswer(k, act.answer, act.appNow, stopped); }
  }

  lemma FirstAnswer(k: Worker, answer: ContainerAnswer, appNow: Time, stopped: bool)
    requires k.Working? && k.phase.Asking? && AtAnswer(k, answer, appNow).Some? && First(k, stopped)
    ensures var plan := AtAnswer(k, answer, appNow).value;
      && (plan.go.Some? ==> First(plan.go.value, stopped) && !BeforeGuard(plan.go.value) && plan.go.value.token == k.token
                            && plan.go.value.schedule == k.schedule)
      && (plan.no.Some? ==> First(plan.no.value, stopped) && !BeforeGuard(plan.no.value) && plan.no.value.token == k.token
                            && plan.no.value.schedule == k.schedule)
  {
  }

  lemma CarryIs(w: World, b: Id, plan: Plan, calls: bool)
    requires b in w.workers && b in Carry(w, b, plan, calls).workers
    ensures Some(Carry(w, b, plan, calls).workers[b]) in {plan.go, plan.no}
  {
  }

  lemma FirstDoes(w: World, b: Id, act: Act, stopped: bool)
    requires Enabled(w, Do(b, act)) && First(w.workers[b], stopped) && b in Next(w, Do(b, act)).workers
    ensures var k, k' := w.workers[b], Next(w, Do(b, act)).workers[b];
      First(k', stopped) && !BeforeGuard(k') && k'.token == k.token && k'.schedule == k.schedule
  {
    FirstActs(w.workers[b], act, stopped);
    CarryIs(w, b, React(w.workers[b], act).value, act.Call?);
  }

  lemma FirstReads(w: World, b: Id, stopped: bool)
    requires Enabled(w, Read(b)) && First(w.workers[b], stopped) && b in Next(w, Read(b)).workers
    ensures var k, k' := w.workers[b], Next(w, Read(b)).workers[b];
      First(k', stopped) && k'.token == k.token && k'.schedule == k.schedule && Next(w, Read(b)).rows == w.rows
  {
  }

  lemma FirstCommits(w: World, b: Id, stopped: bool)
    requires Enabled(w, Commit(b)) && First(w.workers[b], stopped) && b in Next(w, Commit(b)).workers
    ensures var k, k' := w.workers[b], Next(w, Commit(b)).workers[b];
      First(k', stopped) && !BeforeGuard(k') && k'.token == k.token && k'.schedule == k.schedule
  {
  }

  /** The worker that acts comes from one that kept to the invariant. */
  lemma ActorIsFirst(w: World, e: Event, b: Id, j: Id, token: Id, stopped: bool)
    requires Inv(w) && Enabled(w, e) && FirstInv(w, j, token, stopped) && Acts(e, b)
    requires b in Next(w, e).workers && Next(w, e).workers[b].token == token
    ensures var k' := Next(w, e).workers[b];
      && First(k', stopped) && k'.schedule == j
      && (BeforeGuard(k') ==> Next(w, e).rows == w.rows && b in w.workers && w.workers[b].token == token && BeforeGuard(w.workers[b]))
  {
    if e.Claim? {
      NewToken(w, b, e.schedule, e.token);
      assert false;
    } else if e.Do? {
      assert About(w.workers[b], w);
      ActKeepsWorker(w.workers[b], e.act);
      CarryIs(w, b, React(w.workers[b], e.act).value, e.act.Call?);
      FirstDoes(w, b, e.act, stopped);
    } else if e.Read? {
      KeepsToken(w, e);
      FirstReads(w, b, stopped);
    } else if e.Commit? {
      KeepsToken(w, e);
      FirstCommits(w, b, stopped);
    }
  }

  lemma OthersAreFirst(w: World, e: Event, b: Id, j: Id, token: Id, stopped: bool)
    requires Inv(w) && Enabled(w, e) && FirstInv(w, j, token, stopped) && !Acts(e, b)
    requires b in Next(w, e).workers && Next(w, e).workers[b].token == token
    ensures var k', w' := Next(w, e).workers[b], Next(w, e);
      && First(k', stopped) && k'.schedule == j
      && (BeforeGuard(k') && j in w'.rows && w'.rows[j].attemptId == Some(token) ==> !Traced(w'.rows[j]))
  {
    OthersStay(w, e, b);
    assert About(w.workers[b], w);
    if j in Next(w, e).rows {
      Persists(w, e, j);
      TokenIsLost(w, e, b);
    }
  }

  lemma StepKeepsFirst(w: World, e: Event, j: Id, token: Id, stopped: bool)
    requires Inv(w) && Enabled(w, e) && FirstInv(w, j, token, stopped)
    ensures FirstInv(Next(w, e), j, token, stopped)
  {
    var w' := Next(w, e);
    TokensGrow(w, e);
    forall b | b in w'.workers && w'.workers[b].token == token
      ensures First(w'.workers[b], stopped) && w'.workers[b].schedule == j
      ensures BeforeGuard(w'.workers[b]) && j in w'.rows && w'.rows[j].attemptId == Some(token) ==> !Traced(w'.rows[j])
    {
      if Acts(e, b) { ActorIsFirst(w, e, b, j, token, stopped); } else { OthersAreFirst(w, e, b, j, token, stopped); }
    }
  }

  lemma {:induction false} RunKeepsFirst(w: World, events: seq<Event>, w': World, j: Id, token: Id, stopped: bool)
    requires Inv(w) && Run(w, events, w') && FirstInv(w, j, token, stopped)
    ensures FirstInv(w', j, token, stopped)
    decreases |events|
  {
    if events != [] {
      StepKeepsInv(w, events[0]);
      StepKeepsFirst(w, events[0], j, token, stopped);
      RunKeepsFirst(Next(w, events[0]), events[1..], w', j, token, stopped);
    }
  }

  /** A claim of a schedule that waits for its first execution. */
  predicate FirstClaim(w: World, e: Event) {
    e.Claim? && Enabled(w, e) && w.rows[e.schedule].status.Scheduled? && w.rows[e.schedule].attemptCount == 0
  }

  lemma FirstClaims(w: World, a: Id, j: Id, token: Id)
    requires Inv(w) && FirstClaim(w, Claim(a, j, token))
    ensures FirstInv(Next(w, Claim(a, j, token)), j, token, false)
  {
    var e := Claim(a, j, token);
    NewToken(w, a, j, token);
    assert RowInv(w.rows[j]);
    forall b | b in w.workers && b != a ensures Next(w, e).workers[b] == w.workers[b] && w.workers[b].token != token {
      OthersStay(w, e, b);
      assert About(w.workers[b], w);
    }
  }

  /** Up to the guard: what the worker has read is the schedule it claimed, with a trace or as it was. */
  lemma UpToGuard(w: World, a: Id, j: Id, token: Id, events: seq<Event>, v: World)
    requires Inv(w) && FirstClaim(w, Claim(a, j, token)) && Run(Next(w, Claim(a, j, token)), events, v)
    requires AtTheGuard(v, a) && v.workers[a].token == token
    ensures Inv(v) && FirstInv(v, j, token, false)
    ensures var k := v.workers[a];
      && k.initial && k.schedule == j && k.post.scheduledAt == w.rows[j].scheduledAt
      && (Holds(v, k) ==> !k.ambiguous && !Traced(v.rows[j]))
  {
    var w1 := Next(w, Claim(a, j, token));
    StepKeepsInv(w, Claim(a, j, token));
    FirstClaims(w, a, j, token);
    RunKeepsFirst(w1, events, v, j, token, false);
    RunKeepsInv(w1, events, v);
    Persists(w, Claim(a, j, token), j);
    RunMoves(w1, events, v, j);
    assert About(v.workers[a], v);
  }

  /** The guard of a late first execution leaves the schedule EXPIRED, or a worker that only recovers. */
  lemma LateGuardStops(v: World, a: Id, j: Id, token: Id, appNow: Time)
    requires Inv(v) && FirstInv(v, j, token, false) && AtTheGuard(v, a) && v.workers[a].token == token
    requires v.workers[a].post.scheduledAt < appNow - 900_000
    ensures FirstInv(Next(v, Do(a, Guard(appNow))), j, token, true)
  {
    GuardIff(v, a, appNow);
    var u := Next(v, Do(a, Guard(appNow)));
    forall b | b in v.workers && b != a ensures v.workers[b].token != token { assert Apart(v.workers[a], v.workers[b]); }
    forall b | b in u.workers && u.workers[b].token == token
      ensures First(u.workers[b], true) && u.workers[b].schedule == j && !BeforeGuard(u.workers[b])
    {
      assert b == a;
    }
  }

  /**
   A worker whose claim found the schedule waiting for its first execution, and whose guard reads a clock
   more than a quarter of an hour past its time, never asks the platform to publish, whatever happens
   before and after. If its lease was running, the schedule is EXPIRED from then on and is never sent.
   */
  lemma LateFirstExecutionIsStopped(
      w: World, a: Id, j: Id, token: Id, before: seq<Event>, v: World, appNow: Time, after: seq<Event>, x: World)
    requires Reachable(w) && FirstClaim(w, Claim(a, j, token)) && w.rows[j].scheduledAt < appNow - 900_000
    requires Run(Next(w, Claim(a, j, token)), before, v) && AtTheGuard(v, a) && v.workers[a].token == token
    requires Enabled(v, Do(a, Guard(appNow))) && Run(Next(v, Do(a, Guard(appNow))), after, x)
    ensures forall b | b in x.workers && x.workers[b].token == token :: !Enabled(x, Do(b, Call))
    ensures Holds(v, v.workers[a]) ==>
      && j !in x.calls && Made(x, j) && j in v.rows
      && Last(x, j) == v.rows[j].(status := Expired, attemptId := None, leaseUntil := None)
  {
    ReachableInv(w);
    UpToGuard(w, a, j, token, before, v);
    GuardIff(v, a, appNow);
    LateGuardStops(v, a, j, token, appNow);
    var u := Next(v, Do(a, Guard(appNow)));
    StepKeepsInv(v, Do(a, Guard(appNow)));
    RunKeepsFirst(u, after, x, j, token, true);
    NobodyCalls(x, j, token);
    if Holds(v, v.workers[a]) {
      RunMoves(u, after, x, j);
      RunKeepsInv(u, after, x);
      assert !Traced(Last(x, j));
    }
  }

  lemma NobodyCalls(x: World, j: Id, token: Id)
    requires FirstInv(x, j, token, true)
    ensures forall b | b in x.workers && x.workers[b].token == token :: !Enabled(x, Do(b, Call))
  {
    forall b | b in x.workers && x.workers[b].token == token ensures !Enabled(x, Do(b, Call)) {
      assert First(x.workers[b], true);
    }
  }

  // ---- how a late schedule comes to be sent all the same ----

  /**
   Nothing has been executed for the schedule: it waits, or has been claimed by a worker that is still
   before its guard, or is settled.
   */
  ghost predicate Unbegun(w: World, j: Id) {
    && Made(w, j) && !Traced(Last(w, j)) && Last(w, j).attemptCount == 0 && Last(w, j).scheduledAt < w.now - 900_000
    && (j in w.rows ==>
          && (w.rows[j].status.Scheduled? || w.rows[j].status.Claimed? || Final(w.rows[j].status))
          && forall b | b in w.workers && w.workers[b].schedule == j && w.rows[j].attemptId == Some(w.workers[b].token) ::
               w.workers[b].initial && BeforeGuard(w.workers[b]))
  }

  /**
   A worker has stopped between its claim and the guard's write: another one takes its schedule over,
   or it fails at the guard.
   */
  predicate StopsAtGuard(w: World, e: Event, j: Id) {
    || (e.Claim? && e.schedule == j && j in w.rows && w.rows[j].status.Claimed? && w.rows[j].attemptCount == 0)
    || (e.Do? && e.act.Throw? && AtTheGuard(w, e.worker) && w.workers[e.worker].schedule == j)
  }

  /** The step of a worker that bears the token of the schedule and has not passed its guard. */
  lemma OwnStep(w: World, e: Event, j: Id)
    requires Inv(w) && Enabled(w, e) && InStep(w, e) && Unbegun(w, j) && !StopsAtGuard(w, e, j) && j in w.rows && e.Do?
    requires w.workers[e.worker].schedule == j && w.rows[j].attemptId == Some(w.workers[e.worker].token)
    ensures j in Next(w, e).rows && Next(w, e).calls == w.calls && e.worker !in Next(w, e).workers
    ensures var r, r' := w.rows[j], Next(w, e).rows[j];
      r' == r || r' == r.(status := Expired, attemptId := None, leaseUntil := None)
  {
    var k := w.workers[e.worker];
    assert About(k, w);
    assert e.act == Guard(e.act.appNow);
    GuardIff(w, e.worker, e.act.appNow);
  }

  lemma ExecutingRow(w: World, e: Event, j: Id)
    requires Inv(w) && Enabled(w, e) && InStep(w, e) && Unbegun(w, j) && !StopsAtGuard(w, e, j) && j in w.rows
    requires e.Do? || e.Commit?
    ensures j in Next(w, e).rows
    ensures var r, r' := w.rows[j], Next(w, e).rows[j];
      r' == r || r' == r.(status := Expired, attemptId := None, leaseUntil := None)
  {
    WorkerRow(w, e, j);
    var k := w.workers[e.worker];
    if k.schedule == j && Fenced(w.rows[j], k.token, w.now) {
      assert k.initial && BeforeGuard(k);
      if e.Do? { OwnStep(w, e, j); }
    }
  }

  lemma OtherRow(w: World, e: Event, j: Id)
    requires Inv(w) && Enabled(w, e) && Unbegun(w, j) && !StopsAtGuard(w, e, j) && j in w.rows
    requires !e.Do? && !e.Commit? && !e.DeleteCommit?
    ensures j in Next(w, e).rows
    ensures var r, r' := w.rows[j], Next(w, e).rows[j];
      || r' == r || r' == r.(status := Cancelled)
      || (r.status.Scheduled? && e.Claim? && e.schedule == j && r' == ClaimRow(r, e.token, w.now))
  {
    ServiceRow(w, e, j);
    assert RowInv(w.rows[j]);
    if e.SweepWrite? { assert PendingOk(w.pending[e.call], w); }
  }

  /** What a step makes of the schedule. */
  lemma UnbegunRow(w: World, e: Event, j: Id)
    requires Inv(w) && Enabled(w, e) && InStep(w, e) && Unbegun(w, j) && !StopsAtGuard(w, e, j)
    ensures var w' := Next(w, e);
      && Made(w', j) && !Traced(Last(w', j)) && Last(w', j).attemptCount == 0 && Last(w', j).scheduledAt < w'.now - 900_000
      && (j in w'.rows ==> w'.rows[j].status.Scheduled? || w'.rows[j].status.Claimed? || Final(w'.rows[j].status))
  {
    TimeGoesOn(w, e);
    Persists(w, e, j);
    if j in w.gone {
      GoneStays(w, e, j);
    } else if j !in Next(w, e).rows {
      GoneTakesNothing(w, e, j);
    } else if e.Do? || e.Commit? {
      ExecutingRow(w, e, j);
    } else if !e.DeleteCommit? {
      OtherRow(w, e, j);
    }
  }

  /** A worker that bears its token after a step has not passed the guard either. */
  lemma HolderWaits(w: World, e: Event, j: Id, b: Id)
    requires Inv(w) && Enabled(w, e) && InStep(w, e) && Unbegun(w, j) && !StopsAtGuard(w, e, j)
    requires var w' := Next(w, e);
      j in w.rows && j in w'.rows && b in w'.workers && w'.workers[b].schedule == j && w'.rows[j].attemptId == Some(w'.workers[b].token)
    ensures Next(w, e).workers[b].initial && BeforeGuard(Next(w, e).workers[b])
  {
    if !Acts(e, b) {
      OthersStay(w, e, b);
      TokenIsLost(w, e, b);
    } else if e.Claim? {
      ClaimerWaits(w, b, e.schedule, e.token, j);
    } else if e.Read? {
      KeepsToken(w, e);
      FirstReads(w, b, false);
    } else {
      assert About(w.workers[b], w);
      if e.Do? { ActorToken(w, b, e.act); } else { KeepsToken(w, e); CommitterStays(w, b); }
      WorkerRow(w, e, j);
      if e.Do? { OwnStep(w, e, j); }
    }
  }

  lemma CommitterStays(w: World, b: Id)
    requires Enabled(w, Commit(b)) && b in Next(w, Commit(b)).workers
    ensures Next(w, Commit(b)).workers[b].schedule == w.workers[b].schedule && Next(w, Commit(b)).rows == w.rows
  {
  }

  lemma ActorToken(w: World, b: Id, act: Act)
    requires Enabled(w, Do(b, act)) && b in Next(w, Do(b, act)).workers
    ensures var k, k' := w.workers[b], Next(w, Do(b, act)).workers[b]; k'.token == k.token && k'.schedule == k.schedule
  {
    ActKeepsWorker(w.workers[b], act);
    CarryIs(w, b, React(w.workers[b], act).value, act.Call?);
  }

  lemma ClaimerWaits(w: World, b: Id, i: Id, token: Id, j: Id)
    requires Enabled(w, Claim(b, i, token)) && Unbegun(w, j) && !StopsAtGuard(w, Claim(b, i, token), j) && j in w.rows
    requires Next(w, Claim(b, i, token)).workers[b].schedule == j
    ensures Next(w, Claim(b, i, token)).workers[b].initial && BeforeGuard(Next(w, Claim(b, i, token)).workers[b])
  {
  }

  lemma StepKeepsUnbegun(w: World, e: Event, j: Id)
    requires Inv(w) && Enabled(w, e) && InStep(w, e) && Unbegun(w, j) && !StopsAtGuard(w, e, j)
    ensures Unbegun(Next(w, e), j)
  {
    var w' := Next(w, e);
    UnbegunRow(w, e, j);
    Persists(w, e, j);
    if j in w'.rows {
      forall b | b in w'.workers && w'.workers[b].schedule == j && w'.rows[j].attemptId == Some(w'.workers[b].token)
        ensures w'.workers[b].initial && BeforeGuard(w'.workers[b])
      {
        HolderWaits(w, e, j, b);
      }
    }
  }

  lemma GoesOnUnbegun(w: World, e: Event, j: Id)
    requires Inv(w) && Enabled(w, e) && InStep(w, e) && Unbegun(w, j) && !StopsAtGuard(w, e, j)
    ensures Inv(Next(w, e)) && Unbegun(Next(w, e), j)
  {
    StepKeepsInv(w, e);
    StepKeepsUnbegun(w, e, j);
  }

  lemma NotSentYet(w: World, j: Id)
    requires Inv(w) && Unbegun(w, j)
    ensures j !in w.calls
  {
  }

  lemma LongerPrefix(w: World, events: seq<Event>, m: nat, v: World)
    requires m < |events| && Enabled(w, events[0]) && InStep(w, events[0]) && RunInStep(Next(w, events[0]), events[1..][..m], v)
    ensures RunInStep(w, events[..m + 1], v)
  {
    assert events[..m + 1][1..] == events[1..][..m];
  }

  lemma {:induction false} RunStops(w: World, events: seq<Event>, w': World, j: Id) returns (n: nat, v: World)
    requires Inv(w) && Unbegun(w, j) && RunInStep(w, events, w') && j in w'.calls
    ensures n < |events| && RunInStep(w, events[..n], v) && Enabled(v, events[n]) && StopsAtGuard(v, events[n], j)
    decreases |events|
  {
    if events == [] {
      NotSentYet(w, j);
    } else if StopsAtGuard(w, events[0], j) {
      n, v := 0, w;
    } else {
      GoesOnUnbegun(w, events[0], j);
      var m, u := RunStops(Next(w, events[0]), events[1..], w', j);
      n, v := m + 1, u;
      LongerPrefix(w, events, m, v);
    }
  }

  /**
   With the clocks in step, a new schedule more than a quarter of an hour past its time is sent only
   after a worker has stopped between its claim of it and the write of its guard.
   */
  lemma LateIsSentOnlyAfterStop(w: World, events: seq<Event>, w': World, j: Id) returns (n: nat, v: World)
    requires Reachable(w) && j in w.rows && IsNew(w.rows[j]) && w.rows[j].scheduledAt < w.now - 900_000
    requires RunInStep(w, events, w') && j in w'.calls
    ensures n < |events| && RunInStep(w, events[..n], v) && Enabled(v, events[n]) && StopsAtGuard(v, events[n], j)
  {
    ReachableInv(w);
    n, v := RunStops(w, events, w', j);
  }
}
