/**
 Safety of the observation protocol over every run: one metric per captured observation, the
 generation counter, the closing window, the transition table, and the lease token as a fence.
 */
module ObservationSafety {
  import opened Common
  import opened AnalyticsTables
  import opened ObservationProtocol

  lemma StepKeepsInv(w: World, e: Event)
    requires Inv(w)
    ensures Inv(Next(w, e))
  {
    StepKeepsLeases(w, e);
    StepKeepsAttempts(w, e);
    StepKeepsMetrics(w, e);
    StepKeepsWindows(w, e);
    StepKeepsGeneration(w, e);
    StepKeepsTriggers(w, e);
    StepKeepsRetryKeys(w, e);
    StepKeepsRecoveries(w, e);
  }

  lemma {:induction false} RunKeepsInv(w: World, es: seq<Event>)
    requires Inv(w)
    ensures Inv(Run(w, es))
    decreases |es|
  {
    if es != [] {
      StepKeepsInv(w, es[0]);
      RunKeepsInv(Next(w, es[0]), es[1..]);
    }
  }

  // ---- one metric per captured observation ----

  function MetricsOf(metrics: seq<Metric>, id: ObservationId): nat {
    if metrics == [] then 0
    else MetricsOf(metrics[..|metrics| - 1], id) + if metrics[|metrics| - 1].observation == id then 1 else 0
  }

  lemma {:induction false} CountsOnce(metrics: seq<Metric>, id: ObservationId)
    requires forall i, j | 0 <= i < j < |metrics| :: metrics[i].observation != metrics[j].observation
    ensures MetricsOf(metrics, id) == if exists i :: 0 <= i < |metrics| && metrics[i].observation == id then 1 else 0
  {
    if metrics != [] {
      var front, last := metrics[..|metrics| - 1], metrics[|metrics| - 1];
      CountsOnce(front, id);
      if last.observation == id {
        assert metrics[|metrics| - 1].observation == id;
      } else if i :| 0 <= i < |metrics| && metrics[i].observation == id {
        assert front[i].observation == id;
      }
    }
  }

  /** In every run an observation has one metric if it is captured and none otherwise. */
  lemma OneMetricPerCapture(es: seq<Event>, id: ObservationId)
    ensures var t := Run(EMPTY, es).t;
      && MetricsOf(t.metrics, id) == (if id in t.observations && t.observations[id].status == Captured then 1 else 0)
      && (id in t.observations && t.observations[id].status == Captured ==>
            t.observations[id].capturedAt.Some? && t.observations[id].capturedAt.value < t.observations[id].windowClosesAt)
  {
    RunKeepsInv(EMPTY, es);
    CountsOnce(Run(EMPTY, es).t.metrics, id);
  }

  /** In every run the account's ingestion generation is its number of metrics. */
  lemma GenerationCountsMetrics(es: seq<Event>, a: Account)
    ensures Generation(Run(EMPTY, es).t, a) == CountFor(Run(EMPTY, es).t.metrics, a)
  {
    RunKeepsInv(EMPTY, es);
    assert Generation(Run(EMPTY, es).t, a) == CountFor(Run(EMPTY, es).t.metrics, a);
  }

  // ---- the transition table ----

  /** No step leaves the transition table, and a terminal row is never written again. */
  lemma StatusFollowsTable(w: World, e: Event, id: ObservationId)
    requires LeaseInv(w) && id in w.t.observations
    ensures id in NextTables(w, e).observations
    ensures var o, o' := w.t.observations[id], NextTables(w, e).observations[id];
      && (o'.status == o.status || ValidTransition(o.status, o'.status))
      && (Terminal(o.status) ==> o' == o)
  {
    RowSteps(w, e, id);
  }

  lemma {:induction false} TerminalForever(w: World, es: seq<Event>, id: ObservationId)
    requires Inv(w) && id in w.t.observations && Terminal(w.t.observations[id].status)
    ensures id in Run(w, es).t.observations && Run(w, es).t.observations[id] == w.t.observations[id]
    decreases |es|
  {
    if es != [] {
      StatusFollowsTable(w, es[0], id);
      StepKeepsInv(w, es[0]);
      TerminalForever(Next(w, es[0]), es[1..], id);
    }
  }

  // ---- fencing ----

  /** The attempt exists and no longer holds its row. */
  predicate Lost(w: World, token: Token) {
    && token in w.attempts
    && (w.attempts[token].id in w.t.observations ==>
          w.t.observations[w.attempts[token].id].leaseToken != Some(token))
  }

  lemma LostStays(w: World, e: Event, token: Token)
    requires Inv(w) && Lost(w, token)
    ensures Lost(Next(w, e), token)
  {
    RowSteps(w, e, w.attempts[token].id);
  }

  lemma LostDoesNothing(w: World, e: Event, token: Token)
    requires Inv(w) && Lost(w, token) && Actor(e) == Some(token)
    ensures NextTables(w, e) == w.t
  {
  }

  /**
   Once its row no longer carries its token, no later step of a worker changes any observation,
   metric, generation or outbox row, whatever ran in between.
   */
  lemma {:induction false} StaleWorkerIsFenced(w: World, es: seq<Event>, e: Event, token: Token)
    requires Inv(w) && Lost(w, token) && Actor(e) == Some(token)
    ensures NextTables(Run(w, es), e) == Run(w, es).t
    decreases |es|
  {
    if es == [] {
      LostDoesNothing(w, e, token);
    } else {
      LostStays(w, es[0], token);
      StepKeepsInv(w, es[0]);
      StaleWorkerIsFenced(Next(w, es[0]), es[1..], e, token);
    }
  }

  /** A claim that takes the row from another attempt leaves that attempt fenced. */
  lemma ReclaimFences(w: World, e: Event, loser: Token)
    requires Inv(w) && e.Claim? && e.token !in w.attempts && CanClaim(w.t, e.id, e.now)
    requires loser in w.attempts && w.attempts[loser].id == e.id
    ensures Lost(Next(w, e), loser)
    ensures Holds(Next(w, e).t, e.id, e.token)
  {
  }

  /** At any time at most one attempt can change the row of an observation. */
  lemma OneHolder(w: World, id: ObservationId, x: Token, y: Token)
    requires Holds(w.t, id, x) && Holds(w.t, id, y)
    ensures x == y
  {
  }
}
