/** What the invariant of the analytics chain means for its runs. */
module AnalyticsPipelineTheorems {
  import opened Common
  import opened AnalyticsTables
  import opened ObservationProtocol
  import opened ObservationSafety
  import opened AnalyticsPipeline
  import opened AnalyticsPipelineSafety

  predicate Reached(p: Pipeline, es: seq<Action>) {
    p == RunAll(START, es)
  }

  lemma ReachedInv(p: Pipeline, es: seq<Action>)
    requires Reached(p, es)
    ensures PipelineInv(p)
  {
    StartIsSafe();
    RunAllKeepsPipeline(START, es);
  }

  lemma ReachedRun(p: Pipeline, es: seq<Action>, run: nat)
    requires Reached(p, es) && run in p.runs
    ensures RunOk(p.w.t, p.runs[run])
  {
    ReachedInv(p, es);
  }

  lemma ReachedTriggers(p: Pipeline, es: seq<Action>)
    requires Reached(p, es)
    ensures TriggerInv(p.w.t)
  {
    ReachedInv(p, es);
  }

  lemma ReachedHistory(p: Pipeline, es: seq<Action>)
    requires Reached(p, es)
    ensures HistoryInv(p)
  {
    ReachedInv(p, es);
  }

  lemma ReachedChain(p: Pipeline, es: seq<Action>)
    requires Reached(p, es)
    ensures ChainInv(p)
  {
    ReachedInv(p, es);
  }

  lemma ReachedRow(p: Pipeline, es: seq<Action>, k: AggKey)
    requires Reached(p, es) && k in p.aggregates
    ensures 1 <= k.revision <= Revision(p.w.t, k.account)
  {
    ReachedInv(p, es);
  }

  lemma ReachedInsightJob(p: Pipeline, es: seq<Action>, job: nat)
    requires Reached(p, es) && job in p.insightJobs
    ensures InsightJobOk(p, p.insightJobs[job])
  {
    ReachedInv(p, es);
  }

  lemma ReachedLearningJob(p: Pipeline, es: seq<Action>, job: nat)
    requires Reached(p, es) && job in p.learningJobs
    ensures LearningJobOk(p, p.learningJobs[job])
  {
    ReachedInv(p, es);
  }

  // ---- coverage of a committed run ----

  /** Every statement of the run saw the metric. */
  ghost predicate SeenByAll(r: AggRun, m: Metric) {
    forall i | 0 <= i < |r.views| :: m in r.views[i]
  }

  lemma SnapshotSeen(t: Tables, r: AggRun, i: nat)
    requires RunOk(t, r) && i < |t.metrics|
    requires t.metrics[i].account == r.account && t.metrics[i].generation <= r.snapshot
    ensures SeenByAll(r, t.metrics[i])
  {
    forall v | 0 <= v < |r.views| ensures t.metrics[i] in r.views[v] {
      assert r.views[v] <= t.metrics && i < r.base <= |r.views[v]|;
      assert r.views[v][i] == t.metrics[i];
    }
  }

  /**
   When a run for a slot commits, every metric of that account and slot either was within its
   snapshot, and then every statement saw it, or has an aggregation trigger of its own above the
   snapshot. If the generation moved, a follow-up trigger at the generation read at commit exists.
   */
  lemma CommitCoversMetrics(p: Pipeline, es: seq<Action>, e: Action)
    requires Reached(p, es) && e.CommitRun? && CanCommitRun(p, e.run)
    ensures var r := p.runs[e.run];
      var outbox' := Step(p, e).w.t.outbox;
      && (forall i | 0 <= i < |p.w.t.metrics| ::
            var m := p.w.t.metrics[i];
            m.account == r.account && m.observation.slot == r.slot ==>
              if m.generation <= r.snapshot then SeenByAll(r, m)
              else AggregateKey(r.account, m.generation, r.slot) in outbox')
      && (Generation(p.w.t, r.account) > r.snapshot ==>
            AggregateKey(r.account, Generation(p.w.t, r.account), r.slot) in outbox')
  {
    var r := p.runs[e.run];
    ReachedRun(p, es, e.run);
    ReachedTriggers(p, es);
    assert CommitAgg(p, e.run, e.asOf, e.families).w.t.outbox
        == CommitOutbox(p.w.t, r, p.w.t.sync[r.account].revision + 1, e.asOf);
    CoveredByOutbox(p.w.t, r, CommitOutbox(p.w.t, r, p.w.t.sync[r.account].revision + 1, e.asOf));
  }

  lemma CoveredByOutbox(t: Tables, r: AggRun, outbox': map<DedupeKey, OutboxEvent>)
    requires RunOk(t, r) && TriggerInv(t)
    requires forall k | k in t.outbox :: k in outbox'
    ensures forall i | 0 <= i < |t.metrics| ::
      var m := t.metrics[i];
      m.account == r.account && m.observation.slot == r.slot ==>
        if m.generation <= r.snapshot then SeenByAll(r, m)
        else AggregateKey(r.account, m.generation, r.slot) in outbox'
  {
    forall i | 0 <= i < |t.metrics| && t.metrics[i].account == r.account && t.metrics[i].generation <= r.snapshot
      ensures SeenByAll(r, t.metrics[i])
    {
      SnapshotSeen(t, r, i);
    }
  }

  lemma {:induction false} CohortGrows(x: seq<Metric>, y: seq<Metric>, a: Account, slot: Slot, posts: set<Post>)
    requires x <= y
    ensures CohortCount(x, a, slot, posts) <= CohortCount(y, a, slot, posts)
    decreases |y|
  {
    if |x| < |y| {
      CohortGrows(x, y[..|y| - 1], a, slot, posts);
    } else {
      assert x == y;
    }
  }

  /**
   Each row that a run commits bears the run's account, slot and new revision, and its sample size
   lies between the cohort at the snapshot and the cohort at commit.
   */
  lemma RowsCountTheSnapshot(p: Pipeline, es: seq<Action>, e: Action, k: AggKey)
    requires Reached(p, es) && e.CommitRun? && CanCommitRun(p, e.run) && k in p.runs[e.run].pending
    ensures var r := p.runs[e.run];
      var c := r.pending[k];
      && k !in p.aggregates && k in Step(p, e).aggregates
      && k.account == r.account && k.slot == r.slot && k.revision == Revision(Step(p, e).w.t, r.account)
      && r.base <= |p.w.t.metrics|
      && CohortCount(p.w.t.metrics[..r.base], r.account, r.slot, c.subject)
         <= Step(p, e).aggregates[k].sampleSize
         <= CohortCount(p.w.t.metrics, r.account, r.slot, c.subject)
  {
    var r := p.runs[e.run];
    ReachedRun(p, es, e.run);
    PendingCounted(p.w.t, r, k);
    if k in p.aggregates { ReachedRow(p, es, k); }
    CommittedRow(p, e.run, e.asOf, e.families, k);
  }

  lemma PendingCounted(t: Tables, r: AggRun, k: AggKey)
    requires RunOk(t, r) && k in r.pending
    ensures var c := r.pending[k];
      && k.account == r.account && k.slot == r.slot && k.revision == t.sync[r.account].revision + 1
      && r.base <= |t.metrics|
      && CohortCount(t.metrics[..r.base], r.account, r.slot, c.subject) <= c.row.sampleSize
         <= CohortCount(t.metrics, r.account, r.slot, c.subject)
  {
    var c := r.pending[k];
    var i :| 0 <= i < |r.views| && c.row.sampleSize == CohortCount(r.views[i], r.account, r.slot, c.subject);
    assert t.metrics[..r.base] <= r.views[i] <= t.metrics;
    CohortGrows(t.metrics[..r.base], r.views[i], r.account, r.slot, c.subject);
    CohortGrows(r.views[i], t.metrics, r.account, r.slot, c.subject);
  }

  lemma CommittedRow(p: Pipeline, run: nat, asOf: Time, families: map<AggKey, nat>, k: AggKey)
    requires CanCommitRun(p, run) && k in p.runs[run].pending
    ensures var p' := CommitAgg(p, run, asOf, families);
      && k in p'.aggregates
      && p'.aggregates[k].sampleSize == p.runs[run].pending[k].row.sampleSize
      && Revision(p'.w.t, p.runs[run].account) == p.w.t.sync[p.runs[run].account].revision + 1
  {
  }

  /** A cohort's count is the number of its metrics: of the account and slot, and of one of the posts. */
  lemma {:induction false} CohortCountIs(metrics: seq<Metric>, a: Account, slot: Slot, posts: set<Post>)
    ensures CohortCount(metrics, a, slot, posts) == |Cohort(metrics, a, slot, posts)|
  {
    if metrics != [] {
      var n := |metrics| - 1;
      CohortCountIs(metrics[..n], a, slot, posts);
      assert Cohort(metrics, a, slot, posts)
          == Cohort(metrics[..n], a, slot, posts) + if InCohort(metrics[n], a, slot, posts) then {n} else {};
    }
  }

  predicate InCohort(m: Metric, a: Account, slot: Slot, posts: set<Post>) {
    m.account == a && m.observation.slot == slot && m.observation.post in posts
  }

  function Cohort(metrics: seq<Metric>, a: Account, slot: Slot, posts: set<Post>): set<nat> {
    set i: nat | i < |metrics| && InCohort(metrics[i], a, slot, posts)
  }

  /** What a run's commit leaves of a row: its own counts, and its family as last evaluated. */
  predicate CommittedAs(p: Pipeline, r: AggRun, families: map<AggKey, nat>, k: AggKey, row: AggRow)
    requires k in r.pending || k in p.aggregates
  {
    var before := if k in r.pending then r.pending[k].row else p.aggregates[k];
    && row.sampleSize == before.sampleSize && row.complementSize == before.complementSize
    && row.family == if k in families && k.account == r.account && k.slot == r.slot then families[k] else before.family
  }

  /** An outbox row that is there afterwards, new with this payload and time unless it was there before. */
  predicate Triggered(t: Tables, t': Tables, k: DedupeKey, payload: Payload, executeAt: Time) {
    k in t'.outbox && t'.outbox[k] == if k in t.outbox then t.outbox[k] else OutboxEvent(payload, executeAt)
  }

  /** Table by table, what the commit of a run writes. */
  lemma CommitWrites(p: Pipeline, e: Action)
    requires e.CommitRun? && CanCommitRun(p, e.run)
    ensures var p', r := Step(p, e), p.runs[e.run];
      var t, t', a, row := p.w.t, p'.w.t, r.account, p.w.t.sync[r.account];
      && t'.observations == t.observations && t'.metrics == t.metrics
      && t'.sync == t.sync[a := SyncRow(row.generation, row.revision + 1, Some(e.asOf))]
      && Triggered(t, t', InsightsKey(a, row.revision + 1, r.slot), TriggerInsights(a, row.revision + 1, r.slot, e.asOf), e.asOf)
      && (row.generation > r.snapshot ==>
            Triggered(t, t', AggregateKey(a, row.generation, r.slot), TriggerAggregation(a, r.slot, row.generation), e.asOf))
      && t'.outbox.Keys == t.outbox.Keys + {InsightsKey(a, row.revision + 1, r.slot)}
                           + (if row.generation > r.snapshot then {AggregateKey(a, row.generation, r.slot)} else {})
      && (forall k | k in t.outbox :: t'.outbox[k] == t.outbox[k])
      && p'.aggregates.Keys == p.aggregates.Keys + r.pending.Keys
      && (forall k | k in p'.aggregates :: CommittedAs(p, r, e.families, k, p'.aggregates[k]))
      && p'.runs == p.runs - {e.run} && p'.locks == p.locks - {a} && p'.insights == p.insights
  {
    var r, row := p.runs[e.run], p.w.t.sync[p.runs[e.run].account];
    assert Step(p, e) == CommitAgg(p, e.run, e.asOf, e.families);
    OutboxAfterCommit(p.w.t, r, row.revision + 1, e.asOf);
  }

  lemma OutboxAfterCommit(t: Tables, r: AggRun, revision: nat, asOf: Time)
    ensures var t' := t.(outbox := CommitOutbox(t, r, revision, asOf));
      var g := if r.account in t.sync then t.sync[r.account].generation else 0;
      && Triggered(t, t', InsightsKey(r.account, revision, r.slot), TriggerInsights(r.account, revision, r.slot, asOf), asOf)
      && (g > r.snapshot ==> Triggered(t, t', AggregateKey(r.account, g, r.slot), TriggerAggregation(r.account, r.slot, g), asOf))
      && t'.outbox.Keys == t.outbox.Keys + {InsightsKey(r.account, revision, r.slot)}
                           + (if g > r.snapshot then {AggregateKey(r.account, g, r.slot)} else {})
      && (forall k | k in t.outbox :: t'.outbox[k] == t.outbox[k])
  {
  }

  // ---- revisions ----

  lemma {:induction false} CountRunsAt(h: seq<Commit>, i: nat, j: nat, a: Account)
    requires i < j < |h| && h[j].Aggregated? && h[j].account == a
    ensures CountRuns(h[..i + 1], a) + 1 <= CountRuns(h[..j + 1], a)
  {
    assert h[..j + 1][..j] == h[..j];
    assert h[..j][..i + 1] == h[..i + 1];
    RunsCountGrows(h[..j], i + 1, a);
  }

  /** Two runs of one account never commit the same revision, and commits follow revision order. */
  lemma CommitsFollowRevisions(p: Pipeline, es: seq<Action>, i: nat, j: nat)
    requires Reached(p, es) && i < j < |p.history| && p.history[i].account == p.history[j].account
    ensures p.history[i].revision <= p.history[j].revision
    ensures p.history[j].Aggregated? ==> p.history[i].revision < p.history[j].revision
  {
    ReachedHistory(p, es);
    var h, a := p.history, p.history[i].account;
    if h[j].Aggregated? {
      CountRunsAt(h, i, j, a);
    } else {
      assert h[..j + 1][..i + 1] == h[..i + 1];
      RunsCountGrows(h[..j + 1], i + 1, a);
    }
  }

  lemma {:induction false} RunExists(h: seq<Commit>, a: Account, n: nat)
    requires 1 <= n <= CountRuns(h, a)
    ensures exists i :: 0 <= i < |h| && h[i].Aggregated? && h[i].account == a && CountRuns(h[..i + 1], a) == n
  {
    var front, last := h[..|h| - 1], h[|h| - 1];
    if n <= CountRuns(front, a) {
      RunExists(front, a, n);
      var i :| 0 <= i < |front| && front[i].Aggregated? && front[i].account == a && CountRuns(front[..i + 1], a) == n;
      assert front[..i + 1] == h[..i + 1] && h[i] == front[i];
    } else {
      assert h[..(|h| - 1) + 1] == h;
      assert h[|h| - 1].Aggregated?;
    }
  }

  /** Revisions are consecutive: the runs of an account committed exactly 1, ..., the current one, once each. */
  lemma RevisionsAreConsecutive(p: Pipeline, es: seq<Action>, a: Account, n: nat)
    requires Reached(p, es)
    ensures 1 <= n <= Revision(p.w.t, a) <==>
      exists c :: c in p.history && c.Aggregated? && c.account == a && c.revision == n
  {
    ReachedHistory(p, es);
    var h := p.history;
    assert Revision(p.w.t, a) == CountRuns(h, a);
    if 1 <= n <= Revision(p.w.t, a) {
      RunExists(h, a, n);
      var i :| 0 <= i < |h| && h[i].Aggregated? && h[i].account == a && CountRuns(h[..i + 1], a) == n;
      assert h[i] in h && h[i].revision == n;
    }
    if c :| c in h && c.Aggregated? && c.account == a && c.revision == n {
      var i :| 0 <= i < |h| && h[i] == c;
      RevisionsBounded(p, i);
      RunIsCounted(h, i);
    }
  }

  /** Each run leaves exactly one insights trigger for its revision: its own slot, its own asOf. */
  lemma OneInsightsTrigger(p: Pipeline, es: seq<Action>, c: Commit, slot: Slot)
    requires Reached(p, es) && c in p.history && c.Aggregated?
    ensures var k := InsightsKey(c.account, c.revision, slot);
      && (k in p.w.t.outbox <==> slot == c.slot)
      && (slot == c.slot ==> p.w.t.outbox[k].payload == TriggerInsights(c.account, c.revision, slot, c.asOf))
  {
    ReachedChain(p, es);
    var i :| 0 <= i < |p.history| && p.history[i] == c;
    var k := InsightsKey(c.account, c.revision, slot);
    if k in p.w.t.outbox {
      OneRunPerRevision(p, es, c, Aggregated(c.account, c.revision, slot, AsOf(p.w.t.outbox[k].payload)));
    }
  }

  lemma RunIsCounted(h: seq<Commit>, i: nat)
    requires i < |h| && h[i].Aggregated?
    ensures CountRuns(h[..i + 1], h[i].account) >= 1
  {
    assert h[..i + 1][..i] == h[..i];
  }

  lemma OneRunPerRevision(p: Pipeline, es: seq<Action>, c: Commit, d: Commit)
    requires Reached(p, es) && c in p.history && d in p.history && c.Aggregated? && d.Aggregated?
    requires c.account == d.account && c.revision == d.revision
    ensures c == d
  {
    var i :| 0 <= i < |p.history| && p.history[i] == c;
    var j :| 0 <= j < |p.history| && p.history[j] == d;
    if i < j { CommitsFollowRevisions(p, es, i, j); }
    if j < i { CommitsFollowRevisions(p, es, j, i); }
  }

  /** The target revision a run stamps on its rows when it starts is the one its commit assigns. */
  lemma TargetIsCommitted(p: Pipeline, es: seq<Action>, e: Action)
    requires Reached(p, es) && e.CommitRun? && CanCommitRun(p, e.run)
    ensures Revision(Step(p, e).w.t, p.runs[e.run].account) == p.runs[e.run].target
    ensures InsightsKey(p.runs[e.run].account, p.runs[e.run].target, p.runs[e.run].slot) !in p.w.t.outbox
  {
    ReachedRun(p, es, e.run);
    ReachedHistory(p, es);
    ReachedChain(p, es);
    InsightsKeyUnused(p, p.runs[e.run].account, p.runs[e.run].slot);
  }

  /** Two runs of one account are never open at the same time. */
  lemma OneRunAtATime(p: Pipeline, es: seq<Action>, x: nat, y: nat)
    requires Reached(p, es) && x in p.runs && y in p.runs && p.runs[x].account == p.runs[y].account
    ensures x == y
  {
    ReachedInv(p, es);
  }

  // ---- downstream ----

  /**
   The canonical asOf travels unchanged: the insights, learning and recommendations triggers of a
   revision all carry the asOf that the one run with that revision set.
   */
  lemma AsOfTravelsUnchanged(p: Pipeline, es: seq<Action>, k: DedupeKey)
    requires Reached(p, es) && k in p.w.t.outbox && ChainKey(k)
    ensures exists c ::
      c in p.history && c.Aggregated? && c.account == k.account && c.revision == k.revision
      && AsOf(p.w.t.outbox[k].payload) == c.asOf
    ensures forall c | c in p.history && c.Aggregated? && c.account == k.account && c.revision == k.revision ::
      AsOf(p.w.t.outbox[k].payload) == c.asOf
  {
    ReachedChain(p, es);
    var at := AsOf(p.w.t.outbox[k].payload);
    var d: Commit;
    if k.InsightsKey? {
      d := Aggregated(k.account, k.revision, k.slot, at);
    } else {
      assert Produced(p.history, k.account, k.revision, at);
      var i :| 0 <= i < |p.history| && p.history[i].Aggregated? && p.history[i].account == k.account
        && p.history[i].revision == k.revision && p.history[i].asOf == at;
      d := p.history[i];
    }
    assert d in p.history;
    forall c | c in p.history && c.Aggregated? && c.account == k.account && c.revision == k.revision
      ensures at == c.asOf
    {
      OneRunPerRevision(p, es, c, d);
    }
  }

  /**
   Insights for a revision commit only while it is the current one, and the rows they were derived
   from are then still exactly the rows of that revision, although they were read before the lock.
   */
  lemma InsightsReadTheirRevision(p: Pipeline, es: seq<Action>, e: Action)
    requires Reached(p, es) && e.CommitInsights? && e.job in p.insightJobs
    ensures var j := p.insightJobs[e.job];
      if CanCommitInsights(p, e.job)
      then j.revision == Revision(p.w.t, j.account)
           && (forall k :: k in j.rows.value <==> k in p.aggregates && Selected(k, j))
           && (forall k | k in j.rows.value :: j.rows.value[k] == p.aggregates[k])
           && (forall x | x in Step(p, e).insights && x !in p.insights ::
                 Step(p, e).insights[x].source in p.aggregates && Selected(Step(p, e).insights[x].source, j))
           && Triggered(p.w.t, Step(p, e).w.t, LearningKey(j.account, j.revision), TriggerLearning(j.account, j.revision, j.asOf), e.now)
      else Step(p, e) == p
  {
    ReachedInsightJob(p, es, e.job);
    var j := p.insightJobs[e.job];
    if CanCommitInsights(p, e.job) {
      assert Step(p, e) == CommitIns(p, e.job, e.chosen, e.now);
      forall x | x in Step(p, e).insights && x !in p.insights ensures Step(p, e).insights[x].source in j.rows.value {
        StoredIsFirst(p.insights, j.rows.value, e.chosen, x);
      }
    }
  }

  /** The monthly rows of the job's account, revision and slot. */
  predicate Selected(k: AggKey, j: InsightJob) {
    k.account == j.account && k.revision == j.revision && k.slot == j.slot && k.granularity == Monthly
  }

  lemma LearningKeepsToItsRevision(p: Pipeline, es: seq<Action>, e: Action)
    requires Reached(p, es) && e.CommitLearning? && e.job in p.learningJobs
    ensures var j := p.learningJobs[e.job];
      if j.revision == Revision(p.w.t, j.account)
      then Triggered(p.w.t, Step(p, e).w.t, RecommendationsKey(j.account, j.revision),
                     TriggerRecommendations(j.account, j.revision, j.asOf), e.now)
           && Produced(p.history, j.account, j.revision, j.asOf)
      else j.revision < Revision(p.w.t, j.account) && Step(p, e) == p
  {
    ReachedLearningJob(p, es, e.job);
  }

  // ---- insight rows ----

  /** Two rows support one insight exactly if they agree in these columns; bucket and granularity are not among them. */
  predicate SameInsight(k: AggKey, l: AggKey) {
    k.account == l.account && k.revision == l.revision && k.dimension == l.dimension && k.value == l.value && k.slot == l.slot
  }

  /** The insight row is for the account, revision, dimension, value and slot of the aggregate row. */
  predicate Supports(k: AggKey, x: InsightKey) {
    x.account == k.account && x.revision == k.revision && x.dimension == k.dimension && x.value == k.value && x.slot == k.slot
  }

  lemma KeyIs(k: AggKey, x: InsightKey)
    ensures x == KeyOf(k) <==> Supports(k, x)
  {
  }

  lemma KeysAgree(k: AggKey, l: AggKey)
    ensures KeyOf(k) == KeyOf(l) <==> SameInsight(k, l)
  {
  }

  function IdempotencyKeys(rows: map<AggKey, AggRow>, chosen: seq<AggKey>): set<InsightKey> {
    set k | k in chosen && k in rows :: KeyOf(k)
  }

  /** The candidate is stored if its insight is new: no candidate before it supports the same one. */
  predicate FirstOfItsKey(rows: map<AggKey, AggRow>, chosen: seq<AggKey>, i: nat) {
    i < |chosen| && chosen[i] in rows && forall j | 0 <= j < i && chosen[j] in rows :: !SameInsight(chosen[j], chosen[i])
  }

  lemma {:induction false} KeysAdded(insights: map<InsightKey, Insight>, rows: map<AggKey, AggRow>, chosen: seq<AggKey>)
    ensures AddInsights(insights, rows, chosen).Keys == insights.Keys + IdempotencyKeys(rows, chosen)
    ensures forall x | x in insights :: AddInsights(insights, rows, chosen)[x] == insights[x]
  {
    if chosen != [] {
      var front, k := chosen[..|chosen| - 1], chosen[|chosen| - 1];
      KeysAdded(insights, rows, front);
      assert forall x :: x in chosen <==> x in front || x == k;
      assert IdempotencyKeys(rows, chosen) == IdempotencyKeys(rows, front) + if k in rows then {KeyOf(k)} else {};
    } else {
      assert IdempotencyKeys(rows, []) == {};
    }
  }

  lemma {:induction false} FirstIsStored(insights: map<InsightKey, Insight>, rows: map<AggKey, AggRow>, chosen: seq<AggKey>, i: nat)
    requires FirstOfItsKey(rows, chosen, i) && KeyOf(chosen[i]) !in insights
    ensures KeyOf(chosen[i]) in AddInsights(insights, rows, chosen)
    ensures AddInsights(insights, rows, chosen)[KeyOf(chosen[i])] == Insight(chosen[i], rows[chosen[i]])
  {
    var front := chosen[..|chosen| - 1];
    if i < |front| {
      FirstIsStored(insights, rows, front, i);
    } else {
      KeysAdded(insights, rows, front);
      forall j | 0 <= j < |front| && front[j] in rows ensures KeyOf(front[j]) != KeyOf(chosen[i]) {
        assert front[j] == chosen[j];
        KeysAgree(front[j], chosen[i]);
      }
    }
  }

  /** The candidates are searched for the first with the key of one of them. */
  lemma {:induction false} FirstWithKey(rows: map<AggKey, AggRow>, chosen: seq<AggKey>, k: AggKey) returns (i: nat)
    requires k in chosen && k in rows
    ensures FirstOfItsKey(rows, chosen, i) && SameInsight(chosen[i], k)
  {
    i := 0;
    while !(chosen[i] in rows && SameInsight(chosen[i], k))
      invariant i < |chosen| && exists j :: i <= j < |chosen| && chosen[j] == k
      invariant forall j | 0 <= j < i :: !(chosen[j] in rows && SameInsight(chosen[j], k))
      decreases |chosen| - i
    {
      i := i + 1;
    }
  }

  lemma StoredIsFirst(insights: map<InsightKey, Insight>, rows: map<AggKey, AggRow>, chosen: seq<AggKey>, x: InsightKey)
    requires x in AddInsights(insights, rows, chosen) && x !in insights
    ensures exists i: nat :: FirstOfItsKey(rows, chosen, i) && Supports(chosen[i], x)
                             && AddInsights(insights, rows, chosen)[x] == Insight(chosen[i], rows[chosen[i]])
  {
    KeysAdded(insights, rows, chosen);
    var k :| k in chosen && k in rows && KeyOf(k) == x;
    var i := FirstWithKey(rows, chosen, k);
    KeysAgree(chosen[i], k);
    KeyIs(chosen[i], x);
    FirstIsStored(insights, rows, chosen, i);
  }

  /**
   The rows an insight commit leaves behind are the old ones, as they were, and one for each account,
   revision, dimension, value and slot that a candidate has: that of the first such candidate.
   */
  lemma InsightRowsPerKey(insights: map<InsightKey, Insight>, rows: map<AggKey, AggRow>, chosen: seq<AggKey>)
    ensures var after := AddInsights(insights, rows, chosen);
      && (forall x :: x in after <==> x in insights || exists k :: k in chosen && k in rows && Supports(k, x))
      && (forall x | x in insights :: after[x] == insights[x])
      && (forall x | x in after && x !in insights ::
            exists i: nat :: FirstOfItsKey(rows, chosen, i) && Supports(chosen[i], x) && after[x] == Insight(chosen[i], rows[chosen[i]]))
  {
    var after := AddInsights(insights, rows, chosen);
    KeysAdded(insights, rows, chosen);
    forall x ensures x in after <==> x in insights || exists k :: k in chosen && k in rows && Supports(k, x) {
      if k :| k in chosen && k in rows && Supports(k, x) { KeyIs(k, x); }
      if x in IdempotencyKeys(rows, chosen) {
        var k :| k in chosen && k in rows && KeyOf(k) == x;
        KeyIs(k, x);
      }
    }
    forall x | x in after && x !in insights
      ensures exists i: nat :: FirstOfItsKey(rows, chosen, i) && Supports(chosen[i], x) && after[x] == Insight(chosen[i], rows[chosen[i]])
    {
      StoredIsFirst(insights, rows, chosen, x);
    }
  }

  /** Two candidates of a job leave one row if and only if they agree in account, revision, dimension, value and slot. */
  lemma OneRowIff(rows: map<AggKey, AggRow>, k: AggKey, l: AggKey)
    requires k in rows && l in rows
    ensures |AddInsights(map[], rows, [k, l])| == 1 <==> SameInsight(k, l)
  {
    CountIsOfRowsIff(map[], rows, [k, l]);
    KeysAdded(map[], rows, [k, l]);
    assert k in [k, l] && KeyOf(k) in AddInsights(map[], rows, [k, l]);
    assert [k, l][0] == k && [k, l][1] == l;
  }

  /** No two candidates support one insight, and none is stored yet. */
  predicate KeysAreNew(insights: map<InsightKey, Insight>, chosen: seq<AggKey>) {
    && (forall i, x | 0 <= i < |chosen| && x in insights :: !Supports(chosen[i], x))
    && (forall i, j | 0 <= i < j < |chosen| :: !SameInsight(chosen[i], chosen[j]))
  }

  /**
   Every candidate counts as created. The count is that of the rows created exactly when no two candidates
   support one insight and none is stored yet; otherwise it is larger.
   */
  lemma {:induction false} CountIsOfRowsIff(insights: map<InsightKey, Insight>, rows: map<AggKey, AggRow>, chosen: seq<AggKey>)
    requires forall k | k in chosen :: k in rows
    ensures var created := |AddInsights(insights, rows, chosen)| - |insights|;
      created <= |chosen| && (created == |chosen| <==> KeysAreNew(insights, chosen))
  {
    if chosen != [] {
      var front := chosen[..|chosen| - 1];
      assert forall x | x in front :: x in chosen;
      CountIsOfRowsIff(insights, rows, front);
      OneMoreRow(insights, rows, chosen);
      OneMoreKey(insights, rows, chosen);
    }
  }

  predicate Repeats(insights: map<InsightKey, Insight>, rows: map<AggKey, AggRow>, chosen: seq<AggKey>)
    requires chosen != []
  {
    KeyOf(chosen[|chosen| - 1]) in insights.Keys + IdempotencyKeys(rows, chosen[..|chosen| - 1])
  }

  lemma OneMoreRow(insights: map<InsightKey, Insight>, rows: map<AggKey, AggRow>, chosen: seq<AggKey>)
    requires chosen != [] && chosen[|chosen| - 1] in rows
    ensures |AddInsights(insights, rows, chosen)|
         == |AddInsights(insights, rows, chosen[..|chosen| - 1])| + if Repeats(insights, rows, chosen) then 0 else 1
  {
    KeysAdded(insights, rows, chosen[..|chosen| - 1]);
  }

  lemma RepeatsIff(insights: map<InsightKey, Insight>, rows: map<AggKey, AggRow>, chosen: seq<AggKey>)
    requires chosen != [] && forall k | k in chosen :: k in rows
    ensures var n := |chosen| - 1;
      Repeats(insights, rows, chosen)
      <==> KeyOf(chosen[n]) in insights || exists i :: 0 <= i < n && KeyOf(chosen[i]) == KeyOf(chosen[n])
  {
    var n := |chosen| - 1;
    var front, key := chosen[..n], KeyOf(chosen[n]);
    if key in IdempotencyKeys(rows, front) {
      var i :| 0 <= i < n && KeyOf(front[i]) == key;
      assert chosen[i] == front[i];
    }
    if i :| 0 <= i < n && KeyOf(chosen[i]) == key {
      assert front[i] in front && chosen[i] in chosen;
    }
  }

  lemma OneMoreKey(insights: map<InsightKey, Insight>, rows: map<AggKey, AggRow>, chosen: seq<AggKey>)
    requires chosen != [] && forall k | k in chosen :: k in rows
    ensures KeysAreNew(insights, chosen) <==> KeysAreNew(insights, chosen[..|chosen| - 1]) && !Repeats(insights, rows, chosen)
  {
    var front, n := chosen[..|chosen| - 1], |chosen| - 1;
    RepeatsIff(insights, rows, chosen);
    assert forall i | 0 <= i < n :: front[i] == chosen[i];
    forall i | 0 <= i < n ensures KeyOf(chosen[i]) == KeyOf(chosen[n]) <==> SameInsight(chosen[i], chosen[n]) {
      KeysAgree(chosen[i], chosen[n]);
    }
    forall x | x in insights ensures x == KeyOf(chosen[n]) <==> Supports(chosen[n], x) { KeyIs(chosen[n], x); }
  }

  /** One dimension value in two months: two candidates are counted, the row of the first is all that is stored. */
  lemma CountExceedsRows(k: AggKey, otherMonth: Time, evidence: AggRow, other: AggRow)
    requires otherMonth != k.bucket
    ensures var l := k.(bucket := otherMonth);
      AddInsights(map[], map[k := evidence, l := other], [k, l]) == map[KeyOf(k) := Insight(k, evidence)]
  {
    var l := k.(bucket := otherMonth);
    var rows := map[k := evidence, l := other];
    assert [k, l][..1] == [k] && [k][..0] == [];
    assert AddInsights(map[], rows, []) == map[];
    assert AddInsights(map[], rows, [k]) == map[KeyOf(k) := Insight(k, evidence)];
  }

  lemma {:induction false} RunAllAppend(p: Pipeline, es: seq<Action>, e: Action)
    ensures RunAll(p, es + [e]) == Step(RunAll(p, es), e)
    decreases |es|
  {
    if es == [] {
      assert [] + [e] == [e] && RunAll(p, [e]) == RunAll(Step(p, e), []);
    } else {
      assert (es + [e])[1..] == es[1..] + [e];
      RunAllAppend(Step(p, es[0]), es[1..], e);
    }
  }

  lemma Extend(p: Pipeline, es: seq<Action>, e: Action) returns (p': Pipeline, es': seq<Action>)
    requires Reached(p, es)
    ensures p' == Step(p, e) && Reached(p', es')
  {
    RunAllAppend(START, es, e);
    p', es' := Step(p, e), es + [e];
  }

  /** A job about to commit candidates whose count exceeds the rows it creates. */
  predicate Miscounts(p: Pipeline, job: nat, chosen: seq<AggKey>) {
    && CanCommitInsights(p, job) && (forall k | k in chosen :: k in p.insightJobs[job].rows.value)
    && (forall i, j | 0 <= i < j < |chosen| :: chosen[i] != chosen[j])
    && |Step(p, CommitInsights(job, chosen, 0)).insights| - |p.insights| < |chosen|
  }

  function Month(b: Time): AggKey {
    AggKey(0, Topic, "", T24H, Monthly, b, 1)
  }

  lemma TwoMonthsQueried() returns (p: Pipeline, es: seq<Action>)
    ensures Reached(p, es) && p.insightJobs == map[] && p.insights == map[] && p.aggregates == map[] && CanCommitRun(p, 0)
    ensures p.runs[0].account == 0 && p.runs[0].slot == T24H && p.runs[0].pending.Keys == {Month(0), Month(1)}
    ensures Revision(p.w.t, 0) == 0 && InsightsKey(0, 1, T24H) !in p.w.t.outbox
  {
    p, es := Extend(START, [], Observe(ScheduleSlot(0, ObservationId(0, T24H), 0)));
    p, es := Extend(p, es, BeginRun(0, 0, T24H));
    p, es := Extend(p, es, QueryRun(0, Topic, "", Monthly, 0, {}, {}));
    p, es := Extend(p, es, QueryRun(0, Topic, "", Monthly, 1, {}, {}));
  }

  lemma TwoMonthsAggregated() returns (p: Pipeline, es: seq<Action>)
    ensures Reached(p, es) && p.insightJobs == map[] && p.insights == map[]
    ensures InsightsKey(0, 1, T24H) in p.w.t.outbox && p.w.t.outbox[InsightsKey(0, 1, T24H)].payload.TriggerInsights?
    ensures Revision(p.w.t, 0) == 1 && p.aggregates.Keys == {Month(0), Month(1)}
  {
    p, es := TwoMonthsQueried();
    p, es := Extend(p, es, CommitRun(0, 0, map[]));
  }

  lemma TwoMonthsRead() returns (p: Pipeline, es: seq<Action>)
    ensures Reached(p, es) && CanCommitInsights(p, 0) && p.insights == map[]
    ensures p.insightJobs[0].rows.value.Keys == {Month(0), Month(1)}
  {
    p, es := TwoMonthsAggregated();
    p, es := Extend(p, es, StartInsights(0, 0, 1, T24H));
    p, es := Extend(p, es, ReadAggregates(0));
    assert p.insightJobs[0].rows.value.Keys == {Month(0), Month(1)};
  }

  lemma TwoMonthsMakeOneRow(rows: map<AggKey, AggRow>)
    requires rows.Keys == {Month(0), Month(1)}
    ensures |AddInsights(map[], rows, [Month(0), Month(1)])| == 1
  {
    var chosen := [Month(0), Month(1)];
    KeysAdded(map[], rows, chosen);
    assert Month(0) in chosen && forall k | k in chosen :: KeyOf(k) == KeyOf(Month(0));
    assert AddInsights(map[], rows, chosen).Keys == {KeyOf(Month(0))};
    assert |AddInsights(map[], rows, chosen)| == |AddInsights(map[], rows, chosen).Keys|;
  }

  /** It happens: a run writes rows for two months of one value, and an insight job takes both. */
  lemma CountCanExceedRows()
    ensures exists p, es, job, chosen :: Reached(p, es) && Miscounts(p, job, chosen)
  {
    var p, es := TwoMonthsRead();
    TwoMonthsMakeOneRow(p.insightJobs[0].rows.value);
    assert Miscounts(p, 0, [Month(0), Month(1)]);
  }

  /** A replayed commit of the same candidates changes no insight row. */
  lemma InsightReplayIsIdempotent(insights: map<InsightKey, Insight>, rows: map<AggKey, AggRow>, chosen: seq<AggKey>)
    ensures AddInsights(AddInsights(insights, rows, chosen), rows, chosen) == AddInsights(insights, rows, chosen)
  {
    var once := AddInsights(insights, rows, chosen);
    KeysAdded(insights, rows, chosen);
    KeysAdded(once, rows, chosen);
    AddedInsightsOk(once, rows, chosen);
  }
}
