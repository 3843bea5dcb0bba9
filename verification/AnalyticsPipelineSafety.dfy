/** Every step of the analytics chain keeps its invariant. */
module AnalyticsPipelineSafety {
  import opened Common
  import opened AnalyticsTables
  import opened ObservationProtocol
  import opened ObservationSafety
  import opened AnalyticsPipeline

  // ---- what an observation step may do to the rest ----

  predicate ChainKey(k: DedupeKey) {
    k.InsightsKey? || k.LearningKey? || k.RecommendationsKey?
  }

  ghost predicate SyncKept(t: Tables, t': Tables) {
    && (forall a {:trigger Revision(t', a)} :: Revision(t', a) == Revision(t, a))
    && (forall a | a in t.sync :: a in t'.sync && t.sync[a].generation <= t'.sync[a].generation
                                  && t.sync[a].revision == t'.sync[a].revision)
  }

  ghost predicate MetricsGrow(t: Tables, t': Tables) {
    && t.metrics <= t'.metrics
    && (forall i | |t.metrics| <= i < |t'.metrics| :: t'.metrics[i].generation > Generation(t, t'.metrics[i].account))
  }

  ghost predicate ChainRowsKept(t: Tables, t': Tables) {
    forall k | ChainKey(k) ::
      (k in t'.outbox <==> k in t.outbox) && (k in t.outbox ==> t'.outbox[k] == t.outbox[k])
  }

  lemma ObserveFrame(w: World, e: Event)
    ensures SyncKept(w.t, NextTables(w, e))
    ensures MetricsGrow(w.t, NextTables(w, e))
    ensures ChainRowsKept(w.t, NextTables(w, e))
  {
    OtherTables(w, e);
    SyncFrame(w, e);
    forall k | ChainKey(k)
      ensures k in NextTables(w, e).outbox <==> k in w.t.outbox
      ensures k in w.t.outbox ==> NextTables(w, e).outbox[k] == w.t.outbox[k]
    {
      OutboxSteps(w, e, k);
    }
  }

  lemma SyncFrame(w: World, e: Event)
    ensures SyncKept(w.t, NextTables(w, e))
  {
  }

  // ---- the worker invariant survives the chain's own transactions ----

  ghost predicate ChainStep(t: Tables, t': Tables) {
    && t'.observations == t.observations && t'.metrics == t.metrics
    && (forall a {:trigger Generation(t', a)} :: Generation(t', a) == Generation(t, a))
    && (forall k | k in t.outbox :: k in t'.outbox && t'.outbox[k] == t.outbox[k])
    && (forall k | k in t'.outbox && k !in t.outbox ::
          ChainKey(k) || (k.AggregateKey? && k.generation <= Generation(t, k.account)
                          && t'.outbox[k].payload == TriggerAggregation(k.account, k.slot, k.generation)))
  }

  lemma ChainStepKeepsGeneration(t: Tables, t': Tables)
    requires GenerationInv(t) && ChainStep(t, t')
    ensures GenerationInv(t')
  {
    forall a: Account ensures Generation(t', a) == CountFor(t'.metrics, a) {
      assert Generation(t, a) == CountFor(t.metrics, a);
    }
  }

  lemma ChainStepKeepsTriggers(t: Tables, t': Tables)
    requires TriggerInv(t) && ChainStep(t, t')
    ensures TriggerInv(t') && (RetryKeyInv(t) ==> RetryKeyInv(t'))
  {
  }

  lemma ChainStepKeepsRows(w: World, t': Tables)
    requires LeaseInv(w) && AttemptInv(w) && MetricInv(w.t) && WindowInv(w.t) && RecoveryInv(w)
    requires ChainStep(w.t, t')
    ensures LeaseInv(w.(t := t')) && AttemptInv(w.(t := t')) && MetricInv(t') && WindowInv(t') && RecoveryInv(w.(t := t'))
  {
  }

  lemma ChainStepKeepsInv(w: World, t': Tables)
    requires Inv(w) && ChainStep(w.t, t')
    ensures Inv(w.(t := t'))
  {
    ChainStepKeepsGeneration(w.t, t');
    ChainStepKeepsTriggers(w.t, t');
    ChainStepKeepsRows(w, t');
  }

  lemma CommitIsChainStep(p: Pipeline, run: nat, asOf: Time, families: map<AggKey, nat>)
    requires CanCommitRun(p, run)
    ensures ChainStep(p.w.t, CommitAgg(p, run, asOf, families).w.t)
    ensures CommitAgg(p, run, asOf, families).w == p.w.(t := CommitAgg(p, run, asOf, families).w.t)
  {
  }

  lemma InsightsCommitIsChainStep(p: Pipeline, job: nat, chosen: seq<AggKey>, now: Time)
    requires CanCommitInsights(p, job)
    ensures ChainStep(p.w.t, CommitIns(p, job, chosen, now).w.t)
  {
  }

  lemma LearningCommitIsChainStep(p: Pipeline, job: nat, now: Time)
    requires CanCommitLearning(p, job)
    ensures ChainStep(p.w.t, CommitLearn(p, job, now).w.t)
  {
  }

  lemma WorldAfterRun(p: Pipeline, e: Action)
    requires Inv(p.w) && e.CommitRun?
    ensures Inv(Step(p, e).w)
  {
    if CanCommitRun(p, e.run) {
      CommitIsChainStep(p, e.run, e.asOf, e.families);
      ChainStepKeepsInv(p.w, CommitAgg(p, e.run, e.asOf, e.families).w.t);
    }
  }

  lemma WorldAfterInsights(p: Pipeline, e: Action)
    requires Inv(p.w) && e.CommitInsights?
    ensures Inv(Step(p, e).w)
  {
    if CanCommitInsights(p, e.job) {
      InsightsCommitIsChainStep(p, e.job, e.chosen, e.now);
      ChainStepKeepsInv(p.w, CommitIns(p, e.job, e.chosen, e.now).w.t);
    }
  }

  lemma WorldAfterLearning(p: Pipeline, e: Action)
    requires Inv(p.w) && e.CommitLearning?
    ensures Inv(Step(p, e).w)
  {
    if CanCommitLearning(p, e.job) {
      LearningCommitIsChainStep(p, e.job, e.now);
      ChainStepKeepsInv(p.w, CommitLearn(p, e.job, e.now).w.t);
    }
  }

  lemma WorldSame(p: Pipeline, e: Action)
    requires !e.Observe? && !e.CommitRun? && !e.CommitInsights? && !e.CommitLearning?
    ensures Step(p, e).w == p.w
  {
  }

  lemma StepKeepsWorld(p: Pipeline, e: Action)
    requires Inv(p.w)
    ensures Inv(Step(p, e).w)
  {
    if e.Observe? { StepKeepsInv(p.w, e.e); }
    else if e.CommitRun? { WorldAfterRun(p, e); }
    else if e.CommitInsights? { WorldAfterInsights(p, e); }
    else if e.CommitLearning? { WorldAfterLearning(p, e); }
    else { WorldSame(p, e); }
  }

  lemma StepKeepsLocks(p: Pipeline, e: Action)
    requires LockInv(p)
    ensures LockInv(Step(p, e))
  {
  }

  // ---- open runs ----

  lemma {:induction false} CountForGrows(metrics: seq<Metric>, i: nat, a: Account)
    requires i <= |metrics|
    ensures CountFor(metrics[..i], a) <= CountFor(metrics, a)
  {
    if i < |metrics| {
      assert metrics[..|metrics| - 1][..i] == metrics[..i];
      CountForGrows(metrics[..|metrics| - 1], i, a);
    } else {
      assert metrics[..i] == metrics;
    }
  }

  /** A metric's generation never exceeds its account's counter. */
  lemma GenerationsBounded(t: Tables, i: nat)
    requires GenerationInv(t) && i < |t.metrics|
    ensures t.metrics[i].generation <= Generation(t, t.metrics[i].account)
  {
    CountForGrows(t.metrics, i + 1, t.metrics[i].account);
  }

  lemma BeginOk(p: Pipeline, run: nat, a: Account, slot: Slot)
    requires Inv(p.w) && CanBegin(p, run, a)
    ensures RunOk(p.w.t, Begin(p, run, a, slot).runs[run])
  {
    forall i | 0 <= i < |p.w.t.metrics| && p.w.t.metrics[i].account == a
      ensures p.w.t.metrics[i].generation <= p.w.t.sync[a].generation
    {
      GenerationsBounded(p.w.t, i);
    }
  }

  lemma QueryOk(p: Pipeline, e: Action)
    requires e.QueryRun? && e.run in p.runs && RunOk(p.w.t, p.runs[e.run])
    ensures RunOk(p.w.t, Query(p, e).runs[e.run])
  {
    var r, r' := p.runs[e.run], Query(p, e).runs[e.run];
    forall k | k in r'.pending
      ensures k.account == r'.account && k.slot == r'.slot && k.revision == r'.target
      ensures exists i ::
        0 <= i < |r'.views|
        && r'.pending[k].row.sampleSize == CohortCount(r'.views[i], r'.account, r'.slot, r'.pending[k].subject)
        && r'.pending[k].row.complementSize == CohortCount(r'.views[i], r'.account, r'.slot, r'.pending[k].complement)
    {
      if k in r.pending && r'.pending[k] == r.pending[k] {
        var i :| 0 <= i < |r.views|
          && r.pending[k].row.sampleSize == CohortCount(r.views[i], r.account, r.slot, r.pending[k].subject)
          && r.pending[k].row.complementSize == CohortCount(r.views[i], r.account, r.slot, r.pending[k].complement);
        assert r'.views[i] == r.views[i];
      } else {
        assert r'.views[|r.views|] == p.w.t.metrics;
      }
    }
  }

  lemma RunOkObserved(t: Tables, t': Tables, r: AggRun)
    requires RunOk(t, r) && SyncKept(t, t') && MetricsGrow(t, t')
    ensures RunOk(t', r)
  {
    forall i | 0 <= i < |t'.metrics| && t'.metrics[i].account == r.account
      ensures t'.metrics[i].generation <= r.snapshot <==> i < r.base
    {
      if i < |t.metrics| { assert t'.metrics[i] == t.metrics[i]; }
    }
  }

  lemma RunOkCommitted(t: Tables, t': Tables, r: AggRun)
    requires RunOk(t, r) && t'.metrics == t.metrics
    requires r.account in t'.sync && t'.sync[r.account] == t.sync[r.account]
    ensures RunOk(t', r)
  {
  }

  lemma RunsObserved(p: Pipeline, e: Action)
    requires RunInv(p) && e.Observe?
    ensures RunInv(Step(p, e))
  {
    ObserveFrame(p.w, e.e);
    forall r | r in p.runs ensures RunOk(NextTables(p.w, e.e), p.runs[r]) {
      RunOkObserved(p.w.t, NextTables(p.w, e.e), p.runs[r]);
    }
  }

  lemma OneRunChanged(p: Pipeline, p': Pipeline, run: nat)
    requires RunInv(p) && p'.w.t == p.w.t
    requires run in p'.runs && RunOk(p.w.t, p'.runs[run])
    requires forall r | r in p'.runs && r != run :: r in p.runs && p'.runs[r] == p.runs[r]
    ensures RunInv(p')
  {
  }

  lemma RunsAfterBegin(p: Pipeline, e: Action)
    requires Inv(p.w) && RunInv(p) && e.BeginRun?
    ensures RunInv(Step(p, e))
  {
    if CanBegin(p, e.run, e.account) {
      BeginOk(p, e.run, e.account, e.slot);
      OneRunChanged(p, Begin(p, e.run, e.account, e.slot), e.run);
    }
  }

  lemma RunsAfterQuery(p: Pipeline, e: Action)
    requires RunInv(p) && e.QueryRun?
    ensures RunInv(Step(p, e))
  {
    if e.run in p.runs {
      QueryOk(p, e);
      OneRunChanged(p, Query(p, e), e.run);
    }
  }

  lemma RunsAfterCommit(p: Pipeline, e: Action)
    requires LockInv(p) && RunInv(p) && e.CommitRun?
    ensures RunInv(Step(p, e))
  {
    if CanCommitRun(p, e.run) {
      var p' := CommitAgg(p, e.run, e.asOf, e.families);
      forall r | r in p'.runs ensures RunOk(p'.w.t, p'.runs[r]) {
        assert p.runs[r].account != p.runs[e.run].account;
        RunOkCommitted(p.w.t, p'.w.t, p.runs[r]);
      }
    }
  }

  lemma RunsSame(p: Pipeline, p': Pipeline)
    requires RunInv(p) && p'.w.t.metrics == p.w.t.metrics && p'.w.t.sync == p.w.t.sync
    requires p'.runs == p.runs || exists run :: p'.runs == p.runs - {run}
    ensures RunInv(p')
  {
    forall r | r in p'.runs ensures RunOk(p'.w.t, p'.runs[r]) {
      RunOkCommitted(p.w.t, p'.w.t, p.runs[r]);
    }
  }

  lemma RunsAfterAbort(p: Pipeline, e: Action)
    requires RunInv(p) && e.AbortRun?
    ensures RunInv(Step(p, e))
  {
    if e.run in p.runs { assert Abort(p, e.run).runs == p.runs - {e.run}; }
    RunsSame(p, Step(p, e));
  }

  lemma RunsAfterJob(p: Pipeline, e: Action)
    requires RunInv(p)
    requires e.StartInsights? || e.ReadAggregates? || e.CommitInsights? || e.StartLearning? || e.CommitLearning?
    ensures RunInv(Step(p, e))
  {
    JobFrame(p, e);
    RunsSame(p, Step(p, e));
  }

  lemma JobFrame(p: Pipeline, e: Action)
    requires e.StartInsights? || e.ReadAggregates? || e.CommitInsights? || e.StartLearning? || e.CommitLearning?
    ensures Step(p, e).runs == p.runs
    ensures Step(p, e).w.t.metrics == p.w.t.metrics && Step(p, e).w.t.sync == p.w.t.sync
  {
  }

  lemma StepKeepsRuns(p: Pipeline, e: Action)
    requires Inv(p.w) && LockInv(p) && RunInv(p)
    ensures RunInv(Step(p, e))
  {
    if e.Observe? { RunsObserved(p, e); }
    else if e.BeginRun? { RunsAfterBegin(p, e); }
    else if e.QueryRun? { RunsAfterQuery(p, e); }
    else if e.CommitRun? { RunsAfterCommit(p, e); }
    else if e.AbortRun? { RunsAfterAbort(p, e); }
    else { RunsAfterJob(p, e); }
  }

  // ---- history ----

  lemma HistoryAppended(p: Pipeline, p': Pipeline, c: Commit)
    requires HistoryInv(p) && p'.history == p.history + [c]
    requires forall a: Account {:trigger Revision(p'.w.t, a)} ::
      Revision(p'.w.t, a) == Revision(p.w.t, a) + if c.Aggregated? && c.account == a then 1 else 0
    requires c.revision == Revision(p'.w.t, c.account)
    ensures HistoryInv(p')
  {
    assert p'.history[..|p.history|] == p.history;
    forall a: Account ensures Revision(p'.w.t, a) == CountRuns(p'.history, a) {
      assert Revision(p.w.t, a) == CountRuns(p.history, a);
    }
    forall i | 0 <= i < |p'.history|
      ensures p'.history[i].revision == CountRuns(p'.history[..i + 1], p'.history[i].account)
    {
      if i < |p.history| {
        assert p'.history[..i + 1] == p.history[..i + 1];
      } else {
        assert p'.history[..i + 1] == p'.history;
      }
    }
  }

  lemma HistorySame(p: Pipeline, p': Pipeline)
    requires HistoryInv(p) && p'.history == p.history
    requires forall a: Account {:trigger Revision(p'.w.t, a)} :: Revision(p'.w.t, a) == Revision(p.w.t, a)
    ensures HistoryInv(p')
  {
    forall a: Account ensures Revision(p'.w.t, a) == CountRuns(p'.history, a) {
      assert Revision(p.w.t, a) == CountRuns(p.history, a);
    }
  }

  lemma HistoryAfterRun(p: Pipeline, e: Action)
    requires HistoryInv(p) && e.CommitRun?
    ensures HistoryInv(Step(p, e))
  {
    if CanCommitRun(p, e.run) {
      var p' := CommitAgg(p, e.run, e.asOf, e.families);
      HistoryAppended(p, p', Aggregated(p.runs[e.run].account, p.w.t.sync[p.runs[e.run].account].revision + 1,
                                        p.runs[e.run].slot, e.asOf));
    }
  }

  lemma HistoryAfterInsights(p: Pipeline, e: Action)
    requires HistoryInv(p) && e.CommitInsights?
    ensures HistoryInv(Step(p, e))
  {
    if CanCommitInsights(p, e.job) {
      var j := p.insightJobs[e.job];
      HistoryAppended(p, CommitIns(p, e.job, e.chosen, e.now), InsightsWritten(j.account, j.revision));
    }
  }

  lemma HistoryAfterLearning(p: Pipeline, e: Action)
    requires HistoryInv(p) && e.CommitLearning?
    ensures HistoryInv(Step(p, e))
  {
    if CanCommitLearning(p, e.job) {
      var j := p.learningJobs[e.job];
      HistoryAppended(p, CommitLearn(p, e.job, e.now), ProfileLearned(j.account, j.revision));
    }
  }

  lemma HistoryUntouched(p: Pipeline, e: Action)
    requires !e.CommitRun? && !e.CommitInsights? && !e.CommitLearning?
    ensures Step(p, e).history == p.history
  {
  }

  lemma HistoryAfterOther(p: Pipeline, e: Action)
    requires HistoryInv(p) && !e.CommitRun? && !e.CommitInsights? && !e.CommitLearning?
    ensures HistoryInv(Step(p, e))
  {
    HistoryUntouched(p, e);
    if e.Observe? { SyncFrame(p.w, e.e); } else { WorldSame(p, e); }
    HistorySame(p, Step(p, e));
  }

  lemma StepKeepsHistory(p: Pipeline, e: Action)
    requires HistoryInv(p)
    ensures HistoryInv(Step(p, e))
  {
    if e.CommitRun? { HistoryAfterRun(p, e); }
    else if e.CommitInsights? { HistoryAfterInsights(p, e); }
    else if e.CommitLearning? { HistoryAfterLearning(p, e); }
    else { HistoryAfterOther(p, e); }
  }

  // ---- the chain of triggers ----

  lemma ProducedGrows(h: seq<Commit>, h': seq<Commit>, a: Account, revision: nat, asOf: Time)
    requires h <= h' && Produced(h, a, revision, asOf)
    ensures Produced(h', a, revision, asOf)
  {
    var i :| 0 <= i < |h| && h[i].Aggregated? && h[i].account == a && h[i].revision == revision && h[i].asOf == asOf;
    assert h'[i] == h[i];
  }

  lemma {:induction false} RunsCountGrows(h: seq<Commit>, i: nat, a: Account)
    requires i <= |h|
    ensures CountRuns(h[..i], a) <= CountRuns(h, a)
  {
    if i < |h| {
      assert h[..|h| - 1][..i] == h[..i];
      RunsCountGrows(h[..|h| - 1], i, a);
    } else {
      assert h[..i] == h;
    }
  }

  /** No commit bears a revision above the current one, so the next revision's keys are unused. */
  lemma RevisionsBounded(p: Pipeline, i: nat)
    requires HistoryInv(p) && i < |p.history|
    ensures p.history[i].revision <= Revision(p.w.t, p.history[i].account)
  {
    RunsCountGrows(p.history, i + 1, p.history[i].account);
  }

  lemma ChainObserved(p: Pipeline, o: Event)
    requires ChainInv(p)
    ensures ChainInv(p.(w := Next(p.w, o)))
  {
    ObserveFrame(p.w, o);
  }

  lemma InsightsKeyUnused(p: Pipeline, a: Account, slot: Slot)
    requires HistoryInv(p) && ChainInv(p)
    ensures InsightsKey(a, Revision(p.w.t, a) + 1, slot) !in p.w.t.outbox
  {
    var k := InsightsKey(a, Revision(p.w.t, a) + 1, slot);
    if k in p.w.t.outbox {
      var i :| 0 <= i < |p.history|
        && p.history[i] == Aggregated(k.account, k.revision, k.slot, AsOf(p.w.t.outbox[k].payload));
      RevisionsBounded(p, i);
    }
  }

  lemma OutboxAfterRun(t: Tables, r: AggRun, revision: nat, asOf: Time)
    requires InsightsKey(r.account, revision, r.slot) !in t.outbox
    ensures var outbox' := CommitOutbox(t, r, revision, asOf);
      var key := InsightsKey(r.account, revision, r.slot);
      && key in outbox' && outbox'[key].payload == TriggerInsights(r.account, revision, r.slot, asOf)
      && (forall k | ChainKey(k) && k != key ::
            (k in outbox' <==> k in t.outbox) && (k in t.outbox ==> outbox'[k] == t.outbox[k]))
  {
  }

  lemma ChainExtended(p: Pipeline, p': Pipeline, c: Commit)
    requires ChainInv(p) && c.Aggregated? && p'.history == p.history + [c]
    requires var key := InsightsKey(c.account, c.revision, c.slot);
      && key in p'.w.t.outbox && p'.w.t.outbox[key].payload == TriggerInsights(c.account, c.revision, c.slot, c.asOf)
      && key !in p.w.t.outbox
      && (forall k | ChainKey(k) && k != key ::
            (k in p'.w.t.outbox <==> k in p.w.t.outbox) && (k in p.w.t.outbox ==> p'.w.t.outbox[k] == p.w.t.outbox[k]))
    ensures ChainInv(p')
  {
    var h, h', outbox, outbox' := p.history, p'.history, p.w.t.outbox, p'.w.t.outbox;
    assert h'[|h|] == c;
    assert forall x | x in h :: x in h';
    forall k | k in outbox' && (k.LearningKey? || k.RecommendationsKey?)
      ensures Produced(h', k.account, k.revision, AsOf(outbox'[k].payload))
    {
      ProducedGrows(h, h', k.account, k.revision, AsOf(outbox[k].payload));
    }
    forall i | 0 <= i < |h'| && h'[i].Aggregated?
      ensures var k := InsightsKey(h'[i].account, h'[i].revision, h'[i].slot);
        k in outbox' && outbox'[k].payload == TriggerInsights(h'[i].account, h'[i].revision, h'[i].slot, h'[i].asOf)
    {
      if i < |h| { assert h'[i] == h[i]; }
    }
  }

  lemma ChainAfterRun(p: Pipeline, run: nat, asOf: Time, families: map<AggKey, nat>)
    requires HistoryInv(p) && ChainInv(p) && CanCommitRun(p, run)
    ensures ChainInv(CommitAgg(p, run, asOf, families))
  {
    var r := p.runs[run];
    var revision := Revision(p.w.t, r.account) + 1;
    InsightsKeyUnused(p, r.account, r.slot);
    OutboxAfterRun(p.w.t, r, revision, asOf);
    ChainExtended(p, CommitAgg(p, run, asOf, families), Aggregated(r.account, revision, r.slot, asOf));
  }

  /** A downstream commit adds one trigger, carrying an asOf that the history produced. */
  lemma ChainAfterJob(p: Pipeline, p': Pipeline, key: DedupeKey, e: OutboxEvent, c: Commit)
    requires ChainInv(p) && (key.LearningKey? || key.RecommendationsKey?)
    requires Produced(p.history, key.account, key.revision, AsOf(e.payload))
    requires e.payload == if key.LearningKey? then TriggerLearning(key.account, key.revision, AsOf(e.payload))
                          else TriggerRecommendations(key.account, key.revision, AsOf(e.payload))
    requires p'.w.t.outbox == UpsertEvent(p.w.t.outbox, key, e) && p'.history == p.history + [c] && !c.Aggregated?
    ensures ChainInv(p')
  {
    assert forall x | x in p.history :: x in p'.history;
    forall k | k in p'.w.t.outbox && (k.LearningKey? || k.RecommendationsKey?)
      ensures Produced(p'.history, k.account, k.revision, AsOf(p'.w.t.outbox[k].payload))
    {
      ProducedGrows(p.history, p'.history, k.account, k.revision, AsOf(p'.w.t.outbox[k].payload));
    }
  }

  lemma ChainAfterInsights(p: Pipeline, e: Action)
    requires ChainInv(p) && JobInv(p) && e.CommitInsights?
    ensures ChainInv(Step(p, e))
  {
    if CanCommitInsights(p, e.job) {
      var j := p.insightJobs[e.job];
      assert InsightJobOk(p, j);
      ChainAfterJob(p, Step(p, e), LearningKey(j.account, j.revision),
                    OutboxEvent(TriggerLearning(j.account, j.revision, j.asOf), e.now), InsightsWritten(j.account, j.revision));
    }
  }

  lemma ChainAfterLearning(p: Pipeline, e: Action)
    requires ChainInv(p) && JobInv(p) && e.CommitLearning?
    ensures ChainInv(Step(p, e))
  {
    if CanCommitLearning(p, e.job) {
      var j := p.learningJobs[e.job];
      assert LearningJobOk(p, j);
      ChainAfterJob(p, Step(p, e), RecommendationsKey(j.account, j.revision),
                    OutboxEvent(TriggerRecommendations(j.account, j.revision, j.asOf), e.now), ProfileLearned(j.account, j.revision));
    }
  }

  lemma ChainSame(p: Pipeline, e: Action)
    requires ChainInv(p) && !e.Observe? && !e.CommitRun? && !e.CommitInsights? && !e.CommitLearning?
    ensures ChainInv(Step(p, e))
  {
    WorldSame(p, e);
    HistoryUntouched(p, e);
  }

  lemma ChainRun(p: Pipeline, e: Action)
    requires HistoryInv(p) && ChainInv(p) && e.CommitRun?
    ensures ChainInv(Step(p, e))
  {
    if CanCommitRun(p, e.run) { ChainAfterRun(p, e.run, e.asOf, e.families); }
  }

  lemma StepKeepsChain(p: Pipeline, e: Action)
    requires HistoryInv(p) && ChainInv(p) && JobInv(p)
    ensures ChainInv(Step(p, e))
  {
    if e.Observe? { ChainObserved(p, e.e); }
    else if e.CommitRun? { ChainRun(p, e); }
    else if e.CommitInsights? { ChainAfterInsights(p, e); }
    else if e.CommitLearning? { ChainAfterLearning(p, e); }
    else { ChainSame(p, e); }
  }

  // ---- jobs ----

  /** Nothing a job relies on changes except that its revision may become stale. */
  ghost predicate JobsSafe(p: Pipeline, p': Pipeline) {
    && p.history <= p'.history
    && (forall a {:trigger Revision(p'.w.t, a)} :: Revision(p'.w.t, a) >= Revision(p.w.t, a))
    && (forall a, slot {:trigger RowsAt(p'.aggregates, a, Revision(p.w.t, a), slot)} ::
          Revision(p'.w.t, a) == Revision(p.w.t, a) ==>
            RowsAt(p'.aggregates, a, Revision(p.w.t, a), slot) == RowsAt(p.aggregates, a, Revision(p.w.t, a), slot))
  }

  lemma OldJobsOk(p: Pipeline, p': Pipeline, j: InsightJob)
    requires JobsSafe(p, p') && InsightJobOk(p, j)
    ensures InsightJobOk(p', j)
  {
    ProducedGrows(p.history, p'.history, j.account, j.revision, j.asOf);
    assert Revision(p'.w.t, j.account) >= Revision(p.w.t, j.account);
    if j.revision == Revision(p'.w.t, j.account) {
      assert RowsAt(p'.aggregates, j.account, Revision(p.w.t, j.account), j.slot)
          == RowsAt(p.aggregates, j.account, Revision(p.w.t, j.account), j.slot);
    }
  }

  lemma OldLearningOk(p: Pipeline, p': Pipeline, j: LearningJob)
    requires JobsSafe(p, p') && LearningJobOk(p, j)
    ensures LearningJobOk(p', j)
  {
    ProducedGrows(p.history, p'.history, j.account, j.revision, j.asOf);
    assert Revision(p'.w.t, j.account) >= Revision(p.w.t, j.account);
  }

  lemma OldRowsOk(p: Pipeline, p': Pipeline)
    requires JobInv(p) && JobsSafe(p, p') && p'.aggregates == p.aggregates
    ensures forall k | k in p'.aggregates :: 1 <= k.revision <= Revision(p'.w.t, k.account)
  {
    forall k | k in p'.aggregates ensures 1 <= k.revision <= Revision(p'.w.t, k.account) {
      assert Revision(p'.w.t, k.account) >= Revision(p.w.t, k.account);
    }
  }

  lemma JobsKept(p: Pipeline, p': Pipeline)
    requires JobInv(p) && JobsSafe(p, p')
    requires forall k | k in p'.aggregates :: 1 <= k.revision <= Revision(p'.w.t, k.account)
    requires forall j | j in p'.insightJobs && !(j in p.insightJobs && p'.insightJobs[j] == p.insightJobs[j]) ::
      InsightJobOk(p', p'.insightJobs[j])
    requires forall j | j in p'.learningJobs && !(j in p.learningJobs && p'.learningJobs[j] == p.learningJobs[j]) ::
      LearningJobOk(p', p'.learningJobs[j])
    ensures JobInv(p')
  {
    forall j | j in p'.insightJobs ensures InsightJobOk(p', p'.insightJobs[j]) {
      if j in p.insightJobs && p'.insightJobs[j] == p.insightJobs[j] { OldJobsOk(p, p', p.insightJobs[j]); }
    }
    forall j | j in p'.learningJobs ensures LearningJobOk(p', p'.learningJobs[j]) {
      if j in p.learningJobs && p'.learningJobs[j] == p.learningJobs[j] { OldLearningOk(p, p', p.learningJobs[j]); }
    }
  }

  lemma OtherAccountsRows(aggregates: map<AggKey, AggRow>, r: AggRun, families: map<AggKey, nat>,
                          a: Account, revision: nat, slot: Slot)
    requires a != r.account && forall k | k in r.pending :: k.account == r.account
    ensures RowsAt(WithRows(aggregates, r, families), a, revision, slot) == RowsAt(aggregates, a, revision, slot)
  {
  }

  lemma RevisionAfterRun(p: Pipeline, run: nat, asOf: Time, families: map<AggKey, nat>, a: Account)
    requires CanCommitRun(p, run)
    ensures Revision(CommitAgg(p, run, asOf, families).w.t, a)
         == Revision(p.w.t, a) + if a == p.runs[run].account then 1 else 0
  {
  }

  lemma JobsAfterRun(p: Pipeline, run: nat, asOf: Time, families: map<AggKey, nat>)
    requires RunInv(p) && JobInv(p) && CanCommitRun(p, run)
    ensures JobInv(CommitAgg(p, run, asOf, families))
  {
    var p' := CommitAgg(p, run, asOf, families);
    var r := p.runs[run];
    assert RunOk(p.w.t, r);
    forall a {:trigger Revision(p'.w.t, a)} ensures Revision(p'.w.t, a) >= Revision(p.w.t, a) {
      RevisionAfterRun(p, run, asOf, families, a);
    }
    forall a, slot | Revision(p'.w.t, a) == Revision(p.w.t, a)
      ensures RowsAt(p'.aggregates, a, Revision(p.w.t, a), slot) == RowsAt(p.aggregates, a, Revision(p.w.t, a), slot)
    {
      RevisionAfterRun(p, run, asOf, families, a);
      OtherAccountsRows(p.aggregates, r, families, a, Revision(p.w.t, a), slot);
    }
    forall k | k in p'.aggregates ensures 1 <= k.revision <= Revision(p'.w.t, k.account) {
      RevisionAfterRun(p, run, asOf, families, k.account);
      if k !in r.pending { assert k in p.aggregates; }
    }
    JobsKept(p, p');
  }

  lemma JobsSafeWhenSame(p: Pipeline, p': Pipeline)
    requires JobInv(p) && p.history <= p'.history && p'.aggregates == p.aggregates
    requires forall a {:trigger Revision(p'.w.t, a)} :: Revision(p'.w.t, a) == Revision(p.w.t, a)
    requires forall j | j in p'.insightJobs && !(j in p.insightJobs && p'.insightJobs[j] == p.insightJobs[j]) ::
      InsightJobOk(p', p'.insightJobs[j])
    requires forall j | j in p'.learningJobs && !(j in p.learningJobs && p'.learningJobs[j] == p.learningJobs[j]) ::
      LearningJobOk(p', p'.learningJobs[j])
    ensures JobInv(p')
  {
    OldRowsOk(p, p');
    JobsKept(p, p');
  }

  lemma JobsObserved(p: Pipeline, e: Action)
    requires JobInv(p) && e.Observe?
    ensures JobInv(Step(p, e))
  {
    SyncFrame(p.w, e.e);
    JobsSafeWhenSame(p, p.(w := Next(p.w, e.e)));
  }

  lemma JobStarted(p: Pipeline, a: Account, revision: nat, slot: Slot)
    requires ChainInv(p) && InsightsKey(a, revision, slot) in p.w.t.outbox
    ensures Produced(p.history, a, revision, AsOf(p.w.t.outbox[InsightsKey(a, revision, slot)].payload))
  {
    assert Aggregated(a, revision, slot, AsOf(p.w.t.outbox[InsightsKey(a, revision, slot)].payload)) in p.history;
  }

  lemma StartedJobOk(p: Pipeline, job: nat, a: Account, revision: nat, slot: Slot)
    requires ChainInv(p) && CanStartInsights(p, job, a, revision, slot)
    ensures InsightJobOk(StartIns(p, job, a, revision, slot), StartIns(p, job, a, revision, slot).insightJobs[job])
  {
    JobStarted(p, a, revision, slot);
  }

  lemma StartKeepsJobs(p: Pipeline, job: nat, a: Account, revision: nat, slot: Slot)
    requires ChainInv(p) && JobInv(p) && CanStartInsights(p, job, a, revision, slot)
    ensures JobInv(StartIns(p, job, a, revision, slot))
  {
    StartedJobOk(p, job, a, revision, slot);
    JobsSafeWhenSame(p, StartIns(p, job, a, revision, slot));
  }

  lemma JobsAfterStart(p: Pipeline, e: Action)
    requires ChainInv(p) && JobInv(p) && e.StartInsights?
    ensures JobInv(Step(p, e))
  {
    if CanStartInsights(p, e.job, e.account, e.revision, e.slot) {
      StartKeepsJobs(p, e.job, e.account, e.revision, e.slot);
    }
  }

  lemma JobsAfterRead(p: Pipeline, e: Action)
    requires JobInv(p) && e.ReadAggregates?
    ensures JobInv(Step(p, e))
  {
    if CanRead(p, e.job) {
      assert InsightJobOk(p, p.insightJobs[e.job]);
      JobsSafeWhenSame(p, ReadAgg(p, e.job));
    }
  }

  lemma StartedLearningOk(p: Pipeline, job: nat, a: Account, revision: nat)
    requires ChainInv(p) && CanStartLearning(p, job, a, revision)
    ensures LearningJobOk(StartLearn(p, job, a, revision), StartLearn(p, job, a, revision).learningJobs[job])
  {
  }

  lemma StartKeepsLearning(p: Pipeline, job: nat, a: Account, revision: nat)
    requires ChainInv(p) && JobInv(p) && CanStartLearning(p, job, a, revision)
    ensures JobInv(StartLearn(p, job, a, revision))
  {
    StartedLearningOk(p, job, a, revision);
    JobsSafeWhenSame(p, StartLearn(p, job, a, revision));
  }

  lemma JobsAfterStartLearning(p: Pipeline, e: Action)
    requires ChainInv(p) && JobInv(p) && e.StartLearning?
    ensures JobInv(Step(p, e))
  {
    if CanStartLearning(p, e.job, e.account, e.revision) {
      StartKeepsLearning(p, e.job, e.account, e.revision);
    }
  }

  lemma JobsUntouched(p: Pipeline, p': Pipeline)
    requires JobInv(p) && p.history <= p'.history && p'.aggregates == p.aggregates && p'.w.t.sync == p.w.t.sync
    requires p'.insightJobs == p.insightJobs && p'.learningJobs == p.learningJobs
    ensures JobInv(p')
  {
    JobsSafeWhenSame(p, p');
  }

  lemma InsightTablesKept(p: Pipeline, job: nat, chosen: seq<AggKey>, now: Time)
    requires CanCommitInsights(p, job)
    ensures var p' := CommitIns(p, job, chosen, now);
      p'.insightJobs == p.insightJobs && p'.learningJobs == p.learningJobs && p'.aggregates == p.aggregates
      && p'.w.t.sync == p.w.t.sync && p.history <= p'.history
  {
  }

  lemma LearningTablesKept(p: Pipeline, job: nat, now: Time)
    requires CanCommitLearning(p, job)
    ensures var p' := CommitLearn(p, job, now);
      p'.insightJobs == p.insightJobs && p'.learningJobs == p.learningJobs && p'.aggregates == p.aggregates
      && p'.w.t.sync == p.w.t.sync && p.history <= p'.history
  {
  }

  lemma RunTablesKept(p: Pipeline, e: Action)
    requires e.BeginRun? || e.QueryRun? || e.AbortRun?
    ensures Step(p, e).insightJobs == p.insightJobs && Step(p, e).learningJobs == p.learningJobs
    ensures Step(p, e).aggregates == p.aggregates && Step(p, e).w.t.sync == p.w.t.sync && p.history <= Step(p, e).history
  {
  }

  lemma JobsAfterOther(p: Pipeline, e: Action)
    requires JobInv(p) && (e.CommitInsights? || e.CommitLearning? || e.BeginRun? || e.QueryRun? || e.AbortRun?)
    ensures JobInv(Step(p, e))
  {
    if e.CommitInsights? {
      if CanCommitInsights(p, e.job) { InsightTablesKept(p, e.job, e.chosen, e.now); }
    } else if e.CommitLearning? {
      if CanCommitLearning(p, e.job) { LearningTablesKept(p, e.job, e.now); }
    } else {
      RunTablesKept(p, e);
    }
    JobsUntouched(p, Step(p, e));
  }

  lemma JobsRun(p: Pipeline, e: Action)
    requires RunInv(p) && JobInv(p) && e.CommitRun?
    ensures JobInv(Step(p, e))
  {
    if CanCommitRun(p, e.run) { JobsAfterRun(p, e.run, e.asOf, e.families); }
  }

  lemma StepKeepsJobs(p: Pipeline, e: Action)
    requires RunInv(p) && ChainInv(p) && JobInv(p)
    ensures JobInv(Step(p, e))
  {
    if e.Observe? { JobsObserved(p, e); }
    else if e.CommitRun? { JobsRun(p, e); }
    else if e.StartInsights? { JobsAfterStart(p, e); }
    else if e.StartLearning? { JobsAfterStartLearning(p, e); }
    else if e.ReadAggregates? { JobsAfterRead(p, e); }
    else { JobsAfterOther(p, e); }
  }

  // ---- insights ----

  lemma {:induction false} AddedInsightsOk(insights: map<InsightKey, Insight>, rows: map<AggKey, AggRow>, chosen: seq<AggKey>)
    ensures var after := AddInsights(insights, rows, chosen);
      forall k | k in after :: (k in insights && after[k] == insights[k])
        || (var s := after[k].source;
            s in rows && after[k].evidence == rows[s] && k == KeyOf(s))
    ensures forall k | k in insights ::
      k in AddInsights(insights, rows, chosen)
      && AddInsights(insights, rows, chosen)[k] == insights[k]
  {
    if chosen != [] { AddedInsightsOk(insights, rows, chosen[..|chosen| - 1]); }
  }

  lemma StepKeepsInsights(p: Pipeline, e: Action)
    requires InsightInv(p)
    ensures InsightInv(Step(p, e))
  {
    if e.CommitInsights? && CanCommitInsights(p, e.job) {
      AddedInsightsOk(p.insights, p.insightJobs[e.job].rows.value, e.chosen);
    }
  }

  lemma StepKeepsPipeline(p: Pipeline, e: Action)
    requires PipelineInv(p)
    ensures PipelineInv(Step(p, e))
  {
    StepKeepsWorld(p, e);
    StepKeepsLocks(p, e);
    StepKeepsRuns(p, e);
    StepKeepsHistory(p, e);
    StepKeepsChain(p, e);
    StepKeepsJobs(p, e);
    StepKeepsInsights(p, e);
  }

  lemma {:induction false} RunAllKeepsPipeline(p: Pipeline, es: seq<Action>)
    requires PipelineInv(p)
    ensures PipelineInv(RunAll(p, es))
    decreases |es|
  {
    if es != [] {
      StepKeepsPipeline(p, es[0]);
      RunAllKeepsPipeline(Step(p, es[0]), es[1..]);
    }
  }

  lemma StartIsSafe()
    ensures PipelineInv(START)
  {
  }
}
