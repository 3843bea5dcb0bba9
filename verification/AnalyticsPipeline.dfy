/**
 The whole analytics chain on one database: observation workers capture metrics while aggregation
 runs, insight jobs and learning jobs take their steps, in any order.

 An aggregation run is one READ COMMITTED transaction of many statements: each statement sees what
 is committed when it starts, and the run's own rows become visible at its commit. The commit
 step covers the revision update, whose row lock keeps captures of the account out, up to COMMIT.
 */
module AnalyticsPipeline {
  import opened Common
  import opened AnalyticsTables
  import opened ObservationProtocol
  import opened ObservationSafety

  datatype Granularity = Daily | Weekly | Monthly
  datatype Dimension = Topic | Format | MediaType | PostLength | PublishHour | PublishDay

  datatype AggKey = AggKey(
    account: Account, dimension: Dimension, value: string, slot: Slot,
    granularity: Granularity, bucket: Time, revision: nat)

  /** Statistics columns filled by the family evaluation are one opaque value. */
  datatype AggRow = AggRow(sampleSize: nat, complementSize: nat, family: nat)

  datatype InsightKey = InsightKey(account: Account, revision: nat, dimension: Dimension, value: string, slot: Slot)
  datatype Insight = Insight(source: AggKey, evidence: AggRow)

  /** A row computed by the run, with the posts its two groups ranged over. */
  datatype Computed = Computed(row: AggRow, subject: set<Post>, complement: set<Post>)

  datatype AggRun = AggRun(
    account: Account, slot: Slot,
    snapshot: nat,               // ingestion generation read at the start
    target: nat,                 // revision the rows are stamped with
    base: nat,                   // history: metrics committed at that read
    views: seq<seq<Metric>>,     // history: the metrics each statement saw
    pending: map<AggKey, Computed>)

  datatype InsightJob = InsightJob(account: Account, revision: nat, slot: Slot, asOf: Time, rows: Option<map<AggKey, AggRow>>)
  datatype LearningJob = LearningJob(account: Account, revision: nat, asOf: Time)

  datatype Commit =
    | Aggregated(account: Account, revision: nat, slot: Slot, asOf: Time)
    | InsightsWritten(account: Account, revision: nat)
    | ProfileLearned(account: Account, revision: nat)

  datatype Pipeline = Pipeline(
    w: World,
    aggregates: map<AggKey, AggRow>,
    insights: map<InsightKey, Insight>,
    locks: map<Account, nat>,
    runs: map<nat, AggRun>,
    insightJobs: map<nat, InsightJob>,
    learningJobs: map<nat, LearningJob>,
    history: seq<Commit>)

  datatype Action =
    | Observe(e: Event)
    | BeginRun(run: nat, account: Account, slot: Slot)
    | QueryRun(run: nat, dimension: Dimension, value: string, granularity: Granularity, bucket: Time,
               subject: set<Post>, complement: set<Post>)
    | CommitRun(run: nat, asOf: Time, families: map<AggKey, nat>)
    | AbortRun(run: nat)
    | StartInsights(job: nat, account: Account, revision: nat, slot: Slot)
    | ReadAggregates(job: nat)
    | CommitInsights(job: nat, chosen: seq<AggKey>, now: Time)
    | StartLearning(job: nat, account: Account, revision: nat)
    | CommitLearning(job: nat, now: Time)

  const START := Pipeline(EMPTY, map[], map[], map[], map[], map[], map[], [])

  // ---- aggregation ----

  function CohortCount(metrics: seq<Metric>, a: Account, slot: Slot, posts: set<Post>): nat {
    if metrics == [] then 0
    else
      var m := metrics[|metrics| - 1];
      CohortCount(metrics[..|metrics| - 1], a, slot, posts)
      + if m.account == a && m.observation.slot == slot && m.observation.post in posts then 1 else 0
  }

  /** The lock attempt does not wait, and the sync row must exist. */
  predicate CanBegin(p: Pipeline, run: nat, a: Account) {
    run !in p.runs && a !in p.locks && a in p.w.t.sync
  }

  function Begin(p: Pipeline, run: nat, a: Account, slot: Slot): Pipeline
    requires CanBegin(p, run, a)
  {
    var row := p.w.t.sync[a];
    p.(locks := p.locks[a := run],
       runs := p.runs[run := AggRun(a, slot, row.generation, row.revision + 1, |p.w.t.metrics|, [], map[])])
  }

  function Query(p: Pipeline, e: Action): Pipeline
    requires e.QueryRun? && e.run in p.runs
  {
    var r := p.runs[e.run];
    var seen := p.w.t.metrics;
    var key := AggKey(r.account, e.dimension, e.value, r.slot, e.granularity, e.bucket, r.target);
    var row := AggRow(CohortCount(seen, r.account, r.slot, e.subject), CohortCount(seen, r.account, r.slot, e.complement), 0);
    p.(runs := p.runs[e.run := r.(views := r.views + [seen],
                                  pending := r.pending[key := Computed(row, e.subject, e.complement)])])
  }

  /** The run's rows join the table; its family evaluation may restate any row of its account and slot. */
  function WithRows(aggregates: map<AggKey, AggRow>, r: AggRun, families: map<AggKey, nat>): map<AggKey, AggRow> {
    map k | k in aggregates.Keys + r.pending.Keys ::
      var row := if k in r.pending then r.pending[k].row else aggregates[k];
      if k in families && k.account == r.account && k.slot == r.slot then row.(family := families[k]) else row
  }

  function CommitOutbox(t: Tables, r: AggRun, revision: nat, asOf: Time): map<DedupeKey, OutboxEvent> {
    var g := Generation(t, r.account);
    var followed :=
      if g > r.snapshot
      then UpsertEvent(t.outbox, AggregateKey(r.account, g, r.slot), OutboxEvent(TriggerAggregation(r.account, r.slot, g), asOf))
      else t.outbox;
    UpsertEvent(followed, InsightsKey(r.account, revision, r.slot),
                OutboxEvent(TriggerInsights(r.account, revision, r.slot, asOf), asOf))
  }

  predicate CanCommitRun(p: Pipeline, run: nat) {
    run in p.runs && p.runs[run].account in p.w.t.sync
  }

  function CommitAgg(p: Pipeline, run: nat, asOf: Time, families: map<AggKey, nat>): Pipeline
    requires CanCommitRun(p, run)
  {
    var r := p.runs[run];
    var row := p.w.t.sync[r.account];
    var revision := row.revision + 1;
    var t' := p.w.t.(
      sync := p.w.t.sync[r.account := row.(revision := revision, lastAggregationAt := Some(asOf))],
      outbox := CommitOutbox(p.w.t, r, revision, asOf));
    p.(w := p.w.(t := t'),
       aggregates := WithRows(p.aggregates, r, families),
       locks := p.locks - {r.account},
       runs := p.runs - {run},
       history := p.history + [Aggregated(r.account, revision, r.slot, asOf)])
  }

  // ---- insights and learning ----

  /** Rows the insight query selects for a revision and slot; the evidence thresholds come later. */
  function RowsAt(aggregates: map<AggKey, AggRow>, a: Account, revision: nat, slot: Slot): map<AggKey, AggRow> {
    map k | k in aggregates && k.account == a && k.revision == revision && k.slot == slot && k.granularity == Monthly
      :: aggregates[k]
  }

  /** The idempotency key of the insight a row supports; the bucket date is not part of it. */
  function KeyOf(k: AggKey): InsightKey {
    InsightKey(k.account, k.revision, k.dimension, k.value, k.slot)
  }

  /** Upsert with an empty update, in the order of the candidates. */
  function AddInsights(insights: map<InsightKey, Insight>, rows: map<AggKey, AggRow>, chosen: seq<AggKey>)
    : map<InsightKey, Insight>
  {
    if chosen == [] then insights
    else
      var before := AddInsights(insights, rows, chosen[..|chosen| - 1]);
      var k := chosen[|chosen| - 1];
      var key := KeyOf(k);
      if k !in rows || key in before then before else before[key := Insight(k, rows[k])]
  }

  predicate CanCommitInsights(p: Pipeline, job: nat) {
    job in p.insightJobs && p.insightJobs[job].rows.Some?
    && Revision(p.w.t, p.insightJobs[job].account) == p.insightJobs[job].revision
  }

  function CommitIns(p: Pipeline, job: nat, chosen: seq<AggKey>, now: Time): Pipeline
    requires CanCommitInsights(p, job)
  {
    var j := p.insightJobs[job];
    var event := OutboxEvent(TriggerLearning(j.account, j.revision, j.asOf), now);
    p.(w := p.w.(t := p.w.t.(outbox := UpsertEvent(p.w.t.outbox, LearningKey(j.account, j.revision), event))),
       insights := AddInsights(p.insights, j.rows.value, chosen),
       history := p.history + [InsightsWritten(j.account, j.revision)])
  }

  predicate CanCommitLearning(p: Pipeline, job: nat) {
    job in p.learningJobs && Revision(p.w.t, p.learningJobs[job].account) == p.learningJobs[job].revision
  }

  function CommitLearn(p: Pipeline, job: nat, now: Time): Pipeline
    requires CanCommitLearning(p, job)
  {
    var j := p.learningJobs[job];
    var event := OutboxEvent(TriggerRecommendations(j.account, j.revision, j.asOf), now);
    p.(w := p.w.(t := p.w.t.(outbox := UpsertEvent(p.w.t.outbox, RecommendationsKey(j.account, j.revision), event))),
       history := p.history + [ProfileLearned(j.account, j.revision)])
  }

  /** A job is delivered with the payload of an outbox row, and goes on only if the revision matches. */
  predicate CanStartInsights(p: Pipeline, job: nat, a: Account, revision: nat, slot: Slot) {
    var key := InsightsKey(a, revision, slot);
    && job !in p.insightJobs
    && key in p.w.t.outbox && p.w.t.outbox[key].payload.TriggerInsights?
    && Revision(p.w.t, a) == revision
  }

  function StartIns(p: Pipeline, job: nat, a: Account, revision: nat, slot: Slot): Pipeline
    requires CanStartInsights(p, job, a, revision, slot)
  {
    var asOf := p.w.t.outbox[InsightsKey(a, revision, slot)].payload.asOf;
    p.(insightJobs := p.insightJobs[job := InsightJob(a, revision, slot, asOf, None)])
  }

  predicate CanRead(p: Pipeline, job: nat) {
    job in p.insightJobs && p.insightJobs[job].rows == None
  }

  function ReadAgg(p: Pipeline, job: nat): Pipeline
    requires CanRead(p, job)
  {
    var j := p.insightJobs[job];
    p.(insightJobs := p.insightJobs[job := j.(rows := Some(RowsAt(p.aggregates, j.account, j.revision, j.slot)))])
  }

  predicate CanStartLearning(p: Pipeline, job: nat, a: Account, revision: nat) {
    var key := LearningKey(a, revision);
    && job !in p.learningJobs
    && key in p.w.t.outbox && p.w.t.outbox[key].payload.TriggerLearning?
    && Revision(p.w.t, a) == revision
  }

  function StartLearn(p: Pipeline, job: nat, a: Account, revision: nat): Pipeline
    requires CanStartLearning(p, job, a, revision)
  {
    p.(learningJobs := p.learningJobs[job := LearningJob(a, revision, p.w.t.outbox[LearningKey(a, revision)].payload.asOf)])
  }

  function Abort(p: Pipeline, run: nat): Pipeline
    requires run in p.runs
  {
    p.(locks := p.locks - {p.runs[run].account}, runs := p.runs - {run})
  }

  function Step(p: Pipeline, e: Action): Pipeline {
    match e
    case Observe(o) => p.(w := Next(p.w, o))
    case BeginRun(run, a, slot) => if CanBegin(p, run, a) then Begin(p, run, a, slot) else p
    case QueryRun(run, _, _, _, _, _, _) => if run in p.runs then Query(p, e) else p
    case CommitRun(run, asOf, families) => if CanCommitRun(p, run) then CommitAgg(p, run, asOf, families) else p
    case AbortRun(run) => if run in p.runs then Abort(p, run) else p
    case StartInsights(job, a, revision, slot) =>
      if CanStartInsights(p, job, a, revision, slot) then StartIns(p, job, a, revision, slot) else p
    case ReadAggregates(job) => if CanRead(p, job) then ReadAgg(p, job) else p
    case CommitInsights(job, chosen, now) => if CanCommitInsights(p, job) then CommitIns(p, job, chosen, now) else p
    case StartLearning(job, a, revision) =>
      if CanStartLearning(p, job, a, revision) then StartLearn(p, job, a, revision) else p
    case CommitLearning(job, now) => if CanCommitLearning(p, job) then CommitLearn(p, job, now) else p
  }

  function RunAll(p: Pipeline, es: seq<Action>): Pipeline
    decreases |es|
  {
    if es == [] then p else RunAll(Step(p, es[0]), es[1..])
  }

  // ---- invariants ----

  /** One open run per account, and it is the one that holds the lock. */
  ghost predicate LockInv(p: Pipeline) {
    && (forall r | r in p.runs :: p.runs[r].account in p.locks && p.locks[p.runs[r].account] == r)
    && (forall a | a in p.locks :: p.locks[a] in p.runs && p.runs[p.locks[a]].account == a)
  }

  /** The metrics of the account split at `base` into those within the snapshot and later ones. */
  ghost predicate SnapshotOk(metrics: seq<Metric>, r: AggRun) {
    && r.base <= |metrics|
    && (forall i | 0 <= i < |metrics| && metrics[i].account == r.account ::
          metrics[i].generation <= r.snapshot <==> i < r.base)
  }

  ghost predicate ReadsOk(metrics: seq<Metric>, r: AggRun) {
    && (forall i | 0 <= i < |r.views| :: r.base <= |r.views[i]| && r.views[i] <= metrics)
    && (forall k | k in r.pending ::
          && k.account == r.account && k.slot == r.slot && k.revision == r.target
          && var c := r.pending[k];
             exists i :: 0 <= i < |r.views|
               && c.row.sampleSize == CohortCount(r.views[i], r.account, r.slot, c.subject)
               && c.row.complementSize == CohortCount(r.views[i], r.account, r.slot, c.complement))
  }

  ghost predicate RunOk(t: Tables, r: AggRun) {
    && r.account in t.sync
    && r.target == t.sync[r.account].revision + 1
    && r.snapshot <= t.sync[r.account].generation
    && SnapshotOk(t.metrics, r)
    && ReadsOk(t.metrics, r)
  }

  ghost predicate RunInv(p: Pipeline) {
    forall r | r in p.runs :: RunOk(p.w.t, p.runs[r])
  }

  function CountRuns(history: seq<Commit>, a: Account): nat {
    if history == [] then 0
    else
      var c := history[|history| - 1];
      CountRuns(history[..|history| - 1], a) + if c.Aggregated? && c.account == a then 1 else 0
  }

  /** Runs take the revisions 1, 2, 3, ...; every other commit bears the revision of the last run. */
  ghost predicate HistoryInv(p: Pipeline) {
    && (forall a: Account {:trigger Revision(p.w.t, a)} :: Revision(p.w.t, a) == CountRuns(p.history, a))
    && (forall i | 0 <= i < |p.history| ::
          p.history[i].revision == CountRuns(p.history[..i + 1], p.history[i].account))
  }

  ghost predicate Produced(history: seq<Commit>, a: Account, revision: nat, asOf: Time) {
    exists i :: 0 <= i < |history| && history[i].Aggregated?
      && history[i].account == a && history[i].revision == revision && history[i].asOf == asOf
  }

  /** Each run has its insights trigger, and every downstream trigger repeats the asOf of its run. */
  ghost predicate ChainInv(p: Pipeline) {
    var outbox := p.w.t.outbox;
    && (forall i | 0 <= i < |p.history| && p.history[i].Aggregated? ::
          var c := p.history[i];
          var k := InsightsKey(c.account, c.revision, c.slot);
          k in outbox && outbox[k].payload == TriggerInsights(c.account, c.revision, c.slot, c.asOf))
    && (forall k | k in outbox && k.InsightsKey? ::
          Aggregated(k.account, k.revision, k.slot, AsOf(outbox[k].payload)) in p.history
          && outbox[k].payload == TriggerInsights(k.account, k.revision, k.slot, AsOf(outbox[k].payload)))
    && (forall k | k in outbox && k.LearningKey? ::
          Produced(p.history, k.account, k.revision, AsOf(outbox[k].payload))
          && outbox[k].payload == TriggerLearning(k.account, k.revision, AsOf(outbox[k].payload)))
    && (forall k | k in outbox && k.RecommendationsKey? ::
          Produced(p.history, k.account, k.revision, AsOf(outbox[k].payload))
          && outbox[k].payload == TriggerRecommendations(k.account, k.revision, AsOf(outbox[k].payload)))
  }

  function AsOf(p: Payload): Time {
    if p.TriggerInsights? || p.TriggerLearning? || p.TriggerRecommendations? then p.asOf else 0
  }

  /** Aggregate rows belong to committed revisions; a job's copy is current while its revision is. */
  ghost predicate JobInv(p: Pipeline) {
    && (forall k | k in p.aggregates :: 1 <= k.revision <= Revision(p.w.t, k.account))
    && (forall j | j in p.insightJobs :: InsightJobOk(p, p.insightJobs[j]))
    && (forall j | j in p.learningJobs :: LearningJobOk(p, p.learningJobs[j]))
  }

  ghost predicate InsightJobOk(p: Pipeline, j: InsightJob) {
    && j.revision <= Revision(p.w.t, j.account)
    && Produced(p.history, j.account, j.revision, j.asOf)
    && (j.rows.Some? && j.revision == Revision(p.w.t, j.account) ==>
          j.rows.value == RowsAt(p.aggregates, j.account, j.revision, j.slot))
  }

  ghost predicate LearningJobOk(p: Pipeline, j: LearningJob) {
    && j.revision <= Revision(p.w.t, j.account)
    && Produced(p.history, j.account, j.revision, j.asOf)
  }

  ghost predicate InsightInv(p: Pipeline) {
    forall k | k in p.insights ::
      var s := p.insights[k].source;
      k == KeyOf(s)
  }

  ghost predicate PipelineInv(p: Pipeline) {
    Inv(p.w) && LockInv(p) && RunInv(p) && HistoryInv(p) && ChainInv(p) && JobInv(p) && InsightInv(p)
  }
}
