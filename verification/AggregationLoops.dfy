/** The loops of one aggregation run and of one insight job, over the rows their queries return. */
module AggregationLoops {
  import opened Common
  import opened AnalyticsTables
  import opened AnalyticsPipeline
  import opened AnalyticsPipelineTheorems

  const GRANULARITIES := [Daily, Weekly, Monthly]
  const DIMENSIONS := [Topic, Format, MediaType, PostLength, PublishHour, PublishDay]

  datatype BucketRow = BucketRow(bucket: Time, value: string)
  datatype Stats = Stats(sample: nat, complement: nat)

  /** Each query runs once per run, so a function of its arguments is what that statement saw. */
  type BucketQuery = (Granularity, Dimension) -> seq<BucketRow>
  type StatsQuery = (Granularity, Dimension, BucketRow) -> Stats

  lemma AllGranularities(g: Granularity)
    ensures g in GRANULARITIES
  {
    assert GRANULARITIES[0] == Daily && GRANULARITIES[1] == Weekly && GRANULARITIES[2] == Monthly;
  }

  lemma AllDimensions(d: Dimension)
    ensures d in DIMENSIONS
  {
    assert DIMENSIONS[0] == Topic && DIMENSIONS[1] == Format && DIMENSIONS[2] == MediaType;
    assert DIMENSIONS[3] == PostLength && DIMENSIONS[4] == PublishHour && DIMENSIONS[5] == PublishDay;
  }

  ghost predicate Distinct<T>(s: seq<T>) {
    forall i, j | 0 <= i < j < |s| :: s[i] != s[j]
  }

  /** The bucket dates of the rows, in the order in which they are first seen. */
  function Buckets(rows: seq<BucketRow>): seq<Time> {
    if rows == [] then []
    else
      var before, b := Buckets(rows[..|rows| - 1]), rows[|rows| - 1].bucket;
      if b in before then before else before + [b]
  }

  /** The values of a bucket, in the order in which they are first seen; an empty value names no candidate. */
  function ValuesIn(rows: seq<BucketRow>, b: Time): seq<string> {
    if rows == [] then []
    else
      var before, r := ValuesIn(rows[..|rows| - 1], b), rows[|rows| - 1];
      if r.bucket != b || r.value == "" || r.value in before then before else before + [r.value]
  }

  predicate FirstAt(rows: seq<BucketRow>, b: Time, n: nat) {
    n < |rows| && rows[n].bucket == b && forall m | 0 <= m < n :: rows[m].bucket != b
  }

  /** Exactly the bucket dates of the rows, once each. */
  lemma {:induction false} BucketsAre(rows: seq<BucketRow>)
    ensures Distinct(Buckets(rows))
    ensures forall b :: b in Buckets(rows) <==> exists r :: r in rows && r.bucket == b
  {
    if rows != [] {
      var front, last := rows[..|rows| - 1], rows[|rows| - 1];
      BucketsAre(front);
      assert rows == front + [last];
      forall b ensures b in Buckets(rows) <==> exists r :: r in rows && r.bucket == b {
        if b == last.bucket { assert last in rows; }
        if r :| r in front && r.bucket == b { assert r in rows; }
      }
    }
  }

  /** Earlier in the order means first seen earlier. */
  lemma {:induction false} BucketsInOrder(rows: seq<BucketRow>, i: nat, j: nat) returns (m: nat, n: nat)
    requires i < j < |Buckets(rows)|
    ensures FirstAt(rows, Buckets(rows)[i], m) && FirstAt(rows, Buckets(rows)[j], n) && m < n
  {
    var front, last := rows[..|rows| - 1], rows[|rows| - 1];
    if j < |Buckets(front)| {
      m, n := BucketsInOrder(front, i, j);
    } else {
      m := FirstOf(front, Buckets(front)[i]);
      n := |front|;
      assert forall k | 0 <= k < |front| :: rows[k] == front[k] && rows[k] in front;
      BucketsAre(front);
    }
  }

  lemma {:induction false} FirstOf(rows: seq<BucketRow>, b: Time) returns (n: nat)
    requires b in Buckets(rows)
    ensures FirstAt(rows, b, n)
  {
    var front := rows[..|rows| - 1];
    if b in Buckets(front) {
      n := FirstOf(front, b);
    } else {
      n := |front|;
      BucketsAre(front);
      assert forall k | 0 <= k < |front| :: rows[k] == front[k] && rows[k] in front;
    }
  }

  /** Exactly the values of the bucket's rows but the empty one, once each. */
  lemma {:induction false} ValuesAre(rows: seq<BucketRow>, b: Time)
    ensures Distinct(ValuesIn(rows, b))
    ensures forall v :: v in ValuesIn(rows, b) <==> BucketRow(b, v) in rows && v != ""
  {
    if rows != [] {
      var front, last := rows[..|rows| - 1], rows[|rows| - 1];
      ValuesAre(front, b);
      assert rows == front + [last] && last == BucketRow(last.bucket, last.value);
    }
  }

  /** Group dimension values by bucket date: buckets and values occur once, in the order in which they were first seen. */
  method GroupByBucket(rows: seq<BucketRow>) returns (order: seq<Time>, buckets: map<Time, seq<string>>)
    ensures order == Buckets(rows)
    ensures forall b :: b in buckets <==> b in order
    ensures forall b | b in buckets :: buckets[b] == ValuesIn(rows, b)
  {
    order, buckets := [], map[];
    for i := 0 to |rows|
      invariant order == Buckets(rows[..i])
      invariant forall b :: b in buckets <==> b in order
      invariant forall b | b in buckets :: buckets[b] == ValuesIn(rows[..i], b)
    {
      var row := rows[i];
      assert rows[..i + 1][..i] == rows[..i];
      if row.bucket !in buckets {
        NoValues(rows[..i], row.bucket);
        order := order + [row.bucket];
        buckets := buckets[row.bucket := []];
      }
      if row.value != "" && row.value !in buckets[row.bucket] {
        buckets := buckets[row.bucket := buckets[row.bucket] + [row.value]];
      }
    }
    assert rows[..|rows|] == rows;
  }

  lemma {:induction false} NoValues(rows: seq<BucketRow>, b: Time)
    requires b !in Buckets(rows)
    ensures ValuesIn(rows, b) == []
  {
    if rows != [] { NoValues(rows[..|rows| - 1], b); }
  }

  /** The candidates that one (granularity, dimension) pass over its rows has to write. */
  ghost predicate Candidate(rows: seq<BucketRow>, k: AggKey) {
    BucketRow(k.bucket, k.value) in rows && k.value != ""
  }

  /** An update keeps the family column; a new row starts with none. */
  function Put(m: map<AggKey, AggRow>, k: AggKey, stats: StatsQuery): map<AggKey, AggRow> {
    var s := stats(k.granularity, k.dimension, BucketRow(k.bucket, k.value));
    m[k := AggRow(s.sample, s.complement, if k in m then m[k].family else 0)]
  }

  function PutAll(m: map<AggKey, AggRow>, ks: seq<AggKey>, stats: StatsQuery): map<AggKey, AggRow> {
    if ks == [] then m else Put(PutAll(m, ks[..|ks| - 1], stats), ks[|ks| - 1], stats)
  }

  lemma {:induction false} PutAllAppend(m: map<AggKey, AggRow>, xs: seq<AggKey>, ys: seq<AggKey>, stats: StatsQuery)
    ensures PutAll(m, xs + ys, stats) == PutAll(PutAll(m, xs, stats), ys, stats)
  {
    if ys == [] {
      assert xs + ys == xs;
    } else {
      assert (xs + ys)[..|xs + ys| - 1] == xs + ys[..|ys| - 1];
      PutAllAppend(m, xs, ys[..|ys| - 1], stats);
    }
  }

  /** From `before` to `after` exactly the rows of `written` have been written, with their own statistics. */
  ghost predicate Wrote(before: map<AggKey, AggRow>, after: map<AggKey, AggRow>, written: seq<AggKey>, stats: StatsQuery) {
    && (forall k :: k in after <==> k in before || k in written)
    && (forall k | k in before && k !in written :: after[k] == before[k])
    && (forall k | k in written ::
          var s := stats(k.granularity, k.dimension, BucketRow(k.bucket, k.value));
          after[k] == AggRow(s.sample, s.complement, if k in before then before[k].family else 0))
  }

  lemma {:induction false} PutAllWrote(m: map<AggKey, AggRow>, ks: seq<AggKey>, stats: StatsQuery)
    ensures Wrote(m, PutAll(m, ks, stats), ks, stats)
  {
    if ks != [] {
      PutAllWrote(m, ks[..|ks| - 1], stats);
      assert ks == ks[..|ks| - 1] + [ks[|ks| - 1]];
    }
  }

  function BucketKeys(a: Account, slot: Slot, target: nat, g: Granularity, d: Dimension, b: Time, values: seq<string>): (ks: seq<AggKey>)
    ensures forall k :: k in ks <==> k == AggKey(a, d, k.value, slot, g, b, target) && k.value in values
  {
    if values == [] then []
    else
      BucketKeys(a, slot, target, g, d, b, values[..|values| - 1])
      + [AggKey(a, d, values[|values| - 1], slot, g, b, target)]
  }

  /** The keys of one pass, bucket by bucket. */
  function PassKeys(a: Account, slot: Slot, target: nat, g: Granularity, d: Dimension, rows: seq<BucketRow>, order: seq<Time>): seq<AggKey> {
    if order == [] then []
    else
      var b := order[|order| - 1];
      PassKeys(a, slot, target, g, d, rows, order[..|order| - 1]) + BucketKeys(a, slot, target, g, d, b, ValuesIn(rows, b))
  }

  lemma {:induction false} PassKeysAre(a: Account, slot: Slot, target: nat, g: Granularity, d: Dimension, rows: seq<BucketRow>, order: seq<Time>, k: AggKey)
    ensures k in PassKeys(a, slot, target, g, d, rows, order) <==>
      k == AggKey(a, d, k.value, slot, g, k.bucket, target) && Candidate(rows, k) && k.bucket in order
  {
    if order != [] {
      PassKeysAre(a, slot, target, g, d, rows, order[..|order| - 1], k);
      KeysOfBucket(a, slot, target, g, d, order[|order| - 1], rows);
      assert order == order[..|order| - 1] + [order[|order| - 1]];
    }
  }

  /** A pass over the buckets of its rows reaches every candidate. */
  lemma PassCovers(a: Account, slot: Slot, target: nat, g: Granularity, d: Dimension, rows: seq<BucketRow>)
    ensures forall k :: k in PassKeys(a, slot, target, g, d, rows, Buckets(rows)) <==>
      k == AggKey(a, d, k.value, slot, g, k.bucket, target) && Candidate(rows, k)
  {
    BucketsAre(rows);
    forall k: AggKey
      ensures k in PassKeys(a, slot, target, g, d, rows, Buckets(rows)) <==>
        k == AggKey(a, d, k.value, slot, g, k.bucket, target) && Candidate(rows, k)
    {
      PassKeysAre(a, slot, target, g, d, rows, Buckets(rows), k);
      if Candidate(rows, k) { assert BucketRow(k.bucket, k.value).bucket == k.bucket; }
    }
  }

  class AggregateTable {
    var rows: map<AggKey, AggRow>

    constructor ()
      ensures rows == map[]
    {
      rows := map[];
    }

    method UpsertRow(k: AggKey, stats: StatsQuery)
      modifies this
      ensures rows == Put(old(rows), k, stats)
    {
      var s := stats(k.granularity, k.dimension, BucketRow(k.bucket, k.value));
      if k in rows {
        rows := rows[k := rows[k].(sampleSize := s.sample, complementSize := s.complement)];
      } else {
        rows := rows[k := AggRow(s.sample, s.complement, 0)];
      }
    }

    /** One bucket: a statistics query and an upsert for each of its values. */
    method WriteBucket(a: Account, slot: Slot, target: nat, g: Granularity, d: Dimension,
                       b: Time, values: seq<string>, stats: StatsQuery)
      modifies this
      ensures rows == PutAll(old(rows), BucketKeys(a, slot, target, g, d, b, values), stats)
    {
      for i := 0 to |values|
        invariant rows == PutAll(old(rows), BucketKeys(a, slot, target, g, d, b, values[..i]), stats)
      {
        var k := AggKey(a, d, values[i], slot, g, b, target);
        BucketKeysSnoc(a, slot, target, g, d, b, values, i);
        UpsertRow(k, stats);
      }
      assert values[..|values|] == values;
    }

    /** One pass: every bucket of the rows its query returned. */
    method WritePass(a: Account, slot: Slot, target: nat, g: Granularity, d: Dimension,
                     bucketRows: seq<BucketRow>, stats: StatsQuery)
      returns (ghost written: seq<AggKey>)
      modifies this
      ensures rows == PutAll(old(rows), written, stats)
      ensures forall k :: k in written <==>
        k == AggKey(a, d, k.value, slot, g, k.bucket, target) && Candidate(bucketRows, k)
    {
      var order, buckets := GroupByBucket(bucketRows);
      for i := 0 to |order|
        invariant rows == PutAll(old(rows), PassKeys(a, slot, target, g, d, bucketRows, order[..i]), stats)
      {
        var b := order[i];
        assert order[..i + 1][..i] == order[..i] && b in order;
        WriteBucket(a, slot, target, g, d, b, buckets[b], stats);
        PutAllAppend(old(rows), PassKeys(a, slot, target, g, d, bucketRows, order[..i]),
                     BucketKeys(a, slot, target, g, d, b, ValuesIn(bucketRows, b)), stats);
      }
      assert order[..|order|] == order;
      written := PassKeys(a, slot, target, g, d, bucketRows, order);
      PassCovers(a, slot, target, g, d, bucketRows);
    }

    /**
     All passes of a run: the rows of the target revision are exactly the non-empty candidates the
     queries returned, each with the statistics its own query saw; older rows are as before.
     */
    method ExecuteQueries(a: Account, slot: Slot, target: nat, query: BucketQuery, stats: StatsQuery)
      returns (ghost written: seq<AggKey>)
      modifies this
      ensures Wrote(old(rows), rows, written, stats)
      ensures forall k :: k in written <==>
        k.account == a && k.slot == slot && k.revision == target && Candidate(query(k.granularity, k.dimension), k)
    {
      written := [];
      for i := 0 to |GRANULARITIES|
        invariant rows == PutAll(old(rows), written, stats)
        invariant forall k :: k in written <==>
          k.account == a && k.slot == slot && k.revision == target && Candidate(query(k.granularity, k.dimension), k)
          && k.granularity in GRANULARITIES[..i]
      {
        var g := GRANULARITIES[i];
        assert GRANULARITIES[..i + 1] == GRANULARITIES[..i] + [g];
        for j := 0 to |DIMENSIONS|
          invariant rows == PutAll(old(rows), written, stats)
          invariant forall k :: k in written <==>
            k.account == a && k.slot == slot && k.revision == target && Candidate(query(k.granularity, k.dimension), k)
            && (k.granularity in GRANULARITIES[..i] || (k.granularity == g && k.dimension in DIMENSIONS[..j]))
        {
          var d := DIMENSIONS[j];
          assert DIMENSIONS[..j + 1] == DIMENSIONS[..j] + [d];
          var bucketRows := query(g, d);
          if |bucketRows| != 0 {
            ghost var more := WritePass(a, slot, target, g, d, bucketRows, stats);
            PutAllAppend(old(rows), written, more, stats);
            written := written + more;
          }
        }
        forall k: AggKey ensures k.dimension in DIMENSIONS[..|DIMENSIONS|] { AllDimensions(k.dimension); }
      }
      forall k: AggKey ensures k.granularity in GRANULARITIES[..|GRANULARITIES|] { AllGranularities(k.granularity); }
      PutAllWrote(old(rows), written, stats);
    }
  }

  // ---- the loops of an insight job ----

  datatype Grade = InsufficientData | LowSignal | Directional | HighSignal

  /** Candidates are the selected rows of a sufficient grade, in the order of the query. */
  function Graded(rows: seq<AggKey>, grade: AggKey -> Grade): (r: seq<AggKey>)
    ensures forall k :: k in r <==> k in rows && grade(k) in {Directional, HighSignal}
    ensures |r| <= |rows|
  {
    if rows == [] then []
    else
      var last := rows[|rows| - 1];
      Graded(rows[..|rows| - 1], grade) + if grade(last) in {Directional, HighSignal} then [last] else []
  }

  class InsightTable {
    var insights: map<InsightKey, Insight>

    constructor ()
      ensures insights == map[]
    {
      insights := map[];
    }

    /** Filter the selected rows, then upsert each candidate; every candidate counts as created. */
    method PersistInsights(selected: seq<AggKey>, rows: map<AggKey, AggRow>, grade: AggKey -> Grade)
      returns (insightsCreated: nat)
      requires forall k | k in selected :: k in rows
      modifies this
      ensures insights == AddInsights(old(insights), rows, Graded(selected, grade))
      ensures forall x | x in insights && x !in old(insights) ::
        insights[x].source in selected && grade(insights[x].source) in {Directional, HighSignal} && Supports(insights[x].source, x)
      ensures forall k | k in selected && grade(k) in {Directional, HighSignal} :: exists x :: x in insights && Supports(k, x)
      ensures insightsCreated == |Graded(selected, grade)| >= |insights| - |old(insights)|
      ensures insightsCreated == |insights| - |old(insights)| <==> KeysAreNew(old(insights), Graded(selected, grade))
    {
      var candidates: seq<AggKey> := [];
      for i := 0 to |selected|
        invariant candidates == Graded(selected[..i], grade)
      {
        assert selected[..i + 1][..i] == selected[..i];
        if grade(selected[i]) == Directional || grade(selected[i]) == HighSignal {
          candidates := candidates + [selected[i]];
        }
      }
      assert selected[..|selected|] == selected;
      insightsCreated := UpsertCandidates(candidates, rows);
      CountIsOfRowsIff(old(insights), rows, candidates);
      SourcesAre(old(insights), rows, candidates);
    }

    method UpsertCandidates(candidates: seq<AggKey>, rows: map<AggKey, AggRow>) returns (insightsCreated: nat)
      requires forall k | k in candidates :: k in rows
      modifies this
      ensures insights == AddInsights(old(insights), rows, candidates) && insightsCreated == |candidates|
    {
      insightsCreated := 0;
      for i := 0 to |candidates|
        invariant insights == AddInsights(old(insights), rows, candidates[..i])
        invariant insightsCreated == i
      {
        assert candidates[..i + 1][..i] == candidates[..i];
        var k := candidates[i];
        if KeyOf(k) !in insights {
          insights := insights[KeyOf(k) := Insight(k, rows[k])];
        }
        insightsCreated := insightsCreated + 1;
      }
      assert candidates[..|candidates|] == candidates;
    }
  }

  /** What is stored comes from the candidates, and each of them finds its insight stored. */
  lemma SourcesAre(insights: map<InsightKey, Insight>, rows: map<AggKey, AggRow>, candidates: seq<AggKey>)
    requires forall k | k in candidates :: k in rows
    ensures var after := AddInsights(insights, rows, candidates);
      && (forall x | x in after && x !in insights :: after[x].source in candidates && Supports(after[x].source, x))
      && (forall k | k in candidates :: exists x :: x in after && Supports(k, x))
  {
    InsightRowsPerKey(insights, rows, candidates);
    forall k | k in candidates ensures exists x :: x in AddInsights(insights, rows, candidates) && Supports(k, x) {
      assert Supports(k, KeyOf(k));
    }
  }

  lemma KeysOfBucket(a: Account, slot: Slot, target: nat, g: Granularity, d: Dimension, b: Time, rows: seq<BucketRow>)
    ensures forall k :: k in BucketKeys(a, slot, target, g, d, b, ValuesIn(rows, b)) <==>
      k == AggKey(a, d, k.value, slot, g, b, target) && Candidate(rows, k)
  {
    ValuesAre(rows, b);
  }

  lemma BucketKeysSnoc(a: Account, slot: Slot, target: nat, g: Granularity, d: Dimension, b: Time, values: seq<string>, i: nat)
    requires i < |values|
    ensures var before := BucketKeys(a, slot, target, g, d, b, values[..i]);
      var k := AggKey(a, d, values[i], slot, g, b, target);
      && BucketKeys(a, slot, target, g, d, b, values[..i + 1]) == before + [k]
      && forall rows, stats :: PutAll(rows, before + [k], stats) == Put(PutAll(rows, before, stats), k, stats)
  {
    var before := BucketKeys(a, slot, target, g, d, b, values[..i]);
    var k := AggKey(a, d, values[i], slot, g, b, target);
    assert values[..i + 1][..i] == values[..i];
    assert (before + [k])[..|before|] == before;
  }
}
