/**
 The clean-up before the scheduling migration: among the active schedules of one draft the oldest is
 kept and the others are cancelled, unless one of them awaits recovery; then all are copied aside.
 */
module Quarantine {
  import opened Common
  import opened ScheduleStatus

  type Id = nat

  /** `retained` is what the error message names: the schedule kept in place of this one. */
  datatype Row = Row(
    id: Id, workspace: Id, draft: Id, status: Status, containerId: Option<string>,
    publishRequestedAt: Option<int>, createdAt: int, retained: Option<(Id, int)>)

  datatype Reason = LegacyConflictWithRecoveryRequired

  /** A copied row and why. */
  datatype Copy = Copy(
    scheduledPost: Id, workspace: Id, draft: Id, status: Status, containerId: Option<string>,
    publishRequestedAt: Option<int>, reason: Reason)

  /** The order of the query and of the sort: creation time, then id. */
  predicate Older(a: Row, b: Row) {
    a.createdAt < b.createdAt || (a.createdAt == b.createdAt && a.id < b.id)
  }

  ghost predicate Ordered(rows: seq<Row>) {
    forall i, j | 0 <= i < j < |rows| :: Older(rows[i], rows[j])
  }

  ghost predicate ValidTable(t: map<Id, Row>) {
    forall i | i in t :: t[i].id == i
  }

  /** The result of the locking query: the active rows, each once, in order. */
  ghost predicate QueryResult(t: map<Id, Row>, rows: seq<Row>) {
    && Ordered(rows)
    && (forall k | 0 <= k < |rows| :: rows[k].id in t && t[rows[k].id] == rows[k] && Active(rows[k].status))
    && (forall i | i in t && Active(t[i].status) :: exists k :: 0 <= k < |rows| && rows[k] == t[i])
  }

  // ---- groups ----

  function Group(rows: seq<Row>, draft: Id): seq<Row> {
    if rows == [] then []
    else
      var last := rows[|rows| - 1];
      Group(rows[..|rows| - 1], draft) + if last.draft == draft then [last] else []
  }

  /** The Map of the grouping loop. */
  function Grouping(rows: seq<Row>): map<Id, seq<Row>> {
    if rows == [] then map[]
    else
      var m, last := Grouping(rows[..|rows| - 1]), rows[|rows| - 1];
      m[last.draft := (if last.draft in m then m[last.draft] else []) + [last]]
  }

  /** Its keys, in order of first appearance. */
  function Drafts(rows: seq<Row>): seq<Id> {
    if rows == [] then []
    else
      var init, last := rows[..|rows| - 1], rows[|rows| - 1];
      if last.draft in Grouping(init) then Drafts(init) else Drafts(init) + [last.draft]
  }

  lemma {:induction false} GroupingIs(rows: seq<Row>, d: Id)
    ensures d in Grouping(rows) <==> Group(rows, d) != []
    ensures d in Grouping(rows) <==> d in Drafts(rows)
    ensures d in Grouping(rows) ==> Grouping(rows)[d] == Group(rows, d)
  {
    if rows != [] { GroupingIs(rows[..|rows| - 1], d); }
  }

  lemma {:induction false} DraftsDiffer(rows: seq<Row>)
    ensures forall i, j | 0 <= i < j < |Drafts(rows)| :: Drafts(rows)[i] != Drafts(rows)[j]
  {
    if rows != [] {
      var init, last := rows[..|rows| - 1], rows[|rows| - 1];
      DraftsDiffer(init);
      GroupingIs(init, last.draft);
    }
  }

  lemma {:induction false} GroupHas(rows: seq<Row>, k: nat)
    requires k < |rows|
    ensures rows[k] in Group(rows, rows[k].draft)
  {
    var init := rows[..|rows| - 1];
    if k < |init| {
      GroupHas(init, k);
      assert init[k] == rows[k];
    }
  }

  lemma {:induction false} GroupFrom(rows: seq<Row>, draft: Id, m: nat)
    requires m < |Group(rows, draft)|
    ensures Group(rows, draft)[m].draft == draft
    ensures exists k :: 0 <= k < |rows| && rows[k] == Group(rows, draft)[m]
  {
    var init := rows[..|rows| - 1];
    if m < |Group(init, draft)| {
      GroupFrom(init, draft, m);
      var k :| 0 <= k < |init| && init[k] == Group(init, draft)[m];
      assert rows[k] == init[k];
    }
  }

  lemma {:induction false} GroupIsOrdered(rows: seq<Row>, draft: Id)
    requires Ordered(rows)
    ensures Ordered(Group(rows, draft))
  {
    if rows != [] {
      var init := rows[..|rows| - 1];
      GroupIsOrdered(init, draft);
      forall m | 0 <= m < |Group(init, draft)| ensures Older(Group(init, draft)[m], rows[|rows| - 1]) {
        GroupFrom(init, draft, m);
      }
    }
  }

  predicate HasRecovery(g: seq<Row>) {
    exists m :: 0 <= m < |g| && g[m].status == RecoveryRequired
  }

  // ---- the sort ----

  function Insert(r: Row, sorted: seq<Row>): seq<Row> {
    if sorted == [] then [r]
    else
      var last := sorted[|sorted| - 1];
      if Older(r, last) then Insert(r, sorted[..|sorted| - 1]) + [last] else sorted + [r]
  }

  /** Array.sort by creation time, then id: stable. */
  function Sort(rows: seq<Row>): seq<Row> {
    if rows == [] then [] else Insert(rows[|rows| - 1], Sort(rows[..|rows| - 1]))
  }

  /** The query has already ordered the rows: sorting a group again changes nothing. */
  lemma {:induction false} SortIsRedundant(rows: seq<Row>)
    requires Ordered(rows)
    ensures Sort(rows) == rows
  {
    if rows != [] {
      SortIsRedundant(rows[..|rows| - 1]);
      if |rows| > 1 { assert Older(rows[|rows| - 2], rows[|rows| - 1]); }
      assert rows == rows[..|rows| - 1] + [rows[|rows| - 1]];
    }
  }

  // ---- the effect of the loops ----

  function Cancel(r: Row, keep: Row): Row {
    r.(status := Cancelled, retained := Some((keep.id, keep.createdAt)))
  }

  predicate InTable(t: map<Id, Row>, g: seq<Row>) {
    forall m | 0 <= m < |g| :: g[m].id in t
  }

  /** The table after the rows 1 to n - 1 of a group have been cancelled. */
  function KeepFirst(t: map<Id, Row>, g: seq<Row>, n: nat): (t': map<Id, Row>)
    requires n <= |g| && InTable(t, g)
    ensures t'.Keys == t.Keys
  {
    if n <= 1 then t
    else
      var t1, i := KeepFirst(t, g, n - 1), g[n - 1].id;
      t1[i := Cancel(t1[i], g[0])]
  }

  function CopyOf(r: Row): Copy {
    Copy(r.id, r.workspace, r.draft, r.status, r.containerId, r.publishRequestedAt, LegacyConflictWithRecoveryRequired)
  }

  function CopyAll(g: seq<Row>): seq<Copy> {
    if g == [] then [] else CopyAll(g[..|g| - 1]) + [CopyOf(g[|g| - 1])]
  }

  datatype State = State(posts: map<Id, Row>, quarantine: seq<Copy>, quarantined: nat, cancelled: nat)

  /** One turn of the loop over the groups. */
  function Treat(s: State, g: seq<Row>): (s': State)
    requires InTable(s.posts, g)
    ensures s'.posts.Keys == s.posts.Keys
  {
    if |g| <= 1 then s
    else if HasRecovery(g) then s.(quarantine := s.quarantine + CopyAll(g), quarantined := s.quarantined + |g|)
    else s.(posts := KeepFirst(s.posts, g, |g|), cancelled := s.cancelled + |g| - 1)
  }

  ghost predicate AllInTable(t: map<Id, Row>, rows: seq<Row>) {
    forall d :: InTable(t, Group(rows, d))
  }

  ghost function TreatAll(s: State, rows: seq<Row>, drafts: seq<Id>): (s': State)
    requires AllInTable(s.posts, rows)
    ensures s'.posts.Keys == s.posts.Keys
  {
    if drafts == [] then s
    else
      Treat(TreatAll(s, rows, drafts[..|drafts| - 1]), Group(rows, drafts[|drafts| - 1]))
  }

  // ---- the script ----

  class Database {
    var posts: map<Id, Row>
    var quarantine: seq<Copy>

    constructor (posts: map<Id, Row>)
      ensures this.posts == posts && quarantine == []
    {
      this.posts, quarantine := posts, [];
    }

    /** Map.get and Map.set over the rows. */
    method GroupByDraft(rows: seq<Row>) returns (keys: seq<Id>, groups: map<Id, seq<Row>>)
      ensures keys == Drafts(rows) && groups == Grouping(rows)
    {
      keys, groups := [], map[];
      for i := 0 to |rows|
        invariant keys == Drafts(rows[..i]) && groups == Grouping(rows[..i])
      {
        assert rows[..i + 1][..i] == rows[..i];
        var row := rows[i];
        var list := if row.draft in groups then groups[row.draft] else [];
        if row.draft !in groups { keys := keys + [row.draft]; }
        groups := groups[row.draft := list + [row]];
      }
      assert rows[..|rows|] == rows;
    }

    /** One group with a row awaiting recovery: copied, not changed. */
    method CopyAside(g: seq<Row>, count: nat) returns (quarantinedCount: nat)
      modifies `quarantine
      ensures quarantine == old(quarantine) + CopyAll(g)
      ensures quarantinedCount == count + |g|
    {
      quarantinedCount := count;
      for i := 0 to |g|
        invariant quarantine == old(quarantine) + CopyAll(g[..i])
        invariant quarantinedCount == count + i
      {
        assert g[..i + 1][..i] == g[..i];
        quarantine := quarantine + [CopyOf(g[i])];
        quarantinedCount := quarantinedCount + 1;
      }
      assert g[..|g|] == g;
    }

    /** One group without: all but the oldest are cancelled. */
    method KeepOldest(g: seq<Row>, count: nat) returns (cancelledCount: nat)
      requires |g| > 1 && Ordered(g) && InTable(posts, g)
      modifies `posts
      ensures posts == KeepFirst(old(posts), g, |g|)
      ensures cancelledCount == count + |g| - 1
    {
      var sorted := Sort(g);
      SortIsRedundant(g);
      cancelledCount := count;
      for j := 1 to |sorted|
        invariant posts == KeepFirst(old(posts), g, j)
        invariant cancelledCount == count + j - 1
      {
        var dup := sorted[j];
        posts := posts[dup.id := Cancel(posts[dup.id], sorted[0])];
        cancelledCount := cancelledCount + 1;
      }
    }

    /** One turn of the loop over the groups. */
    method TreatGroup(g: seq<Row>, quarantined: nat, cancelled: nat) returns (quarantinedCount: nat, cancelledCount: nat)
      requires Ordered(g) && InTable(posts, g)
      modifies this
      ensures State(posts, quarantine, quarantinedCount, cancelledCount)
           == Treat(State(old(posts), old(quarantine), quarantined, cancelled), g)
    {
      quarantinedCount, cancelledCount := quarantined, cancelled;
      if |g| <= 1 { return; }
      var hasRecoveryRequired := HasRecovery(g);
      if hasRecoveryRequired {
        quarantinedCount := CopyAside(g, quarantinedCount);
      } else {
        cancelledCount := KeepOldest(g, cancelledCount);
      }
    }

    /** The transaction and the verdict. */
    method CleanUp(rows: seq<Row>) returns (quarantinedCount: nat, cancelledCount: nat, exitCode: nat)
      requires ValidTable(posts) && QueryResult(posts, rows)
      modifies this
      ensures State(posts, quarantine, quarantinedCount, cancelledCount) == CleanedUp(old(posts), old(quarantine), rows)
      ensures exitCode == if quarantinedCount > 0 then 1 else 0
    {
      quarantinedCount, cancelledCount := 0, 0;
      var keys, groups := GroupByDraft(rows);
      GroupsInTable(posts, rows);
      ghost var start := State(posts, quarantine, 0, 0);
      for k := 0 to |keys|
        invariant State(posts, quarantine, quarantinedCount, cancelledCount) == TreatAll(start, rows, keys[..k])
      {
        NextGroup(start, rows, k);
        quarantinedCount, cancelledCount := TreatGroup(groups[keys[k]], quarantinedCount, cancelledCount);
      }
      assert keys[..|keys|] == keys;
      exitCode := if quarantinedCount > 0 then 1 else 0;
    }
  }

  lemma TreatAllSnoc(s: State, rows: seq<Row>, drafts: seq<Id>, k: nat)
    requires AllInTable(s.posts, rows) && k < |drafts|
    ensures TreatAll(s, rows, drafts[..k + 1]) == Treat(TreatAll(s, rows, drafts[..k]), Group(rows, drafts[k]))
  {
    assert drafts[..k + 1][..k] == drafts[..k];
  }

  lemma NextGroup(s: State, rows: seq<Row>, k: nat)
    requires AllInTable(s.posts, rows) && Ordered(rows) && k < |Drafts(rows)|
    ensures var keys := Drafts(rows);
      && keys[k] in Grouping(rows) && Ordered(Grouping(rows)[keys[k]])
      && InTable(s.posts, Grouping(rows)[keys[k]])
      && TreatAll(s, rows, keys[..k + 1]) == Treat(TreatAll(s, rows, keys[..k]), Grouping(rows)[keys[k]])
  {
    var keys := Drafts(rows);
    TreatAllSnoc(s, rows, keys, k);
    GroupingIs(rows, keys[k]);
    GroupIsOrdered(rows, keys[k]);
  }

  lemma GroupsInTable(t: map<Id, Row>, rows: seq<Row>)
    requires QueryResult(t, rows)
    ensures AllInTable(t, rows)
  {
    forall d, m | 0 <= m < |Group(rows, d)| ensures Group(rows, d)[m].id in t {
      GroupFrom(rows, d, m);
    }
  }

  // ---- what the clean-up achieves ----

  /** Two active schedules of one draft: what the migration's unique index is meant to exclude. */
  ghost predicate Crowded(t: map<Id, Row>, draft: Id) {
    exists i, j :: i in t && j in t && i != j && t[i].draft == draft && t[j].draft == draft
                   && Active(t[i].status) && Active(t[j].status)
  }

  ghost predicate Recovering(t: map<Id, Row>, draft: Id) {
    exists i :: i in t && t[i].draft == draft && t[i].status == RecoveryRequired
  }

  ghost function ActiveIds(t: map<Id, Row>): set<Id> {
    set i | i in t && Active(t[i].status)
  }

  /** The whole clean-up of a table. */
  ghost function CleanedUp(t: map<Id, Row>, q: seq<Copy>, rows: seq<Row>): (s: State)
    requires ValidTable(t) && QueryResult(t, rows)
    ensures s.posts.Keys == t.Keys
  {
    GroupsInTable(t, rows);
    TreatAll(State(t, q, 0, 0), rows, Drafts(rows))
  }

  /** `i` is the id of a row after the first, up to `n`. */
  ghost predicate Later(g: seq<Row>, i: Id, n: nat)
    requires n <= |g|
  {
    exists m :: 1 <= m < n && g[m].id == i
  }

  ghost predicate IdsDiffer(g: seq<Row>) {
    forall a, b | 0 <= a < b < |g| :: g[a].id != g[b].id
  }

  /** A group holds the active rows of its draft and no others. */
  lemma GroupIs(t: map<Id, Row>, rows: seq<Row>, draft: Id)
    requires ValidTable(t) && QueryResult(t, rows)
    ensures var g := Group(rows, draft);
      && Ordered(g) && IdsDiffer(g)
      && (forall m | 0 <= m < |g| ::
            g[m].id in t && t[g[m].id] == g[m] && g[m].draft == draft && Active(g[m].status))
      && (forall i | i in t && t[i].draft == draft && Active(t[i].status) ::
            exists m :: 0 <= m < |g| && g[m] == t[i])
  {
    var g := Group(rows, draft);
    GroupIsOrdered(rows, draft);
    forall m | 0 <= m < |g|
      ensures g[m].id in t && t[g[m].id] == g[m] && g[m].draft == draft && Active(g[m].status)
    {
      GroupFrom(rows, draft, m);
    }
    forall a, b | 0 <= a < b < |g| ensures g[a].id != g[b].id {
      assert Older(g[a], g[b]);
    }
    forall i | i in t && t[i].draft == draft && Active(t[i].status)
      ensures exists m :: 0 <= m < |g| && g[m] == t[i]
    {
      var k :| 0 <= k < |rows| && rows[k] == t[i];
      GroupHas(rows, k);
    }
  }

  lemma {:induction false} KeepFirstIs(t: map<Id, Row>, g: seq<Row>, n: nat, i: Id)
    requires n <= |g| && InTable(t, g) && IdsDiffer(g) && i in t
    ensures KeepFirst(t, g, n)[i] == if Later(g, i, n) then Cancel(t[i], g[0]) else t[i]
  {
    if n > 1 {
      KeepFirstIs(t, g, n - 1, i);
      if Later(g, i, n - 1) {
        var m :| 1 <= m < n - 1 && g[m].id == i;
        assert g[m].id != g[n - 1].id;
      }
    }
  }

  /** One more group changes exactly its own younger rows, if it is without recovery. */
  lemma TreatIs(t: map<Id, Row>, rows: seq<Row>, s: State, d: Id, i: Id)
    requires ValidTable(t) && QueryResult(t, rows) && i in t && s.posts.Keys == t.Keys && InTable(s.posts, Group(rows, d))
    requires t[i].draft == d ==> s.posts[i] == t[i]
    ensures var g := Group(rows, d);
      Treat(s, g).posts[i]
      == if t[i].draft == d && !HasRecovery(g) && Later(g, i, |g|) then Cancel(t[i], g[0]) else s.posts[i]
  {
    var g := Group(rows, d);
    GroupIs(t, rows, d);
    if |g| > 1 && !HasRecovery(g) {
      KeepFirstIs(s.posts, g, |g|, i);
    }
  }

  /** After any number of groups, exactly the younger rows of the treated ones without recovery are cancelled. */
  lemma {:induction false} TreatAllIs(t: map<Id, Row>, q: seq<Copy>, rows: seq<Row>, drafts: seq<Id>, i: Id)
    requires ValidTable(t) && QueryResult(t, rows) && AllInTable(t, rows) && i in t
    requires forall a, b | 0 <= a < b < |drafts| :: drafts[a] != drafts[b]
    ensures var g := Group(rows, t[i].draft);
      TreatAll(State(t, q, 0, 0), rows, drafts).posts[i]
      == if t[i].draft in drafts && !HasRecovery(g) && Later(g, i, |g|) then Cancel(t[i], g[0]) else t[i]
  {
    if drafts != [] {
      var init, d := drafts[..|drafts| - 1], drafts[|drafts| - 1];
      TreatAllIs(t, q, rows, init, i);
      assert drafts == init + [d];
      assert InTable(t, Group(rows, d));
      TreatIs(t, rows, TreatAll(State(t, q, 0, 0), rows, init), d, i);
    }
  }

  /** A row after the clean-up. */
  lemma CleanedRow(t: map<Id, Row>, q: seq<Copy>, rows: seq<Row>, i: Id)
    requires ValidTable(t) && QueryResult(t, rows) && i in t
    ensures var g := Group(rows, t[i].draft);
      CleanedUp(t, q, rows).posts[i] == if !HasRecovery(g) && Later(g, i, |g|) then Cancel(t[i], g[0]) else t[i]
  {
    GroupsInTable(t, rows);
    DraftsDiffer(rows);
    TreatAllIs(t, q, rows, Drafts(rows), i);
    GroupingIs(rows, t[i].draft);
  }

  lemma RecoveryIs(t: map<Id, Row>, rows: seq<Row>, draft: Id)
    requires ValidTable(t) && QueryResult(t, rows)
    ensures HasRecovery(Group(rows, draft)) <==> Recovering(t, draft)
  {
    var g := Group(rows, draft);
    GroupIs(t, rows, draft);
    if HasRecovery(g) {
      var m :| 0 <= m < |g| && g[m].status == RecoveryRequired;
      assert t[g[m].id].status == RecoveryRequired;
    }
    if Recovering(t, draft) {
      var i :| i in t && t[i].draft == draft && t[i].status == RecoveryRequired;
      var m :| 0 <= m < |g| && g[m] == t[i];
    }
  }

  lemma CrowdIs(t: map<Id, Row>, rows: seq<Row>, draft: Id)
    requires ValidTable(t) && QueryResult(t, rows)
    ensures |Group(rows, draft)| > 1 <==> Crowded(t, draft)
  {
    if |Group(rows, draft)| > 1 { ManyCrowd(t, rows, draft); }
    if i, j :| i in t && j in t && i != j && t[i].draft == draft && t[j].draft == draft
               && Active(t[i].status) && Active(t[j].status) {
      CrowdOfMany(t, rows, draft, i, j);
    }
  }

  lemma ManyCrowd(t: map<Id, Row>, rows: seq<Row>, draft: Id)
    requires ValidTable(t) && QueryResult(t, rows) && |Group(rows, draft)| > 1
    ensures Crowded(t, draft)
  {
    var g := Group(rows, draft);
    GroupIs(t, rows, draft);
    assert g[0].id != g[1].id && t[g[0].id] == g[0] && t[g[1].id] == g[1];
  }

  lemma CrowdOfMany(t: map<Id, Row>, rows: seq<Row>, draft: Id, i: Id, j: Id)
    requires ValidTable(t) && QueryResult(t, rows) && i in t && j in t && i != j
    requires t[i].draft == draft && t[j].draft == draft && Active(t[i].status) && Active(t[j].status)
    ensures |Group(rows, draft)| > 1
  {
    var g := Group(rows, draft);
    GroupIs(t, rows, draft);
    var a :| 0 <= a < |g| && g[a] == t[i];
    var b :| 0 <= b < |g| && g[b] == t[j];
    assert t[i].id == i && t[j].id == j;
  }

  /** Without a row awaiting recovery a draft keeps exactly one of its active schedules, the oldest, as it was. */
  lemma OldestIsKept(t: map<Id, Row>, q: seq<Copy>, rows: seq<Row>, i: Id)
    requires ValidTable(t) && QueryResult(t, rows)
    requires i in t && Active(t[i].status) && !Recovering(t, t[i].draft)
    ensures var after := CleanedUp(t, q, rows).posts[i];
      && (Active(after.status) <==> IsOldest(t, i))
      && if Active(after.status) then after == t[i]
         else exists k :: k in t && t[k].draft == t[i].draft && Active(t[k].status) && IsOldest(t, k)
                          && after == t[i].(status := Cancelled, retained := Some((k, t[k].createdAt)))
  {
    var g := Group(rows, t[i].draft);
    CleanedRow(t, q, rows, i);
    RecoveryIs(t, rows, t[i].draft);
    GroupIs(t, rows, t[i].draft);
    var k :| 0 <= k < |g| && g[k] == t[i];
    if k == 0 {
      assert !Later(g, i, |g|);
      FirstIsOldest(t, rows, i);
    } else {
      assert Later(g, i, |g|);
      assert Older(g[0], g[k]) && t[g[0].id] == g[0];
      FirstIsOldest(t, rows, g[0].id);
    }
  }

  /** No active schedule of the draft was made before it, nor at the same time with a smaller id. */
  predicate IsOldest(t: map<Id, Row>, i: Id)
    requires i in t
  {
    forall j | j in t && t[j].draft == t[i].draft && Active(t[j].status) && j != i ::
      t[i].createdAt < t[j].createdAt || (t[i].createdAt == t[j].createdAt && i < j)
  }

  lemma FirstIsOldest(t: map<Id, Row>, rows: seq<Row>, i: Id)
    requires ValidTable(t) && QueryResult(t, rows) && i in t
    requires |Group(rows, t[i].draft)| > 0 && Group(rows, t[i].draft)[0] == t[i]
    ensures IsOldest(t, i)
  {
    var g := Group(rows, t[i].draft);
    GroupIs(t, rows, t[i].draft);
    forall j | j in t && t[j].draft == t[i].draft && Active(t[j].status) && j != i
      ensures t[i].createdAt < t[j].createdAt || (t[i].createdAt == t[j].createdAt && i < j)
    {
      var m :| 0 <= m < |g| && g[m] == t[j];
      assert Older(g[0], g[m]);
    }
  }

  /** A draft with a row awaiting recovery is left as it was, and so is every inactive schedule. */
  lemma OthersAreLeft(t: map<Id, Row>, q: seq<Copy>, rows: seq<Row>, i: Id)
    requires ValidTable(t) && QueryResult(t, rows) && i in t
    requires Recovering(t, t[i].draft) || !Active(t[i].status)
    ensures CleanedUp(t, q, rows).posts[i] == t[i]
  {
    CleanedRow(t, q, rows, i);
    RecoveryIs(t, rows, t[i].draft);
    GroupIs(t, rows, t[i].draft);
  }

  // ---- copies ----

  predicate Conflicting(rows: seq<Row>, draft: Id) {
    |Group(rows, draft)| > 1 && HasRecovery(Group(rows, draft))
  }

  /** The copies made of a list of groups. */
  function Copies(rows: seq<Row>, drafts: seq<Id>): seq<Copy> {
    if drafts == [] then []
    else
      var d := drafts[|drafts| - 1];
      Copies(rows, drafts[..|drafts| - 1]) + if Conflicting(rows, d) then CopyAll(Group(rows, d)) else []
  }

  lemma {:induction false} CopyAllIs(g: seq<Row>)
    ensures |CopyAll(g)| == |g|
    ensures forall m | 0 <= m < |g| :: CopyAll(g)[m] == CopyOf(g[m])
  {
    if g != [] { CopyAllIs(g[..|g| - 1]); }
  }

  lemma {:induction false} CopiesMade(s: State, rows: seq<Row>, drafts: seq<Id>)
    requires AllInTable(s.posts, rows)
    ensures var s', c := TreatAll(s, rows, drafts), Copies(rows, drafts);
      s'.quarantine == s.quarantine + c && s'.quarantined == s.quarantined + |c|
  {
    if drafts != [] {
      var init := drafts[..|drafts| - 1];
      CopiesMade(s, rows, init);
      var c, more := Copies(rows, init), CopyAll(Group(rows, drafts[|drafts| - 1]));
      CopyAllIs(Group(rows, drafts[|drafts| - 1]));
      assert (s.quarantine + c) + more == s.quarantine + (c + more);
      assert c + [] == c;
    }
  }

  ghost predicate IsCopy(rows: seq<Row>, draft: Id, c: Copy) {
    Conflicting(rows, draft)
    && exists m :: 0 <= m < |Group(rows, draft)| && CopyOf(Group(rows, draft)[m]) == c
  }

  lemma CopyAllHas(rows: seq<Row>, draft: Id, c: Copy)
    requires Conflicting(rows, draft)
    ensures c in CopyAll(Group(rows, draft)) <==> IsCopy(rows, draft, c)
  {
    var g := Group(rows, draft);
    CopyAllIs(g);
    if IsCopy(rows, draft, c) {
      var m :| 0 <= m < |g| && CopyOf(g[m]) == c;
      assert CopyAll(g)[m] == c;
    }
  }

  lemma {:induction false} CopiesHave(rows: seq<Row>, drafts: seq<Id>, c: Copy)
    ensures c in Copies(rows, drafts) <==> exists d :: d in drafts && IsCopy(rows, d, c)
  {
    if drafts != [] {
      var init, last := drafts[..|drafts| - 1], drafts[|drafts| - 1];
      assert drafts == init + [last];
      CopiesHave(rows, init, c);
      if Conflicting(rows, last) { CopyAllHas(rows, last, c); }
    }
  }

  /** Exactly the active schedules of crowded drafts with a row awaiting recovery are copied. */
  lemma ConflictsAreCopied(t: map<Id, Row>, q: seq<Copy>, rows: seq<Row>, i: Id)
    requires ValidTable(t) && QueryResult(t, rows) && i in t
    ensures var s := CleanedUp(t, q, rows);
      && s.quarantine == q + Copies(rows, Drafts(rows)) && s.quarantined == |Copies(rows, Drafts(rows))|
      && (Copy(i, t[i].workspace, t[i].draft, t[i].status, t[i].containerId, t[i].publishRequestedAt, LegacyConflictWithRecoveryRequired)
            in Copies(rows, Drafts(rows))
          <==> Active(t[i].status) && Recovering(t, t[i].draft) && Crowded(t, t[i].draft))
  {
    var ds, d, c := Drafts(rows), t[i].draft, CopyOf(t[i]);
    GroupsInTable(t, rows);
    CopiesMade(State(t, q, 0, 0), rows, ds);
    CopiesHave(rows, ds, c);
    GroupingIs(rows, d);
    RecoveryIs(t, rows, d);
    CrowdIs(t, rows, d);
    if d' :| d' in ds && IsCopy(rows, d', c) {
      CopyBelongs(t, rows, i, d');
    }
    if Active(t[i].status) && Conflicting(rows, d) {
      CopyBelongs(t, rows, i, d);
    }
  }

  lemma CopyBelongs(t: map<Id, Row>, rows: seq<Row>, i: Id, draft: Id)
    requires ValidTable(t) && QueryResult(t, rows) && i in t && Conflicting(rows, draft)
    ensures IsCopy(rows, draft, CopyOf(t[i])) <==> t[i].draft == draft && Active(t[i].status)
  {
    var g := Group(rows, draft);
    GroupIs(t, rows, draft);
    if m :| 0 <= m < |g| && CopyOf(g[m]) == CopyOf(t[i]) {
      assert g[m].id == i;
    }
  }

  // ---- counting ----

  lemma {:induction false} KeepFirstCounts(t: map<Id, Row>, g: seq<Row>, n: nat)
    requires 1 <= n <= |g| && InTable(t, g) && IdsDiffer(g)
    requires forall m | 0 <= m < |g| :: Active(t[g[m].id].status)
    ensures |ActiveIds(t)| == |ActiveIds(KeepFirst(t, g, n))| + n - 1
  {
    if n > 1 {
      KeepFirstCounts(t, g, n - 1);
      var t1, i := KeepFirst(t, g, n - 1), g[n - 1].id;
      KeepFirstIs(t, g, n - 1, i);
      assert i in ActiveIds(t1);
      assert ActiveIds(KeepFirst(t, g, n)) == ActiveIds(t1) - {i};
    }
  }

  lemma {:induction false} TreatAllCounts(t: map<Id, Row>, q: seq<Copy>, rows: seq<Row>, drafts: seq<Id>)
    requires ValidTable(t) && QueryResult(t, rows) && AllInTable(t, rows)
    requires forall a, b | 0 <= a < b < |drafts| :: drafts[a] != drafts[b]
    ensures var s := TreatAll(State(t, q, 0, 0), rows, drafts);
      |ActiveIds(t)| == |ActiveIds(s.posts)| + s.cancelled
  {
    if drafts != [] {
      var init, d := drafts[..|drafts| - 1], drafts[|drafts| - 1];
      TreatAllCounts(t, q, rows, init);
      var s, g := TreatAll(State(t, q, 0, 0), rows, init), Group(rows, d);
      GroupIs(t, rows, d);
      forall m | 0 <= m < |g| ensures Active(s.posts[g[m].id].status) {
        TreatAllIs(t, q, rows, init, g[m].id);
      }
      if |g| > 1 && !HasRecovery(g) { KeepFirstCounts(s.posts, g, |g|); }
    }
  }

  /** No active schedule is lost: each stays active or is counted as cancelled. */
  lemma ActiveIsConserved(t: map<Id, Row>, q: seq<Copy>, rows: seq<Row>)
    requires ValidTable(t) && QueryResult(t, rows)
    ensures var s := CleanedUp(t, q, rows);
      |ActiveIds(t)| == |ActiveIds(s.posts)| + s.cancelled
  {
    GroupsInTable(t, rows);
    DraftsDiffer(rows);
    TreatAllCounts(t, q, rows, Drafts(rows));
  }

  // ---- the verdict ----

  /** A draft left with two active schedules is one that had them and a row awaiting recovery. */
  lemma CrowdedAfter(t: map<Id, Row>, q: seq<Copy>, rows: seq<Row>, draft: Id)
    requires ValidTable(t) && QueryResult(t, rows)
    ensures Crowded(CleanedUp(t, q, rows).posts, draft) <==> Crowded(t, draft) && Recovering(t, draft)
  {
    var t' := CleanedUp(t, q, rows).posts;
    forall i | i in t ensures t'[i].draft == t[i].draft && (Active(t'[i].status) ==> Active(t[i].status)) {
      CleanedRow(t, q, rows, i);
    }
    if Recovering(t, draft) {
      forall i | i in t && t[i].draft == draft ensures t'[i] == t[i] {
        OthersAreLeft(t, q, rows, i);
      }
    } else if i, j :| i in t' && j in t' && i != j && t'[i].draft == draft && t'[j].draft == draft
                      && Active(t'[i].status) && Active(t'[j].status) {
      OldestIsKept(t, q, rows, i);
      OldestIsKept(t, q, rows, j);
    }
  }

  lemma QuarantinedMeansCrowded(t: map<Id, Row>, q: seq<Copy>, rows: seq<Row>)
    requires ValidTable(t) && QueryResult(t, rows) && Copies(rows, Drafts(rows)) != []
    ensures exists d :: Crowded(CleanedUp(t, q, rows).posts, d)
  {
    var ds := Drafts(rows);
    var c := Copies(rows, ds)[0];
    CopiesHave(rows, ds, c);
    var d :| d in ds && IsCopy(rows, d, c);
    RecoveryIs(t, rows, d);
    CrowdIs(t, rows, d);
    CrowdedAfter(t, q, rows, d);
  }

  lemma CrowdedMeansQuarantined(t: map<Id, Row>, q: seq<Copy>, rows: seq<Row>, d: Id)
    requires ValidTable(t) && QueryResult(t, rows) && Crowded(CleanedUp(t, q, rows).posts, d)
    ensures Copies(rows, Drafts(rows)) != []
  {
    CrowdedAfter(t, q, rows, d);
    RecoveryIs(t, rows, d);
    CrowdIs(t, rows, d);
    GroupingIs(rows, d);
    var c := CopyOf(Group(rows, d)[0]);
    CopiesHave(rows, Drafts(rows), c);
    assert IsCopy(rows, d, c);
  }

  /** The script reports success exactly when no draft is left with two active schedules. */
  lemma SuccessMeansUncrowded(t: map<Id, Row>, q: seq<Copy>, rows: seq<Row>)
    requires ValidTable(t) && QueryResult(t, rows)
    ensures CleanedUp(t, q, rows).quarantined == 0 <==> forall d :: !Crowded(CleanedUp(t, q, rows).posts, d)
  {
    GroupsInTable(t, rows);
    CopiesMade(State(t, q, 0, 0), rows, Drafts(rows));
    if Copies(rows, Drafts(rows)) != [] { QuarantinedMeansCrowded(t, q, rows); }
    forall d | Crowded(CleanedUp(t, q, rows).posts, d) ensures Copies(rows, Drafts(rows)) != [] {
      CrowdedMeansQuarantined(t, q, rows, d);
    }
  }

  /** A second run changes no schedule. */
  lemma SecondRunChangesNothing(t: map<Id, Row>, q: seq<Copy>, rows: seq<Row>, q': seq<Copy>, rows': seq<Row>)
    requires ValidTable(t) && QueryResult(t, rows)
    requires var t' := CleanedUp(t, q, rows).posts; ValidTable(t') && QueryResult(t', rows')
    ensures var t' := CleanedUp(t, q, rows).posts;
      CleanedUp(t', q', rows').posts == t'
  {
    var t' := CleanedUp(t, q, rows).posts;
    forall i | i in t' ensures CleanedUp(t', q', rows').posts[i] == t'[i] {
      var d := t'[i].draft;
      CleanedRow(t', q', rows', i);
      RecoveryIs(t', rows', d);
      CrowdIs(t', rows', d);
      CrowdedAfter(t, q, rows, d);
      if Crowded(t', d) {
        var m :| m in t && t[m].draft == d && t[m].status == RecoveryRequired;
        OthersAreLeft(t, q, rows, m);
        assert Recovering(t', d);
      }
    }
  }
}
