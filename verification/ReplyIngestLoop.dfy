/** The loop over a page of replies by itself: repeated and overlapping pages add nothing. */
module ReplyIngestLoop {
  import opened Common
  import opened ReplyIngest

  datatype Ingested = Ingested(interactions: map<Id, Interaction>, jobs: seq<Id>, maxSeen: Option<Time>, created: nat)

  function IngestOne(a: Account, s: Ingested, r: Reply): Ingested {
    var seen := Later(s.maxSeen, r.timestamp);
    if r.id in s.interactions then s.(maxSeen := seen)
    else
      var known := s.interactions[r.id := NewInteraction(a, s.interactions, r)];
      if OwnedByMe(a, r) then s.(interactions := known, maxSeen := seen)
      else Ingested(known, s.jobs + [r.id], seen, s.created + 1)
  }

  function Ingest(a: Account, s: Ingested, page: seq<Reply>): Ingested {
    if page == [] then s else IngestOne(a, Ingest(a, s, page[..|page| - 1]), page[|page| - 1])
  }

  class Store {
    var rows: map<Id, Sync>
    var interactions: map<Id, Interaction>
    var jobs: seq<Id>

    constructor ()
      ensures rows == map[] && interactions == map[] && jobs == []
    {
      rows, interactions, jobs := map[], map[], [];
    }

    /** The loop over the replies; no other worker writes meanwhile. */
    method ProcessReplies(a: Account, page: seq<Reply>, watermark: Option<Time>)
      returns (maxSeenTimestamp: Option<Time>, newInteractionsCount: nat)
      modifies `interactions, `jobs
      ensures Ingested(interactions, jobs, maxSeenTimestamp, newInteractionsCount)
           == Ingest(a, Ingested(old(interactions), old(jobs), watermark, 0), page)
    {
      maxSeenTimestamp, newInteractionsCount := watermark, 0;
      ghost var start := Ingested(interactions, jobs, watermark, 0);
      for i := 0 to |page|
        invariant Ingested(interactions, jobs, maxSeenTimestamp, newInteractionsCount) == Ingest(a, start, page[..i])
      {
        assert page[..i + 1][..i] == page[..i];
        var reply := page[i];
        if maxSeenTimestamp.None? || reply.timestamp > maxSeenTimestamp.value {
          maxSeenTimestamp := Some(reply.timestamp);
        }
        var isOwnedByMe := reply.ownedFlag || reply.username == Some(a.username)
          || (a.externalId.Some? && (reply.owner == a.externalId || reply.author == a.externalId));
        if reply.id in interactions {
          continue;
        }
        var parent := None;
        if reply.parent.Some? && reply.parent.value in interactions {
          parent := reply.parent;
        }
        interactions := interactions[reply.id := Interaction(isOwnedByMe, reply.timestamp, reply.parent, parent)];
        if !isOwnedByMe {
          newInteractionsCount := newInteractionsCount + 1;
          jobs := jobs + [reply.id];
        }
      }
      assert page[..|page|] == page;
    }

    /** One synchronisation of a root post: lease, page, release. A failed fetch releases with FAILED. */
    method SyncRootPost(a: Account, root: Id, token: Id, now: Time, fetched: Option<(seq<Reply>, Option<Id>)>)
      returns (synced: bool, newInteractions: nat)
      modifies this
      ensures var row := if root in old(rows) then old(rows)[root] else Sync(Idle, None, None, None, None, 0);
        var after := Ingest(a, Ingested(old(interactions), old(jobs), row.watermark, 0),
                            if fetched.Some? then fetched.value.0 else []);
        var free := row.status != Syncing || (row.until.Some? && row.until.value < now);
        && synced == (free && fetched.Some?)
        && rows.Keys == old(rows).Keys + {root}
        && (forall r | r in old(rows) && r != root :: rows[r] == old(rows)[r])
        && (if synced
            then && rows[root] == Sync(Idle, None, None, after.maxSeen, fetched.value.1, 0)
                 && interactions == after.interactions && jobs == after.jobs && newInteractions == after.created
            else && interactions == old(interactions) && jobs == old(jobs) && newInteractions == 0
                 && rows[root] == if free
                                  then row.(status := Failed, token := None, until := None, errors := row.errors + 1)
                                  else row)
    {
      if root !in rows { rows := rows[root := Sync(Idle, None, None, None, None, 0)]; }
      var syncState := rows[root];
      if !Free(syncState, now) { return false, 0; }
      rows := rows[root := syncState.(status := Syncing, token := Some(token), until := Some(now + LEASE_MS))];
      if fetched.None? {
        rows := rows[root := rows[root].(status := Failed, token := None, until := None, errors := syncState.errors + 1)];
        return false, 0;
      }
      var maxSeenTimestamp, count := ProcessReplies(a, fetched.value.0, syncState.watermark);
      WatermarkStays(a, Ingested(old(interactions), old(jobs), syncState.watermark, 0), fetched.value.0);
      var seen := if maxSeenTimestamp.Some? then maxSeenTimestamp else rows[root].watermark;
      rows := rows[root := Sync(Idle, None, None, seen, fetched.value.1, 0)];
      return true, count;
    }
  }

  lemma {:induction false} WatermarkStays(a: Account, s: Ingested, page: seq<Reply>)
    ensures s.maxSeen.Some? ==> Ingest(a, s, page).maxSeen.Some? && s.maxSeen.value <= Ingest(a, s, page).maxSeen.value
    ensures s.maxSeen.None? && page == [] ==> Ingest(a, s, page).maxSeen.None?
  {
    if page != [] { WatermarkStays(a, s, page[..|page| - 1]); }
  }

  // ---- what a page adds ----

  /** Pages can be cut and joined anywhere. */
  lemma {:induction false} IngestAppend(a: Account, s: Ingested, p: seq<Reply>, q: seq<Reply>)
    ensures Ingest(a, s, p + q) == Ingest(a, Ingest(a, s, p), q)
  {
    if q == [] {
      assert p + q == p;
    } else {
      IngestAppend(a, s, p, q[..|q| - 1]);
      assert (p + q)[..|p + q| - 1] == p + q[..|q| - 1];
    }
  }

  predicate Seen(s: Ingested, r: Reply) {
    r.id in s.interactions && s.maxSeen.Some? && r.timestamp <= s.maxSeen.value
  }

  lemma {:induction false} IngestSees(a: Account, s: Ingested, page: seq<Reply>)
    ensures forall r | r in page :: Seen(Ingest(a, s, page), r)
    ensures forall r | Seen(s, r) :: Seen(Ingest(a, s, page), r)
  {
    if page != [] {
      IngestSees(a, s, page[..|page| - 1]);
      assert page == page[..|page| - 1] + [page[|page| - 1]];
    }
  }

  lemma {:induction false} SeenAddsNothing(a: Account, s: Ingested, page: seq<Reply>)
    requires forall r | r in page :: Seen(s, r)
    ensures Ingest(a, s, page) == s
  {
    if page != [] {
      var init := page[..|page| - 1];
      assert forall r | r in init :: r in page;
      assert Seen(s, page[|page| - 1]);
      SeenAddsNothing(a, s, init);
    }
  }

  /** Two pages that overlap do what one page without the repetition does. */
  lemma OverlapAddsNothing(a: Account, s: Ingested, x: seq<Reply>, y: seq<Reply>, z: seq<Reply>)
    ensures Ingest(a, Ingest(a, s, x + y), y + z) == Ingest(a, s, x + y + z)
  {
    var t := Ingest(a, s, x + y);
    IngestSees(a, s, x + y);
    assert forall r | r in y :: r in x + y;
    SeenAddsNothing(a, t, y);
    IngestAppend(a, t, y, z);
    IngestAppend(a, s, x + y, z);
  }

  /**
   Exactly the unknown replies are stored; exactly those whose first appearance is not the account's own
   are queued, each once; and the count is that of the queued ones.
   */
  lemma {:induction false} PageEffect(a: Account, s: Ingested, page: seq<Reply>, x: Id)
    requires forall e | e in s.jobs :: e in s.interactions
    ensures var t := Ingest(a, s, page);
      && (forall e | e in t.jobs :: e in t.interactions)
      && (x in t.interactions <==> x in s.interactions || exists i :: 0 <= i < |page| && page[i].id == x)
      && (x in t.jobs <==> x in s.jobs || (x !in s.interactions && FirstIsForeign(a, page, x)))
      && t.created - s.created == |t.jobs| - |s.jobs|
  {
    if page != [] {
      var init, last := page[..|page| - 1], page[|page| - 1];
      PageEffect(a, s, init, x);
      PageEffect(a, s, init, last.id);
      assert forall i | 0 <= i < |init| :: page[i] == init[i];
      FirstOf(a, page, x);
    }
  }

  /** The first reply of the page with this id exists, and nothing in it points to the account. */
  predicate FirstIsForeign(a: Account, page: seq<Reply>, x: Id) {
    exists i :: 0 <= i < |page| && page[i].id == x && PointsElsewhere(a, page[i]) && forall j | 0 <= j < i :: page[j].id != x
  }

  lemma FirstOf(a: Account, page: seq<Reply>, x: Id)
    requires page != []
    ensures var init, last := page[..|page| - 1], page[|page| - 1];
      FirstIsForeign(a, page, x) <==>
        FirstIsForeign(a, init, x)
        || (last.id == x && PointsElsewhere(a, last) && forall i | 0 <= i < |init| :: init[i].id != x)
  {
    var init, last := page[..|page| - 1], page[|page| - 1];
    assert forall i | 0 <= i < |init| :: page[i] == init[i];
    if i :| 0 <= i < |init| && init[i].id == x && PointsElsewhere(a, init[i]) && forall j | 0 <= j < i :: init[j].id != x {
      assert page[i].id == x;
    }
    if last.id == x && PointsElsewhere(a, last) && forall i | 0 <= i < |init| :: init[i].id != x {
      assert page[|init|].id == x;
    }
  }

  /** The first reply of the page with its id, unknown so far. */
  predicate NewAt(s: Ingested, page: seq<Reply>, i: nat) {
    i < |page| && page[i].id !in s.interactions && forall j | 0 <= j < i :: page[j].id != page[i].id
  }

  /** What a page stores of an unknown reply comes from the first one with its id, and nothing rewrites it. */
  lemma {:induction false} StoredOf(a: Account, s: Ingested, page: seq<Reply>, i: nat)
    requires NewAt(s, page, i)
    ensures var t := Ingest(a, s, page);
      page[i].id in t.interactions && t.interactions[page[i].id].own == OwnedByMe(a, page[i])
      && t.interactions[page[i].id].postedAt == page[i].timestamp && t.interactions[page[i].id].parentId == page[i].parent
      && t.interactions[page[i].id].parent == if KnownBefore(s, page, i, page[i].parent) then page[i].parent else None
  {
    var init := page[..|page| - 1];
    if i < |init| {
      assert forall j | 0 <= j <= i :: init[j] == page[j];
      StoredOf(a, s, init, i);
    } else {
      assert forall j | 0 <= j < i :: init[j] == page[j];
      UnknownStays(a, s, init, page[i].id);
      if page[i].parent.Some? { KnownAre(a, s, init, page[i].parent.value); }
    }
  }

  /** The parent is stored already, or comes before the reply on its page. */
  predicate KnownBefore(s: Ingested, page: seq<Reply>, i: nat, parent: Option<Id>)
    requires i <= |page|
  {
    parent.Some? && (parent.value in s.interactions || exists j :: 0 <= j < i && page[j].id == parent.value)
  }

  lemma {:induction false} KnownAre(a: Account, s: Ingested, page: seq<Reply>, x: Id)
    ensures x in Ingest(a, s, page).interactions <==> x in s.interactions || exists j :: 0 <= j < |page| && page[j].id == x
  {
    if page != [] {
      KnownAre(a, s, page[..|page| - 1], x);
      assert forall j | 0 <= j < |page| - 1 :: page[..|page| - 1][j] == page[j];
    }
  }

  lemma {:induction false} UnknownStays(a: Account, s: Ingested, page: seq<Reply>, x: Id)
    requires x !in s.interactions && forall j | 0 <= j < |page| :: page[j].id != x
    ensures x !in Ingest(a, s, page).interactions
  {
    if page != [] {
      assert forall j | 0 <= j < |page| - 1 :: page[..|page| - 1][j] == page[j];
      UnknownStays(a, s, page[..|page| - 1], x);
    }
  }

  /**
   What a page stores and queues, field by field: an unknown reply that bears the flag, the account's user name, or
   its external id as owner or author is stored as the account's own and not queued; one that bears none
   of these is stored as foreign and queued by its page. Its parent is linked if it is known by then.
   */
  lemma LoopBreaker(a: Account, s: Ingested, page: seq<Reply>, i: nat)
    requires NewAt(s, page, i) && forall e | e in s.jobs :: e in s.interactions
    ensures var t, r := Ingest(a, s, page), page[i];
      && r.id in t.interactions
      && (r.ownedFlag ==> t.interactions[r.id].own)
      && (r.username == Some(a.username) ==> t.interactions[r.id].own)
      && (a.externalId.Some? && r.owner == a.externalId ==> t.interactions[r.id].own)
      && (a.externalId.Some? && r.author == a.externalId ==> t.interactions[r.id].own)
      && (PointsElsewhere(a, r) ==> !t.interactions[r.id].own)
      && (r.id in t.jobs <==> !t.interactions[r.id].own)
      && t.interactions[r.id].postedAt == r.timestamp && t.interactions[r.id].parentId == r.parent
      && t.interactions[r.id].parent == (if KnownBefore(s, page, i, r.parent) then r.parent else None)
  {
    StoredOf(a, s, page, i);
    PageEffect(a, s, page, page[i].id);
  }
}
