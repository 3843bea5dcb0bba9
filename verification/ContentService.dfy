/** The content service's guarded updates as methods on the tables, each one a step of the protocol. */
module ContentService {
  import opened Common
  import opened ScheduleStatus
  import opened PublishingTables
  import opened PublishingProtocol

  datatype DraftStatus = Draft | Ready | Archived | OtherDraftStatus

  /** What a scheduling call answers with; a draft deleted meanwhile makes the foreign key fail. */
  datatype Outcome = Created(schedule: Id) | Existing(schedule: Id) | Conflict | NoDraft

  /** What the checks of a deletion answer with. */
  datatype Verdict = MissingDraft | PublishedDraft | ScheduledDraft | Deletable(found: Schedules)

  datatype UniqueIndex = IdempotencyKey | AccountSlot | ActiveDraft

  predicate SameKey(a: Schedule, b: Schedule) {
    a.workspace == b.workspace && a.key == b.key
  }

  /** Which unique index an insertion would violate. */
  predicate Violates(rows: Schedules, r: Schedule, index: UniqueIndex) {
    exists i :: i in rows &&
      match index
      case IdempotencyKey => SameKey(rows[i], r)
      case AccountSlot => rows[i].account == r.account && rows[i].scheduledAt == r.scheduledAt
      case ActiveDraft => Active(rows[i].status) && rows[i].draft == r.draft && rows[i].account == r.account
  }

  class Store {
    var rows: Schedules
    var posts: Posts
    var drafts: map<Id, DraftStatus>
    var decisions: seq<Id>
    var published: seq<Id>  // POST_PUBLISHED events, by schedule

    ghost predicate Shows(w: World)
      reads this
    {
      rows == w.rows && posts == w.posts && decisions == w.decisions && forall d | d in w.erased :: d !in drafts
    }

    ghost predicate KeysUnique()
      reads this
    {
      forall i, j | i in rows && j in rows && SameKey(rows[i], rows[j]) :: i == j
    }

    constructor ()
      ensures rows == map[] && posts == map[] && drafts == map[] && decisions == [] && published == [] && KeysUnique()
    {
      rows, posts, drafts, decisions, published := map[], map[], map[], [], [];
    }

    /**
     The insertion of a schedule and the answer to a unique violation, of which the database reports
     one index: a repeated key with the same request returns the schedule it made before. The draft is
     promoted by the status it was read with.
     */
    method InsertSchedule(id: Id, row: Schedule, asRead: DraftStatus, call: Id, ghost w: World) returns (outcome: Outcome)
      requires Shows(w) && KeysUnique() && IsNew(row) && !Made(w, id)
      requires call in w.pending && w.pending[call] == Inserting(row) && (row.draft in drafts || row.draft in w.erased)
      modifies `rows, `drafts
      ensures Shows(Next(w, CreateCommit(call, id))) && KeysUnique()
      ensures outcome.NoDraft? <==> row.draft !in old(drafts)
      ensures outcome == Created(id) <==> row.draft in old(drafts) && CanInsert(old(rows), row)
      ensures outcome.Created? ==> outcome.schedule == id && rows == old(rows)[id := row]
      ensures outcome.Created? ==> drafts == if asRead == Draft then old(drafts)[row.draft := Ready] else old(drafts)
      ensures !outcome.Created? ==> rows == old(rows) && drafts == old(drafts)
      ensures outcome.Existing? ==> outcome.schedule in rows && SameKey(rows[outcome.schedule], row)
                                    && rows[outcome.schedule].fingerprint == row.fingerprint
      ensures (exists i :: i in old(rows) && SameKey(old(rows)[i], row) && old(rows)[i].fingerprint == row.fingerprint)
              && !Violates(old(rows), row, AccountSlot) && !Violates(old(rows), row, ActiveDraft) && row.draft in old(drafts)
              ==> outcome.Existing?
    {
      if row.draft !in drafts { return NoDraft; }
      if CanInsert(rows, row) {
        if asRead == Draft { drafts := drafts[row.draft := Ready]; }
        rows := rows[id := row];
        return Created(id);
      }
      ViolatesOne(rows, row);
      var reported: UniqueIndex :| Violates(rows, row, reported);
      if reported.IdempotencyKey? {
        var existing :| existing in rows && SameKey(rows[existing], row);
        return if rows[existing].fingerprint == row.fingerprint then Existing(existing) else Conflict;
      }
      return Conflict;
    }

    /** One guarded UPDATE; the count says whether it took effect. */
    method CancelSchedule(workspace: Id, id: Id, ghost w: World) returns (updated: nat)
      requires Shows(w)
      modifies `rows, `decisions
      ensures Shows(Next(w, Cancel(workspace, id)))
      ensures updated == if id in old(rows) && Cancellable(old(rows)[id], workspace) then 1 else 0
    {
      updated := 0;
      if id in rows && Cancellable(rows[id], workspace) {
        rows := rows[id := rows[id].(status := Cancelled)];
        decisions := decisions + [id];
        updated := 1;
      }
    }

    /** The transaction of CONFIRM_NOT_PUBLISHED. */
    method ConfirmNotPublished(id: Id, call: Id, ghost w: World) returns (resolved: bool)
      requires Shows(w) && call in w.pending && w.pending[call] == Resolving(id)
      modifies `rows, `decisions
      ensures Shows(Next(w, ResolveUnpublished(call)))
      ensures resolved <==> id in old(rows) && old(rows)[id].status.RecoveryRequired?
      ensures rows == if resolved then old(rows)[id := old(rows)[id].(status := Cancelled)] else old(rows)
    {
      resolved := id in rows && rows[id].status.RecoveryRequired?;
      if resolved {
        rows := rows[id := rows[id].(status := Cancelled)];
        decisions := decisions + [id];
      }
    }

    /**
     The transaction of CONFIRM_PUBLISHED: the guarded update, then the insertions; a unique violation of
     the post undoes the update.
     */
    method ConfirmPublished(id: Id, threadsPost: Id, call: Id, ghost w: World) returns (resolved: bool)
      requires Shows(w) && call in w.pending && w.pending[call] == Resolving(id)
      requires id in rows ==> rows[id].draft in drafts
      modifies this
      ensures Shows(Next(w, ResolvePublished(call, threadsPost)))
      ensures resolved <==> id in old(rows) && old(rows)[id].status.RecoveryRequired? && CanPublish(old(posts), old(rows)[id], threadsPost)
      ensures published == old(published) + if resolved then [id] else []
      ensures drafts == if resolved then old(drafts)[old(rows)[id].draft := Archived] else old(drafts)
      ensures !resolved ==> rows == old(rows) && posts == old(posts)
      ensures resolved ==>
        var r := old(rows)[id];
        && rows == old(rows)[id := r.(status := Published, attemptId := None, leaseUntil := None)]
        && posts == old(posts)[(r.draft, r.account) := Post(r.version, threadsPost)]
        && (r.draft, r.account) !in old(posts)
        && forall k | k in old(posts) && k.1 == r.account :: old(posts)[k].threadsPost != threadsPost
    {
      if id !in rows || !rows[id].status.RecoveryRequired? { return false; }
      var before, r := rows, rows[id];
      rows := rows[id := Release(r, Published)];
      if !CanPublish(posts, r, threadsPost) {
        rows := before;
        return false;
      }
      posts := posts[(r.draft, r.account) := Post(r.version, threadsPost)];
      drafts := drafts[r.draft := Archived];
      decisions := decisions + [id];
      published := published + [id];
      return true;
    }

    /**
     The transaction that registers a post ingestion has found: a draft and a version made for it, and a
     row of published_posts, which the unique index on the post may refuse.
     */
    method RegisterPost(draft: Id, account: Id, version: Id, threadsPost: Id, ghost w: World) returns (registered: bool)
      requires Shows(w) && NewDraft(w, draft)
      modifies `posts, `drafts
      ensures Shows(Next(w, Ingest(draft, account, version, threadsPost)))
      ensures registered <==> forall k | k in old(posts) && k.1 == account :: old(posts)[k].threadsPost != threadsPost
      ensures posts == if registered then old(posts)[(draft, account) := Post(version, threadsPost)] else old(posts)
      ensures drafts == if registered then old(drafts)[draft := Archived] else old(drafts)
    {
      var before := drafts;
      drafts := drafts[draft := Archived];
      if !IsFree(posts, account, threadsPost) {
        drafts := before;
        return false;
      }
      posts := posts[(draft, account) := Post(version, threadsPost)];
      return true;
    }

    /** The last update of an OAuth exchange, which the partial index may make fail as a whole. */
    method UnblockSchedules(account: Id, ghost w: World) returns (ok: bool)
      requires Shows(w)
      modifies `rows
      ensures Shows(Next(w, Reconnect(account)))
      ensures ok <==> ActiveUnique(Restored(old(rows), account))
    {
      var restored := Restored(rows, account);
      ok := forall i, j | i in restored && j in restored && i != j && Active(restored[i].status) && Active(restored[j].status) ::
        restored[i].draft != restored[j].draft || restored[i].account != restored[j].account;
      if ok { rows := restored; }
    }

    /** The checks of a deletion, on what the draft's posts and schedules are at that moment. */
    method CheckDeletion(draft: Id, ghost w: World) returns (verdict: Verdict)
      requires Shows(w) && (draft in drafts || draft in w.erased)
      ensures verdict.Deletable? <==> MayDelete(w, draft)
      ensures verdict.Deletable? <==>
        && draft in drafts && (forall k | k in posts :: k.0 != draft)
        && forall i | i in rows && rows[i].draft == draft ::
             rows[i].status in {Cancelled, Expired, FailedPermanent, AuthRequired}
      ensures verdict.Deletable? ==>
        forall i :: (i in verdict.found <==> i in rows && rows[i].draft == draft) && (i in verdict.found ==> verdict.found[i] == rows[i])
      ensures verdict.MissingDraft? <==> draft !in drafts
      ensures verdict.PublishedDraft? <==>
                draft in drafts && (HasPost(posts, draft) || exists i :: i in rows && rows[i].draft == draft && rows[i].status.Published?)
    {
      if draft !in drafts { return MissingDraft; }
      var found := SchedulesOf(rows, draft);
      assert forall i | i in rows && rows[i].draft == draft :: i in found && found[i] == rows[i];
      if HasPost(posts, draft) || exists i :: i in found && found[i].status.Published? { return PublishedDraft; }
      if exists i :: i in found && Active(found[i].status) { return ScheduledDraft; }
      return Deletable(found);
    }

    /**
     The transaction of a deletion: the schedules found before are deleted whatever they have become,
     and the foreign keys of the draft undo that if another schedule or a post refers to it.
     */
    method DeleteDraft(draft: Id, found: Schedules, call: Id, ghost w: World) returns (ok: bool)
      requires Shows(w) && call in w.pending && w.pending[call] == Deleting(draft, found)
      requires forall i | i in found && i in rows :: rows[i].draft == draft
      requires draft in drafts || draft in w.erased
      modifies `rows, `drafts
      ensures Shows(Next(w, DeleteCommit(call)))
      ensures ok <==> draft in old(drafts) && !HasPost(posts, draft)
                      && forall i | i in old(rows) && old(rows)[i].draft == draft :: i in found
      ensures ok ==> draft !in drafts && forall i :: i in rows <==> i in old(rows) && old(rows)[i].draft != draft
      ensures forall i | i in rows :: i in old(rows) && rows[i] == old(rows)[i]
      ensures !ok ==> rows == old(rows) && drafts == old(drafts)
    {
      var before := rows;
      DeletionIs(w, call);
      rows := rows - found.Keys;
      assert forall i | i in before && i !in found :: i in rows && rows[i] == before[i];
      if draft !in drafts || HasPost(posts, draft) || exists i :: i in rows && rows[i].draft == draft {
        rows := before;
        return false;
      }
      assert Deletes(w, draft, found);
      drafts := drafts - {draft};
      return true;
    }
  }

  lemma DeletionIs(w: World, call: Id)
    requires Enabled(w, DeleteCommit(call))
    ensures var w', draft, found := Next(w, DeleteCommit(call)), w.pending[call].draft, w.pending[call].found;
      && w'.posts == w.posts && w'.decisions == w.decisions
      && w'.rows == (if Deletes(w, draft, found) then w.rows - found.Keys else w.rows)
      && w'.erased == (if Deletes(w, draft, found) then w.erased + {draft} else w.erased)
  {
  }

  lemma ViolatesOne(rows: Schedules, r: Schedule)
    requires !CanInsert(rows, r)
    ensures exists index: UniqueIndex :: Violates(rows, r, index)
  {
    var i :| i in rows && (SameKey(rows[i], r)
                           || (rows[i].account == r.account && rows[i].scheduledAt == r.scheduledAt)
                           || (Active(rows[i].status) && rows[i].draft == r.draft && rows[i].account == r.account));
    if SameKey(rows[i], r) {
      assert Violates(rows, r, IdempotencyKey);
    } else if rows[i].account == r.account && rows[i].scheduledAt == r.scheduledAt {
      assert Violates(rows, r, AccountSlot);
    } else {
      assert Violates(rows, r, ActiveDraft);
    }
  }
}
