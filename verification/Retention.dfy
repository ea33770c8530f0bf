/** app/services/retention.py and the repository statements it runs. */
module Retention {
  import opened Prelude
  import opened Schema

  const KST_OFFSET: int := 9 * HOUR
  const CONTENT_DAYS: int := 90
  const RUN_DAYS: int := 30
  const NOTIFICATION_DAYS: int := 90
  const REVISION_DAYS: int := 180

  datatype Summary = Summary(
    contentCleared: nat, postingsDeleted: nat, crawlRunsDeleted: nat, notificationsDeleted: nat, revisionsDeleted: nat)

  function KstDate(t: Instant): int {
    (t + KST_OFFSET) / DAY
  }

  /** Korean midnight at the start of yesterday. */
  function DeadlineExpiryCutoff(now: Instant): Instant {
    (KstDate(now) - 1) * DAY - KST_OFFSET
  }

  // ---- what each statement does ---------------------------------------------------------------

  predicate ClosedBefore(row: JobPosting, before: Instant) {
    !row.isOpen && row.closedAt.Some? && row.closedAt.value < before
  }

  predicate HasBody(row: JobPosting) {
    row.description.Some? || row.raw != map[]
  }

  function ClearedRow(row: JobPosting): JobPosting {
    row.(description := None, raw := map[])
  }

  function ContentToClear(t: JobTables, before: Instant): set<PostingKey> {
    set key | key in t.postings && ClosedBefore(t.postings[key], before) && HasBody(t.postings[key])
  }

  function ClearContent(t: JobTables, before: Instant): JobTables {
    t.(postings := map key | key in t.postings ::
         if ClosedBefore(t.postings[key], before) then ClearedRow(t.postings[key]) else t.postings[key])
  }

  predicate DeadlineBefore(row: JobPosting, before: Instant) {
    row.deadlineAt.Some? && row.deadlineAt.value < before
  }

  function ExpiredPostings(t: JobTables, before: Instant): set<PostingKey> {
    set key | key in t.postings && DeadlineBefore(t.postings[key], before)
  }

  /** Deleting postings takes their notifications along. */
  function DeletePostings(t: JobTables, keys: set<PostingKey>): JobTables {
    t.(postings := t.postings - keys,
       notifications := map n | n in t.notifications && !OwnedBy(t, keys, n.postingId) :: t.notifications[n])
  }

  predicate OwnedBy(t: JobTables, keys: set<PostingKey>, postingId: nat) {
    exists key <- keys :: key in t.postings && t.postings[key].id == postingId
  }

  function OldRuns(db: Database, before: Instant): set<nat> {
    set id | id in db.runs && db.runs[id].startedAt < before
  }

  function OldNotifications(t: JobTables, before: Instant): set<NotificationKey> {
    set n | n in t.notifications && t.notifications[n].sentAt.Some? && t.notifications[n].sentAt.value < before
  }

  function KeepRevisions(revisions: seq<Revision>, before: Instant): seq<Revision> {
    if revisions == [] then []
    else
      var last := revisions[|revisions| - 1];
      KeepRevisions(revisions[..|revisions| - 1], before) + if last.detectedAt < before then [] else [last]
  }

  function DeleteRevisions(t: JobTables, before: Instant): JobTables {
    t.(postings := map key | key in t.postings ::
         t.postings[key].(revisions := KeepRevisions(t.postings[key].revisions, before)))
  }

  function OldRevisions(t: JobTables, before: Instant): set<(PostingKey, nat)> {
    set key, i: nat | key in t.postings && i < |t.postings[key].revisions| && t.postings[key].revisions[i].detectedAt < before
      :: (key, i)
  }

  /** The tables after the five statements, in their order. */
  function RetainedJobs(t: JobTables, now: Instant): JobTables {
    var cleared := ClearContent(t, now - CONTENT_DAYS * DAY);
    var expired := DeletePostings(cleared, ExpiredPostings(cleared, DeadlineExpiryCutoff(now)));
    var notified := expired.(notifications := expired.notifications - OldNotifications(expired, now - NOTIFICATION_DAYS * DAY));
    DeleteRevisions(notified, now - REVISION_DAYS * DAY)
  }

  function Retained(db: Database, now: Instant): Database {
    db.(jobs := RetainedJobs(db.jobs, now), runs := db.runs - OldRuns(db, now - RUN_DAYS * DAY))
  }

  function RetentionSummary(db: Database, now: Instant): Summary {
    var cleared := ClearContent(db.jobs, now - CONTENT_DAYS * DAY);
    var gone := ExpiredPostings(cleared, DeadlineExpiryCutoff(now));
    var expired := DeletePostings(cleared, gone);
    var oldNotifications := OldNotifications(expired, now - NOTIFICATION_DAYS * DAY);
    var notified := expired.(notifications := expired.notifications - oldNotifications);
    Summary(|ContentToClear(db.jobs, now - CONTENT_DAYS * DAY)|, |gone|, |OldRuns(db, now - RUN_DAYS * DAY)|,
            |oldNotifications|, |OldRevisions(notified, now - REVISION_DAYS * DAY)|)
  }

  // ---- the service ----------------------------------------------------------------------------

  class RetentionRepository {
    const session: Session

    constructor (session: Session)
      ensures this.session == session
    {
      this.session := session;
    }

    method ClearClosedPostingContent(closedBefore: Instant) returns (cleared: nat)
      modifies session
      ensures session.db == old(session.db).(jobs := ClearContent(old(session.db.jobs), closedBefore))
      ensures cleared == |ContentToClear(old(session.db.jobs), closedBefore)|
    {
      var rows;
      rows, cleared := ClearRows(session.db.jobs, closedBefore);
      session.db := session.db.(jobs := session.db.jobs.(postings := rows));
    }

    method DeletePostingsWithDeadlineBefore(deadlineBefore: Instant) returns (deleted: nat)
      modifies session
      ensures var gone := ExpiredPostings(old(session.db.jobs), deadlineBefore);
              session.db == old(session.db).(jobs := DeletePostings(old(session.db.jobs), gone)) && deleted == |gone|
    {
      var gone := ExpiredPostings(session.db.jobs, deadlineBefore);
      session.db := session.db.(jobs := DeletePostings(session.db.jobs, gone));
      deleted := |gone|;
    }

    method DeleteCrawlRunsBefore(startedBefore: Instant) returns (deleted: nat)
      modifies session
      ensures var gone := OldRuns(old(session.db), startedBefore);
              session.db == old(session.db).(runs := old(session.db.runs) - gone) && deleted == |gone|
    {
      var gone := OldRuns(session.db, startedBefore);
      session.db := session.db.(runs := session.db.runs - gone);
      deleted := |gone|;
    }

    method DeleteNotificationsBefore(sentBefore: Instant) returns (deleted: nat)
      modifies session
      ensures var t := old(session.db.jobs);
              var gone := OldNotifications(t, sentBefore);
              session.db == old(session.db).(jobs := t.(notifications := t.notifications - gone)) && deleted == |gone|
    {
      var gone := OldNotifications(session.db.jobs, sentBefore);
      session.db := session.db.(jobs := session.db.jobs.(notifications := session.db.jobs.notifications - gone));
      deleted := |gone|;
    }

    method DeleteRevisionsBefore(detectedBefore: Instant) returns (deleted: nat)
      modifies session
      ensures session.db == old(session.db).(jobs := DeleteRevisions(old(session.db.jobs), detectedBefore))
      ensures deleted == |OldRevisions(old(session.db.jobs), detectedBefore)|
    {
      deleted := |OldRevisions(session.db.jobs, detectedBefore)|;
      session.db := session.db.(jobs := DeleteRevisions(session.db.jobs, detectedBefore));
    }
  }

  /** The loop over the postings closed long ago: rows already empty are not counted again. */
  method ClearRows(t: JobTables, before: Instant) returns (rows: map<PostingKey, JobPosting>, cleared: nat)
    ensures t.(postings := rows) == ClearContent(t, before)
    ensures cleared == |ContentToClear(t, before)|
  {
    hide ClosedBefore, HasBody, ClearedRow, RowsCleared, ClearContent, ContentToClear;
    rows, cleared := t.postings, 0;
    var todo := set key | key in rows && ClosedBefore(rows[key], before);
    ClearStarts(t, before, todo);
    while todo != {}
      invariant RowsCleared(t, before, todo, rows, cleared)
      decreases |todo|
    {
      var key :| key in todo;
      ClearRowsKnown(t, before, todo, rows, cleared);
      if !HasBody(rows[key]) {
        ClearSkip(t, before, todo, rows, cleared, key);
        todo := todo - {key};
        continue;
      }
      ClearHit(t, before, todo, rows, cleared, key);
      todo := todo - {key};
      rows := rows[key := ClearedRow(rows[key])];
      cleared := cleared + 1;
    }
    ClearEnds(t, before, rows, cleared);
  }

  /** Between two turns of that loop. */
  ghost predicate RowsCleared(t: JobTables, before: Instant, todo: set<PostingKey>, rows: map<PostingKey, JobPosting>, cleared: nat) {
    && (forall key <- todo :: key in t.postings && ClosedBefore(t.postings[key], before))
    && (forall key :: key in rows <==> key in t.postings)
    && (forall key <- t.postings :: rows[key] ==
          if key !in todo && ClosedBefore(t.postings[key], before) then ClearedRow(t.postings[key]) else t.postings[key])
    && cleared == |ContentToClear(t, before) - todo|
  }

  lemma ClearStarts(t: JobTables, before: Instant, todo: set<PostingKey>)
    requires todo == set key | key in t.postings && ClosedBefore(t.postings[key], before)
    ensures RowsCleared(t, before, todo, t.postings, 0)
  {
    hide ClosedBefore, HasBody, ClearedRow;
    assert ContentToClear(t, before) - todo == {};
  }

  lemma ClearRowsKnown(t: JobTables, before: Instant, todo: set<PostingKey>, rows: map<PostingKey, JobPosting>, cleared: nat)
    requires RowsCleared(t, before, todo, rows, cleared)
    ensures forall key <- todo :: key in rows
  {
    hide ClosedBefore, ClearedRow, ContentToClear;
  }

  lemma OneToClear(t: JobTables, before: Instant, key: PostingKey)
    requires key in t.postings && ClosedBefore(t.postings[key], before)
    ensures key in ContentToClear(t, before) <==> HasBody(t.postings[key])
    ensures !HasBody(t.postings[key]) ==> ClearedRow(t.postings[key]) == t.postings[key]
  {
    hide ClosedBefore;
  }

  lemma ClearSkip(t: JobTables, before: Instant, todo: set<PostingKey>, rows: map<PostingKey, JobPosting>, cleared: nat, key: PostingKey)
    requires RowsCleared(t, before, todo, rows, cleared) && key in todo && !HasBody(rows[key])
    ensures RowsCleared(t, before, todo - {key}, rows, cleared)
  {
    hide ClosedBefore, HasBody, ClearedRow, ContentToClear;
    OneToClear(t, before, key);
    TakeOut(ContentToClear(t, before), todo, key);
  }

  lemma ClearHit(t: JobTables, before: Instant, todo: set<PostingKey>, rows: map<PostingKey, JobPosting>, cleared: nat, key: PostingKey)
    requires RowsCleared(t, before, todo, rows, cleared) && key in todo && HasBody(rows[key])
    ensures RowsCleared(t, before, todo - {key}, rows[key := ClearedRow(rows[key])], cleared + 1)
  {
    hide ClosedBefore, HasBody, ClearedRow, ContentToClear;
    OneToClear(t, before, key);
    TakeOut(ContentToClear(t, before), todo, key);
  }

  lemma ClearEnds(t: JobTables, before: Instant, rows: map<PostingKey, JobPosting>, cleared: nat)
    requires RowsCleared(t, before, {}, rows, cleared)
    ensures t.(postings := rows) == ClearContent(t, before)
    ensures cleared == |ContentToClear(t, before)|
  {
    hide ClosedBefore, HasBody, ClearedRow;
    assert rows == ClearContent(t, before).postings;
    assert ContentToClear(t, before) - {} == ContentToClear(t, before);
  }

  class RetentionService {
    const session: Session
    const repository: RetentionRepository

    ghost predicate Wired() {
      repository.session == session
    }

    constructor (session: Session)
      ensures Wired() && this.session == session
    {
      var r := new RetentionRepository(session);
      this.session, this.repository := session, r;
    }

    method Run(now: Instant) returns (summary: Summary)
      requires Wired()
      modifies session
      ensures session.db == Retained(old(session.db), now)
      ensures summary == RetentionSummary(old(session.db), now)
    {
      hide ClearContent, DeletePostings, ExpiredPostings, DeleteRevisions, OldRevisions, OldNotifications, ContentToClear;
      var cleared := repository.ClearClosedPostingContent(now - CONTENT_DAYS * DAY);
      var postings := repository.DeletePostingsWithDeadlineBefore(DeadlineExpiryCutoff(now));
      var runs := repository.DeleteCrawlRunsBefore(now - RUN_DAYS * DAY);
      var notifications := repository.DeleteNotificationsBefore(now - NOTIFICATION_DAYS * DAY);
      var revisions := repository.DeleteRevisionsBefore(now - REVISION_DAYS * DAY);
      summary := Summary(cleared, postings, runs, notifications, revisions);
    }
  }
}
