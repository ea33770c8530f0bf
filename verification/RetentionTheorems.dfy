/** What the daily retention run removes, and that running it again removes nothing. */
module RetentionTheorems {
  import opened Prelude
  import opened Schema
  import opened Retention

  /** The specification for one posting. */
  function RetainedRow(row: JobPosting, now: Instant): Option<JobPosting> {
    if DeadlineBefore(row, DeadlineExpiryCutoff(now)) then None
    else
      var kept := if ClosedBefore(row, now - CONTENT_DAYS * DAY) then ClearedRow(row) else row;
      Some(kept.(revisions := KeepRevisions(row.revisions, now - REVISION_DAYS * DAY)))
  }

  lemma RetainedRows(t: JobTables, now: Instant, key: PostingKey)
    ensures Lookup(RetainedJobs(t, now).postings, key) ==
            if key in t.postings then RetainedRow(t.postings[key], now) else None
  {
    hide KeepRevisions, DeadlineExpiryCutoff;
  }

  predicate OwnerExpires(t: JobTables, now: Instant, postingId: nat) {
    exists key <- t.postings :: t.postings[key].id == postingId && DeadlineBefore(t.postings[key], DeadlineExpiryCutoff(now))
  }

  /** Notifications go with their posting, or ninety days after they were sent. */
  lemma RetainedNotifications(t: JobTables, now: Instant, n: NotificationKey)
    ensures n in RetainedJobs(t, now).notifications <==>
            && n in t.notifications
            && !OwnerExpires(t, now, n.postingId)
            && !(t.notifications[n].sentAt.Some? && t.notifications[n].sentAt.value < now - NOTIFICATION_DAYS * DAY)
    ensures n in RetainedJobs(t, now).notifications ==> RetainedJobs(t, now).notifications[n] == t.notifications[n]
  {
    hide KeepRevisions, DeadlineExpiryCutoff;
    var cleared := ClearContent(t, now - CONTENT_DAYS * DAY);
    var gone := ExpiredPostings(cleared, DeadlineExpiryCutoff(now));
    assert OwnedBy(cleared, gone, n.postingId) <==> OwnerExpires(t, now, n.postingId) by {
      if OwnerExpires(t, now, n.postingId) {
        var key :| key in t.postings && t.postings[key].id == n.postingId && DeadlineBefore(t.postings[key], DeadlineExpiryCutoff(now));
        assert key in gone && cleared.postings[key].id == n.postingId;
      }
    }
  }

  /**
   * A posting is deleted exactly when the Korean date is at least two days past the Korean date of
   * its deadline.
   */
  lemma DeletedTwoDaysAfterDeadline(t: JobTables, now: Instant, key: PostingKey)
    requires key in t.postings
    ensures key !in RetainedJobs(t, now).postings <==>
            t.postings[key].deadlineAt.Some? && KstDate(now) >= KstDate(t.postings[key].deadlineAt.value) + 2
  {
    RetainedRows(t, now, key);
    if t.postings[key].deadlineAt.Some? {
      DateBeforeMidnight(t.postings[key].deadlineAt.value, KstDate(now) - 1);
    }
  }

  lemma DateBeforeMidnight(t: Instant, date: int)
    ensures t < date * DAY - KST_OFFSET <==> KstDate(t) < date
  {
  }

  /** What is deleted at one time is deleted at every later time too. */
  lemma DeletionIsMonotone(t: JobTables, now: Instant, later: Instant, key: PostingKey)
    requires key in t.postings && now <= later
    ensures key !in RetainedJobs(t, now).postings ==> key !in RetainedJobs(t, later).postings
  {
    DeletedTwoDaysAfterDeadline(t, now, key);
    DeletedTwoDaysAfterDeadline(t, later, key);
  }

  // ---- revisions ------------------------------------------------------------------------------

  lemma {:induction false} KeptRevisionsAreRecent(revisions: seq<Revision>, before: Instant)
    ensures forall r <- KeepRevisions(revisions, before) :: r in revisions && r.detectedAt >= before
    ensures |KeepRevisions(revisions, before)| <= |revisions|
    decreases |revisions|
  {
    if revisions != [] {
      KeptRevisionsAreRecent(revisions[..|revisions| - 1], before);
    }
  }

  lemma {:induction false} KeepingIsIdempotent(revisions: seq<Revision>, before: Instant)
    ensures KeepRevisions(KeepRevisions(revisions, before), before) == KeepRevisions(revisions, before)
    decreases |revisions|
  {
    if revisions != [] {
      var init, last := revisions[..|revisions| - 1], revisions[|revisions| - 1];
      KeepingIsIdempotent(init, before);
      var kept := KeepRevisions(init, before);
      if last.detectedAt >= before {
        assert (kept + [last])[..|kept|] == kept;
      } else {
        assert KeepRevisions(revisions, before) == kept;
      }
    }
  }

  ghost predicate InTimeOrder(revisions: seq<Revision>) {
    forall i, j :: 0 <= i < j < |revisions| ==> revisions[i].detectedAt <= revisions[j].detectedAt
  }

  /** On a history in time order the age-based deletion keeps a contiguous suffix. */
  lemma {:induction false} KeepsSuffix(revisions: seq<Revision>, before: Instant)
    requires InTimeOrder(revisions)
    ensures |KeepRevisions(revisions, before)| <= |revisions|
    ensures KeepRevisions(revisions, before) == revisions[|revisions| - |KeepRevisions(revisions, before)|..]
    decreases |revisions|
  {
    if revisions != [] {
      var init, last := revisions[..|revisions| - 1], revisions[|revisions| - 1];
      var kept := KeepRevisions(init, before);
      KeepsSuffix(init, before);
      if last.detectedAt < before {
        KeptRevisionsAreRecent(init, before);
        HeadIsMember(kept);
        assert forall r <- init :: r.detectedAt <= last.detectedAt;
        hide KeepRevisions, InTimeOrder;
        assert kept == [];
      } else {
        hide KeepRevisions, InTimeOrder;
        assert kept + [last] == revisions[|init| - |kept|..];
      }
    }
  }

  lemma {:induction false} KeptRevisionCounts(revisions: seq<Revision>, before: Instant, r: Revision)
    ensures multiset(KeepRevisions(revisions, before))[r] == if r.detectedAt < before then 0 else multiset(revisions)[r]
    decreases |revisions|
  {
    if revisions != [] {
      var init, last := revisions[..|revisions| - 1], revisions[|revisions| - 1];
      KeptRevisionCounts(init, before, r);
      assert revisions == init + [last];
      assert multiset(revisions) == multiset(init) + multiset{last};
    }
  }

  // ---- what is left, and what is reported -----------------------------------------------------

  /** Korean calendar day. */
  function KoreanDay(t: Instant): int {
    (t + 9 * HOUR) / DAY
  }

  /**
   * A posting stays until the second Korean day after its deadline; what stays keeps everything but
   * the body, ninety days after it was closed, and revisions older than half a year.
   */
  lemma RetainedPosting(t: JobTables, now: Instant, key: PostingKey)
    ensures var after := RetainedJobs(t, now).postings;
      && (key in after ==> key in t.postings)
      && (key in t.postings ==>
            var row := t.postings[key];
            && (key !in after <==> row.deadlineAt.Some? && KoreanDay(now) >= KoreanDay(row.deadlineAt.value) + 2)
            && (key in after ==>
                  var blank := !row.isOpen && row.closedAt.Some? && row.closedAt.value < now - 90 * DAY;
                  && after[key] == row.(description := if blank then None else row.description,
                                        raw := if blank then map[] else row.raw, revisions := after[key].revisions)
                  && forall r :: multiset(after[key].revisions)[r] == if r.detectedAt < now - 180 * DAY then 0 else multiset(row.revisions)[r]))
  {
    RetainedRows(t, now, key);
    hide RetainedJobs, KeepRevisions, DeadlineExpiryCutoff;
    if key in t.postings {
      var row := t.postings[key];
      DeletedTwoDaysAfterDeadline(t, now, key);
      forall r ensures multiset(KeepRevisions(row.revisions, now - 180 * DAY))[r]
                       == if r.detectedAt < now - 180 * DAY then 0 else multiset(row.revisions)[r] {
        KeptRevisionCounts(row.revisions, now - 180 * DAY, r);
      }
    }
  }

  /** A run stays for thirty days from its start; a notification as long as its posting, and for ninety days once it was sent. */
  lemma RetainedRunsAndNotes(db: Database, now: Instant)
    ensures forall id :: id in Retained(db, now).runs <==> id in db.runs && db.runs[id].startedAt >= now - 30 * DAY
    ensures forall id <- Retained(db, now).runs :: Retained(db, now).runs[id] == db.runs[id]
    ensures forall n :: n in Retained(db, now).jobs.notifications <==>
              && n in db.jobs.notifications && KeepsOwner(db.jobs, Retained(db, now).jobs, n.postingId)
              && (db.jobs.notifications[n].sentAt.Some? ==> db.jobs.notifications[n].sentAt.value >= now - 90 * DAY)
    ensures forall n <- Retained(db, now).jobs.notifications :: Retained(db, now).jobs.notifications[n] == db.jobs.notifications[n]
  {
    var t, after := db.jobs, RetainedJobs(db.jobs, now);
    hide RetainedJobs, DeadlineExpiryCutoff, KeepsOwner, OwnerExpires;
    forall n
      ensures n in after.notifications <==>
              && n in t.notifications && KeepsOwner(t, after, n.postingId)
              && (t.notifications[n].sentAt.Some? ==> t.notifications[n].sentAt.value >= now - 90 * DAY)
      ensures n in after.notifications ==> after.notifications[n] == t.notifications[n]
    {
      RetainedNotifications(t, now, n);
      OwnersStay(t, now, n.postingId);
    }
  }

  /** No posting of that id was deleted. */
  ghost predicate KeepsOwner(t: JobTables, after: JobTables, postingId: nat) {
    forall key <- t.postings :: t.postings[key].id == postingId ==> key in after.postings
  }

  lemma OwnersStay(t: JobTables, now: Instant, postingId: nat)
    ensures KeepsOwner(t, RetainedJobs(t, now), postingId) <==> !OwnerExpires(t, now, postingId)
  {
    hide RetainedJobs, DeadlineExpiryCutoff;
    forall key <- t.postings
      ensures key in RetainedJobs(t, now).postings <==> !DeadlineBefore(t.postings[key], DeadlineExpiryCutoff(now))
    {
      RetainedRows(t, now, key);
    }
  }

  /** The notifications whose posting stays and which are gone all the same. */
  ghost function AgedNotes(t: JobTables, after: JobTables): set<NotificationKey> {
    set n | n in t.notifications && n !in after.notifications && KeepsOwner(t, after, n.postingId)
  }

  /** The revisions of the postings that stay which were too old. */
  ghost function AgedRevisions(t: JobTables, after: JobTables, now: Instant): set<(PostingKey, nat)> {
    set key, i: nat | key in after.postings && key in t.postings && i < |t.postings[key].revisions|
                      && t.postings[key].revisions[i].detectedAt < now - 180 * DAY :: (key, i)
  }

  ghost function LongClosed(t: JobTables, now: Instant): set<PostingKey> {
    set key | key in t.postings && !t.postings[key].isOpen && t.postings[key].closedAt.Some? && t.postings[key].closedAt.value < now - 90 * DAY
              && (t.postings[key].description.Some? || t.postings[key].raw != map[])
  }

  /**
   * The report adds up: postings and runs before are those after plus those reported; reported
   * notifications are those that went without their posting, and reported revisions those that went
   * from postings that stay. Cleared bodies are counted where there was one.
   */
  lemma ReportAddsUp(db: Database, now: Instant, after: Database, summary: Summary)
    requires after == Retained(db, now) && summary == RetentionSummary(db, now)
    ensures |db.jobs.postings.Keys| == |after.jobs.postings.Keys| + summary.postingsDeleted
    ensures |db.runs.Keys| == |after.runs.Keys| + summary.crawlRunsDeleted
    ensures summary.contentCleared == |LongClosed(db.jobs, now)|
    ensures summary.notificationsDeleted == |AgedNotes(db.jobs, after.jobs)|
    ensures summary.revisionsDeleted == |AgedRevisions(db.jobs, after.jobs, now)|
  {
    hide RetainedJobs, ClearContent, DeletePostings, ExpiredPostings, OldNotifications, OldRevisions, DeadlineExpiryCutoff, AgedNotes, AgedRevisions,
         ContentToClear, LongClosed, OldRuns;
    PostingsAddUp(db.jobs, now);
    NotesAddUp(db.jobs, now);
    RevisionsAddUp(db.jobs, now);
    BodiesAddUp(db.jobs, now);
    RunsAddUp(db, now);
  }

  lemma BodiesAddUp(t: JobTables, now: Instant)
    ensures ContentToClear(t, now - CONTENT_DAYS * DAY) == LongClosed(t, now)
  {
  }

  lemma RunsAddUp(db: Database, now: Instant)
    ensures var gone := OldRuns(db, now - RUN_DAYS * DAY); |db.runs.Keys| == |(db.runs - gone).Keys| + |gone|
  {
    var gone := OldRuns(db, now - RUN_DAYS * DAY);
    assert db.runs.Keys == (db.runs - gone).Keys + gone;
  }

  lemma PostingsAddUp(t: JobTables, now: Instant)
    ensures var gone := ExpiredPostings(ClearContent(t, now - CONTENT_DAYS * DAY), DeadlineExpiryCutoff(now));
      |t.postings.Keys| == |RetainedJobs(t, now).postings.Keys| + |gone|
  {
    hide RetainedJobs, ClearContent, ExpiredPostings, DeadlineExpiryCutoff;
    var after := RetainedJobs(t, now).postings.Keys;
    var gone := ExpiredPostings(ClearContent(t, now - CONTENT_DAYS * DAY), DeadlineExpiryCutoff(now));
    forall key ensures (key in t.postings.Keys <==> key in after || key in gone) && !(key in after && key in gone) {
      KeptOrGone(t, now, key);
    }
    assert t.postings.Keys == after + gone && after !! gone;
  }

  lemma KeptOrGone(t: JobTables, now: Instant, key: PostingKey)
    ensures var gone := ExpiredPostings(ClearContent(t, now - CONTENT_DAYS * DAY), DeadlineExpiryCutoff(now));
      && (key in t.postings <==> key in RetainedJobs(t, now).postings || key in gone)
      && !(key in RetainedJobs(t, now).postings && key in gone)
  {
    RetainedRows(t, now, key);
    hide RetainedJobs, DeadlineExpiryCutoff, KeepRevisions;
  }

  lemma NotesAddUp(t: JobTables, now: Instant)
    ensures var cleared := ClearContent(t, now - CONTENT_DAYS * DAY);
      var expired := DeletePostings(cleared, ExpiredPostings(cleared, DeadlineExpiryCutoff(now)));
      OldNotifications(expired, now - NOTIFICATION_DAYS * DAY) == AgedNotes(t, RetainedJobs(t, now))
  {
    hide RetainedJobs, DeadlineExpiryCutoff;
    var cleared := ClearContent(t, now - CONTENT_DAYS * DAY);
    var gone := ExpiredPostings(cleared, DeadlineExpiryCutoff(now));
    forall n: NotificationKey ensures OwnedBy(cleared, gone, n.postingId) <==> OwnerExpires(t, now, n.postingId) {
      OwnersAlike(t, now, n.postingId);
    }
    hide ClearContent, ExpiredPostings, OwnerExpires, OwnedBy, KeepsOwner;
    forall n ensures n in OldNotifications(DeletePostings(cleared, gone), now - NOTIFICATION_DAYS * DAY) <==> n in AgedNotes(t, RetainedJobs(t, now)) {
      RetainedNotifications(t, now, n);
      OwnersStay(t, now, n.postingId);
      ClearingKeepsNotes(t, now);
    }
  }

  lemma ClearingKeepsNotes(t: JobTables, now: Instant)
    ensures ClearContent(t, now - CONTENT_DAYS * DAY).notifications == t.notifications
  {
  }

  lemma OwnersAlike(t: JobTables, now: Instant, postingId: nat)
    ensures var cleared := ClearContent(t, now - CONTENT_DAYS * DAY);
      OwnedBy(cleared, ExpiredPostings(cleared, DeadlineExpiryCutoff(now)), postingId) <==> OwnerExpires(t, now, postingId)
  {
    hide DeadlineExpiryCutoff;
    var cleared := ClearContent(t, now - CONTENT_DAYS * DAY);
    var gone := ExpiredPostings(cleared, DeadlineExpiryCutoff(now));
    if OwnerExpires(t, now, postingId) {
      var key :| key in t.postings && t.postings[key].id == postingId && DeadlineBefore(t.postings[key], DeadlineExpiryCutoff(now));
      assert key in gone && cleared.postings[key].id == postingId;
    }
  }

  lemma RevisionsAddUp(t: JobTables, now: Instant)
    ensures var cleared := ClearContent(t, now - CONTENT_DAYS * DAY);
      var expired := DeletePostings(cleared, ExpiredPostings(cleared, DeadlineExpiryCutoff(now)));
      var notified := expired.(notifications := expired.notifications - OldNotifications(expired, now - NOTIFICATION_DAYS * DAY));
      OldRevisions(notified, now - REVISION_DAYS * DAY) == AgedRevisions(t, RetainedJobs(t, now), now)
  {
    hide RetainedJobs, DeadlineExpiryCutoff;
    var cleared := ClearContent(t, now - CONTENT_DAYS * DAY);
    var expired := DeletePostings(cleared, ExpiredPostings(cleared, DeadlineExpiryCutoff(now)));
    forall key
      ensures key in expired.postings <==> key in t.postings && key in RetainedJobs(t, now).postings
      ensures key in expired.postings ==> expired.postings[key].revisions == t.postings[key].revisions
    {
      RetainedRows(t, now, key);
      hide KeepRevisions;
    }
    hide ClearContent, DeletePostings, ExpiredPostings;
  }

  // ---- running it twice -----------------------------------------------------------------------

  lemma RetainedRowIsStable(row: JobPosting, now: Instant)
    requires RetainedRow(row, now).Some?
    ensures RetainedRow(RetainedRow(row, now).value, now) == RetainedRow(row, now)
  {
    KeepingIsIdempotent(row.revisions, now - REVISION_DAYS * DAY);
    hide KeepRevisions, DeadlineExpiryCutoff;
  }

  /** A second run at the same instant changes nothing and reports zero everywhere. */
  lemma SecondRunDoesNothing(db: Database, now: Instant)
    ensures Retained(Retained(db, now), now) == Retained(db, now)
    ensures RetentionSummary(Retained(db, now), now) == Summary(0, 0, 0, 0, 0)
  {
    var after := Retained(db, now);
    SecondRunRows(db.jobs, now);
    SecondRunCounts(db.jobs, now);
    hide RetainedJobs, ClearContent, DeletePostings, ExpiredPostings, OldNotifications, OldRevisions, ContentToClear;
    assert OldRuns(after, now - RUN_DAYS * DAY) == {};
    assert after.runs - {} == after.runs;
  }

  lemma SecondRunRows(t: JobTables, now: Instant)
    ensures RetainedJobs(RetainedJobs(t, now), now) == RetainedJobs(t, now)
  {
    var after := RetainedJobs(t, now);
    var again := RetainedJobs(after, now);
    hide RetainedJobs;
    forall key ensures Lookup(again.postings, key) == Lookup(after.postings, key) {
      RetainedRows(t, now, key);
      RetainedRows(after, now, key);
      if key in after.postings {
        RetainedRowIsStable(t.postings[key], now);
      }
    }
    forall n ensures n in again.notifications <==> n in after.notifications
             ensures n in again.notifications ==> again.notifications[n] == after.notifications[n] {
      RetainedNotifications(t, now, n);
      RetainedNotifications(after, now, n);
      NoOwnerExpiresTwice(t, now, n.postingId);
    }
    SameTables(t, now, after, again);
  }

  lemma NoOwnerExpiresTwice(t: JobTables, now: Instant, id: nat)
    ensures !OwnerExpires(RetainedJobs(t, now), now, id)
  {
    hide RetainedJobs;
    forall key <- RetainedJobs(t, now).postings
      ensures !DeadlineBefore(RetainedJobs(t, now).postings[key], DeadlineExpiryCutoff(now))
    {
      RetainedRows(t, now, key);
    }
  }

  lemma SameTables(t: JobTables, now: Instant, after: JobTables, again: JobTables)
    requires after == RetainedJobs(t, now) && again == RetainedJobs(after, now)
    requires forall key :: Lookup(again.postings, key) == Lookup(after.postings, key)
    requires forall n :: n in again.notifications <==> n in after.notifications
    requires forall n <- again.notifications :: again.notifications[n] == after.notifications[n]
    ensures again == after
  {
    assert again.keywords == after.keywords && again.nextPostingId == after.nextPostingId by {
      hide ClearContent, DeletePostings, DeleteRevisions, ExpiredPostings, OldNotifications;
      FrameOfRetention(t, now);
      FrameOfRetention(after, now);
    }
    hide RetainedJobs;
    forall key ensures key in again.postings <==> key in after.postings
               ensures key in after.postings ==> again.postings[key] == after.postings[key] {
      assert Lookup(again.postings, key) == Lookup(after.postings, key);
    }
    assert again.postings == after.postings;
    assert again.notifications == after.notifications;
  }

  lemma FrameOfRetention(t: JobTables, now: Instant)
    ensures RetainedJobs(t, now).keywords == t.keywords && RetainedJobs(t, now).nextPostingId == t.nextPostingId
  {
  }

  lemma SecondRunCounts(t: JobTables, now: Instant)
    ensures var after := RetainedJobs(t, now);
      var cleared := ClearContent(after, now - CONTENT_DAYS * DAY);
      var gone := ExpiredPostings(cleared, DeadlineExpiryCutoff(now));
      var expired := DeletePostings(cleared, gone);
      var oldNotifications := OldNotifications(expired, now - NOTIFICATION_DAYS * DAY);
      && ContentToClear(after, now - CONTENT_DAYS * DAY) == {} && gone == {} && oldNotifications == {}
      && OldRevisions(expired.(notifications := expired.notifications - oldNotifications), now - REVISION_DAYS * DAY) == {}
  {
    hide RetainedJobs, KeepRevisions, DeadlineExpiryCutoff;
    var after := RetainedJobs(t, now);
    forall key <- after.postings
      ensures Settled(after.postings[key], now)
    {
      RetainedRows(t, now, key);
      KeptRevisionsAreRecent(t.postings[key].revisions, now - REVISION_DAYS * DAY);
    }
    forall n <- after.notifications
      ensures !(after.notifications[n].sentAt.Some? && after.notifications[n].sentAt.value < now - NOTIFICATION_DAYS * DAY)
    {
      RetainedNotifications(t, now, n);
    }
    NothingLeft(after, now);
  }

  lemma NothingLeft(t: JobTables, now: Instant)
    requires forall key <- t.postings :: Settled(t.postings[key], now)
    requires forall n <- t.notifications ::
               !(t.notifications[n].sentAt.Some? && t.notifications[n].sentAt.value < now - NOTIFICATION_DAYS * DAY)
    ensures var cleared := ClearContent(t, now - CONTENT_DAYS * DAY);
      var gone := ExpiredPostings(cleared, DeadlineExpiryCutoff(now));
      var expired := DeletePostings(cleared, gone);
      var oldNotifications := OldNotifications(expired, now - NOTIFICATION_DAYS * DAY);
      && ContentToClear(t, now - CONTENT_DAYS * DAY) == {} && gone == {} && oldNotifications == {}
      && OldRevisions(expired.(notifications := expired.notifications - oldNotifications), now - REVISION_DAYS * DAY) == {}
  {
    var cleared := ClearContent(t, now - CONTENT_DAYS * DAY);
    hide DeadlineExpiryCutoff;
    assert forall key <- cleared.postings :: Settled(cleared.postings[key], now) by {
      assert forall key <- cleared.postings :: Settled(t.postings[key], now);
    }
  }

  /** Nothing in the row is old enough for any of the statements. */
  ghost predicate Settled(row: JobPosting, now: Instant) {
    && !(ClosedBefore(row, now - CONTENT_DAYS * DAY) && HasBody(row))
    && !DeadlineBefore(row, DeadlineExpiryCutoff(now))
    && forall r <- row.revisions :: r.detectedAt >= now - REVISION_DAYS * DAY
  }
}
