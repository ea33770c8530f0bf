/** What holds over whole histories: the closing rule, and how often a posting is announced. */
module HistoryTheorems {
  import opened Prelude
  import opened Schema
  import opened Collector
  import opened CollectorTheorems
  import opened Retention
  import opened RetentionTheorems
  import opened Dispatcher
  import opened DispatcherTheorems
  import opened History

  // ---- three misses close a posting -----------------------------------------------------------

  /** How long an identity has not been shown: complete collections of its source, and the time of the third. */
  datatype Absence = Absence(misses: nat, third: Option<Instant>)

  ghost function MissesSince(p: Platform, sources: map<nat, Source>, keywords: seq<Keyword>, events: seq<Event>, key: PostingKey): Absence {
    if events == [] then Absence(0, None)
    else
      var init, last := events[..|events| - 1], events[|events| - 1];
      Missed(MissesSince(p, sources, keywords, init, key), Applied(p, sources, KeywordsAfter(keywords, init), last), last, key)
  }

  ghost function Missed(absence: Absence, applied: Option<seq<JobPostingDTO>>, e: Event, key: PostingKey): Absence {
    match applied
    case None => absence
    case Some(jobs) =>
      if Shows(jobs, key) then Absence(0, None)
      else if e.Collection? && e.sourceId == key.sourceId && e.complete
      then Absence(absence.misses + 1, if absence.misses == 2 then Some(e.at.now) else absence.third)
      else absence
  }

  ghost predicate CountsMisses(row: JobPosting, absence: Absence) {
    && row.consecutiveMissingRuns == (if absence.misses < 3 then absence.misses else 3)
    && (row.isOpen <==> absence.misses < 3)
    && row.closedAt == absence.third && (absence.third.Some? <==> absence.misses >= 3)
  }

  lemma SightedIsOpen(p: Platform, keywords: seq<Keyword>, known: Option<JobPosting>, job: JobPostingDTO, id: nat, at: Moment)
    ensures var row := JobRow(p, keywords, known, job, id, at);
      row.Some? ==> CountsMisses(row.value, Absence(0, None))
  {
    hide Judge, Changes;
  }

  /** A shown identity is open and has no misses after any batch, however often it is repeated. */
  lemma {:induction false} ShownIsOpen(p: Platform, keywords: seq<Keyword>, known: Option<JobPosting>, key: PostingKey,
                                       jobs: seq<JobPostingDTO>, ids: seq<nat>, at: Moment)
    requires Shows(jobs, key)
    ensures var row := RowAfter(p, keywords, known, key, jobs, ids, at);
      row.Some? ==> CountsMisses(row.value, Absence(0, None))
    decreases |jobs|
  {
    hide JobRow, CountsMisses;
    var n := |jobs| - 1;
    if jobs[n].Key() == key {
      SightedIsOpen(p, keywords, RowAfter(p, keywords, known, key, jobs[..n], ids, at), jobs[n], IdAt(ids, n), at);
    } else {
      var i :| 0 <= i < |jobs| && jobs[i].Key() == key;
      assert jobs[..n][i] == jobs[i];
      ShownIsOpen(p, keywords, known, key, jobs[..n], ids, at);
    }
  }

  lemma UnseenCounts(row: Option<JobPosting>, ofSource: bool, complete: bool, at: Instant, absence: Absence)
    requires row.Some? ==> CountsMisses(row.value, absence)
    ensures UnseenRow(row, ofSource, complete, at).Some? ==>
              && row.Some?
              && CountsMisses(UnseenRow(row, ofSource, complete, at).value,
                              if complete && ofSource
                              then Absence(absence.misses + 1, if absence.misses == 2 then Some(at) else absence.third) else absence)
  {
  }

  lemma StepCountsMisses(p: Platform, sources: map<nat, Source>, keywords: seq<Keyword>, e: Event, key: PostingKey, row: Option<JobPosting>, absence: Absence)
    requires row.Some? ==> CountsMisses(row.value, absence)
    ensures var after := RowNext(p, sources, keywords, e, key, row);
      after.Some? ==> CountsMisses(after.value, Missed(absence, Applied(p, sources, keywords, e), e, key))
  {
    hide Accepted, RowAfter, UnseenRow, KeepRevisions, KeepMatches, DeadlineExpiryCutoff;
    match e
    case Collection(sourceId, _, complete, at, ids, _) =>
      hide CountsMisses;
      if jobs :| Applied(p, sources, keywords, e) == Some(jobs) {
        hide Applied;
        if Shows(jobs, key) {
          ShownIsOpen(p, keywords, row, key, jobs, ids, at);
        } else {
          UnseenCounts(row, key.sourceId == sourceId, complete, at.now, absence);
        }
      }
    case _ =>
  }

  /**
   * In every history the stored counter is the number of complete collections of the source since
   * the posting was last shown, capped at three, and the posting is closed exactly from three on, as
   * of the time of the third.
   * Partial collections count nothing but still reopen what they show; failed ones do nothing.
   */
  lemma {:induction false} ThreeMissesClose(p: Platform, w: World, events: seq<Event>, key: PostingKey)
    requires Fresh(w)
    requires key in Run(p, w, events).db.jobs.postings
    ensures CountsMisses(Run(p, w, events).db.jobs.postings[key], MissesSince(p, w.db.sources, w.db.jobs.keywords, events, key))
    decreases |events|
  {
    hide Tables, Messages, CountsMisses, Applied, RowNext, Missed;
    if events != [] {
      var init, last := events[..|events| - 1], events[|events| - 1];
      var before := Run(p, w, init);
      FrameOfRun(p, w, init);
      if key in before.db.jobs.postings {
        ThreeMissesClose(p, w, init, key);
      }
      RowsStepAlone(p, before.db, last, key);
      StepCountsMisses(p, before.db.sources, before.db.jobs.keywords, last, key, Lookup(before.db.jobs.postings, key),
                       MissesSince(p, w.db.sources, w.db.jobs.keywords, init, key));
    }
  }

  // ---- what a dispatch takes up ---------------------------------------------------------------

  /**
   * In every history a dispatch creates a row about a stored posting, on a channel that has none
   * for it, exactly when the channel is configured, fewer than three complete collections have
   * passed since the posting was last shown, it was first seen within the lookback, and it has
   * evidence of an include keyword and of no exclude keyword.
   */
  lemma DispatchTakesUpExactly(p: Platform, w: World, events: seq<Event>, e: Event, key: PostingKey, channel: Channel, before: World)
    requires Fresh(w) && Schedule(p, w, events) && before == Run(p, w, events) && e.Dispatching?
    requires key in before.db.jobs.postings
    requires NotificationKey(before.db.jobs.postings[key].id, channel) !in before.db.jobs.notifications
    ensures var t, row := before.db.jobs, before.db.jobs.postings[key];
      NotificationKey(row.id, channel) in Step(p, before, e).db.jobs.notifications <==>
        && (exists i :: 0 <= i < |e.senders| && e.senders[i].name == channel)
        && MissesSince(p, w.db.sources, w.db.jobs.keywords, events, key).misses < 3
        && e.now - e.settings.lookbackMinutes * MINUTE <= row.firstSeenAt
        && (exists m <- row.keywordMatches, k <- t.keywords :: k.id == Some(m.keywordId) && k.kind == Include)
        && !(exists m <- row.keywordMatches, k <- t.keywords :: k.id == Some(m.keywordId) && k.kind == Exclude)
  {
    var t, row := before.db.jobs, before.db.jobs.postings[key];
    FreshTables(p, w);
    ReachableTables(p, w, events);
    ThreeMissesClose(p, w, events, key);
    var since := e.now - e.settings.lookbackMinutes * MINUTE;
    hide Run, Schedule, Fresh, RowsOk, NotesOk, UniqueIds, DispatchBatches, MissesSince, TellsNews, IsNews, Messages;
    OneOwner(t, before.used, key, since);
    CreatedIfNews(t, e.senders, e.settings, e.now, e.force, NotificationKey(row.id, channel));
    NewsSpelled(t, row, since);
  }

  lemma OneOwner(t: JobTables, used: set<nat>, key: PostingKey, since: Instant)
    requires UniqueIds(t, used) && key in t.postings
    ensures TellsNews(t, t.postings[key].id, since) <==> IsNews(t, t.postings[key], since)
  {
    hide IsNews;
  }

  // ---- one announcement per posting row and channel -------------------------------------------

  /** No dispatch looks further back than notifications are kept. */
  ghost predicate LooksBackAtMost90Days(events: seq<Event>) {
    forall i :: 0 <= i < |events| && events[i].Dispatching? ==>
      events[i].settings.lookbackMinutes * MINUTE <= NOTIFICATION_DAYS * DAY
  }

  ghost predicate AnnouncedOnce(w: World, n: NotificationKey) {
    var t := w.db.jobs;
    var count := SuccessCount(w.log, n);
    && count <= 1
    && (n in t.notifications ==> (count == 1 <==> t.notifications[n].status.Sent?))
    && (count == 1 && n !in t.notifications ==>
          forall key <- t.postings :: t.postings[key].id == n.postingId ==>
            t.postings[key].firstSeenAt < w.clock - NOTIFICATION_DAYS * DAY)
    && (n.postingId !in w.used ==> count == 0)
  }

  lemma QuietStepAnnouncesNothing(p: Platform, w: World, e: Event, n: NotificationKey)
    requires TablesInvariant(p, w) && AnnouncedOnce(w, n) && Possible(w, e) && !e.Dispatching?
    ensures AnnouncedOnce(Step(p, w, e), n)
  {
    hide RowsOk, Tables, Deletes;
    var t, after := w.db.jobs, Step(p, w, e).db.jobs;
    NotesFollowPostings(p, w, e, n);
    assert after == Tables(p, w.db, e) && Step(p, w, e).log == w.log + [] == w.log;
    forall key <- after.postings | after.postings[key].id == n.postingId && SuccessCount(w.log, n) == 1 && n !in after.notifications
      ensures after.postings[key].firstSeenAt < e.End() - NOTIFICATION_DAYS * DAY
    {
      RowStems(p, w, e, key);
      assert key in t.postings && t.postings[key].id == n.postingId;
      assert !Deletes(p, w.db.sources, t.keywords, e, key, t.postings[key]);
      if n in t.notifications {
        assert forall k <- t.postings :: t.postings[k].id == n.postingId ==> k == key;
      }
    }
  }

  lemma DispatchAnnouncesOnce(p: Platform, w: World, e: Event, n: NotificationKey)
    requires TablesInvariant(p, w) && AnnouncedOnce(w, n) && Possible(w, e) && e.Dispatching?
    requires e.settings.lookbackMinutes * MINUTE <= NOTIFICATION_DAYS * DAY
    ensures AnnouncedOnce(Step(p, w, e), n)
  {
    hide DispatchBatches, RowsOk, HasOwner;
    var t := w.db.jobs;
    var d := DispatchBatches(t, e.senders, e.settings, e.now, e.force);
    DispatchFrame(t, e.senders, e.settings, e.now, e.force);
    SuccessCountSplits(w.log, d.batches, n);
    if n in t.notifications {
      DispatchRowLife(t, e.senders, e.settings, e.now, e.force, n);
      OwnerIsUsed(t, w.used, n.postingId);
    } else {
      DispatchedNewRow(t, e.senders, e.settings, e.now, e.force, n);
    }
  }

  lemma OwnerIsUsed(t: JobTables, used: set<nat>, id: nat)
    requires UniqueIds(t, used) && HasOwner(t, id)
    ensures id in used
  {
  }

  lemma {:induction false} ReachableAnnouncements(p: Platform, w: World, events: seq<Event>, n: NotificationKey)
    requires Fresh(w) && Schedule(p, w, events) && LooksBackAtMost90Days(events)
    ensures AnnouncedOnce(Run(p, w, events), n)
    decreases |events|
  {
    FreshTables(p, w);
    hide Step, TablesInvariant, AnnouncedOnce, Possible;
    if events == [] {
      NothingAnnounced(w, n);
    } else {
      var init, last := events[..|events| - 1], events[|events| - 1];
      assert LooksBackAtMost90Days(init) by {
        assert forall i :: 0 <= i < |init| ==> init[i] == events[i];
      }
      ReachableAnnouncements(p, w, init, n);
      ReachableTables(p, w, init);
      if last.Dispatching? {
        DispatchAnnouncesOnce(p, Run(p, w, init), last, n);
      } else {
        QuietStepAnnouncesNothing(p, Run(p, w, init), last, n);
      }
    }
  }

  lemma NothingAnnounced(w: World, n: NotificationKey)
    requires Fresh(w)
    ensures AnnouncedOnce(w, n)
  {
  }

  /**
   * Over any history of collections, retention runs, keyword edits and dispatches that look back at
   * most ninety days, each posting row is in at most one successful message per channel, although
   * retention deletes the record of old messages.
   */
  lemma AtMostOneAnnouncement(p: Platform, w: World, events: seq<Event>)
    requires Fresh(w) && Schedule(p, w, events) && LooksBackAtMost90Days(events)
    ensures forall n :: SuccessCount(Run(p, w, events).log, n) <= 1
  {
    hide Run, Schedule, Fresh, LooksBackAtMost90Days;
    forall n ensures SuccessCount(Run(p, w, events).log, n) <= 1 {
      ReachableAnnouncements(p, w, events, n);
    }
  }

  // ---- announcements of a listing -------------------------------------------------------------

  /** Successful messages on a channel about an identity, under whatever id it was stored at the time. */
  ghost function MessagesAbout(p: Platform, w: World, events: seq<Event>, key: PostingKey, channel: Channel): nat {
    if events == [] then 0
    else
      var init := events[..|events| - 1];
      MessagesAbout(p, w, init, key, channel) + MessagesNow(Run(p, w, init).db.jobs, events[|events| - 1], key, channel)
  }

  function MessagesNow(t: JobTables, e: Event, key: PostingKey, channel: Channel): nat {
    if key in t.postings then SuccessCount(Messages(t, e), NotificationKey(t.postings[key].id, channel)) else 0
  }

  /** How often the identity's stored posting was deleted: by the filter, or two days after its deadline. */
  ghost function Deletions(p: Platform, w: World, events: seq<Event>, key: PostingKey): nat {
    if events == [] then 0
    else
      var init := events[..|events| - 1];
      Deletions(p, w, init, key) + DeletedNow(p, Run(p, w, init).db, events[|events| - 1], key)
  }

  ghost function DeletedNow(p: Platform, db: Database, e: Event, key: PostingKey): nat {
    if key in db.jobs.postings && Deletes(p, db.sources, db.jobs.keywords, e, key, db.jobs.postings[key]) then 1 else 0
  }

  /** Messages so far are covered by the deletions and by the message about the present row. */
  ghost predicate Covered(w: World, key: PostingKey, channel: Channel, messages: nat, deletions: nat) {
    messages <= deletions + if key in w.db.jobs.postings then SuccessCount(w.log, NotificationKey(w.db.jobs.postings[key].id, channel)) else 0
  }

  lemma StepStaysCovered(p: Platform, w: World, e: Event, key: PostingKey, channel: Channel, messages: nat, deletions: nat)
    requires Possible(w, e) && Covered(w, key, channel, messages, deletions)
    requires forall n :: SuccessCount(w.log, n) <= 1
    ensures Covered(Step(p, w, e), key, channel, messages + MessagesNow(w.db.jobs, e, key, channel), deletions + DeletedNow(p, w.db, e, key))
  {
    hide Tables, Evicts, Applied, Possible, DispatchBatches;
    var t := w.db.jobs;
    RowStems(p, w, e, key);
    if e.Dispatching? {
      DispatchFrame(t, e.senders, e.settings, e.now, e.force);
    }
    if key in t.postings {
      SuccessCountSplits(w.log, Messages(t, e), NotificationKey(t.postings[key].id, channel));
    }
    assert !e.Dispatching? ==> w.log + Messages(t, e) == w.log;
  }

  lemma {:induction false} MessagesAreCovered(p: Platform, w: World, events: seq<Event>, key: PostingKey, channel: Channel)
    requires Fresh(w) && Schedule(p, w, events) && LooksBackAtMost90Days(events)
    ensures Covered(Run(p, w, events), key, channel, MessagesAbout(p, w, events, key, channel), Deletions(p, w, events, key))
    decreases |events|
  {
    hide Step, AnnouncedOnce, Possible, Covered, MessagesNow, DeletedNow;
    if events == [] {
      NothingCovered(w, key, channel);
    } else {
      var init, last := events[..|events| - 1], events[|events| - 1];
      assert LooksBackAtMost90Days(init) by {
        assert forall i :: 0 <= i < |init| ==> init[i] == events[i];
      }
      MessagesAreCovered(p, w, init, key, channel);
      AtMostOneAnnouncement(p, w, init);
      StepStaysCovered(p, Run(p, w, init), last, key, channel, MessagesAbout(p, w, init, key, channel), Deletions(p, w, init, key));
    }
  }

  lemma NothingCovered(w: World, key: PostingKey, channel: Channel)
    requires Fresh(w)
    ensures Covered(w, key, channel, 0, 0)
  {
  }

  /**
   * Over every such history a listing is announced on a channel at most once more than its stored
   * posting was deleted: so at most once, when the filter never rejects a job of it while it is
   * stored and no retention run finds it two Korean days past its deadline.
   */
  lemma AtMostOneAnnouncementPerLife(p: Platform, w: World, events: seq<Event>, key: PostingKey, channel: Channel)
    requires Fresh(w) && Schedule(p, w, events) && LooksBackAtMost90Days(events)
    ensures MessagesAbout(p, w, events, key, channel) <= 1 + Deletions(p, w, events, key)
  {
    MessagesAreCovered(p, w, events, key, channel);
    AtMostOneAnnouncement(p, w, events);
    hide Run, Schedule, MessagesAbout, Deletions;
  }

  /** The event rejects no job of the identity, and does not find its row two Korean days past the deadline. */
  ghost predicate Spares(p: Platform, db: Database, e: Event, key: PostingKey) {
    && (Applied(p, db.sources, db.jobs.keywords, e).Some? ==>
          forall job <- Applied(p, db.sources, db.jobs.keywords, e).value :: job.Key() == key ==> Keeps(p, db.jobs.keywords, job))
    && (e.RetentionRun? && key in db.jobs.postings && db.jobs.postings[key].deadlineAt.Some? ==>
          KstDate(e.now) < KstDate(db.jobs.postings[key].deadlineAt.value) + 2)
  }

  lemma SparedIsNotDeleted(p: Platform, db: Database, e: Event, key: PostingKey)
    requires Spares(p, db, e, key)
    ensures DeletedNow(p, db, e, key) == 0
  {
    hide Applied, Keeps, KstDate;
    var applied := Applied(p, db.sources, db.jobs.keywords, e);
    assert applied.Some? ==> forall i :: 0 <= i < |applied.value| ==> applied.value[i] in applied.value;
  }

  lemma {:induction false} SparedLives(p: Platform, w: World, events: seq<Event>, key: PostingKey)
    requires forall i: nat :: i < |events| ==> Spares(p, Run(p, w, events[..i]).db, events[i], key)
    ensures Deletions(p, w, events, key) == 0
    decreases |events|
  {
    hide Spares, DeletedNow, Step;
    if events != [] {
      var init := events[..|events| - 1];
      forall i: nat | i < |init| ensures Spares(p, Run(p, w, init[..i]).db, init[i], key) {
        assert init[..i] == events[..i] && Spares(p, Run(p, w, events[..i]).db, events[i], key);
      }
      SparedLives(p, w, init, key);
      SparedIsNotDeleted(p, Run(p, w, init).db, events[|events| - 1], key);
    }
  }

  /** So a listing that no event deletes is announced on a channel at most once. */
  lemma SparedListingIsAnnouncedOnce(p: Platform, w: World, events: seq<Event>, key: PostingKey, channel: Channel)
    requires Fresh(w) && Schedule(p, w, events) && LooksBackAtMost90Days(events)
    requires forall i: nat :: i < |events| ==> Spares(p, Run(p, w, events[..i]).db, events[i], key)
    ensures MessagesAbout(p, w, events, key, channel) <= 1
  {
    hide Run, Schedule, Fresh, LooksBackAtMost90Days, MessagesAbout, Deletions, Spares;
    SparedLives(p, w, events, key);
    AtMostOneAnnouncementPerLife(p, w, events, key, channel);
  }
}
