/** What one serial dispatch does to every notification row, and that it loses none. */
module DispatcherTheorems {
  import opened Prelude
  import opened Schema
  import opened Dispatcher
  import QuietHours

  ghost function Names(senders: seq<Sender>): set<Channel> {
    set s | s in senders :: s.name
  }

  function DueIn(t: JobTables, channels: set<Channel>, now: Instant): set<NotificationKey> {
    set n | n in t.notifications && n.channel in channels && IsDue(t.notifications[n], now)
  }

  /** In how many successful messages a notification was announced. */
  function SuccessCount(batches: seq<Batch>, n: NotificationKey): nat {
    if batches == [] then 0
    else
      var last := batches[|batches| - 1];
      SuccessCount(batches[..|batches| - 1], n) + if last.succeeded && n in last.keys then 1 else 0
  }

  lemma {:induction false} SuccessCountSplits(a: seq<Batch>, b: seq<Batch>, n: NotificationKey)
    ensures SuccessCount(a + b, n) == SuccessCount(a, n) + SuccessCount(b, n)
    decreases |b|
  {
    if b == [] {
      assert a + b == a;
    } else {
      assert (a + b)[..|a + b| - 1] == a + b[..|b| - 1];
      SuccessCountSplits(a, b[..|b| - 1], n);
    }
  }

  // ---- queueing -------------------------------------------------------------------------------

  lemma {:induction false} QueueAllRow(t: JobTables, senders: seq<Sender>, since: Instant, at: Option<Instant>, n: NotificationKey)
    ensures var after := QueueAll(t, senders, since, at).tables;
      && after == t.(notifications := after.notifications)
      && (n in t.notifications ==> n in after.notifications && after.notifications[n] == t.notifications[n])
      && (n !in t.notifications ==>
            && (n in after.notifications <==> n.channel in Names(senders) && TellsNews(t, n.postingId, since))
            && (n in after.notifications ==> after.notifications[n] == Queued(at)))
    decreases |senders|
  {
    hide Candidates, TellsNews;
    if senders != [] {
      var init, last := senders[..|senders| - 1], senders[|senders| - 1];
      QueueAllRow(t, init, since, at, n);
      assert senders == init + [last];
      assert Names(senders) == Names(init) + {last.name};
      var before := QueueAll(t, init, since, at).tables;
      CandidatesAreNews(before, last.name, since, n);
      SameNews(t, before, n.postingId, since);
    }
  }

  lemma SameNews(t: JobTables, other: JobTables, postingId: nat, since: Instant)
    requires t.postings == other.postings && t.keywords == other.keywords
    ensures TellsNews(t, postingId, since) <==> TellsNews(other, postingId, since)
  {
    hide IsNews;
    forall key <- t.postings ensures IsNews(t, t.postings[key], since) <==> IsNews(other, t.postings[key], since) {
      NewsReadsKeywords(t, other, t.postings[key], since);
    }
  }

  lemma NewsReadsKeywords(t: JobTables, other: JobTables, row: JobPosting, since: Instant)
    requires t.keywords == other.keywords
    ensures IsNews(t, row, since) <==> IsNews(other, row, since)
  {
  }

  lemma {:induction false} QueueingAddsDueRows(t: JobTables, senders: seq<Sender>, since: Instant, channels: set<Channel>, now: Instant)
    requires Names(senders) <= channels
    ensures var q := QueueAll(t, senders, since, None);
            |DueIn(q.tables, channels, now)| == |DueIn(t, channels, now)| + q.queued
    decreases |senders|
  {
    hide IsCandidate, Candidates, QueueNew;
    if senders != [] {
      var init, last := senders[..|senders| - 1], senders[|senders| - 1];
      assert senders == init + [last];
      assert last in senders && Names(init) <= channels;
      QueueingAddsDueRows(t, init, since, channels, now);
      QueueNewAddsDueRows(QueueAll(t, init, since, None).tables, last.name, since, channels, now);
    }
  }

  lemma QueueNewAddsDueRows(t: JobTables, channel: Channel, since: Instant, channels: set<Channel>, now: Instant)
    requires channel in channels
    ensures |DueIn(QueueNew(t, channel, since, None), channels, now)| == |DueIn(t, channels, now)| + |Candidates(t, channel, since)|
  {
    hide Candidates;
    CandidatesAreNew(t, channel, since);
    var added := Candidates(t, channel, since);
    var before, after := DueIn(t, channels, now), DueIn(QueueNew(t, channel, since, None), channels, now);
    forall n ensures n in after <==> n in before || n in added {
    }
    assert after == before + added && before !! added;
  }

  lemma CandidatesAreNew(t: JobTables, channel: Channel, since: Instant)
    ensures forall n <- Candidates(t, channel, since) :: n.channel == channel && n !in t.notifications
  {
    hide HasMatch;
  }

  lemma CreatedIfNews(t: JobTables, senders: seq<Sender>, settings: Settings, now: Instant, force: bool, n: NotificationKey)
    requires n !in t.notifications
    ensures n in DispatchBatches(t, senders, settings, now, force).tables.notifications <==>
            && (exists i :: 0 <= i < |senders| && senders[i].name == n.channel)
            && TellsNews(t, n.postingId, now - settings.lookbackMinutes * MINUTE)
  {
    hide QueueAll, SendAll, QuietHours.QuietEnd, TellsNews, RowStep, Names, SuccessCount;
    var at := ScheduledAt(settings, now, force);
    var queueing := QueueAll(t, senders, Since(settings, now), at);
    QueueAllRow(t, senders, Since(settings, now), at, n);
    SendAllRow(queueing.tables, senders, settings, now, n);
    NamedSender(senders, n.channel);
  }

  /**
   * A dispatch creates a row exactly for a configured channel and a posting that is open, first seen
   * within the lookback, and has evidence of an include keyword and of no exclude keyword.
   */
  lemma CreatedExactly(t: JobTables, senders: seq<Sender>, settings: Settings, now: Instant, force: bool, n: NotificationKey)
    requires n !in t.notifications
    ensures n in DispatchBatches(t, senders, settings, now, force).tables.notifications <==>
            && (exists i :: 0 <= i < |senders| && senders[i].name == n.channel)
            && exists key <- t.postings ::
                 var row := t.postings[key];
                 && row.id == n.postingId && row.isOpen
                 && now - settings.lookbackMinutes * MINUTE <= row.firstSeenAt
                 && (exists e <- row.keywordMatches, k <- t.keywords :: k.id == Some(e.keywordId) && k.kind == Include)
                 && !(exists e <- row.keywordMatches, k <- t.keywords :: k.id == Some(e.keywordId) && k.kind == Exclude)
  {
    hide DispatchBatches, TellsNews;
    CreatedIfNews(t, senders, settings, now, force, n);
    Spelled(t, n.postingId, now - settings.lookbackMinutes * MINUTE);
  }

  lemma Spelled(t: JobTables, postingId: nat, since: Instant)
    ensures TellsNews(t, postingId, since) <==>
            exists key <- t.postings ::
              var row := t.postings[key];
              && row.id == postingId && row.isOpen && since <= row.firstSeenAt
              && (exists e <- row.keywordMatches, k <- t.keywords :: k.id == Some(e.keywordId) && k.kind == Include)
              && !(exists e <- row.keywordMatches, k <- t.keywords :: k.id == Some(e.keywordId) && k.kind == Exclude)
  {
    hide IsNews;
    forall key <- t.postings
      ensures IsNews(t, t.postings[key], since) <==>
              var row := t.postings[key];
              && row.isOpen && since <= row.firstSeenAt
              && (exists e <- row.keywordMatches, k <- t.keywords :: k.id == Some(e.keywordId) && k.kind == Include)
              && !(exists e <- row.keywordMatches, k <- t.keywords :: k.id == Some(e.keywordId) && k.kind == Exclude)
    {
      NewsSpelled(t, t.postings[key], since);
    }
  }

  lemma NewsSpelled(t: JobTables, row: JobPosting, since: Instant)
    ensures IsNews(t, row, since) <==>
            && row.isOpen && since <= row.firstSeenAt
            && (exists e <- row.keywordMatches, k <- t.keywords :: k.id == Some(e.keywordId) && k.kind == Include)
            && !(exists e <- row.keywordMatches, k <- t.keywords :: k.id == Some(e.keywordId) && k.kind == Exclude)
  {
  }

  lemma NamedSender(senders: seq<Sender>, channel: Channel)
    ensures channel in Names(senders) <==> exists i :: 0 <= i < |senders| && senders[i].name == channel
  {
    if i :| 0 <= i < |senders| && senders[i].name == channel {
      assert senders[i] in senders;
    }
  }

  // ---- sending --------------------------------------------------------------------------------

  /** What sending may do to one row: nothing, or the one step from PENDING to a terminal status. */
  ghost predicate RowStep(before: Notification, after: Notification, due: bool, now: Instant, max: nat) {
    if due then
      && before.status.Pending?
      && (after.status.Sent? || after.status.Failed?)
      && 1 <= after.attemptCount - before.attemptCount <= max
      && after.scheduledAt == before.scheduledAt
      && after.sentAt == if after.status.Sent? then Some(now) else before.sentAt
    else after == before
  }

  lemma {:induction false} SendAllRow(t: JobTables, senders: seq<Sender>, settings: Settings, now: Instant, n: NotificationKey)
    ensures var s := SendAll(t, senders, settings, now);
      && s.tables == t.(notifications := s.tables.notifications)
      && (n in s.tables.notifications <==> n in t.notifications)
      && (n !in t.notifications ==> SuccessCount(s.batches, n) == 0)
      && (n in t.notifications ==>
            var due := n.channel in Names(senders) && IsDue(t.notifications[n], now);
            && RowStep(t.notifications[n], s.tables.notifications[n], due, now, MaxAttempts(settings))
            && SuccessCount(s.batches, n) == if due && s.tables.notifications[n].status.Sent? then 1 else 0)
    decreases |senders|
  {
    hide SendOne, BatchOf, IsDue, RowStep;
    if senders != [] {
      var init, last := senders[..|senders| - 1], senders[|senders| - 1];
      assert senders == init + [last];
      assert Names(senders) == Names(init) + {last.name};
      var before := SendAll(t, init, settings, now);
      SendAllRow(t, init, settings, now, n);
      SendOneRow(before.tables, last, settings, now, n);
      SuccessCountSplits(before.batches, BatchOf(before.tables, last, settings, now), n);
      if n in t.notifications {
        StepsCompose(t.notifications[n], before.tables.notifications[n],
                     n.channel in Names(init) && IsDue(t.notifications[n], now), now, MaxAttempts(settings));
      }
    } else if n in t.notifications {
      NoStep(t.notifications[n], now, MaxAttempts(settings));
    }
  }

  lemma NoStep(n: Notification, now: Instant, max: nat)
    ensures RowStep(n, n, false, now, max)
  {
  }

  /** After its step a row is not due again; without a step it is what it was. */
  lemma StepsCompose(before: Notification, middle: Notification, stepped: bool, now: Instant, max: nat)
    requires RowStep(before, middle, stepped, now, max)
    ensures stepped ==> !IsDue(middle, now)
    ensures !stepped ==> middle == before
    ensures RowStep(middle, middle, false, now, max)
    ensures forall after :: RowStep(middle, after, false, now, max) <==> after == middle
  {
  }

  lemma SendOneRow(t: JobTables, sender: Sender, settings: Settings, now: Instant, n: NotificationKey)
    ensures var after := SendOne(t, sender, settings, now);
      var batches := BatchOf(t, sender, settings, now);
      && after == t.(notifications := after.notifications)
      && (n in after.notifications <==> n in t.notifications)
      && (n !in t.notifications ==> SuccessCount(batches, n) == 0)
      && (n in t.notifications ==>
            var due := n.channel == sender.name && IsDue(t.notifications[n], now);
            && RowStep(t.notifications[n], after.notifications[n], due, now, MaxAttempts(settings))
            && SuccessCount(batches, n) == if due && after.notifications[n].status.Sent? then 1 else 0)
  {
    var batches := BatchOf(t, sender, settings, now);
    assert n in t.notifications && n.channel == sender.name && IsDue(t.notifications[n], now) <==> n in Due(t, sender.name, now);
    if batches != [] {
      assert batches[..0] == [];
    }
  }

  // ---- conservation ---------------------------------------------------------------------------

  lemma {:induction false} SendingUsesUpDueRows(t: JobTables, senders: seq<Sender>, settings: Settings, now: Instant)
    ensures var s := SendAll(t, senders, settings, now);
            CountOf(s.batches, true) + CountOf(s.batches, false) == |DueIn(t, Names(senders), now)|
    decreases |senders|
  {
    hide SendOne, IsDue, BatchOf, Due;
    if senders == [] {
      assert DueIn(t, Names(senders), now) == {};
    } else {
      var init, last := senders[..|senders| - 1], senders[|senders| - 1];
      assert senders == init + [last];
      assert Names(senders) == Names(init) + {last.name};
      var before := SendAll(t, init, settings, now);
      SendingUsesUpDueRows(t, init, settings, now);
      StillDue(t, init, settings, now, last.name);
      var batch := BatchOf(before.tables, last, settings, now);
      CountSplits(before.batches, batch, true);
      CountSplits(before.batches, batch, false);
      BatchCounts(before.tables, last, settings, now);
      OneMoreChannel(t, Names(init), last.name, now);
    }
  }

  lemma OneMoreChannel(t: JobTables, channels: set<Channel>, channel: Channel, now: Instant)
    ensures |DueIn(t, channels + {channel}, now)| ==
            |DueIn(t, channels, now)| + if channel in channels then 0 else |Due(t, channel, now)|
  {
    hide IsDue;
    if channel in channels {
      assert channels + {channel} == channels;
    } else {
      assert DueIn(t, channels + {channel}, now) == DueIn(t, channels, now) + Due(t, channel, now);
      assert DueIn(t, channels, now) !! Due(t, channel, now);
    }
  }

  lemma BatchCounts(t: JobTables, sender: Sender, settings: Settings, now: Instant)
    ensures var batches := BatchOf(t, sender, settings, now);
            CountOf(batches, true) + CountOf(batches, false) == |Due(t, sender.name, now)|
  {
    var batches := BatchOf(t, sender, settings, now);
    if batches != [] {
      assert batches[..0] == [];
    }
  }

  /** What is still due on a channel after the earlier senders: all of it, or nothing. */
  lemma StillDue(t: JobTables, senders: seq<Sender>, settings: Settings, now: Instant, channel: Channel)
    ensures Due(SendAll(t, senders, settings, now).tables, channel, now) ==
            if channel in Names(senders) then {} else Due(t, channel, now)
  {
    hide SendAll, IsDue;
    var after := SendAll(t, senders, settings, now).tables;
    forall n: NotificationKey | n.channel == channel
      ensures n in Due(after, channel, now) <==> channel !in Names(senders) && n in Due(t, channel, now)
    {
      SendAllRow(t, senders, settings, now, n);
      if n in t.notifications {
        StepsCompose(t.notifications[n], after.notifications[n],
                     n.channel in Names(senders) && IsDue(t.notifications[n], now), now, MaxAttempts(settings));
      }
    }
  }

  /**
   * Outside quiet hours nothing gets lost: every row that was due on a configured channel, and every
   * row queued now, is either sent or failed, and none is left due.
   */
  lemma DispatchConservesRows(t: JobTables, senders: seq<Sender>, settings: Settings, now: Instant, force: bool)
    requires ScheduledAt(settings, now, force).None?
    ensures var summary := SummaryOf(t, senders, settings, now, force);
      && summary.sent + summary.failed == |DueIn(t, Names(senders), now)| + summary.queued
      && DueIn(DispatchBatches(t, senders, settings, now, force).tables, Names(senders), now) == {}
  {
    hide QueueAll, SendAll, CountOf, DueIn, QuietHours.QuietEnd;
    var queueing := QueueAll(t, senders, Since(settings, now), None);
    QueueingAddsDueRows(t, senders, Since(settings, now), Names(senders), now);
    SendingUsesUpDueRows(queueing.tables, senders, settings, now);
    NothingLeftDue(queueing.tables, senders, settings, now);
  }

  lemma NothingLeftDue(t: JobTables, senders: seq<Sender>, settings: Settings, now: Instant)
    ensures DueIn(SendAll(t, senders, settings, now).tables, Names(senders), now) == {}
  {
    hide SendAll, DueIn, Due;
    var after := SendAll(t, senders, settings, now).tables;
    forall n ensures n !in DueIn(after, Names(senders), now) {
      StillDue(t, senders, settings, now, n.channel);
      DueByChannel(after, Names(senders), n, now);
    }
  }

  lemma DueByChannel(t: JobTables, channels: set<Channel>, n: NotificationKey, now: Instant)
    ensures n in DueIn(t, channels, now) <==> n.channel in channels && n in Due(t, n.channel, now)
  {
    hide IsDue;
  }

  /** Inside quiet hours nothing is sent; new rows wait for the first instant that is not quiet. */
  lemma QuietDispatchOnlyQueues(t: JobTables, senders: seq<Sender>, settings: Settings, now: Instant, n: NotificationKey)
    requires settings.quiet.Valid() && QuietHours.IsQuiet(settings.quiet, now)
    ensures var d := DispatchBatches(t, senders, settings, now, false);
      && d.batches == []
      && (n in t.notifications ==> n in d.tables.notifications && d.tables.notifications[n] == t.notifications[n])
      && (n in d.tables.notifications && n !in t.notifications ==>
            var row := d.tables.notifications[n];
            && row.status.Pending? && row.scheduledAt.Some?
            && now < row.scheduledAt.value < now + DAY && !QuietHours.IsQuiet(settings.quiet, row.scheduledAt.value))
  {
    hide QueueAll, SendAll, QuietHours.QuietEnd, QuietHours.IsQuiet;
    QuietHours.QuietEndIsFirstLoudInstant(settings.quiet, now);
    QueueAllRow(t, senders, Since(settings, now), ScheduledAt(settings, now, false), n);
  }

  /** The whole life of a row: it waits as PENDING, and one dispatch makes it SENT or FAILED for good. */
  lemma DispatchRowLife(t: JobTables, senders: seq<Sender>, settings: Settings, now: Instant, force: bool, n: NotificationKey)
    requires n in t.notifications
    ensures var d := DispatchBatches(t, senders, settings, now, force);
      var due := ScheduledAt(settings, now, force).None? && n.channel in Names(senders) && IsDue(t.notifications[n], now);
      && n in d.tables.notifications
      && RowStep(t.notifications[n], d.tables.notifications[n], due, now, MaxAttempts(settings))
      && SuccessCount(d.batches, n) == if due && d.tables.notifications[n].status.Sent? then 1 else 0
  {
    hide QueueAll, SendAll, QuietHours.QuietEnd;
    var at := ScheduledAt(settings, now, force);
    var queueing := QueueAll(t, senders, Since(settings, now), at);
    QueueAllRow(t, senders, Since(settings, now), at, n);
    SendAllRow(queueing.tables, senders, settings, now, n);
  }

  /** A row that first appears in a dispatch belongs to a posting seen recently enough. */
  lemma DispatchedNewRow(t: JobTables, senders: seq<Sender>, settings: Settings, now: Instant, force: bool, n: NotificationKey)
    requires n !in t.notifications
    ensures var d := DispatchBatches(t, senders, settings, now, force);
      && (n !in d.tables.notifications ==> SuccessCount(d.batches, n) == 0)
      && (n in d.tables.notifications ==>
            && (exists key <- t.postings :: t.postings[key].id == n.postingId && t.postings[key].firstSeenAt >= Since(settings, now))
            && var row := d.tables.notifications[n];
               var due := row.status.Sent? || row.status.Failed?;
               && RowStep(Queued(ScheduledAt(settings, now, force)), row, due, now, MaxAttempts(settings))
               && SuccessCount(d.batches, n) == if row.status.Sent? then 1 else 0)
  {
    hide QueueAll, SendAll, QuietHours.QuietEnd;
    var at := ScheduledAt(settings, now, force);
    var queueing := QueueAll(t, senders, Since(settings, now), at);
    QueueAllRow(t, senders, Since(settings, now), at, n);
    SendAllRow(queueing.tables, senders, settings, now, n);
  }

  lemma DispatchFrame(t: JobTables, senders: seq<Sender>, settings: Settings, now: Instant, force: bool)
    ensures var after := DispatchBatches(t, senders, settings, now, force).tables;
            after == t.(notifications := after.notifications)
  {
    hide QueueAll, SendAll, QuietHours.QuietEnd;
    var at := ScheduledAt(settings, now, force);
    var queueing := QueueAll(t, senders, Since(settings, now), at);
    QueueAllRow(t, senders, Since(settings, now), at, NotificationKey(0, Kakao));
    SendAllRow(queueing.tables, senders, settings, now, NotificationKey(0, Kakao));
  }

  /**
   * A forced dispatch ignores quiet hours for what it queues, yet a waiting row still waits for its
   * scheduled instant: it is taken up exactly when that instant has come or there is none.
   */
  lemma ForcedDispatchWaitsForSchedule(t: JobTables, senders: seq<Sender>, settings: Settings, now: Instant, n: NotificationKey)
    requires n in t.notifications && t.notifications[n].status.Pending? && n.channel in Names(senders)
    ensures var d := DispatchBatches(t, senders, settings, now, true);
      && n in d.tables.notifications
      && (d.tables.notifications[n].status.Pending? <==>
            t.notifications[n].scheduledAt.Some? && now < t.notifications[n].scheduledAt.value)
      && (d.tables.notifications[n].status.Pending? ==> d.tables.notifications[n] == t.notifications[n] && SuccessCount(d.batches, n) == 0)
  {
    hide DispatchBatches, QuietHours.QuietEnd;
    DispatchRowLife(t, senders, settings, now, true, n);
  }
}
