/** What the replies of the channels make of the rows, of the summary and of the subscriptions. */
module DispatchReplies {
  import opened Prelude
  import opened Schema
  import opened Dispatcher
  import opened DispatcherTheorems
  import QuietHours

  // ---- rows -----------------------------------------------------------------------------------

  /**
   * The row after a message that the channel was asked to send until the first success, or as often
   * as allowed: the number of sends is added, and the last reply decides the rest.
   */
  ghost predicate Answered(before: Notification, after: Notification, reply: nat -> SendResult, max: nat, now: Instant) {
    exists k: nat ::
      && 1 <= k <= max && (forall j :: 1 <= j < k ==> !reply(j).succeeded) && (reply(k).succeeded || k == max)
      && after.attemptCount == before.attemptCount + k && after.scheduledAt == before.scheduledAt
      && (if reply(k).succeeded
          then after.status == Sent && after.sentAt == Some(now) && after.deliveryError == before.deliveryError
          else after.status == Failed && after.sentAt == before.sentAt && after.deliveryError == reply(k).errorMessage)
  }

  lemma DueRowIsAnswered(t: JobTables, sender: Sender, settings: Settings, now: Instant, n: NotificationKey)
    requires n in t.notifications && n.channel == sender.name && IsDue(t.notifications[n], now)
    ensures var after := SendOne(t, sender, settings, now);
      n in after.notifications && Answered(t.notifications[n], after.notifications[n], sender.reply, MaxAttempts(settings), now)
  {
    assert n in Due(t, sender.name, now);
    var k := AttemptsFrom(sender.reply, 1, MaxAttempts(settings));
    hide AttemptsFrom, IsDue;
    assert SendOne(t, sender, settings, now).notifications[n] == Delivered(t.notifications[n], now, sender.reply(k), k);
  }

  /** The first sender of the row's channel takes it; senders before and after leave it alone. */
  lemma {:induction false} FirstSenderAnswers(t: JobTables, senders: seq<Sender>, settings: Settings, now: Instant, n: NotificationKey, i: nat)
    requires i < |senders| && senders[i].name == n.channel && forall j :: 0 <= j < i ==> senders[j].name != n.channel
    requires n in t.notifications && IsDue(t.notifications[n], now)
    ensures var after := SendAll(t, senders, settings, now).tables;
      n in after.notifications && Answered(t.notifications[n], after.notifications[n], senders[i].reply, MaxAttempts(settings), now)
    decreases |senders|
  {
    hide SendOne, BatchOf, Answered, RowStep, IsDue, SuccessCount;
    var init, last := senders[..|senders| - 1], senders[|senders| - 1];
    var mid := SendAll(t, init, settings, now).tables;
    SendAllRow(t, init, settings, now, n);
    SendOneRow(mid, last, settings, now, n);
    if i == |init| {
      NotNamed(init, n.channel);
      StepsCompose(t.notifications[n], mid.notifications[n], false, now, MaxAttempts(settings));
      DueRowIsAnswered(mid, last, settings, now, n);
    } else {
      FirstSenderAnswers(t, init, settings, now, n, i);
      assert init[i] in init;
      StepsCompose(t.notifications[n], mid.notifications[n], true, now, MaxAttempts(settings));
    }
  }

  lemma NotNamed(senders: seq<Sender>, channel: Channel)
    requires forall j :: 0 <= j < |senders| ==> senders[j].name != channel
    ensures channel !in Names(senders)
  {
  }

  /**
   * Outside quiet hours, or forced: a row that waits for nothing, old or created by this dispatch,
   * gets the answer of the first configured sender of its channel.
   */
  lemma DispatchFollowsReplies(t: JobTables, senders: seq<Sender>, settings: Settings, now: Instant, force: bool, n: NotificationKey, i: nat,
                               after: JobTables, before: Notification)
    requires force || QuietHours.QuietEnd(settings.quiet, now).None?
    requires after == DispatchBatches(t, senders, settings, now, force).tables && n in after.notifications
    requires i < |senders| && senders[i].name == n.channel && forall j :: 0 <= j < i ==> senders[j].name != n.channel
    requires before == if n in t.notifications then t.notifications[n] else Notification(Pending, 0, None, None, None)
    requires before.status == Pending && (before.scheduledAt.None? || before.scheduledAt.value <= now)
    ensures Answered(before, after.notifications[n], senders[i].reply, if settings.retryAttempts > 1 then settings.retryAttempts else 1, now)
  {
    hide QueueAll, SendAll, QuietHours.QuietEnd, Answered, TellsNews;
    var queueing := QueueAll(t, senders, Since(settings, now), None);
    QueueAllRow(t, senders, Since(settings, now), None, n);
    SendAllRow(queueing.tables, senders, settings, now, n);
    FirstSenderAnswers(queueing.tables, senders, settings, now, n, i);
  }

  // ---- the summary ----------------------------------------------------------------------------

  /** The rows that stopped waiting and ended with a status, new ones included. */
  function EndedAs(before: map<NotificationKey, Notification>, after: map<NotificationKey, Notification>, status: NotificationStatus): set<NotificationKey> {
    set n | n in after && after[n].status == status && (n in before ==> before[n].status == Pending)
  }

  /** Rows that no longer wait stay as they are. */
  ghost predicate Settles(before: map<NotificationKey, Notification>, after: map<NotificationKey, Notification>) {
    && (forall n :: n in after <==> n in before)
    && (forall n <- before :: before[n].status != Pending ==> after[n] == before[n])
  }

  function Outcome(succeeded: bool): NotificationStatus {
    if succeeded then Sent else Failed
  }

  lemma OneSenderCounts(t: JobTables, mid: JobTables, sender: Sender, settings: Settings, now: Instant, succeeded: bool)
    requires Settles(t.notifications, mid.notifications)
    ensures var after, batch := SendOne(mid, sender, settings, now), BatchOf(mid, sender, settings, now);
      |EndedAs(t.notifications, after.notifications, Outcome(succeeded))|
      == |EndedAs(t.notifications, mid.notifications, Outcome(succeeded))| + CountOf(batch, succeeded)
  {
    var due := Due(mid, sender.name, now);
    var batch := BatchOf(mid, sender, settings, now);
    if due != {} {
      assert batch[..0] == [];
      var k := AttemptsFrom(sender.reply, 1, MaxAttempts(settings));
      var ended := if sender.reply(k).succeeded == succeeded then due else {};
      assert CountOf(batch, succeeded) == |ended|;
      hide AttemptsFrom, CountOf;
      DeliveryEnds(t, mid, due, now, sender.reply(k), k, succeeded);
    }
  }

  lemma DeliveryEnds(t: JobTables, mid: JobTables, due: set<NotificationKey>, now: Instant, result: SendResult, attempts: nat, succeeded: bool)
    requires Settles(t.notifications, mid.notifications)
    requires forall n <- due :: n in mid.notifications && mid.notifications[n].status == Pending
    ensures |EndedAs(t.notifications, Deliver(mid, due, now, result, attempts).notifications, Outcome(succeeded))|
         == |EndedAs(t.notifications, mid.notifications, Outcome(succeeded))| + if result.succeeded == succeeded then |due| else 0
  {
    hide EndedAs, Deliver, Settles;
    var after := Deliver(mid, due, now, result, attempts);
    var was, ends := EndedAs(t.notifications, mid.notifications, Outcome(succeeded)), EndedAs(t.notifications, after.notifications, Outcome(succeeded));
    var ended := if result.succeeded == succeeded then due else {};
    forall n ensures (n in ends <==> n in was || n in ended) && !(n in was && n in ended) {
      RowEnds(t, mid, due, now, result, attempts, succeeded, n);
    }
    assert ends == was + ended && was !! ended;
  }

  lemma RowEnds(t: JobTables, mid: JobTables, due: set<NotificationKey>, now: Instant, result: SendResult, attempts: nat, succeeded: bool, n: NotificationKey)
    requires Settles(t.notifications, mid.notifications)
    requires n in due ==> n in mid.notifications && mid.notifications[n].status == Pending
    ensures var after, status := Deliver(mid, due, now, result, attempts), Outcome(succeeded);
      && (n in EndedAs(t.notifications, after.notifications, status) <==>
            n in EndedAs(t.notifications, mid.notifications, status) || (n in due && result.succeeded == succeeded))
      && !(n in due && n in EndedAs(t.notifications, mid.notifications, status))
  {
    var after := Deliver(mid, due, now, result, attempts).notifications;
    if n in mid.notifications {
      assert after[n] == if n in due then Delivered(mid.notifications[n], now, result, attempts) else mid.notifications[n];
    }
    hide Deliver;
  }

  lemma {:induction false} SendAllCounts(t: JobTables, senders: seq<Sender>, settings: Settings, now: Instant, succeeded: bool)
    ensures var s := SendAll(t, senders, settings, now);
      && Settles(t.notifications, s.tables.notifications)
      && |EndedAs(t.notifications, s.tables.notifications, Outcome(succeeded))| == CountOf(s.batches, succeeded)
    decreases |senders|
  {
    SendAllSettles(t, senders, settings, now);
    hide SendOne, BatchOf, Settles;
    if senders == [] {
      assert EndedAs(t.notifications, t.notifications, Outcome(succeeded)) == {};
    } else {
      var init, last := senders[..|senders| - 1], senders[|senders| - 1];
      var before := SendAll(t, init, settings, now);
      SendAllCounts(t, init, settings, now, succeeded);
      OneSenderCounts(t, before.tables, last, settings, now, succeeded);
      CountSplits(before.batches, BatchOf(before.tables, last, settings, now), succeeded);
      hide EndedAs, CountOf;
    }
  }

  lemma SendAllSettles(t: JobTables, senders: seq<Sender>, settings: Settings, now: Instant)
    ensures Settles(t.notifications, SendAll(t, senders, settings, now).tables.notifications)
  {
    hide SendAll;
    var after := SendAll(t, senders, settings, now).tables.notifications;
    forall n
      ensures n in after <==> n in t.notifications
      ensures n in t.notifications && t.notifications[n].status != Pending ==> after[n] == t.notifications[n]
    {
      SendAllRow(t, senders, settings, now, n);
    }
  }

  /**
   * The summary counts rows: queued are those created, sent and failed those that stopped waiting
   * and ended so, whether they were created now or before. A quiet dispatch ends none.
   */
  lemma SummaryCountsRows(t: JobTables, senders: seq<Sender>, settings: Settings, now: Instant, force: bool, after: JobTables)
    requires after == DispatchBatches(t, senders, settings, now, force).tables
    ensures var summary := SummaryOf(t, senders, settings, now, force);
      && summary.queued == |after.notifications.Keys - t.notifications.Keys|
      && summary.sent == |EndedAs(t.notifications, after.notifications, Sent)|
      && summary.failed == |EndedAs(t.notifications, after.notifications, Failed)|
  {
    hide QueueAll, SendAll, QuietHours.QuietEnd, CountOf, EndedAs;
    var at := ScheduledAt(settings, now, force);
    var q := QueueAll(t, senders, Since(settings, now), at);
    QueueAllCounts(t, senders, Since(settings, now), at);
    SendAllCounts(q.tables, senders, settings, now, true);
    SendAllCounts(q.tables, senders, settings, now, false);
    QueuedRowsWait(t, q.tables, after, Sent);
    QueuedRowsWait(t, q.tables, after, Failed);
    if at.Some? {
      NothingCounted();
      NothingEnded(q.tables);
    } else {
      assert after.notifications.Keys == q.tables.notifications.Keys;
    }
  }

  /** Rows that wait: those of before, unchanged, and new ones. */
  ghost predicate Adds(before: map<NotificationKey, Notification>, after: map<NotificationKey, Notification>) {
    && (forall n <- before :: n in after && after[n] == before[n])
    && (forall n <- after :: n !in before ==> after[n].status == Pending)
  }

  lemma QueuedRowsWait(t: JobTables, mid: JobTables, after: JobTables, status: NotificationStatus)
    requires Adds(t.notifications, mid.notifications) && after.notifications.Keys == mid.notifications.Keys
    ensures EndedAs(t.notifications, after.notifications, status) == EndedAs(mid.notifications, after.notifications, status)
  {
  }

  lemma NothingEnded(t: JobTables)
    ensures EndedAs(t.notifications, t.notifications, Sent) == {} && EndedAs(t.notifications, t.notifications, Failed) == {}
  {
  }

  lemma {:induction false} QueueAllCounts(t: JobTables, senders: seq<Sender>, since: Instant, at: Option<Instant>)
    ensures var q := QueueAll(t, senders, since, at);
      && Adds(t.notifications, q.tables.notifications)
      && q.queued == |q.tables.notifications.Keys - t.notifications.Keys|
    decreases |senders|
  {
    hide QueueNew, Candidates, Adds;
    if senders == [] {
      NothingAdded(t);
    } else {
      QueueAllCounts(t, senders[..|senders| - 1], since, at);
      OneMoreChannelQueued(t, QueueAll(t, senders[..|senders| - 1], since, at).tables, senders[|senders| - 1].name, since, at);
    }
  }

  lemma NothingAdded(t: JobTables)
    ensures Adds(t.notifications, t.notifications) && |t.notifications.Keys - t.notifications.Keys| == 0
  {
    assert t.notifications.Keys - t.notifications.Keys == {};
  }

  lemma OneMoreChannelQueued(t: JobTables, mid: JobTables, channel: Channel, since: Instant, at: Option<Instant>)
    requires Adds(t.notifications, mid.notifications)
    ensures var after := QueueNew(mid, channel, since, at);
      && Adds(t.notifications, after.notifications)
      && |after.notifications.Keys - t.notifications.Keys| == |mid.notifications.Keys - t.notifications.Keys| + |Candidates(mid, channel, since)|
  {
    hide QueueNew, Candidates, Adds;
    var after, added := QueueNew(mid, channel, since, at), Candidates(mid, channel, since);
    QueuedAdds(t, mid, channel, since, at);
    forall n ensures (n in after.notifications.Keys <==> n in mid.notifications.Keys || n in added) && !(n in mid.notifications.Keys && n in added) {
      QueuedRow(mid, channel, since, at, n);
    }
    NewKeys(t.notifications.Keys, mid.notifications.Keys, after.notifications.Keys, added);
  }

  lemma QueuedAdds(t: JobTables, mid: JobTables, channel: Channel, since: Instant, at: Option<Instant>)
    requires Adds(t.notifications, mid.notifications)
    ensures Adds(t.notifications, QueueNew(mid, channel, since, at).notifications) && t.notifications.Keys <= mid.notifications.Keys
  {
    hide QueueNew, Candidates;
    var after := QueueNew(mid, channel, since, at).notifications;
    forall n <- t.notifications ensures n in after && after[n] == t.notifications[n] {
      QueuedRow(mid, channel, since, at, n);
    }
    forall n <- after | n !in t.notifications ensures after[n].status == Pending {
      QueuedRow(mid, channel, since, at, n);
    }
  }

  lemma QueuedRow(t: JobTables, channel: Channel, since: Instant, at: Option<Instant>, n: NotificationKey)
    ensures var after, added := QueueNew(t, channel, since, at), Candidates(t, channel, since);
      && (n in after.notifications <==> n in t.notifications || n in added)
      && !(n in t.notifications && n in added)
      && (n in t.notifications ==> after.notifications[n] == t.notifications[n])
      && (n in added ==> after.notifications[n].status == Pending)
  {
    CandidatesAreNew(t, channel, since);
    hide Candidates;
  }

  lemma NewKeys(known: set<NotificationKey>, mid: set<NotificationKey>, after: set<NotificationKey>, added: set<NotificationKey>)
    requires known <= mid && forall n :: (n in after <==> n in mid || n in added) && !(n in mid && n in added)
    ensures |after - known| == |mid - known| + |added|
  {
    assert after - known == (mid - known) + added;
  }

  // ---- subscriptions --------------------------------------------------------------------------

  /** One subscription after the replies of several dispatches. */
  function AfterResults(s: Subscription, results: seq<SendResult>, endpoint: string): Subscription {
    if results == [] then s
    else
      var before, last := AfterResults(s, results[..|results| - 1], endpoint), results[|results| - 1];
      AfterFailures(if endpoint in last.invalidEndpoints then Invalidated(before) else before, multiset(last.failedEndpoints)[endpoint])
  }

  function TimesFailed(results: seq<SendResult>, endpoint: string): nat {
    if results == [] then 0
    else TimesFailed(results[..|results| - 1], endpoint) + multiset(results[|results| - 1].failedEndpoints)[endpoint]
  }

  /**
   * Over any number of dispatches a subscription stays active exactly when no reply calls it invalid
   * and its failures, if any are added, stay below five in all; nothing switches it on.
   */
  lemma {:induction false} SubscriptionLife(s: Subscription, results: seq<SendResult>, endpoint: string)
    ensures var after, times := AfterResults(s, results, endpoint), TimesFailed(results, endpoint);
      && after.failureCount == s.failureCount + times
      && (after.isActive <==>
            && s.isActive
            && (forall i :: 0 <= i < |results| ==> endpoint !in results[i].invalidEndpoints)
            && (times == 0 || s.failureCount + times < 5))
    decreases |results|
  {
    if results != [] {
      var init := results[..|results| - 1];
      SubscriptionLife(s, init, endpoint);
      assert results == init + [results[|results| - 1]];
      assert forall i :: 0 <= i < |init| ==> init[i] == results[i];
    }
  }
}
