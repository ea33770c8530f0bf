/** app/services/dispatcher.py: queueing, sending and recording digests. */
module Dispatcher {
  import opened Prelude
  import opened Schema
  import opened QuietHours

  const DISABLE_AFTER_FAILURES: nat := 5

  datatype SendResult = SendResult(
    succeeded: bool, errorMessage: Option<string>, invalidEndpoints: seq<string>, failedEndpoints: seq<string>)

  /** A channel: `reply(k)` is what its k-th send of this dispatch returns, counting from one. */
  datatype Sender = Sender(name: Channel, reply: nat -> SendResult)

  datatype Settings = Settings(quiet: Quiet, lookbackMinutes: int, retryAttempts: int)

  datatype DispatchSummary = DispatchSummary(queued: nat, sent: nat, failed: nat)

  /** One message on a channel, and the postings it announced. */
  datatype Batch = Batch(channel: Channel, keys: set<NotificationKey>, succeeded: bool)

  // ---- candidates and queueing ----------------------------------------------------------------

  predicate HasMatch(t: JobTables, row: JobPosting, kind: KeywordKind) {
    exists e <- row.keywordMatches :: exists k <- t.keywords :: k.id == Some(e.keywordId) && k.kind == kind
  }

  predicate IsCandidate(t: JobTables, channel: Channel, since: Instant, row: JobPosting) {
    && row.firstSeenAt >= since && row.isOpen
    && HasMatch(t, row, Include) && !HasMatch(t, row, Exclude)
    && NotificationKey(row.id, channel) !in t.notifications
  }

  /** The posting is open, first seen since then, and has evidence of an include keyword and of no exclude keyword. */
  ghost predicate IsNews(t: JobTables, row: JobPosting, since: Instant) {
    && row.isOpen && since <= row.firstSeenAt
    && (exists e <- row.keywordMatches, k <- t.keywords :: k.id == Some(e.keywordId) && k.kind.Include?)
    && (forall e <- row.keywordMatches, k <- t.keywords :: k.id == Some(e.keywordId) ==> !k.kind.Exclude?)
  }

  ghost predicate TellsNews(t: JobTables, postingId: nat, since: Instant) {
    exists key <- t.postings :: t.postings[key].id == postingId && IsNews(t, t.postings[key], since)
  }

  function Candidates(t: JobTables, channel: Channel, since: Instant): set<NotificationKey> {
    set key | key in t.postings && IsCandidate(t, channel, since, t.postings[key])
      :: NotificationKey(t.postings[key].id, channel)
  }

  /** Candidates are the posting's news that the channel has not had. */
  lemma CandidatesAreNews(t: JobTables, channel: Channel, since: Instant, n: NotificationKey)
    ensures n in Candidates(t, channel, since) <==> n.channel == channel && n !in t.notifications && TellsNews(t, n.postingId, since)
  {
    hide IsNews, HasMatch;
    forall key <- t.postings
      ensures IsNews(t, t.postings[key], since) <==>
              t.postings[key].firstSeenAt >= since && t.postings[key].isOpen
              && HasMatch(t, t.postings[key], Include) && !HasMatch(t, t.postings[key], Exclude)
    {
      NewsIsMatched(t, t.postings[key], since);
    }
  }

  lemma NewsIsMatched(t: JobTables, row: JobPosting, since: Instant)
    ensures IsNews(t, row, since) <==>
            row.firstSeenAt >= since && row.isOpen && HasMatch(t, row, Include) && !HasMatch(t, row, Exclude)
  {
  }

  function Queued(scheduledAt: Option<Instant>): Notification {
    Notification(Pending, 0, None, scheduledAt, None)
  }

  function WithRows(rows: map<NotificationKey, Notification>, added: set<NotificationKey>, row: Notification)
    : map<NotificationKey, Notification>
  {
    rows + map n | n in added :: row
  }

  function QueueNew(t: JobTables, channel: Channel, since: Instant, scheduledAt: Option<Instant>): JobTables {
    t.(notifications := WithRows(t.notifications, Candidates(t, channel, since), Queued(scheduledAt)))
  }

  /** One waiting row for all news that the channel has not had, and nothing else. */
  ghost predicate Enqueued(t: JobTables, after: JobTables, channel: Channel, since: Instant, scheduledAt: Option<Instant>, queued: nat) {
    && (forall n <- t.notifications :: n in after.notifications && after.notifications[n] == t.notifications[n])
    && (forall n :: n in after.notifications && n !in t.notifications <==>
          n.channel == channel && n !in t.notifications && TellsNews(t, n.postingId, since))
    && (forall n <- after.notifications :: n !in t.notifications ==>
          after.notifications[n] == Notification(Pending, 0, None, scheduledAt, None))
    && queued == |after.notifications.Keys - t.notifications.Keys|
  }

  lemma CandidatesAreFree(t: JobTables, channel: Channel, since: Instant)
    ensures Candidates(t, channel, since) !! t.notifications.Keys
  {
    hide HasMatch;
  }

  lemma QueueNewEnqueues(t: JobTables, channel: Channel, since: Instant, scheduledAt: Option<Instant>)
    ensures Enqueued(t, QueueNew(t, channel, since, scheduledAt), channel, since, scheduledAt, |Candidates(t, channel, since)|)
  {
    hide Candidates, TellsNews;
    var candidates, rows := Candidates(t, channel, since), t.notifications;
    forall n ensures n in candidates <==> n.channel == channel && n !in rows && TellsNews(t, n.postingId, since) {
      CandidatesAreNews(t, channel, since, n);
    }
    AddedRows(rows, candidates, Queued(scheduledAt));
    hide WithRows;
  }

  lemma AddedRows(rows: map<NotificationKey, Notification>, added: set<NotificationKey>, row: Notification)
    requires added !! rows.Keys
    ensures var after := WithRows(rows, added, row);
      && (forall n :: n in after <==> n in rows || n in added)
      && (forall n <- rows :: after[n] == rows[n])
      && (forall n <- added :: after[n] == row)
      && after.Keys - rows.Keys == added
  {
  }

  datatype Queueing = Queueing(tables: JobTables, queued: nat)

  function QueueAll(t: JobTables, senders: seq<Sender>, since: Instant, scheduledAt: Option<Instant>): Queueing {
    if senders == [] then Queueing(t, 0)
    else
      var before := QueueAll(t, senders[..|senders| - 1], since, scheduledAt);
      var channel := senders[|senders| - 1].name;
      Queueing(QueueNew(before.tables, channel, since, scheduledAt),
               before.queued + |Candidates(before.tables, channel, since)|)
  }

  // ---- sending --------------------------------------------------------------------------------

  predicate IsDue(n: Notification, now: Instant) {
    n.status.Pending? && (n.scheduledAt.None? || n.scheduledAt.value <= now)
  }

  function Due(t: JobTables, channel: Channel, now: Instant): set<NotificationKey> {
    set n | n in t.notifications && n.channel == channel && IsDue(t.notifications[n], now)
  }

  function MaxAttempts(settings: Settings): nat {
    Max(settings.retryAttempts, 1)
  }

  /** How many sends it takes from the k-th on: up to the first success, or all of them. */
  function AttemptsFrom(reply: nat -> SendResult, k: nat, max: nat): (attempts: nat)
    requires 1 <= k <= max
    ensures k <= attempts <= max
    ensures forall j :: k <= j < attempts ==> !reply(j).succeeded
    ensures reply(attempts).succeeded || attempts == max
    decreases max - k
  {
    if reply(k).succeeded || k == max then k else AttemptsFrom(reply, k + 1, max)
  }

  function Pow2(n: nat): nat {
    if n == 0 then 1 else 2 * Pow2(n - 1)
  }

  function Total(waits: seq<nat>): nat {
    if waits == [] then 0 else Total(waits[..|waits| - 1]) + waits[|waits| - 1]
  }

  /** The waits between sends are 1, 2, 4, … seconds; before send k + 1 they add up to 2^k - 1. */
  method SendWithRetry(sender: Sender, settings: Settings) returns (result: SendResult, attempts: nat, waits: seq<nat>)
    ensures attempts == AttemptsFrom(sender.reply, 1, MaxAttempts(settings))
    ensures result == sender.reply(attempts)
    ensures |waits| == attempts - 1
    ensures forall k :: 0 <= k < attempts ==> Total(waits[..k]) == Pow2(k) - 1
  {
    var max := MaxAttempts(settings);
    waits := [];
    var attempt := 1;
    while true
      invariant 1 <= attempt <= max && |waits| == attempt - 1
      invariant AttemptsFrom(sender.reply, attempt, max) == AttemptsFrom(sender.reply, 1, max)
      invariant forall k :: 0 <= k < attempt ==> Total(waits[..k]) == Pow2(k) - 1
      decreases max - attempt
    {
      result := sender.reply(attempt);
      if result.succeeded || attempt == max {
        attempts := attempt;
        return;
      }
      OneMoreWait(waits, Pow2(attempt - 1));
      waits := waits + [Pow2(attempt - 1)];
      attempt := attempt + 1;
    }
  }

  lemma OneMoreWait(waits: seq<nat>, wait: nat)
    ensures Total((waits + [wait])[..|waits| + 1]) == Total(waits[..|waits|]) + wait
    ensures forall k :: 0 <= k <= |waits| ==> (waits + [wait])[..k] == waits[..k]
  {
    assert waits[..|waits|] == waits;
    assert (waits + [wait])[..|waits| + 1] == waits + [wait] && (waits + [wait])[..|waits|] == waits;
  }

  function Delivered(n: Notification, now: Instant, result: SendResult, attempts: nat): Notification {
    if result.succeeded
    then n.(attemptCount := n.attemptCount + attempts, status := Sent, sentAt := Some(now))
    else n.(attemptCount := n.attemptCount + attempts, status := Failed, deliveryError := result.errorMessage)
  }

  function Deliver(t: JobTables, due: set<NotificationKey>, now: Instant, result: SendResult, attempts: nat): JobTables {
    t.(notifications := map n | n in t.notifications ::
         if n in due then Delivered(t.notifications[n], now, result, attempts) else t.notifications[n])
  }

  function SendOne(t: JobTables, sender: Sender, settings: Settings, now: Instant): JobTables {
    var due := Due(t, sender.name, now);
    if due == {} then t
    else
      var attempts := AttemptsFrom(sender.reply, 1, MaxAttempts(settings));
      Deliver(t, due, now, sender.reply(attempts), attempts)
  }

  /** The message a sender's turn puts out, if there is anything to send. */
  function BatchOf(t: JobTables, sender: Sender, settings: Settings, now: Instant): seq<Batch> {
    var due := Due(t, sender.name, now);
    if due == {} then []
    else [Batch(sender.name, due, sender.reply(AttemptsFrom(sender.reply, 1, MaxAttempts(settings))).succeeded)]
  }

  datatype Sends = Sends(tables: JobTables, batches: seq<Batch>)

  function SendAll(t: JobTables, senders: seq<Sender>, settings: Settings, now: Instant): Sends {
    if senders == [] then Sends(t, [])
    else
      var before := SendAll(t, senders[..|senders| - 1], settings, now);
      var sender := senders[|senders| - 1];
      Sends(SendOne(before.tables, sender, settings, now),
              before.batches + BatchOf(before.tables, sender, settings, now))
  }

  function CountOf(batches: seq<Batch>, succeeded: bool): nat {
    if batches == [] then 0
    else
      var last := batches[|batches| - 1];
      CountOf(batches[..|batches| - 1], succeeded) + if last.succeeded == succeeded then |last.keys| else 0
  }

  // ---- a whole dispatch -----------------------------------------------------------------------

  function Since(settings: Settings, now: Instant): Instant {
    now - settings.lookbackMinutes * MINUTE
  }

  function ScheduledAt(settings: Settings, now: Instant, force: bool): Option<Instant> {
    if force then None else QuietEnd(settings.quiet, now)
  }

  function DispatchBatches(t: JobTables, senders: seq<Sender>, settings: Settings, now: Instant, force: bool): Sends {
    var scheduledAt := ScheduledAt(settings, now, force);
    var queueing := QueueAll(t, senders, Since(settings, now), scheduledAt);
    if scheduledAt.Some? then Sends(queueing.tables, [])
    else SendAll(queueing.tables, senders, settings, now)
  }

  function SummaryOf(t: JobTables, senders: seq<Sender>, settings: Settings, now: Instant, force: bool): DispatchSummary {
    var batches := DispatchBatches(t, senders, settings, now, force).batches;
    DispatchSummary(QueueAll(t, senders, Since(settings, now), ScheduledAt(settings, now, force)).queued,
                    CountOf(batches, true), CountOf(batches, false))
  }

  // ---- subscriptions --------------------------------------------------------------------------

  function Invalidated(s: Subscription): Subscription {
    s.(isActive := false)
  }

  /** A subscription after being named `times` times among the failed endpoints. */
  function AfterFailures(s: Subscription, times: nat): Subscription {
    Subscription(s.isActive && (times == 0 || s.failureCount + times < DISABLE_AFTER_FAILURES), s.failureCount + times)
  }

  class NotificationDispatcher {
    const session: Session
    const settings: Settings

    constructor (session: Session, settings: Settings)
      ensures this.session == session && this.settings == settings
    {
      this.session, this.settings := session, settings;
    }

    /** Creates a row for every candidate; the unique constraint is never hit. */
    method EnqueueChannel(channel: Channel, now: Instant, scheduledAt: Option<Instant>) returns (queued: nat)
      modifies session
      ensures session.db == old(session.db).(jobs := QueueNew(old(session.db.jobs), channel, Since(settings, now), scheduledAt))
      ensures queued == |Candidates(old(session.db.jobs), channel, Since(settings, now))|
      ensures Enqueued(old(session.db.jobs), session.db.jobs, channel, now - settings.lookbackMinutes * MINUTE, scheduledAt, queued)
    {
      hide Candidates, TellsNews, Enqueued;
      var t := session.db.jobs;
      var candidates := Candidates(t, channel, Since(settings, now));
      CandidatesAreFree(t, channel, Since(settings, now));
      var rows := CreateAll(t.notifications, candidates, Queued(scheduledAt));
      session.db := session.db.(jobs := t.(notifications := rows));
      queued := |candidates|;
      QueueNewEnqueues(t, channel, Since(settings, now), scheduledAt);
    }

    /** Expired endpoints are switched off at once, failing ones after five failures in all. */
    method ApplyWebPushResult(result: SendResult)
      modifies session
      ensures session.db == old(session.db).(subscriptions := session.db.subscriptions)
      ensures session.db.subscriptions.Keys == old(session.db.subscriptions).Keys
      ensures forall e <- old(session.db.subscriptions) :: session.db.subscriptions[e] ==
                var before := old(session.db.subscriptions)[e];
                AfterFailures(if e in result.invalidEndpoints then Invalidated(before) else before,
                              multiset(result.failedEndpoints)[e])
    {
      var rows := SwitchOff(session.db.subscriptions, result.invalidEndpoints);
      rows := CountFailures(rows, result.failedEndpoints);
      session.db := session.db.(subscriptions := rows);
    }

    /** One channel's turn: send what is due as one message and record the outcome on every row. */
    method SendChannel(sender: Sender, now: Instant) returns (sent: nat, failed: nat)
      modifies session
      ensures session.db == old(session.db).(jobs := SendOne(old(session.db.jobs), sender, settings, now),
                                             subscriptions := session.db.subscriptions)
      ensures var batches := BatchOf(old(session.db.jobs), sender, settings, now);
              sent == CountOf(batches, true) && failed == CountOf(batches, false)
    {
      sent, failed := 0, 0;
      var t := session.db.jobs;
      var due := Due(t, sender.name, now);
      if due == {} {
        return;
      }
      var result, attempts, waits := SendWithRetry(sender, settings);
      session.db := session.db.(jobs := Deliver(t, due, now, result, attempts));
      ApplyWebPushResult(result);
      if result.succeeded {
        sent := |due|;
      } else {
        failed := |due|;
      }
      var batches := BatchOf(t, sender, settings, now);
      assert batches[..0] == [];
    }

    method Dispatch(senders: seq<Sender>, now: Instant, force: bool) returns (summary: DispatchSummary)
      modifies session
      ensures session.db == old(session.db).(jobs := DispatchBatches(old(session.db.jobs), senders, settings, now, force).tables,
                                             subscriptions := session.db.subscriptions)
      ensures summary == SummaryOf(old(session.db.jobs), senders, settings, now, force)
    {
      hide QueueNew, Candidates, Enqueued, SendOne, BatchOf, QuietEnd, CountOf;
      var queued, sent, failed := 0, 0, 0;
      var scheduledAt := if force then None else QuietEnd(settings.quiet, now);
      for i := 0 to |senders|
        invariant session.db == old(session.db).(jobs := session.db.jobs)
        invariant Queueing(session.db.jobs, queued) == QueueAll(old(session.db.jobs), senders[..i], Since(settings, now), scheduledAt)
      {
        assert senders[..i + 1][..i] == senders[..i];
        var more := EnqueueChannel(senders[i].name, now, scheduledAt);
        queued := queued + more;
      }
      assert senders[..|senders|] == senders;
      NothingCounted();
      if scheduledAt.Some? {
        return DispatchSummary(queued, 0, 0);
      }
      ghost var t := session.db.jobs;
      ghost var batches: seq<Batch> := [];
      for i := 0 to |senders|
        invariant session.db == old(session.db).(jobs := session.db.jobs, subscriptions := session.db.subscriptions)
        invariant Sends(session.db.jobs, batches) == SendAll(t, senders[..i], settings, now)
        invariant sent == CountOf(batches, true) && failed == CountOf(batches, false)
      {
        assert senders[..i + 1][..i] == senders[..i];
        ghost var batch := BatchOf(session.db.jobs, senders[i], settings, now);
        var s, f := SendChannel(senders[i], now);
        CountSplits(batches, batch, true);
        CountSplits(batches, batch, false);
        batches := batches + batch;
        sent, failed := sent + s, failed + f;
      }
      summary := DispatchSummary(queued, sent, failed);
    }
  }

  method SwitchOff(subscriptions: map<string, Subscription>, endpoints: seq<string>) returns (rows: map<string, Subscription>)
    ensures rows.Keys == subscriptions.Keys
    ensures forall e <- subscriptions :: rows[e] == if e in endpoints then Invalidated(subscriptions[e]) else subscriptions[e]
  {
    rows := subscriptions;
    for i := 0 to |endpoints|
      invariant rows.Keys == subscriptions.Keys
      invariant forall e <- subscriptions :: rows[e] ==
                  if e in endpoints[..i] then Invalidated(subscriptions[e]) else subscriptions[e]
    {
      var endpoint := endpoints[i];
      assert endpoints[..i + 1] == endpoints[..i] + [endpoint];
      if endpoint in rows {
        rows := rows[endpoint := rows[endpoint].(isActive := false)];
      }
    }
    assert endpoints[..|endpoints|] == endpoints;
  }

  method CountFailures(subscriptions: map<string, Subscription>, endpoints: seq<string>) returns (rows: map<string, Subscription>)
    ensures rows.Keys == subscriptions.Keys
    ensures forall e <- subscriptions :: rows[e] == AfterFailures(subscriptions[e], multiset(endpoints)[e])
  {
    hide AfterFailures, Counted;
    NothingFailed(subscriptions);
    rows := subscriptions;
    for i := 0 to |endpoints|
      invariant rows.Keys == subscriptions.Keys
      invariant Counted(subscriptions, endpoints[..i], rows)
    {
      var endpoint := endpoints[i];
      assert endpoints[..i + 1] == endpoints[..i] + [endpoint];
      OneMoreEndpoint(subscriptions, endpoints[..i], endpoint, rows);
      if endpoint in rows {
        var row := rows[endpoint].(failureCount := rows[endpoint].failureCount + 1);
        if row.failureCount >= DISABLE_AFTER_FAILURES {
          row := row.(isActive := false);
        }
        rows := rows[endpoint := row];
      }
    }
    assert endpoints[..|endpoints|] == endpoints;
    EveryoneCounted(subscriptions, endpoints, rows);
  }

  ghost predicate Counted(before: map<string, Subscription>, endpoints: seq<string>, rows: map<string, Subscription>) {
    rows.Keys == before.Keys && forall e <- before :: rows[e] == AfterFailures(before[e], multiset(endpoints)[e])
  }

  lemma EveryoneCounted(before: map<string, Subscription>, endpoints: seq<string>, rows: map<string, Subscription>)
    requires Counted(before, endpoints, rows)
    ensures forall e <- before :: e in rows && rows[e] == AfterFailures(before[e], multiset(endpoints)[e])
  {
    hide AfterFailures;
  }

  lemma NothingFailed(before: map<string, Subscription>)
    ensures Counted(before, [], before)
  {
  }

  lemma OneMoreEndpoint(before: map<string, Subscription>, endpoints: seq<string>, endpoint: string, rows: map<string, Subscription>)
    requires Counted(before, endpoints, rows)
    ensures endpoint in rows ==>
              var failures := rows[endpoint].failureCount + 1;
              Counted(before, endpoints + [endpoint],
                      rows[endpoint := Subscription(rows[endpoint].isActive && failures < DISABLE_AFTER_FAILURES, failures)])
    ensures endpoint !in rows ==> Counted(before, endpoints + [endpoint], rows)
  {
    hide AfterFailures;
    if endpoint in rows {
      OneMoreFailure(before[endpoint], multiset(endpoints)[endpoint]);
    }
  }

  lemma OneMoreFailure(s: Subscription, times: nat)
    ensures var before, after := AfterFailures(s, times), AfterFailures(s, times + 1);
      && after.failureCount == before.failureCount + 1
      && after.isActive == (before.isActive && before.failureCount + 1 < DISABLE_AFTER_FAILURES)
  {
  }

  /** Inserting rows one by one; a duplicate key would be a constraint violation. */
  method CreateAll(rows: map<NotificationKey, Notification>, keys: set<NotificationKey>, row: Notification)
    returns (created: map<NotificationKey, Notification>)
    requires keys !! rows.Keys
    ensures created == WithRows(rows, keys, row)
  {
    created := rows;
    var todo := keys;
    while todo != {}
      invariant todo <= keys
      invariant created == WithRows(rows, keys - todo, row)
      decreases |todo|
    {
      var n :| n in todo;
      OneMoreRow(rows, keys - todo, row, n);
      assert keys - (todo - {n}) == (keys - todo) + {n};
      hide WithRows;
      todo := todo - {n};
      created := created[n := row];
    }
    assert keys - {} == keys;
  }

  lemma OneMoreRow(rows: map<NotificationKey, Notification>, added: set<NotificationKey>, row: Notification, n: NotificationKey)
    requires n !in rows && n !in added
    ensures n !in WithRows(rows, added, row)
    ensures WithRows(rows, added, row)[n := row] == WithRows(rows, added + {n}, row)
  {
  }

  lemma NothingCounted()
    ensures CountOf([], true) == 0 && CountOf([], false) == 0
  {
  }

  lemma {:induction false} CountSplits(a: seq<Batch>, b: seq<Batch>, succeeded: bool)
    ensures CountOf(a + b, succeeded) == CountOf(a, succeeded) + CountOf(b, succeeded)
    decreases |b|
  {
    if b == [] {
      assert a + b == a;
    } else {
      assert (a + b)[..|a + b| - 1] == a + b[..|b| - 1];
      CountSplits(a, b[..|b| - 1], succeeded);
    }
  }
}
