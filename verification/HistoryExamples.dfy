/** Histories in which the promises of the program end: two messages about one listing, and a revision that shows no change. */
module HistoryExamples {
  import opened Prelude
  import opened Schema
  import opened Collector
  import opened CollectorTheorems
  import opened Retention
  import opened RetentionTheorems
  import opened Dispatcher
  import opened DispatcherTheorems
  import opened History
  import opened HistoryTheorems
  import opened KeywordMatcher
  import N = Normalizer

  // ---- single events --------------------------------------------------------------------------

  lemma RunSnoc(p: Platform, w: World, events: seq<Event>, e: Event)
    ensures Run(p, w, events + [e]) == Step(p, Run(p, w, events), e)
    ensures Schedule(p, w, events + [e]) <==> Schedule(p, w, events) && Possible(Run(p, w, events), e)
    ensures forall key, channel :: MessagesAbout(p, w, events + [e], key, channel)
              == MessagesAbout(p, w, events, key, channel) + MessagesNow(Run(p, w, events).db.jobs, e, key, channel)
  {
    assert (events + [e])[..|events|] == events;
  }

  /** The filter keeps the job, and its evidence makes it worth a message. */
  ghost predicate Wanted(p: Platform, keywords: seq<Keyword>, job: JobPostingDTO) {
    && Keeps(p, keywords, job)
    && Matches(keywords, Judge(p, keywords, job).AllMatches(), Include)
    && !Matches(keywords, Judge(p, keywords, job).AllMatches(), Exclude)
  }

  ghost predicate Matches(keywords: seq<Keyword>, matches: seq<Evidence>, kind: KeywordKind) {
    exists e <- matches :: exists k <- keywords :: k.id == Some(e.keywordId) && k.kind == kind
  }

  /** The one job of a batch, on its identity. */
  lemma OneJob(p: Platform, w: World, e: Event, job: JobPostingDTO)
    requires e.Collection? && Applied(p, w.db.sources, w.db.jobs.keywords, e) == Some([job])
    ensures Lookup(Tables(p, w.db, e).postings, job.Key())
         == JobRow(p, w.db.jobs.keywords, Lookup(w.db.jobs.postings, job.Key()), job, IdAt(e.ids, 0), e.at)
  {
    hide Applied, Tables, JobRow;
    RowsStepAlone(p, w.db, e, job.Key());
    assert [job][0].Key() == job.Key() && [job][..0] == [];
    assert RowAfter(p, w.db.jobs.keywords, Lookup(w.db.jobs.postings, job.Key()), job.Key(), [], e.ids, e.at)
        == Lookup(w.db.jobs.postings, job.Key());
  }

  lemma SettlesIn(p: Platform, w: World, e: Event, job: JobPostingDTO)
    requires e.Collection? && Applied(p, w.db.sources, w.db.jobs.keywords, e) == Some([job])
    requires job.Key() !in w.db.jobs.postings && Wanted(p, w.db.jobs.keywords, job)
    ensures var after := Step(p, w, e).db.jobs;
      && job.Key() in after.postings && after.keywords == w.db.jobs.keywords
      && var row := after.postings[job.Key()];
         && row.id == IdAt(e.ids, 0) && row.isOpen && row.firstSeenAt == e.at.began && row.deadlineAt == job.deadlineAt
         && HasMatch(after, row, Include) && !HasMatch(after, row, Exclude)
  {
    hide Applied, Judge, Messages;
    OneJob(p, w, e, job);
    KeywordsStep(p, w.db, e);
    hide Tables;
    var row := JobRow(p, w.db.jobs.keywords, None, job, IdAt(e.ids, 0), e.at).value;
    JobRowMeaning(p, w.db.jobs.keywords, None, job, IdAt(e.ids, 0), e.at, row);
  }

  /** A fresh row has no notification yet. */
  lemma FreshRowHasNoNote(p: Platform, w: World, e: Event, n: NotificationKey)
    requires TablesInvariant(p, w) && Possible(w, e) && e.Collection? && n.postingId !in w.used
    ensures n !in Step(p, w, e).db.jobs.notifications
  {
    hide RowsOk, Step, HasOwner, NoteLife;
    if n in w.db.jobs.notifications {
      OwnerIsUsed(w.db.jobs, w.used, n.postingId);
    }
    NotesFollowPostings(p, w, e, n);
    assert NoteLife(p, w, e, n);
    NoNoteBefore(p, w, e, n);
  }

  lemma NoNoteBefore(p: Platform, w: World, e: Event, n: NotificationKey)
    requires NoteLife(p, w, e, n) && n !in w.db.jobs.notifications
    ensures n !in Step(p, w, e).db.jobs.notifications
  {
    hide Deletes, Step;
  }

  /** A forced dispatch on one channel that gets through at once announces a candidate. */
  lemma CandidateIsAnnounced(t: JobTables, key: PostingKey, sender: Sender, settings: Settings, now: Instant)
    requires key in t.postings && IsCandidate(t, sender.name, Since(settings, now), t.postings[key]) && sender.reply(1).succeeded
    ensures var d := DispatchBatches(t, [sender], settings, now, true);
      var n := NotificationKey(t.postings[key].id, sender.name);
      && SuccessCount(d.batches, n) == 1 && d.tables == t.(notifications := d.tables.notifications)
      && n in d.tables.notifications && d.tables.notifications[n].status.Sent? && d.tables.notifications[n].sentAt == Some(now)
  {
    var n := NotificationKey(t.postings[key].id, sender.name);
    var since := Since(settings, now);
    var queued := QueueNew(t, sender.name, since, None);
    QueueOne(t, sender, since, None);
    assert n in queued.notifications && queued.notifications[n] == Queued(None) by {
      hide IsCandidate;
      assert n in Candidates(t, sender.name, since);
    }
    hide IsCandidate, HasMatch, QueueNew;
    SendJustOne(queued, sender, settings, now);
    assert n in Due(queued, sender.name, now);
    assert SuccessCount(BatchOf(queued, sender, settings, now), n) == 1 by {
      assert BatchOf(queued, sender, settings, now)[..0] == [];
    }
  }

  lemma QueueOne(t: JobTables, sender: Sender, since: Instant, at: Option<Instant>)
    ensures QueueAll(t, [sender], since, at).tables == QueueNew(t, sender.name, since, at)
  {
    assert [sender][..0] == [];
  }

  lemma SendJustOne(t: JobTables, sender: Sender, settings: Settings, now: Instant)
    ensures SendAll(t, [sender], settings, now) == Sends(SendOne(t, sender, settings, now), BatchOf(t, sender, settings, now))
  {
    assert [sender][..0] == [];
  }

  // ---- two messages about one listing ---------------------------------------------------------

  /** The listing is stored and announced: one message so far. */
  lemma AnnouncedFirst(p: Platform, w: World, collected: Event, announced: Event, job: JobPostingDTO, sender: Sender)
    requires TablesInvariant(p, w) && Possible(w, collected) && collected.Collection? && collected.ids != []
    requires Applied(p, w.db.sources, w.db.jobs.keywords, collected) == Some([job])
    requires job.Key() !in w.db.jobs.postings && Wanted(p, w.db.jobs.keywords, job) && sender.reply(1).succeeded
    requires announced.Dispatching? && announced.senders == [sender] && announced.force
    requires Since(announced.settings, announced.now) <= collected.at.began
    ensures var stored := Step(p, w, collected);
      var after := Step(p, stored, announced);
      var n := NotificationKey(collected.ids[0], sender.name);
      && MessagesNow(stored.db.jobs, announced, job.Key(), sender.name) == 1
      && after.db.jobs.postings == stored.db.jobs.postings && after.db.jobs.keywords == w.db.jobs.keywords
      && job.Key() in after.db.jobs.postings && after.db.jobs.postings[job.Key()].id == collected.ids[0]
      && n in after.db.jobs.notifications && after.db.jobs.notifications[n].sentAt == Some(announced.now)
      && SuccessCount(after.log, n) == SuccessCount(stored.log, n) + 1
  {
    var stored := Step(p, w, collected);
    var n := NotificationKey(collected.ids[0], sender.name);
    SettlesIn(p, w, collected, job);
    assert n.postingId in collected.ids;
    FreshRowHasNoNote(p, w, collected, n);
    hide Tables, HasMatch, Wanted, Applied, TablesInvariant, Possible;
    CandidateIsAnnounced(stored.db.jobs, job.Key(), sender, announced.settings, announced.now);
    hide DispatchBatches;
    SuccessCountSplits(stored.log, Messages(stored.db.jobs, announced), n);
    assert Tables(p, stored.db, announced) == DispatchBatches(stored.db.jobs, [sender], announced.settings, announced.now, true).tables by { DispatchTables(p, stored.db, announced); }
  }

  lemma DispatchTables(p: Platform, db: Database, e: Event)
    requires e.Dispatching?
    ensures Tables(p, db, e) == DispatchBatches(db.jobs, e.senders, e.settings, e.now, e.force).tables
  {
    hide DispatchBatches;
  }

  /** Stored and announced, deleted by the third event, stored and announced again. */
  lemma TwoLives(p: Platform, w: World, e: seq<Event>, job: JobPostingDTO, sender: Sender, w2: World, w3: World)
    requires |e| == 5 && Fresh(w) && job.Key() !in w3.db.jobs.postings && !e[2].Dispatching? && !e[2].KeywordsEdited?
    requires w2 == Step(p, Step(p, w, e[0]), e[1]) && w3 == Step(p, w2, e[2])
    requires forall i :: 0 <= i < 5 ==> Possible(Run(p, w, e[..i]), e[i])
    requires forall i <- {0, 3} :: e[i].Collection? && e[i].ids != []
    requires Applied(p, w.db.sources, w.db.jobs.keywords, e[0]) == Some([job])
    requires Applied(p, w.db.sources, w.db.jobs.keywords, e[3]) == Some([job])
    requires Wanted(p, w.db.jobs.keywords, job) && sender.reply(1).succeeded
    requires forall i <- {1, 4} :: e[i].Dispatching? && e[i].senders == [sender] && e[i].force
                                   && Since(e[i].settings, e[i].now) <= e[i - 1].at.began
    ensures Schedule(p, w, e) && MessagesAbout(p, w, e, job.Key(), sender.name) == 2
  {
    hide Wanted, Applied, Possible, Fresh, TablesInvariant, Step, MessagesNow;
    FreshTables(p, w);
    FreshIsEmpty(w, job.Key());
    assert e[..0] == [] && e == e[..5];
    Unfold(p, w, e, 0);
    Unfold(p, w, e, 1);
    Unfold(p, w, e, 2);
    Unfold(p, w, e, 3);
    Unfold(p, w, e, 4);
    ReachableTables(p, w, e[..3]);
    FrameOfRun(p, w, e[..3]);
    NoEditNoChange(w.db.jobs.keywords, e[..3]);
    AnnouncedFirst(p, w, e[0], e[1], job, sender);
    AnnouncedFirst(p, w3, e[3], e[4], job, sender);
    QuietMoment(w.db.jobs, e[0], job.Key(), sender.name);
    QuietMoment(w2.db.jobs, e[2], job.Key(), sender.name);
    QuietMoment(w3.db.jobs, e[3], job.Key(), sender.name);
  }

  lemma FreshIsEmpty(w: World, key: PostingKey)
    requires Fresh(w)
    ensures key !in w.db.jobs.postings
  {
  }

  lemma Unfold(p: Platform, w: World, e: seq<Event>, i: nat)
    requires i < |e|
    ensures Run(p, w, e[..i + 1]) == Step(p, Run(p, w, e[..i]), e[i])
    ensures Schedule(p, w, e[..i + 1]) <==> Schedule(p, w, e[..i]) && Possible(Run(p, w, e[..i]), e[i])
    ensures forall key, channel :: MessagesAbout(p, w, e[..i + 1], key, channel)
              == MessagesAbout(p, w, e[..i], key, channel) + MessagesNow(Run(p, w, e[..i]).db.jobs, e[i], key, channel)
  {
    assert e[..i + 1] == e[..i] + [e[i]];
    RunSnoc(p, w, e[..i], e[i]);
  }

  lemma {:induction false} NoEditNoChange(keywords: seq<Keyword>, events: seq<Event>)
    requires forall e <- events :: !e.KeywordsEdited?
    ensures KeywordsAfter(keywords, events) == keywords
    decreases |events|
  {
    if events != [] {
      assert forall e <- events[..|events| - 1] :: e in events;
      NoEditNoChange(keywords, events[..|events| - 1]);
    }
  }

  lemma QuietMoment(t: JobTables, e: Event, key: PostingKey, channel: Channel)
    requires !e.Dispatching?
    ensures MessagesNow(t, e, key, channel) == 0
  {
  }

  /** A listing that is collected and announced in one instant. */
  ghost predicate Listing(p: Platform, w: World, sourceId: nat, raws: seq<RawJob>, job: JobPostingDTO, sender: Sender) {
    && Fresh(w) && sourceId in w.db.sources && |raws| == 1
    && Accepted(p, w.db.jobs.keywords, sourceId, raws) == Ok([job]) && Wanted(p, w.db.jobs.keywords, job)
    && sender.reply(1).succeeded
  }

  function CollectedAt(sourceId: nat, raws: seq<RawJob>, t: Instant, id: nat): Event {
    Collection(sourceId, raws, true, Moment(t, t), [id], t)
  }

  function AnnouncedAt(sender: Sender, settings: Settings, t: Instant): Event {
    Dispatching([sender], settings, t, true)
  }

  /** The listing, something that takes its posting away, and the listing once more. */
  function Twice(sourceId: nat, raws: seq<RawJob>, sender: Sender, settings: Settings, t: Instant, middle: Event, later: Instant,
                 first: nat, again: nat): seq<Event>
  {
    [CollectedAt(sourceId, raws, t, first), AnnouncedAt(sender, settings, t), middle,
     CollectedAt(sourceId, raws, later, again), AnnouncedAt(sender, settings, later)]
  }

  lemma ListedTwice(p: Platform, w: World, sourceId: nat, raws: seq<RawJob>, job: JobPostingDTO, sender: Sender, settings: Settings,
                    t: Instant, middle: Event, later: Instant, first: nat, again: nat)
    requires Listing(p, w, sourceId, raws, job, sender) && w.clock <= t <= later && middle.End() == later
    requires first !in w.used && again !in w.used && first != again
    requires middle.RetentionRun? || (middle.Collection? && |middle.ids| == 1 == |middle.raws| && middle.ids[0] !in w.used + {first, again}
                                      && t <= middle.at.began <= middle.at.now <= middle.committed)
    requires 0 <= settings.lookbackMinutes * MINUTE <= NOTIFICATION_DAYS * DAY
    requires var w1 := Step(p, w, CollectedAt(sourceId, raws, t, first));
      job.Key() !in Step(p, Step(p, w1, AnnouncedAt(sender, settings, t)), middle).db.jobs.postings
    ensures var e := Twice(sourceId, raws, sender, settings, t, middle, later, first, again);
      Schedule(p, w, e) && LooksBackAtMost90Days(e) && MessagesAbout(p, w, e, job.Key(), sender.name) == 2
  {
    hide Listing, Wanted, Run, MessagesAbout, Schedule, Step, Possible, Accepted, Applied, Fresh;
    ListingFacts(p, w, sourceId, raws, job, sender);
    var e := Twice(sourceId, raws, sender, settings, t, middle, later, first, again);
    FourSteps(p, w, e);
    ListingApplied(p, w, sourceId, raws, job, sender, t, first);
    ListingApplied(p, w, sourceId, raws, job, sender, later, again);
    TwicePossible(p, w, e, sourceId, Run(p, w, e[..1]), Run(p, w, e[..2]), Run(p, w, e[..3]), Run(p, w, e[..4]));
    TwoLives(p, w, e, job, sender, Run(p, w, e[..2]), Run(p, w, e[..3]));
  }

  lemma ListingFacts(p: Platform, w: World, sourceId: nat, raws: seq<RawJob>, job: JobPostingDTO, sender: Sender)
    requires Listing(p, w, sourceId, raws, job, sender)
    ensures Fresh(w) && sourceId in w.db.sources && w.ended == map[] && |raws| == 1
    ensures Wanted(p, w.db.jobs.keywords, job) && sender.reply(1).succeeded
  {
    hide Accepted, Wanted;
  }

  lemma ListingApplied(p: Platform, w: World, sourceId: nat, raws: seq<RawJob>, job: JobPostingDTO, sender: Sender, t: Instant, id: nat)
    requires Listing(p, w, sourceId, raws, job, sender)
    ensures Applied(p, w.db.sources, w.db.jobs.keywords, CollectedAt(sourceId, raws, t, id)) == Some([job])
  {
    hide Accepted, Wanted;
  }

  lemma FourSteps(p: Platform, w: World, e: seq<Event>)
    requires |e| == 5
    ensures Run(p, w, e[..0]) == w
    ensures Run(p, w, e[..1]) == Step(p, w, e[0])
    ensures Run(p, w, e[..2]) == Step(p, Step(p, w, e[0]), e[1])
    ensures Run(p, w, e[..3]) == Step(p, Run(p, w, e[..2]), e[2])
    ensures Run(p, w, e[..4]) == Step(p, Run(p, w, e[..3]), e[3])
  {
    hide Step;
    NoEventNoChange(p, w);
    assert e[..0] == [];
    Unfold(p, w, e, 0);
    Unfold(p, w, e, 1);
    Unfold(p, w, e, 2);
    Unfold(p, w, e, 3);
  }

  lemma NoEventNoChange(p: Platform, w: World)
    ensures Run(p, w, []) == w
  {
  }

  lemma TwicePossible(p: Platform, w: World, e: seq<Event>, sourceId: nat, w1: World, w2: World, w3: World, w4: World)
    requires |e| == 5 && w.ended == map[] && w.clock <= e[0].End()
    requires w1 == Step(p, w, e[0]) && w2 == Step(p, w1, e[1]) && w3 == Step(p, w2, e[2]) && w4 == Step(p, w3, e[3])
    requires forall i <- {0, 3} :: e[i].Collection? && |e[i].ids| == 1 == |e[i].raws| && e[i].at == Moment(e[i].committed, e[i].committed)
                                   && e[i].ids[0] !in w.used
    requires e[0].sourceId == e[3].sourceId == sourceId && e[0].ids[0] != e[3].ids[0]
    requires e[1].Dispatching? && e[1].now == e[0].End() && e[4].Dispatching? && e[4].now == e[3].End()
    requires e[2].End() == e[3].End() >= e[0].End()
    requires e[2].RetentionRun? || (e[2].Collection? && |e[2].ids| == 1 == |e[2].raws| && e[2].ids[0] !in w.used + {e[0].ids[0], e[3].ids[0]}
                                    && e[0].End() <= e[2].at.began <= e[2].at.now <= e[2].committed)
    ensures Possible(w, e[0]) && Possible(w1, e[1]) && Possible(w2, e[2]) && Possible(w3, e[3]) && Possible(w4, e[4])
  {
    hide Tables, Messages;
    assert w1.used == w.used + {e[0].ids[0]};
    assert w1.ended == map[sourceId := e[0].committed] && w2.ended == w1.ended && w2.used == w1.used;
    assert w3.used == w2.used + if e[2].Collection? then {e[2].ids[0]} else {};
  }

  /** Where the posting stands after the first announcement. */
  lemma StillStored(p: Platform, w: World, sourceId: nat, raws: seq<RawJob>, job: JobPostingDTO, sender: Sender, settings: Settings, t: Instant, first: nat)
    requires Listing(p, w, sourceId, raws, job, sender) && w.clock <= t && first !in w.used && 0 <= settings.lookbackMinutes
    ensures var w2 := Step(p, Step(p, w, CollectedAt(sourceId, raws, t, first)), AnnouncedAt(sender, settings, t));
      && w2.db.sources == w.db.sources && w2.db.jobs.keywords == w.db.jobs.keywords
      && job.Key() in w2.db.jobs.postings
      && var row, n := w2.db.jobs.postings[job.Key()], NotificationKey(first, sender.name);
         && row.deadlineAt == job.deadlineAt && row.id == first && row.isOpen && row.firstSeenAt == t
         && HasMatch(w2.db.jobs, row, Include) && !HasMatch(w2.db.jobs, row, Exclude)
         && n in w2.db.jobs.notifications && w2.db.jobs.notifications[n].sentAt == Some(t)
         && SuccessCount(w2.log, n) == 1
  {
    hide Accepted, Wanted, Tables, Messages, TablesInvariant, Listing, Fresh, Applied, HasMatch;
    var e, announced := CollectedAt(sourceId, raws, t, first), AnnouncedAt(sender, settings, t);
    ListingFacts(p, w, sourceId, raws, job, sender);
    ListingApplied(p, w, sourceId, raws, job, sender, t, first);
    FreshTables(p, w);
    FreshIsEmpty(w, job.Key());
    SettlesIn(p, w, e, job);
    AnnouncedFirst(p, w, e, announced, job, sender);
    var stored := Step(p, w, e);
    SameMatches(stored.db.jobs, Step(p, stored, announced).db.jobs, stored.db.jobs.postings[job.Key()]);
    NothingSaidYet(p, w, e, NotificationKey(first, sender.name));
  }

  lemma NothingSaidYet(p: Platform, w: World, e: Event, n: NotificationKey)
    requires Fresh(w) && !e.Dispatching?
    ensures SuccessCount(Step(p, w, e).log, n) == 0
  {
    hide Tables;
  }

  lemma SameMatches(t: JobTables, after: JobTables, row: JobPosting)
    requires t.keywords == after.keywords
    ensures HasMatch(t, row, Include) == HasMatch(after, row, Include) && HasMatch(t, row, Exclude) == HasMatch(after, row, Exclude)
  {
  }

  /** Two days past its deadline, as long as the site shows it. */
  lemma ExpiredListingIsAnnouncedTwice(p: Platform, w: World, sourceId: nat, raws: seq<RawJob>, job: JobPostingDTO, sender: Sender,
                                       settings: Settings, t: Instant, night: Instant, first: nat, again: nat)
    requires Listing(p, w, sourceId, raws, job, sender) && w.clock <= t <= night
    requires first !in w.used && again !in w.used && first != again
    requires 0 <= settings.lookbackMinutes * MINUTE <= NOTIFICATION_DAYS * DAY
    requires job.deadlineAt.Some? && KstDate(night) >= KstDate(job.deadlineAt.value) + 2
    ensures var e := Twice(sourceId, raws, sender, settings, t, RetentionRun(night), night, first, again);
      Schedule(p, w, e) && LooksBackAtMost90Days(e) && MessagesAbout(p, w, e, job.Key(), sender.name) == 2
  {
    hide Listing, KstDate, Messages;
    StillStored(p, w, sourceId, raws, job, sender, settings, t, first);
    var w2 := Step(p, Step(p, w, CollectedAt(sourceId, raws, t, first)), AnnouncedAt(sender, settings, t));
    DeletedTwoDaysAfterDeadline(w2.db.jobs, night, job.Key());
    assert Tables(p, w2.db, RetentionRun(night)) == RetainedJobs(w2.db.jobs, night) by { hide RetainedJobs; }
    hide Tables;
    ListedTwice(p, w, sourceId, raws, job, sender, settings, t, RetentionRun(night), night, first, again);
  }

  lemma RejectedGoes(p: Platform, w: World, e: Event, rejected: JobPostingDTO)
    requires e.Collection? && e.sourceId in w.db.sources && Accepted(p, w.db.jobs.keywords, e.sourceId, e.raws) == Ok([rejected])
    requires !Keeps(p, w.db.jobs.keywords, rejected)
    ensures rejected.Key() !in Step(p, w, e).db.jobs.postings
  {
    hide Accepted, Keeps, Messages;
    assert Applied(p, w.db.sources, w.db.jobs.keywords, e) == Some([rejected]);
    OneJob(p, w, e, rejected);
    hide Tables;
  }

  /** Rejected once by the filter, and kept again. */
  lemma FilteredListingIsAnnouncedTwice(p: Platform, w: World, sourceId: nat, raws: seq<RawJob>, job: JobPostingDTO, sender: Sender,
                                        settings: Settings, others: seq<RawJob>, rejected: JobPostingDTO, t: Instant,
                                        first: nat, between: nat, again: nat)
    requires Listing(p, w, sourceId, raws, job, sender) && w.clock <= t
    requires first !in w.used && again !in w.used && between !in w.used && first != again && between !in {first, again}
    requires 0 <= settings.lookbackMinutes * MINUTE <= NOTIFICATION_DAYS * DAY
    requires |others| == 1 && Accepted(p, w.db.jobs.keywords, sourceId, others) == Ok([rejected])
    requires rejected.Key() == job.Key() && !Keeps(p, w.db.jobs.keywords, rejected)
    ensures var e := Twice(sourceId, raws, sender, settings, t, CollectedAt(sourceId, others, t, between), t, first, again);
      Schedule(p, w, e) && LooksBackAtMost90Days(e) && MessagesAbout(p, w, e, job.Key(), sender.name) == 2
  {
    hide Listing, Accepted, Keeps, Step, Schedule, MessagesAbout, LooksBackAtMost90Days;
    ListingFacts(p, w, sourceId, raws, job, sender);
    StillStored(p, w, sourceId, raws, job, sender, settings, t, first);
    var w2 := Step(p, Step(p, w, CollectedAt(sourceId, raws, t, first)), AnnouncedAt(sender, settings, t));
    var middle := CollectedAt(sourceId, others, t, between);
    RejectedGoes(p, w2, middle, rejected);
    ListedTwice(p, w, sourceId, raws, job, sender, settings, t, middle, t, first, again);
  }

  // ---- two messages about one row -------------------------------------------------------------

  /** Ninety days and an instant after its message, a row is a candidate again for every longer lookback. */
  lemma ForgottenIsCandidate(p: Platform, w: World, key: PostingKey, channel: Channel, settings: Settings, t: Instant, later: Instant)
    requires key in w.db.jobs.postings && later == t + NOTIFICATION_DAYS * DAY + 1
    requires var row := w.db.jobs.postings[key];
      var n := NotificationKey(row.id, channel);
      && row.isOpen && row.firstSeenAt == t && HasMatch(w.db.jobs, row, Include) && !HasMatch(w.db.jobs, row, Exclude)
      && (row.deadlineAt.Some? ==> KstDate(later) < KstDate(row.deadlineAt.value) + 2)
      && n in w.db.jobs.notifications && w.db.jobs.notifications[n].sentAt == Some(t)
    requires settings.lookbackMinutes * MINUTE > NOTIFICATION_DAYS * DAY
    ensures var after := Step(p, w, RetentionRun(later)).db.jobs;
      && key in after.postings && after.postings[key].id == w.db.jobs.postings[key].id
      && IsCandidate(after, channel, Since(settings, later), after.postings[key])
  {
    var t0, after := w.db.jobs, RetainedJobs(w.db.jobs, later);
    var row := t0.postings[key];
    RetainedRows(t0, later, key);
    FrameOfRetention(t0, later);
    RetainedNotifications(t0, later, NotificationKey(row.id, channel));
    ExpiryIsDeletion(row, later);
    hide RetainedJobs, KeepRevisions, DeadlineExpiryCutoff, KstDate, HasMatch;
    assert after.postings[key].keywordMatches == row.keywordMatches && after.postings[key].isOpen;
    MatchesCarryOver(t0, after, row, after.postings[key]);
  }

  lemma MatchesCarryOver(t: JobTables, after: JobTables, row: JobPosting, kept: JobPosting)
    requires t.keywords == after.keywords && row.keywordMatches == kept.keywordMatches
    ensures HasMatch(t, row, Include) == HasMatch(after, kept, Include) && HasMatch(t, row, Exclude) == HasMatch(after, kept, Exclude)
  {
  }

  /** Every lookback of more than ninety days can announce one row twice. */
  lemma LongLookbackAnnouncesTwice(p: Platform, w: World, sourceId: nat, raws: seq<RawJob>, job: JobPostingDTO, sender: Sender,
                                   settings: Settings, t: Instant, later: Instant, first: nat)
    requires Listing(p, w, sourceId, raws, job, sender) && w.clock <= t && first !in w.used
    requires settings.lookbackMinutes * MINUTE > NOTIFICATION_DAYS * DAY && later == t + NOTIFICATION_DAYS * DAY + 1
    requires job.deadlineAt.Some? ==> KstDate(later) < KstDate(job.deadlineAt.value) + 2
    ensures var e := [CollectedAt(sourceId, raws, t, first), AnnouncedAt(sender, settings, t), RetentionRun(later),
                      AnnouncedAt(sender, settings, later)];
      Schedule(p, w, e) && SuccessCount(Run(p, w, e).log, NotificationKey(first, sender.name)) == 2
  {
    hide Listing, KstDate, HasMatch, Fresh, Tables, Messages;
    ListingFacts(p, w, sourceId, raws, job, sender);
    StillStored(p, w, sourceId, raws, job, sender, settings, t, first);
    var e := [CollectedAt(sourceId, raws, t, first), AnnouncedAt(sender, settings, t), RetentionRun(later), AnnouncedAt(sender, settings, later)];
    var w1 := Step(p, w, e[0]);
    var w2 := Step(p, w1, e[1]);
    var w3 := Step(p, w2, e[2]);
    assert Possible(w, e[0]) && Possible(w1, e[1]) && Possible(w2, e[2]) && Possible(w3, e[3]);
    hide Step, Possible;
    FourEvents(p, w, e);
    ForgottenIsCandidate(p, w2, job.Key(), sender.name, settings, t, later);
    OneMoreMessage(p, w3, job.Key(), sender, settings, later);
    NoMessage(p, w2, later, NotificationKey(first, sender.name));
  }

  lemma OneMoreMessage(p: Platform, w: World, key: PostingKey, sender: Sender, settings: Settings, now: Instant)
    requires key in w.db.jobs.postings && IsCandidate(w.db.jobs, sender.name, Since(settings, now), w.db.jobs.postings[key]) && sender.reply(1).succeeded
    ensures var n := NotificationKey(w.db.jobs.postings[key].id, sender.name);
      SuccessCount(Step(p, w, AnnouncedAt(sender, settings, now)).log, n) == SuccessCount(w.log, n) + 1
  {
    hide IsCandidate, Tables, DispatchBatches;
    var e := AnnouncedAt(sender, settings, now);
    CandidateIsAnnounced(w.db.jobs, key, sender, settings, now);
    SuccessCountSplits(w.log, Messages(w.db.jobs, e), NotificationKey(w.db.jobs.postings[key].id, sender.name));
  }

  lemma NoMessage(p: Platform, w: World, now: Instant, n: NotificationKey)
    ensures SuccessCount(Step(p, w, RetentionRun(now)).log, n) == SuccessCount(w.log, n)
  {
    hide Tables;
    assert w.log + [] == w.log;
  }

  lemma FourEvents(p: Platform, w: World, e: seq<Event>)
    requires |e| == 4
    ensures Run(p, w, e) == Step(p, Step(p, Step(p, Step(p, w, e[0]), e[1]), e[2]), e[3])
    ensures Schedule(p, w, e) <==> && Possible(w, e[0]) && Possible(Step(p, w, e[0]), e[1]) && Possible(Step(p, Step(p, w, e[0]), e[1]), e[2])
                                   && Possible(Step(p, Step(p, Step(p, w, e[0]), e[1]), e[2]), e[3])
  {
    hide Step, Possible;
    NoEventNoChange(p, w);
    assert e[..0] == [] && e[..4] == e;
    Unfold(p, w, e, 0);
    Unfold(p, w, e, 1);
    Unfold(p, w, e, 2);
    Unfold(p, w, e, 3);
  }

  // ---- a revision that shows no change --------------------------------------------------------

  function NothingShown(sourceId: nat, t: Instant): Event {
    Collection(sourceId, [], true, Moment(t, t), [], t)
  }

  lemma MissNext(p: Platform, sources: map<nat, Source>, keywords: seq<Keyword>, sourceId: nat, t: Instant, key: PostingKey, row: JobPosting)
    requires sourceId in sources && key.sourceId == sourceId && row.isOpen
    ensures RowNext(p, sources, keywords, NothingShown(sourceId, t), key, Some(row)) == Some(MissedRow(row, t))
  {
  }

  lemma SightNext(p: Platform, sources: map<nat, Source>, keywords: seq<Keyword>, sourceId: nat, raws: seq<RawJob>, t: Instant, id: nat,
                  job: JobPostingDTO, row: Option<JobPosting>)
    requires sourceId in sources && Accepted(p, keywords, sourceId, raws) == Ok([job])
    ensures RowNext(p, sources, keywords, CollectedAt(sourceId, raws, t, id), job.Key(), row)
         == JobRow(p, keywords, row, job, id, Moment(t, t))
  {
    hide Accepted, JobRow;
    assert [job][0].Key() == job.Key() && [job][..0] == [];
    assert RowAfter(p, keywords, row, job.Key(), [], [id], Moment(t, t)) == row;
    assert RowAfter(p, keywords, row, job.Key(), [job], [id], Moment(t, t)) == JobRow(p, keywords, row, job, id, Moment(t, t));
  }

  /** The row of an identity at the end of a history that started without it. */
  function RowAlong(p: Platform, sources: map<nat, Source>, keywords: seq<Keyword>, events: seq<Event>, key: PostingKey): Option<JobPosting> {
    if events == [] then None
    else
      var init := events[..|events| - 1];
      RowNext(p, sources, KeywordsAfter(keywords, init), events[|events| - 1], key, RowAlong(p, sources, keywords, init, key))
  }

  lemma {:induction false} RowsGoAlone(p: Platform, w: World, events: seq<Event>, key: PostingKey)
    requires Fresh(w)
    ensures Lookup(Run(p, w, events).db.jobs.postings, key) == RowAlong(p, w.db.sources, w.db.jobs.keywords, events, key)
    decreases |events|
  {
    hide Tables, Messages, RowNext;
    if events != [] {
      var init := events[..|events| - 1];
      RowsGoAlone(p, w, init, key);
      FrameOfRun(p, w, init);
      RowsStepAlone(p, Run(p, w, init).db, events[|events| - 1], key);
    }
  }

  lemma AlongSnoc(p: Platform, sources: map<nat, Source>, keywords: seq<Keyword>, events: seq<Event>, e: Event, key: PostingKey)
    requires forall x <- events :: !x.KeywordsEdited?
    ensures RowAlong(p, sources, keywords, events + [e], key) == RowNext(p, sources, keywords, e, key, RowAlong(p, sources, keywords, events, key))
  {
    assert (events + [e])[..|events|] == events;
    NoEditNoChange(keywords, events);
    hide RowNext;
  }

  /** Three empty collections close the posting; ninety days and an instant later its body is blanked. */
  function Blanking(sourceId: nat, raws: seq<RawJob>, t: Instant, id: nat): seq<Event> {
    [CollectedAt(sourceId, raws, t, id), NothingShown(sourceId, t), NothingShown(sourceId, t), NothingShown(sourceId, t),
     RetentionRun(t + CONTENT_DAYS * DAY + 1)]
  }

  lemma BlankedRow(p: Platform, sources: map<nat, Source>, keywords: seq<Keyword>, sourceId: nat, raws: seq<RawJob>, t: Instant, id: nat,
                   job: JobPostingDTO)
    requires sourceId in sources && Accepted(p, keywords, sourceId, raws) == Ok([job]) && Keeps(p, keywords, job) && job.sourceId == sourceId
    requires job.deadlineAt.Some? ==> KstDate(t + CONTENT_DAYS * DAY + 1) < KstDate(job.deadlineAt.value) + 2
    ensures var row := RowAlong(p, sources, keywords, Blanking(sourceId, raws, t, id), job.Key());
      && row.Some? && row.value.revisions == [] && row.value.contentHash == job.contentHash
      && row.value.title == job.title && row.value.deadlineAt == job.deadlineAt && row.value.description == None
  {
    hide Accepted, Keeps, Judge, KstDate, RowNext;
    var key, later := job.Key(), t + CONTENT_DAYS * DAY + 1;
    var e := Blanking(sourceId, raws, t, id);
    assert e[..0] == [] && e[..1] == [] + [e[0]] && e[..2] == e[..1] + [e[1]] && e[..3] == e[..2] + [e[2]] && e[..4] == e[..3] + [e[3]]
           && e == e[..4] + [e[4]];
    AlongSnoc(p, sources, keywords, [], e[0], key);
    AlongSnoc(p, sources, keywords, e[..1], e[1], key);
    AlongSnoc(p, sources, keywords, e[..2], e[2], key);
    AlongSnoc(p, sources, keywords, e[..3], e[3], key);
    AlongSnoc(p, sources, keywords, e[..4], e[4], key);
    SightNext(p, sources, keywords, sourceId, raws, t, id, job, None);
    var seen := JobRow(p, keywords, None, job, id, Moment(t, t)).value;
    JobRowMeaning(p, keywords, None, job, id, Moment(t, t), seen);
    hide RowAlong, JobRow;
    MissNext(p, sources, keywords, sourceId, t, key, seen);
    MissNext(p, sources, keywords, sourceId, t, key, MissedRow(seen, t));
    MissNext(p, sources, keywords, sourceId, t, key, MissedRow(MissedRow(seen, t), t));
    ClosedIsBlanked(p, sources, keywords, key, MissedRow(MissedRow(MissedRow(seen, t), t), t), later);
  }

  lemma ClosedIsBlanked(p: Platform, sources: map<nat, Source>, keywords: seq<Keyword>, key: PostingKey, row: JobPosting, now: Instant)
    requires ClosedBefore(row, now - CONTENT_DAYS * DAY) && row.revisions == []
    requires row.deadlineAt.Some? ==> KstDate(now) < KstDate(row.deadlineAt.value) + 2
    ensures RowNext(p, sources, keywords, RetentionRun(now), key, Some(row)) == Some(ClearedRow(row))
  {
    ExpiryIsDeletion(row, now);
  }

  /**
   * A listing whose body was blanked and that its site then shows without one: the hash changes, and
   * its revision shows no field.
   */
  lemma BlankedRowChangesHashAlone(p: Platform, w: World, sourceId: nat, raws: seq<RawJob>, bare: seq<RawJob>, job: JobPostingDTO,
                                   same: JobPostingDTO, t: Instant, id: nat, other: nat, later: Instant)
    requires Fresh(w) && sourceId in w.db.sources && later == t + CONTENT_DAYS * DAY + 1
    requires Accepted(p, w.db.jobs.keywords, sourceId, raws) == Ok([job]) && Accepted(p, w.db.jobs.keywords, sourceId, bare) == Ok([same])
    requires Keeps(p, w.db.jobs.keywords, job) && Keeps(p, w.db.jobs.keywords, same) && job.Key() == same.Key() && job.sourceId == sourceId
    requires job.title == same.title && job.deadlineAt == same.deadlineAt && same.description == None && job.contentHash != same.contentHash
    requires job.deadlineAt.Some? ==> KstDate(later) < KstDate(job.deadlineAt.value) + 2
    ensures var row := Lookup(Run(p, w, Blanking(sourceId, raws, t, id) + [CollectedAt(sourceId, bare, later, other)]).db.jobs.postings, job.Key());
      row.Some? && row.value.revisions == [Revision(map[], job.contentHash, same.contentHash, later)]
  {
    hide Accepted, Keeps, Judge, KstDate, RowNext, Run, RowAlong, Fresh;
    var sources, keywords, key := w.db.sources, w.db.jobs.keywords, job.Key();
    var e, last := Blanking(sourceId, raws, t, id), CollectedAt(sourceId, bare, later, other);
    RowsGoAlone(p, w, e + [last], key);
    BlankedRow(p, sources, keywords, sourceId, raws, t, id, job);
    var row := RowAlong(p, sources, keywords, e, key).value;
    AlongSnoc(p, sources, keywords, e, last, key);
    SightNext(p, sources, keywords, sourceId, bare, later, other, same, Some(row));
    NoFieldDiffers(row, same);
    JobRowMeaning(p, keywords, Some(row), same, other, Moment(later, later), JobRow(p, keywords, Some(row), same, other, Moment(later, later)).value);
  }

  lemma NoFieldDiffers(row: JobPosting, job: JobPostingDTO)
    requires row.title == job.title && row.deadlineAt == job.deadlineAt && row.description == job.description
    ensures Changes(row, job) == map[]
  {
  }

  // ---- such listings exist --------------------------------------------------------------------

  /** ASCII text on a platform that leaves it as it is. */
  function Plain(): Platform {
    Platform(s => s, c => [c], s => s, s => Some(s), t => "", c => false, (a, b) => a == b, (term, text) => None)
  }

  function Letter(): Keyword {
    Keyword(Some(1), "a", Include, Substring, ["title"], 1, true)
  }

  function Sample(title: char, deadline: Option<Instant>): RawJob {
    RawJob("u", [title], Some("1"), None, None, None, None, None, if deadline.Some? then Some(Naive(deadline.value)) else None, map[])
  }

  predicate Ordinary(c: char) {
    !N.IsSpace(c) && !N.IsEdge(c) && N.ClosingBracket(c).None?
  }

  lemma PlainLetter(c: char, tags: bool)
    requires Ordinary(c)
    ensures N.DisplayText(Plain(), Some([c]), tags) == Some([c])
  {
    assert N.Collapse([c]) == [c] by { assert [c][1..] == ""; }
    assert N.Squeeze([c]) == [c];
    assert N.StripTags([c]) == [c];
    assert N.Trim([c], N.Edges) == [c];
    assert N.CaseFold(Plain(), [c]) == [c] by { assert [c][1..] == ""; }
  }

  lemma PlainNothing()
    ensures N.DisplayText(Plain(), None, false) == None
  {
  }

  function SampleJob(title: char, deadline: Option<Instant>): JobPostingDTO {
    JobPostingDTO(0, ExternalId("1"), N.ContentHash(Plain(), [title], deadline, None), "u", [title], None, None, None, None, None, deadline, map[])
  }

  lemma SampleNormalizes(title: char, deadline: Option<Instant>)
    requires Ordinary(title)
    ensures N.Normalize(Plain(), 0, Sample(title, deadline)) == Ok(SampleJob(title, deadline))
  {
    PlainLetter(title, true);
    PlainLetter('1', false);
    PlainNothing();
    hide N.DisplayText, N.ContentHash, N.IsSpace;
    assert N.Trim("u", N.Spaces) == "u" by { PlainUrl(); }
  }

  lemma PlainUrl()
    ensures N.Trim("u", N.Spaces) == "u"
  {
  }

  lemma SampleAccepted(title: char, deadline: Option<Instant>)
    requires Ordinary(title)
    ensures Accepted(Plain(), [Letter()], 0, [Sample(title, deadline)]) == Ok([SampleJob(title, deadline)])
  {
    hide N.Normalize, Clashes, SampleJob, Sample, Accepted;
    SampleNormalizes(title, deadline);
    ApartNeverClash(Plain(), [Letter()], [SampleJob(title, deadline)], 0);
    AcceptedIfSound(Plain(), [Letter()], 0, [Sample(title, deadline)], [SampleJob(title, deadline)]);
  }

  /** The keyword finds the one title and not the other. */
  lemma SampleHit(title: string, body: string)
    requires title in {"a", "b"}
    ensures Hit(Plain(), Letter(), Include, title, body) <==> title == "a"
    ensures !Hit(Plain(), Letter(), Exclude, title, body)
    ensures title == "a" ==> EvidenceOf(Plain(), Letter(), title, body).Some?
  {
    var p := Plain();
    assert TermAt(p, title, "a", 0) <==> title == "a";
    assert Search(p, Letter(), title).Some? <==> title == "a";
    assert EvidenceOf(p, Letter(), title, body).Some? <==> title == "a";
  }

  lemma SampleEvidence(title: string, body: string, kind: KeywordKind)
    ensures Evidences(Plain(), [Letter()], kind, title, body)
         == if Hit(Plain(), Letter(), kind, title, body) then [EvidenceOf(Plain(), Letter(), title, body).value] else []
  {
    assert [Letter()][..0] == [];
    assert Evidences(Plain(), [], kind, title, body) == [];
    hide EvidenceOf;
  }

  lemma SampleVerdict(job: JobPostingDTO)
    requires job.title in {"a", "b"}
    ensures job.title == "a" ==> Wanted(Plain(), [Letter()], job)
    ensures job.title == "b" ==> !Keeps(Plain(), [Letter()], job)
  {
    hide Hit, IsPrimaryIncludeTerm, Evidences, Plain;
    var p, body := Plain(), job.description.GetOr("");
    SampleHit(job.title, body);
    SampleEvidence(job.title, body, Include);
    SampleEvidence(job.title, body, Exclude);
    PrimaryLetter();
    assert Letter() in [Letter()] && LetterLives();
    assert Sorted([]) == [];
    if job.title == "a" {
      var found := EvidenceOf(p, Letter(), job.title, body).value;
      assert Sorted([found]) == [found] by { assert [found][..0] == []; }
      assert Judge(p, [Letter()], job).AllMatches() == [found];
    }
  }

  predicate LetterLives() {
    Live(Letter())
  }

  lemma PrimaryLetter()
    ensures IsPrimaryIncludeTerm(Plain(), "a")
  {
    assert N.Trim("a", N.Spaces) == "a";
    assert N.CaseFold(Plain(), "a") == "a" by { assert "a"[1..] == ""; }
  }

  function SampleWorld(): World {
    World(Database(map[0 := Source(true, 0, None)], map[], 0, map[], JobTables([Letter()], map[], 0, map[])), 0, [], {}, map[])
  }

  /** So the histories above are possible, for any deadline and any channel that works. */
  lemma SampleIsListing(sender: Sender, deadline: Option<Instant>)
    requires sender.reply(1).succeeded
    ensures Listing(Plain(), SampleWorld(), 0, [Sample('a', deadline)], SampleJob('a', deadline), sender)
    ensures Accepted(Plain(), [Letter()], 0, [Sample('b', deadline)]) == Ok([SampleJob('b', deadline)])
    ensures SampleJob('a', deadline).Key() == SampleJob('b', deadline).Key() && !Keeps(Plain(), [Letter()], SampleJob('b', deadline))
  {
    hide Accepted, Wanted, Keeps, Ordinary, Plain, Letter, N.ContentHash;
    LettersAreOrdinary();
    SampleAccepted('a', deadline);
    SampleAccepted('b', deadline);
    SampleVerdict(SampleJob('a', deadline));
    SampleVerdict(SampleJob('b', deadline));
  }

  lemma LettersAreOrdinary()
    ensures Ordinary('a') && Ordinary('b')
  {
    NoEdge('a');
    NoEdge('b');
    hide N.IsEdge;
  }

  lemma NoEdge(c: char)
    requires 'a' <= c <= 'b'
    ensures !N.IsEdge(c)
  {
  }
}
