/**
 * Concurrent callers leave the postings of a serial history. Collecting transactions of different
 * sources, dispatches, retention runs and administrators interleave job by job; what they leave is
 * what the committed transactions leave, run whole and one after the other in the order they
 * committed. So everything proved about histories holds for concurrent callers as well.
 */
module CrawlSerial {
  import opened Prelude
  import opened Schema
  import opened Collector
  import opened CollectorTheorems
  import opened Drafts
  import opened CrawlRunner
  import opened CrawlProtocol
  import CrawlLocks
  import N = Normalizer
  import Retention
  import RetentionTheorems
  import History
  import HistoryTheorems
  import Dispatcher
  import DispatcherTheorems

  // ---- the serial history of a log ------------------------------------------------------------

  /** What a committed entry is in a serial history; failed runs are nothing. */
  function EventsOf(e: Entry): seq<History.Event> {
    match e
    case Committed(src, _, crawl, complete, at, ids, now) => [History.Collection(src, crawl.items, complete, at, ids, now)]
    case Purged(_, now) => [History.RetentionRun(now)]
    case Dispatched(senders, settings, now, force) => [History.Dispatching(senders, settings, now, force)]
    case Reworded(keywords, now) => [History.KeywordsEdited(keywords, now)]
    case _ => []
  }

  function Events(log: seq<Entry>): seq<History.Event> {
    if log == [] then [] else Events(log[..|log| - 1]) + EventsOf(log[|log| - 1])
  }

  /** Where a history starts: the ids below the sequence's next value are taken. */
  function World(s: State): History.World {
    History.World(s.db, s.clock, [], Below(s.db.jobs.nextPostingId), map[])
  }

  function Below(n: nat): (ids: set<nat>)
    ensures forall id: nat :: id in ids <==> id < n
  {
    if n == 0 then {} else Below(n - 1) + {n - 1}
  }

  function NextWorld(p: Platform, w: History.World, events: seq<History.Event>): History.World {
    if events == [] then w else History.Step(p, w, events[0])
  }

  function NewEvents(s: State, after: State): seq<History.Event> {
    if |after.log| > |s.log| then EventsOf(after.log[|s.log|]) else []
  }

  /** The same rows; what the sequence gives next is no matter of the tables. */
  ghost predicate SameJobs(a: JobTables, b: JobTables) {
    a.keywords == b.keywords && a.postings == b.postings && a.notifications == b.notifications
  }

  // ---- the invariant --------------------------------------------------------------------------

  /** An open transaction's drafts are those of its jobs over the present committed rows. */
  ghost predicate WorkOk(p: Platform, t: JobTables, src: nat, items: seq<RawJob>, at: Moment, work: Work) {
    && |work.ids| == |work.jobs| <= |items| && (work.swept ==> |work.jobs| == |items|)
    && Accepted(p, t.keywords, src, items[..|work.jobs|]) == Ok(work.jobs) && OfSource(work.jobs, src)
    && DraftsAre(p, t, src, work.jobs, work.ids, work.swept, at, work.drafts)
  }

  /** It began after the last collection of its source was committed. */
  ghost predicate TimesOk(caller: Caller, w: History.World, clock: Instant) {
    match caller.pc
    case Opening(_, _, _, began) => began <= clock && (caller.sourceId in w.ended ==> w.ended[caller.sourceId] <= began)
    case Finishing(_, _, _, _, at, _) =>
      at.began <= at.now <= clock && (caller.sourceId in w.ended ==> w.ended[caller.sourceId] <= at.began)
    case _ => true
  }

  ghost predicate CallerOk(p: Platform, t: JobTables, caller: Caller, w: History.World, clock: Instant) {
    && TimesOk(caller, w, clock)
    && (caller.pc.Finishing? ==> WorkOk(p, t, caller.sourceId, caller.pc.crawl.items, caller.pc.at, caller.pc.work))
  }

  ghost predicate DrawnOk(ids: seq<nat>, next: nat, used: set<nat>) {
    && (forall i, j :: 0 <= i < j < |ids| ==> ids[i] != ids[j])
    && (forall id <- ids :: id < next && id !in used)
  }

  ghost predicate IdsOk(callers: map<nat, Caller>, next: nat, used: set<nat>) {
    && (forall id <- used :: id < next)
    && (forall c <- callers :: callers[c].pc.Finishing? ==> DrawnOk(callers[c].pc.work.ids, next, used))
    && (forall c <- callers, d <- callers :: c != d && callers[c].pc.Finishing? && callers[d].pc.Finishing? ==>
          forall id <- callers[c].pc.work.ids :: id !in callers[d].pc.work.ids)
  }

  ghost predicate WorldOk(p: Platform, s: State, w: History.World) {
    && SameJobs(s.db.jobs, w.db.jobs) && s.db.sources.Keys == w.db.sources.Keys
    && w.clock <= s.clock && (forall src <- w.ended :: w.ended[src] <= w.clock)
    && History.TablesInvariant(p, w)
  }

  ghost predicate SerialOk(cfg: Config, s: State, w: History.World) {
    && WorldOk(cfg.p, s, w) && IdsOk(s.callers, s.db.jobs.nextPostingId, w.used)
    && forall c <- s.callers :: CallerOk(cfg.p, s.db.jobs, s.callers[c], w, s.clock)
  }

  // ---- steps that commit nothing about postings -----------------------------------------------

  /** Nobody's transaction moved on, and the tables are as before. */
  ghost predicate Quiet(s: State, after: State) {
    && SameJobs(after.db.jobs, s.db.jobs) && s.db.jobs.nextPostingId <= after.db.jobs.nextPostingId
    && after.db.sources.Keys == s.db.sources.Keys && s.clock <= after.clock && NewEvents(s, after) == []
    && forall c <- after.callers :: after.callers[c].pc.Opening? || after.callers[c].pc.Finishing? ==>
         c in s.callers && after.callers[c] == s.callers[c]
  }

  lemma QuietIsSerial(cfg: Config, s: State, w: History.World, after: State)
    requires SerialOk(cfg, s, w) && Quiet(s, after)
    ensures SerialOk(cfg, after, w)
  {
    hide DraftsAre, Accepted, OfSource, History.TablesInvariant, EventsOf;
    forall c <- after.callers ensures CallerOk(cfg.p, after.db.jobs, after.callers[c], w, after.clock) {
      if after.callers[c].pc.Opening? || after.callers[c].pc.Finishing? {
        assert CallerOk(cfg.p, s.db.jobs, s.callers[c], w, s.clock);
        SameTablesSameDrafts(cfg.p, s.db.jobs, after.db.jobs, s.callers[c]);
      }
    }
  }

  lemma SameTablesSameDrafts(p: Platform, t: JobTables, after: JobTables, caller: Caller)
    requires SameJobs(t, after)
    ensures caller.pc.Finishing? && WorkOk(p, t, caller.sourceId, caller.pc.crawl.items, caller.pc.at, caller.pc.work) ==>
              WorkOk(p, after, caller.sourceId, caller.pc.crawl.items, caller.pc.at, caller.pc.work)
  {
    hide Accepted, OfSource, DraftOf;
  }

  /** Steps that may let a transaction move on, or commit. */
  predicate Moves(a: Action) {
    a.FinishBegin? || a.FinishRead? || a.SightJob? || a.CloseMissing? || a.FinishCommit? || a.Retain? || a.Dispatch? || a.EditKeywords?
  }

  lemma OthersAreQuiet(cfg: Config, s: State, a: Action)
    requires Enabled(cfg, s, a) && !Moves(a)
    ensures Quiet(s, Apply(cfg, s, a))
  {
    hide Apply, Enabled, Quiet;
    if a.Call? || a.Load? || a.TryLock? || a.LockFault? {
      EntryIsQuiet(cfg, s, a);
    } else if a.Close? || a.Unlock? || a.UnlockFault? || a.Crash? {
      ExitIsQuiet(cfg, s, a);
    } else if a.Reap? || a.Sever? || a.Tick? || a.Edit? {
      WorldIsQuiet(cfg, s, a);
    } else if a.FinishFault? || a.FailRead? || a.FailCommit? || a.FailFault? {
      FailureIsQuiet(cfg, s, a);
    } else {
      BeginningIsQuiet(cfg, s, a);
    }
  }

  /** One caller moves, and is not in a transaction afterwards. */
  lemma MovesQuietly(s: State, c: nat, after: State)
    requires c in after.callers && after.callers == s.callers[c := after.callers[c]]
    requires !after.callers[c].pc.Opening? && !after.callers[c].pc.Finishing?
    requires after.db.jobs == s.db.jobs && after.db.sources.Keys == s.db.sources.Keys && s.clock == after.clock
    requires after.log == s.log || (|after.log| == |s.log| + 1 && after.log == s.log + [after.log[|s.log|]] && EventsOf(after.log[|s.log|]) == [])
    ensures Quiet(s, after)
  {
  }

  lemma EntryIsQuiet(cfg: Config, s: State, a: Action)
    requires Enabled(cfg, s, a) && (a.Call? || a.Load? || a.TryLock? || a.LockFault?)
    ensures Quiet(s, Apply(cfg, s, a))
  {
    hide Quiet;
    MovesQuietly(s, a.c, Apply(cfg, s, a));
  }

  lemma ExitIsQuiet(cfg: Config, s: State, a: Action)
    requires Enabled(cfg, s, a) && (a.Close? || a.Unlock? || a.UnlockFault? || a.Crash?)
    ensures Quiet(s, Apply(cfg, s, a))
  {
    hide Quiet;
    MovesQuietly(s, a.c, Apply(cfg, s, a));
  }

  lemma WorldIsQuiet(cfg: Config, s: State, a: Action)
    requires Enabled(cfg, s, a) && (a.Reap? || a.Sever? || a.Tick? || a.Edit?)
    ensures Quiet(s, Apply(cfg, s, a))
  {
    hide Quiet;
    NobodyMoves(s, Apply(cfg, s, a));
  }

  lemma NobodyMoves(s: State, after: State)
    requires after.callers == s.callers && after.db.jobs == s.db.jobs && after.db.sources.Keys == s.db.sources.Keys && s.clock <= after.clock
    requires after.log == s.log || (|after.log| == |s.log| + 1 && after.log == s.log + [after.log[|s.log|]] && EventsOf(after.log[|s.log|]) == [])
    ensures Quiet(s, after)
  {
  }

  lemma FailureIsQuiet(cfg: Config, s: State, a: Action)
    requires Enabled(cfg, s, a) && (a.FinishFault? || a.FailRead? || a.FailCommit? || a.FailFault?)
    ensures Quiet(s, Apply(cfg, s, a))
  {
    hide Quiet;
    MovesQuietly(s, a.c, Apply(cfg, s, a));
  }

  lemma BeginningIsQuiet(cfg: Config, s: State, a: Action)
    requires Enabled(cfg, s, a) && (a.Skip? || a.SkipFault? || a.StartRead? || a.StartCommit? || a.StartFault? || a.CrawlRaises?)
    ensures Quiet(s, Apply(cfg, s, a))
  {
    hide Quiet;
    MovesQuietly(s, a.c, Apply(cfg, s, a));
  }

  // ---- a transaction moves on -----------------------------------------------------------------

  /** One caller's transaction moves on; the others and the tables stay. */
  lemma OneMoves(cfg: Config, s: State, w: History.World, c: nat, after: State)
    requires SerialOk(cfg, s, w) && c in s.callers && c in after.callers
    requires after.callers == s.callers[c := after.callers[c]] && after.clock == s.clock && SameJobs(after.db.jobs, s.db.jobs)
    requires after.db.sources.Keys == s.db.sources.Keys && s.db.jobs.nextPostingId <= after.db.jobs.nextPostingId
    requires CallerOk(cfg.p, s.db.jobs, after.callers[c], w, s.clock)
    requires after.callers[c].pc.Finishing? ==>
               && DrawnOk(after.callers[c].pc.work.ids, after.db.jobs.nextPostingId, w.used)
               && forall id <- after.callers[c].pc.work.ids :: id >= s.db.jobs.nextPostingId
                    || (s.callers[c].pc.Finishing? && id in s.callers[c].pc.work.ids)
    ensures SerialOk(cfg, after, w)
  {
    hide DraftsAre, Accepted, OfSource, History.TablesInvariant;
    forall d <- after.callers ensures CallerOk(cfg.p, after.db.jobs, after.callers[d], w, after.clock) {
      assert CallerOk(cfg.p, s.db.jobs, s.callers[d], w, s.clock);
      SameTablesSameDrafts(cfg.p, s.db.jobs, after.db.jobs, after.callers[d]);
    }
    assert forall d <- s.callers :: s.callers[d].pc.Finishing? ==> DrawnOk(s.callers[d].pc.work.ids, s.db.jobs.nextPostingId, w.used);
    hide WorkOk, TimesOk;
  }

  lemma OpeningStep(cfg: Config, s: State, w: History.World, a: Action)
    requires SerialOk(cfg, s, w) && Enabled(cfg, s, a) && (a.FinishBegin? || a.FinishRead?)
    ensures SerialOk(cfg, Apply(cfg, s, a), w) && Apply(cfg, s, a).log == s.log
  {
    hide LatestSuccessfulItems, History.TablesInvariant, IdsOk, DraftOf, DraftsAre;
    var caller := s.callers[a.c];
    assert CallerOk(cfg.p, s.db.jobs, caller, w, s.clock);
    NothingDrafted(cfg.p, s.db.jobs, caller.sourceId, Moment(s.clock, if a.FinishRead? then caller.pc.began else s.clock));
    assert a.FinishRead? ==> caller.pc.crawl.items[..0] == [];
    OneMoves(cfg, s, w, a.c, Apply(cfg, s, a));
  }

  lemma SweepStep(cfg: Config, s: State, w: History.World, a: Action)
    requires SerialOk(cfg, s, w) && Enabled(cfg, s, a) && a.CloseMissing?
    ensures SerialOk(cfg, Apply(cfg, s, a), w) && Apply(cfg, s, a).log == s.log
  {
    hide History.TablesInvariant, IsComplete, DraftOf, DraftsAre, Drafts.Swept, Accepted, OfSource;
    var caller := s.callers[a.c];
    var work := caller.pc.work;
    assert CallerOk(cfg.p, s.db.jobs, caller, w, s.clock);
    DraftsAreSwept(cfg.p, s.db.jobs, caller.sourceId, work.jobs, work.ids, caller.pc.at, work.drafts);
    OneMoves(cfg, s, w, a.c, Apply(cfg, s, a));
  }

  lemma SightStep(cfg: Config, s: State, w: History.World, a: Action)
    requires SerialOk(cfg, s, w) && Enabled(cfg, s, a) && a.SightJob?
    ensures SerialOk(cfg, Apply(cfg, s, a), w) && Apply(cfg, s, a).log == s.log
  {
    hide History.TablesInvariant, DraftOf, DraftsAre, Accepted, Clashes, WithJob, N.Normalize, OfSource;
    var caller := s.callers[a.c];
    assert CallerOk(cfg.p, s.db.jobs, caller, w, s.clock);
    assert DrawnOk(caller.pc.work.ids, s.db.jobs.nextPostingId, w.used);
    var work, items := caller.pc.work, caller.pc.crawl.items;
    var next := N.Normalize(cfg.p, caller.sourceId, items[|work.jobs|]);
    if Joined(cfg.p, s.db.jobs.keywords, work.jobs, next).Ok? {
      NextWorkOk(cfg.p, s.db.jobs, caller.sourceId, items, caller.pc.at, work, next.value, s.db.jobs.nextPostingId, w.used);
    }
    hide WorkOk, TimesOk;
    OneMoves(cfg, s, w, a.c, Apply(cfg, s, a));
  }

  lemma NextWorkOk(p: Platform, t: JobTables, src: nat, items: seq<RawJob>, at: Moment, work: Work, job: JobPostingDTO, id: nat, used: set<nat>)
    requires WorkOk(p, t, src, items, at, work) && !work.swept && |work.jobs| < |items| && id == t.nextPostingId
    requires N.Normalize(p, src, items[|work.jobs|]) == Ok(job) && Joined(p, t.keywords, work.jobs, Ok(job)).Ok?
    requires DrawnOk(work.ids, id, used) && forall u <- used :: u < id
    ensures var more := WithJob(p, t, work, job, at);
      WorkOk(p, t, src, items, at, more) && more.ids == work.ids + [id] && DrawnOk(more.ids, id + 1, used)
  {
    hide DraftsAre, Accepted, N.Normalize, Clashes, NextDraft, Keeps, Resolve;
    var n := |work.jobs|;
    AcceptedStep(p, t.keywords, src, items, n);
    NormalizedSource(p, src, items[n]);
    DraftsGrow(p, t, src, work.jobs, work.ids, at, work.drafts, job, id);
    assert OfSource(work.jobs + [job], src);
    OneMoreDrawn(work.ids, id, used);
  }

  lemma OneMoreDrawn(ids: seq<nat>, id: nat, used: set<nat>)
    requires DrawnOk(ids, id, used) && forall u <- used :: u < id
    ensures DrawnOk(ids + [id], id + 1, used)
  {
    forall i, j | 0 <= i < j < |ids| + 1 ensures (ids + [id])[i] != (ids + [id])[j] {
      assert ids[i] in ids;
    }
  }

  // ---- the sequence is no matter of the tables ------------------------------------------------

  lemma {:induction false} SightAllIgnoresSequence(p: Platform, t: JobTables, next: nat, jobs: seq<JobPostingDTO>, ids: seq<nat>, at: Moment)
    ensures SightAll(p, WithNextId(t, next), jobs, ids, at).tables == WithNextId(SightAll(p, t, jobs, ids, at).tables, next)
    decreases |jobs|
  {
    hide Sight, IsNew, IsUpdated;
    if jobs != [] {
      var n := |jobs| - 1;
      SightAllIgnoresSequence(p, t, next, jobs[..n], ids, at);
      SightIgnoresSequence(p, SightAll(p, t, jobs[..n], ids, at).tables, next, jobs[n], IdAt(ids, n), at);
    }
  }

  lemma CollectIgnoresSequence(p: Platform, t: JobTables, next: nat, src: nat, jobs: seq<JobPostingDTO>, ids: seq<nat>, complete: bool, at: Moment)
    ensures CollectJobs(p, WithNextId(t, next), src, jobs, ids, complete, at).jobs == WithNextId(CollectJobs(p, t, src, jobs, ids, complete, at).jobs, next)
  {
    hide SightAll, AfterMisses, NewlyClosed;
    SightAllIgnoresSequence(p, t, next, jobs, ids, at);
    MissesIgnoreSequence(SightAll(p, t, jobs, ids, at).tables, next, src, ExternalIds(jobs), Fingerprints(jobs), at.now);
  }

  lemma RetentionIgnoresSequence(t: JobTables, next: nat, now: Instant)
    ensures Retention.RetainedJobs(WithNextId(t, next), now) == WithNextId(Retention.RetainedJobs(t, now), next)
  {
    hide Retention.KeepRevisions, Retention.DeadlineExpiryCutoff;
  }

  lemma {:induction false} QueueingIgnoresSequence(t: JobTables, next: nat, senders: seq<Dispatcher.Sender>, since: Instant, at: Option<Instant>)
    ensures Dispatcher.QueueAll(WithNextId(t, next), senders, since, at).tables == WithNextId(Dispatcher.QueueAll(t, senders, since, at).tables, next)
    decreases |senders|
  {
    hide Dispatcher.HasMatch;
    if senders != [] {
      var n := |senders| - 1;
      QueueingIgnoresSequence(t, next, senders[..n], since, at);
      CandidatesIgnoreSequence(Dispatcher.QueueAll(t, senders[..n], since, at).tables, next, senders[n].name, since);
    }
    hide Dispatcher.Candidates;
  }

  lemma CandidatesIgnoreSequence(t: JobTables, next: nat, channel: Channel, since: Instant)
    ensures Dispatcher.Candidates(WithNextId(t, next), channel, since) == Dispatcher.Candidates(t, channel, since)
  {
    assert forall row, kind :: Dispatcher.HasMatch(WithNextId(t, next), row, kind) == Dispatcher.HasMatch(t, row, kind);
    hide Dispatcher.HasMatch;
  }

  lemma {:induction false} SendingIgnoresSequence(t: JobTables, next: nat, senders: seq<Dispatcher.Sender>, settings: Dispatcher.Settings, now: Instant)
    ensures var sent, same := Dispatcher.SendAll(t, senders, settings, now), Dispatcher.SendAll(WithNextId(t, next), senders, settings, now);
      same.tables == WithNextId(sent.tables, next) && same.batches == sent.batches
    decreases |senders|
  {
    if senders != [] {
      var n := |senders| - 1;
      SendingIgnoresSequence(t, next, senders[..n], settings, now);
      SendOneIgnoresSequence(Dispatcher.SendAll(t, senders[..n], settings, now).tables, next, senders[n], settings, now);
    }
    hide Dispatcher.SendOne, Dispatcher.BatchOf;
  }

  lemma SendOneIgnoresSequence(t: JobTables, next: nat, sender: Dispatcher.Sender, settings: Dispatcher.Settings, now: Instant)
    ensures Dispatcher.SendOne(WithNextId(t, next), sender, settings, now) == WithNextId(Dispatcher.SendOne(t, sender, settings, now), next)
    ensures Dispatcher.BatchOf(WithNextId(t, next), sender, settings, now) == Dispatcher.BatchOf(t, sender, settings, now)
  {
    assert Dispatcher.Due(WithNextId(t, next), sender.name, now) == Dispatcher.Due(t, sender.name, now);
    hide Dispatcher.Due;
  }

  lemma DispatchIgnoresSequence(t: JobTables, next: nat, senders: seq<Dispatcher.Sender>, settings: Dispatcher.Settings, now: Instant, force: bool)
    ensures var sends, same := Dispatcher.DispatchBatches(t, senders, settings, now, force),
                               Dispatcher.DispatchBatches(WithNextId(t, next), senders, settings, now, force);
      same.tables == WithNextId(sends.tables, next) && same.batches == sends.batches
  {
    hide Dispatcher.QueueAll, Dispatcher.SendAll;
    var at := Dispatcher.ScheduledAt(settings, now, force);
    QueueingIgnoresSequence(t, next, senders, Dispatcher.Since(settings, now), at);
    SendingIgnoresSequence(Dispatcher.QueueAll(t, senders, Dispatcher.Since(settings, now), at).tables, next, senders, settings, now);
  }

  // ---- commits --------------------------------------------------------------------------------

  lemma EventKeepsWorld(p: Platform, s: State, w: History.World, e: History.Event, after: State)
    requires WorldOk(p, s, w) && History.Possible(w, e) && e.End() == s.clock == after.clock
    requires SameJobs(after.db.jobs, History.Tables(p, w.db, e)) && after.db.sources.Keys == s.db.sources.Keys
    ensures WorldOk(p, after, History.Step(p, w, e))
  {
    hide History.TablesInvariant, History.Tables, History.Messages, History.Possible;
    History.StepKeepsTables(p, w, e);
  }

  /** Notifications refer to ids that were given out before this transaction drew its own. */
  lemma DrawnIdsAreUnused(p: Platform, w: History.World, jobs: seq<JobPostingDTO>, ids: seq<nat>, next: nat)
    requires History.TablesInvariant(p, w) && DrawnOk(ids, next, w.used) && |jobs| == |ids|
    ensures forall n <- w.db.jobs.notifications :: UnusedId(jobs, ids, n.postingId)
  {
    hide History.RowsOk;
    forall n <- w.db.jobs.notifications ensures UnusedId(jobs, ids, n.postingId) {
      assert History.HasOwner(w.db.jobs, n.postingId);
      HistoryTheorems.OwnerIsUsed(w.db.jobs, w.used, n.postingId);
      assert forall i: nat :: i < |jobs| ==> IdAt(ids, i) in ids;
    }
  }

  lemma CommitEvent(p: Platform, t: JobTables, w: History.World, src: nat, items: seq<RawJob>, complete: bool, at: Moment, work: Work, now: Instant, next: nat)
    requires SameJobs(t, w.db.jobs) && History.TablesInvariant(p, w) && src in w.db.sources
    requires WorkOk(p, t, src, items, at, work) && |work.jobs| == |items| && work.swept == complete && DrawnOk(work.ids, next, w.used)
    ensures SameJobs(Merged(t, work.drafts), History.Tables(p, w.db, History.Collection(src, items, complete, at, work.ids, now)))
    ensures forall key: PostingKey :: key.sourceId != src ==> Lookup(Merged(t, work.drafts).postings, key) == Lookup(t.postings, key)
  {
    hide Accepted, DraftsAre, History.TablesInvariant, CollectJobs, Merged;
    assert items[..|work.jobs|] == items;
    assert w.db.jobs == WithNextId(t, w.db.jobs.nextPostingId);
    DrawnIdsAreUnused(p, w, work.jobs, work.ids, next);
    MergedIsSerial(p, t, src, work.jobs, work.ids, complete, at, work.drafts);
    CollectIgnoresSequence(p, t, w.db.jobs.nextPostingId, src, work.jobs, work.ids, complete, at);
    CollectElsewhere(p, t, src, work.jobs, work.ids, complete, at);
  }

  lemma CollectElsewhere(p: Platform, t: JobTables, src: nat, jobs: seq<JobPostingDTO>, ids: seq<nat>, complete: bool, at: Moment)
    requires OfSource(jobs, src)
    ensures forall key: PostingKey :: key.sourceId != src ==>
              Lookup(CollectJobs(p, t, src, jobs, ids, complete, at).jobs.postings, key) == Lookup(t.postings, key)
  {
    hide CollectJobs, RowAfter;
    forall key: PostingKey | key.sourceId != src
      ensures Lookup(CollectJobs(p, t, src, jobs, ids, complete, at).jobs.postings, key) == Lookup(t.postings, key)
    {
      CollectRow(p, t, src, jobs, ids, complete, at, key);
      History.ShownOfSource(jobs, src, key);
    }
  }

  lemma CommitIsPossible(cfg: Config, s: State, w: History.World, c: nat)
    requires SerialOk(cfg, s, w) && c in s.callers && s.callers[c].pc.Finishing? && |s.callers[c].pc.work.jobs| == |s.callers[c].pc.crawl.items|
    ensures var pc := s.callers[c].pc;
      forall complete :: History.Possible(w, History.Collection(s.callers[c].sourceId, pc.crawl.items, complete, pc.at, pc.work.ids, s.clock))
  {
    hide History.TablesInvariant, DraftsAre, Accepted, OfSource;
    assert CallerOk(cfg.p, s.db.jobs, s.callers[c], w, s.clock);
    assert DrawnOk(s.callers[c].pc.work.ids, s.db.jobs.nextPostingId, w.used);
  }

  /** Everybody else's transaction, after one source's collection was committed. */
  lemma OthersKeepWork(cfg: Config, s: State, w: History.World, c: nat, after: State, next: History.World)
    requires SerialOk(cfg, s, w) && CrawlLocks.Exclusive(s.callers) && c in s.callers && s.callers[c].pc.Finishing?
    requires c in after.callers && after.callers == s.callers[c := after.callers[c]] && after.callers[c].pc.Releasing? && after.clock == s.clock
    requires after.db.jobs.keywords == s.db.jobs.keywords && after.db.jobs.nextPostingId == s.db.jobs.nextPostingId
    requires next.ended == w.ended[s.callers[c].sourceId := s.clock] && next.used == w.used + set id | id in s.callers[c].pc.work.ids
    requires forall key: PostingKey :: key.sourceId != s.callers[c].sourceId ==> Lookup(after.db.jobs.postings, key) == Lookup(s.db.jobs.postings, key)
    ensures IdsOk(after.callers, after.db.jobs.nextPostingId, next.used)
    ensures forall d <- after.callers :: CallerOk(cfg.p, after.db.jobs, after.callers[d], next, after.clock)
  {
    hide History.TablesInvariant, DraftsAre, Accepted, OfSource, WorldOk;
    forall d <- after.callers ensures CallerOk(cfg.p, after.db.jobs, after.callers[d], next, after.clock) {
      if d != c && (s.callers[d].pc.Opening? || s.callers[d].pc.Finishing?) {
        assert CallerOk(cfg.p, s.db.jobs, s.callers[d], w, s.clock);
        assert s.callers[d].sourceId != s.callers[c].sourceId;
        if s.callers[d].pc.Finishing? {
          var work := s.callers[d].pc.work;
          DraftsElsewhere(cfg.p, s.db.jobs, after.db.jobs, s.callers[d].sourceId, work.jobs, work.ids, work.swept, s.callers[d].pc.at, work.drafts);
        }
      }
    }
    DisjointDraws(s.callers, s.db.jobs.nextPostingId, w.used, c, after.callers[c].pc);
    assert IdsOk(after.callers, after.db.jobs.nextPostingId, next.used);
  }

  lemma DisjointDraws(callers: map<nat, Caller>, next: nat, used: set<nat>, c: nat, pc: Pc)
    requires IdsOk(callers, next, used) && c in callers && callers[c].pc.Finishing? && !pc.Finishing?
    ensures IdsOk(callers[c := callers[c].(pc := pc)], next, used + set id | id in callers[c].pc.work.ids)
  {
    assert DrawnOk(callers[c].pc.work.ids, next, used);
    forall d <- callers | d != c && callers[d].pc.Finishing?
      ensures DrawnOk(callers[d].pc.work.ids, next, used + set id | id in callers[c].pc.work.ids)
    {
      assert DrawnOk(callers[d].pc.work.ids, next, used);
    }
  }

  lemma CommitStep(cfg: Config, s: State, w: History.World, a: Action)
    requires SerialOk(cfg, s, w) && CrawlLocks.Exclusive(s.callers) && Enabled(cfg, s, a) && a.FinishCommit? && Apply(cfg, s, a).log != s.log
    ensures var events := NewEvents(s, Apply(cfg, s, a));
      |events| == 1 && History.Possible(w, events[0]) && SerialOk(cfg, Apply(cfg, s, a), History.Step(cfg.p, w, events[0]))
  {
    hide History.TablesInvariant, DraftsAre, Accepted, OfSource, IsComplete, Merged, IdsOk, History.Tables, History.Messages, Apply;
    var after, caller := Apply(cfg, s, a), s.callers[a.c];
    var pc, complete := caller.pc, IsComplete(cfg, caller.pc);
    var e := CommitOf(cfg, s, a.c);
    CommitState(cfg, s, a);
    assert CallerOk(cfg.p, s.db.jobs, caller, w, s.clock);
    DrawnBy(s, w, a.c);
    CommitEvent(cfg.p, s.db.jobs, w, caller.sourceId, pc.crawl.items, complete, pc.at, pc.work, s.clock, s.db.jobs.nextPostingId);
    CommitIsPossible(cfg, s, w, a.c);
    hide WorkOk, TimesOk, CallerOk, History.Possible, SerialOk, WorldOk;
    SerialParts(cfg, s, w);
    EventKeepsWorld(cfg.p, s, w, e, after);
    OthersKeepWork(cfg, s, w, a.c, after, History.Step(cfg.p, w, e));
    SerialWhole(cfg, after, History.Step(cfg.p, w, e));
  }

  function CommitOf(cfg: Config, s: State, c: nat): History.Event
    requires c in s.callers && s.callers[c].pc.Finishing?
  {
    var pc := s.callers[c].pc;
    History.Collection(s.callers[c].sourceId, pc.crawl.items, IsComplete(cfg, pc), pc.at, pc.work.ids, s.clock)
  }

  lemma CommitState(cfg: Config, s: State, a: Action)
    requires Enabled(cfg, s, a) && a.FinishCommit? && Apply(cfg, s, a).log != s.log
    ensures var after, pc := Apply(cfg, s, a), s.callers[a.c].pc;
      && a.c in after.callers && after.callers[a.c].pc.Releasing? && after.callers == s.callers[a.c := after.callers[a.c]]
      && after.clock == s.clock && after.db.sources.Keys == s.db.sources.Keys && s.callers[a.c].sourceId in s.db.sources
      && after.db.jobs == Merged(s.db.jobs, pc.work.drafts)
      && after.db.jobs.keywords == s.db.jobs.keywords && after.db.jobs.nextPostingId == s.db.jobs.nextPostingId
      && NewEvents(s, after) == [CommitOf(cfg, s, a.c)]
  {
    hide Resolve, Bereaved, IsComplete;
  }

  lemma DrawnBy(s: State, w: History.World, c: nat)
    requires IdsOk(s.callers, s.db.jobs.nextPostingId, w.used) && c in s.callers && s.callers[c].pc.Finishing?
    ensures DrawnOk(s.callers[c].pc.work.ids, s.db.jobs.nextPostingId, w.used)
  {
  }

  lemma SerialParts(cfg: Config, s: State, w: History.World)
    requires SerialOk(cfg, s, w)
    ensures WorldOk(cfg.p, s, w) && IdsOk(s.callers, s.db.jobs.nextPostingId, w.used)
  {
  }

  lemma SerialWhole(cfg: Config, s: State, w: History.World)
    requires WorldOk(cfg.p, s, w) && IdsOk(s.callers, s.db.jobs.nextPostingId, w.used)
    requires forall c <- s.callers :: CallerOk(cfg.p, s.db.jobs, s.callers[c], w, s.clock)
    ensures SerialOk(cfg, s, w)
  {
  }

  // ---- everybody else who commits -------------------------------------------------------------

  /** Tables on which every open transaction's drafts are still the right ones. */
  ghost predicate DraftsCarry(p: Platform, s: State, after: JobTables) {
    forall c <- s.callers :: Carries(p, s.db.jobs, after, s.callers[c])
  }

  ghost predicate Carries(p: Platform, t: JobTables, after: JobTables, caller: Caller) {
    caller.pc.Finishing? && WorkOk(p, t, caller.sourceId, caller.pc.crawl.items, caller.pc.at, caller.pc.work) ==>
      WorkOk(p, after, caller.sourceId, caller.pc.crawl.items, caller.pc.at, caller.pc.work)
  }

  /** An event that is no collection. */
  lemma OutsideEvent(cfg: Config, s: State, w: History.World, e: History.Event, after: State)
    requires SerialOk(cfg, s, w) && !e.Collection? && e.End() == s.clock == after.clock
    requires SameJobs(after.db.jobs, History.Tables(cfg.p, w.db, e)) && after.db.jobs.nextPostingId == s.db.jobs.nextPostingId
    requires after.db.sources.Keys == s.db.sources.Keys && after.callers == s.callers
    requires DraftsCarry(cfg.p, s, after.db.jobs)
    ensures History.Possible(w, e) && SerialOk(cfg, after, History.Step(cfg.p, w, e))
  {
    hide History.TablesInvariant, History.Tables, History.Messages, WorkOk, IdsOk;
    EventKeepsWorld(cfg.p, s, w, e, after);
    var next := History.Step(cfg.p, w, e);
    forall c <- after.callers ensures CallerOk(cfg.p, after.db.jobs, after.callers[c], next, after.clock) {
      assert CallerOk(cfg.p, s.db.jobs, s.callers[c], w, s.clock);
    }
    hide WorldOk, CallerOk;
  }

  /** Retention does to an unlocked row nothing but delete old revisions, which no draft depends on. */
  lemma RetentionCarriesDraft(p: Platform, t: JobTables, src: nat, items: seq<RawJob>, at: Moment, work: Work, now: Instant)
    requires WorkOk(p, t, src, items, at, work) && AreFree(t, work.drafts, now)
    ensures WorkOk(p, Retention.RetainedJobs(t, now), src, items, at, work)
  {
    hide Retention.RetainedJobs, Accepted, OfSource, AreFree;
    var after := Retention.RetainedJobs(t, now);
    RetentionTheorems.FrameOfRetention(t, now);
    forall key
      ensures Lookup(work.drafts, key) == DraftOf(p, t.keywords, Lookup(after.postings, key), src, key, work.jobs, work.ids, work.swept, at)
    {
      RetentionTheorems.RetainedRows(t, now, key);
      assert Lookup(work.drafts, key) == DraftOf(p, t.keywords, Lookup(t.postings, key), src, key, work.jobs, work.ids, work.swept, at);
      if key in t.postings {
        DraftOutlives(p, t, src, at, work, now, key);
      }
    }
  }

  lemma DraftOutlives(p: Platform, t: JobTables, src: nat, at: Moment, work: Work, now: Instant, key: PostingKey)
    requires key in t.postings && AreFree(t, work.drafts, now)
    requires Lookup(work.drafts, key) == DraftOf(p, t.keywords, Some(t.postings[key]), src, key, work.jobs, work.ids, work.swept, at)
    ensures Lookup(work.drafts, key)
         == DraftOf(p, t.keywords, RetentionTheorems.RetainedRow(t.postings[key], now), src, key, work.jobs, work.ids, work.swept, at)
  {
    hide DraftAfter, Retention.KeepRevisions, Retention.DeadlineExpiryCutoff;
    var row := t.postings[key];
    UnshownHasNoDraft(p, t.keywords, Some(row), key, work.jobs, work.ids, at);
    if key in work.drafts {
      var older := Retention.KeepRevisions(row.revisions, now - Retention.REVISION_DAYS * DAY);
      assert RetentionTheorems.RetainedRow(row, now) == Some(row.(revisions := older));
      DraftsIgnoreOlder(p, t.keywords, row, older, key, work.jobs, work.ids, at);
    }
    hide Shows;
  }

  lemma RetainStep(cfg: Config, s: State, w: History.World, a: Action)
    requires SerialOk(cfg, s, w) && Enabled(cfg, s, a) && a.Retain?
    ensures var events := NewEvents(s, Apply(cfg, s, a));
      |events| == 1 && History.Possible(w, events[0]) && SerialOk(cfg, Apply(cfg, s, a), History.Step(cfg.p, w, events[0]))
  {
    hide WorkOk, SerialOk, Retention.RetainedJobs, Retention.OldRuns, History.Possible, AreFree;
    var after := Apply(cfg, s, a);
    var e := History.RetentionRun(s.clock);
    assert NewEvents(s, after) == [e];
    forall c <- s.callers ensures Carries(cfg.p, s.db.jobs, after.db.jobs, s.callers[c]) {
      var pc := s.callers[c].pc;
      if pc.Finishing? && WorkOk(cfg.p, s.db.jobs, s.callers[c].sourceId, pc.crawl.items, pc.at, pc.work) {
        RetentionCarriesDraft(cfg.p, s.db.jobs, s.callers[c].sourceId, pc.crawl.items, pc.at, pc.work, s.clock);
      }
    }
    assert DraftsCarry(cfg.p, s, after.db.jobs);
    hide DraftsCarry, Carries;
    SameButSequence(cfg, s, w);
    RetentionIgnoresSequence(s.db.jobs, w.db.jobs.nextPostingId, s.clock);
    RetentionTheorems.FrameOfRetention(s.db.jobs, s.clock);
    OutsideEvent(cfg, s, w, e, after);
  }

  lemma SameButSequence(cfg: Config, s: State, w: History.World)
    requires SerialOk(cfg, s, w)
    ensures w.db.jobs == WithNextId(s.db.jobs, w.db.jobs.nextPostingId)
  {
    hide CallerOk, IdsOk, History.TablesInvariant;
  }

  lemma DispatchStep(cfg: Config, s: State, w: History.World, a: Action)
    requires SerialOk(cfg, s, w) && Enabled(cfg, s, a) && a.Dispatch?
    ensures var events := NewEvents(s, Apply(cfg, s, a));
      |events| == 1 && History.Possible(w, events[0]) && SerialOk(cfg, Apply(cfg, s, a), History.Step(cfg.p, w, events[0]))
  {
    hide WorkOk, SerialOk, Dispatcher.DispatchBatches, History.Possible;
    var after := Apply(cfg, s, a);
    var e := History.Dispatching(a.senders, a.settings, s.clock, a.force);
    assert NewEvents(s, after) == [e];
    DispatcherTheorems.DispatchFrame(s.db.jobs, a.senders, a.settings, s.clock, a.force);
    forall c <- s.callers ensures Carries(cfg.p, s.db.jobs, after.db.jobs, s.callers[c]) {
      var pc := s.callers[c].pc;
      if pc.Finishing? && WorkOk(cfg.p, s.db.jobs, s.callers[c].sourceId, pc.crawl.items, pc.at, pc.work) {
        NotesAreNoMatter(cfg.p, s.db.jobs, after.db.jobs.notifications, s.callers[c].sourceId, pc.crawl.items, pc.at, pc.work);
      }
    }
    assert DraftsCarry(cfg.p, s, after.db.jobs);
    hide DraftsCarry, Carries;
    SameButSequence(cfg, s, w);
    DispatchIgnoresSequence(s.db.jobs, w.db.jobs.nextPostingId, a.senders, a.settings, s.clock, a.force);
    OutsideEvent(cfg, s, w, e, after);
  }

  lemma NotesAreNoMatter(p: Platform, t: JobTables, notes: map<NotificationKey, Notification>, src: nat, items: seq<RawJob>, at: Moment, work: Work)
    requires WorkOk(p, t, src, items, at, work)
    ensures WorkOk(p, t.(notifications := notes), src, items, at, work)
  {
    hide Accepted, OfSource, DraftOf;
  }

  lemma EditStep(cfg: Config, s: State, w: History.World, a: Action)
    requires SerialOk(cfg, s, w) && Enabled(cfg, s, a) && a.EditKeywords?
    ensures var events := NewEvents(s, Apply(cfg, s, a));
      |events| == 1 && History.Possible(w, events[0]) && SerialOk(cfg, Apply(cfg, s, a), History.Step(cfg.p, w, events[0]))
  {
    hide WorkOk, SerialOk, History.Possible, History.KeepMatches;
    var after := Apply(cfg, s, a);
    var e := History.KeywordsEdited(a.keywords, s.clock);
    assert NewEvents(s, after) == [e];
    assert DraftsCarry(cfg.p, s, after.db.jobs);
    SameButSequence(cfg, s, w);
    OutsideEvent(cfg, s, w, e, after);
  }

  // ---- every step -----------------------------------------------------------------------------

  lemma StepIsSerial(cfg: Config, s: State, w: History.World, a: Action)
    requires SerialOk(cfg, s, w) && CrawlLocks.Exclusive(s.callers) && Enabled(cfg, s, a)
    ensures var after := Apply(cfg, s, a);
      var events := NewEvents(s, after);
      && |events| <= 1 && (events != [] ==> History.Possible(w, events[0]))
      && SerialOk(cfg, after, NextWorld(cfg.p, w, events))
  {
    hide SerialOk, Apply, Enabled, CrawlLocks.Exclusive, History.Possible, EventsOf, Quiet;
    if !Moves(a) {
      OthersAreQuiet(cfg, s, a);
      QuietStep(cfg, s, w, a);
    } else if a.FinishBegin? || a.FinishRead? {
      OpeningStep(cfg, s, w, a);
    } else if a.SightJob? {
      SightStep(cfg, s, w, a);
    } else if a.CloseMissing? {
      SweepStep(cfg, s, w, a);
    } else if a.FinishCommit? {
      if Apply(cfg, s, a).log == s.log {
        RefusedCommitIsQuiet(cfg, s, a);
        QuietStep(cfg, s, w, a);
      } else {
        CommitStep(cfg, s, w, a);
      }
    } else if a.Retain? {
      RetainStep(cfg, s, w, a);
    } else if a.Dispatch? {
      DispatchStep(cfg, s, w, a);
    } else {
      EditStep(cfg, s, w, a);
    }
  }

  lemma QuietStep(cfg: Config, s: State, w: History.World, a: Action)
    requires SerialOk(cfg, s, w) && Enabled(cfg, s, a) && Quiet(s, Apply(cfg, s, a))
    ensures SerialOk(cfg, Apply(cfg, s, a), w) && NewEvents(s, Apply(cfg, s, a)) == []
  {
    QuietIsSerial(cfg, s, w, Apply(cfg, s, a));
    hide SerialOk, Apply, Enabled, EventsOf;
  }

  lemma RefusedCommitIsQuiet(cfg: Config, s: State, a: Action)
    requires Enabled(cfg, s, a) && a.FinishCommit? && Apply(cfg, s, a).log == s.log
    ensures Quiet(s, Apply(cfg, s, a))
  {
    hide Quiet, IsComplete, Merged;
    MovesQuietly(s, a.c, Apply(cfg, s, a));
  }

  // ---- the theorems ---------------------------------------------------------------------------

  lemma EventsGrow(log: seq<Entry>, e: Entry)
    ensures Events(log + [e]) == Events(log) + EventsOf(e)
  {
    assert (log + [e])[..|log|] == log;
  }

  lemma RunAlso(p: Platform, w: History.World, events: seq<History.Event>, more: seq<History.Event>)
    requires |more| <= 1
    ensures History.Run(p, w, events + more) == NextWorld(p, History.Run(p, w, events), more)
    ensures History.Schedule(p, w, events + more) <==>
            History.Schedule(p, w, events) && (more != [] ==> History.Possible(History.Run(p, w, events), more[0]))
  {
    hide History.Step, History.Possible;
    if more == [] {
      assert events + more == events;
    } else {
      assert (events + more)[..|events + more| - 1] == events;
    }
  }

  lemma StartIsSerial(cfg: Config, s: State)
    requires Initial(s) && History.TablesInvariant(cfg.p, World(s))
    ensures SerialOk(cfg, s, World(s))
  {
    hide History.TablesInvariant;
  }

  lemma {:induction false} ReplayedLog(cfg: Config, s: State, actions: seq<Action>)
    requires Initial(s) && History.TablesInvariant(cfg.p, World(s))
    requires Exec(cfg, s, actions).Some? && Exec(cfg, s, actions).value.lost == {}
    ensures var after := Exec(cfg, s, actions).value;
      && History.Schedule(cfg.p, World(s), Events(after.log))
      && SerialOk(cfg, after, History.Run(cfg.p, World(s), Events(after.log)))
    decreases |actions|
  {
    hide Apply, Enabled, History.Step, History.Possible, SerialOk, History.TablesInvariant, World, EventsOf;
    if actions == [] {
      StartIsSerial(cfg, s);
    } else {
      var init, a := actions[..|actions| - 1], actions[|actions| - 1];
      var before, after := Exec(cfg, s, init).value, Exec(cfg, s, actions).value;
      CrawlLocks.StepLosesOnly(cfg, before, a);
      ReplayedLog(cfg, s, init);
      CrawlLocks.ExclusiveSoFar(cfg, s, init);
      var w := History.Run(cfg.p, World(s), Events(before.log));
      StepIsSerial(cfg, before, w, a);
      CrawlLocks.StepFrame(cfg, before, a);
      RunAlso(cfg.p, World(s), Events(before.log), NewEvents(before, after));
      if after.log == before.log {
        assert Events(before.log) + [] == Events(before.log);
      } else {
        EventsGrow(before.log, after.log[|before.log|]);
      }
    }
  }

  /**
   * Postings, matches, revisions and notifications after any interleaving of callers, faults,
   * crashes, dispatches, retention runs and edits are those after the committed transactions, each
   * run whole, one after the other. That order is one a single database could have produced.
   */
  lemma CommittedLogReplays(cfg: Config, s: State, after: State)
    requires Initial(s) && History.TablesInvariant(cfg.p, World(s)) && Reached(cfg, s, after) && after.lost == {}
    ensures SameJobs(after.db.jobs, History.Run(cfg.p, World(s), Events(after.log)).db.jobs)
    ensures History.Schedule(cfg.p, World(s), Events(after.log))
  {
    hide Exec, History.Run, History.Schedule, Events, Initial, World, History.TablesInvariant;
    var actions :| Exec(cfg, s, actions) == Some(after);
    ReplayedLog(cfg, s, actions);
    SerialParts(cfg, after, History.Run(cfg.p, World(s), Events(after.log)));
  }

  /** So the rule of three misses holds whatever callers do to each other. */
  lemma ThreeMissesCloseConcurrently(cfg: Config, s: State, after: State, key: PostingKey)
    requires Initial(s) && History.Fresh(World(s)) && Reached(cfg, s, after) && after.lost == {}
    requires key in after.db.jobs.postings
    ensures HistoryTheorems.CountsMisses(after.db.jobs.postings[key],
              HistoryTheorems.MissesSince(cfg.p, s.db.sources, s.db.jobs.keywords, Events(after.log), key))
  {
    History.FreshTables(cfg.p, World(s));
    hide Reached, HistoryTheorems.CountsMisses, HistoryTheorems.MissesSince, History.Run, History.Fresh, Initial, Events, History.Schedule,
         History.TablesInvariant;
    CommittedLogReplays(cfg, s, after);
    HistoryTheorems.ThreeMissesClose(cfg.p, World(s), Events(after.log), key);
  }

  /** And so do the table invariants with their hash chains, and the limits on announcements. */
  lemma HistoriesStayGood(cfg: Config, s: State, after: State, replay: History.World)
    requires Initial(s) && History.Fresh(World(s)) && Reached(cfg, s, after) && after.lost == {}
    requires replay == History.Run(cfg.p, World(s), Events(after.log))
    ensures SameJobs(after.db.jobs, replay.db.jobs) && History.TablesInvariant(cfg.p, replay)
    ensures HistoryTheorems.LooksBackAtMost90Days(Events(after.log)) ==>
              && (forall n :: DispatcherTheorems.SuccessCount(replay.log, n) <= 1)
              && forall key, channel :: HistoryTheorems.MessagesAbout(cfg.p, World(s), Events(after.log), key, channel)
                                        <= 1 + HistoryTheorems.Deletions(cfg.p, World(s), Events(after.log), key)
  {
    History.FreshTables(cfg.p, World(s));
    hide Reached, History.Run, History.Fresh, Initial, Events, History.TablesInvariant, History.Schedule, HistoryTheorems.LooksBackAtMost90Days,
         HistoryTheorems.MessagesAbout, HistoryTheorems.Deletions, World;
    CommittedLogReplays(cfg, s, after);
    History.ReachableTables(cfg.p, World(s), Events(after.log));
    if HistoryTheorems.LooksBackAtMost90Days(Events(after.log)) {
      HistoryTheorems.AtMostOneAnnouncement(cfg.p, World(s), Events(after.log));
      forall key, channel
        ensures HistoryTheorems.MessagesAbout(cfg.p, World(s), Events(after.log), key, channel)
                <= 1 + HistoryTheorems.Deletions(cfg.p, World(s), Events(after.log), key)
      {
        HistoryTheorems.AtMostOneAnnouncementPerLife(cfg.p, World(s), Events(after.log), key, channel);
      }
    }
  }
}
