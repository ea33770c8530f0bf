/**
 * Collections, retention runs, dispatches and keyword edits in any order, one after the other.
 *
 * The invariants below hold in every reachable state; the theorems read them off: three misses
 * close a posting, revisions form a hash chain, no posting row is announced twice on a channel.
 */
module History {
  import opened Prelude
  import opened Schema
  import opened Collector
  import opened CollectorTheorems
  import opened Retention
  import opened RetentionTheorems
  import opened Dispatcher
  import opened DispatcherTheorems
  import N = Normalizer

  /** Committed transactions. A collection carries the ids its jobs drew from the sequence, and when it committed. */
  datatype Event =
    | Collection(sourceId: nat, raws: seq<RawJob>, complete: bool, at: Moment, ids: seq<nat>, committed: Instant)
    | RetentionRun(now: Instant)
    | Dispatching(senders: seq<Sender>, settings: Settings, now: Instant, force: bool)
    | KeywordsEdited(keywords: seq<Keyword>, now: Instant)
  {
    function End(): Instant {
      if Collection? then committed else now
    }
  }

  /** The tables, the messages so far, the ids given out, and when each source was last collected. */
  datatype World = World(db: Database, clock: Instant, log: seq<Batch>, used: set<nat>, ended: map<nat, Instant>)

  /** Evidence goes with its keyword. */
  function KeepMatches(matches: seq<Evidence>, keywords: seq<Keyword>): seq<Evidence> {
    if matches == [] then []
    else
      var last := matches[|matches| - 1];
      KeepMatches(matches[..|matches| - 1], keywords) + if exists k <- keywords :: k.id == Some(last.keywordId) then [last] else []
  }

  /** Each piece of evidence stays as often as it was, or goes with its keyword. */
  lemma {:induction false} EvidenceGoesWithKeyword(matches: seq<Evidence>, keywords: seq<Keyword>, e: Evidence)
    ensures multiset(KeepMatches(matches, keywords))[e]
            == if exists k <- keywords :: k.id == Some(e.keywordId) then multiset(matches)[e] else 0
    decreases |matches|
  {
    if matches != [] {
      var init, last := matches[..|matches| - 1], matches[|matches| - 1];
      EvidenceGoesWithKeyword(init, keywords, e);
      assert matches == init + [last];
    }
  }

  function Reworded(row: JobPosting, keywords: seq<Keyword>): JobPosting {
    row.(keywordMatches := KeepMatches(row.keywordMatches, keywords))
  }

  function AfterEdit(t: JobTables, keywords: seq<Keyword>): JobTables {
    t.(keywords := keywords, postings := map key | key in t.postings :: Reworded(t.postings[key], keywords))
  }

  /** The jobs a collection applies, if it is one of a known source and its batch is accepted. */
  function Applied(p: Platform, sources: map<nat, Source>, keywords: seq<Keyword>, e: Event): Option<seq<JobPostingDTO>> {
    if e.Collection? && e.sourceId in sources then
      match Accepted(p, keywords, e.sourceId, e.raws)
      case Ok(jobs) => Some(jobs)
      case Err(_) => None
    else None
  }

  function Tables(p: Platform, db: Database, e: Event): JobTables {
    match e
    case Collection(sourceId, raws, complete, at, ids, committed) => (
      match Applied(p, db.sources, db.jobs.keywords, e)
      case None => db.jobs
      case Some(jobs) => CollectJobs(p, db.jobs, sourceId, jobs, ids, complete, at).jobs
    )
    case RetentionRun(now) => RetainedJobs(db.jobs, now)
    case Dispatching(senders, settings, now, force) => DispatchBatches(db.jobs, senders, settings, now, force).tables
    case KeywordsEdited(keywords, _) => AfterEdit(db.jobs, keywords)
  }

  function Messages(t: JobTables, e: Event): seq<Batch> {
    if e.Dispatching? then DispatchBatches(t, e.senders, e.settings, e.now, e.force).batches else []
  }

  function Step(p: Platform, w: World, e: Event): World {
    World(
      w.db.(jobs := Tables(p, w.db, e)), e.End(), w.log + Messages(w.db.jobs, e),
      if e.Collection? then w.used + (set id | id in e.ids) else w.used,
      if e.Collection? then w.ended[e.sourceId := e.committed] else w.ended)
  }

  function Run(p: Platform, w: World, events: seq<Event>): World {
    if events == [] then w else Step(p, Run(p, w, events[..|events| - 1]), events[|events| - 1])
  }

  /**
   * What a database with one clock can commit next: commits are in time order, but a collection may
   * have begun before others committed. Only the collections of one source never overlap. A
   * sequence gives out no value twice, and one for every job.
   */
  ghost predicate Possible(w: World, e: Event) {
    && w.clock <= e.End()
    && (e.Collection? ==>
          && e.at.began <= e.at.now <= e.committed
          && (e.sourceId in w.ended ==> w.ended[e.sourceId] <= e.at.began)
          && |e.raws| <= |e.ids|
          && (forall i, j :: 0 <= i < j < |e.ids| ==> e.ids[i] != e.ids[j])
          && (forall id <- e.ids :: id !in w.used))
  }

  ghost predicate Schedule(p: Platform, w: World, events: seq<Event>) {
    events == [] || (Schedule(p, w, events[..|events| - 1]) && Possible(Run(p, w, events[..|events| - 1]), events[|events| - 1]))
  }

  /** An empty installation: sources and keywords are configured, nothing was collected yet. */
  ghost predicate Fresh(w: World) {
    w.db.jobs.postings == map[] && w.db.jobs.notifications == map[] && w.log == [] && w.ended == map[]
  }

  // ---- one identity at a time -----------------------------------------------------------------

  /** What an event does to the row of one identity, told from that row alone. */
  function RowNext(p: Platform, sources: map<nat, Source>, keywords: seq<Keyword>, e: Event, key: PostingKey, row: Option<JobPosting>)
    : Option<JobPosting>
  {
    match e
    case Collection(sourceId, _, complete, at, ids, _) => (
      match Applied(p, sources, keywords, e)
      case None => row
      case Some(jobs) =>
        if exists i :: 0 <= i < |jobs| && jobs[i].Key() == key then RowAfter(p, keywords, row, key, jobs, ids, at)
        else UnseenRow(row, key.sourceId == sourceId, complete, at.now)
    )
    case RetentionRun(now) => if row.Some? then RetainedRow(row.value, now) else None
    case Dispatching(_, _, _, _) => row
    case KeywordsEdited(ks, _) => if row.Some? then Some(Reworded(row.value, ks)) else None
  }

  /** Every identity's row goes its own way through every history. */
  lemma RowsStepAlone(p: Platform, db: Database, e: Event, key: PostingKey)
    ensures Lookup(Tables(p, db, e).postings, key) == RowNext(p, db.sources, db.jobs.keywords, e, key, Lookup(db.jobs.postings, key))
  {
    hide Accepted, CollectJobs, RetainedJobs, RetainedRow, RowAfter, UnseenRow, DispatchBatches, OfSource, KeepMatches;
    match e
    case Collection(sourceId, raws, complete, at, ids, _) =>
      if jobs :| Applied(p, db.sources, db.jobs.keywords, e) == Some(jobs) {
        AcceptedMeaning(p, db.jobs.keywords, sourceId, raws);
        CollectRow(p, db.jobs, sourceId, jobs, ids, complete, at, key);
      }
    case RetentionRun(now) => RetainedRows(db.jobs, now, key);
    case Dispatching(senders, settings, now, force) => DispatchFrame(db.jobs, senders, settings, now, force);
    case KeywordsEdited(_, _) =>
  }

  function KeywordsAfter(keywords: seq<Keyword>, events: seq<Event>): seq<Keyword> {
    if events == [] then keywords
    else if events[|events| - 1].KeywordsEdited? then events[|events| - 1].keywords
    else KeywordsAfter(keywords, events[..|events| - 1])
  }

  lemma {:induction false} FrameOfRun(p: Platform, w: World, events: seq<Event>)
    ensures Run(p, w, events).db.sources == w.db.sources
    ensures Run(p, w, events).db.jobs.keywords == KeywordsAfter(w.db.jobs.keywords, events)
    decreases |events|
  {
    hide Tables, Messages;
    if events != [] {
      FrameOfRun(p, w, events[..|events| - 1]);
      KeywordsStep(p, Run(p, w, events[..|events| - 1]).db, events[|events| - 1]);
    }
  }

  lemma KeywordsStep(p: Platform, db: Database, e: Event)
    ensures Tables(p, db, e).keywords == if e.KeywordsEdited? then e.keywords else db.jobs.keywords
  {
    hide Accepted, CollectJobs, RetainedJobs, DispatchBatches;
    match e
    case Collection(sourceId, raws, complete, at, ids, _) =>
      if jobs :| Applied(p, db.sources, db.jobs.keywords, e) == Some(jobs) {
        CollectKeepsKeywords(p, db.jobs, sourceId, jobs, ids, complete, at);
      }
    case RetentionRun(now) => FrameOfRetention(db.jobs, now);
    case Dispatching(senders, settings, now, force) => DispatchFrame(db.jobs, senders, settings, now, force);
    case KeywordsEdited(_, _) =>
  }

  // ---- what every row satisfies ---------------------------------------------------------------

  /** Every link changes the hash, links are joined end to end, and the last one leads to the row. */
  ghost predicate HashChain(revisions: seq<Revision>, contentHash: string) {
    && (forall i :: 0 <= i < |revisions| ==> revisions[i].oldContentHash != revisions[i].newContentHash)
    && (forall i :: 0 < i < |revisions| ==> revisions[i - 1].newContentHash == revisions[i].oldContentHash)
    && (revisions != [] ==> revisions[|revisions| - 1].newContentHash == contentHash)
  }

  /** Revisions in time order, none later than the last collection of the source. */
  ghost predicate Dated(revisions: seq<Revision>, ended: Option<Instant>) {
    && InTimeOrder(revisions)
    && (forall i :: 0 <= i < |revisions| ==> ended.Some? && revisions[i].detectedAt <= ended.value)
  }

  ghost predicate RowInvariant(p: Platform, row: JobPosting, clock: Instant, ended: Option<Instant>) {
    && row.consecutiveMissingRuns <= MISSING_RUNS_TO_CLOSE
    && (row.isOpen <==> row.consecutiveMissingRuns < MISSING_RUNS_TO_CLOSE)
    && (row.closedAt.Some? <==> !row.isOpen)
    && row.firstSeenAt <= clock
    && HashChain(row.revisions, row.contentHash) && Dated(row.revisions, ended)
    && (row.isOpen || HasBody(row) ==> HashIsCurrent(p, row))
  }

  lemma LaterIsFine(p: Platform, row: JobPosting, clock: Instant, ended: Option<Instant>, later: Instant, last: Option<Instant>)
    requires RowInvariant(p, row, clock, ended) && clock <= later
    requires ended.Some? ==> last.Some? && ended.value <= last.value
    ensures RowInvariant(p, row, later, last)
  {
    hide HashChain, InTimeOrder, HashIsCurrent, HasBody;
  }

  lemma SightingKeepsRow(p: Platform, keywords: seq<Keyword>, known: Option<JobPosting>, job: JobPostingDTO, id: nat, at: Moment, clock: Instant)
    requires known.Some? ==> RowInvariant(p, known.value, clock, Some(at.began))
    requires Hashed(p, job) && at.began <= clock
    ensures var row := JobRow(p, keywords, known, job, id, at);
      row.Some? ==> RowInvariant(p, row.value, clock, Some(at.began))
  {
    hide N.ContentHash, Changes, HasBody, Judge;
  }

  lemma {:induction false} BatchKeepsRow(p: Platform, keywords: seq<Keyword>, known: Option<JobPosting>, key: PostingKey,
                                         jobs: seq<JobPostingDTO>, ids: seq<nat>, at: Moment, clock: Instant)
    requires known.Some? ==> RowInvariant(p, known.value, clock, Some(at.began))
    requires at.began <= clock && forall i :: 0 <= i < |jobs| ==> Hashed(p, jobs[i])
    ensures var row := RowAfter(p, keywords, known, key, jobs, ids, at);
      row.Some? ==> RowInvariant(p, row.value, clock, Some(at.began))
    decreases |jobs|
  {
    hide JobRow, RowInvariant, Hashed;
    if jobs != [] {
      var n := |jobs| - 1;
      BatchKeepsRow(p, keywords, known, key, jobs[..n], ids, at, clock);
      SightingKeepsRow(p, keywords, RowAfter(p, keywords, known, key, jobs[..n], ids, at), jobs[n], IdAt(ids, n), at, clock);
    }
  }

  lemma MissKeepsRow(p: Platform, row: JobPosting, ofSource: bool, complete: bool, at: Instant, clock: Instant, ended: Option<Instant>)
    requires RowInvariant(p, row, clock, ended)
    ensures RowInvariant(p, UnseenRow(Some(row), ofSource, complete, at).value, clock, ended)
  {
    hide N.ContentHash, HashChain, Dated, HasBody;
  }

  lemma RetentionKeepsRow(p: Platform, row: JobPosting, now: Instant, clock: Instant, ended: Option<Instant>)
    requires RowInvariant(p, row, clock, ended) && RetainedRow(row, now).Some?
    ensures RowInvariant(p, RetainedRow(row, now).value, clock, ended)
  {
    SuffixKeepsChain(row.revisions, row.contentHash, now - REVISION_DAYS * DAY, ended);
    hide N.ContentHash, KeepRevisions, DeadlineExpiryCutoff, HashChain, Dated;
  }

  lemma SuffixKeepsChain(revisions: seq<Revision>, contentHash: string, before: Instant, ended: Option<Instant>)
    requires HashChain(revisions, contentHash) && Dated(revisions, ended)
    ensures HashChain(KeepRevisions(revisions, before), contentHash) && Dated(KeepRevisions(revisions, before), ended)
  {
    hide KeepRevisions;
    KeepsSuffix(revisions, before);
    var kept := KeepRevisions(revisions, before);
    var cut := |revisions| - |kept|;
    assert forall i :: 0 <= i < |kept| ==> kept[i] == revisions[cut + i];
  }

  lemma RewordingKeepsRow(p: Platform, row: JobPosting, keywords: seq<Keyword>, clock: Instant, ended: Option<Instant>)
    requires RowInvariant(p, row, clock, ended)
    ensures RowInvariant(p, Reworded(row, keywords), clock, ended)
  {
    hide N.ContentHash, HashChain, Dated, KeepMatches;
  }

  /** An identical sighting restores a body that retention blanked, without a new revision. */
  lemma BlankedBodyComesBack(p: Platform, keywords: seq<Keyword>, known: JobPosting, job: JobPostingDTO, id: nat, at: Moment, row: JobPosting)
    requires !HasBody(known) && known.contentHash == job.contentHash
    requires JobRow(p, keywords, Some(known), job, id, at) == Some(row)
    ensures row.description == job.description && row.raw == job.raw && row.isOpen && row.closedAt == None
    ensures row.revisions == known.revisions
  {
    JobRowMeaning(p, keywords, Some(known), job, id, at, row);
  }

  // ---- what the tables satisfy ----------------------------------------------------------------

  ghost predicate HasOwner(t: JobTables, postingId: nat) {
    exists key <- t.postings :: t.postings[key].id == postingId
  }

  ghost predicate NotificationInvariant(n: Notification, clock: Instant) {
    && !n.status.Sending?
    && (n.status.Pending? ==> n.attemptCount == 0)
    && (!n.status.Pending? ==> n.attemptCount >= 1)
    && (n.sentAt.Some? <==> n.status.Sent?)
    && (n.sentAt.Some? ==> n.sentAt.value <= clock)
  }

  ghost predicate UniqueIds(t: JobTables, used: set<nat>) {
    && (forall key <- t.postings :: t.postings[key].id in used)
    && (forall j <- t.postings, k <- t.postings :: t.postings[j].id == t.postings[k].id ==> j == k)
  }

  ghost predicate RowsOk(p: Platform, t: JobTables, clock: Instant, ended: map<nat, Instant>) {
    forall key <- t.postings :: RowInvariant(p, t.postings[key], clock, Lookup(ended, key.sourceId))
  }

  /** Notifications have owners and consistent states, and none was sent before its posting was seen. */
  ghost predicate NotesOk(t: JobTables, clock: Instant) {
    && (forall n <- t.notifications :: NotificationInvariant(t.notifications[n], clock) && HasOwner(t, n.postingId))
    && (forall n <- t.notifications, key <- t.postings ::
          t.postings[key].id == n.postingId && t.notifications[n].sentAt.Some?
          ==> t.postings[key].firstSeenAt <= t.notifications[n].sentAt.value)
  }

  ghost predicate TablesInvariant(p: Platform, w: World) {
    RowsOk(p, w.db.jobs, w.clock, w.ended) && UniqueIds(w.db.jobs, w.used) && NotesOk(w.db.jobs, w.clock)
  }

  /** One row's invariant is kept by every event, from that row alone. */
  lemma StepKeepsRow(p: Platform, w: World, e: Event, key: PostingKey)
    requires Possible(w, e)
    requires var row := Lookup(w.db.jobs.postings, key);
      row.Some? ==> RowInvariant(p, row.value, w.clock, Lookup(w.ended, key.sourceId))
    ensures var row, after := Lookup(Step(p, w, e).db.jobs.postings, key), Step(p, w, e);
      row.Some? ==> RowInvariant(p, row.value, after.clock, Lookup(after.ended, key.sourceId))
  {
    RowsStepAlone(p, w.db, e, key);
    hide Tables, Messages, Accepted, RowInvariant, RowAfter, UnseenRow, RetainedRow, Reworded, Hashed;
    var known, ended := Lookup(w.db.jobs.postings, key), Lookup(w.ended, key.sourceId);
    if known.Some? {
      LaterIsFine(p, known.value, w.clock, ended, e.End(), ended);
    }
    match e
    case Collection(sourceId, raws, complete, at, ids, committed) =>
      if known.Some? && key.sourceId == sourceId {
        LaterIsFine(p, known.value, w.clock, ended, committed, Some(at.began));
        LaterIsFine(p, known.value, w.clock, ended, committed, Some(committed));
      }
      if jobs :| Applied(p, w.db.sources, w.db.jobs.keywords, e) == Some(jobs) {
        CollectionKeepsRow(p, w, e, jobs, key);
      }
    case RetentionRun(now) =>
      if known.Some? && RetainedRow(known.value, now).Some? {
        RetentionKeepsRow(p, known.value, now, now, ended);
      }
    case Dispatching(_, _, _, _) =>
    case KeywordsEdited(ks, now) =>
      if known.Some? {
        RewordingKeepsRow(p, known.value, ks, now, ended);
      }
  }

  lemma CollectionKeepsRow(p: Platform, w: World, e: Event, jobs: seq<JobPostingDTO>, key: PostingKey)
    requires e.Collection? && e.at.began <= e.committed && Applied(p, w.db.sources, w.db.jobs.keywords, e) == Some(jobs)
    requires var known := Lookup(w.db.jobs.postings, key);
      known.Some? ==> if key.sourceId == e.sourceId
                      then RowInvariant(p, known.value, e.committed, Some(e.at.began)) && RowInvariant(p, known.value, e.committed, Some(e.committed))
                      else RowInvariant(p, known.value, e.committed, Lookup(w.ended, key.sourceId))
    ensures var row := RowNext(p, w.db.sources, w.db.jobs.keywords, e, key, Lookup(w.db.jobs.postings, key));
      row.Some? ==> RowInvariant(p, row.value, e.committed, Lookup(w.ended[e.sourceId := e.committed], key.sourceId))
  {
    hide RowInvariant, RowAfter, UnseenRow, Hashed, Accepted;
    var known := Lookup(w.db.jobs.postings, key);
    JobsAreHashed(p, w.db.jobs.keywords, e.sourceId, e.raws);
    if Shows(jobs, key) {
      ShownOfSource(jobs, e.sourceId, key);
      BatchKeepsRow(p, w.db.jobs.keywords, known, key, jobs, e.ids, e.at, e.committed);
      var row := RowAfter(p, w.db.jobs.keywords, known, key, jobs, e.ids, e.at);
      if row.Some? {
        LaterIsFine(p, row.value, e.committed, Some(e.at.began), e.committed, Some(e.committed));
      }
    } else {
      UnseenIsKnown(known, key.sourceId == e.sourceId, e.complete, e.at.now);
      if known.Some? {
        MissKeepsRow(p, known.value, key.sourceId == e.sourceId, e.complete, e.at.now, e.committed, Lookup(w.ended[e.sourceId := e.committed], key.sourceId));
      }
    }
  }

  lemma UnseenIsKnown(known: Option<JobPosting>, ofSource: bool, complete: bool, at: Instant)
    ensures UnseenRow(known, ofSource, complete, at).Some? <==> known.Some?
    ensures known.Some? ==> UnseenRow(known, ofSource, complete, at).value.id == known.value.id
                            && UnseenRow(known, ofSource, complete, at).value.firstSeenAt == known.value.firstSeenAt
  {
  }

  lemma ShownOfSource(jobs: seq<JobPostingDTO>, sourceId: nat, key: PostingKey)
    requires OfSource(jobs, sourceId)
    ensures Shows(jobs, key) ==> key.sourceId == sourceId
  {
  }

  lemma JobsAreHashed(p: Platform, keywords: seq<Keyword>, sourceId: nat, raws: seq<RawJob>)
    requires Accepted(p, keywords, sourceId, raws).Ok?
    ensures var jobs := Accepted(p, keywords, sourceId, raws).value;
      |jobs| == |raws| && OfSource(jobs, sourceId) && forall i :: 0 <= i < |jobs| ==> Hashed(p, jobs[i])
  {
    AcceptedMeaning(p, keywords, sourceId, raws);
    hide Accepted, Hashed, N.Normalize;
    var jobs := Accepted(p, keywords, sourceId, raws).value;
    forall i | 0 <= i < |jobs| ensures Hashed(p, jobs[i]) {
      NormalizedIsHashed(p, sourceId, raws[i], jobs[i]);
    }
  }

  lemma NormalizedIsHashed(p: Platform, sourceId: nat, raw: RawJob, job: JobPostingDTO)
    requires N.Normalize(p, sourceId, raw) == Ok(job)
    ensures Hashed(p, job)
  {
    hide N.DisplayText, N.ContentHash, N.Trim, N.Join, N.FingerprintParts;
  }

  // ---- where rows come from -------------------------------------------------------------------

  /** An event deletes an identity's posting: its filter rejects a shown job, or its deadline is two days past. */
  ghost predicate Deletes(p: Platform, sources: map<nat, Source>, keywords: seq<Keyword>, e: Event, key: PostingKey, row: JobPosting) {
    match e
    case Collection(_, _, _, _, _, _) =>
      var jobs := Applied(p, sources, keywords, e);
      jobs.Some? && Evicts(p, keywords, jobs.value, key)
    case RetentionRun(now) => row.deadlineAt.Some? && KstDate(now) >= KstDate(row.deadlineAt.value) + 2
    case _ => false
  }

  /** The ids that rows of the identity can get from an event. */
  ghost predicate DrawnIn(p: Platform, sources: map<nat, Source>, keywords: seq<Keyword>, e: Event, key: PostingKey, id: nat) {
    var jobs := Applied(p, sources, keywords, e);
    e.Collection? && jobs.Some? && DrawnFor(jobs.value, e.ids, key, id)
  }

  /** A row lives on, under its id, exactly when the event does not delete it; any other row is new. */
  lemma RowLife(p: Platform, sources: map<nat, Source>, keywords: seq<Keyword>, e: Event, key: PostingKey, known: Option<JobPosting>)
    ensures var row := RowNext(p, sources, keywords, e, key, known);
      if known.Some? && !Deletes(p, sources, keywords, e, key, known.value)
      then row.Some? && row.value.id == known.value.id && row.value.firstSeenAt == known.value.firstSeenAt
      else row.Some? ==> DrawnIn(p, sources, keywords, e, key, row.value.id) && row.value.firstSeenAt == e.at.began
  {
    hide Accepted, RowAfter, UnseenRow, KeepMatches, KeepRevisions;
    match e
    case Collection(sourceId, _, complete, at, ids, _) =>
      if jobs :| Applied(p, sources, keywords, e) == Some(jobs) {
        hide Applied;
        RowAfterLife(p, keywords, known, key, jobs, ids, at);
        UnseenIsKnown(known, key.sourceId == sourceId, complete, at.now);
        assert Evicts(p, keywords, jobs, key) ==> Shows(jobs, key);
      }
    case RetentionRun(now) =>
      if known.Some? && known.value.deadlineAt.Some? {
        DateBeforeMidnight(known.value.deadlineAt.value, KstDate(now) - 1);
      }
    case _ =>
  }

  lemma DrawnIsNew(p: Platform, w: World, e: Event, key: PostingKey, id: nat)
    requires Possible(w, e) && DrawnIn(p, w.db.sources, w.db.jobs.keywords, e, key, id)
    ensures id in e.ids && id !in w.used
    ensures forall k :: DrawnIn(p, w.db.sources, w.db.jobs.keywords, e, k, id) ==> k == key
  {
    AppliedSize(p, w.db.sources, w.db.jobs.keywords, e);
    hide Applied;
  }

  lemma AppliedSize(p: Platform, sources: map<nat, Source>, keywords: seq<Keyword>, e: Event)
    ensures Applied(p, sources, keywords, e).Some? ==> e.Collection? && |Applied(p, sources, keywords, e).value| == |e.raws|
  {
    if Applied(p, sources, keywords, e).Some? {
      AcceptedMeaning(p, keywords, e.sourceId, e.raws);
    }
    hide Accepted, OfSource, NoClash;
  }

  lemma StepKeepsIds(p: Platform, w: World, e: Event)
    requires UniqueIds(w.db.jobs, w.used) && Possible(w, e)
    ensures UniqueIds(Step(p, w, e).db.jobs, Step(p, w, e).used)
  {
    hide Tables, Messages, RowNext, Deletes, DrawnIn, Possible;
    var t, after := w.db.jobs, Step(p, w, e).db.jobs;
    forall key <- after.postings
      ensures (key in t.postings && after.postings[key].id == t.postings[key].id)
              || DrawnIn(p, w.db.sources, t.keywords, e, key, after.postings[key].id)
      ensures after.postings[key].id in Step(p, w, e).used
    {
      RowsStepAlone(p, w.db, e, key);
      RowLife(p, w.db.sources, t.keywords, e, key, Lookup(t.postings, key));
      DrawnIsUsed(p, w, e, key, after.postings[key].id);
    }
    forall j <- after.postings, k <- after.postings | after.postings[j].id == after.postings[k].id ensures j == k {
      if DrawnIn(p, w.db.sources, t.keywords, e, j, after.postings[j].id) {
        DrawnIsNew(p, w, e, j, after.postings[j].id);
      }
      if DrawnIn(p, w.db.sources, t.keywords, e, k, after.postings[k].id) {
        DrawnIsNew(p, w, e, k, after.postings[k].id);
      }
    }
  }

  lemma DrawnIsUsed(p: Platform, w: World, e: Event, key: PostingKey, id: nat)
    requires Possible(w, e)
    ensures DrawnIn(p, w.db.sources, w.db.jobs.keywords, e, key, id) ==> id in Step(p, w, e).used
    ensures w.used <= Step(p, w, e).used
  {
    hide Tables, Messages, Applied;
    if DrawnIn(p, w.db.sources, w.db.jobs.keywords, e, key, id) {
      DrawnIsNew(p, w, e, key, id);
    }
  }

  // ---- notifications --------------------------------------------------------------------------

  /** Apart from dispatches, a notification goes with its deleted posting or by age, and otherwise stays as it is. */
  ghost predicate NoteLife(p: Platform, w: World, e: Event, n: NotificationKey) {
    var t, after := w.db.jobs, Step(p, w, e).db.jobs;
    && (n in after.notifications ==>
          && n in t.notifications && after.notifications[n] == t.notifications[n]
          && forall key <- t.postings :: t.postings[key].id == n.postingId ==>
               !Deletes(p, w.db.sources, t.keywords, e, key, t.postings[key]))
    && (n in t.notifications && n !in after.notifications ==>
          || (e.RetentionRun? && t.notifications[n].sentAt.Some? && t.notifications[n].sentAt.value < e.now - NOTIFICATION_DAYS * DAY)
          || exists key <- t.postings :: t.postings[key].id == n.postingId
                                         && Deletes(p, w.db.sources, t.keywords, e, key, t.postings[key]))
  }

  lemma NotesFollowPostings(p: Platform, w: World, e: Event, n: NotificationKey)
    requires Possible(w, e) && UniqueIds(w.db.jobs, w.used) && !e.Dispatching?
    requires n in w.db.jobs.notifications ==> HasOwner(w.db.jobs, n.postingId)
    ensures NoteLife(p, w, e, n)
  {
    hide Accepted, CollectJobs, RetainedJobs, KeepMatches, HasOwner, Messages;
    match e
    case Collection(_, _, _, _, _, _) => CollectionNotes(p, w, e, n);
    case RetentionRun(now) => RetentionNotes(p, w, e, n);
    case KeywordsEdited(_, _) =>
  }

  lemma CollectionNotes(p: Platform, w: World, e: Event, n: NotificationKey)
    requires Possible(w, e) && UniqueIds(w.db.jobs, w.used) && e.Collection?
    requires n in w.db.jobs.notifications ==> HasOwner(w.db.jobs, n.postingId)
    ensures NoteLife(p, w, e, n)
  {
    hide Accepted, SightAll, AfterMisses, NewlyClosed, Evicts, Messages;
    var t := w.db.jobs;
    if jobs :| Applied(p, w.db.sources, t.keywords, e) == Some(jobs) {
      AppliedSize(p, w.db.sources, t.keywords, e);
      hide Applied;
      if n in t.notifications {
        SightAllNotes(p, t, jobs, e.ids, e.at, n);
      } else {
        SightAllAddsNoNote(p, t, jobs, e.ids, e.at, n);
      }
      MissesKeepNotes(SightAll(p, t, jobs, e.ids, e.at).tables, e.sourceId, ExternalIds(jobs), Fingerprints(jobs), e.at.now);
    }
  }

  lemma MissesKeepNotes(t: JobTables, sourceId: nat, ids: set<string>, digests: set<string>, at: Instant)
    ensures AfterMisses(t, sourceId, ids, digests, at).notifications == t.notifications
  {
  }

  lemma RetentionNotes(p: Platform, w: World, e: Event, n: NotificationKey)
    requires e.RetentionRun?
    ensures NoteLife(p, w, e, n)
  {
    hide RetainedJobs, DeadlineExpiryCutoff, Messages;
    var t := w.db.jobs;
    RetainedNotifications(t, e.now, n);
    forall key <- t.postings
      ensures DeadlineBefore(t.postings[key], DeadlineExpiryCutoff(e.now)) <==> Deletes(p, w.db.sources, t.keywords, e, key, t.postings[key])
    {
      ExpiryIsDeletion(t.postings[key], e.now);
    }
  }

  lemma ExpiryIsDeletion(row: JobPosting, now: Instant)
    ensures DeadlineBefore(row, DeadlineExpiryCutoff(now)) <==>
            row.deadlineAt.Some? && KstDate(now) >= KstDate(row.deadlineAt.value) + 2
  {
    if row.deadlineAt.Some? {
      DateBeforeMidnight(row.deadlineAt.value, KstDate(now) - 1);
    }
  }

  /** Where a row of the tables after an event stems from. */
  lemma RowStems(p: Platform, w: World, e: Event, key: PostingKey)
    requires Possible(w, e)
    ensures var t, after := w.db.jobs, Step(p, w, e).db.jobs;
      && (key in t.postings && !Deletes(p, w.db.sources, t.keywords, e, key, t.postings[key]) ==>
            key in after.postings && after.postings[key].id == t.postings[key].id
            && after.postings[key].firstSeenAt == t.postings[key].firstSeenAt)
      && (key in after.postings && (key !in t.postings || Deletes(p, w.db.sources, t.keywords, e, key, t.postings[key])) ==>
            e.Collection? && after.postings[key].id in e.ids && after.postings[key].id !in w.used)
  {
    hide Tables, Messages, RowNext, Deletes, Applied;
    RowsStepAlone(p, w.db, e, key);
    RowLife(p, w.db.sources, w.db.jobs.keywords, e, key, Lookup(w.db.jobs.postings, key));
    var after := Step(p, w, e).db.jobs;
    if key in after.postings && DrawnIn(p, w.db.sources, w.db.jobs.keywords, e, key, after.postings[key].id) {
      DrawnIsNew(p, w, e, key, after.postings[key].id);
    }
  }

  lemma StepKeepsNotes(p: Platform, w: World, e: Event)
    requires Possible(w, e) && UniqueIds(w.db.jobs, w.used) && NotesOk(w.db.jobs, w.clock) && !e.Dispatching?
    ensures NotesOk(Step(p, w, e).db.jobs, e.End())
  {
    hide Step, Deletes;
    var t, after := w.db.jobs, Step(p, w, e).db.jobs;
    forall n <- after.notifications
      ensures n in t.notifications && after.notifications[n] == t.notifications[n]
      ensures HasOwner(after, n.postingId) && n.postingId in w.used
    {
      NotesFollowPostings(p, w, e, n);
      assert HasOwner(t, n.postingId);
      var key :| key in t.postings && t.postings[key].id == n.postingId;
      RowStems(p, w, e, key);
      assert after.postings[key].id == n.postingId;
    }
    forall key <- after.postings
      ensures (key in t.postings && after.postings[key].id == t.postings[key].id && after.postings[key].firstSeenAt == t.postings[key].firstSeenAt)
              || after.postings[key].id !in w.used
    {
      RowStems(p, w, e, key);
    }
    hide HasOwner, NoteLife;
  }

  lemma DispatchKeepsNotes(p: Platform, w: World, e: Event)
    requires Possible(w, e) && NotesOk(w.db.jobs, w.clock) && e.Dispatching?
    requires forall key <- w.db.jobs.postings :: w.db.jobs.postings[key].firstSeenAt <= w.clock
    ensures NotesOk(Step(p, w, e).db.jobs, e.End())
  {
    hide DispatchBatches, HasOwner;
    var t := w.db.jobs;
    var after := DispatchBatches(t, e.senders, e.settings, e.now, e.force).tables;
    DispatchFrame(t, e.senders, e.settings, e.now, e.force);
    forall n <- after.notifications
      ensures NotificationInvariant(after.notifications[n], e.now) && HasOwner(after, n.postingId)
      ensures after.notifications[n].sentAt.Some? ==>
                after.notifications[n].sentAt == Some(e.now)
                || (n in t.notifications && after.notifications[n].sentAt == t.notifications[n].sentAt)
    {
      SameOwners(t, after, n.postingId);
      if n in t.notifications {
        DispatchRowLife(t, e.senders, e.settings, e.now, e.force, n);
      } else {
        DispatchedNewRow(t, e.senders, e.settings, e.now, e.force, n);
        OwnsIt(t, n.postingId);
      }
    }
    hide NotificationInvariant;
  }

  lemma SameOwners(t: JobTables, after: JobTables, id: nat)
    requires after.postings == t.postings
    ensures HasOwner(after, id) <==> HasOwner(t, id)
  {
  }

  lemma OwnsIt(t: JobTables, id: nat)
    requires exists key <- t.postings :: t.postings[key].id == id
    ensures HasOwner(t, id)
  {
  }

  // ---- every reachable state ------------------------------------------------------------------

  lemma StepKeepsTables(p: Platform, w: World, e: Event)
    requires TablesInvariant(p, w) && Possible(w, e)
    ensures TablesInvariant(p, Step(p, w, e))
  {
    StepKeepsIds(p, w, e);
    if e.Dispatching? {
      assert forall key <- w.db.jobs.postings :: RowInvariant(p, w.db.jobs.postings[key], w.clock, Lookup(w.ended, key.sourceId));
      DispatchKeepsNotes(p, w, e);
    } else {
      StepKeepsNotes(p, w, e);
    }
    hide RowInvariant, NotesOk, UniqueIds, Tables, Messages, Possible;
    var after := Step(p, w, e);
    forall key <- after.db.jobs.postings
      ensures RowInvariant(p, after.db.jobs.postings[key], after.clock, Lookup(after.ended, key.sourceId))
    {
      StepKeepsRow(p, w, e, key);
    }
  }

  /** In every reachable state the tables satisfy the invariant. */
  lemma {:induction false} ReachableTables(p: Platform, w: World, events: seq<Event>)
    requires TablesInvariant(p, w) && Schedule(p, w, events)
    ensures TablesInvariant(p, Run(p, w, events))
    decreases |events|
  {
    hide TablesInvariant, Step, Possible;
    if events != [] {
      ReachableTables(p, w, events[..|events| - 1]);
      StepKeepsTables(p, Run(p, w, events[..|events| - 1]), events[|events| - 1]);
    }
  }

  lemma FreshTables(p: Platform, w: World)
    requires Fresh(w)
    ensures TablesInvariant(p, w)
  {
  }

  /**
   * Revisions of every stored posting, in every reachable state, form a chain of hashes in time
   * order that ends at the row's own hash; and an open row's hash is that of the fields it stores.
   */
  lemma RevisionsFormHashChain(p: Platform, w: World, events: seq<Event>, key: PostingKey, after: World)
    requires Fresh(w) && Schedule(p, w, events) && after == Run(p, w, events) && key in after.db.jobs.postings
    ensures var row := after.db.jobs.postings[key];
      && HashChain(row.revisions, row.contentHash) && InTimeOrder(row.revisions)
      && (row.isOpen || HasBody(row) ==> HashIsCurrent(p, row))
  {
    FreshTables(p, w);
    ReachableTables(p, w, events);
    assert RowInvariant(p, after.db.jobs.postings[key], after.clock, Lookup(after.ended, key.sourceId));
    hide Run, HashChain, InTimeOrder, HashIsCurrent, HasBody;
  }
}
