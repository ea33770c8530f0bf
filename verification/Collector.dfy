/**
 * app/services/collector.py with the repository, deduplicator and change detector it drives.
 *
 * The functions say what one statement does to the tables; the classes carry the statements out
 * on a session and are verified against them.
 */
module Collector {
  import opened Prelude
  import opened Schema
  import opened KeywordMatcher
  import KeywordTheorems
  import N = Normalizer

  const MISSING_RUNS_TO_CLOSE: nat := 3
  const TRACKED_FIELDS: seq<string> := ["title", "deadline_at", "description"]

  datatype CollectError = UnknownSource | InvalidJob(reason: N.NormalizeError) | UpsertLost | ForeignKeyViolation

  datatype CollectResult = CollectResult(
    itemsFetched: nat, itemsNew: nat, itemsUpdated: nat, itemsClosed: nat, itemsMatched: nat)

  /** When a collection looks at its clock, and when its transaction began. */
  datatype Moment = Moment(now: Instant, began: Instant)

  // ---- change_detector.py ---------------------------------------------------------------------

  function RowField(row: JobPosting, field: string): FieldValue {
    if field == "title" then Text(Some(row.title))
    else if field == "deadline_at" then Time(row.deadlineAt)
    else Text(row.description)
  }

  function JobField(job: JobPostingDTO, field: string): FieldValue {
    if field == "title" then Text(Some(job.title))
    else if field == "deadline_at" then Time(job.deadlineAt)
    else Text(job.description)
  }

  /** Exactly the tracked fields whose values differ, each with its old and new value. */
  function Changes(row: JobPosting, job: JobPostingDTO): map<string, Change> {
    map f | f in TRACKED_FIELDS && RowField(row, f) != JobField(job, f) ::
      Change(RowField(row, f), JobField(job, f))
  }

  /** What a reader of the history is told: each field that differs, from the row's value to the job's. */
  ghost predicate Tells(changes: map<string, Change>, row: JobPosting, job: JobPostingDTO) {
    && (forall f <- changes :: f == "title" || f == "deadline_at" || f == "description")
    && ("title" in changes <==> row.title != job.title)
    && ("title" in changes ==> changes["title"] == Change(Text(Some(row.title)), Text(Some(job.title))))
    && ("deadline_at" in changes <==> row.deadlineAt != job.deadlineAt)
    && ("deadline_at" in changes ==> changes["deadline_at"] == Change(Time(row.deadlineAt), Time(job.deadlineAt)))
    && ("description" in changes <==> row.description != job.description)
    && ("description" in changes ==> changes["description"] == Change(Text(row.description), Text(job.description)))
  }

  lemma ChangesTell(row: JobPosting, job: JobPostingDTO)
    ensures Tells(Changes(row, job), row, job)
  {
    var title, deadline, description := "title", "deadline_at", "description";
    assert title != deadline && title != description && deadline != description by {
      assert |title| == 5 && |deadline| == 11 && |description| == 11 && deadline[2] != description[2];
    }
    assert TRACKED_FIELDS == [title, deadline, description];
    assert forall f :: f in TRACKED_FIELDS <==> f == title || f == deadline || f == description;
  }

  method ChangedFields(row: JobPosting, job: JobPostingDTO) returns (changes: map<string, Change>)
    ensures changes == Changes(row, job)
    ensures Tells(changes, row, job)
  {
    hide Tells, RowField, JobField;
    changes := map[];
    for i := 0 to |TRACKED_FIELDS|
      invariant changes == map f | f in TRACKED_FIELDS[..i] && RowField(row, f) != JobField(job, f) ::
                             Change(RowField(row, f), JobField(job, f))
    {
      var field := TRACKED_FIELDS[i];
      assert TRACKED_FIELDS[..i + 1] == TRACKED_FIELDS[..i] + [field];
      var oldValue, newValue := RowField(row, field), JobField(job, field);
      if oldValue != newValue {
        changes := changes[field := Change(oldValue, newValue)];
      }
    }
    assert TRACKED_FIELDS[..|TRACKED_FIELDS|] == TRACKED_FIELDS;
    ChangesTell(row, job);
  }

  // ---- what one statement does ----------------------------------------------------------------

  function NewRow(job: JobPostingDTO, id: nat, began: Instant): JobPosting {
    JobPosting(id, job.contentHash, job.url, job.title, job.company, job.location, job.employmentType,
               job.description, job.postedAt, job.deadlineAt, job.raw, true, 0, began, began, None, [], [])
  }

  function SeenRow(row: JobPosting, job: JobPostingDTO, seenAt: Instant): JobPosting {
    row.(contentHash := job.contentHash, url := job.url, title := job.title, company := job.company,
         location := job.location, employmentType := job.employmentType, description := job.description,
         postedAt := job.postedAt, deadlineAt := job.deadlineAt, raw := job.raw,
         isOpen := true, consecutiveMissingRuns := 0, lastSeenAt := seenAt, closedAt := None)
  }

  function RevisedRow(row: JobPosting, job: JobPostingDTO, detectedAt: Instant): JobPosting {
    if row.contentHash == job.contentHash then row
    else row.(revisions := row.revisions + [Revision(Changes(row, job), row.contentHash, job.contentHash, detectedAt)])
  }

  function MissedRow(row: JobPosting, at: Instant): JobPosting {
    var missing := row.consecutiveMissingRuns + 1;
    if missing >= MISSING_RUNS_TO_CLOSE
    then row.(consecutiveMissingRuns := missing, isOpen := false, closedAt := Some(at))
    else row.(consecutiveMissingRuns := missing)
  }

  /** Deleting a posting takes its notifications along. */
  function Without(t: JobTables, key: PostingKey): JobTables {
    if key !in t.postings then t
    else
      t.(postings := t.postings - {key},
         notifications := map n | n in t.notifications && n.postingId != t.postings[key].id :: t.notifications[n])
  }

  function Judge(p: Platform, keywords: seq<Keyword>, job: JobPostingDTO): KeywordMatchResult {
    Evaluate(p, keywords, job.title, job.description.GetOr(""))
  }

  predicate Keeps(p: Platform, keywords: seq<Keyword>, job: JobPostingDTO) {
    Judge(p, keywords, job).ShouldPersist()
  }

  /** The row a sighting leaves behind, before the filter has its say. */
  function SightedRow(row: Option<JobPosting>, job: JobPostingDTO, matches: seq<Evidence>, id: nat, at: Moment): JobPosting {
    match row
    case None => NewRow(job, id, at.began).(keywordMatches := matches)
    case Some(known) => SeenRow(RevisedRow(known, job, at.began), job, at.now).(keywordMatches := matches)
  }

  /** What becomes of one identity's row: absent if the filter rejects the job, otherwise the sighted row. */
  function JobRow(p: Platform, keywords: seq<Keyword>, known: Option<JobPosting>, job: JobPostingDTO, id: nat, at: Moment): Option<JobPosting> {
    if Keeps(p, keywords, job) then Some(SightedRow(known, job, Judge(p, keywords, job).AllMatches(), id, at)) else None
  }

  predicate IsNew(p: Platform, t: JobTables, job: JobPostingDTO) {
    job.Key() !in t.postings && Keeps(p, t.keywords, job)
  }

  predicate IsUpdated(p: Platform, t: JobTables, job: JobPostingDTO) {
    && job.Key() in t.postings
    && t.postings[job.Key()].contentHash != job.contentHash
    && Keeps(p, t.keywords, job)
  }

  // ---- the loop over a batch ------------------------------------------------------------------

  datatype Progress = Progress(tables: JobTables, itemsNew: nat, itemsUpdated: nat)

  function Sight(p: Platform, t: JobTables, job: JobPostingDTO, id: nat, at: Moment): JobTables {
    match JobRow(p, t.keywords, Lookup(t.postings, job.Key()), job, id, at)
    case None => Without(t, job.Key())
    case Some(row) => t.(postings := t.postings[job.Key() := row])
  }

  /** The sequence value drawn for the i-th job. */
  function IdAt(ids: seq<nat>, i: nat): nat {
    if i < |ids| then ids[i] else 0
  }

  /** Every job draws an id, whether it needs one or not. */
  function SightAll(p: Platform, t: JobTables, jobs: seq<JobPostingDTO>, ids: seq<nat>, at: Moment): Progress {
    if jobs == [] then Progress(t, 0, 0)
    else
      var n, job := |jobs| - 1, jobs[|jobs| - 1];
      var before := SightAll(p, t, jobs[..n], ids, at);
      Progress(Sight(p, before.tables, job, IdAt(ids, n), at),
               before.itemsNew + (if IsNew(p, before.tables, job) then 1 else 0),
               before.itemsUpdated + (if IsUpdated(p, before.tables, job) then 1 else 0))
  }

  // ---- deletions that are still pending -------------------------------------------------------

  /**
   * The ORM deletes a rejected posting at its next flush, which the next job brings only after its
   * upsert. A job of the same identity that follows at once still meets the row, and loses it.
   */
  function Doomed(p: Platform, keywords: seq<Keyword>, jobs: seq<JobPostingDTO>): Option<PostingKey> {
    if jobs == [] then None
    else
      var job := jobs[|jobs| - 1];
      if Doomed(p, keywords, jobs[..|jobs| - 1]) == Some(job.Key()) || Keeps(p, keywords, job) then None
      else Some(job.Key())
  }

  /** Such a job's evidence has no posting to refer to. */
  predicate Clashes(p: Platform, keywords: seq<Keyword>, jobs: seq<JobPostingDTO>, job: JobPostingDTO) {
    Doomed(p, keywords, jobs) == Some(job.Key()) && Judge(p, keywords, job).AllMatches() != []
  }

  // ---- the closing pass -----------------------------------------------------------------------

  function ExternalIds(jobs: seq<JobPostingDTO>): set<string> {
    set job | job in jobs && job.identity.ExternalId? :: job.identity.value
  }

  function Fingerprints(jobs: seq<JobPostingDTO>): set<string> {
    set job | job in jobs && job.identity.Fingerprint? :: job.identity.value
  }

  predicate SeenIn(identity: Identity, externalIds: set<string>, fingerprints: set<string>) {
    match identity
    case ExternalId(id) => id in externalIds
    case Fingerprint(digest) => digest in fingerprints
  }

  predicate IsMissing(t: JobTables, sourceId: nat, externalIds: set<string>, fingerprints: set<string>, key: PostingKey) {
    && key in t.postings && key.sourceId == sourceId && t.postings[key].isOpen
    && !SeenIn(key.identity, externalIds, fingerprints)
  }

  /** Every open posting of the source that the batch did not show counts one more miss. */
  function AfterMisses(t: JobTables, sourceId: nat, externalIds: set<string>, fingerprints: set<string>, at: Instant): JobTables {
    t.(postings := map key | key in t.postings ::
         if IsMissing(t, sourceId, externalIds, fingerprints, key) then MissedRow(t.postings[key], at)
         else t.postings[key])
  }

  function NewlyClosed(t: JobTables, sourceId: nat, externalIds: set<string>, fingerprints: set<string>): set<PostingKey> {
    set key | key in t.postings && IsMissing(t, sourceId, externalIds, fingerprints, key)
              && t.postings[key].consecutiveMissingRuns + 1 >= MISSING_RUNS_TO_CLOSE
  }

  // ---- a whole collection ---------------------------------------------------------------------

  datatype Collected = Collected(jobs: JobTables, result: CollectResult)

  /** The jobs of a batch, unless one cannot be normalised or clashes with a pending deletion. */
  function Accepted(p: Platform, keywords: seq<Keyword>, sourceId: nat, raws: seq<RawJob>): Result<seq<JobPostingDTO>, CollectError> {
    if raws == [] then Ok([])
    else
      match Accepted(p, keywords, sourceId, raws[..|raws| - 1])
      case Err(error) => Err(error)
      case Ok(jobs) => Joined(p, keywords, jobs, N.Normalize(p, sourceId, raws[|raws| - 1]))
  }

  function Joined(p: Platform, keywords: seq<Keyword>, jobs: seq<JobPostingDTO>, next: Result<JobPostingDTO, N.NormalizeError>)
    : Result<seq<JobPostingDTO>, CollectError>
  {
    match next
    case Err(reason) => Err(InvalidJob(reason))
    case Ok(job) => if Clashes(p, keywords, jobs, job) then Err(ForeignKeyViolation) else Ok(jobs + [job])
  }

  function CollectJobs(p: Platform, t: JobTables, sourceId: nat, jobs: seq<JobPostingDTO>, ids: seq<nat>, complete: bool, at: Moment): Collected {
    var sighted := SightAll(p, t, jobs, ids, at);
    var externalIds, fingerprints := ExternalIds(jobs), Fingerprints(jobs);
    Collected(
      if complete then AfterMisses(sighted.tables, sourceId, externalIds, fingerprints, at.now) else sighted.tables,
      CollectResult(|jobs|, sighted.itemsNew, sighted.itemsUpdated,
                    if complete then |NewlyClosed(sighted.tables, sourceId, externalIds, fingerprints)| else 0,
                    sighted.itemsNew))
  }

  /** The values a sequence gives to one session that has it for itself. */
  function Drawn(next: nat, count: nat): (ids: seq<nat>)
    ensures |ids| == count && forall i :: 0 <= i < count ==> ids[i] == next + i
  {
    if count == 0 then [] else Drawn(next, count - 1) + [next + count - 1]
  }

  function WithNextId(t: JobTables, next: nat): JobTables {
    t.(nextPostingId := next)
  }

  function CollectOutcome(p: Platform, db: Database, sourceId: nat, raws: seq<RawJob>, complete: bool, at: Moment): Result<Collected, CollectError> {
    if sourceId !in db.sources then Err(UnknownSource)
    else
      match Accepted(p, db.jobs.keywords, sourceId, raws)
      case Err(error) => Err(error)
      case Ok(jobs) =>
        var next := db.jobs.nextPostingId;
        var collected := CollectJobs(p, db.jobs, sourceId, jobs, Drawn(next, |jobs|), complete, at);
        Ok(collected.(jobs := WithNextId(collected.jobs, next + |jobs|)))
  }

  // ---- the services ---------------------------------------------------------------------------

  class JobPostingRepository {
    const session: Session

    constructor (session: Session)
      ensures this.session == session
    {
      this.session := session;
    }

    /** The id sequence advances even when the row is already there. */
    method InsertIfAbsent(job: JobPostingDTO, began: Instant) returns (id: Option<nat>)
      modifies session`db
      ensures id == if job.Key() in old(session.db.jobs.postings) then None else Some(old(session.db.jobs.nextPostingId))
      ensures session.db == old(session.db).(jobs := old(session.db.jobs).(
                nextPostingId := old(session.db.jobs.nextPostingId) + 1,
                postings := if id.None? then old(session.db.jobs.postings)
                            else old(session.db.jobs.postings)[job.Key() := NewRow(job, id.value, began)]))
    {
      var t := session.db.jobs;
      id := None;
      if job.Key() !in t.postings {
        id := Some(t.nextPostingId);
        t := t.(postings := t.postings[job.Key() := NewRow(job, t.nextPostingId, began)]);
      }
      session.db := session.db.(jobs := t.(nextPostingId := t.nextPostingId + 1));
    }

    method GetByIdentity(job: JobPostingDTO) returns (row: Option<JobPosting>)
      ensures row == Lookup(session.db.jobs.postings, job.Key())
    {
      row := if job.Key() in session.db.jobs.postings then Some(session.db.jobs.postings[job.Key()]) else None;
    }

    /** An update of a row that a flush has deleted reaches nothing. */
    method Store(key: PostingKey, row: JobPosting)
      modifies session`db
      ensures session.db == old(session.db).(jobs := Updated(old(session.db.jobs), key, row))
    {
      session.db := session.db.(jobs := Updated(session.db.jobs, key, row));
    }

    /** Marks a posting; the row goes with the next flush. */
    method Delete(key: PostingKey)
      requires session.doomed.None?
      modifies session`doomed
      ensures session.doomed == if key in session.db.jobs.postings then Some(key) else None
    {
      session.doomed := if key in session.db.jobs.postings then Some(key) else None;
    }

    method Flush()
      modifies session
      ensures session.doomed == None
      ensures session.db == old(session.db).(jobs := Flushed(old(session.db.jobs), old(session.doomed)))
    {
      session.db := session.db.(jobs := Flushed(session.db.jobs, session.doomed));
      session.doomed := None;
    }

    method CloseMissing(sourceId: nat, externalIds: set<string>, fingerprints: set<string>, closedAt: Instant) returns (closed: nat)
      modifies session`db
      ensures session.db == old(session.db).(jobs := AfterMisses(old(session.db.jobs), sourceId, externalIds, fingerprints, closedAt))
      ensures closed == |NewlyClosed(old(session.db.jobs), sourceId, externalIds, fingerprints)|
    {
      var rows;
      rows, closed := CountMisses(session.db.jobs, sourceId, externalIds, fingerprints, closedAt);
      session.db := session.db.(jobs := session.db.jobs.(postings := rows));
    }
  }

  function Updated(t: JobTables, key: PostingKey, row: JobPosting): JobTables {
    if key in t.postings then t.(postings := t.postings[key := row]) else t
  }

  function Flushed(t: JobTables, doomed: Option<PostingKey>): JobTables {
    match doomed
    case None => t
    case Some(key) => Without(t, key)
  }

  /** The loop of the closing pass over the open rows of the source. */
  method CountMisses(t: JobTables, sourceId: nat, externalIds: set<string>, fingerprints: set<string>, closedAt: Instant)
    returns (rows: map<PostingKey, JobPosting>, closed: nat)
    ensures t.(postings := rows) == AfterMisses(t, sourceId, externalIds, fingerprints, closedAt)
    ensures closed == |NewlyClosed(t, sourceId, externalIds, fingerprints)|
  {
    hide Swept, SeenIn, IsMissing, MissedRow, NewlyClosed, AfterMisses;
    rows := t.postings;
    closed := 0;
    var todo := set key | key in rows && key.sourceId == sourceId && rows[key].isOpen;
    SweepStarts(t, sourceId, externalIds, fingerprints, closedAt, todo);
    while todo != {}
      invariant Swept(t, sourceId, externalIds, fingerprints, closedAt, todo, rows, closed)
      decreases |todo|
    {
      var key :| key in todo;
      if SeenIn(key.identity, externalIds, fingerprints) {
        SweepSkip(t, sourceId, externalIds, fingerprints, closedAt, todo, rows, closed, key);
        todo := todo - {key};
        continue;
      }
      SweepMiss(t, sourceId, externalIds, fingerprints, closedAt, todo, rows, closed, key);
      todo := todo - {key};
      if rows[key].consecutiveMissingRuns + 1 >= MISSING_RUNS_TO_CLOSE {
        closed := closed + 1;
      }
      rows := rows[key := MissedRow(rows[key], closedAt)];
    }
    SweepEnds(t, sourceId, externalIds, fingerprints, closedAt, rows, closed);
  }

  /** Between two turns of that loop: every row is done except those still to do. */
  ghost predicate Swept(t: JobTables, sourceId: nat, externalIds: set<string>, fingerprints: set<string>, at: Instant,
                        todo: set<PostingKey>, rows: map<PostingKey, JobPosting>, closed: nat)
  {
    && (forall key <- todo :: key in t.postings && key.sourceId == sourceId && t.postings[key].isOpen)
    && (forall key :: key in rows <==> key in t.postings)
    && (forall key <- t.postings :: rows[key] ==
          if key !in todo && IsMissing(t, sourceId, externalIds, fingerprints, key)
          then MissedRow(t.postings[key], at) else t.postings[key])
    && closed == |NewlyClosed(t, sourceId, externalIds, fingerprints) - todo|
  }

  lemma SweepStarts(t: JobTables, sourceId: nat, externalIds: set<string>, fingerprints: set<string>, at: Instant, todo: set<PostingKey>)
    requires todo == set key | key in t.postings && key.sourceId == sourceId && t.postings[key].isOpen
    ensures Swept(t, sourceId, externalIds, fingerprints, at, todo, t.postings, 0)
  {
    hide SeenIn;
    assert NewlyClosed(t, sourceId, externalIds, fingerprints) - todo == {};
  }

  lemma SweepSkip(t: JobTables, sourceId: nat, externalIds: set<string>, fingerprints: set<string>, at: Instant,
                  todo: set<PostingKey>, rows: map<PostingKey, JobPosting>, closed: nat, key: PostingKey)
    requires Swept(t, sourceId, externalIds, fingerprints, at, todo, rows, closed) && key in todo
    requires SeenIn(key.identity, externalIds, fingerprints)
    ensures Swept(t, sourceId, externalIds, fingerprints, at, todo - {key}, rows, closed)
  {
    OneMiss(t, sourceId, externalIds, fingerprints, key);
    hide SeenIn, IsMissing, MissedRow, NewlyClosed;
    TakeOut(NewlyClosed(t, sourceId, externalIds, fingerprints), todo, key);
  }

  lemma SweepMiss(t: JobTables, sourceId: nat, externalIds: set<string>, fingerprints: set<string>, at: Instant,
                  todo: set<PostingKey>, rows: map<PostingKey, JobPosting>, closed: nat, key: PostingKey)
    requires Swept(t, sourceId, externalIds, fingerprints, at, todo, rows, closed) && key in todo
    requires !SeenIn(key.identity, externalIds, fingerprints)
    ensures key in rows
    ensures Swept(t, sourceId, externalIds, fingerprints, at, todo - {key}, rows[key := MissedRow(rows[key], at)],
                  closed + if rows[key].consecutiveMissingRuns + 1 >= MISSING_RUNS_TO_CLOSE then 1 else 0)
  {
    OneMiss(t, sourceId, externalIds, fingerprints, key);
    hide SeenIn, IsMissing, MissedRow, NewlyClosed;
    TakeOut(NewlyClosed(t, sourceId, externalIds, fingerprints), todo, key);
  }

  lemma SweepEnds(t: JobTables, sourceId: nat, externalIds: set<string>, fingerprints: set<string>, at: Instant,
                  rows: map<PostingKey, JobPosting>, closed: nat)
    requires Swept(t, sourceId, externalIds, fingerprints, at, {}, rows, closed)
    ensures AfterMisses(t, sourceId, externalIds, fingerprints, at) == t.(postings := rows)
    ensures closed == |NewlyClosed(t, sourceId, externalIds, fingerprints)|
  {
    hide IsMissing, MissedRow;
    assert AfterMisses(t, sourceId, externalIds, fingerprints, at).postings == rows;
    var all := NewlyClosed(t, sourceId, externalIds, fingerprints);
    assert all - {} == all;
  }

  class Deduplicator {
    const postings: JobPostingRepository

    constructor (postings: JobPostingRepository)
      ensures this.postings == postings
    {
      this.postings := postings;
    }

    method Upsert(job: JobPostingDTO, began: Instant) returns (r: Result<bool, CollectError>)
      modifies postings.session`db
      ensures r == Ok(job.Key() !in old(postings.session.db.jobs.postings))
      ensures var before := old(postings.session.db.jobs);
        postings.session.db == old(postings.session.db).(jobs := before.(
          nextPostingId := before.nextPostingId + 1,
          postings := if job.Key() in before.postings then before.postings
                      else before.postings[job.Key() := NewRow(job, before.nextPostingId, began)]))
    {
      var id := postings.InsertIfAbsent(job, began);
      if id.Some? {
        return Ok(true);
      }
      var row := postings.GetByIdentity(job);
      if row.None? {
        return Err(UpsertLost);
      }
      r := Ok(false);
    }
  }

  /** What the database guarantees: a notification refers to a posting, and so to a used id. */
  ghost predicate Constrained(t: JobTables) {
    forall n <- t.notifications :: n.postingId < t.nextPostingId
  }

  class CollectorService {
    const session: Session
    const postings: JobPostingRepository
    const deduplicator: Deduplicator
    const p: Platform

    ghost predicate Wired() {
      postings.session == session && deduplicator.postings == postings
    }

    constructor (session: Session, p: Platform)
      ensures Wired() && this.session == session && this.p == p
    {
      var repository := new JobPostingRepository(session);
      var dedup := new Deduplicator(repository);
      this.session, this.p, this.postings, this.deduplicator := session, p, repository, dedup;
    }

    /**
     * Replaces the evidence of a posting by that of the active keywords. Opening the savepoint
     * flushes; if that deletes the posting, its new evidence violates the foreign key.
     */
    method MatchAndRecord(key: PostingKey, row: JobPosting) returns (r: Result<KeywordMatchResult, CollectError>)
      requires Wired()
      modifies session
      ensures session.doomed == None
      ensures var t := Flushed(old(session.db.jobs), old(session.doomed));
        var verdict := Evaluate(p, t.keywords, row.title, row.description.GetOr(""));
        && r == (if key in t.postings || verdict.AllMatches() == [] then Ok(verdict) else Err(ForeignKeyViolation))
        && session.db == old(session.db).(jobs := if r.Ok? then Updated(t, key, row.(keywordMatches := verdict.AllMatches())) else t)
    {
      hide Evaluate;
      postings.Flush();
      var verdict := EvaluateKeywords(p, session.db.jobs.keywords, row.title, row.description);
      if key !in session.db.jobs.postings && verdict.AllMatches() != [] {
        return Err(ForeignKeyViolation);
      }
      postings.Store(key, row.(keywordMatches := verdict.AllMatches()));
      r := Ok(verdict);
    }

    /** A known posting: a revision when the hash has changed, and the job's fields. */
    method Refresh(job: JobPostingDTO, at: Moment) returns (seen: JobPosting, wasChanged: bool)
      requires Wired() && job.Key() in session.db.jobs.postings
      modifies session
      ensures session.db == old(session.db).(jobs := session.db.jobs)
      ensures var t, row := old(session.db.jobs), old(session.db.jobs.postings)[job.Key()];
        && seen == SeenRow(RevisedRow(row, job, at.began), job, at.now)
        && wasChanged == (row.contentHash != job.contentHash)
        && Flushed(session.db.jobs, session.doomed) == Updated(Flushed(t, old(session.doomed)), job.Key(), seen)
    {
      hide Updated, Flushed;
      ghost var t, doomed := session.db.jobs, session.doomed;
      var key := job.Key();
      var row := session.db.jobs.postings[key];
      wasChanged := row.contentHash != job.contentHash;
      var revised := row;
      if wasChanged {
        var fields := ChangedFields(row, job);
        revised := row.(revisions := row.revisions + [Revision(fields, row.contentHash, job.contentHash, at.began)]);
        postings.Store(key, revised);
        postings.Flush();
      }
      seen := SeenRow(revised, job, at.now);
      postings.Store(key, seen);
      RewriteIs(t, doomed, key, wasChanged, revised, seen);
    }

    /**
     * One turn of the loop: sighted, matched, and marked for deletion when the filter rejects it.
     * Up to the pending deletion the tables are as the specification of a sighting says.
     */
    method CollectOne(job: JobPostingDTO, at: Moment) returns (r: Result<(bool, bool), CollectError>)
      requires Wired() && Constrained(session.db.jobs)
      requires session.doomed.Some? ==> session.doomed.value in session.db.jobs.postings && Filters(session.db.jobs.keywords)
      modifies session
      ensures session.db == old(session.db).(jobs := session.db.jobs)
      ensures old(session.db.jobs.nextPostingId) <= session.db.jobs.nextPostingId
      ensures var t := old(session.db.jobs);
        var before := Flushed(t, old(session.doomed));
        if old(session.doomed) == Some(job.Key()) && Judge(p, t.keywords, job).AllMatches() != [] then r == Err(ForeignKeyViolation)
        else r == Ok((IsNew(p, before, job), IsUpdated(p, before, job)))
             && Turned(p, t, old(session.doomed), job, at, session.db.jobs, session.doomed)
    {
      hide Updated, Flushed, Evaluate, Turned, IsNew, IsUpdated, Constrained;
      ghost var t, doomed := session.db.jobs, session.doomed;
      var key := job.Key();
      var inserted := deduplicator.Upsert(job, at.began);
      var row, wasChanged := session.db.jobs.postings[key], false;
      InsertedReaches(t, doomed, job, at);
      if !inserted.value {
        row, wasChanged := Refresh(job, at);
      }
      TurnEnds(p, t, doomed, job, at, row, Flushed(session.db.jobs, session.doomed));
      var verdict := MatchAndRecord(key, row);
      if verdict.Err? {
        return Err(verdict.error);
      }
      if !verdict.value.ShouldPersist() {
        postings.Delete(key);
        return Ok((false, false));
      }
      r := Ok((inserted.value, wasChanged));
    }

    /**
     * Applies one crawl result as a whole, or leaves every table as it was: a savepoint undoes the
     * batch when the source is unknown, a raw job is invalid or a constraint is violated. Only the
     * id sequence, which no rollback touches, may have advanced.
     */
    method Collect(sourceId: nat, rawJobs: seq<RawJob>, complete: bool, at: Moment) returns (r: Result<CollectResult, CollectError>)
      requires Wired() && session.doomed == None && Constrained(session.db.jobs)
      modifies session
      ensures session.doomed == None
      ensures match CollectOutcome(p, old(session.db), sourceId, rawJobs, complete, at)
        case Ok(collected) => r == Ok(collected.result) && session.db == old(session.db).(jobs := collected.jobs)
        case Err(error) =>
          && r == Err(error)
          && old(session.db.jobs.nextPostingId) <= session.db.jobs.nextPostingId
          && session.db == old(session.db).(jobs := WithNextId(old(session.db.jobs), session.db.jobs.nextPostingId))
    {
      hide Accepted, N.Normalize, CollectJobs, Between, Turned, IsNew, IsUpdated, ExternalIds, Fingerprints, AfterMisses, NewlyClosed, Flushed,
           Judge, Doomed;
      var savepoint := session.db;
      var itemsNew, itemsUpdated := 0, 0;
      var externalIds: set<string>, fingerprints: set<string> := {}, {};
      if sourceId !in session.db.sources {
        return Err(UnknownSource);
      }
      ghost var jobs: seq<JobPostingDTO> := [];
      ghost var t := savepoint.jobs;
      BetweenStarts(p, t, sourceId, at);
      for i := 0 to |rawJobs|
        invariant Accepted(p, t.keywords, sourceId, rawJobs[..i]) == Ok(jobs)
        invariant |jobs| == i
        invariant Between(p, t, jobs, at, session.db.jobs, session.doomed, itemsNew, itemsUpdated)
        invariant session.db == savepoint.(jobs := session.db.jobs)
        invariant savepoint.jobs.nextPostingId <= session.db.jobs.nextPostingId
        invariant externalIds == ExternalIds(jobs) && fingerprints == Fingerprints(jobs)
      {
        AcceptedStep(p, t.keywords, sourceId, rawJobs, i);
        var normalized := N.Normalize(p, sourceId, rawJobs[i]);
        if normalized.Err? {
          AcceptedStops(p, t.keywords, sourceId, rawJobs, i + 1);
          session.db, session.doomed := savepoint.(jobs := WithNextId(savepoint.jobs, session.db.jobs.nextPostingId)), None;
          return Err(InvalidJob(normalized.error));
        }
        var job := normalized.value;
        if job.identity.ExternalId? {
          externalIds := externalIds + {job.identity.value};
        } else {
          fingerprints := fingerprints + {job.identity.value};
        }
        BatchGrows(jobs, job);
        BetweenMeans(p, t, jobs, at, session.db.jobs, session.doomed, itemsNew, itemsUpdated);
        ghost var before, doomed := session.db.jobs, session.doomed;
        var counted := CollectOne(job, at);
        if counted.Err? {
          AcceptedStops(p, t.keywords, sourceId, rawJobs, i + 1);
          session.db, session.doomed := savepoint.(jobs := WithNextId(savepoint.jobs, session.db.jobs.nextPostingId)), None;
          return Err(counted.error);
        }
        BetweenStep(p, t, jobs, job, at, before, doomed, itemsNew, itemsUpdated, session.db.jobs, session.doomed);
        itemsNew := itemsNew + if counted.value.0 then 1 else 0;
        itemsUpdated := itemsUpdated + if counted.value.1 then 1 else 0;
        jobs := jobs + [job];
      }
      assert rawJobs[..|rawJobs|] == rawJobs;
      var itemsClosed := 0;
      BetweenEnds(p, t, sourceId, jobs, complete, at, session.db.jobs, session.doomed, itemsNew, itemsUpdated);
      if complete {
        itemsClosed := postings.CloseMissing(sourceId, externalIds, fingerprints, at.now);
      }
      postings.Flush();
      r := Ok(CollectResult(|rawJobs|, itemsNew, itemsUpdated, itemsClosed, itemsNew));
    }
  }

  // ---- the loop's proof -----------------------------------------------------------------------

  /** Some include keyword is active: without one nothing is ever rejected. */
  predicate Filters(keywords: seq<Keyword>) {
    exists k <- keywords :: Live(k) && k.kind.Include?
  }

  /** What one turn does to the tables and to the deletion that is pending. */
  ghost predicate Turned(p: Platform, t: JobTables, doomed: Option<PostingKey>, job: JobPostingDTO, at: Moment,
                         after: JobTables, next: Option<PostingKey>)
  {
    && Constrained(after) && after.nextPostingId == t.nextPostingId + 1
    && Flushed(after, next) == WithNextId(Sight(p, Flushed(t, doomed), job, t.nextPostingId, at), t.nextPostingId + 1)
    && next == (if doomed == Some(job.Key()) || Keeps(p, t.keywords, job) then None else Some(job.Key()))
    && (next.Some? ==> next.value in after.postings)
  }

  /** Between two turns: the specification's tables, but for one deletion that is still pending. */
  ghost predicate Between(p: Platform, t: JobTables, jobs: seq<JobPostingDTO>, at: Moment, now: JobTables, doomed: Option<PostingKey>,
                          itemsNew: nat, itemsUpdated: nat)
  {
    var sighted := SightAll(p, t, jobs, Drawn(t.nextPostingId, |jobs|), at);
    && Constrained(now) && now.keywords == t.keywords
    && now.nextPostingId == t.nextPostingId + |jobs|
    && Flushed(now, doomed) == WithNextId(sighted.tables, now.nextPostingId)
    && itemsNew == sighted.itemsNew && itemsUpdated == sighted.itemsUpdated
    && doomed == Doomed(p, t.keywords, jobs)
    && (doomed.Some? ==> doomed.value in now.postings && Shown(jobs, doomed.value))
  }

  predicate Shown(jobs: seq<JobPostingDTO>, key: PostingKey) {
    SeenIn(key.identity, ExternalIds(jobs), Fingerprints(jobs))
  }

  lemma BetweenStarts(p: Platform, t: JobTables, sourceId: nat, at: Moment)
    requires Constrained(t)
    ensures Between(p, t, [], at, t, None, 0, 0) && Accepted(p, t.keywords, sourceId, []) == Ok([])
    ensures ExternalIds([]) == {} && Fingerprints([]) == {}
  {
  }

  function AfterUpsert(t: JobTables, job: JobPostingDTO, began: Instant): JobTables {
    t.(nextPostingId := t.nextPostingId + 1,
       postings := if job.Key() in t.postings then t.postings else t.postings[job.Key() := NewRow(job, t.nextPostingId, began)])
  }

  lemma RewriteIs(t: JobTables, doomed: Option<PostingKey>, key: PostingKey, changed: bool, revised: JobPosting, seen: JobPosting)
    requires key in t.postings && revised.id == seen.id == t.postings[key].id
    ensures var written := if changed then Flushed(Updated(t, key, revised), doomed) else t;
      Flushed(Updated(written, key, seen), if changed then None else doomed) == Updated(Flushed(t, doomed), key, seen)
  {
  }

  lemma InsertedReaches(t: JobTables, doomed: Option<PostingKey>, job: JobPostingDTO, at: Moment)
    requires doomed.Some? ==> doomed.value in t.postings
    ensures var stored := AfterUpsert(t, job, at.began);
      job.Key() !in t.postings ==>
        Flushed(stored, doomed) == Updated(Flushed(stored, doomed), job.Key(), NewRow(job, t.nextPostingId, at.began))
  {
  }

  /** The rest of a turn, from the tables that its flush leaves on. */
  lemma TurnEnds(p: Platform, t: JobTables, doomed: Option<PostingKey>, job: JobPostingDTO, at: Moment, row: JobPosting, reached: JobTables)
    requires Constrained(t) && (doomed.Some? ==> doomed.value in t.postings && Filters(t.keywords))
    requires reached == Updated(Flushed(AfterUpsert(t, job, at.began), doomed), job.Key(), row)
    requires row == if job.Key() in t.postings then SeenRow(RevisedRow(t.postings[job.Key()], job, at.began), job, at.now)
                    else NewRow(job, t.nextPostingId, at.began)
    ensures reached.keywords == t.keywords && reached.nextPostingId == t.nextPostingId + 1
    ensures job.Key() in reached.postings <==> doomed != Some(job.Key())
    ensures forall matches :: Updated(reached, job.Key(), row.(keywordMatches := matches)).nextPostingId == t.nextPostingId + 1
    ensures var matches := Judge(p, t.keywords, job).AllMatches();
      var after := Updated(reached, job.Key(), row.(keywordMatches := matches));
      var next := if Keeps(p, t.keywords, job) || job.Key() !in after.postings then None else Some(job.Key());
      doomed != Some(job.Key()) || matches == [] ==>
        && Turned(p, t, doomed, job, at, after, next)
        && IsNew(p, Flushed(t, doomed), job) == (job.Key() !in t.postings && Keeps(p, t.keywords, job))
        && IsUpdated(p, Flushed(t, doomed), job) ==
             (job.Key() in t.postings && t.postings[job.Key()].contentHash != job.contentHash && Keeps(p, t.keywords, job))
  {
    hide Filters;
    EvidenceOrRejected(p, t.keywords, job);
    hide Judge, Keeps, Changes, JobRow, NewRow, SeenRow, RevisedRow, Sight, Turned;
    var key := job.Key();
    var before := Flushed(t, doomed);
    var matches := Judge(p, t.keywords, job).AllMatches();
    if doomed != Some(key) {
      assert Lookup(before.postings, key) == Lookup(t.postings, key);
      var sighted := row.(keywordMatches := matches);
      SightingStored(p, t, before, doomed, job, at, sighted, reached);
    } else if matches == [] {
      GhostSighting(p, t, before, job, at, reached);
    }
  }

  lemma SightingStored(p: Platform, t: JobTables, before: JobTables, doomed: Option<PostingKey>, job: JobPostingDTO, at: Moment,
                       sighted: JobPosting, reached: JobTables)
    requires Constrained(t) && before == Flushed(t, doomed) && doomed != Some(job.Key())
    requires doomed.Some? ==> doomed.value in t.postings
    requires reached.keywords == t.keywords && reached.notifications == before.notifications && reached.nextPostingId == t.nextPostingId + 1
    requires job.Key() in reached.postings && reached.postings - {job.Key()} == before.postings - {job.Key()}
    requires sighted == SightedRow(Lookup(before.postings, job.Key()), job, Judge(p, t.keywords, job).AllMatches(), t.nextPostingId, at)
    ensures Turned(p, t, doomed, job, at, Updated(reached, job.Key(), sighted), if Keeps(p, t.keywords, job) then None else Some(job.Key()))
  {
    hide Judge, Keeps, Changes, NewRow, SeenRow, RevisedRow;
    var key := job.Key();
    var after := Updated(reached, key, sighted);
    assert reached.postings[key := sighted] == (reached.postings - {key})[key := sighted];
    assert before.postings[key := sighted] == (before.postings - {key})[key := sighted];
    assert after == WithNextId(before.(postings := before.postings[key := sighted]), t.nextPostingId + 1);
    assert sighted.id == if key in before.postings then before.postings[key].id else t.nextPostingId by { SightedId(Lookup(before.postings, key), job, sighted.keywordMatches, t.nextPostingId, at); }
    hide SightedRow;
    assert forall n <- before.notifications :: n in t.notifications;
    assert Without(after, key) == WithNextId(Without(before, key), t.nextPostingId + 1);
  }

  lemma SightedId(known: Option<JobPosting>, job: JobPostingDTO, matches: seq<Evidence>, id: nat, at: Moment)
    ensures SightedRow(known, job, matches, id, at).id == if known.Some? then known.value.id else id
  {
    hide Changes;
  }

  /** A job that follows the rejected one of its identity: rejected too, and the row is gone. */
  lemma GhostSighting(p: Platform, t: JobTables, before: JobTables, job: JobPostingDTO, at: Moment, reached: JobTables)
    requires Constrained(t) && job.Key() in t.postings && before == Without(t, job.Key()) && !Keeps(p, t.keywords, job)
    requires reached == WithNextId(before, t.nextPostingId + 1)
    ensures Turned(p, t, Some(job.Key()), job, at, reached, None)
  {
  }

  lemma EvidenceOrRejected(p: Platform, keywords: seq<Keyword>, job: JobPostingDTO)
    ensures Filters(keywords) && Judge(p, keywords, job).AllMatches() == [] ==> !Keeps(p, keywords, job)
  {
    hide Evidences, Sorted, EvidenceOf, IsPrimaryIncludeTerm;
    KeywordTheorems.NothingSortedMeansNoHit(p, keywords, Include, job.title, job.description.GetOr(""));
  }

  lemma {:induction false} DoomedFilters(p: Platform, keywords: seq<Keyword>, jobs: seq<JobPostingDTO>)
    ensures Doomed(p, keywords, jobs).Some? ==> Filters(keywords)
    decreases |jobs|
  {
    if jobs != [] {
      RejectedFilters(p, keywords, jobs[|jobs| - 1]);
    }
  }

  lemma RejectedFilters(p: Platform, keywords: seq<Keyword>, job: JobPostingDTO)
    ensures !Keeps(p, keywords, job) ==> Filters(keywords)
  {
  }

  lemma {:induction false} SightAllReadsIds(p: Platform, t: JobTables, jobs: seq<JobPostingDTO>, ids: seq<nat>, others: seq<nat>, at: Moment)
    requires forall i :: 0 <= i < |jobs| ==> IdAt(ids, i) == IdAt(others, i)
    ensures SightAll(p, t, jobs, ids, at) == SightAll(p, t, jobs, others, at)
    decreases |jobs|
  {
    hide Sight, IsNew, IsUpdated;
    if jobs != [] {
      SightAllReadsIds(p, t, jobs[..|jobs| - 1], ids, others, at);
    }
  }

  lemma SightIgnoresSequence(p: Platform, t: JobTables, next: nat, job: JobPostingDTO, id: nat, at: Moment)
    ensures Sight(p, WithNextId(t, next), job, id, at) == WithNextId(Sight(p, t, job, id, at), next)
    ensures IsNew(p, WithNextId(t, next), job) == IsNew(p, t, job)
    ensures IsUpdated(p, WithNextId(t, next), job) == IsUpdated(p, t, job)
    ensures Sight(p, t, job, id, at).keywords == t.keywords && Sight(p, t, job, id, at).nextPostingId == t.nextPostingId
  {
    hide JobRow, Keeps;
  }

  lemma {:induction false} SightAllKeepsKeywords(p: Platform, t: JobTables, jobs: seq<JobPostingDTO>, ids: seq<nat>, at: Moment)
    ensures SightAll(p, t, jobs, ids, at).tables.keywords == t.keywords
    ensures SightAll(p, t, jobs, ids, at).tables.nextPostingId == t.nextPostingId
    decreases |jobs|
  {
    hide Sight, IsNew, IsUpdated;
    if jobs != [] {
      var n := |jobs| - 1;
      SightAllKeepsKeywords(p, t, jobs[..n], ids, at);
      SightIgnoresSequence(p, SightAll(p, t, jobs[..n], ids, at).tables, 0, jobs[n], IdAt(ids, n), at);
    }
  }

  lemma BatchGrows(jobs: seq<JobPostingDTO>, job: JobPostingDTO)
    ensures ExternalIds(jobs + [job]) == ExternalIds(jobs) + if job.identity.ExternalId? then {job.identity.value} else {}
    ensures Fingerprints(jobs + [job]) == Fingerprints(jobs) + if job.identity.Fingerprint? then {job.identity.value} else {}
    ensures Shown(jobs + [job], job.Key())
  {
  }

  lemma BetweenMeans(p: Platform, t: JobTables, jobs: seq<JobPostingDTO>, at: Moment, now: JobTables, doomed: Option<PostingKey>,
                     itemsNew: nat, itemsUpdated: nat)
    requires Between(p, t, jobs, at, now, doomed, itemsNew, itemsUpdated)
    ensures doomed.Some? ==> doomed.value in now.postings && Filters(now.keywords)
    ensures Constrained(now) && now.keywords == t.keywords && doomed == Doomed(p, t.keywords, jobs)
  {
    hide SightAll, Doomed, Filters;
    DoomedFilters(p, t.keywords, jobs);
  }

  lemma BetweenStep(p: Platform, t: JobTables, jobs: seq<JobPostingDTO>, job: JobPostingDTO, at: Moment, now: JobTables, doomed: Option<PostingKey>,
                    itemsNew: nat, itemsUpdated: nat, after: JobTables, next: Option<PostingKey>)
    requires Between(p, t, jobs, at, now, doomed, itemsNew, itemsUpdated) && Turned(p, now, doomed, job, at, after, next)
    ensures Between(p, t, jobs + [job], at, after, next,
                    itemsNew + (if IsNew(p, Flushed(now, doomed), job) then 1 else 0),
                    itemsUpdated + (if IsUpdated(p, Flushed(now, doomed), job) then 1 else 0))
  {
    hide Sight, IsNew, IsUpdated, Keeps, Without, Shown, ExternalIds, Fingerprints;
    var ids, more := Drawn(t.nextPostingId, |jobs|), Drawn(t.nextPostingId, |jobs| + 1);
    assert (jobs + [job])[..|jobs|] == jobs;
    BatchGrows(jobs, job);
    SightAllReadsIds(p, t, jobs, ids, more, at);
    var sighted := SightAll(p, t, jobs, ids, at).tables;
    SightIgnoresSequence(p, sighted, now.nextPostingId, job, now.nextPostingId, at);
    SightAllKeepsKeywords(p, t, jobs, ids, at);
    SightAllKeepsKeywords(p, t, jobs + [job], more, at);
    assert SightAll(p, t, jobs + [job], more, at).tables == Sight(p, sighted, job, now.nextPostingId, at);
    FlushKeepsKeywords(after, next);
  }

  lemma FlushKeepsKeywords(t: JobTables, doomed: Option<PostingKey>)
    ensures Flushed(t, doomed).keywords == t.keywords && Flushed(t, doomed).nextPostingId == t.nextPostingId
  {
  }

  /** The closing pass reads past the row that is still pending: the batch has shown it. */
  lemma CloseBeforeFlush(t: JobTables, doomed: Option<PostingKey>, sourceId: nat, jobs: seq<JobPostingDTO>, at: Instant)
    requires doomed.Some? ==> Shown(jobs, doomed.value)
    ensures var externalIds, fingerprints := ExternalIds(jobs), Fingerprints(jobs);
      && Flushed(AfterMisses(t, sourceId, externalIds, fingerprints, at), doomed)
         == AfterMisses(Flushed(t, doomed), sourceId, externalIds, fingerprints, at)
      && NewlyClosed(t, sourceId, externalIds, fingerprints) == NewlyClosed(Flushed(t, doomed), sourceId, externalIds, fingerprints)
  {
    hide SeenIn, ExternalIds, Fingerprints, MissedRow;
  }

  lemma BetweenEnds(p: Platform, t: JobTables, sourceId: nat, jobs: seq<JobPostingDTO>, complete: bool, at: Moment, now: JobTables,
                    doomed: Option<PostingKey>, itemsNew: nat, itemsUpdated: nat)
    requires Between(p, t, jobs, at, now, doomed, itemsNew, itemsUpdated)
    ensures var externalIds, fingerprints := ExternalIds(jobs), Fingerprints(jobs);
      var closed := if complete then AfterMisses(now, sourceId, externalIds, fingerprints, at.now) else now;
      var collected := CollectJobs(p, t, sourceId, jobs, Drawn(t.nextPostingId, |jobs|), complete, at);
      && Flushed(closed, doomed) == WithNextId(collected.jobs, t.nextPostingId + |jobs|)
      && collected.result == CollectResult(|jobs|, itemsNew, itemsUpdated,
                                           if complete then |NewlyClosed(now, sourceId, externalIds, fingerprints)| else 0, itemsNew)
  {
    hide SightAll, AfterMisses, NewlyClosed, Flushed, Shown, Doomed, ExternalIds, Fingerprints, Constrained;
    CloseBeforeFlush(now, doomed, sourceId, jobs, at.now);
    MissesIgnoreSequence(SightAll(p, t, jobs, Drawn(t.nextPostingId, |jobs|), at).tables, now.nextPostingId, sourceId,
                         ExternalIds(jobs), Fingerprints(jobs), at.now);
  }

  lemma MissesIgnoreSequence(t: JobTables, next: nat, sourceId: nat, externalIds: set<string>, fingerprints: set<string>, at: Instant)
    ensures AfterMisses(WithNextId(t, next), sourceId, externalIds, fingerprints, at)
         == WithNextId(AfterMisses(t, sourceId, externalIds, fingerprints, at), next)
    ensures NewlyClosed(WithNextId(t, next), sourceId, externalIds, fingerprints) == NewlyClosed(t, sourceId, externalIds, fingerprints)
  {
    hide SeenIn, MissedRow;
  }

  lemma {:induction false} AcceptedStep(p: Platform, keywords: seq<Keyword>, sourceId: nat, raws: seq<RawJob>, i: nat)
    requires i < |raws|
    ensures Accepted(p, keywords, sourceId, raws[..i + 1]) ==
            match Accepted(p, keywords, sourceId, raws[..i])
            case Err(error) => Err(error)
            case Ok(jobs) => Joined(p, keywords, jobs, N.Normalize(p, sourceId, raws[i]))
  {
    hide N.Normalize, Joined;
    assert raws[..i + 1][..i] == raws[..i];
  }

  lemma {:induction false} AcceptedStops(p: Platform, keywords: seq<Keyword>, sourceId: nat, raws: seq<RawJob>, n: nat)
    requires n <= |raws| && Accepted(p, keywords, sourceId, raws[..n]).Err?
    ensures Accepted(p, keywords, sourceId, raws) == Accepted(p, keywords, sourceId, raws[..n])
    decreases |raws| - n
  {
    hide N.Normalize, Joined;
    if n == |raws| {
      assert raws[..n] == raws;
    } else {
      assert raws[..n + 1][..n] == raws[..n];
      AcceptedStops(p, keywords, sourceId, raws, n + 1);
    }
  }

  lemma OneMiss(t: JobTables, sourceId: nat, externalIds: set<string>, fingerprints: set<string>, key: PostingKey)
    requires key in t.postings && key.sourceId == sourceId && t.postings[key].isOpen
    ensures IsMissing(t, sourceId, externalIds, fingerprints, key) <==> !SeenIn(key.identity, externalIds, fingerprints)
    ensures key in NewlyClosed(t, sourceId, externalIds, fingerprints) <==>
            && !SeenIn(key.identity, externalIds, fingerprints)
            && t.postings[key].consecutiveMissingRuns + 1 >= MISSING_RUNS_TO_CLOSE
  {
    hide SeenIn;
  }
}
