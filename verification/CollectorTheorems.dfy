/** What a whole collection does, identity by identity. */
module CollectorTheorems {
  import opened Prelude
  import opened Schema
  import opened KeywordMatcher
  import opened Collector
  import KT = KeywordTheorems
  import N = Normalizer
  import NT = NormalizerTheorems

  ghost predicate DistinctKeys(jobs: seq<JobPostingDTO>) {
    forall i, j :: 0 <= i < j < |jobs| ==> jobs[i].Key() != jobs[j].Key()
  }

  ghost predicate Shows(jobs: seq<JobPostingDTO>, key: PostingKey) {
    exists i :: 0 <= i < |jobs| && jobs[i].Key() == key
  }

  ghost predicate OfSource(jobs: seq<JobPostingDTO>, sourceId: nat) {
    forall i :: 0 <= i < |jobs| ==> jobs[i].sourceId == sourceId
  }

  /** The specification for an identity the batch does not show. */
  function UnseenRow(row: Option<JobPosting>, ofSource: bool, complete: bool, at: Instant): Option<JobPosting> {
    match row
    case None => None
    case Some(known) => Some(if ofSource && complete && known.isOpen then MissedRow(known, at) else known)
  }

  // ---- one sighting ---------------------------------------------------------------------------

  lemma SightRows(p: Platform, t: JobTables, job: JobPostingDTO, id: nat, at: Moment)
    ensures Lookup(Sight(p, t, job, id, at).postings, job.Key()) == JobRow(p, t.keywords, Lookup(t.postings, job.Key()), job, id, at)
    ensures forall key :: key != job.Key() ==> Lookup(Sight(p, t, job, id, at).postings, key) == Lookup(t.postings, key)
    ensures Sight(p, t, job, id, at).keywords == t.keywords
  {
    hide JobRow;
  }

  /** What the specification row says: the job's fields, reopened, with identity and history kept. */
  lemma JobRowMeaning(p: Platform, keywords: seq<Keyword>, known: Option<JobPosting>, job: JobPostingDTO, id: nat, at: Moment, row: JobPosting)
    requires JobRow(p, keywords, known, job, id, at) == Some(row)
    ensures row.contentHash == job.contentHash && row.url == job.url && row.title == job.title
    ensures row.company == job.company && row.location == job.location && row.employmentType == job.employmentType
    ensures row.description == job.description && row.postedAt == job.postedAt && row.deadlineAt == job.deadlineAt && row.raw == job.raw
    ensures row.isOpen && row.consecutiveMissingRuns == 0 && row.closedAt == None
    ensures row.keywordMatches == Judge(p, keywords, job).AllMatches()
    ensures known.None? ==> row.id == id && row.firstSeenAt == row.lastSeenAt == at.began && row.revisions == []
    ensures known.Some? ==>
              && row.id == known.value.id && row.firstSeenAt == known.value.firstSeenAt && row.lastSeenAt == at.now
              && row.revisions == known.value.revisions + NewRevisions(known.value, job, at.began)
              && (known.value.contentHash == job.contentHash ==> row.revisions == known.value.revisions)
              && (known.value.contentHash != job.contentHash ==>
                    && |row.revisions| == |known.value.revisions| + 1
                    && var last := row.revisions[|known.value.revisions|];
                       && last.oldContentHash == known.value.contentHash && last.newContentHash == job.contentHash
                       && last.detectedAt == at.began && Tells(last.changedFields, known.value, job))
  {
    hide Evaluate, Changes, Tells;
    if known.Some? {
      ChangesTell(known.value, job);
      assert known.value.revisions + [] == known.value.revisions;
    }
  }

  /**
   * A shown job's posting is stored exactly when there is no active include keyword, or one that is
   * more than a context word is found in its title or description and no active exclude keyword is.
   * The stored evidence is that of all active keywords found there, and of no other.
   */
  lemma StoredExactly(p: Platform, keywords: seq<Keyword>, known: Option<JobPosting>, job: JobPostingDTO, id: nat, at: Moment)
    ensures var body := if job.description.Some? then job.description.value else "";
      && (JobRow(p, keywords, known, job, id, at).Some? <==>
            || (forall k <- keywords :: k.isActive && k.id.Some? ==> k.kind.Exclude?)
            || (&& (exists k <- keywords :: KT.Speaks(p, k, Include, job.title, body) && KT.NamesInterest(p, k))
                && (forall k <- keywords :: !KT.Speaks(p, k, Exclude, job.title, body))))
      && (JobRow(p, keywords, known, job, id, at).Some? ==>
            var stored := JobRow(p, keywords, known, job, id, at).value.keywordMatches;
            && (forall e <- stored :: exists k <- keywords :: KT.IsEvidence(p, e, k, job.title, body))
            && (forall k <- keywords, kind :: KT.Speaks(p, k, kind, job.title, body) ==>
                  exists e <- stored :: e.kind == kind && KT.IsEvidence(p, e, k, job.title, body)))
  {
    var body := job.description.GetOr("");
    KT.KeptExactly(p, keywords, job.title, body);
    KT.EvidenceIsComplete(p, keywords, job.title, body);
    hide Evaluate, KT.Speaks, KT.IsEvidence, KT.NamesInterest, Changes;
  }

  function NewRevisions(row: JobPosting, job: JobPostingDTO, detectedAt: Instant): seq<Revision> {
    if row.contentHash == job.contentHash then []
    else [Revision(Changes(row, job), row.contentHash, job.contentHash, detectedAt)]
  }

  // ---- a batch --------------------------------------------------------------------------------

  /** One identity's row after a batch, from its row before: the jobs of that identity, one by one. */
  function RowAfter(p: Platform, keywords: seq<Keyword>, known: Option<JobPosting>, key: PostingKey, jobs: seq<JobPostingDTO>,
                    ids: seq<nat>, at: Moment): Option<JobPosting>
  {
    if jobs == [] then known
    else
      var n := |jobs| - 1;
      var row := RowAfter(p, keywords, known, key, jobs[..n], ids, at);
      if jobs[n].Key() == key then JobRow(p, keywords, row, jobs[n], IdAt(ids, n), at) else row
  }

  /** The mutating loop refines the per-identity specification, for every batch. */
  lemma {:induction false} SightAllRow(p: Platform, t: JobTables, jobs: seq<JobPostingDTO>, ids: seq<nat>, at: Moment, key: PostingKey)
    ensures Lookup(SightAll(p, t, jobs, ids, at).tables.postings, key)
         == RowAfter(p, t.keywords, Lookup(t.postings, key), key, jobs, ids, at)
    decreases |jobs|
  {
    hide Sight, IsNew, IsUpdated, JobRow;
    if jobs != [] {
      var n := |jobs| - 1;
      SightAllRow(p, t, jobs[..n], ids, at, key);
      SightAllKeepsKeywords(p, t, jobs[..n], ids, at);
      SightRows(p, SightAll(p, t, jobs[..n], ids, at).tables, jobs[n], IdAt(ids, n), at);
    }
  }

  lemma {:induction false} UnshownStays(p: Platform, keywords: seq<Keyword>, known: Option<JobPosting>, key: PostingKey,
                                        jobs: seq<JobPostingDTO>, ids: seq<nat>, at: Moment)
    requires !Shows(jobs, key)
    ensures RowAfter(p, keywords, known, key, jobs, ids, at) == known
    decreases |jobs|
  {
    hide JobRow;
    if jobs != [] {
      assert forall i :: 0 <= i < |jobs| - 1 ==> jobs[..|jobs| - 1][i] == jobs[i];
      UnshownStays(p, keywords, known, key, jobs[..|jobs| - 1], ids, at);
    }
  }

  lemma {:induction false} ShownOnce(p: Platform, keywords: seq<Keyword>, known: Option<JobPosting>, i: nat,
                                     jobs: seq<JobPostingDTO>, ids: seq<nat>, at: Moment)
    requires DistinctKeys(jobs) && i < |jobs|
    ensures RowAfter(p, keywords, known, jobs[i].Key(), jobs, ids, at) == JobRow(p, keywords, known, jobs[i], IdAt(ids, i), at)
    decreases |jobs|
  {
    hide JobRow;
    var n := |jobs| - 1;
    if i == n {
      NotShownBefore(jobs);
      UnshownStays(p, keywords, known, jobs[i].Key(), jobs[..n], ids, at);
    } else {
      assert jobs[..n][i] == jobs[i] && jobs[n].Key() != jobs[i].Key();
      ShownOnce(p, keywords, known, i, jobs[..n], ids, at);
    }
  }

  lemma SightAllFrame(p: Platform, t: JobTables, jobs: seq<JobPostingDTO>, ids: seq<nat>, at: Moment)
    ensures SightAll(p, t, jobs, ids, at).tables.keywords == t.keywords
    ensures SightAll(p, t, jobs, ids, at).tables.nextPostingId == t.nextPostingId
    ensures forall key :: !Shows(jobs, key) ==> Lookup(SightAll(p, t, jobs, ids, at).tables.postings, key) == Lookup(t.postings, key)
  {
    SightAllKeepsKeywords(p, t, jobs, ids, at);
    forall key | !Shows(jobs, key)
      ensures Lookup(SightAll(p, t, jobs, ids, at).tables.postings, key) == Lookup(t.postings, key)
    {
      SightAllRow(p, t, jobs, ids, at, key);
      UnshownStays(p, t.keywords, Lookup(t.postings, key), key, jobs, ids, at);
    }
  }

  lemma NotShownBefore(jobs: seq<JobPostingDTO>)
    requires DistinctKeys(jobs) && jobs != []
    ensures !Shows(jobs[..|jobs| - 1], jobs[|jobs| - 1].Key())
    ensures jobs[|jobs| - 1] !in jobs[..|jobs| - 1]
  {
  }

  function NewJobs(p: Platform, t: JobTables, jobs: seq<JobPostingDTO>): set<JobPostingDTO> {
    set job | job in jobs && IsNew(p, t, job)
  }

  function UpdatedJobs(p: Platform, t: JobTables, jobs: seq<JobPostingDTO>): set<JobPostingDTO> {
    set job | job in jobs && IsUpdated(p, t, job)
  }

  /** The counters count identities: those new and kept, and those known, changed and kept. */
  lemma {:induction false} SightAllCounters(p: Platform, t: JobTables, jobs: seq<JobPostingDTO>, ids: seq<nat>, at: Moment)
    requires DistinctKeys(jobs)
    ensures SightAll(p, t, jobs, ids, at).itemsNew == |NewJobs(p, t, jobs)|
    ensures SightAll(p, t, jobs, ids, at).itemsUpdated == |UpdatedJobs(p, t, jobs)|
    decreases |jobs|
  {
    hide Evaluate, Sight, IsNew, IsUpdated, JobRow;
    if jobs != [] {
      var init, job := jobs[..|jobs| - 1], jobs[|jobs| - 1];
      var before := SightAll(p, t, init, ids, at).tables;
      SightAllCounters(p, t, init, ids, at);
      SightAllFrame(p, t, init, ids, at);
      NotShownBefore(jobs);
      SameRowSameCount(p, before, t, job);
      assert jobs == init + [job];
      OneMoreJob(p, t, init, job);
    }
  }

  lemma SameRowSameCount(p: Platform, t: JobTables, other: JobTables, job: JobPostingDTO)
    requires t.keywords == other.keywords && Lookup(t.postings, job.Key()) == Lookup(other.postings, job.Key())
    ensures IsNew(p, t, job) == IsNew(p, other, job) && IsUpdated(p, t, job) == IsUpdated(p, other, job)
  {
    hide Keeps;
  }

  lemma OneMoreJob(p: Platform, t: JobTables, jobs: seq<JobPostingDTO>, job: JobPostingDTO)
    requires job !in jobs
    ensures |NewJobs(p, t, jobs + [job])| == |NewJobs(p, t, jobs)| + if IsNew(p, t, job) then 1 else 0
    ensures |UpdatedJobs(p, t, jobs + [job])| == |UpdatedJobs(p, t, jobs)| + if IsUpdated(p, t, job) then 1 else 0
  {
    hide IsNew, IsUpdated;
    Extend(NewJobs(p, t, jobs), NewJobs(p, t, jobs + [job]), job, IsNew(p, t, job));
    Extend(UpdatedJobs(p, t, jobs), UpdatedJobs(p, t, jobs + [job]), job, IsUpdated(p, t, job));
  }

  lemma Extend(small: set<JobPostingDTO>, large: set<JobPostingDTO>, job: JobPostingDTO, taken: bool)
    requires job !in small
    requires forall j :: j in large <==> j in small || (taken && j == job)
    ensures |large| == |small| + if taken then 1 else 0
  {
    assert large == if taken then small + {job} else small;
  }

  // ---- the closing pass -----------------------------------------------------------------------

  lemma SeenMeansShown(jobs: seq<JobPostingDTO>, key: PostingKey)
    requires OfSource(jobs, key.sourceId)
    ensures SeenIn(key.identity, ExternalIds(jobs), Fingerprints(jobs)) <==> Shows(jobs, key)
  {
    if SeenIn(key.identity, ExternalIds(jobs), Fingerprints(jobs)) {
      var job :| job in jobs && job.identity == key.identity;
      var i :| 0 <= i < |jobs| && jobs[i] == job;
      assert jobs[i].Key() == key;
    }
    if Shows(jobs, key) {
      var i :| 0 <= i < |jobs| && jobs[i].Key() == key;
      assert jobs[i] in jobs && jobs[i].identity == key.identity;
    }
  }

  lemma MissesByRow(t: JobTables, jobs: seq<JobPostingDTO>, sourceId: nat, at: Instant, key: PostingKey)
    requires OfSource(jobs, sourceId)
    ensures Lookup(AfterMisses(t, sourceId, ExternalIds(jobs), Fingerprints(jobs), at).postings, key) ==
            if Shows(jobs, key) then Lookup(t.postings, key)
            else UnseenRow(Lookup(t.postings, key), key.sourceId == sourceId, true, at)
  {
    if key.sourceId == sourceId {
      SeenMeansShown(jobs, key);
    }
    hide SeenIn, MissedRow, ExternalIds, Fingerprints;
  }

  // ---- main results ---------------------------------------------------------------------------

  /**
   * A batch with pairwise distinct identities, applied by the mutating loop and the closing pass,
   * leaves exactly the specified row for every identity, shown or not, of every source.
   */
  lemma CollectRefinesPerIdentity(p: Platform, t: JobTables, sourceId: nat, jobs: seq<JobPostingDTO>, ids: seq<nat>, complete: bool, at: Moment)
    requires OfSource(jobs, sourceId) && DistinctKeys(jobs)
    ensures var after := CollectJobs(p, t, sourceId, jobs, ids, complete, at).jobs;
      && (forall i :: 0 <= i < |jobs| ==>
            Lookup(after.postings, jobs[i].Key()) == JobRow(p, t.keywords, Lookup(t.postings, jobs[i].Key()), jobs[i], IdAt(ids, i), at))
      && (forall key :: !Shows(jobs, key) ==>
            Lookup(after.postings, key) == UnseenRow(Lookup(t.postings, key), key.sourceId == sourceId, complete, at.now))
  {
    UnseenRows(p, t, sourceId, jobs, ids, complete, at);
    hide Evaluate, SightAll, JobRow, UnseenRow, AfterMisses, NewlyClosed;
    var sighted := SightAll(p, t, jobs, ids, at).tables;
    forall i | 0 <= i < |jobs|
      ensures Lookup(CollectJobs(p, t, sourceId, jobs, ids, complete, at).jobs.postings, jobs[i].Key())
              == JobRow(p, t.keywords, Lookup(t.postings, jobs[i].Key()), jobs[i], IdAt(ids, i), at)
    {
      SightAllRow(p, t, jobs, ids, at, jobs[i].Key());
      ShownOnce(p, t.keywords, Lookup(t.postings, jobs[i].Key()), i, jobs, ids, at);
      MissesByRow(sighted, jobs, sourceId, at.now, jobs[i].Key());
    }
  }

  /** Identities outside the batch: no condition on the batch is needed. */
  lemma UnseenRows(p: Platform, t: JobTables, sourceId: nat, jobs: seq<JobPostingDTO>, ids: seq<nat>, complete: bool, at: Moment)
    requires OfSource(jobs, sourceId)
    ensures forall key :: !Shows(jobs, key) ==>
              Lookup(CollectJobs(p, t, sourceId, jobs, ids, complete, at).jobs.postings, key)
              == UnseenRow(Lookup(t.postings, key), key.sourceId == sourceId, complete, at.now)
  {
    SightAllFrame(p, t, jobs, ids, at);
    hide Evaluate, SightAll, AfterMisses, NewlyClosed;
    var sighted := SightAll(p, t, jobs, ids, at).tables;
    forall key | !Shows(jobs, key)
      ensures Lookup(CollectJobs(p, t, sourceId, jobs, ids, complete, at).jobs.postings, key)
              == UnseenRow(Lookup(t.postings, key), key.sourceId == sourceId, complete, at.now)
    {
      MissesByRow(sighted, jobs, sourceId, at.now, key);
    }
  }

  /** The same for every batch: an identity shown more than once goes through its jobs one by one. */
  lemma CollectRow(p: Platform, t: JobTables, sourceId: nat, jobs: seq<JobPostingDTO>, ids: seq<nat>, complete: bool, at: Moment, key: PostingKey)
    requires OfSource(jobs, sourceId)
    ensures Lookup(CollectJobs(p, t, sourceId, jobs, ids, complete, at).jobs.postings, key)
         == if Shows(jobs, key) then RowAfter(p, t.keywords, Lookup(t.postings, key), key, jobs, ids, at)
            else UnseenRow(Lookup(t.postings, key), key.sourceId == sourceId, complete, at.now)
  {
    hide SightAll, RowAfter, UnseenRow, AfterMisses, NewlyClosed;
    UnseenRows(p, t, sourceId, jobs, ids, complete, at);
    SightAllRow(p, t, jobs, ids, at, key);
    MissesByRow(SightAll(p, t, jobs, ids, at).tables, jobs, sourceId, at.now, key);
  }

  // ---- lives of a posting ---------------------------------------------------------------------

  /** The batch shows the identity with a job that the filter rejects, which deletes its posting. */
  ghost predicate Evicts(p: Platform, keywords: seq<Keyword>, jobs: seq<JobPostingDTO>, key: PostingKey) {
    exists i :: 0 <= i < |jobs| && jobs[i].Key() == key && !Keeps(p, keywords, jobs[i])
  }

  ghost predicate DrawnFor(jobs: seq<JobPostingDTO>, ids: seq<nat>, key: PostingKey, id: nat) {
    exists i: nat :: i < |jobs| && jobs[i].Key() == key && IdAt(ids, i) == id
  }

  /** A known posting lives on exactly when nothing evicts it; any other row is new. */
  lemma {:induction false} RowAfterLife(p: Platform, keywords: seq<Keyword>, known: Option<JobPosting>, key: PostingKey,
                                        jobs: seq<JobPostingDTO>, ids: seq<nat>, at: Moment)
    ensures var row := RowAfter(p, keywords, known, key, jobs, ids, at);
      if known.Some? && !Evicts(p, keywords, jobs, key)
      then row.Some? && row.value.id == known.value.id && row.value.firstSeenAt == known.value.firstSeenAt
      else row.Some? ==> DrawnFor(jobs, ids, key, row.value.id) && row.value.firstSeenAt == at.began
    decreases |jobs|
  {
    hide Keeps, JobRow;
    if jobs != [] {
      var n := |jobs| - 1;
      var init, job := jobs[..n], jobs[n];
      RowAfterLife(p, keywords, known, key, init, ids, at);
      assert forall i :: 0 <= i < n ==> init[i] == jobs[i];
      assert Evicts(p, keywords, jobs, key) <==> Evicts(p, keywords, init, key) || (job.Key() == key && !Keeps(p, keywords, job)) by {
        if Evicts(p, keywords, init, key) {
          var i :| 0 <= i < n && init[i].Key() == key && !Keeps(p, keywords, init[i]);
          assert jobs[i] == init[i];
        }
      }
      assert forall id :: DrawnFor(init, ids, key, id) ==> DrawnFor(jobs, ids, key, id);
      JobRowLife(p, keywords, RowAfter(p, keywords, known, key, init, ids, at), job, IdAt(ids, n), at);
    }
  }

  lemma JobRowLife(p: Platform, keywords: seq<Keyword>, known: Option<JobPosting>, job: JobPostingDTO, id: nat, at: Moment)
    ensures var row := JobRow(p, keywords, known, job, id, at);
      && (row.Some? <==> Keeps(p, keywords, job))
      && (row.Some? ==> row.value.id == (if known.Some? then known.value.id else id)
                        && row.value.firstSeenAt == (if known.Some? then known.value.firstSeenAt else at.began))
  {
    hide Judge, Changes;
  }

  /** The owner of a notification is evicted. */
  ghost predicate OwnerEvicted(p: Platform, t: JobTables, jobs: seq<JobPostingDTO>, postingId: nat) {
    exists key <- t.postings :: t.postings[key].id == postingId && Evicts(p, t.keywords, jobs, key)
  }

  /** Ids that a sequence has just given out are in no notification. */
  ghost predicate UnusedId(jobs: seq<JobPostingDTO>, ids: seq<nat>, postingId: nat) {
    forall i: nat :: i < |jobs| ==> IdAt(ids, i) != postingId
  }

  /** A notification goes exactly when its posting is evicted, and otherwise stays as it is. */
  lemma {:induction false} SightAllNotes(p: Platform, t: JobTables, jobs: seq<JobPostingDTO>, ids: seq<nat>, at: Moment, n: NotificationKey)
    requires UnusedId(jobs, ids, n.postingId)
    ensures Lookup(SightAll(p, t, jobs, ids, at).tables.notifications, n)
         == if OwnerEvicted(p, t, jobs, n.postingId) then None else Lookup(t.notifications, n)
    decreases |jobs|
  {
    hide Keeps, JobRow, IsNew, IsUpdated, RowAfter, SightAll;
    if jobs == [] {
      assert SightAll(p, t, jobs, ids, at).tables == t by { SightNothing(p, t, ids, at); }
    } else {
      var last := |jobs| - 1;
      var init, job := jobs[..last], jobs[last];
      var mid := SightAll(p, t, init, ids, at).tables;
      SightAllNotes(p, t, init, ids, at, n);
      SightAllKeepsKeywords(p, t, init, ids, at);
      SightAllRow(p, t, init, ids, at, job.Key());
      RowAfterLife(p, t.keywords, Lookup(t.postings, job.Key()), job.Key(), init, ids, at);
      SightLast(p, t, jobs, ids, at);
      SightNotes(p, mid, job, IdAt(ids, last), at, n);
      EvictedByLast(p, t, jobs, n.postingId);
      assert forall i :: 0 <= i < last ==> init[i] == jobs[i];
    }
  }

  lemma {:induction false} SightAllAddsNoNote(p: Platform, t: JobTables, jobs: seq<JobPostingDTO>, ids: seq<nat>, at: Moment, n: NotificationKey)
    requires n !in t.notifications
    ensures n !in SightAll(p, t, jobs, ids, at).tables.notifications
    decreases |jobs|
  {
    hide Sight, IsNew, IsUpdated;
    if jobs != [] {
      var last := |jobs| - 1;
      SightAllAddsNoNote(p, t, jobs[..last], ids, at, n);
      SightNotes(p, SightAll(p, t, jobs[..last], ids, at).tables, jobs[last], IdAt(ids, last), at, n);
    }
  }

  lemma SightNothing(p: Platform, t: JobTables, ids: seq<nat>, at: Moment)
    ensures SightAll(p, t, [], ids, at) == Progress(t, 0, 0)
  {
  }

  lemma SightLast(p: Platform, t: JobTables, jobs: seq<JobPostingDTO>, ids: seq<nat>, at: Moment)
    requires jobs != []
    ensures SightAll(p, t, jobs, ids, at).tables
         == Sight(p, SightAll(p, t, jobs[..|jobs| - 1], ids, at).tables, jobs[|jobs| - 1], IdAt(ids, |jobs| - 1), at)
  {
    hide Sight, IsNew, IsUpdated;
  }

  lemma SightNotes(p: Platform, t: JobTables, job: JobPostingDTO, id: nat, at: Moment, n: NotificationKey)
    ensures Lookup(Sight(p, t, job, id, at).notifications, n)
         == if !Keeps(p, t.keywords, job) && job.Key() in t.postings && t.postings[job.Key()].id == n.postingId then None
            else Lookup(t.notifications, n)
  {
    JobRowLife(p, t.keywords, Lookup(t.postings, job.Key()), job, id, at);
    hide JobRow, Keeps;
  }

  lemma EvictedByLast(p: Platform, t: JobTables, jobs: seq<JobPostingDTO>, postingId: nat)
    requires jobs != []
    ensures var init, job := jobs[..|jobs| - 1], jobs[|jobs| - 1];
      OwnerEvicted(p, t, jobs, postingId) <==>
        || OwnerEvicted(p, t, init, postingId)
        || (!Keeps(p, t.keywords, job) && job.Key() in t.postings && t.postings[job.Key()].id == postingId)
  {
    hide Keeps;
    var init, job := jobs[..|jobs| - 1], jobs[|jobs| - 1];
    assert forall i :: 0 <= i < |init| ==> init[i] == jobs[i];
    forall key ensures Evicts(p, t.keywords, jobs, key) <==>
                       Evicts(p, t.keywords, init, key) || (job.Key() == key && !Keeps(p, t.keywords, job)) {
      if Evicts(p, t.keywords, init, key) {
        var i :| 0 <= i < |init| && init[i].Key() == key && !Keeps(p, t.keywords, init[i]);
        assert jobs[i] == init[i];
      }
    }
  }

  /** A row as a reader compares it: the primary key of a new row depends on the batch order. */
  function Content(row: Option<JobPosting>): Option<JobPosting> {
    match row
    case None => None
    case Some(r) => Some(r.(id := 0))
  }

  /** Reordering a batch of distinct identities changes neither the contents nor any counter. */
  lemma CollectIgnoresOrder(p: Platform, t: JobTables, sourceId: nat, jobs: seq<JobPostingDTO>, shuffled: seq<JobPostingDTO>,
                            ids: seq<nat>, complete: bool, at: Moment)
    requires OfSource(jobs, sourceId) && DistinctKeys(jobs) && DistinctKeys(shuffled)
    requires KT.SameElements(jobs, shuffled)
    ensures var a, b := CollectJobs(p, t, sourceId, jobs, ids, complete, at), CollectJobs(p, t, sourceId, shuffled, ids, complete, at);
      && a.result == b.result
      && forall key :: Content(Lookup(a.jobs.postings, key)) == Content(Lookup(b.jobs.postings, key))
  {
    hide CollectJobs, Content, Shows, OfSource, DistinctKeys;
    SameBatch(jobs, shuffled, sourceId);
    CountersIgnoreOrder(p, t, sourceId, jobs, shuffled, ids, complete, at);
    forall key
      ensures Content(Lookup(CollectJobs(p, t, sourceId, jobs, ids, complete, at).jobs.postings, key))
              == Content(Lookup(CollectJobs(p, t, sourceId, shuffled, ids, complete, at).jobs.postings, key))
    {
      RowIgnoresOrder(p, t, sourceId, jobs, shuffled, ids, complete, at, key);
    }
  }

  lemma SameBatch(jobs: seq<JobPostingDTO>, shuffled: seq<JobPostingDTO>, sourceId: nat)
    requires OfSource(jobs, sourceId) && KT.SameElements(jobs, shuffled)
    ensures OfSource(shuffled, sourceId)
    ensures forall key :: Shows(jobs, key) <==> Shows(shuffled, key)
  {
    forall i | 0 <= i < |shuffled| ensures shuffled[i].sourceId == sourceId {
      assert shuffled[i] in shuffled;
    }
    forall key ensures Shows(jobs, key) <==> Shows(shuffled, key) {
      ShownAlike(jobs, shuffled, key);
      ShownAlike(shuffled, jobs, key);
    }
  }

  lemma RowIgnoresOrder(p: Platform, t: JobTables, sourceId: nat, jobs: seq<JobPostingDTO>, shuffled: seq<JobPostingDTO>,
                        ids: seq<nat>, complete: bool, at: Moment, key: PostingKey)
    requires OfSource(jobs, sourceId) && OfSource(shuffled, sourceId) && DistinctKeys(jobs) && DistinctKeys(shuffled)
    requires KT.SameElements(jobs, shuffled) && (Shows(jobs, key) <==> Shows(shuffled, key))
    ensures Content(Lookup(CollectJobs(p, t, sourceId, jobs, ids, complete, at).jobs.postings, key))
            == Content(Lookup(CollectJobs(p, t, sourceId, shuffled, ids, complete, at).jobs.postings, key))
  {
    hide CollectJobs, JobRow, UnseenRow, Content;
    CollectRefinesPerIdentity(p, t, sourceId, jobs, ids, complete, at);
    CollectRefinesPerIdentity(p, t, sourceId, shuffled, ids, complete, at);
    if Shows(jobs, key) {
      var i :| 0 <= i < |jobs| && jobs[i].Key() == key;
      assert jobs[i] in jobs;
      var j :| 0 <= j < |shuffled| && shuffled[j] == jobs[i];
      JobRowUpToId(p, t.keywords, Lookup(t.postings, key), jobs[i], IdAt(ids, i), IdAt(ids, j), at);
    }
  }

  lemma ShownAlike(jobs: seq<JobPostingDTO>, shuffled: seq<JobPostingDTO>, key: PostingKey)
    requires KT.SameElements(jobs, shuffled)
    ensures Shows(jobs, key) ==> Shows(shuffled, key)
  {
    if Shows(jobs, key) {
      var i :| 0 <= i < |jobs| && jobs[i].Key() == key;
      assert jobs[i] in shuffled;
    }
  }

  lemma JobRowUpToId(p: Platform, keywords: seq<Keyword>, known: Option<JobPosting>, job: JobPostingDTO, id: nat, other: nat, at: Moment)
    ensures Content(JobRow(p, keywords, known, job, id, at)) == Content(JobRow(p, keywords, known, job, other, at))
  {
    hide Evaluate;
  }

  lemma CountersIgnoreOrder(p: Platform, t: JobTables, sourceId: nat, jobs: seq<JobPostingDTO>, shuffled: seq<JobPostingDTO>,
                            ids: seq<nat>, complete: bool, at: Moment)
    requires OfSource(jobs, sourceId) && OfSource(shuffled, sourceId) && DistinctKeys(jobs) && DistinctKeys(shuffled)
    requires KT.SameElements(jobs, shuffled)
    requires forall key :: Shows(jobs, key) <==> Shows(shuffled, key)
    ensures CollectJobs(p, t, sourceId, jobs, ids, complete, at).result == CollectJobs(p, t, sourceId, shuffled, ids, complete, at).result
  {
    hide Evaluate, SightAll, NewJobs, UpdatedJobs, NewlyClosed, AfterMisses, ExternalIds, Fingerprints,
         Shows, DistinctKeys, OfSource;
    SightAllCounters(p, t, jobs, ids, at);
    SightAllCounters(p, t, shuffled, ids, at);
    SameSets(p, t, jobs, shuffled);
    BatchSize(jobs);
    BatchSize(shuffled);
    ClosedByRow(p, t, sourceId, jobs, ids, at);
    ClosedByRow(p, t, sourceId, shuffled, ids, at);
    assert ClosedKeys(t, sourceId, jobs) == ClosedKeys(t, sourceId, shuffled);
  }

  lemma SameSets(p: Platform, t: JobTables, jobs: seq<JobPostingDTO>, shuffled: seq<JobPostingDTO>)
    requires KT.SameElements(jobs, shuffled)
    ensures NewJobs(p, t, jobs) == NewJobs(p, t, shuffled) && UpdatedJobs(p, t, jobs) == UpdatedJobs(p, t, shuffled)
    ensures (set job | job in jobs) == (set job | job in shuffled)
  {
    hide IsNew, IsUpdated;
  }

  lemma {:induction false} BatchSize(jobs: seq<JobPostingDTO>)
    requires DistinctKeys(jobs)
    ensures |set job | job in jobs| == |jobs|
    decreases |jobs|
  {
    if jobs != [] {
      var init, job := jobs[..|jobs| - 1], jobs[|jobs| - 1];
      BatchSize(init);
      assert jobs == init + [job];
      assert job !in init;
      assert (set j | j in jobs) == (set j | j in init) + {job};
    }
  }

  ghost function ClosedKeys(t: JobTables, sourceId: nat, jobs: seq<JobPostingDTO>): set<PostingKey> {
    set key | key in t.postings && key.sourceId == sourceId && t.postings[key].isOpen && !Shows(jobs, key)
              && t.postings[key].consecutiveMissingRuns + 1 >= MISSING_RUNS_TO_CLOSE
  }

  /** The closed count depends on the rows before the batch and on what the batch shows. */
  lemma ClosedByRow(p: Platform, t: JobTables, sourceId: nat, jobs: seq<JobPostingDTO>, ids: seq<nat>, at: Moment)
    requires OfSource(jobs, sourceId)
    ensures NewlyClosed(SightAll(p, t, jobs, ids, at).tables, sourceId, ExternalIds(jobs), Fingerprints(jobs))
            == ClosedKeys(t, sourceId, jobs)
  {
    SightAllFrame(p, t, jobs, ids, at);
    forall key: PostingKey | key.sourceId == sourceId
      ensures SeenIn(key.identity, ExternalIds(jobs), Fingerprints(jobs)) <==> Shows(jobs, key)
    {
      SeenMeansShown(jobs, key);
    }
    hide Evaluate, SightAll, SeenIn, ExternalIds, Fingerprints;
    var after := SightAll(p, t, jobs, ids, at).tables.postings;
    forall key | !Shows(jobs, key)
      ensures key in after <==> key in t.postings
      ensures key in after ==> after[key] == t.postings[key]
    {
      assert Lookup(after, key) == Lookup(t.postings, key);
    }
  }

  /**
   * The counters of a batch of distinct identities: how many were not stored and are kept, how many
   * were stored under another hash and are kept, and how many open postings of the source had been
   * missed twice and are not shown by a complete batch.
   */
  lemma CollectCounts(p: Platform, t: JobTables, sourceId: nat, jobs: seq<JobPostingDTO>, ids: seq<nat>, complete: bool, at: Moment)
    requires OfSource(jobs, sourceId) && DistinctKeys(jobs)
    ensures var r := CollectJobs(p, t, sourceId, jobs, ids, complete, at).result;
      && r.itemsFetched == |jobs|
      && r.itemsNew == r.itemsMatched == |set job | job in jobs && job.Key() !in t.postings && Keeps(p, t.keywords, job)|
      && r.itemsUpdated == |set job | job in jobs && job.Key() in t.postings
                                      && t.postings[job.Key()].contentHash != job.contentHash && Keeps(p, t.keywords, job)|
      && r.itemsClosed == if complete then |set key | key in t.postings && key.sourceId == sourceId && t.postings[key].isOpen
                                                      && !Shows(jobs, key) && t.postings[key].consecutiveMissingRuns >= 2|
                          else 0
  {
    SightAllCounters(p, t, jobs, ids, at);
    ClosedByRow(p, t, sourceId, jobs, ids, at);
    hide SightAll, NewlyClosed, AfterMisses, ExternalIds, Fingerprints, Keeps, Shows, DistinctKeys, OfSource;
    assert NewJobs(p, t, jobs) == set job | job in jobs && job.Key() !in t.postings && Keeps(p, t.keywords, job);
    assert UpdatedJobs(p, t, jobs) == set job | job in jobs && job.Key() in t.postings
                                                && t.postings[job.Key()].contentHash != job.contentHash && Keeps(p, t.keywords, job);
    assert ClosedKeys(t, sourceId, jobs) == set key | key in t.postings && key.sourceId == sourceId && t.postings[key].isOpen
                                                      && !Shows(jobs, key) && t.postings[key].consecutiveMissingRuns >= 2;
  }

  lemma CollectKeepsKeywords(p: Platform, t: JobTables, sourceId: nat, jobs: seq<JobPostingDTO>, ids: seq<nat>, complete: bool, at: Moment)
    ensures CollectJobs(p, t, sourceId, jobs, ids, complete, at).jobs.keywords == t.keywords
    ensures CollectJobs(p, t, sourceId, jobs, ids, complete, at).jobs.nextPostingId == t.nextPostingId
  {
    SightAllFrame(p, t, jobs, ids, at);
    hide Evaluate, SightAll, NewlyClosed;
  }

  // ---- from raw jobs --------------------------------------------------------------------------

  /** The jobs a raw batch stands for, if all its members can be normalised. */
  ghost predicate NormalizesTo(p: Platform, sourceId: nat, raws: seq<RawJob>, jobs: seq<JobPostingDTO>) {
    |jobs| == |raws| && forall i :: 0 <= i < |raws| ==> N.Normalize(p, sourceId, raws[i]) == Ok(jobs[i])
  }

  ghost predicate NoClash(p: Platform, keywords: seq<Keyword>, jobs: seq<JobPostingDTO>) {
    forall i :: 0 <= i < |jobs| ==> !Clashes(p, keywords, jobs[..i], jobs[i])
  }

  lemma {:induction false} AcceptedMeaning(p: Platform, keywords: seq<Keyword>, sourceId: nat, raws: seq<RawJob>)
    ensures var r := Accepted(p, keywords, sourceId, raws);
      r.Ok? ==> NormalizesTo(p, sourceId, raws, r.value) && OfSource(r.value, sourceId) && NoClash(p, keywords, r.value)
    decreases |raws|
  {
    hide N.Normalize, Clashes, NormalizesTo, OfSource, NoClash;
    if raws == [] {
      NothingAccepted(p, keywords, sourceId);
    } else if Accepted(p, keywords, sourceId, raws).Ok? {
      var n := |raws| - 1;
      AcceptedMeaning(p, keywords, sourceId, raws[..n]);
      OneMoreAccepted(p, keywords, sourceId, raws, Accepted(p, keywords, sourceId, raws[..n]).value,
                      N.Normalize(p, sourceId, raws[n]).value);
    }
  }

  lemma NothingAccepted(p: Platform, keywords: seq<Keyword>, sourceId: nat)
    ensures NormalizesTo(p, sourceId, [], []) && OfSource([], sourceId) && NoClash(p, keywords, [])
  {
  }

  lemma OneMoreAccepted(p: Platform, keywords: seq<Keyword>, sourceId: nat, raws: seq<RawJob>, jobs: seq<JobPostingDTO>, job: JobPostingDTO)
    requires raws != [] && NormalizesTo(p, sourceId, raws[..|raws| - 1], jobs) && OfSource(jobs, sourceId) && NoClash(p, keywords, jobs)
    requires N.Normalize(p, sourceId, raws[|raws| - 1]) == Ok(job) && !Clashes(p, keywords, jobs, job)
    ensures NormalizesTo(p, sourceId, raws, jobs + [job]) && OfSource(jobs + [job], sourceId) && NoClash(p, keywords, jobs + [job])
  {
    hide N.Normalize, Clashes;
    NormalizedSource(p, sourceId, raws[|raws| - 1]);
    assert forall i :: 0 <= i < |jobs| ==> raws[..|raws| - 1][i] == raws[i];
    OneMoreUnclashed(p, keywords, jobs, job);
    hide NoClash;
  }

  lemma OneMoreUnclashed(p: Platform, keywords: seq<Keyword>, jobs: seq<JobPostingDTO>, job: JobPostingDTO)
    requires NoClash(p, keywords, jobs) && !Clashes(p, keywords, jobs, job)
    ensures NoClash(p, keywords, jobs + [job])
  {
    hide Clashes;
    forall i | 0 <= i <= |jobs| ensures !Clashes(p, keywords, (jobs + [job])[..i], (jobs + [job])[i]) {
      assert (jobs + [job])[..i] == jobs[..i];
      if i == |jobs| {
        assert jobs[..i] == jobs;
      }
    }
  }

  lemma NormalizedSource(p: Platform, sourceId: nat, raw: RawJob)
    ensures N.Normalize(p, sourceId, raw).Ok? ==> N.Normalize(p, sourceId, raw).value.sourceId == sourceId
  {
    hide N.DisplayText, N.ContentHash, N.Trim, N.Join;
  }

  /** Jobs that are what a raw batch normalises to, and of which none clashes, are accepted. */
  lemma {:induction false} AcceptedIfSound(p: Platform, keywords: seq<Keyword>, sourceId: nat, raws: seq<RawJob>, jobs: seq<JobPostingDTO>)
    requires NormalizesTo(p, sourceId, raws, jobs) && NoClash(p, keywords, jobs)
    ensures Accepted(p, keywords, sourceId, raws) == Ok(jobs)
    decreases |raws|
  {
    hide N.Normalize, Clashes;
    if raws != [] {
      var n := |raws| - 1;
      assert forall i :: 0 <= i < n ==> jobs[..n][..i] == jobs[..i];
      AcceptedIfSound(p, keywords, sourceId, raws[..n], jobs[..n]);
      assert jobs[..n] + [jobs[n]] == jobs;
    }
  }

  /**
   * A collection succeeds exactly when the source is known, every raw job is valid, and no job clashes
   * with the pending deletion of its own identity.
   */
  lemma CollectSucceedsExactly(p: Platform, db: Database, sourceId: nat, raws: seq<RawJob>, complete: bool, at: Moment)
    ensures CollectOutcome(p, db, sourceId, raws, complete, at).Ok? <==>
            && sourceId in db.sources
            && exists jobs :: NormalizesTo(p, sourceId, raws, jobs) && NoClash(p, db.jobs.keywords, jobs)
  {
    hide CollectJobs, NormalizesTo, NoClash, OfSource;
    AcceptedMeaning(p, db.jobs.keywords, sourceId, raws);
    if jobs :| NormalizesTo(p, sourceId, raws, jobs) && NoClash(p, db.jobs.keywords, jobs) {
      AcceptedIfSound(p, db.jobs.keywords, sourceId, raws, jobs);
    }
  }

  /** How many jobs at the end of a batch show the identity and are filtered out. */
  function Rejections(p: Platform, keywords: seq<Keyword>, jobs: seq<JobPostingDTO>, key: PostingKey): nat {
    if jobs == [] then 0
    else
      var job := jobs[|jobs| - 1];
      if job.Key() == key && !Keeps(p, keywords, job) then Rejections(p, keywords, jobs[..|jobs| - 1], key) + 1 else 0
  }

  lemma {:induction false} DoomedExactly(p: Platform, keywords: seq<Keyword>, jobs: seq<JobPostingDTO>, key: PostingKey)
    ensures Doomed(p, keywords, jobs) == Some(key) <==> Rejections(p, keywords, jobs, key) % 2 == 1
    decreases |jobs|
  {
    hide Keeps;
    if jobs != [] {
      DoomedExactly(p, keywords, jobs[..|jobs| - 1], key);
    }
  }

  /**
   * A job clashes exactly when it has evidence and an odd number of filtered jobs of its identity come
   * directly before it: every second one only removes what the one before it had marked.
   */
  lemma ClashesExactly(p: Platform, keywords: seq<Keyword>, jobs: seq<JobPostingDTO>, job: JobPostingDTO)
    ensures Clashes(p, keywords, jobs, job) <==>
            && Evaluate(p, keywords, job.title, if job.description.Some? then job.description.value else "").AllMatches() != []
            && Rejections(p, keywords, jobs, job.Key()) % 2 == 1
  {
    DoomedExactly(p, keywords, jobs, job.Key());
    hide Doomed, Evaluate, Rejections;
  }

  /** Where no two neighbours share an identity nothing clashes. */
  lemma ApartNeverClash(p: Platform, keywords: seq<Keyword>, jobs: seq<JobPostingDTO>, i: nat)
    requires i < |jobs| && (i > 0 ==> jobs[i - 1].Key() != jobs[i].Key())
    ensures !Clashes(p, keywords, jobs[..i], jobs[i])
  {
    hide Judge, Keeps;
    if i > 0 {
      assert jobs[..i][|jobs[..i]| - 1] == jobs[i - 1];
    }
  }

  lemma {:induction false} AcceptedPointwise(p: Platform, keywords: seq<Keyword>, sourceId: nat, raws: seq<RawJob>, others: seq<RawJob>)
    requires |raws| == |others|
    requires forall i :: 0 <= i < |raws| ==> N.Normalize(p, sourceId, raws[i]) == N.Normalize(p, sourceId, others[i])
    ensures Accepted(p, keywords, sourceId, raws) == Accepted(p, keywords, sourceId, others)
    decreases |raws|
  {
    hide N.Normalize, Joined;
    if raws != [] {
      AcceptedPointwise(p, keywords, sourceId, raws[..|raws| - 1], others[..|others| - 1]);
    }
  }

  /**
   * Prefixes that normalise to leading tags, on any titles of a batch, change nothing at all: the
   * same rows, the same revisions, the same counters, the same failure.
   */
  lemma TaggedTitlesCollectAlike(p: Platform, db: Database, sourceId: nat, raws: seq<RawJob>, prefixes: seq<string>,
                                 tags: seq<seq<NT.Tag>>, tagged: seq<RawJob>, complete: bool, at: Moment)
    requires |raws| == |prefixes| == |tags| == |tagged|
    requires forall i :: 0 <= i < |raws| ==> NT.IsTagged(p, raws[i], prefixes[i], tags[i], tagged[i])
    ensures CollectOutcome(p, db, sourceId, tagged, complete, at) == CollectOutcome(p, db, sourceId, raws, complete, at)
  {
    hide N.Normalize, CollectJobs, NT.IsTagged;
    forall i | 0 <= i < |raws|
      ensures N.Normalize(p, sourceId, tagged[i]) == N.Normalize(p, sourceId, raws[i])
    {
      NT.TaggedTitleNormalizesAlike(p, sourceId, raws[i], prefixes[i], tags[i], tagged[i]);
    }
    AcceptedPointwise(p, db.jobs.keywords, sourceId, tagged, raws);
  }

  // ---- change detection -----------------------------------------------------------------------

  /** The row's hash is the hash of the fields it stores. */
  ghost predicate HashIsCurrent(p: Platform, row: JobPosting) {
    row.contentHash == N.ContentHash(p, row.title, row.deadlineAt, row.description)
  }

  ghost predicate Hashed(p: Platform, job: JobPostingDTO) {
    job.contentHash == N.ContentHash(p, job.title, job.deadlineAt, job.description)
  }

  /** A job that shows exactly what the row stores. */
  function Echo(p: Platform, row: JobPosting, key: PostingKey): JobPostingDTO {
    JobPostingDTO(key.sourceId, key.identity, N.ContentHash(p, row.title, row.deadlineAt, row.description), row.url, row.title, row.company,
                  row.location, row.employmentType, row.description, row.postedAt, row.deadlineAt, row.raw)
  }

  /**
   * Every changed hash shows in at least one tracked field exactly when the row's hash is that of
   * the fields it stores. On any other row a job that repeats those fields changes the hash alone.
   */
  lemma ChangedHashShowsInFields(p: Platform, row: JobPosting, key: PostingKey)
    ensures HashIsCurrent(p, row) <==>
            forall job: JobPostingDTO :: Hashed(p, job) && job.contentHash != row.contentHash ==> Changes(row, job) != map[]
  {
    hide N.ContentHash;
    if HashIsCurrent(p, row) {
      forall job: JobPostingDTO | Hashed(p, job) && job.contentHash != row.contentHash ensures Changes(row, job) != map[] {
        DifferenceShows(row, job);
      }
    } else {
      var echo := Echo(p, row, key);
      assert Hashed(p, echo) && Changes(row, echo) == map[];
    }
  }

  lemma DifferenceShows(row: JobPosting, job: JobPostingDTO)
    requires row.title != job.title || row.deadlineAt != job.deadlineAt || row.description != job.description
    ensures Changes(row, job) != map[]
  {
    var field := if row.title != job.title then "title"
                 else if row.deadlineAt != job.deadlineAt then "deadline_at" else "description";
    assert field in TRACKED_FIELDS by {
      assert TRACKED_FIELDS[0] == "title" && TRACKED_FIELDS[1] == "deadline_at" && TRACKED_FIELDS[2] == "description";
    }
    assert RowField(row, field) != JobField(job, field);
    assert field in Changes(row, job);
  }
}
