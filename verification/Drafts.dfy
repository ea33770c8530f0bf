/**
 * A collecting transaction while it runs. Its writes are visible to itself alone, next to whatever
 * others have committed since: every statement reads the newest committed rows (READ COMMITTED).
 */
module Drafts {
  import opened Prelude
  import opened Schema
  import opened Collector
  import opened CollectorTheorems

  /**
   * What a transaction has written about one identity. A change to a committed row holds only the
   * revisions it adds: the older ones are rows of their own, which retention may delete meanwhile.
   */
  datatype Draft = Dropped | Changed(row: JobPosting) | Inserted(row: JobPosting)

  /** What the transaction sees of an identity. */
  function Resolve(known: Option<JobPosting>, draft: Option<Draft>): Option<JobPosting> {
    match draft
    case None => known
    case Some(Dropped) => None
    case Some(Inserted(row)) => Some(row)
    case Some(Changed(row)) => if known.Some? then Some(WithOlder(row, known.value.revisions)) else None
  }

  function WithOlder(row: JobPosting, older: seq<Revision>): JobPosting {
    row.(revisions := older + row.revisions)
  }

  function Added(draft: Option<Draft>): seq<Revision> {
    match draft
    case Some(Changed(row)) => row.revisions
    case _ => []
  }

  /** One job: read the committed row and the own draft, write the draft. */
  function NextDraft(p: Platform, keywords: seq<Keyword>, known: Option<JobPosting>, draft: Option<Draft>, job: JobPostingDTO, id: nat, at: Moment): Draft {
    var seen := Resolve(known, draft);
    match JobRow(p, keywords, seen, job, id, at)
    case None => Dropped
    case Some(row) =>
      if seen.None? || (draft.Some? && draft.value.Inserted?) then Inserted(row)
      else Changed(row.(revisions := Added(draft) + NewRevisions(seen.value, job, at.began)))
  }

  function MissDraft(row: JobPosting, at: Instant): Draft {
    Changed(MissedRow(row, at).(revisions := []))
  }

  /** The tables after a commit: drafts over what is committed; notifications go with replaced postings. */
  function Merged(t: JobTables, drafts: map<PostingKey, Draft>): JobTables {
    t.(postings := map key | key in t.postings.Keys + drafts.Keys && Resolve(Lookup(t.postings, key), Lookup(drafts, key)).Some?
                     :: Resolve(Lookup(t.postings, key), Lookup(drafts, key)).value,
       notifications := map n | n in t.notifications && !Bereaved(t, drafts, n.postingId) :: t.notifications[n])
  }

  predicate Bereaved(t: JobTables, drafts: map<PostingKey, Draft>, postingId: nat) {
    exists key <- drafts :: key in t.postings && t.postings[key].id == postingId && !drafts[key].Changed?
  }

  // ---- what the drafts of a batch amount to ---------------------------------------------------

  /** The draft of an identity after the jobs so far, had its committed row been the present one all along. */
  function DraftAfter(p: Platform, keywords: seq<Keyword>, known: Option<JobPosting>, key: PostingKey, jobs: seq<JobPostingDTO>,
                      ids: seq<nat>, at: Moment): Option<Draft>
  {
    if jobs == [] then None
    else
      var n := |jobs| - 1;
      var draft := DraftAfter(p, keywords, known, key, jobs[..n], ids, at);
      if jobs[n].Key() == key then Some(NextDraft(p, keywords, known, draft, jobs[n], IdAt(ids, n), at)) else draft
  }

  lemma NextDraftResolves(p: Platform, keywords: seq<Keyword>, known: Option<JobPosting>, draft: Option<Draft>, job: JobPostingDTO, id: nat, at: Moment)
    ensures Resolve(known, Some(NextDraft(p, keywords, known, draft, job, id, at))) == JobRow(p, keywords, Resolve(known, draft), job, id, at)
  {
    hide JobRow, Changes;
    var seen := Resolve(known, draft);
    if row :| JobRow(p, keywords, seen, job, id, at) == Some(row) {
      JobRowMeaning(p, keywords, seen, job, id, at, row);
      if seen.Some? && known.Some? && !(draft.Some? && draft.value.Inserted?) {
        var more := NewRevisions(seen.value, job, at.began);
        assert seen.value.revisions == known.value.revisions + Added(draft) by {
          assert known.value.revisions + [] == known.value.revisions;
        }
        assert known.value.revisions + (Added(draft) + more) == (known.value.revisions + Added(draft)) + more;
        assert row.(revisions := known.value.revisions + (Added(draft) + more)) == row;
      }
    }
  }

  lemma {:induction false} DraftsResolve(p: Platform, keywords: seq<Keyword>, known: Option<JobPosting>, key: PostingKey,
                                         jobs: seq<JobPostingDTO>, ids: seq<nat>, at: Moment)
    ensures Resolve(known, DraftAfter(p, keywords, known, key, jobs, ids, at)) == RowAfter(p, keywords, known, key, jobs, ids, at)
    decreases |jobs|
  {
    hide NextDraft, JobRow, Resolve;
    if jobs == [] {
      NoDraft(known);
    } else {
      var n := |jobs| - 1;
      DraftsResolve(p, keywords, known, key, jobs[..n], ids, at);
      NextDraftResolves(p, keywords, known, DraftAfter(p, keywords, known, key, jobs[..n], ids, at), jobs[n], IdAt(ids, n), at);
    }
  }

  lemma NoDraft(known: Option<JobPosting>)
    ensures Resolve(known, None) == known
  {
  }

  /** Drafts do not depend on the older revisions, so deleting some of them meanwhile changes no draft. */
  lemma NextDraftIgnoresOlder(p: Platform, keywords: seq<Keyword>, row: JobPosting, older: seq<Revision>, draft: Option<Draft>,
                              job: JobPostingDTO, id: nat, at: Moment)
    ensures NextDraft(p, keywords, Some(row.(revisions := older)), draft, job, id, at) == NextDraft(p, keywords, Some(row), draft, job, id, at)
  {
    var other := row.(revisions := older);
    var seen, seenOther := Resolve(Some(row), draft), Resolve(Some(other), draft);
    if seen.Some? {
      assert seenOther.Some? && seenOther.value == seen.value.(revisions := seenOther.value.revisions);
      SightedIgnoresOlder(seen.value, seenOther.value.revisions, job, Judge(p, keywords, job).AllMatches(), id, at);
    }
    hide Judge, SightedRow, NewRevisions;
  }

  lemma SightedIgnoresOlder(row: JobPosting, older: seq<Revision>, job: JobPostingDTO, matches: seq<Evidence>, id: nat, at: Moment)
    ensures var other := row.(revisions := older);
      && NewRevisions(other, job, at.began) == NewRevisions(row, job, at.began)
      && forall revisions :: SightedRow(Some(other), job, matches, id, at).(revisions := revisions)
                             == SightedRow(Some(row), job, matches, id, at).(revisions := revisions)
  {
    assert Changes(row.(revisions := older), job) == Changes(row, job);
    hide Changes;
  }

  lemma {:induction false} DraftsIgnoreOlder(p: Platform, keywords: seq<Keyword>, row: JobPosting, older: seq<Revision>, key: PostingKey,
                                             jobs: seq<JobPostingDTO>, ids: seq<nat>, at: Moment)
    ensures DraftAfter(p, keywords, Some(row.(revisions := older)), key, jobs, ids, at) == DraftAfter(p, keywords, Some(row), key, jobs, ids, at)
    decreases |jobs|
  {
    hide NextDraft;
    if jobs != [] {
      var n := |jobs| - 1;
      DraftsIgnoreOlder(p, keywords, row, older, key, jobs[..n], ids, at);
      NextDraftIgnoresOlder(p, keywords, row, older, DraftAfter(p, keywords, Some(row), key, jobs[..n], ids, at), jobs[n], IdAt(ids, n), at);
    }
  }

  lemma {:induction false} DraftsReadIds(p: Platform, keywords: seq<Keyword>, known: Option<JobPosting>, key: PostingKey,
                                         jobs: seq<JobPostingDTO>, ids: seq<nat>, more: seq<nat>, at: Moment)
    requires |jobs| <= |ids|
    ensures DraftAfter(p, keywords, known, key, jobs, ids + more, at) == DraftAfter(p, keywords, known, key, jobs, ids, at)
    decreases |jobs|
  {
    hide NextDraft;
    if jobs != [] {
      DraftsReadIds(p, keywords, known, key, jobs[..|jobs| - 1], ids, more, at);
    }
  }

  lemma {:induction false} UnshownHasNoDraft(p: Platform, keywords: seq<Keyword>, known: Option<JobPosting>, key: PostingKey,
                                             jobs: seq<JobPostingDTO>, ids: seq<nat>, at: Moment)
    ensures DraftAfter(p, keywords, known, key, jobs, ids, at).Some? <==> Shows(jobs, key)
    decreases |jobs|
  {
    hide NextDraft;
    if jobs != [] {
      var n := |jobs| - 1;
      UnshownHasNoDraft(p, keywords, known, key, jobs[..n], ids, at);
      assert forall i :: 0 <= i < n ==> jobs[..n][i] == jobs[i];
      if Shows(jobs, key) && jobs[n].Key() != key {
        var i :| 0 <= i < |jobs| && jobs[i].Key() == key;
        assert jobs[..n][i].Key() == key;
      }
      if Shows(jobs[..n], key) {
        var i :| 0 <= i < n && jobs[..n][i].Key() == key;
        assert jobs[i].Key() == key;
      }
    }
  }

  lemma NextDraftKind(p: Platform, keywords: seq<Keyword>, row: JobPosting, draft: Option<Draft>, job: JobPostingDTO, id: nat, at: Moment)
    ensures NextDraft(p, keywords, Some(row), draft, job, id, at).Changed?
            <==> Keeps(p, keywords, job) && (draft.None? || draft.value.Changed?)
  {
    hide Judge, Changes;
  }

  /** A known posting is changed in place exactly when no job evicts it. */
  lemma {:induction false} ChangedUnlessEvicted(p: Platform, keywords: seq<Keyword>, row: JobPosting, key: PostingKey,
                                                jobs: seq<JobPostingDTO>, ids: seq<nat>, at: Moment)
    ensures var draft := DraftAfter(p, keywords, Some(row), key, jobs, ids, at);
      draft.Some? && !draft.value.Changed? <==> Evicts(p, keywords, jobs, key)
    decreases |jobs|
  {
    hide NextDraft, Keeps;
    if jobs != [] {
      var n := |jobs| - 1;
      ChangedUnlessEvicted(p, keywords, row, key, jobs[..n], ids, at);
      NextDraftKind(p, keywords, row, DraftAfter(p, keywords, Some(row), key, jobs[..n], ids, at), jobs[n], IdAt(ids, n), at);
      EvictsMore(p, keywords, jobs, key);
    }
  }

  lemma EvictsMore(p: Platform, keywords: seq<Keyword>, jobs: seq<JobPostingDTO>, key: PostingKey)
    requires jobs != []
    ensures var init, job := jobs[..|jobs| - 1], jobs[|jobs| - 1];
      Evicts(p, keywords, jobs, key) <==> Evicts(p, keywords, init, key) || (job.Key() == key && !Keeps(p, keywords, job))
  {
    hide Keeps;
    var init := jobs[..|jobs| - 1];
    assert forall i :: 0 <= i < |init| ==> init[i] == jobs[i];
    if Evicts(p, keywords, init, key) {
      var i :| 0 <= i < |init| && init[i].Key() == key && !Keeps(p, keywords, init[i]);
      assert jobs[i] == init[i];
    }
  }

  // ---- the drafts of a whole transaction ------------------------------------------------------

  /** The draft that a transaction has of an identity, told from the present committed row. */
  ghost function DraftOf(p: Platform, keywords: seq<Keyword>, known: Option<JobPosting>, sourceId: nat, key: PostingKey,
                         jobs: seq<JobPostingDTO>, ids: seq<nat>, swept: bool, at: Moment): Option<Draft>
  {
    if Shows(jobs, key) then DraftAfter(p, keywords, known, key, jobs, ids, at)
    else if swept && key.sourceId == sourceId && known.Some? && known.value.isOpen then Some(MissDraft(known.value, at.now))
    else None
  }

  ghost predicate DraftsAre(p: Platform, t: JobTables, sourceId: nat, jobs: seq<JobPostingDTO>, ids: seq<nat>, swept: bool, at: Moment,
                            drafts: map<PostingKey, Draft>)
  {
    forall key :: Lookup(drafts, key) == DraftOf(p, t.keywords, Lookup(t.postings, key), sourceId, key, jobs, ids, swept, at)
  }

  /** The closing pass: every open committed row of the source that the batch has not shown. */
  predicate Misses(t: JobTables, sourceId: nat, jobs: seq<JobPostingDTO>, key: PostingKey) {
    key in t.postings && IsMissing(t, sourceId, ExternalIds(jobs), Fingerprints(jobs), key)
  }

  function Swept(t: JobTables, sourceId: nat, jobs: seq<JobPostingDTO>, drafts: map<PostingKey, Draft>, at: Instant): map<PostingKey, Draft> {
    map key | key in t.postings.Keys + drafts.Keys && (key in drafts || Misses(t, sourceId, jobs, key))
      :: if key in drafts then drafts[key] else MissDraft(t.postings[key], at)
  }

  lemma NothingDrafted(p: Platform, t: JobTables, sourceId: nat, at: Moment)
    ensures DraftsAre(p, t, sourceId, [], [], false, at, map[])
  {
  }

  /** The next job's statement extends the drafts by one step. */
  lemma DraftsGrow(p: Platform, t: JobTables, sourceId: nat, jobs: seq<JobPostingDTO>, ids: seq<nat>, at: Moment,
                   drafts: map<PostingKey, Draft>, job: JobPostingDTO, id: nat)
    requires DraftsAre(p, t, sourceId, jobs, ids, false, at, drafts) && |ids| == |jobs|
    ensures var next := NextDraft(p, t.keywords, Lookup(t.postings, job.Key()), Lookup(drafts, job.Key()), job, id, at);
      DraftsAre(p, t, sourceId, jobs + [job], ids + [id], false, at, drafts[job.Key() := next])
  {
    hide NextDraft;
    var next := NextDraft(p, t.keywords, Lookup(t.postings, job.Key()), Lookup(drafts, job.Key()), job, id, at);
    var more := jobs + [job];
    assert more[..|jobs|] == jobs && IdAt(ids + [id], |jobs|) == id;
    forall key
      ensures Lookup(drafts[job.Key() := next], key)
           == DraftOf(p, t.keywords, Lookup(t.postings, key), sourceId, key, more, ids + [id], false, at)
    {
      var known := Lookup(t.postings, key);
      assert Lookup(drafts, key) == DraftOf(p, t.keywords, known, sourceId, key, jobs, ids, false, at);
      DraftsReadIds(p, t.keywords, known, key, jobs, ids, [id], at);
      UnshownHasNoDraft(p, t.keywords, known, key, jobs, ids, at);
      UnshownHasNoDraft(p, t.keywords, known, key, more, ids + [id], at);
      hide Shows;
    }
  }

  lemma DraftsAreSwept(p: Platform, t: JobTables, sourceId: nat, jobs: seq<JobPostingDTO>, ids: seq<nat>, at: Moment, drafts: map<PostingKey, Draft>)
    requires DraftsAre(p, t, sourceId, jobs, ids, false, at, drafts) && OfSource(jobs, sourceId)
    ensures DraftsAre(p, t, sourceId, jobs, ids, true, at, Swept(t, sourceId, jobs, drafts, at.now))
  {
    hide DraftAfter, MissDraft;
    forall key
      ensures Lookup(Swept(t, sourceId, jobs, drafts, at.now), key)
           == DraftOf(p, t.keywords, Lookup(t.postings, key), sourceId, key, jobs, ids, true, at)
    {
      assert Lookup(drafts, key) == DraftOf(p, t.keywords, Lookup(t.postings, key), sourceId, key, jobs, ids, false, at);
      UnshownHasNoDraft(p, t.keywords, Lookup(t.postings, key), key, jobs, ids, at);
      if key.sourceId == sourceId {
        SeenMeansShown(jobs, key);
      }
      hide Shows, SeenIn, ExternalIds, Fingerprints;
    }
  }

  /** Drafts are about rows of the own source, so what others do to other rows does not concern them. */
  lemma DraftsElsewhere(p: Platform, t: JobTables, after: JobTables, sourceId: nat, jobs: seq<JobPostingDTO>, ids: seq<nat>, swept: bool,
                        at: Moment, drafts: map<PostingKey, Draft>)
    requires DraftsAre(p, t, sourceId, jobs, ids, swept, at, drafts) && OfSource(jobs, sourceId) && after.keywords == t.keywords
    requires forall key: PostingKey :: key.sourceId == sourceId ==> Lookup(after.postings, key) == Lookup(t.postings, key)
    ensures DraftsAre(p, after, sourceId, jobs, ids, swept, at, drafts)
  {
    hide DraftAfter, MissDraft;
    forall key
      ensures Lookup(drafts, key) == DraftOf(p, t.keywords, Lookup(after.postings, key), sourceId, key, jobs, ids, swept, at)
    {
      assert Lookup(drafts, key) == DraftOf(p, t.keywords, Lookup(t.postings, key), sourceId, key, jobs, ids, swept, at);
      assert Shows(jobs, key) ==> key.sourceId == sourceId;
    }
  }

  lemma DraftsOfSource(p: Platform, t: JobTables, sourceId: nat, jobs: seq<JobPostingDTO>, ids: seq<nat>, swept: bool, at: Moment,
                       drafts: map<PostingKey, Draft>)
    requires DraftsAre(p, t, sourceId, jobs, ids, swept, at, drafts) && OfSource(jobs, sourceId)
    ensures forall key <- drafts :: key.sourceId == sourceId
  {
    hide DraftAfter;
    forall key <- drafts ensures key.sourceId == sourceId {
      assert Lookup(drafts, key) == DraftOf(p, t.keywords, Lookup(t.postings, key), sourceId, key, jobs, ids, swept, at);
    }
  }

  lemma MissResolves(row: JobPosting, at: Instant)
    ensures Resolve(Some(row), Some(MissDraft(row, at))) == Some(MissedRow(row, at))
  {
    assert row.revisions + [] == row.revisions;
  }

  /** What the transaction sees of an identity is what the batch would make of the present committed row. */
  lemma DraftOfResolves(p: Platform, t: JobTables, sourceId: nat, jobs: seq<JobPostingDTO>, ids: seq<nat>, complete: bool, at: Moment, key: PostingKey)
    requires OfSource(jobs, sourceId)
    ensures Resolve(Lookup(t.postings, key), DraftOf(p, t.keywords, Lookup(t.postings, key), sourceId, key, jobs, ids, complete, at))
         == Lookup(CollectJobs(p, t, sourceId, jobs, ids, complete, at).jobs.postings, key)
  {
    CollectRow(p, t, sourceId, jobs, ids, complete, at, key);
    hide RowAfter, DraftAfter, CollectJobs, MissDraft, MissedRow, OfSource, Shows;
    var known := Lookup(t.postings, key);
    if Shows(jobs, key) {
      DraftsResolve(p, t.keywords, known, key, jobs, ids, at);
    } else if known.Some? {
      MissResolves(known.value, at.now);
    }
  }

  lemma BereavedIsEvicted(p: Platform, t: JobTables, sourceId: nat, jobs: seq<JobPostingDTO>, ids: seq<nat>, swept: bool, at: Moment,
                          drafts: map<PostingKey, Draft>, postingId: nat)
    requires DraftsAre(p, t, sourceId, jobs, ids, swept, at, drafts)
    ensures Bereaved(t, drafts, postingId) <==> OwnerEvicted(p, t, jobs, postingId)
  {
    hide Evicts, DraftAfter;
    forall key <- t.postings
      ensures key in drafts && !drafts[key].Changed? <==> Evicts(p, t.keywords, jobs, key)
    {
      assert Lookup(drafts, key) == DraftOf(p, t.keywords, Some(t.postings[key]), sourceId, key, jobs, ids, swept, at);
      ChangedUnlessEvicted(p, t.keywords, t.postings[key], key, jobs, ids, at);
      UnshownHasNoDraft(p, t.keywords, Some(t.postings[key]), key, jobs, ids, at);
    }
  }

  /**
   * Committing the drafts gives the tables of the whole collection, run at the moment of the commit.
   */
  lemma MergedIsSerial(p: Platform, t: JobTables, sourceId: nat, jobs: seq<JobPostingDTO>, ids: seq<nat>, complete: bool, at: Moment,
                       drafts: map<PostingKey, Draft>)
    requires OfSource(jobs, sourceId) && DraftsAre(p, t, sourceId, jobs, ids, complete, at, drafts)
    requires forall n <- t.notifications :: UnusedId(jobs, ids, n.postingId)
    ensures Merged(t, drafts) == CollectJobs(p, t, sourceId, jobs, ids, complete, at).jobs
  {
    var serial, merged := CollectJobs(p, t, sourceId, jobs, ids, complete, at).jobs, Merged(t, drafts);
    CollectKeepsKeywords(p, t, sourceId, jobs, ids, complete, at);
    forall key ensures Lookup(merged.postings, key) == Lookup(serial.postings, key) {
      DraftOfResolves(p, t, sourceId, jobs, ids, complete, at, key);
      MergedRow(t, drafts, key);
    }
    SameLookups(merged.postings, serial.postings);
    forall n ensures Lookup(merged.notifications, n) == Lookup(serial.notifications, n) {
      CollectNotes(p, t, sourceId, jobs, ids, complete, at, n);
      BereavedIsEvicted(p, t, sourceId, jobs, ids, complete, at, drafts, n.postingId);
      MergedNote(t, drafts, n);
    }
    SameLookups(merged.notifications, serial.notifications);
    hide CollectJobs, Resolve, DraftOf, Bereaved, OwnerEvicted;
  }

  lemma MergedRow(t: JobTables, drafts: map<PostingKey, Draft>, key: PostingKey)
    ensures Lookup(Merged(t, drafts).postings, key) == Resolve(Lookup(t.postings, key), Lookup(drafts, key))
  {
  }

  lemma MergedNote(t: JobTables, drafts: map<PostingKey, Draft>, n: NotificationKey)
    ensures Lookup(Merged(t, drafts).notifications, n) == if Bereaved(t, drafts, n.postingId) then None else Lookup(t.notifications, n)
  {
    hide Bereaved, Resolve;
  }

  lemma SameLookups<K(!new), V(!new)>(a: map<K, V>, b: map<K, V>)
    requires forall key :: Lookup(a, key) == Lookup(b, key)
    ensures a == b
  {
    forall key ensures key in a <==> key in b {
      assert Lookup(a, key) == Lookup(b, key);
    }
    forall key <- a ensures a[key] == b[key] {
      assert Lookup(a, key) == Lookup(b, key);
    }
  }

  lemma CollectNotes(p: Platform, t: JobTables, sourceId: nat, jobs: seq<JobPostingDTO>, ids: seq<nat>, complete: bool, at: Moment, n: NotificationKey)
    requires n in t.notifications ==> UnusedId(jobs, ids, n.postingId)
    ensures Lookup(CollectJobs(p, t, sourceId, jobs, ids, complete, at).jobs.notifications, n)
         == if OwnerEvicted(p, t, jobs, n.postingId) then None else Lookup(t.notifications, n)
  {
    hide OwnerEvicted, UnusedId, SightAll, NewlyClosed, IsMissing;
    if n in t.notifications {
      SightAllNotes(p, t, jobs, ids, at, n);
    } else {
      SightAllAddsNoNote(p, t, jobs, ids, at, n);
    }
  }
}
