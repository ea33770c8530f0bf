/** Collecting the same batch a second time, for batches that may show an identity more than once. */
module CollectTwice {
  import opened Prelude
  import opened Schema
  import opened KeywordMatcher
  import opened Collector
  import opened CollectorTheorems

  /** Seeing `job` right after `before`, of the same identity, adds and changes nothing. */
  predicate Follows(p: Platform, keywords: seq<Keyword>, before: JobPostingDTO, job: JobPostingDTO) {
    Keeps(p, keywords, job) ==> Keeps(p, keywords, before) && before.contentHash == job.contentHash
  }

  /** Jobs of one identity are all kept, with one content hash, or all filtered out. */
  ghost predicate Consistent(p: Platform, keywords: seq<Keyword>, jobs: seq<JobPostingDTO>) {
    forall i, j :: 0 <= i < |jobs| && 0 <= j < |jobs| && jobs[i].Key() == jobs[j].Key() ==> Follows(p, keywords, jobs[i], jobs[j])
  }

  // ---- positions in a batch -------------------------------------------------------------------

  ghost function LastOf(jobs: seq<JobPostingDTO>, key: PostingKey): (i: nat)
    requires Shows(jobs, key)
    ensures i < |jobs| && jobs[i].Key() == key && forall j :: i < j < |jobs| ==> jobs[j].Key() != key
  {
    var init := jobs[..|jobs| - 1];
    if jobs[|jobs| - 1].Key() == key then |jobs| - 1
    else
      assert Shows(init, key) by {
        var i :| 0 <= i < |jobs| && jobs[i].Key() == key;
        assert init[i].Key() == key;
      }
      LastOf(init, key)
  }

  /** The job of the same identity that was seen last before this one, when the batch goes round. */
  ghost function Before(jobs: seq<JobPostingDTO>, n: nat): (m: nat)
    requires n < |jobs|
    ensures m < |jobs| && jobs[m].Key() == jobs[n].Key()
  {
    if Shows(jobs[..n], jobs[n].Key()) then LastOf(jobs[..n], jobs[n].Key())
    else
      assert Shows(jobs, jobs[n].Key());
      LastOf(jobs, jobs[n].Key())
  }

  ghost predicate AllFollow(p: Platform, keywords: seq<Keyword>, jobs: seq<JobPostingDTO>) {
    forall n: nat :: n < |jobs| ==> Follows(p, keywords, jobs[Before(jobs, n)], jobs[n])
  }

  lemma {:induction false} KeptBackwards(p: Platform, keywords: seq<Keyword>, jobs: seq<JobPostingDTO>, i: nat, j: nat)
    requires AllFollow(p, keywords, jobs) && i <= j < |jobs| && jobs[i].Key() == jobs[j].Key()
    ensures Follows(p, keywords, jobs[i], jobs[j])
    decreases j
  {
    hide Keeps;
    if i < j {
      assert jobs[..j][i] == jobs[i] && Shows(jobs[..j], jobs[j].Key());
      var m := Before(jobs, j);
      assert jobs[..j][m] == jobs[m] && i <= m;
      KeptBackwards(p, keywords, jobs, i, m);
      assert Follows(p, keywords, jobs[m], jobs[j]);
    }
  }

  lemma {:induction false} KeptRound(p: Platform, keywords: seq<Keyword>, jobs: seq<JobPostingDTO>, j: nat)
    requires AllFollow(p, keywords, jobs) && j < |jobs| && Shows(jobs, jobs[j].Key())
    ensures Follows(p, keywords, jobs[LastOf(jobs, jobs[j].Key())], jobs[j])
    decreases j
  {
    hide Keeps;
    var m := Before(jobs, j);
    assert Follows(p, keywords, jobs[m], jobs[j]);
    if Shows(jobs[..j], jobs[j].Key()) {
      KeptRound(p, keywords, jobs, m);
    }
  }

  /** Going round the batch once, agreement of neighbours is agreement of all. */
  lemma NeighboursAgree(p: Platform, keywords: seq<Keyword>, jobs: seq<JobPostingDTO>)
    ensures AllFollow(p, keywords, jobs) <==> Consistent(p, keywords, jobs)
  {
    hide Keeps, LastOf;
    if AllFollow(p, keywords, jobs) {
      forall i: nat, j: nat | i < |jobs| && j < |jobs| && jobs[i].Key() == jobs[j].Key()
        ensures Follows(p, keywords, jobs[i], jobs[j])
      {
        assert Shows(jobs, jobs[j].Key());
        var last := LastOf(jobs, jobs[j].Key());
        KeptRound(p, keywords, jobs, j);
        KeptBackwards(p, keywords, jobs, i, last);
      }
    }
  }

  // ---- rows -----------------------------------------------------------------------------------

  /** The row is what a sighting of the job leaves. */
  ghost predicate Leaves(p: Platform, keywords: seq<Keyword>, job: JobPostingDTO, row: Option<JobPosting>) {
    && (row.Some? <==> Keeps(p, keywords, job))
    && (row.Some? ==> row.value.contentHash == job.contentHash)
  }

  ghost predicate SameHistory(a: Option<JobPosting>, b: Option<JobPosting>) {
    && (a.Some? <==> b.Some?)
    && (a.Some? ==> a.value.contentHash == b.value.contentHash && a.value.revisions == b.value.revisions)
  }

  lemma OneSighting(p: Platform, t: JobTables, job: JobPostingDTO, before: JobPostingDTO, id: nat, at: Moment)
    ensures var row := Lookup(Sight(p, t, job, id, at).postings, job.Key());
      && Leaves(p, t.keywords, job, row)
      && (Leaves(p, t.keywords, before, Lookup(t.postings, job.Key())) ==>
            && (Follows(p, t.keywords, before, job) <==> !IsNew(p, t, job) && !IsUpdated(p, t, job))
            && (Follows(p, t.keywords, before, job) && Follows(p, t.keywords, job, before) ==>
                  SameHistory(Lookup(t.postings, job.Key()), row)))
  {
    SightRows(p, t, job, id, at);
    hide Judge, Sight, Changes;
  }

  /** A sighting that agrees with what is stored changes no history of any row. */
  lemma AgreeingSighting(p: Platform, t: JobTables, job: JobPostingDTO, before: JobPostingDTO, id: nat, at: Moment, key: PostingKey)
    requires Leaves(p, t.keywords, before, Lookup(t.postings, job.Key()))
    requires Follows(p, t.keywords, before, job) && Follows(p, t.keywords, job, before)
    ensures SameHistory(Lookup(t.postings, key), Lookup(Sight(p, t, job, id, at).postings, key))
  {
    hide Leaves, Follows, Sight;
    OneSighting(p, t, job, before, id, at);
    SightRows(p, t, job, id, at);
  }

  lemma BothFollow(p: Platform, keywords: seq<Keyword>, jobs: seq<JobPostingDTO>, i: nat, j: nat)
    requires Consistent(p, keywords, jobs) && i < |jobs| && j < |jobs| && jobs[i].Key() == jobs[j].Key()
    ensures Follows(p, keywords, jobs[i], jobs[j]) && Follows(p, keywords, jobs[j], jobs[i])
  {
    hide Follows;
  }

  lemma SameAsItself(row: Option<JobPosting>)
    ensures SameHistory(row, row)
  {
  }

  lemma Transitive(a: Option<JobPosting>, b: Option<JobPosting>, c: Option<JobPosting>)
    requires SameHistory(a, b) && SameHistory(b, c)
    ensures SameHistory(a, c)
  {
  }

  lemma {:induction false} AfterBatch(p: Platform, t: JobTables, jobs: seq<JobPostingDTO>, ids: seq<nat>, key: PostingKey, at: Moment)
    requires Shows(jobs, key)
    ensures Leaves(p, t.keywords, jobs[LastOf(jobs, key)], Lookup(SightAll(p, t, jobs, ids, at).tables.postings, key))
    decreases |jobs|
  {
    hide Keeps, Sight, IsNew, IsUpdated, Leaves;
    var n := |jobs| - 1;
    var mid := SightAll(p, t, jobs[..n], ids, at).tables;
    SightAllKeepsKeywords(p, t, jobs[..n], ids, at);
    SightRows(p, mid, jobs[n], IdAt(ids, n), at);
    if jobs[n].Key() == key {
      OneSighting(p, mid, jobs[n], jobs[n], IdAt(ids, n), at);
    } else {
      var i :| 0 <= i < |jobs| && jobs[i].Key() == key;
      assert jobs[..n][i].Key() == key;
      AfterBatch(p, t, jobs[..n], ids, key, at);
    }
  }

  /** Tables that agree with those after the batch on what the batch shows. */
  ghost predicate LikeAfter(p: Platform, t: JobTables, jobs: seq<JobPostingDTO>, ids: seq<nat>, at: Moment, first: JobTables) {
    && first.keywords == t.keywords
    && forall key :: Shows(jobs, key) ==> Lookup(first.postings, key) == Lookup(SightAll(p, t, jobs, ids, at).tables.postings, key)
  }

  /** The row that the second pass finds at its n-th job. */
  lemma FoundAgain(p: Platform, t: JobTables, jobs: seq<JobPostingDTO>, ids: seq<nat>, at: Moment, first: JobTables, more: seq<nat>,
                   later: Moment, n: nat)
    requires LikeAfter(p, t, jobs, ids, at, first) && n < |jobs|
    ensures SightAll(p, first, jobs[..n], more, later).tables.keywords == t.keywords
    ensures Leaves(p, t.keywords, jobs[Before(jobs, n)], Lookup(SightAll(p, first, jobs[..n], more, later).tables.postings, jobs[n].Key()))
  {
    hide SightAll, Leaves, LastOf;
    var key := jobs[n].Key();
    SightAllFrame(p, first, jobs[..n], more, later);
    assert Shows(jobs, key);
    if Shows(jobs[..n], key) {
      AfterBatch(p, first, jobs[..n], more, key, later);
    } else {
      AfterBatch(p, t, jobs, ids, key, at);
    }
  }

  lemma {:induction false} SecondPassCounts(p: Platform, t: JobTables, jobs: seq<JobPostingDTO>, ids: seq<nat>, at: Moment, first: JobTables,
                                            more: seq<nat>, later: Moment, n: nat)
    requires LikeAfter(p, t, jobs, ids, at, first) && n <= |jobs|
    ensures var pass := SightAll(p, first, jobs[..n], more, later);
            pass.itemsNew == 0 && pass.itemsUpdated == 0
            <==> forall m: nat :: m < n ==> Follows(p, t.keywords, jobs[Before(jobs, m)], jobs[m])
    decreases n
  {
    hide LikeAfter, Follows, Before, IsNew, IsUpdated, Sight;
    if n > 0 {
      assert jobs[..n][..n - 1] == jobs[..n - 1];
      SecondPassCounts(p, t, jobs, ids, at, first, more, later, n - 1);
      FoundAgain(p, t, jobs, ids, at, first, more, later, n - 1);
      OneSighting(p, SightAll(p, first, jobs[..n - 1], more, later).tables, jobs[n - 1], jobs[Before(jobs, n - 1)], IdAt(more, n - 1), later);
    }
  }

  lemma {:induction false} SecondPassKeepsHistory(p: Platform, t: JobTables, jobs: seq<JobPostingDTO>, ids: seq<nat>, at: Moment, first: JobTables,
                                                  more: seq<nat>, later: Moment, n: nat, key: PostingKey)
    requires LikeAfter(p, t, jobs, ids, at, first) && n <= |jobs| && Consistent(p, t.keywords, jobs)
    ensures SameHistory(Lookup(first.postings, key), Lookup(SightAll(p, first, jobs[..n], more, later).tables.postings, key))
    decreases n
  {
    hide LikeAfter, Follows, Consistent, Before, IsNew, IsUpdated, Sight, SameHistory;
    var start := Lookup(first.postings, key);
    if n == 0 {
      SameAsItself(start);
    } else {
      var job, before := jobs[n - 1], jobs[Before(jobs, n - 1)];
      BothFollow(p, t.keywords, jobs, Before(jobs, n - 1), n - 1);
      assert jobs[..n][..n - 1] == jobs[..n - 1];
      var mid := SightAll(p, first, jobs[..n - 1], more, later).tables;
      SecondPassKeepsHistory(p, t, jobs, ids, at, first, more, later, n - 1, key);
      FoundAgain(p, t, jobs, ids, at, first, more, later, n - 1);
      AgreeingSighting(p, mid, job, before, IdAt(more, n - 1), later, key);
      Transitive(start, Lookup(mid.postings, key), Lookup(Sight(p, mid, job, IdAt(more, n - 1), later).postings, key));
    }
  }

  // ---- main results ---------------------------------------------------------------------------

  lemma FirstIsLikeAfter(p: Platform, t: JobTables, sourceId: nat, jobs: seq<JobPostingDTO>, ids: seq<nat>, complete: bool, at: Moment)
    requires OfSource(jobs, sourceId)
    ensures LikeAfter(p, t, jobs, ids, at, CollectJobs(p, t, sourceId, jobs, ids, complete, at).jobs)
  {
    CollectKeepsKeywords(p, t, sourceId, jobs, ids, complete, at);
    hide SightAll, AfterMisses, NewlyClosed;
    forall key | Shows(jobs, key)
      ensures Lookup(CollectJobs(p, t, sourceId, jobs, ids, complete, at).jobs.postings, key)
              == Lookup(SightAll(p, t, jobs, ids, at).tables.postings, key)
    {
      MissesByRow(SightAll(p, t, jobs, ids, at).tables, jobs, sourceId, at.now, key);
    }
  }

  lemma SecondPass(p: Platform, t: JobTables, sourceId: nat, jobs: seq<JobPostingDTO>, ids: seq<nat>, at: Moment, first: JobTables,
                   more: seq<nat>, again: bool, later: Moment, second: Collected)
    requires OfSource(jobs, sourceId) && LikeAfter(p, t, jobs, ids, at, first)
    requires second == CollectJobs(p, first, sourceId, jobs, more, again, later)
    ensures second.result.itemsNew == 0 && second.result.itemsUpdated == 0 <==> Consistent(p, t.keywords, jobs)
    ensures Consistent(p, t.keywords, jobs) ==>
              forall key :: SameHistory(Lookup(first.postings, key), Lookup(second.jobs.postings, key))
  {
    hide SightAll, Consistent, AfterMisses, NewlyClosed, Follows, Before, LikeAfter, SameHistory;
    assert jobs[..|jobs|] == jobs;
    SecondPassCounts(p, t, jobs, ids, at, first, more, later, |jobs|);
    NeighboursAgree(p, t.keywords, jobs);
    if Consistent(p, t.keywords, jobs) {
      forall key ensures SameHistory(Lookup(first.postings, key), Lookup(second.jobs.postings, key)) {
        SecondHistory(p, t, sourceId, jobs, ids, at, first, more, again, later, key);
      }
    }
  }

  lemma SecondHistory(p: Platform, t: JobTables, sourceId: nat, jobs: seq<JobPostingDTO>, ids: seq<nat>, at: Moment, first: JobTables,
                      more: seq<nat>, again: bool, later: Moment, key: PostingKey)
    requires OfSource(jobs, sourceId) && LikeAfter(p, t, jobs, ids, at, first) && Consistent(p, t.keywords, jobs)
    ensures SameHistory(Lookup(first.postings, key),
                        Lookup(CollectJobs(p, first, sourceId, jobs, more, again, later).jobs.postings, key))
  {
    FirstIsLikeAfter(p, first, sourceId, jobs, more, again, later);
    UnseenRows(p, first, sourceId, jobs, more, again, later);
    hide SightAll, Consistent, CollectJobs;
    assert jobs[..|jobs|] == jobs;
    if Shows(jobs, key) {
      SecondPassKeepsHistory(p, t, jobs, ids, at, first, more, later, |jobs|, key);
    }
  }

  /**
   * Collecting a batch again fails again, or finds nothing new and updates nothing exactly when the
   * jobs it shows under one identity agree: all filtered out, or all kept with one content hash.
   * Then no posting comes or goes and no revision is written.
   */
  lemma CollectTwiceChangesNothing(p: Platform, db: Database, sourceId: nat, raws: seq<RawJob>, complete: bool, again: bool,
                                   at: Moment, later: Moment, first: Collected, jobs: seq<JobPostingDTO>)
    requires CollectOutcome(p, db, sourceId, raws, complete, at) == Ok(first)
    requires Accepted(p, db.jobs.keywords, sourceId, raws) == Ok(jobs)
    ensures var second := CollectOutcome(p, db.(jobs := first.jobs), sourceId, raws, again, later);
      && second.Ok?
      && (second.value.result.itemsNew == 0 && second.value.result.itemsUpdated == 0 <==> Consistent(p, db.jobs.keywords, jobs))
      && (Consistent(p, db.jobs.keywords, jobs) ==>
            forall key :: SameHistory(Lookup(first.jobs.postings, key), Lookup(second.value.jobs.postings, key)))
  {
    hide Accepted, CollectJobs, Consistent, SameHistory, LikeAfter, OfSource, NoClash;
    var t, ids := db.jobs, Drawn(db.jobs.nextPostingId, |jobs|);
    AcceptedMeaning(p, t.keywords, sourceId, raws);
    FirstIsLikeAfter(p, t, sourceId, jobs, ids, complete, at);
    var bare := CollectJobs(p, t, sourceId, jobs, ids, complete, at).jobs;
    CollectKeepsKeywords(p, t, sourceId, jobs, ids, complete, at);
    SequenceIsNoMatter(p, t, jobs, ids, at, bare, first.jobs.nextPostingId);
    var more := Drawn(first.jobs.nextPostingId, |jobs|);
    SecondPass(p, t, sourceId, jobs, ids, at, first.jobs, more, again, later, CollectJobs(p, first.jobs, sourceId, jobs, more, again, later));
  }

  lemma SequenceIsNoMatter(p: Platform, t: JobTables, jobs: seq<JobPostingDTO>, ids: seq<nat>, at: Moment, first: JobTables, next: nat)
    requires LikeAfter(p, t, jobs, ids, at, first)
    ensures LikeAfter(p, t, jobs, ids, at, WithNextId(first, next))
  {
    hide SightAll, Shows;
  }

  /** A batch that shows each identity once meets the condition, whatever its keywords, and never clashes. */
  lemma DistinctIsConsistent(p: Platform, keywords: seq<Keyword>, jobs: seq<JobPostingDTO>)
    requires DistinctKeys(jobs)
    ensures Consistent(p, keywords, jobs) && NoClash(p, keywords, jobs)
  {
    hide Keeps, Clashes;
    forall i: nat | i < |jobs| ensures !Clashes(p, keywords, jobs[..i], jobs[i]) {
      ApartNeverClash(p, keywords, jobs, i);
    }
  }

  /** Otherwise not: two jobs of one identity, the first kept and the second not, are new every time. */
  lemma RepeatedIdentityIsNewAgain(p: Platform, db: Database, sourceId: nat, raws: seq<RawJob>, kept: JobPostingDTO, dropped: JobPostingDTO,
                                   complete: bool, again: bool, at: Moment, later: Moment)
    requires sourceId in db.sources && NormalizesTo(p, sourceId, raws, [kept, dropped]) && kept.Key() == dropped.Key()
    requires Keeps(p, db.jobs.keywords, kept) && !Keeps(p, db.jobs.keywords, dropped)
    ensures var first := CollectOutcome(p, db, sourceId, raws, complete, at);
      && first.Ok? && kept.Key() !in first.value.jobs.postings
      && var second := CollectOutcome(p, db.(jobs := first.value.jobs), sourceId, raws, again, later);
         second.Ok? && second.value.result.itemsNew == 1
  {
    var jobs := [kept, dropped];
    KeptThenDroppedIsAccepted(p, db.jobs.keywords, sourceId, raws, kept, dropped);
    AcceptedMeaning(p, db.jobs.keywords, sourceId, raws);
    hide Accepted, SightAll, AfterMisses, NewlyClosed, LastOf, Keeps, NormalizesTo, NoClash;
    var t, ids := db.jobs, Drawn(db.jobs.nextPostingId, 2);
    assert jobs[1] == dropped && Shows(jobs, kept.Key());
    FirstIsLikeAfter(p, t, sourceId, jobs, ids, complete, at);
    AfterBatch(p, t, jobs, ids, kept.Key(), at);
    CollectKeepsKeywords(p, t, sourceId, jobs, ids, complete, at);
    var first := CollectOutcome(p, db, sourceId, raws, complete, at).value.jobs;
    PassOverTwo(p, first, Drawn(first.nextPostingId, 2), kept, dropped, later);
  }

  lemma KeptThenDroppedIsAccepted(p: Platform, keywords: seq<Keyword>, sourceId: nat, raws: seq<RawJob>, kept: JobPostingDTO, dropped: JobPostingDTO)
    requires NormalizesTo(p, sourceId, raws, [kept, dropped]) && Keeps(p, keywords, kept)
    ensures Accepted(p, keywords, sourceId, raws) == Ok([kept, dropped])
  {
    hide Keeps, NormalizesTo;
    assert [kept, dropped][..1] == [kept];
    AcceptedIfSound(p, keywords, sourceId, raws, [kept, dropped]);
  }

  lemma PassOverTwo(p: Platform, t: JobTables, ids: seq<nat>, kept: JobPostingDTO, dropped: JobPostingDTO, at: Moment)
    requires kept.Key() == dropped.Key() && kept.Key() !in t.postings
    requires Keeps(p, t.keywords, kept) && !Keeps(p, t.keywords, dropped)
    ensures SightAll(p, t, [kept, dropped], ids, at).itemsNew == 1
  {
    hide Judge, Sight;
    assert [kept, dropped][..1] == [kept] && [kept][..0] == [];
    SightAllFrame(p, t, [kept], ids, at);
    assert SightAll(p, t, [kept], ids, at).itemsNew == 1;
    assert !IsNew(p, SightAll(p, t, [kept], ids, at).tables, dropped);
  }
}
