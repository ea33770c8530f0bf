/**
 * Over every history the revisions of a posting tell every change of its tracked fields: walking back
 * from what the row stores, each revision's new value is the one found there and its old value is
 * what the revisions before it lead to.
 */
module AuditTrail {
  import opened Prelude
  import opened Schema
  import opened Collector
  import opened CollectorTheorems
  import opened Retention
  import opened RetentionTheorems
  import opened History
  import N = Normalizer
  import NT = NormalizerTheorems

  // ---- walking back ---------------------------------------------------------------------------

  /**
   * A recorded value and the one found there. The hash looks at the head of a description only, and
   * retention blanks descriptions; everything else is told exactly.
   */
  ghost predicate Alike(field: string, recorded: FieldValue, found: FieldValue) {
    || recorded == found
    || (&& field == "description" && found.Text? && recorded.Text?
        && (found.text.None? || (recorded.text.Some? && N.Head(recorded.text.value) == N.Head(found.text.value))))
  }

  ghost predicate Trail(revisions: seq<Revision>, field: string, found: FieldValue) {
    if revisions == [] then true
    else
      var init, last := revisions[..|revisions| - 1], revisions[|revisions| - 1];
      if field in last.changedFields then
        var change := last.changedFields[field];
        Alike(field, change.after, found) && change.before != change.after && Trail(init, field, change.before)
      else Trail(init, field, found)
  }

  /** The description that the row's hash was computed from; retention may have blanked it since. */
  ghost predicate Hides(p: Platform, row: JobPosting, description: Option<string>) {
    && description != Some("")
    && (row.description == description || row.description == None)
    && row.contentHash == N.ContentHash(p, row.title, row.deadlineAt, description)
    && Trail(row.revisions, "description", Text(description))
  }

  ghost predicate TrailOk(p: Platform, row: JobPosting) {
    && N.UNIT_SEPARATOR !in row.title
    && Trail(row.revisions, "title", Text(Some(row.title)))
    && Trail(row.revisions, "deadline_at", Time(row.deadlineAt))
    && exists description :: Hides(p, row, description)
  }

  function Digest(p: Platform, s: string): string {
    p.sha256(s)
  }

  /** SHA-256 without collisions. */
  ghost predicate NoCollision(p: Platform) {
    forall a, b :: Digest(p, a) == Digest(p, b) ==> a == b
  }

  // ---- what moves along a trail ---------------------------------------------------------------

  lemma {:induction false} TrailBlanked(revisions: seq<Revision>, description: Option<string>)
    requires Trail(revisions, "description", Text(description))
    ensures Trail(revisions, "description", Text(None))
    decreases |revisions|
  {
    if revisions != [] {
      var init, last := revisions[..|revisions| - 1], revisions[|revisions| - 1];
      if "description" !in last.changedFields {
        TrailBlanked(init, description);
      }
    }
  }

  lemma {:induction false} TrailSameHead(revisions: seq<Revision>, a: Option<string>, b: Option<string>)
    requires Trail(revisions, "description", Text(a))
    requires a.Some? == b.Some? && (a.Some? ==> N.Head(a.value) == N.Head(b.value))
    ensures Trail(revisions, "description", Text(b))
    decreases |revisions|
  {
    hide N.Head;
    if revisions != [] {
      var init, last := revisions[..|revisions| - 1], revisions[|revisions| - 1];
      if "description" !in last.changedFields {
        TrailSameHead(init, a, b);
      }
    }
  }

  lemma {:induction false} TrailOfSuffix(revisions: seq<Revision>, cut: nat, field: string, found: FieldValue)
    requires Trail(revisions, field, found) && cut <= |revisions|
    ensures Trail(revisions[cut..], field, found)
    decreases |revisions|
  {
    hide Alike;
    if cut < |revisions| {
      var init, last := revisions[..|revisions| - 1], revisions[|revisions| - 1];
      assert revisions[cut..][..|revisions| - cut - 1] == init[cut..];
      TrailOfSuffix(init, cut, field, if field in last.changedFields then last.changedFields[field].before else found);
    }
  }

  /** One more revision leads from the old value to the new one. */
  lemma TrailGrows(revisions: seq<Revision>, last: Revision, field: string, before: FieldValue, after: FieldValue)
    requires Trail(revisions, field, before)
    requires field in last.changedFields <==> before != after
    requires field in last.changedFields ==> last.changedFields[field] == Change(before, after)
    ensures Trail(revisions + [last], field, after)
  {
    hide Alike;
    assert (revisions + [last])[..|revisions|] == revisions;
    assert Alike(field, after, after) by { ItselfAlike(field, after); }
  }

  lemma ItselfAlike(field: string, value: FieldValue)
    ensures Alike(field, value, value)
  {
  }

  // ---- one row --------------------------------------------------------------------------------

  /** Equal hashes mean equal titles and deadlines, and descriptions with equal heads. */
  lemma SameHashSameFields(p: Platform, title: string, deadline: Option<Instant>, a: Option<string>, job: JobPostingDTO)
    requires NT.Sane(p) && NoCollision(p) && NT.Canonical(p, job)
    requires N.UNIT_SEPARATOR !in title && a != Some("")
    requires N.ContentHash(p, title, deadline, a) == job.contentHash
    ensures title == job.title && deadline == job.deadlineAt
    ensures a.Some? == job.description.Some? && (a.Some? ==> N.Head(a.value) == N.Head(job.description.value))
  {
    var x, y := N.ContentParts(p, title, deadline, a), N.ContentParts(p, job.title, job.deadlineAt, job.description);
    assert Digest(p, N.Join(x)) == Digest(p, N.Join(y));
    hide N.Join;
    SeparatedParts(p, title, deadline, a);
    SeparatedParts(p, job.title, job.deadlineAt, job.description);
    NT.JoinIsUnambiguous(x, y);
    assert x[0] == y[0] && x[1] == y[1] && x[2] == y[2];
  }

  lemma SeparatedParts(p: Platform, title: string, deadline: Option<Instant>, description: Option<string>)
    requires NT.Sane(p) && N.UNIT_SEPARATOR !in title
    ensures var x := N.ContentParts(p, title, deadline, description);
      |x| == 3 && N.UNIT_SEPARATOR !in x[0] && N.UNIT_SEPARATOR !in x[1]
  {
    hide N.Head;
  }

  lemma SightingKeepsTrail(p: Platform, keywords: seq<Keyword>, known: Option<JobPosting>, job: JobPostingDTO, id: nat, at: Moment, row: JobPosting)
    requires NT.Sane(p) && NoCollision(p) && NT.Canonical(p, job)
    requires known.Some? ==> TrailOk(p, known.value)
    requires JobRow(p, keywords, known, job, id, at) == Some(row)
    ensures TrailOk(p, row)
  {
    JobRowMeaning(p, keywords, known, job, id, at, row);
    hide JobRow, Trail, N.ContentHash, N.Head;
    CanonicalHash(p, job);
    if known.None? {
      assert Trail([], "description", Text(job.description)) && Trail([], "title", Text(Some(job.title)))
             && Trail([], "deadline_at", Time(job.deadlineAt)) by { EmptyTrails(job); }
      assert Hides(p, row, job.description);
    } else {
      var description :| Hides(p, known.value, description);
      if known.value.contentHash == job.contentHash {
        SameHashSameFields(p, known.value.title, known.value.deadlineAt, description, job);
        TrailSameHead(row.revisions, description, job.description);
        assert Hides(p, row, job.description);
      } else {
        RevisedTrail(p, known.value, description, job, row);
        assert Hides(p, row, job.description);
      }
    }
  }

  lemma CanonicalHash(p: Platform, job: JobPostingDTO)
    requires NT.Canonical(p, job)
    ensures job.contentHash == N.ContentHash(p, job.title, job.deadlineAt, job.description)
    ensures job.description != Some("") && N.UNIT_SEPARATOR !in job.title
  {
  }

  lemma EmptyTrails(job: JobPostingDTO)
    ensures Trail([], "description", Text(job.description)) && Trail([], "title", Text(Some(job.title)))
            && Trail([], "deadline_at", Time(job.deadlineAt))
  {
  }

  lemma RevisedTrail(p: Platform, known: JobPosting, description: Option<string>, job: JobPostingDTO, row: JobPosting)
    requires TrailOk(p, known) && Hides(p, known, description)
    requires |row.revisions| == |known.revisions| + 1 && known.revisions == row.revisions[..|known.revisions|]
    requires Tells(row.revisions[|known.revisions|].changedFields, known, job)
    ensures Trail(row.revisions, "title", Text(Some(job.title))) && Trail(row.revisions, "deadline_at", Time(job.deadlineAt))
    ensures Trail(row.revisions, "description", Text(job.description))
  {
    hide Trail, N.ContentHash, Alike;
    var last := row.revisions[|known.revisions|];
    assert row.revisions == known.revisions + [last];
    TrailBlanked(known.revisions, description);
    TrailGrows(known.revisions, last, "title", Text(Some(known.title)), Text(Some(job.title)));
    TrailGrows(known.revisions, last, "deadline_at", Time(known.deadlineAt), Time(job.deadlineAt));
    TrailGrows(known.revisions, last, "description", Text(known.description), Text(job.description));
  }

  lemma {:induction false} BatchKeepsTrail(p: Platform, keywords: seq<Keyword>, known: Option<JobPosting>, key: PostingKey,
                                           jobs: seq<JobPostingDTO>, ids: seq<nat>, at: Moment)
    requires NT.Sane(p) && NoCollision(p) && forall i :: 0 <= i < |jobs| ==> NT.Canonical(p, jobs[i])
    requires known.Some? ==> TrailOk(p, known.value)
    ensures var row := RowAfter(p, keywords, known, key, jobs, ids, at); row.Some? ==> TrailOk(p, row.value)
    decreases |jobs|
  {
    hide JobRow, TrailOk, NT.Canonical, NT.Sane, NoCollision;
    if jobs != [] {
      var n := |jobs| - 1;
      BatchKeepsTrail(p, keywords, known, key, jobs[..n], ids, at);
      var before := RowAfter(p, keywords, known, key, jobs[..n], ids, at);
      if jobs[n].Key() == key && JobRow(p, keywords, before, jobs[n], IdAt(ids, n), at).Some? {
        SightingKeepsTrail(p, keywords, before, jobs[n], IdAt(ids, n), at, JobRow(p, keywords, before, jobs[n], IdAt(ids, n), at).value);
      }
    }
  }

  lemma RetentionKeepsTrail(p: Platform, row: JobPosting, now: Instant)
    requires TrailOk(p, row) && InTimeOrder(row.revisions) && RetainedRow(row, now).Some?
    ensures TrailOk(p, RetainedRow(row, now).value)
  {
    var after := RetainedRow(row, now).value;
    var cutoff := now - REVISION_DAYS * DAY;
    KeepsSuffix(row.revisions, cutoff);
    hide Trail, KeepRevisions, DeadlineExpiryCutoff, N.ContentHash, InTimeOrder;
    var cut: nat := |row.revisions| - |KeepRevisions(row.revisions, cutoff)|;
    TrailOfSuffix(row.revisions, cut, "title", Text(Some(row.title)));
    TrailOfSuffix(row.revisions, cut, "deadline_at", Time(row.deadlineAt));
    var description :| Hides(p, row, description);
    TrailOfSuffix(row.revisions, cut, "description", Text(description));
    assert Hides(p, after, description);
  }

  /** A miss, or an edit of the keywords, touches nothing that a trail is about. */
  lemma SameTrail(p: Platform, row: JobPosting, after: JobPosting)
    requires TrailOk(p, row)
    requires after.title == row.title && after.deadlineAt == row.deadlineAt && after.description == row.description
    requires after.contentHash == row.contentHash && after.revisions == row.revisions
    ensures TrailOk(p, after)
  {
    hide Trail, N.ContentHash;
    var description :| Hides(p, row, description);
    assert Hides(p, after, description);
  }

  // ---- every history --------------------------------------------------------------------------

  lemma JobsAreCanonical(p: Platform, keywords: seq<Keyword>, sourceId: nat, raws: seq<RawJob>)
    requires NT.Sane(p) && Accepted(p, keywords, sourceId, raws).Ok?
    ensures forall i :: 0 <= i < |Accepted(p, keywords, sourceId, raws).value| ==> NT.Canonical(p, Accepted(p, keywords, sourceId, raws).value[i])
  {
    AcceptedMeaning(p, keywords, sourceId, raws);
    hide Accepted, NT.Canonical, N.Normalize, NT.Sane, NoClash, OfSource;
    var jobs := Accepted(p, keywords, sourceId, raws).value;
    forall i | 0 <= i < |jobs| ensures NT.Canonical(p, jobs[i]) {
      NT.NormalizeIsCanonical(p, sourceId, raws[i], jobs[i]);
    }
  }

  lemma StepKeepsTrail(p: Platform, sources: map<nat, Source>, keywords: seq<Keyword>, e: Event, key: PostingKey, known: Option<JobPosting>)
    requires NT.Sane(p) && NoCollision(p)
    requires known.Some? ==> TrailOk(p, known.value) && InTimeOrder(known.value.revisions)
    ensures var row := RowNext(p, sources, keywords, e, key, known); row.Some? ==> TrailOk(p, row.value)
  {
    hide TrailOk, Accepted, RowAfter, UnseenRow, RetainedRow, KeepMatches, InTimeOrder, NT.Canonical, NT.Sane, NoCollision;
    match e
    case Collection(sourceId, raws, complete, at, ids, _) =>
      if jobs :| Applied(p, sources, keywords, e) == Some(jobs) {
        JobsAreCanonical(p, keywords, sourceId, raws);
        BatchKeepsTrail(p, keywords, known, key, jobs, ids, at);
        UnseenIsKnown(known, key.sourceId == sourceId, complete, at.now);
        if known.Some? {
          MissKeepsTrail(p, known.value, key.sourceId == sourceId, complete, at.now);
        }
      }
    case RetentionRun(now) =>
      if known.Some? && RetainedRow(known.value, now).Some? {
        RetentionKeepsTrail(p, known.value, now);
      }
    case Dispatching(_, _, _, _) =>
    case KeywordsEdited(ks, _) =>
      if known.Some? {
        SameTrail(p, known.value, Reworded(known.value, ks));
      }
  }

  lemma MissKeepsTrail(p: Platform, row: JobPosting, ofSource: bool, complete: bool, at: Instant)
    requires TrailOk(p, row)
    ensures UnseenRow(Some(row), ofSource, complete, at).Some? && TrailOk(p, UnseenRow(Some(row), ofSource, complete, at).value)
  {
    hide TrailOk;
    SameTrail(p, row, UnseenRow(Some(row), ofSource, complete, at).value);
  }

  lemma {:induction false} ReachableTrails(p: Platform, w: World, events: seq<Event>, key: PostingKey)
    requires NT.Sane(p) && NoCollision(p) && Fresh(w) && Schedule(p, w, events)
    ensures var row := Lookup(Run(p, w, events).db.jobs.postings, key); row.Some? ==> TrailOk(p, row.value)
    decreases |events|
  {
    hide TrailOk, Tables, Messages, Possible, RowNext, NT.Sane, NoCollision;
    if events != [] {
      var init := events[..|events| - 1];
      var before := Run(p, w, init).db;
      ReachableTrails(p, w, init, key);
      OrderedRevisions(p, w, init, key);
      RowsStepAlone(p, before, events[|events| - 1], key);
      StepKeepsTrail(p, before.sources, before.jobs.keywords, events[|events| - 1], key, Lookup(before.jobs.postings, key));
    }
  }

  lemma OrderedRevisions(p: Platform, w: World, events: seq<Event>, key: PostingKey)
    requires Fresh(w) && Schedule(p, w, events)
    ensures var row := Lookup(Run(p, w, events).db.jobs.postings, key); row.Some? ==> InTimeOrder(row.value.revisions)
  {
    hide Schedule, Fresh, Run, HashChain, HashIsCurrent, HasBody, InTimeOrder;
    if key in Run(p, w, events).db.jobs.postings {
      RevisionsFormHashChain(p, w, events, key, Run(p, w, events));
    }
  }

  /**
   * In every history, walking back through the revisions of a stored posting from the fields it
   * stores, every recorded new value is the one found there: title and deadline exactly, the
   * description up to what the hash looks at and what retention has blanked. A field without an
   * entry has not changed.
   */
  lemma RevisionsTellEveryChange(p: Platform, w: World, events: seq<Event>, key: PostingKey, after: World)
    requires NT.Sane(p) && NoCollision(p) && Fresh(w) && Schedule(p, w, events)
    requires after == Run(p, w, events) && key in after.db.jobs.postings
    ensures var row := after.db.jobs.postings[key];
      && Trail(row.revisions, "title", Text(Some(row.title)))
      && Trail(row.revisions, "deadline_at", Time(row.deadlineAt))
      && Trail(row.revisions, "description", Text(row.description))
  {
    ReachableTrails(p, w, events, key);
    hide Run, Trail, NT.Sane, NoCollision, Schedule, Fresh, N.ContentHash;
    var row := after.db.jobs.postings[key];
    var description :| Hides(p, row, description);
    TrailBlanked(row.revisions, description);
  }
}
