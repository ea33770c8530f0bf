/** app/services/crawl_runner.py and crawl_health.py: one crawl of one source under its lock. */
module CrawlRunner {
  import opened Prelude
  import opened Schema
  import opened Locks
  import opened Collector

  // ---- crawl_health.py ------------------------------------------------------------------------

  predicate IsCollectionDrop(previous: Option<nat>, current: nat, ratio: real) {
    && previous.Some? && previous.value > 0 && current < previous.value
    && (previous.value - current) as real >= previous.value as real * ratio
  }

  /**
   * The rule as an operator reads it: a whole crawl falls short when there is a positive baseline
   * and at most the share 1 - ratio of it is left. Without a baseline, or with none to lose,
   * nothing falls short.
   */
  ghost predicate FallsShort(crawl: CrawlResult, baseline: Option<nat>, ratio: real) {
    || crawl.partial
    || (&& baseline.Some? && baseline.value > 0 && |crawl.items| < baseline.value
        && |crawl.items| as real <= baseline.value as real * (1.0 - ratio))
  }

  lemma PartialMeansShort(policy: Policy, crawl: CrawlResult, baseline: Option<nat>)
    ensures IsPartial(policy, crawl, baseline) <==> FallsShort(crawl, baseline, policy.dropRatio)
  {
    if baseline.Some? {
      var b := baseline.value as real;
      assert b * (1.0 - policy.dropRatio) == b - b * policy.dropRatio;
    }
  }

  // ---- queries --------------------------------------------------------------------------------

  predicate IsSuccessOf(runs: map<nat, CrawlRun>, sourceId: nat, id: nat) {
    id in runs && runs[id].sourceId == sourceId && runs[id].status.Success?
  }

  /** Later start first, then higher id. */
  predicate NotLater(runs: map<nat, CrawlRun>, a: nat, b: nat)
    requires a in runs && b in runs
  {
    runs[a].startedAt < runs[b].startedAt || (runs[a].startedAt == runs[b].startedAt && a <= b)
  }

  /** The most recently started successful run among those with an id below a bound. */
  function LatestSuccess(runs: map<nat, CrawlRun>, sourceId: nat, below: nat): (latest: Option<nat>)
    ensures latest.Some? ==> latest.value < below && IsSuccessOf(runs, sourceId, latest.value)
    ensures forall id: nat :: id < below && IsSuccessOf(runs, sourceId, id) ==> latest.Some? && NotLater(runs, id, latest.value)
  {
    if below == 0 then None
    else
      var best := LatestSuccess(runs, sourceId, below - 1);
      var id := below - 1;
      if IsSuccessOf(runs, sourceId, id) && (best.None? || runs[best.value].startedAt <= runs[id].startedAt)
      then Some(id) else best
  }

  function LatestSuccessfulItems(db: Database, sourceId: nat): Option<nat> {
    match LatestSuccess(db.runs, sourceId, db.nextRunId)
    case None => None
    case Some(id) => Some(db.runs[id].itemsFetched)
  }

  // ---- transactions ---------------------------------------------------------------------------

  datatype CrawlResult = CrawlResult(items: seq<RawJob>, partial: bool)

  datatype RunnerError = SourceNotFound | RunMissing | CollectFailed(reason: CollectError) | CrawlRaised | DatabaseFault

  datatype Policy = Policy(failureThreshold: nat, dropRatio: real)

  function NewRun(sourceId: nat, trigger: CrawlTrigger, status: CrawlStatus, at: Instant): CrawlRun {
    CrawlRun(sourceId, trigger, status, at, 0, 0, 0)
  }

  function WithRun(db: Database, run: CrawlRun): Database {
    db.(runs := db.runs[db.nextRunId := run], nextRunId := db.nextRunId + 1)
  }

  predicate IsPartial(policy: Policy, crawl: CrawlResult, baseline: Option<nat>) {
    crawl.partial || IsCollectionDrop(baseline, |crawl.items|, policy.dropRatio)
  }

  /** The run row and the source counters of a finished crawl, next to its postings. */
  function Recorded(db: Database, sourceId: nat, runId: nat, partial: bool, fetched: nat, itemsNew: nat, itemsUpdated: nat,
                    jobs: JobTables, now: Instant): Database
    requires sourceId in db.sources && runId in db.runs
  {
    var run := db.runs[runId].(status := if partial then Partial else Success,
                               itemsFetched := fetched, itemsNew := itemsNew, itemsUpdated := itemsUpdated);
    var source := if partial then db.sources[sourceId]
                  else db.sources[sourceId].(lastSuccessAt := Some(now), consecutiveFailures := 0);
    db.(jobs := jobs, runs := db.runs[runId := run], sources := db.sources[sourceId := source])
  }

  /** Postings, run row and source counters of a finished crawl, in one transaction. */
  function Finished(p: Platform, policy: Policy, db: Database, sourceId: nat, runId: nat, crawl: CrawlResult,
                    baseline: Option<nat>, at: Moment, now: Instant): Result<Database, RunnerError>
  {
    if sourceId !in db.sources then Err(SourceNotFound)
    else if runId !in db.runs then Err(RunMissing)
    else
      var partial := IsPartial(policy, crawl, baseline);
      match CollectOutcome(p, db, sourceId, crawl.items, !partial, at)
      case Err(reason) => Err(CollectFailed(reason))
      case Ok(collected) =>
        Ok(Recorded(db, sourceId, runId, partial, |crawl.items|, collected.result.itemsNew, collected.result.itemsUpdated,
                    collected.jobs, now))
  }

  /** The failure count that was read, plus one; the breaker opens when that is the threshold. */
  function MarkedFailed(policy: Policy, db: Database, sourceId: nat, runId: nat, seenFailures: nat): Database
    requires sourceId in db.sources && runId in db.runs
  {
    var failures := seenFailures + 1;
    var source := db.sources[sourceId].(consecutiveFailures := failures);
    var tripped := if failures == policy.failureThreshold then source.(isActive := false) else source;
    db.(runs := db.runs[runId := db.runs[runId].(status := FailedRun)], sources := db.sources[sourceId := tripped])
  }

  predicate Trips(policy: Policy, seenFailures: nat) {
    seenFailures + 1 == policy.failureThreshold
  }

  // ---- the service ----------------------------------------------------------------------------

  datatype Execution = Execution(runId: Option<nat>, status: CrawlStatus)

  /** What the world does to one call: the crawl's outcome, and where the database fails. */
  datatype Weather = Weather(
    crawl: Option<CrawlResult>,
    lockReply: Reply, skipFault: bool, startFault: bool, finishFault: bool, failFault: bool, unlockFault: bool,
    startedAt: Instant, at: Moment, finishedAt: Instant)

  class CrawlExecutionService {
    const engine: Engine
    const session: Session
    const collector: CollectorService
    const p: Platform
    const policy: Policy
    var disableAlerts: nat

    ghost predicate Wired() {
      collector.Wired() && collector.session == session && collector.p == p
    }

    /** Between transactions: nothing pending, and the foreign keys hold. */
    ghost predicate Ready()
      reads session
    {
      session.doomed == None && Constrained(session.db.jobs)
    }

    constructor (engine: Engine, session: Session, p: Platform, policy: Policy)
      ensures Wired() && this.engine == engine && this.session == session && this.p == p && this.policy == policy
    {
      var c := new CollectorService(session, p);
      this.engine, this.session, this.collector, this.p, this.policy, this.disableAlerts := engine, session, c, p, policy, 0;
    }

    method StartRun(sourceId: nat, trigger: CrawlTrigger, w: Weather) returns (r: Result<Option<nat>, RunnerError>)
      modifies session`db
      ensures w.startFault ==> r == Err(DatabaseFault)
      ensures !w.startFault && sourceId !in old(session.db.sources) ==> r == Err(SourceNotFound)
      ensures r.Err? <==> w.startFault || sourceId !in old(session.db.sources)
      ensures r.Ok? ==> r.value == if old(session.db.sources)[sourceId].isActive then Some(old(session.db.nextRunId)) else None
      ensures session.db == if r.Ok? && r.value.Some? then WithRun(old(session.db), NewRun(sourceId, trigger, Running, w.startedAt))
                            else old(session.db)
    {
      if w.startFault {
        return Err(DatabaseFault);
      }
      if sourceId !in session.db.sources {
        return Err(SourceNotFound);
      }
      if !session.db.sources[sourceId].isActive {
        return Ok(None);
      }
      var id := session.db.nextRunId;
      session.db := WithRun(session.db, NewRun(sourceId, trigger, Running, w.startedAt));
      r := Ok(Some(id));
    }

    method RecordSkipped(sourceId: nat, trigger: CrawlTrigger, w: Weather) returns (r: Result<Execution, RunnerError>)
      modifies session`db
      ensures if w.skipFault then r == Err(DatabaseFault) else r.Ok?
      ensures session.db == if r.Ok? then WithRun(old(session.db), NewRun(sourceId, trigger, Skipped, w.startedAt)) else old(session.db)
      ensures r.Ok? ==> r.value == Execution(Some(old(session.db.nextRunId)), Skipped)
    {
      if w.skipFault {
        return Err(DatabaseFault);
      }
      var id := session.db.nextRunId;
      session.db := WithRun(session.db, NewRun(sourceId, trigger, Skipped, w.startedAt));
      r := Ok(Execution(Some(id), Skipped));
    }

    /** Commits everything a crawl brought, or nothing but possibly lost ids of the sequence. */
    method FinishRun(sourceId: nat, runId: nat, crawl: CrawlResult, w: Weather) returns (r: Result<Execution, RunnerError>)
      requires Wired() && Ready()
      modifies session
      ensures Ready()
      ensures var baseline := LatestSuccessfulItems(old(session.db), sourceId);
        var outcome := Finished(p, policy, old(session.db), sourceId, runId, crawl, baseline, w.at, w.finishedAt);
        if w.finishFault || outcome.Err?
        then r == Err(if outcome.Err? then outcome.error else DatabaseFault) && SameButIds(old(session.db), session.db)
        else r == Ok(Execution(Some(runId), if FallsShort(crawl, baseline, policy.dropRatio) then Partial else Success))
             && session.db == outcome.value
    {
      hide LatestSuccess, FallsShort;
      var savepoint := session.db;
      if sourceId !in session.db.sources {
        return Err(SourceNotFound);
      }
      if runId !in session.db.runs {
        return Err(RunMissing);
      }
      var baseline := LatestSuccessfulItems(session.db, sourceId);
      var partial := IsPartial(policy, crawl, baseline);
      PartialMeansShort(policy, crawl, baseline);
      var collected := collector.Collect(sourceId, crawl.items, !partial, w.at);
      if collected.Err? {
        return Err(CollectFailed(collected.error));
      }
      if w.finishFault {
        session.db := savepoint.(jobs := savepoint.jobs.(nextPostingId := session.db.jobs.nextPostingId));
        return Err(DatabaseFault);
      }
      var run := session.db.runs[runId].(status := if partial then Partial else Success,
                                         itemsFetched := |crawl.items|,
                                         itemsNew := collected.value.itemsNew,
                                         itemsUpdated := collected.value.itemsUpdated);
      session.db := session.db.(runs := session.db.runs[runId := run]);
      if !partial {
        var source := session.db.sources[sourceId].(lastSuccessAt := Some(w.finishedAt), consecutiveFailures := 0);
        session.db := session.db.(sources := session.db.sources[sourceId := source]);
      }
      assert session.db.sources == Finished(p, policy, savepoint, sourceId, runId, crawl, baseline, w.at, w.finishedAt).value.sources;
      CollectKeepsConstraints(p, savepoint, sourceId, crawl.items, !partial, w.at);
      r := Ok(Execution(Some(runId), run.status));
    }

    method MarkFailed(sourceId: nat, runId: nat, w: Weather) returns (r: Result<Execution, RunnerError>)
      modifies session`db, `disableAlerts
      ensures w.failFault ==> r == Err(DatabaseFault)
      ensures r.Err? <==> w.failFault || sourceId !in old(session.db.sources) || runId !in old(session.db.runs)
      ensures r.Err? ==> session.db == old(session.db) && disableAlerts == old(disableAlerts)
      ensures r.Ok? ==>
        var failures := old(session.db.sources)[sourceId].consecutiveFailures;
        && r.value == Execution(Some(runId), FailedRun)
        && session.db == MarkedFailed(policy, old(session.db), sourceId, runId, failures)
        && disableAlerts == old(disableAlerts) + if Trips(policy, failures) then 1 else 0
    {
      if w.failFault {
        return Err(DatabaseFault);
      }
      if sourceId !in session.db.sources {
        return Err(SourceNotFound);
      }
      if runId !in session.db.runs {
        return Err(RunMissing);
      }
      var failures := session.db.sources[sourceId].consecutiveFailures;
      session.db := MarkedFailed(policy, session.db, sourceId, runId, failures);
      if Trips(policy, failures) {
        disableAlerts := disableAlerts + 1;
      }
      r := Ok(Execution(Some(runId), FailedRun));
    }

    /** Everything between taking the lock and giving it back. */
    method CrawlLocked(sourceId: nat, trigger: CrawlTrigger, w: Weather) returns (r: Result<Execution, RunnerError>)
      requires Wired() && Ready()
      modifies session, `disableAlerts
      ensures Ready()
      ensures RunContract(p, policy, old(session.db), session.db, sourceId, trigger, w, r)
      ensures disableAlerts == old(disableAlerts) + if Disables(p, policy, old(session.db), sourceId, w) then 1 else 0
    {
      ghost var before := session.db;
      hide LatestSuccess, CollectOutcome, RunContract, Disables, Finished, MarkedFailed, FallsShort;
      NothingStarted(p, policy, before, sourceId, trigger, w);
      var started := StartRun(sourceId, trigger, w);
      if started.Err? {
        return Err(started.error);
      }
      if started.value.None? {
        return Ok(Execution(None, Skipped));
      }
      var runId := started.value.value;
      ghost var mid := session.db;
      OutcomeIsBrought(p, policy, before, sourceId, trigger, w);
      if w.crawl.Some? {
        r := FinishRun(sourceId, runId, w.crawl.value, w);
        if r.Ok? {
          FinishedContract(p, policy, before, sourceId, trigger, w, w.crawl.value);
          return;
        }
      }
      FailedContract(p, policy, before, mid, session.db, sourceId, trigger, w);
      r := MarkFailed(sourceId, runId, w);
    }

    /**
     * One call. The connection it used is afterwards either back in the pool without any lock or
     * thrown away, with one exception: when the lock statement raises after it has taken the lock,
     * the connection goes back holding it. No other session's locks are touched.
     */
    method RunSource(sourceId: nat, trigger: CrawlTrigger, w: Weather) returns (r: Result<Execution, RunnerError>)
      requires Wired() && Ready() && Tidy(engine.backend)
      modifies engine, session, `disableAlerts
      ensures var leaked := Leaks(old(session.db), old(engine.backend), engine.lockKey(sourceId), sourceId, w.lockReply);
        && (Tidy(engine.backend) <==> !leaked) && (PoolIsClean(engine.backend) <==> !leaked)
        && (!leaked && !w.unlockFault ==> engine.backend.locks == old(engine.backend).locks && engine.backend.orphans == old(engine.backend).orphans)
        && (leaked ==> r.Err? && session.db == old(session.db))
      ensures forall key <- engine.backend.locks ::
                || (key in old(engine.backend).locks && engine.backend.locks[key] == old(engine.backend).locks[key])
                || (key == engine.lockKey(sourceId) && key !in old(engine.backend).locks)
      ensures forall key <- old(engine.backend).locks :: key in engine.backend.locks && engine.backend.locks[key] == old(engine.backend).locks[key]
      ensures var held := engine.lockKey(sourceId) in old(engine.backend).locks;
        CallContract(p, policy, old(session.db), session.db, sourceId, trigger, w, held, r)
      ensures disableAlerts == old(disableAlerts)
        + if Enters(old(session.db), sourceId, w, engine.lockKey(sourceId) in old(engine.backend).locks)
             && Disables(p, policy, old(session.db), sourceId, w) then 1 else 0
    {
      ghost var before := session.db;
      hide RunContract, Disables, LatestSuccess, CollectOutcome, Brings, FallsShort, Constrained;
      if sourceId !in session.db.sources {
        return Err(SourceNotFound);
      }
      if !session.db.sources[sourceId].isActive {
        return Ok(Execution(None, Skipped));
      }
      ghost var b := engine.backend;
      var conn := engine.Connect();
      var acquired := engine.TryAcquireSourceLock(conn, sourceId, w.lockReply);
      if acquired.None? {
        engine.Close(conn);
        UnusedConnection(b, conn);
        LeakedConnection(b, engine.lockKey(sourceId), conn);
        return Err(DatabaseFault);
      }
      if !acquired.value {
        r := RecordSkipped(sourceId, trigger, w);
        engine.Close(conn);
        UnusedConnection(b, conn);
        return;
      }
      r := CrawlLocked(sourceId, trigger, w);
      ghost var done := r;
      if w.unlockFault {
        engine.Invalidate(conn);
        LostConnection(b, engine.lockKey(sourceId), conn);
        return Err(DatabaseFault);
      }
      engine.ReleaseSourceLock(conn, sourceId);
      RoundTrip(b, engine.lockKey(sourceId), conn);
      engine.Close(conn);
    }
  }

  /** A pool as the service leaves it behind: known, clean, and every lock taken once. */
  ghost predicate Tidy(b: Backend) {
    PoolIsKnown(b) && PoolIsClean(b) && forall key <- b.locks :: b.locks[key].depth == 1
  }

  /** The lock statement of an active source raises, but has taken the free lock. */
  ghost predicate Leaks(db: Database, b: Backend, key: int, sourceId: nat, reply: Reply) {
    sourceId in db.sources && db.sources[sourceId].isActive && reply == Raised(true) && key !in b.locks
  }

  /** Nothing but the id sequence may have moved. */
  ghost predicate SameButIds(before: Database, after: Database) {
    && after == before.(jobs := before.jobs.(nextPostingId := after.jobs.nextPostingId))
    && before.jobs.nextPostingId <= after.jobs.nextPostingId
  }

  /** The crawl came back, and its jobs are accepted and committed. */
  ghost predicate Brings(p: Platform, policy: Policy, before: Database, sourceId: nat, w: Weather) {
    && w.crawl.Some? && !w.finishFault
    && var short := FallsShort(w.crawl.value, LatestSuccessfulItems(before, sourceId), policy.dropRatio);
       CollectOutcome(p, before, sourceId, w.crawl.value.items, !short, w.at).Ok?
  }

  /** A run starts: the source is there and active, and the row was written. */
  ghost predicate Starts(before: Database, sourceId: nat, w: Weather) {
    !w.startFault && sourceId in before.sources && before.sources[sourceId].isActive
  }

  /** The run is marked failed, and it is the failure that opens the breaker. */
  ghost predicate Disables(p: Platform, policy: Policy, before: Database, sourceId: nat, w: Weather) {
    && Starts(before, sourceId, w) && !Brings(p, policy, before, sourceId, w) && !w.failFault
    && before.sources[sourceId].consecutiveFailures + 1 == policy.failureThreshold
  }

  /** What a call that held the lock returns, and what it has done to the database: for every crawl and every fault. */
  ghost predicate RunContract(p: Platform, policy: Policy, before: Database, after: Database, sourceId: nat, trigger: CrawlTrigger,
                              w: Weather, r: Result<Execution, RunnerError>)
  {
    var id := before.nextRunId;
    var run := CrawlRun(sourceId, trigger, Running, w.startedAt, 0, 0, 0);
    if w.startFault then r == Err(DatabaseFault) && after == before
    else if sourceId !in before.sources then r == Err(SourceNotFound) && after == before
    else if !before.sources[sourceId].isActive then r == Ok(Execution(None, Skipped)) && after == before
    else if Brings(p, policy, before, sourceId, w) then
      var crawl, source := w.crawl.value, before.sources[sourceId];
      var short := FallsShort(crawl, LatestSuccessfulItems(before, sourceId), policy.dropRatio);
      var collected := CollectOutcome(p, before, sourceId, crawl.items, !short, w.at).value;
      var status := if short then Partial else Success;
      && r == Ok(Execution(Some(id), status))
      && after == Database(
           if short then before.sources else before.sources[sourceId := Source(true, 0, Some(w.finishedAt))],
           before.runs[id := run.(status := status, itemsFetched := |crawl.items|,
                                  itemsNew := collected.result.itemsNew, itemsUpdated := collected.result.itemsUpdated)],
           id + 1, before.subscriptions, collected.jobs)
    else // nothing of the crawl stays but ids that the sequence gave out
      && before.jobs.nextPostingId <= after.jobs.nextPostingId
      && var jobs := before.jobs.(nextPostingId := after.jobs.nextPostingId);
         if w.failFault then // a row that says RUNNING stays behind
           r == Err(DatabaseFault) && after == Database(before.sources, before.runs[id := run], id + 1, before.subscriptions, jobs)
         else
           var source, failures := before.sources[sourceId], before.sources[sourceId].consecutiveFailures + 1;
           && r == Ok(Execution(Some(id), FailedRun))
           && after == Database(
                before.sources[sourceId := Source(failures != policy.failureThreshold, failures, source.lastSuccessAt)],
                before.runs[id := run.(status := FailedRun)], id + 1, before.subscriptions, jobs)
  }

  /** The lock is asked for, answered and free. */
  ghost predicate Enters(before: Database, sourceId: nat, w: Weather, held: bool) {
    sourceId in before.sources && before.sources[sourceId].isActive && w.lockReply.Answered? && !held
  }

  /** What a whole call returns and does to the database. A failing release hides the result, not the effect. */
  ghost predicate CallContract(p: Platform, policy: Policy, before: Database, after: Database, sourceId: nat, trigger: CrawlTrigger,
                               w: Weather, held: bool, r: Result<Execution, RunnerError>)
  {
    if sourceId !in before.sources then r == Err(SourceNotFound) && after == before
    else if !before.sources[sourceId].isActive then r == Ok(Execution(None, Skipped)) && after == before
    else if w.lockReply.Raised? then r == Err(DatabaseFault) && after == before
    else if held then
      if w.skipFault then r == Err(DatabaseFault) && after == before
      else r == Ok(Execution(Some(before.nextRunId), Skipped))
           && after == before.(runs := before.runs[before.nextRunId := CrawlRun(sourceId, trigger, Skipped, w.startedAt, 0, 0, 0)],
                               nextRunId := before.nextRunId + 1)
    else
      exists done :: RunContract(p, policy, before, after, sourceId, trigger, w, done) && r == if w.unlockFault then Err(DatabaseFault) else done
  }

  lemma NothingStarted(p: Platform, policy: Policy, db: Database, sourceId: nat, trigger: CrawlTrigger, w: Weather)
    ensures w.startFault ==> RunContract(p, policy, db, db, sourceId, trigger, w, Err(DatabaseFault))
    ensures !w.startFault && sourceId !in db.sources ==> RunContract(p, policy, db, db, sourceId, trigger, w, Err(SourceNotFound))
    ensures !w.startFault && sourceId in db.sources && !db.sources[sourceId].isActive ==>
              RunContract(p, policy, db, db, sourceId, trigger, w, Ok(Execution(None, Skipped)))
    ensures !Starts(db, sourceId, w) ==> !Disables(p, policy, db, sourceId, w)
  {
    hide Brings;
  }

  /** The transaction that finishes a run reads the tables next to its own RUNNING row. */
  lemma OutcomeIsBrought(p: Platform, policy: Policy, before: Database, sourceId: nat, trigger: CrawlTrigger, w: Weather)
    requires sourceId in before.sources
    ensures var mid := WithRun(before, NewRun(sourceId, trigger, Running, w.startedAt));
      w.crawl.Some? ==>
        var outcome := Finished(p, policy, mid, sourceId, before.nextRunId, w.crawl.value, LatestSuccessfulItems(mid, sourceId), w.at, w.finishedAt);
        Brings(p, policy, before, sourceId, w) <==> !w.finishFault && outcome.Ok?
    ensures w.crawl.None? ==> !Brings(p, policy, before, sourceId, w)
  {
    hide LatestSuccessfulItems, CollectOutcome, IsPartial, FallsShort, Recorded;
    if w.crawl.Some? {
      var run := NewRun(sourceId, trigger, Running, w.startedAt);
      RunningIsNotBaseline(before, sourceId, run);
      CollectIgnoresRuns(p, before, WithRun(before, run), sourceId, w.crawl.value.items, w.at);
      PartialMeansShort(policy, w.crawl.value, LatestSuccessfulItems(before, sourceId));
    }
  }

  lemma FinishedContract(p: Platform, policy: Policy, before: Database, sourceId: nat, trigger: CrawlTrigger, w: Weather, crawl: CrawlResult)
    requires Starts(before, sourceId, w) && w.crawl == Some(crawl) && !w.finishFault
    ensures var mid := WithRun(before, NewRun(sourceId, trigger, Running, w.startedAt));
      var baseline := LatestSuccessfulItems(mid, sourceId);
      var outcome := Finished(p, policy, mid, sourceId, before.nextRunId, crawl, baseline, w.at, w.finishedAt);
      outcome.Ok? ==>
        && RunContract(p, policy, before, outcome.value, sourceId, trigger, w,
                       Ok(Execution(Some(before.nextRunId), if FallsShort(crawl, baseline, policy.dropRatio) then Partial else Success)))
        && !Disables(p, policy, before, sourceId, w)
  {
    hide LatestSuccessfulItems, CollectOutcome, IsPartial, FallsShort, RunContract, Recorded;
    var run := NewRun(sourceId, trigger, Running, w.startedAt);
    var mid := WithRun(before, run);
    RunningIsNotBaseline(before, sourceId, run);
    CollectIgnoresRuns(p, before, mid, sourceId, crawl.items, w.at);
    var partial := IsPartial(policy, crawl, LatestSuccessfulItems(before, sourceId));
    PartialMeansShort(policy, crawl, LatestSuccessfulItems(before, sourceId));
    if collected :| CollectOutcome(p, before, sourceId, crawl.items, !partial, w.at) == Ok(collected) {
      RecordedContract(p, policy, before, sourceId, trigger, w, crawl, collected);
    }
  }

  lemma RecordedContract(p: Platform, policy: Policy, before: Database, sourceId: nat, trigger: CrawlTrigger, w: Weather, crawl: CrawlResult,
                         collected: Collected)
    requires Starts(before, sourceId, w) && w.crawl == Some(crawl) && !w.finishFault
    requires var partial := FallsShort(crawl, LatestSuccessfulItems(before, sourceId), policy.dropRatio);
      CollectOutcome(p, before, sourceId, crawl.items, !partial, w.at) == Ok(collected)
    ensures var partial := FallsShort(crawl, LatestSuccessfulItems(before, sourceId), policy.dropRatio);
      var after := Recorded(WithRun(before, NewRun(sourceId, trigger, Running, w.startedAt)), sourceId, before.nextRunId, partial,
                            |crawl.items|, collected.result.itemsNew, collected.result.itemsUpdated, collected.jobs, w.finishedAt);
      RunContract(p, policy, before, after, sourceId, trigger, w, Ok(Execution(Some(before.nextRunId), if partial then Partial else Success)))
  {
    hide LatestSuccessfulItems, CollectOutcome, FallsShort;
    var source := before.sources[sourceId];
    assert before.sources[sourceId := source] == before.sources;
  }

  /** A run that is marked failed, or whose mark fails, after nothing but ids may have been lost. */
  lemma FailedContract(p: Platform, policy: Policy, before: Database, mid: Database, now: Database, sourceId: nat, trigger: CrawlTrigger, w: Weather)
    requires Starts(before, sourceId, w) && !Brings(p, policy, before, sourceId, w)
    requires mid == WithRun(before, NewRun(sourceId, trigger, Running, w.startedAt)) && SameButIds(mid, now)
    ensures w.failFault ==> RunContract(p, policy, before, now, sourceId, trigger, w, Err(DatabaseFault))
    ensures !w.failFault ==>
              RunContract(p, policy, before, MarkedFailed(policy, now, sourceId, before.nextRunId, now.sources[sourceId].consecutiveFailures),
                          sourceId, trigger, w, Ok(Execution(Some(before.nextRunId), FailedRun)))
    ensures Disables(p, policy, before, sourceId, w) <==> !w.failFault && Trips(policy, now.sources[sourceId].consecutiveFailures)
    ensures now.sources == before.sources
  {
    hide Brings;
  }

  lemma CollectKeepsConstraints(p: Platform, db: Database, sourceId: nat, raws: seq<RawJob>, complete: bool, at: Moment)
    requires Constrained(db.jobs)
    ensures CollectOutcome(p, db, sourceId, raws, complete, at).Ok? ==>
              Constrained(CollectOutcome(p, db, sourceId, raws, complete, at).value.jobs)
  {
    hide Accepted, SightAll, NewlyClosed;
    if jobs :| Accepted(p, db.jobs.keywords, sourceId, raws) == Ok(jobs) {
      SightAllNotesShrink(p, db.jobs, jobs, Drawn(db.jobs.nextPostingId, |jobs|), at);
    }
  }

  lemma {:induction false} SightAllNotesShrink(p: Platform, t: JobTables, jobs: seq<JobPostingDTO>, ids: seq<nat>, at: Moment)
    ensures forall n <- SightAll(p, t, jobs, ids, at).tables.notifications :: n in t.notifications
    decreases |jobs|
  {
    hide JobRow, IsNew, IsUpdated;
    if jobs != [] {
      SightAllNotesShrink(p, t, jobs[..|jobs| - 1], ids, at);
    }
  }

  /** A collection reads which sources there are, and the job tables; nothing else. */
  lemma CollectIgnoresRuns(p: Platform, db: Database, other: Database, sourceId: nat, raws: seq<RawJob>, at: Moment)
    requires db.sources.Keys == other.sources.Keys && db.jobs == other.jobs
    ensures forall complete :: CollectOutcome(p, db, sourceId, raws, complete, at) == CollectOutcome(p, other, sourceId, raws, complete, at)
  {
    hide Accepted, CollectJobs;
  }

  lemma {:induction false} LatestSuccessIsLocal(runs: map<nat, CrawlRun>, other: map<nat, CrawlRun>, sourceId: nat, below: nat)
    requires forall id: nat :: id < below ==> Lookup(runs, id) == Lookup(other, id)
    ensures LatestSuccess(runs, sourceId, below) == LatestSuccess(other, sourceId, below)
    decreases below
  {
    if below > 0 {
      var id: nat := below - 1;
      assert Lookup(runs, id) == Lookup(other, id);
      LatestSuccessIsLocal(runs, other, sourceId, below - 1);
      var best := LatestSuccess(runs, sourceId, below - 1);
      assert best.Some? ==> Lookup(runs, best.value) == Lookup(other, best.value);
    }
  }

  lemma RunningIsNotBaseline(db: Database, sourceId: nat, run: CrawlRun)
    requires !run.status.Success?
    ensures LatestSuccessfulItems(WithRun(db, run), sourceId) == LatestSuccessfulItems(db, sourceId)
  {
    LatestSuccessIsLocal(db.runs, WithRun(db, run).runs, sourceId, db.nextRunId);
  }

  // ---- the connection's round trip ------------------------------------------------------------

  lemma UnusedConnection(b: Backend, conn: nat)
    requires Tidy(b) && Available(b, conn)
    ensures var back := Closed(Connected(b, conn), conn);
            Tidy(back) && back.locks == b.locks && back.orphans == b.orphans
  {
    NoLockOfItsOwn(b, conn);
  }

  lemma NoLockOfItsOwn(b: Backend, conn: nat)
    requires Tidy(b) && Available(b, conn)
    ensures !Holds(b, conn)
    ensures forall key :: CanLock(b, key, conn) <==> key !in b.locks
  {
  }

  /** The lock statement raised and took the lock: the pool then holds it. */
  lemma LeakedConnection(b: Backend, key: int, conn: nat)
    requires Tidy(b) && Available(b, conn)
    ensures CanLock(Connected(b, conn), key, conn) <==> key !in b.locks
    ensures var back := Closed(Locked(Connected(b, conn), key, conn), conn);
            key !in b.locks ==> conn in back.idle && Holds(back, conn) && back.locks == b.locks[key := Hold(conn, 1)] && back.orphans == b.orphans
  {
    NoLockOfItsOwn(b, conn);
    var back := Closed(Locked(Connected(b, conn), key, conn), conn);
    assert key !in b.locks ==> back.locks[key].conn == conn;
  }

  lemma RoundTrip(b: Backend, key: int, conn: nat)
    requires Tidy(b) && Available(b, conn) && CanLock(Connected(b, conn), key, conn)
    ensures var back := Closed(Unlocked(Locked(Connected(b, conn), key, conn), key, conn), conn);
            Tidy(back) && back.locks == b.locks && back.orphans == b.orphans
  {
    NoLockOfItsOwn(b, conn);
    assert b.locks[key := Hold(conn, 1)] - {key} == b.locks;
  }

  lemma LostConnection(b: Backend, key: int, conn: nat)
    requires Tidy(b) && Available(b, conn) && CanLock(Connected(b, conn), key, conn)
    ensures key !in b.locks
    ensures var left := Abandoned(Locked(Connected(b, conn), key, conn), conn);
            Tidy(left) && left.locks == b.locks[key := Hold(conn, 1)] && conn in left.orphans
  {
    NoLockOfItsOwn(b, conn);
  }
}
