/**
 * Many callers of run_source at once: worker threads and the manual API, interleaved statement by
 * statement, crashing anywhere, with retention runs, dispatches and administrators in between.
 *
 * An action is one indivisible step of one participant; what the database and the crawler answer is
 * part of the action. A collecting transaction takes a step for every job, one for its closing pass
 * and one for its commit, and everybody else may act between any two of them.
 */
module CrawlProtocol {
  import opened Prelude
  import opened Schema
  import opened Locks
  import opened Collector
  import opened Drafts
  import opened CrawlRunner
  import N = Normalizer
  import Retention
  import Dispatcher
  import History

  // ---- states ---------------------------------------------------------------------------------

  /** An open collecting transaction: the jobs so far, the ids they drew, and what was written. */
  datatype Work = Work(jobs: seq<JobPostingDTO>, ids: seq<nat>, drafts: map<PostingKey, Draft>, itemsNew: nat, itemsUpdated: nat, swept: bool)

  datatype Pc =
    | Start
    | Connecting(conn: nat)
    | Refused(conn: nat)
    | Holding(conn: nat)
    | Starting(conn: nat)
    | Crawling(conn: nat, run: nat)
    | Opening(conn: nat, run: nat, crawl: CrawlResult, began: Instant)
    | Finishing(conn: nat, run: nat, crawl: CrawlResult, baseline: Option<nat>, at: Moment, work: Work)
    | MustFail(conn: nat, run: nat)
    | Failing(conn: nat, run: nat, seenFailures: nat)
    | Releasing(conn: nat)
    | Closing(conn: nat)
    | Returned
    | Dead
  {
    predicate HasConn() {
      !Start? && !Returned? && !Dead?
    }

    /** Between lock acquisition and release. */
    predicate Critical() {
      HasConn() && !Connecting? && !Refused? && !Closing?
    }

    predicate HasRun() {
      Crawling? || Opening? || Finishing? || MustFail? || Failing?
    }

    /** From the recheck under the lock to the end of the run. */
    predicate Working() {
      Starting? || HasRun()
    }
  }

  datatype Caller = Caller(sourceId: nat, trigger: CrawlTrigger, pc: Pc)

  /** What was committed, in order; kept for the properties only. */
  datatype Entry =
    | Began(sourceId: nat, run: nat)
    | Committed(sourceId: nat, run: nat, crawl: CrawlResult, complete: bool, at: Moment, ids: seq<nat>, now: Instant)
    | Failure(sourceId: nat, run: nat, alerted: bool)
    | Reactivated(sourceId: nat)
    | Purged(runs: set<nat>, now: Instant)
    | Dispatched(senders: seq<Dispatcher.Sender>, settings: Dispatcher.Settings, now: Instant, force: bool)
    | Reworded(keywords: seq<Keyword>, now: Instant)

  /**
   * `lost` are the connections of callers whose session the server has ended; `leaks` counts, per
   * key, the holds that raising lock statements have taken on sessions that still live.
   */
  datatype State = State(callers: map<nat, Caller>, backend: Backend, db: Database, clock: Instant, log: seq<Entry>,
                         lost: set<nat>, leaks: map<int, nat>)

  datatype Config = Config(p: Platform, policy: Policy, lockKey: nat -> int)

  datatype Action =
    | Call(c: nat, sourceId: nat, trigger: CrawlTrigger)
    | Load(c: nat, conn: nat)
    | TryLock(c: nat)
    | LockFault(c: nat, effective: bool)
    | Skip(c: nat)
    | SkipFault(c: nat)
    | StartRead(c: nat)
    | StartCommit(c: nat)
    | StartFault(c: nat)
    | CrawlRaises(c: nat)
    | FinishBegin(c: nat, crawl: CrawlResult)
    | FinishRead(c: nat)
    | SightJob(c: nat)
    | CloseMissing(c: nat)
    | FinishCommit(c: nat)
    | FinishFault(c: nat)
    | FailRead(c: nat)
    | FailCommit(c: nat)
    | FailFault(c: nat)
    | Unlock(c: nat)
    | UnlockFault(c: nat)
    | Close(c: nat)
    | Crash(c: nat)
    | Reap(conn: nat)
    | Sever(c: nat)
    | Edit(sourceId: nat, isActive: bool)
    | EditKeywords(keywords: seq<Keyword>)
    | Retain
    | Dispatch(senders: seq<Dispatcher.Sender>, settings: Dispatcher.Settings, force: bool)
    | Tick(to: Instant)

  // ---- one action -----------------------------------------------------------------------------

  function Moved(s: State, c: nat, pc: Pc): State
    requires c in s.callers
  {
    s.(callers := s.callers[c := s.callers[c].(pc := pc)])
  }

  predicate IsComplete(cfg: Config, pc: Pc)
    requires pc.Finishing?
  {
    !IsPartial(cfg.policy, pc.crawl, pc.baseline)
  }

  /** Retention waits for rows that an open transaction has locked. */
  predicate RowsAreFree(s: State) {
    forall c <- s.callers :: s.callers[c].pc.Finishing? ==> AreFree(s.db.jobs, s.callers[c].pc.work.drafts, s.clock)
  }

  predicate AreFree(t: JobTables, drafts: map<PostingKey, Draft>, now: Instant) {
    forall key <- drafts :: key in t.postings ==>
      && !Retention.ClosedBefore(t.postings[key], now - Retention.CONTENT_DAYS * DAY)
      && !Retention.DeadlineBefore(t.postings[key], Retention.DeadlineExpiryCutoff(now))
  }

  /** Steps around the lock: of a caller that is outside, or on its way out. */
  predicate AtLock(a: Action) {
    a.Call? || a.Load? || a.TryLock? || a.LockFault? || a.Skip? || a.SkipFault? || a.Unlock? || a.UnlockFault? || a.Close? || a.Crash?
  }

  /** Steps that are no caller's own. */
  predicate Outside(a: Action) {
    a.Reap? || a.Sever? || a.Edit? || a.EditKeywords? || a.Retain? || a.Dispatch? || a.Tick?
  }

  /** Steps of the transaction that finishes a run. */
  predicate InFinish(a: Action) {
    a.FinishBegin? || a.FinishRead? || a.SightJob? || a.CloseMissing? || a.FinishCommit? || a.FinishFault?
  }

  predicate Enabled(cfg: Config, s: State, a: Action) {
    if AtLock(a) then LockEnabled(s, a)
    else if Outside(a) then WorldEnabled(s, a)
    else if InFinish(a) then FinishEnabled(cfg, s, a)
    else RunEnabled(s, a)
  }

  predicate LockEnabled(s: State, a: Action) {
    match a
    case Call(c, _, _) => c !in s.callers
    case Load(c, conn) => c in s.callers && s.callers[c].pc.Start? && Available(s.backend, conn)
    case TryLock(c) => c in s.callers && s.callers[c].pc.Connecting? && s.callers[c].pc.conn !in s.lost
    case LockFault(c, _) => c in s.callers && s.callers[c].pc.Connecting?
    case Skip(c) => c in s.callers && s.callers[c].pc.Refused?
    case SkipFault(c) => c in s.callers && s.callers[c].pc.Refused?
    case Unlock(c) => c in s.callers && s.callers[c].pc.Releasing? && s.callers[c].pc.conn !in s.lost
    case UnlockFault(c) => c in s.callers && s.callers[c].pc.Releasing?
    case Close(c) => c in s.callers && s.callers[c].pc.Closing?
    case Crash(c) => c in s.callers && !s.callers[c].pc.Returned? && !s.callers[c].pc.Dead?
    case _ => false
  }

  predicate WorldEnabled(s: State, a: Action) {
    match a
    case Reap(conn) => conn in s.backend.orphans
    case Sever(c) => c in s.callers && s.callers[c].pc.HasConn()
    case Edit(sourceId, _) => sourceId in s.db.sources
    case EditKeywords(_) => forall c <- s.callers :: !s.callers[c].pc.Finishing?
    case Retain => RowsAreFree(s)
    case Dispatch(_, _, _) => true
    case Tick(to) => s.clock <= to
    case _ => false
  }

  predicate RunEnabled(s: State, a: Action) {
    match a
    case StartRead(c) => c in s.callers && s.callers[c].pc.Holding?
    case StartCommit(c) => c in s.callers && s.callers[c].pc.Starting?
    case StartFault(c) => c in s.callers && (s.callers[c].pc.Holding? || s.callers[c].pc.Starting?)
    case CrawlRaises(c) => c in s.callers && s.callers[c].pc.Crawling?
    case FailRead(c) => c in s.callers && s.callers[c].pc.MustFail?
    case FailCommit(c) => c in s.callers && s.callers[c].pc.Failing?
    case FailFault(c) => c in s.callers && (s.callers[c].pc.MustFail? || s.callers[c].pc.Failing?)
    case _ => false
  }

  predicate FinishEnabled(cfg: Config, s: State, a: Action) {
    match a
    case FinishBegin(c, _) => c in s.callers && s.callers[c].pc.Crawling?
    case FinishRead(c) => c in s.callers && s.callers[c].pc.Opening?
    case SightJob(c) =>
      c in s.callers && s.callers[c].pc.Finishing? && !s.callers[c].pc.work.swept
      && |s.callers[c].pc.work.jobs| < |s.callers[c].pc.crawl.items|
    case CloseMissing(c) =>
      c in s.callers && s.callers[c].pc.Finishing? && !s.callers[c].pc.work.swept
      && |s.callers[c].pc.work.jobs| == |s.callers[c].pc.crawl.items| && IsComplete(cfg, s.callers[c].pc)
    case FinishCommit(c) =>
      c in s.callers && s.callers[c].pc.Finishing? && s.callers[c].pc.work.swept == IsComplete(cfg, s.callers[c].pc)
      && |s.callers[c].pc.work.jobs| == |s.callers[c].pc.crawl.items|
    case FinishFault(c) => c in s.callers && (s.callers[c].pc.Opening? || s.callers[c].pc.Finishing?)
    case _ => false
  }

  /** The leaked holds on the sessions that are left. */
  function LeaksOf(b: Backend, leaks: map<int, nat>): map<int, nat> {
    map key | key in leaks && key in b.locks :: leaks[key]
  }

  /** A session that has been ended needs no further attention. */
  function Dropped(s: State, conn: nat): Backend {
    if conn in s.lost then s.backend else Abandoned(s.backend, conn)
  }

  function Apply(cfg: Config, s: State, a: Action): State
    requires Enabled(cfg, s, a)
  {
    if AtLock(a) then LockApply(cfg, s, a)
    else if Outside(a) then WorldApply(s, a)
    else if InFinish(a) then FinishApply(cfg, s, a)
    else RunApply(cfg, s, a)
  }

  function LockApply(cfg: Config, s: State, a: Action): State
    requires LockEnabled(s, a)
  {
    match a
    case Call(c, sourceId, trigger) => s.(callers := s.callers[c := Caller(sourceId, trigger, Start)])
    case Load(c, conn) =>
      var src := s.callers[c].sourceId;
      if src in s.db.sources && s.db.sources[src].isActive
      then Moved(s, c, Connecting(conn)).(backend := Connected(s.backend, conn))
      else Moved(s, c, Returned)
    case TryLock(c) =>
      var key, conn := cfg.lockKey(s.callers[c].sourceId), s.callers[c].pc.conn;
      if CanLock(s.backend, key, conn) then Moved(s, c, Holding(conn)).(backend := Locked(s.backend, key, conn))
      else Moved(s, c, Refused(conn))
    case LockFault(c, effective) => LockRaised(cfg, s, c, effective)
    case Skip(c) =>
      Moved(s, c, Closing(s.callers[c].pc.conn)).(
        db := WithRun(s.db, NewRun(s.callers[c].sourceId, s.callers[c].trigger, Skipped, s.clock)))
    case SkipFault(c) => Moved(s, c, Closing(s.callers[c].pc.conn))
    case Unlock(c) =>
      var key, conn := cfg.lockKey(s.callers[c].sourceId), s.callers[c].pc.conn;
      Moved(s, c, Closing(conn)).(backend := Unlocked(s.backend, key, conn))
    case UnlockFault(c) => Moved(s, c, Returned).(backend := Dropped(s, s.callers[c].pc.conn))
    case Close(c) =>
      var conn := s.callers[c].pc.conn;
      Moved(s, c, Returned).(backend := if conn in s.lost then s.backend else Closed(s.backend, conn))
    case Crash(c) =>
      var pc := s.callers[c].pc;
      Moved(s, c, Dead).(backend := if pc.HasConn() then Dropped(s, pc.conn) else s.backend)
  }

  function RunApply(cfg: Config, s: State, a: Action): State
    requires RunEnabled(s, a)
  {
    match a
    case StartRead(c) =>
      var src := s.callers[c].sourceId;
      if src in s.db.sources && s.db.sources[src].isActive then Moved(s, c, Starting(s.callers[c].pc.conn))
      else Moved(s, c, Releasing(s.callers[c].pc.conn))
    case StartCommit(c) =>
      Moved(s, c, Crawling(s.callers[c].pc.conn, s.db.nextRunId)).(
        db := WithRun(s.db, NewRun(s.callers[c].sourceId, s.callers[c].trigger, Running, s.clock)),
        log := s.log + [Began(s.callers[c].sourceId, s.db.nextRunId)])
    case StartFault(c) => Moved(s, c, Releasing(s.callers[c].pc.conn))
    case CrawlRaises(c) => Moved(s, c, MustFail(s.callers[c].pc.conn, s.callers[c].pc.run))
    case FailRead(c) =>
      var src, pc := s.callers[c].sourceId, s.callers[c].pc;
      if src in s.db.sources && pc.run in s.db.runs
      then Moved(s, c, Failing(pc.conn, pc.run, s.db.sources[src].consecutiveFailures))
      else Moved(s, c, Releasing(pc.conn))
    case FailCommit(c) => FailCommitted(cfg, s, c)
    case FailFault(c) => Moved(s, c, Releasing(s.callers[c].pc.conn))
  }

  function FinishApply(cfg: Config, s: State, a: Action): State
    requires FinishEnabled(cfg, s, a)
  {
    match a
    case FinishBegin(c, crawl) => Moved(s, c, Opening(s.callers[c].pc.conn, s.callers[c].pc.run, crawl, s.clock))
    case FinishRead(c) =>
      var src, pc := s.callers[c].sourceId, s.callers[c].pc;
      if src in s.db.sources && pc.run in s.db.runs
      then Moved(s, c, Finishing(pc.conn, pc.run, pc.crawl, LatestSuccessfulItems(s.db, src), Moment(s.clock, pc.began),
                                 Work([], [], map[], 0, 0, false)))
      else Moved(s, c, MustFail(pc.conn, pc.run))
    case SightJob(c) => Sighted(cfg, s, c)
    case CloseMissing(c) =>
      var src, pc := s.callers[c].sourceId, s.callers[c].pc;
      Moved(s, c, pc.(work := pc.work.(swept := true,
                                       drafts := Drafts.Swept(s.db.jobs, src, pc.work.jobs, pc.work.drafts, pc.at.now))))
    case FinishCommit(c) => FinishCommitted(cfg, s, c)
    case FinishFault(c) => Moved(s, c, MustFail(s.callers[c].pc.conn, s.callers[c].pc.run))
  }

  function WorldApply(s: State, a: Action): State
    requires WorldEnabled(s, a)
  {
    match a
    case Reap(conn) => s.(backend := Reaped(s.backend, conn), leaks := LeaksOf(Reaped(s.backend, conn), s.leaks))
    case Sever(c) =>
      var b := Reaped(s.backend, s.callers[c].pc.conn);
      s.(backend := b, leaks := LeaksOf(b, s.leaks), lost := s.lost + {s.callers[c].pc.conn})
    case Edit(sourceId, isActive) =>
      s.(db := s.db.(sources := s.db.sources[sourceId := s.db.sources[sourceId].(isActive := isActive)]),
         log := if isActive && !s.db.sources[sourceId].isActive then s.log + [Reactivated(sourceId)] else s.log)
    case EditKeywords(keywords) =>
      s.(db := s.db.(jobs := History.AfterEdit(s.db.jobs, keywords)), log := s.log + [Reworded(keywords, s.clock)])
    case Retain =>
      s.(db := Retention.Retained(s.db, s.clock),
         log := s.log + [Purged(Retention.OldRuns(s.db, s.clock - Retention.RUN_DAYS * DAY), s.clock)])
    case Dispatch(senders, settings, force) =>
      s.(db := s.db.(jobs := Dispatcher.DispatchBatches(s.db.jobs, senders, settings, s.clock, force).tables),
         log := s.log + [Dispatched(senders, settings, s.clock, force)])
    case Tick(to) => s.(clock := to)
  }

  /** A lock statement that raises leaves its caller without the lock, though it may have taken it. */
  function LockRaised(cfg: Config, s: State, c: nat, effective: bool): State
    requires c in s.callers && s.callers[c].pc.Connecting?
  {
    var key, conn := cfg.lockKey(s.callers[c].sourceId), s.callers[c].pc.conn;
    if effective && conn !in s.lost && CanLock(s.backend, key, conn)
    then Moved(s, c, Closing(conn)).(backend := Locked(s.backend, key, conn), leaks := s.leaks[key := LeakedOn(s.leaks, key) + 1])
    else Moved(s, c, Closing(conn))
  }

  function LeakedOn(leaks: map<int, nat>, key: int): nat {
    if key in leaks then leaks[key] else 0
  }

  /** One job of an open transaction, or the failure that rolls it back. Drawn ids are not given back. */
  function Sighted(cfg: Config, s: State, c: nat): State
    requires c in s.callers && s.callers[c].pc.Finishing? && |s.callers[c].pc.work.jobs| < |s.callers[c].pc.crawl.items|
  {
    var src, pc := s.callers[c].sourceId, s.callers[c].pc;
    var t, work := s.db.jobs, pc.work;
    var next := N.Normalize(cfg.p, src, pc.crawl.items[|work.jobs|]);
    match Joined(cfg.p, t.keywords, work.jobs, next)
    case Err(error) => // a violated constraint comes after the id was drawn
      Moved(s, c, MustFail(pc.conn, pc.run)).(
        db := s.db.(jobs := WithNextId(t, t.nextPostingId + if error.ForeignKeyViolation? then 1 else 0)))
    case Ok(jobs) =>
      Moved(s, c, pc.(work := WithJob(cfg.p, t, work, next.value, pc.at))).(
        db := s.db.(jobs := WithNextId(t, t.nextPostingId + 1)))
  }

  function WithJob(p: Platform, t: JobTables, work: Work, job: JobPostingDTO, at: Moment): Work {
    var known, draft := Lookup(t.postings, job.Key()), Lookup(work.drafts, job.Key());
    var seen := Resolve(known, draft);
    Work(work.jobs + [job], work.ids + [t.nextPostingId],
         work.drafts[job.Key() := NextDraft(p, t.keywords, known, draft, job, t.nextPostingId, at)],
         work.itemsNew + (if seen.None? && Keeps(p, t.keywords, job) then 1 else 0),
         work.itemsUpdated + (if seen.Some? && seen.value.contentHash != job.contentHash && Keeps(p, t.keywords, job) then 1 else 0),
         work.swept)
  }

  /** Commits, or raises and leaves the failure to be marked. */
  function FinishCommitted(cfg: Config, s: State, c: nat): State
    requires c in s.callers && s.callers[c].pc.Finishing?
  {
    var src, pc := s.callers[c].sourceId, s.callers[c].pc;
    if src !in s.db.sources || pc.run !in s.db.runs then Moved(s, c, MustFail(pc.conn, pc.run))
    else
      Moved(s, c, Releasing(pc.conn)).(
        db := Recorded(s.db, src, pc.run, !IsComplete(cfg, pc), |pc.crawl.items|, pc.work.itemsNew, pc.work.itemsUpdated,
                       Merged(s.db.jobs, pc.work.drafts), s.clock),
        log := s.log + [Committed(src, pc.run, pc.crawl, IsComplete(cfg, pc), pc.at, pc.work.ids, s.clock)])
  }

  function FailCommitted(cfg: Config, s: State, c: nat): State
    requires c in s.callers && s.callers[c].pc.Failing?
  {
    var src, pc := s.callers[c].sourceId, s.callers[c].pc;
    if src in s.db.sources && pc.run in s.db.runs then
      Moved(s, c, Releasing(pc.conn)).(
        db := MarkedFailed(cfg.policy, s.db, src, pc.run, pc.seenFailures),
        log := s.log + [Failure(src, pc.run, Trips(cfg.policy, pc.seenFailures))])
    else Moved(s, c, Releasing(pc.conn))
  }

  // ---- runs of the protocol -------------------------------------------------------------------

  ghost predicate Initial(s: State) {
    && s.callers == map[] && s.backend == Backend(map[], {}, {}, 0) && s.log == [] && s.lost == {} && s.leaks == map[]
    && s.db.runs == map[] && s.db.nextRunId == 0
    && forall src <- s.db.sources :: s.db.sources[src].consecutiveFailures == 0
  }

  /** The state after a run of the protocol, if every action was possible when it was taken. */
  function Exec(cfg: Config, s: State, actions: seq<Action>): Option<State> {
    if actions == [] then Some(s)
    else
      match Exec(cfg, s, actions[..|actions| - 1])
      case None => None
      case Some(before) =>
        var a := actions[|actions| - 1];
        if Enabled(cfg, before, a) then Some(Apply(cfg, before, a)) else None
  }

  /** Some run of the protocol leads from one state to the other. */
  ghost predicate Reached(cfg: Config, s: State, after: State) {
    exists actions :: Exec(cfg, s, actions) == Some(after)
  }

  lemma ExecSnoc(cfg: Config, s: State, actions: seq<Action>, a: Action)
    ensures Exec(cfg, s, actions + [a]) ==
      match Exec(cfg, s, actions)
      case None => None
      case Some(before) => if Enabled(cfg, before, a) then Some(Apply(cfg, before, a)) else None
  {
    assert (actions + [a])[..|actions|] == actions;
    hide Apply, Enabled;
  }
}
