/**
 * The baseline of the collection-drop rule over every run of the protocol: what a run is compared
 * with, and how far the item counts of successful runs can fall.
 */
module DropBaseline {
  import opened Prelude
  import opened Schema
  import opened Collector
  import opened CrawlRunner
  import opened CrawlProtocol
  import opened CrawlLocks
  import opened CrawlRuns
  import CrawlBreaker
  import CrawlSerial
  import Drafts
  import Retention
  import History
  import Dispatcher

  // ---- what the log says of a source ----------------------------------------------------------

  datatype Base = Base(run: nat, items: nat)

  /** The last success of the source, unless retention has deleted its row. */
  function Baseline(log: seq<Entry>, src: nat): Option<Base> {
    if log == [] then None else BaselineIn(Baseline(log[..|log| - 1], src), log[|log| - 1], src)
  }

  function BaselineIn(base: Option<Base>, e: Entry, src: nat): Option<Base> {
    if e.Committed? && e.sourceId == src && e.complete then Some(Base(e.run, |e.crawl.items|))
    else if e.Purged? && base.Some? && base.value.run in e.runs then None
    else base
  }

  /** Item counts of the successes since there last was no baseline. */
  function Streak(log: seq<Entry>, src: nat): seq<nat> {
    if log == [] then []
    else StreakIn(Streak(log[..|log| - 1], src), Baseline(log[..|log| - 1], src), log[|log| - 1], src)
  }

  function StreakIn(streak: seq<nat>, base: Option<Base>, e: Entry, src: nat): seq<nat> {
    if e.Committed? && e.sourceId == src && e.complete then streak + [|e.crawl.items|]
    else if e.Purged? && base.Some? && base.value.run in e.runs then []
    else streak
  }

  lemma LogGrows(log: seq<Entry>, e: Entry, src: nat)
    ensures Baseline(log + [e], src) == BaselineIn(Baseline(log, src), e, src)
    ensures Streak(log + [e], src) == StreakIn(Streak(log, src), Baseline(log, src), e, src)
  {
    assert (log + [e])[..|log|] == log;
  }

  // ---- the invariant --------------------------------------------------------------------------

  ghost predicate EntryOk(policy: Policy, before: seq<Entry>, e: Entry) {
    e.Committed? && Baseline(before, e.sourceId).Some? ==>
      (e.complete <==> !FallsShort(e.crawl, Some(Baseline(before, e.sourceId).value.items), policy.dropRatio))
  }

  ghost predicate DropsOk(policy: Policy, log: seq<Entry>) {
    log == [] || (DropsOk(policy, log[..|log| - 1]) && EntryOk(policy, log[..|log| - 1], log[|log| - 1]))
  }

  /** The newest success row is the one the log names. */
  ghost predicate BaseRow(runs: map<nat, CrawlRun>, base: Option<Base>, src: nat) {
    && (base.Some? ==> IsSuccessOf(runs, src, base.value.run) && runs[base.value.run].itemsFetched == base.value.items)
    && (forall id <- runs :: IsSuccessOf(runs, src, id) ==> base.Some? && id <= base.value.run)
  }

  ghost predicate CallerFits(runs: map<nat, CrawlRun>, base: Option<Base>, caller: Caller) {
    caller.pc.HasRun() ==>
      && (forall id <- runs :: IsSuccessOf(runs, caller.sourceId, id) ==> id < caller.pc.run)
      && (caller.pc.Finishing? && base.Some? ==> caller.pc.baseline == Some(base.value.items))
  }

  ghost predicate SourceOk(s: State, src: nat) {
    BaseRow(s.db.runs, Baseline(s.log, src), src)
  }

  ghost predicate CallerOk(s: State, c: nat)
    requires c in s.callers
  {
    CallerFits(s.db.runs, Baseline(s.log, s.callers[c].sourceId), s.callers[c])
  }

  ghost predicate BaseOk(policy: Policy, s: State) {
    && DropsOk(policy, s.log)
    && (forall src :: SourceOk(s, src))
    && (forall c <- s.callers :: CallerOk(s, c))
  }

  /** The log's baseline is what the query finds. */
  lemma BaselineIsQueried(s: State, src: nat)
    requires RowsOk(s) && SourceOk(s, src)
    ensures LatestSuccessfulItems(s.db, src) == match Baseline(s.log, src) case None => None case Some(base) => Some(base.items)
  {
    var latest := LatestSuccess(s.db.runs, src, s.db.nextRunId);
    var base := Baseline(s.log, src);
    hide LogOk, Baseline, LatestSuccess;
    if base.Some? {
      assert IsSuccessOf(s.db.runs, src, base.value.run);
      assert latest.Some? && NotLater(s.db.runs, base.value.run, latest.value);
      assert latest.value <= base.value.run;
    }
  }

  // ---- steps ----------------------------------------------------------------------------------

  lemma MoveKeepsBase(policy: Policy, s: State, c: nat, pc: Pc, after: State)
    requires BaseOk(policy, s) && c in s.callers
    requires after.log == s.log && after.db.runs == s.db.runs
    requires after.callers == s.callers[c := s.callers[c].(pc := pc)]
    requires CallerFits(s.db.runs, Baseline(s.log, s.callers[c].sourceId), s.callers[c].(pc := pc))
    ensures BaseOk(policy, after)
  {
    hide DropsOk, BaseRow, Baseline;
    forall src ensures SourceOk(after, src) { assert SourceOk(s, src); }
    forall d <- after.callers ensures CallerOk(after, d) {
      if d != c { assert CallerOk(s, d); }
    }
  }

  lemma MoveIsOk(cfg: Config, s: State, a: Action)
    requires BaseOk(cfg.policy, s) && RowsOk(s) && Enabled(cfg, s, a)
    requires CrawlBreaker.Moving(a) && !a.Skip? && !a.StartCommit? && Apply(cfg, s, a).log == s.log
    ensures BaseOk(cfg.policy, Apply(cfg, s, a))
  {
    var src := s.callers[a.c].sourceId;
    assert CallerOk(s, a.c) && SourceOk(s, src);
    BaselineIsQueried(s, src);
    hide Baseline, Apply, BaseOk, RowsOk;
    MovedFits(cfg, s, a, Baseline(s.log, src));
    var after := Apply(cfg, s, a);
    MoveKeepsBase(cfg.policy, s, a.c, after.callers[a.c].pc, after);
  }

  ghost predicate MovedFitly(s: State, c: nat, after: State, base: Option<Base>) {
    && after.db.runs == s.db.runs && c in s.callers && c in after.callers
    && after.callers == s.callers[c := s.callers[c].(pc := after.callers[c].pc)]
    && CallerFits(s.db.runs, base, after.callers[c])
  }

  lemma MovedFits(cfg: Config, s: State, a: Action, base: Option<Base>)
    requires Enabled(cfg, s, a) && CrawlBreaker.Moving(a) && !a.Skip? && !a.StartCommit? && Apply(cfg, s, a).log == s.log
    requires CallerFits(s.db.runs, base, s.callers[a.c])
    requires base.Some? ==> LatestSuccessfulItems(s.db, s.callers[a.c].sourceId) == Some(base.value.items)
    ensures MovedFitly(s, a.c, Apply(cfg, s, a), base)
  {
    hide MovedFitly, Apply, Enabled, CallerFits;
    if InFinish(a) {
      FinisherFits(cfg, s, a, base);
    } else if AtLock(a) {
      OutsiderFits(cfg, s, a, base);
    } else {
      RunnerFits(cfg, s, a, base);
    }
  }

  lemma FinisherFits(cfg: Config, s: State, a: Action, base: Option<Base>)
    requires Enabled(cfg, s, a) && Apply(cfg, s, a).log == s.log && InFinish(a)
    requires CallerFits(s.db.runs, base, s.callers[a.c])
    requires base.Some? ==> LatestSuccessfulItems(s.db, s.callers[a.c].sourceId) == Some(base.value.items)
    ensures MovedFitly(s, a.c, Apply(cfg, s, a), base)
  {
    hide MovedFitly, LatestSuccessfulItems;
    if a.SightJob? || a.FinishCommit? {
      StatementFits(cfg, s, a, base);
    } else {
      TransactionFits(cfg, s, a, base);
    }
    hide Apply, Enabled, CallerFits;
  }

  lemma StatementFits(cfg: Config, s: State, a: Action, base: Option<Base>)
    requires Enabled(cfg, s, a) && Apply(cfg, s, a).log == s.log && (a.SightJob? || a.FinishCommit?)
    requires CallerFits(s.db.runs, base, s.callers[a.c])
    ensures MovedFitly(s, a.c, Apply(cfg, s, a), base)
  {
    StatementMoves(cfg, s, a);
    hide Apply, Enabled, IsSuccessOf;
  }

  ghost predicate SameRun(s: State, c: nat, after: State) {
    && after.db.runs == s.db.runs && c in s.callers && c in after.callers
    && after.callers == s.callers[c := s.callers[c].(pc := after.callers[c].pc)]
    && var pc, next := s.callers[c].pc, after.callers[c].pc;
       && pc.Finishing? && next.HasRun() && next.run == pc.run && (next.Finishing? ==> next.baseline == pc.baseline)
  }

  lemma StatementMoves(cfg: Config, s: State, a: Action)
    requires Enabled(cfg, s, a) && Apply(cfg, s, a).log == s.log && (a.SightJob? || a.FinishCommit?)
    ensures SameRun(s, a.c, Apply(cfg, s, a))
  {
    hide SameRun, Apply, Enabled;
    if a.SightJob? {
      SightMoves(cfg, s, a);
    } else {
      RefusalMoves(cfg, s, a);
    }
  }

  lemma SightMoves(cfg: Config, s: State, a: Action)
    requires Enabled(cfg, s, a) && a.SightJob?
    ensures SameRun(s, a.c, Apply(cfg, s, a))
  {
    hide WithJob, Joined, WithNextId;
  }

  lemma RefusalMoves(cfg: Config, s: State, a: Action)
    requires Enabled(cfg, s, a) && Apply(cfg, s, a).log == s.log && a.FinishCommit?
    ensures SameRun(s, a.c, Apply(cfg, s, a))
  {
    hide IsComplete, Drafts.Merged, Recorded;
  }

  lemma TransactionFits(cfg: Config, s: State, a: Action, base: Option<Base>)
    requires Enabled(cfg, s, a) && InFinish(a) && !a.SightJob? && !a.FinishCommit?
    requires CallerFits(s.db.runs, base, s.callers[a.c])
    requires base.Some? ==> LatestSuccessfulItems(s.db, s.callers[a.c].sourceId) == Some(base.value.items)
    ensures MovedFitly(s, a.c, Apply(cfg, s, a), base)
  {
    hide LatestSuccessfulItems, IsSuccessOf, Drafts.Swept, IsComplete;
  }

  lemma RunnerFits(cfg: Config, s: State, a: Action, base: Option<Base>)
    requires Enabled(cfg, s, a) && Apply(cfg, s, a).log == s.log && StaysPut(a) && !InFinish(a) && !AtLock(a)
    requires CallerFits(s.db.runs, base, s.callers[a.c])
    ensures MovedFitly(s, a.c, Apply(cfg, s, a), base)
  {
    hide IsSuccessOf;
  }

  lemma OutsiderFits(cfg: Config, s: State, a: Action, base: Option<Base>)
    requires Enabled(cfg, s, a) && AtLock(a) && !a.Call? && !a.Skip?
    requires CallerFits(s.db.runs, base, s.callers[a.c])
    ensures MovedFitly(s, a.c, Apply(cfg, s, a), base)
  {
    hide IsSuccessOf;
  }

  /** A new row that is no success, and perhaps an entry that says nothing about baselines. */
  lemma NewRowKeepsBase(policy: Policy, s: State, c: nat, pc: Pc, run: CrawlRun, log: seq<Entry>)
    requires BaseOk(policy, s) && RowsOk(s) && c in s.callers && !run.status.Success?
    requires pc.HasRun() ==> pc.run == s.db.nextRunId && !pc.Finishing?
    requires log == s.log || log == s.log + [Began(s.callers[c].sourceId, s.db.nextRunId)]
    ensures BaseOk(policy, Moved(s, c, pc).(db := WithRun(s.db, run), log := log))
  {
    var after := Moved(s, c, pc).(db := WithRun(s.db, run), log := log);
    BeginningIsNoBase(policy, s.log, Began(s.callers[c].sourceId, s.db.nextRunId));
    var next := s.db.nextRunId;
    assert forall id <- s.db.runs :: id < next;
    hide DropsOk, Baseline, RowsOk, BaseRow, CallerFits;
    forall src ensures SourceOk(after, src) {
      assert SourceOk(s, src);
      NewRowSource(s.db.runs, next, run, Baseline(s.log, src), src);
    }
    forall d <- after.callers ensures CallerOk(after, d) {
      assert CallerOk(s, d);
      if d == c {
        NewRowOwner(s.db.runs, next, run, Baseline(s.log, s.callers[d].sourceId), after.callers[d]);
      } else {
        NewRowCaller(s.db.runs, next, run, Baseline(s.log, s.callers[d].sourceId), s.callers[d]);
      }
    }
  }

  lemma NewRowSource(runs: map<nat, CrawlRun>, id: nat, run: CrawlRun, base: Option<Base>, src: nat)
    requires BaseRow(runs, base, src) && id !in runs && !run.status.Success?
    ensures BaseRow(runs[id := run], base, src)
  {
  }

  lemma NewRowCaller(runs: map<nat, CrawlRun>, id: nat, run: CrawlRun, base: Option<Base>, caller: Caller)
    requires CallerFits(runs, base, caller) && !run.status.Success?
    ensures CallerFits(runs[id := run], base, caller)
  {
  }

  lemma NewRowOwner(runs: map<nat, CrawlRun>, id: nat, run: CrawlRun, base: Option<Base>, caller: Caller)
    requires !run.status.Success? && forall other <- runs :: other < id
    requires caller.pc.HasRun() ==> caller.pc.run == id && !caller.pc.Finishing?
    ensures CallerFits(runs[id := run], base, caller)
  {
  }

  /** An entry that a run has begun says nothing about baselines. */
  lemma BeginningIsNoBase(policy: Policy, log: seq<Entry>, e: Entry)
    requires DropsOk(policy, log) && e.Began?
    ensures DropsOk(policy, log + [e]) && forall src :: Baseline(log + [e], src) == Baseline(log, src)
  {
    forall src ensures Baseline(log + [e], src) == Baseline(log, src) {
      LogGrows(log, e, src);
    }
    hide Baseline;
    assert (log + [e])[..|log|] == log;
  }

  lemma CallKeepsBase(policy: Policy, s: State, c: nat, caller: Caller)
    requires BaseOk(policy, s) && c !in s.callers && caller.pc.Start?
    ensures BaseOk(policy, s.(callers := s.callers[c := caller]))
  {
    var after := s.(callers := s.callers[c := caller]);
    hide DropsOk, Baseline, BaseRow;
    forall src ensures SourceOk(after, src) { assert SourceOk(s, src); }
    forall d <- after.callers ensures CallerOk(after, d) {
      if d != c { assert CallerOk(s, d); }
    }
  }

  /** The end of a run: nobody else runs on this source. */
  lemma EndKeepsBase(policy: Policy, s: State, c: nat, pc: Pc, row: CrawlRun, e: Entry, after: State)
    requires BaseOk(policy, s) && RowsOk(s) && Exclusive(s.callers)
    requires c in s.callers && s.callers[c].pc.HasRun() && !pc.HasRun() && s.callers[c].pc.run in s.db.runs
    requires EndedRun(e) == Some(s.callers[c].pc.run) && e.sourceId == s.callers[c].sourceId
    requires RowShows(e, row) && EntryOk(policy, s.log, e)
    requires after.callers == s.callers[c := s.callers[c].(pc := pc)] && after.log == s.log + [e]
    requires after.db.runs == s.db.runs[s.callers[c].pc.run := row]
    ensures BaseOk(policy, after)
  {
    assert DropsOk(policy, after.log) by { assert after.log[..|s.log|] == s.log; }
    RunOfCaller(s, c);
    hide DropsOk, Baseline, EntryOk, RunsOk, LogOk;
    assert CallerOk(s, c);
    forall src ensures SourceOk(after, src) {
      assert SourceOk(s, src);
      EndedSource(s, c, row, e, src);
    }
    forall d <- after.callers ensures CallerOk(after, d) {
      if d != c {
        assert CallerOk(s, d);
        OthersKeepBase(s, c, d, row, e);
      }
    }
  }

  lemma EndedSource(s: State, c: nat, row: CrawlRun, e: Entry, src: nat)
    requires c in s.callers && s.callers[c].pc.HasRun() && CallerOk(s, c) && SourceOk(s, src)
    requires s.callers[c].pc.run in s.db.runs && s.db.runs[s.callers[c].pc.run].status.Running?
    requires s.db.runs[s.callers[c].pc.run].sourceId == s.callers[c].sourceId
    requires EndedRun(e) == Some(s.callers[c].pc.run) && e.sourceId == s.callers[c].sourceId && RowShows(e, row)
    ensures BaseRow(s.db.runs[s.callers[c].pc.run := row], Baseline(s.log + [e], src), src)
  {
    hide Baseline;
    LogGrows(s.log, e, src);
  }

  lemma OthersKeepBase(s: State, c: nat, d: nat, row: CrawlRun, e: Entry)
    requires Exclusive(s.callers) && c in s.callers && d in s.callers && c != d && s.callers[c].pc.HasRun()
    requires CallerOk(s, d) && s.callers[c].pc.run in s.db.runs
    requires EndedRun(e) == Some(s.callers[c].pc.run) && e.sourceId == s.callers[c].sourceId
    requires row.sourceId == e.sourceId
    ensures CallerFits(s.db.runs[s.callers[c].pc.run := row], Baseline(s.log + [e], s.callers[d].sourceId), s.callers[d])
  {
    hide Baseline;
    LogGrows(s.log, e, s.callers[d].sourceId);
  }

  lemma FinishKeepsBase(cfg: Config, s: State, a: Action)
    requires BaseOk(cfg.policy, s) && RowsOk(s) && Exclusive(s.callers) && Enabled(cfg, s, a) && a.FinishCommit?
    requires Apply(cfg, s, a).log != s.log
    ensures BaseOk(cfg.policy, Apply(cfg, s, a))
  {
    var after, c := Apply(cfg, s, a), a.c;
    assert CallerOk(s, c);
    var e := after.log[|s.log|];
    RunOfCaller(s, c);
    assert EntryOk(cfg.policy, s.log, e) by {
      PartialMeansShort(cfg.policy, s.callers[c].pc.crawl, s.callers[c].pc.baseline);
      hide Baseline, Drafts.Merged, FallsShort, IsPartial;
    }
    hide BaseOk, RowsOk, EntryOk, Drafts.Merged, IsComplete;
    EndKeepsBase(cfg.policy, s, c, after.callers[c].pc, after.db.runs[s.callers[c].pc.run], e, after);
  }

  lemma FailKeepsBase(cfg: Config, s: State, a: Action)
    requires BaseOk(cfg.policy, s) && RowsOk(s) && Exclusive(s.callers) && Enabled(cfg, s, a) && a.FailCommit?
    requires Apply(cfg, s, a).log != s.log
    ensures BaseOk(cfg.policy, Apply(cfg, s, a))
  {
    var after, c := Apply(cfg, s, a), a.c;
    RunOfCaller(s, c);
    hide BaseOk, RowsOk;
    EndKeepsBase(cfg.policy, s, c, after.callers[c].pc, after.db.runs[s.callers[c].pc.run], after.log[|s.log|], after);
  }

  lemma RetainedState(cfg: Config, s: State, a: Action)
    requires Enabled(cfg, s, a) && a.Retain?
    ensures var after, gone := Apply(cfg, s, a), Retention.OldRuns(s.db, s.clock - Retention.RUN_DAYS * DAY);
      && after.log == s.log + [Purged(gone, s.clock)] && after.db.runs == s.db.runs - gone && after.callers == s.callers
      && forall id <- s.db.runs :: id in gone <==> s.db.runs[id].startedAt < s.clock - Retention.RUN_DAYS * DAY
  {
    hide Retention.RetainedJobs, RowsAreFree;
  }

  /** Retention deletes runs by their start, so the newest success goes last. */
  lemma RetainKeepsBase(cfg: Config, s: State, a: Action)
    requires BaseOk(cfg.policy, s) && RowsOk(s) && Enabled(cfg, s, a) && a.Retain?
    ensures BaseOk(cfg.policy, Apply(cfg, s, a))
  {
    hide Apply, BaseOk, RowsOk, Retention.OldRuns;
    RetainedState(cfg, s, a);
    PurgeKeepsBase(cfg.policy, s, s.clock - Retention.RUN_DAYS * DAY, Retention.OldRuns(s.db, s.clock - Retention.RUN_DAYS * DAY), Apply(cfg, s, a));
  }

  lemma PurgeKeepsBase(policy: Policy, s: State, before: Instant, gone: set<nat>, after: State)
    requires BaseOk(policy, s) && RowsOk(s)
    requires after.log == s.log + [Purged(gone, s.clock)] && after.db.runs == s.db.runs - gone && after.callers == s.callers
    requires forall id <- s.db.runs :: id in gone <==> s.db.runs[id].startedAt < before
    ensures BaseOk(policy, after)
  {
    hide Baseline, LogOk;
    assert DropsOk(policy, after.log) by { assert after.log[..|s.log|] == s.log; }
    hide DropsOk;
    forall src ensures SourceOk(after, src) {
      assert SourceOk(s, src);
      LogGrows(s.log, Purged(gone, s.clock), src);
    }
    forall c <- after.callers ensures CallerOk(after, c) {
      assert CallerOk(s, c);
      LogGrows(s.log, Purged(gone, s.clock), s.callers[c].sourceId);
    }
  }

  /** Steps that touch neither runs nor callers. */
  lemma OutsideSteps(cfg: Config, s: State, a: Action)
    requires Enabled(cfg, s, a) && (a.Reap? || a.Sever? || a.Edit? || a.EditKeywords? || a.Dispatch? || a.Tick?)
    ensures var after := Apply(cfg, s, a);
      && after.callers == s.callers && after.db.runs == s.db.runs
      && (after.log == s.log
          || (|after.log| == |s.log| + 1 && after.log == s.log + [after.log[|s.log|]]
              && (after.log[|s.log|].Reactivated? || after.log[|s.log|].Dispatched? || after.log[|s.log|].Reworded?)))
  {
    hide Dispatcher.DispatchBatches, History.AfterEdit;
  }

  lemma OutsideKeepsBase(cfg: Config, s: State, a: Action)
    requires BaseOk(cfg.policy, s) && Enabled(cfg, s, a)
    requires a.Reap? || a.Sever? || a.Edit? || a.EditKeywords? || a.Dispatch? || a.Tick?
    ensures BaseOk(cfg.policy, Apply(cfg, s, a))
  {
    OutsideSteps(cfg, s, a);
    hide Apply, Enabled, Baseline, BaseRow;
    var after := Apply(cfg, s, a);
    if after.log != s.log {
      assert after.log[..|s.log|] == s.log;
      assert DropsOk(cfg.policy, after.log);
    }
    hide DropsOk;
    forall src ensures Baseline(after.log, src) == Baseline(s.log, src) {
      if after.log != s.log {
        LogGrows(s.log, after.log[|s.log|], src);
      }
    }
    forall src ensures SourceOk(after, src) { assert SourceOk(s, src); }
    forall c <- after.callers ensures CallerOk(after, c) { assert CallerOk(s, c); }
  }

  lemma NewRunStep(cfg: Config, s: State, a: Action)
    requires BaseOk(cfg.policy, s) && RowsOk(s) && Enabled(cfg, s, a) && (a.Skip? || a.StartCommit? || a.Call?)
    ensures BaseOk(cfg.policy, Apply(cfg, s, a))
  {
    hide BaseOk, RowsOk;
    var after := Apply(cfg, s, a);
    if a.Call? {
      CallKeepsBase(cfg.policy, s, a.c, Caller(a.sourceId, a.trigger, Start));
    } else if a.Skip? {
      NewRowKeepsBase(cfg.policy, s, a.c, after.callers[a.c].pc,
                      NewRun(s.callers[a.c].sourceId, s.callers[a.c].trigger, Skipped, s.clock), s.log);
    } else {
      NewRowKeepsBase(cfg.policy, s, a.c, after.callers[a.c].pc,
                      NewRun(s.callers[a.c].sourceId, s.callers[a.c].trigger, Running, s.clock), after.log);
    }
  }

  lemma StepKeepsBase(cfg: Config, s: State, a: Action)
    requires BaseOk(cfg.policy, s) && RowsOk(s) && Exclusive(s.callers) && Enabled(cfg, s, a)
    ensures BaseOk(cfg.policy, Apply(cfg, s, a))
  {
    hide BaseOk, RowsOk, Exclusive, Apply, Enabled;
    if a.Call? || a.Skip? || a.StartCommit? {
      NewRunStep(cfg, s, a);
    } else if a.Retain? {
      RetainKeepsBase(cfg, s, a);
    } else if a.Reap? || a.Sever? || a.Edit? || a.EditKeywords? || a.Dispatch? || a.Tick? {
      OutsideKeepsBase(cfg, s, a);
    } else if Apply(cfg, s, a).log == s.log {
      MoveIsOk(cfg, s, a);
    } else if a.FinishCommit? {
      FinishKeepsBase(cfg, s, a);
    } else if a.FailCommit? {
      FailKeepsBase(cfg, s, a);
    } else {
      StepFrame(cfg, s, a);
    }
  }

  lemma {:induction false} ReachableBase(cfg: Config, s: State, actions: seq<Action>)
    requires BaseOk(cfg.policy, s) && RowsOk(s) && StateOk(cfg, s)
    requires Exec(cfg, s, actions).Some? && Exec(cfg, s, actions).value.lost == {}
    ensures BaseOk(cfg.policy, Exec(cfg, s, actions).value) && RowsOk(Exec(cfg, s, actions).value)
    decreases |actions|
  {
    hide BaseOk, RowsOk, StateOk, Apply, Enabled;
    ReachableRows(cfg, s, actions);
    if actions != [] {
      var init := actions[..|actions| - 1];
      var before := Exec(cfg, s, init).value;
      StepLosesOnly(cfg, before, actions[|actions| - 1]);
      ReachableBase(cfg, s, init);
      ReachableLocks(cfg, s, init);
      NobodyNextDoor(cfg, before);
      StepKeepsBase(cfg, before, actions[|actions| - 1]);
    }
  }

  lemma ReachedFromStart(cfg: Config, s: State, after: State)
    requires Initial(s) && Reached(cfg, s, after) && after.lost == {}
    ensures BaseOk(cfg.policy, after) && RowsOk(after)
  {
    InitialRows(s);
    InitialLocks(cfg, s);
    assert BaseOk(cfg.policy, s);
    hide BaseOk, RowsOk, StateOk, Exec;
    var actions :| Exec(cfg, s, actions) == Some(after);
    ReachableBase(cfg, s, actions);
  }

  // ---- the theorems ---------------------------------------------------------------------------

  /** c * keep^n. */
  function Floor(c: nat, keep: real, n: nat): real {
    if n == 0 then c as real else Floor(c, keep, n - 1) * keep
  }

  ghost predicate ValidRatio(ratio: real) {
    0.0 <= ratio <= 1.0
  }

  /** A success keeps more than the share the ratio leaves. */
  lemma NoDropKeepsShare(previous: nat, crawl: CrawlResult, ratio: real, floor: real)
    requires ValidRatio(ratio) && previous > 0 && !FallsShort(crawl, Some(previous), ratio)
    requires previous as real >= floor >= 0.0
    ensures |crawl.items| > 0
    ensures |crawl.items| as real >= floor * (1.0 - ratio)
    ensures ratio > 0.0 ==> |crawl.items| as real > floor * (1.0 - ratio)
  {
    var base, keep, share := previous as real, 1.0 - ratio, previous as real * (1.0 - ratio);
    Product(base - floor, keep);
    Distributes(base, floor, keep);
    Product(base, ratio);
    Distributes(1.0, ratio, base);
    Product(floor, keep);
    assert share == base - base * ratio;
    if |crawl.items| < previous {
      assert |crawl.items| as real > share;
    }
  }

  lemma Product(a: real, b: real)
    requires a >= 0.0 && b >= 0.0
    ensures a * b >= 0.0 && (a > 0.0 && b > 0.0 ==> a * b > 0.0)
  {
  }

  lemma Distributes(a: real, b: real, c: real)
    ensures (a - b) * c == a * c - b * c
  {
  }

  /** Counted from the i-th success of a streak, the n-th keeps the share that is left after n - i of them. */
  ghost predicate StaysAbove(streak: seq<nat>, ratio: real, i: nat, n: nat)
    requires i <= n < |streak|
  {
    var floor := Floor(streak[i], 1.0 - ratio, n - i);
    streak[n] > 0 && streak[n] as real >= floor && (ratio > 0.0 && n > i ==> streak[n] as real > floor)
  }

  /** From every positive count on, however many counts came before it. */
  ghost predicate StaysAboveAll(streak: seq<nat>, ratio: real) {
    forall i, n :: 0 <= i <= n < |streak| && streak[i] > 0 ==> StaysAbove(streak, ratio, i, n)
  }

  lemma {:induction false} FloorIsNonNegative(c: nat, keep: real, n: nat)
    requires keep >= 0.0
    ensures Floor(c, keep, n) >= 0.0
  {
    if n > 0 {
      FloorIsNonNegative(c, keep, n - 1);
    }
  }

  lemma OneMoreSuccess(streak: seq<nat>, crawl: CrawlResult, ratio: real, i: nat)
    requires ValidRatio(ratio) && i < |streak| && StaysAbove(streak, ratio, i, |streak| - 1)
    requires !FallsShort(crawl, Some(streak[|streak| - 1]), ratio)
    ensures StaysAbove(streak + [|crawl.items|], ratio, i, |streak|)
  {
    hide FallsShort;
    var n := |streak| - 1;
    FloorIsNonNegative(streak[i], 1.0 - ratio, n - i);
    NoDropKeepsShare(streak[n], crawl, ratio, Floor(streak[i], 1.0 - ratio, n - i));
  }

  lemma {:induction false} StreakFloor(policy: Policy, log: seq<Entry>, src: nat)
    requires ValidRatio(policy.dropRatio) && DropsOk(policy, log)
    ensures var streak, base := Streak(log, src), Baseline(log, src);
      && (streak != [] <==> base.Some?)
      && (streak != [] ==> streak[|streak| - 1] == base.value.items)
      && StaysAboveAll(streak, policy.dropRatio)
    decreases |log|
  {
    if log != [] {
      var init, e := log[..|log| - 1], log[|log| - 1];
      StreakFloor(policy, init, src);
      var before := Streak(init, src);
      hide Streak, Baseline, DropsOk, StaysAboveAll;
      assert log == init + [e];
      LogGrows(init, e, src);
      NewStreak(policy.dropRatio);
      if e.Committed? && e.sourceId == src && e.complete {
        GrownStreak(before, e.crawl, policy.dropRatio);
      }
    }
  }

  lemma NewStreak(ratio: real)
    ensures StaysAboveAll([], ratio)
  {
  }

  lemma GrownStreak(streak: seq<nat>, crawl: CrawlResult, ratio: real)
    requires ValidRatio(ratio) && StaysAboveAll(streak, ratio)
    requires streak != [] ==> !FallsShort(crawl, Some(streak[|streak| - 1]), ratio)
    ensures StaysAboveAll(streak + [|crawl.items|], ratio)
  {
    hide FallsShort;
    var grown := streak + [|crawl.items|];
    forall i, n | 0 <= i <= n < |grown| && grown[i] > 0 ensures StaysAbove(grown, ratio, i, n) {
      if n < |streak| {
        assert StaysAbove(streak, ratio, i, n);
      } else if i < |streak| {
        assert StaysAbove(streak, ratio, i, |streak| - 1);
        OneMoreSuccess(streak, crawl, ratio, i);
      }
    }
  }

  /**
   * However the callers interleave, while the baseline row is kept the n-th success after any count
   * c > 0 has at least c * (1 - r)^n items, more for r > 0, and never none.
   */
  lemma CountsFallGeometricallyAtMost(cfg: Config, s: State, after: State, src: nat)
    requires Initial(s) && Reached(cfg, s, after) && after.lost == {} && ValidRatio(cfg.policy.dropRatio)
    ensures StaysAboveAll(Streak(after.log, src), cfg.policy.dropRatio)
  {
    ReachedFromStart(cfg, s, after);
    hide Reached, RowsOk, DropsOk, Streak, Baseline, StaysAboveAll;
    StreakFloor(cfg.policy, after.log, src);
  }

  /** Without jobs and without a closing pass nothing was written. */
  lemma NothingWritten(p: Platform, t: JobTables, src: nat, at: Moment, drafts: map<PostingKey, Drafts.Draft>)
    requires Drafts.DraftsAre(p, t, src, [], [], false, at, drafts)
    ensures Drafts.Merged(t, drafts) == t
  {
    forall key ensures Lookup(drafts, key) == None {
      assert Lookup(drafts, key) == Drafts.DraftOf(p, t.keywords, Lookup(t.postings, key), src, key, [], [], false, at);
    }
    Drafts.SameLookups(drafts, map[]);
  }

  /**
   * An empty crawl while the baseline is positive ends PARTIAL and leaves every posting as it was:
   * nothing is closed and no miss is counted.
   */
  lemma EmptyCrawlClosesNothing(cfg: Config, s: State, before: State, a: Action, after: State)
    requires Initial(s) && History.TablesInvariant(cfg.p, CrawlSerial.World(s))
    requires Reached(cfg, s, before) && before.lost == {} && ValidRatio(cfg.policy.dropRatio)
    requires Enabled(cfg, before, a) && a.FinishCommit? && after == Apply(cfg, before, a)
    requires var caller := before.callers[a.c];
      caller.pc.crawl.items == [] && Baseline(before.log, caller.sourceId).Some? && Baseline(before.log, caller.sourceId).value.items > 0
    ensures after.db.jobs == before.db.jobs
    ensures after.log != before.log ==>
              var run := before.callers[a.c].pc.run;
              run in after.db.runs && after.db.runs[run].status.Partial? && !after.log[|before.log|].complete
  {
    ReachedFromStart(cfg, s, before);
    assert CallerOk(before, a.c);
    EmptyCrawlIsPartial(cfg, before, a.c);
    hide Reached, Initial, BaseOk, RowsOk, CallerOk, Baseline, History.TablesInvariant, IsComplete;
    EmptyWork(cfg, s, before, a.c);
    hide Drafts.Merged;
  }

  lemma EmptyCrawlIsPartial(cfg: Config, s: State, c: nat)
    requires c in s.callers && s.callers[c].pc.Finishing? && CallerOk(s, c) && ValidRatio(cfg.policy.dropRatio)
    requires var base := Baseline(s.log, s.callers[c].sourceId); base.Some? && base.value.items > 0
    requires s.callers[c].pc.crawl.items == []
    ensures !IsComplete(cfg, s.callers[c].pc)
  {
    hide Baseline;
  }

  lemma EmptyWork(cfg: Config, s: State, before: State, c: nat)
    requires Initial(s) && History.TablesInvariant(cfg.p, CrawlSerial.World(s)) && Reached(cfg, s, before) && before.lost == {}
    requires c in before.callers && before.callers[c].pc.Finishing? && before.callers[c].pc.crawl.items == [] && !before.callers[c].pc.work.swept
    ensures Drafts.Merged(before.db.jobs, before.callers[c].pc.work.drafts) == before.db.jobs
  {
    hide Exec, History.TablesInvariant, Initial, CrawlSerial.SerialOk, Drafts.DraftsAre, Drafts.Merged, CrawlSerial.Events;
    var actions :| Exec(cfg, s, actions) == Some(before);
    CrawlSerial.ReplayedLog(cfg, s, actions);
    var w := History.Run(cfg.p, CrawlSerial.World(s), CrawlSerial.Events(before.log));
    WorkOfCaller(cfg, before, w, c);
    var pc := before.callers[c].pc;
    assert pc.work.jobs == [] && pc.work.ids == [];
    NothingWritten(cfg.p, before.db.jobs, before.callers[c].sourceId, pc.at, pc.work.drafts);
  }

  lemma WorkOfCaller(cfg: Config, s: State, w: History.World, c: nat)
    requires CrawlSerial.SerialOk(cfg, s, w) && c in s.callers && s.callers[c].pc.Finishing?
    ensures var pc := s.callers[c].pc; CrawlSerial.WorkOk(cfg.p, s.db.jobs, s.callers[c].sourceId, pc.crawl.items, pc.at, pc.work)
  {
    assert CrawlSerial.CallerOk(cfg.p, s.db.jobs, s.callers[c], w, s.clock);
    hide CrawlSerial.WorkOk, CrawlSerial.TimesOk, CrawlSerial.WorldOk, CrawlSerial.IdsOk;
  }
}
