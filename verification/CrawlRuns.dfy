/** Over every run of the protocol: run rows end once, and stay as they ended. */
module CrawlRuns {
  import opened Prelude
  import opened Schema
  import opened Collector
  import opened CrawlRunner
  import opened CrawlProtocol
  import CrawlLocks
  import Drafts
  import Retention
  import History
  import Dispatcher

  // ---- rows, callers and log agree ------------------------------------------------------------

  function EndedRun(e: Entry): Option<nat> {
    if e.Committed? || e.Failure? then Some(e.run) else None
  }

  predicate Terminal(run: CrawlRun) {
    !run.status.Running?
  }

  /** What the row of a finished run says. */
  ghost predicate RowShows(e: Entry, run: CrawlRun) {
    match e
    case Committed(src, _, crawl, complete, _, _, _) =>
      run.sourceId == src && run.status == (if complete then Success else Partial) && run.itemsFetched == |crawl.items|
    case Failure(src, _, _) => run.sourceId == src && run.status.FailedRun?
    case _ => true
  }

  ghost predicate Nobodys(callers: map<nat, Caller>, run: nat) {
    forall c <- callers :: callers[c].pc.HasRun() ==> callers[c].pc.run != run
  }

  ghost predicate IsClosed(e: Entry, callers: map<nat, Caller>, runs: map<nat, CrawlRun>, next: nat) {
    match EndedRun(e)
    case None => true
    case Some(run) => run < next && (run in runs ==> RowShows(e, runs[run])) && Nobodys(callers, run)
  }

  ghost predicate LogOk(callers: map<nat, Caller>, runs: map<nat, CrawlRun>, next: nat, log: seq<Entry>) {
    && (forall i :: 0 <= i < |log| ==> IsClosed(log[i], callers, runs, next))
    && (forall i, j :: 0 <= i < j < |log| && EndedRun(log[i]).Some? ==> EndedRun(log[i]) != EndedRun(log[j]))
  }

  ghost predicate RunsOk(callers: map<nat, Caller>, runs: map<nat, CrawlRun>, next: nat, clock: Instant) {
    && (forall id <- runs :: id < next && runs[id].startedAt <= clock)
    && (forall a <- runs, b <- runs :: a <= b ==> runs[a].startedAt <= runs[b].startedAt)
    && (forall c <- callers :: callers[c].pc.HasRun() ==>
          && callers[c].pc.run < next
          && (callers[c].pc.run in runs ==>
                runs[callers[c].pc.run].status.Running? && runs[callers[c].pc.run].sourceId == callers[c].sourceId))
    && (forall c <- callers, d <- callers :: c != d && callers[c].pc.HasRun() && callers[d].pc.HasRun() ==>
          callers[c].pc.run != callers[d].pc.run)
  }

  ghost predicate RowsOk(s: State) {
    RunsOk(s.callers, s.db.runs, s.db.nextRunId, s.clock) && LogOk(s.callers, s.db.runs, s.db.nextRunId, s.log)
  }

  /** Moving on with the same run, or giving it up. */
  lemma MoveKeepsRows(s: State, c: nat, pc: Pc, after: State)
    requires RowsOk(s) && c in s.callers
    requires pc.HasRun() ==> s.callers[c].pc.HasRun() && pc.run == s.callers[c].pc.run
    requires after.callers == s.callers[c := s.callers[c].(pc := pc)] && after.clock == s.clock && after.log == s.log
    requires after.db.runs == s.db.runs && after.db.nextRunId == s.db.nextRunId
    ensures RowsOk(after)
  {
  }

  lemma CallKeepsRows(s: State, c: nat, caller: Caller)
    requires RowsOk(s) && c !in s.callers && !caller.pc.HasRun()
    ensures RowsOk(s.(callers := s.callers[c := caller]))
  {
  }

  lemma SkipKeepsRows(s: State, c: nat, pc: Pc, run: CrawlRun)
    requires RowsOk(s) && c in s.callers && !pc.HasRun() && run.startedAt == s.clock
    ensures RowsOk(Moved(s, c, pc).(db := WithRun(s.db, run)))
  {
  }

  lemma BeginKeepsRows(s: State, c: nat, pc: Pc, run: CrawlRun)
    requires RowsOk(s) && c in s.callers && !s.callers[c].pc.HasRun() && pc.HasRun() && pc.run == s.db.nextRunId
    requires run.startedAt == s.clock && run.status.Running? && run.sourceId == s.callers[c].sourceId
    ensures RowsOk(Moved(s, c, pc).(db := WithRun(s.db, run), log := s.log + [Began(run.sourceId, s.db.nextRunId)]))
  {
  }

  lemma EndKeepsRows(s: State, c: nat, pc: Pc, row: CrawlRun, e: Entry, after: State)
    requires RowsOk(s) && c in s.callers && s.callers[c].pc.HasRun() && !pc.HasRun()
    requires EndedRun(e) == Some(s.callers[c].pc.run) && s.callers[c].pc.run in s.db.runs
    requires row.startedAt == s.db.runs[s.callers[c].pc.run].startedAt && RowShows(e, row)
    requires after.callers == s.callers[c := s.callers[c].(pc := pc)] && after.clock == s.clock && after.log == s.log + [e]
    requires after.db.runs == s.db.runs[s.callers[c].pc.run := row] && after.db.nextRunId == s.db.nextRunId
    ensures RowsOk(after)
  {
    var run := s.callers[c].pc.run;
    assert RunsOk(after.callers, after.db.runs, after.db.nextRunId, after.clock) by { hide LogOk; }
    hide RunsOk;
    forall i | 0 <= i < |s.log| ensures EndedRun(s.log[i]) != Some(run) {
      assert IsClosed(s.log[i], s.callers, s.db.runs, s.db.nextRunId);
    }
  }

  lemma PurgeKeepsRows(s: State, gone: set<nat>, after: State, e: Entry)
    requires RowsOk(s) && EndedRun(e).None?
    requires after.callers == s.callers && after.clock == s.clock && after.log == s.log + [e]
    requires after.db.runs == s.db.runs - gone && after.db.nextRunId == s.db.nextRunId
    ensures RowsOk(after)
  {
  }

  lemma WaitKeepsRows(s: State, after: State)
    requires RowsOk(s) && s.clock <= after.clock && after.callers == s.callers
    requires after.log == s.log || exists e :: EndedRun(e).None? && after.log == s.log + [e]
    requires after.db.runs == s.db.runs && after.db.nextRunId == s.db.nextRunId
    ensures RowsOk(after)
  {
  }

  lemma StepKeepsRows(cfg: Config, s: State, a: Action)
    requires RowsOk(s) && Enabled(cfg, s, a)
    ensures RowsOk(Apply(cfg, s, a))
  {
    hide RowsOk, Apply, Enabled;
    if a.Call? {
      CallStep(cfg, s, a);
    } else if a.Skip? || a.StartCommit? {
      NewRunStep(cfg, s, a);
    } else if a.FinishCommit? {
      FinishKeepsRows(cfg, s, a);
    } else if a.FailCommit? {
      FailKeepsRows(cfg, s, a);
    } else if a.Retain? {
      RetainStep(cfg, s, a);
    } else if a.Edit? || a.EditKeywords? || a.Dispatch? || a.Tick? || a.Reap? || a.Sever? {
      OutsideStep(cfg, s, a);
    } else {
      OtherStepKeepsRows(cfg, s, a);
    }
  }

  lemma CallStep(cfg: Config, s: State, a: Action)
    requires RowsOk(s) && Enabled(cfg, s, a) && a.Call?
    ensures RowsOk(Apply(cfg, s, a))
  {
    hide RowsOk;
    CallKeepsRows(s, a.c, Caller(a.sourceId, a.trigger, Start));
  }

  lemma NewRunStep(cfg: Config, s: State, a: Action)
    requires RowsOk(s) && Enabled(cfg, s, a) && (a.Skip? || a.StartCommit?)
    ensures RowsOk(Apply(cfg, s, a))
  {
    hide RowsOk;
    var after := Apply(cfg, s, a);
    var run := NewRun(s.callers[a.c].sourceId, s.callers[a.c].trigger, if a.Skip? then Skipped else Running, s.clock);
    if a.Skip? {
      SkipKeepsRows(s, a.c, after.callers[a.c].pc, run);
    } else {
      BeginKeepsRows(s, a.c, after.callers[a.c].pc, run);
    }
  }

  lemma RetainStep(cfg: Config, s: State, a: Action)
    requires RowsOk(s) && Enabled(cfg, s, a) && a.Retain?
    ensures RowsOk(Apply(cfg, s, a))
  {
    hide RowsOk, Retention.RetainedJobs, RowsAreFree;
    var after := Apply(cfg, s, a);
    PurgeKeepsRows(s, Retention.OldRuns(s.db, s.clock - Retention.RUN_DAYS * DAY), after, after.log[|s.log|]);
  }

  /** Steps around the callers: at most an entry that ends no run, and no run row. */
  lemma OutsideStep(cfg: Config, s: State, a: Action)
    requires RowsOk(s) && Enabled(cfg, s, a)
    requires a.Edit? || a.EditKeywords? || a.Dispatch? || a.Tick? || a.Reap? || a.Sever?
    ensures RowsOk(Apply(cfg, s, a))
  {
    hide RowsOk, Dispatcher.DispatchBatches, History.AfterEdit;
    var after := Apply(cfg, s, a);
    if after.log != s.log {
      assert EndedRun(after.log[|s.log|]).None? && after.log == s.log + [after.log[|s.log|]];
    }
    WaitKeepsRows(s, after);
  }

  predicate KeepsRows(a: Action) {
    || a.Load? || a.TryLock? || a.LockFault? || a.SkipFault? || a.StartRead? || a.StartFault? || a.CrawlRaises? || a.FinishBegin?
    || a.FinishRead? || a.SightJob? || a.CloseMissing? || a.FinishFault? || a.FailRead? || a.FailFault? || a.Unlock?
    || a.UnlockFault? || a.Close? || a.Crash?
  }

  /** Moving on with the same run, or without one. */
  ghost predicate MovesOn(s: State, c: nat, after: State) {
    && c in s.callers && c in after.callers
    && (after.callers[c].pc.HasRun() ==> s.callers[c].pc.HasRun() && after.callers[c].pc.run == s.callers[c].pc.run)
    && after.callers == s.callers[c := s.callers[c].(pc := after.callers[c].pc)] && after.clock == s.clock && after.log == s.log
    && after.db.runs == s.db.runs && after.db.nextRunId == s.db.nextRunId
  }

  lemma OtherStepKeepsRows(cfg: Config, s: State, a: Action)
    requires RowsOk(s) && Enabled(cfg, s, a) && KeepsRows(a)
    ensures RowsOk(Apply(cfg, s, a))
  {
    hide RowsOk, Apply, Enabled, MovesOn;
    if AtLock(a) {
      LockMovesOn(cfg, s, a);
    } else if InFinish(a) {
      FinishMovesOn(cfg, s, a);
    } else {
      RunMovesOn(cfg, s, a);
    }
    MovedOnKeepsRows(s, a.c, Apply(cfg, s, a));
  }

  lemma MovedOnKeepsRows(s: State, c: nat, after: State)
    requires RowsOk(s) && MovesOn(s, c, after)
    ensures RowsOk(after)
  {
    MoveKeepsRows(s, c, after.callers[c].pc, after);
    hide RowsOk;
  }

  lemma LockMovesOn(cfg: Config, s: State, a: Action)
    requires Enabled(cfg, s, a) && KeepsRows(a) && AtLock(a)
    ensures MovesOn(s, a.c, Apply(cfg, s, a))
  {
  }

  lemma FinishMovesOn(cfg: Config, s: State, a: Action)
    requires Enabled(cfg, s, a) && KeepsRows(a) && InFinish(a)
    ensures MovesOn(s, a.c, Apply(cfg, s, a))
  {
    hide LatestSuccessfulItems, Drafts.Swept, WithJob, Joined, IsComplete;
  }

  lemma RunMovesOn(cfg: Config, s: State, a: Action)
    requires Enabled(cfg, s, a) && KeepsRows(a) && !AtLock(a) && !InFinish(a)
    ensures MovesOn(s, a.c, Apply(cfg, s, a))
  {
  }

  lemma FinishKeepsRows(cfg: Config, s: State, a: Action)
    requires RowsOk(s) && Enabled(cfg, s, a) && a.FinishCommit?
    ensures RowsOk(Apply(cfg, s, a))
  {
    hide RowsOk, Drafts.Merged, IsComplete;
    var after, c := Apply(cfg, s, a), a.c;
    var pc := s.callers[c].pc;
    if s.callers[c].sourceId in s.db.sources && pc.run in s.db.runs {
      assert s.db.runs[pc.run].sourceId == s.callers[c].sourceId by { RunOfCaller(s, c); }
      EndKeepsRows(s, c, after.callers[c].pc, after.db.runs[pc.run], after.log[|s.log|], after);
    } else {
      MoveKeepsRows(s, c, after.callers[c].pc, after);
    }
  }

  lemma RunOfCaller(s: State, c: nat)
    requires RowsOk(s) && c in s.callers && s.callers[c].pc.HasRun() && s.callers[c].pc.run in s.db.runs
    ensures s.db.runs[s.callers[c].pc.run].status.Running?
    ensures s.db.runs[s.callers[c].pc.run].sourceId == s.callers[c].sourceId
  {
  }

  lemma FailKeepsRows(cfg: Config, s: State, a: Action)
    requires RowsOk(s) && Enabled(cfg, s, a) && a.FailCommit?
    ensures RowsOk(Apply(cfg, s, a))
  {
    hide RowsOk;
    var after, c := Apply(cfg, s, a), a.c;
    var pc := s.callers[c].pc;
    if s.callers[c].sourceId in s.db.sources && pc.run in s.db.runs {
      assert s.db.runs[pc.run].sourceId == s.callers[c].sourceId by { RunOfCaller(s, c); }
      EndKeepsRows(s, c, after.callers[c].pc, after.db.runs[pc.run], after.log[|s.log|], after);
    } else {
      MoveKeepsRows(s, c, after.callers[c].pc, after);
    }
  }

  lemma {:induction false} ReachableRows(cfg: Config, s: State, actions: seq<Action>)
    requires RowsOk(s) && Exec(cfg, s, actions).Some?
    ensures RowsOk(Exec(cfg, s, actions).value)
    decreases |actions|
  {
    hide RowsOk, Apply, Enabled;
    if actions != [] {
      ReachableRows(cfg, s, actions[..|actions| - 1]);
      StepKeepsRows(cfg, Exec(cfg, s, actions[..|actions| - 1]).value, actions[|actions| - 1]);
    }
  }

  lemma InitialRows(s: State)
    requires Initial(s)
    ensures RowsOk(s)
  {
  }

  // ---- a run ends at most once ----------------------------------------------------------------

  /** What one step may do to a run row. */
  ghost predicate RowStep(s: State, after: State, id: nat) {
    if id in s.db.runs then
      || (id in after.db.runs && after.db.runs[id] == s.db.runs[id] && |after.log| <= |s.log| + 1)
      || (id !in after.db.runs && s.db.runs[id].startedAt < s.clock - Retention.RUN_DAYS * DAY && after.log != s.log)
      || (&& id in after.db.runs && !Terminal(s.db.runs[id]) && Terminal(after.db.runs[id])
          && after.db.runs[id].sourceId == s.db.runs[id].sourceId && after.db.runs[id].trigger == s.db.runs[id].trigger
          && after.db.runs[id].startedAt == s.db.runs[id].startedAt
          && |after.log| == |s.log| + 1 && EndedRun(after.log[|s.log|]) == Some(id) && RowShows(after.log[|s.log|], after.db.runs[id]))
    else
      id in after.db.runs ==> id == s.db.nextRunId && (after.db.runs[id].status.Running? || after.db.runs[id].status.Skipped?)
  }

  lemma RunRowsMoveForward(cfg: Config, s: State, a: Action, after: State, id: nat)
    requires RowsOk(s) && Enabled(cfg, s, a) && after == Apply(cfg, s, a)
    ensures RowStep(s, after, id)
    ensures s.db.nextRunId <= after.db.nextRunId
  {
    hide Apply;
    if a.FinishCommit? || a.FailCommit? {
      EndMovesForward(cfg, s, a, after, id);
    } else if a.Skip? || a.StartCommit? || a.Retain? {
      RowsComeAndGo(cfg, s, a, after, id);
    } else {
      RowsStay(cfg, s, a, after);
    }
  }

  lemma EndMovesForward(cfg: Config, s: State, a: Action, after: State, id: nat)
    requires RowsOk(s) && Enabled(cfg, s, a) && after == Apply(cfg, s, a) && (a.FinishCommit? || a.FailCommit?)
    ensures RowStep(s, after, id) && s.db.nextRunId == after.db.nextRunId
  {
    if s.callers[a.c].pc.run in s.db.runs {
      RunOfCaller(s, a.c);
    }
    hide RowsOk, Drafts.Merged, IsComplete;
  }

  lemma RowsComeAndGo(cfg: Config, s: State, a: Action, after: State, id: nat)
    requires RowsOk(s) && Enabled(cfg, s, a) && after == Apply(cfg, s, a) && (a.Skip? || a.StartCommit? || a.Retain?)
    ensures RowStep(s, after, id) && s.db.nextRunId <= after.db.nextRunId
  {
    assert id in s.db.runs ==> id < s.db.nextRunId;
    hide RowsOk, Retention.RetainedJobs, RowsAreFree;
  }

  lemma RowsStay(cfg: Config, s: State, a: Action, after: State)
    requires Enabled(cfg, s, a) && after == Apply(cfg, s, a)
    requires !a.FinishCommit? && !a.FailCommit? && !a.Skip? && !a.StartCommit? && !a.Retain?
    ensures after.db.runs == s.db.runs && after.db.nextRunId == s.db.nextRunId && |after.log| <= |s.log| + 1
  {
    hide Apply, Enabled;
    CrawlLocks.StepFrame(cfg, s, a);
  }

  /** A finished run's row stays as it is until retention deletes it, and its id is not used again. */
  lemma {:induction false} TerminalIsFinal(cfg: Config, s: State, actions: seq<Action>, id: nat)
    requires RowsOk(s) && Exec(cfg, s, actions).Some?
    requires id < s.db.nextRunId && (id in s.db.runs ==> Terminal(s.db.runs[id]))
    ensures var after := Exec(cfg, s, actions).value;
      && id < after.db.nextRunId
      && (id in after.db.runs ==> id in s.db.runs && after.db.runs[id] == s.db.runs[id])
    decreases |actions|
  {
    hide RowsOk, Apply, Enabled;
    if actions != [] {
      var init := actions[..|actions| - 1];
      TerminalIsFinal(cfg, s, init, id);
      ReachableRows(cfg, s, init);
      RunRowsMoveForward(cfg, Exec(cfg, s, init).value, actions[|actions| - 1], Exec(cfg, s, actions).value, id);
    }
  }

  /** Every run ends at most once, and its row says how, for as long as it is kept. */
  lemma RunsEndOnce(cfg: Config, s: State, after: State)
    requires Initial(s) && Reached(cfg, s, after)
    ensures forall i, j :: 0 <= i < j < |after.log| && EndedRun(after.log[i]).Some? ==> EndedRun(after.log[i]) != EndedRun(after.log[j])
    ensures forall i :: 0 <= i < |after.log| && EndedRun(after.log[i]).Some? && EndedRun(after.log[i]).value in after.db.runs ==>
              RowShows(after.log[i], after.db.runs[EndedRun(after.log[i]).value])
  {
    hide Exec, RunsOk, RowShows;
    var actions :| Exec(cfg, s, actions) == Some(after);
    InitialRows(s);
    ReachableRows(cfg, s, actions);
    forall i | 0 <= i < |after.log| ensures IsClosed(after.log[i], after.callers, after.db.runs, after.db.nextRunId) {
    }
  }
}
