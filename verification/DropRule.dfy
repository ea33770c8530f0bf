/** When a finished crawl counts as PARTIAL, over every run of the protocol. */
module DropRule {
  import opened Prelude
  import opened Schema
  import opened CrawlRunner
  import opened CrawlProtocol
  import opened CrawlLocks
  import opened CrawlRuns
  import opened DropBaseline
  import CrawlBreaker
  import Collector
  import Drafts
  import Retention
  import History
  import Dispatcher

  function ItemsOf(base: Option<Base>): Option<nat> {
    match base
    case None => None
    case Some(b) => Some(b.items)
  }

  /** Some moment of the run, before it ended: its row was there, and this was the source's baseline. */
  ghost predicate ReadAt(log: seq<Entry>, m: nat, src: nat, run: nat, baseline: Option<nat>)
    requires m <= |log|
  {
    Began(src, run) in log[..m] && baseline == ItemsOf(Baseline(log[..m], src))
  }

  ghost predicate ReadFrom(log: seq<Entry>, caller: Caller) {
    && (caller.pc.HasRun() ==> Began(caller.sourceId, caller.pc.run) in log)
    && (caller.pc.Finishing? ==> exists m: nat :: m <= |log| && ReadAt(log, m, caller.sourceId, caller.pc.run, caller.pc.baseline))
  }

  /**
   * A committed run was PARTIAL exactly when its crawl fell short of the baseline of some moment
   * between the run's beginning and its end. That is the baseline of the end, if there still is one;
   * only retention can delete it in between.
   */
  ghost predicate Judged(policy: Policy, before: seq<Entry>, e: Entry) {
    e.Committed? ==>
      exists m: nat, baseline ::
        && m <= |before| && ReadAt(before, m, e.sourceId, e.run, baseline)
        && (Baseline(before, e.sourceId).Some? ==> baseline == ItemsOf(Baseline(before, e.sourceId)))
        && (e.complete <==> !FallsShort(e.crawl, baseline, policy.dropRatio))
  }

  ghost predicate ReadsOk(policy: Policy, s: State) {
    && (forall i :: 0 <= i < |s.log| ==> Judged(policy, s.log[..i], s.log[i]))
    && (forall c <- s.callers :: ReadFrom(s.log, s.callers[c]))
  }

  // ---- what a step does to the callers --------------------------------------------------------

  /** A caller goes on with its run and the baseline it has read, or begins a run, or reads the baseline. */
  ghost predicate Follows(s: State, c: nat, after: State) {
    && c in s.callers && c in after.callers && after.callers == s.callers[c := s.callers[c].(pc := after.callers[c].pc)]
    && var src, pc, next := s.callers[c].sourceId, s.callers[c].pc, after.callers[c].pc;
       next.HasRun() ==>
         || (after.log == s.log + [Began(src, next.run)] && !next.Finishing?)
         || (&& pc.HasRun() && next.run == pc.run && after.log == s.log
             && (next.Finishing? ==> next.baseline == if pc.Finishing? then pc.baseline else LatestSuccessfulItems(s.db, src)))
  }

  lemma FinisherFollows(cfg: Config, s: State, a: Action)
    requires Enabled(cfg, s, a) && InFinish(a) && !a.FinishCommit?
    ensures Follows(s, a.c, Apply(cfg, s, a)) && Apply(cfg, s, a).log == s.log
  {
    hide LatestSuccessfulItems, Drafts.Swept, WithJob, Collector.Joined, IsComplete;
  }

  lemma CommitFollows(cfg: Config, s: State, a: Action)
    requires Enabled(cfg, s, a) && a.FinishCommit?
    ensures var after, pc := Apply(cfg, s, a), s.callers[a.c].pc;
      && Follows(s, a.c, after)
      && (after.log == s.log
          || after.log == s.log + [Committed(s.callers[a.c].sourceId, pc.run, pc.crawl, IsComplete(cfg, pc), pc.at, pc.work.ids, s.clock)])
  {
    hide Drafts.Merged, IsComplete, Recorded, LatestSuccessfulItems;
  }

  lemma RunnerFollows(cfg: Config, s: State, a: Action)
    requires Enabled(cfg, s, a) && !AtLock(a) && !Outside(a) && !InFinish(a)
    ensures Follows(s, a.c, Apply(cfg, s, a)) && Unjudged(s.log, Apply(cfg, s, a).log)
  {
    hide LatestSuccessfulItems, MarkedFailed;
  }

  lemma OutsiderFollows(cfg: Config, s: State, a: Action)
    requires Enabled(cfg, s, a) && AtLock(a) && !a.Call?
    ensures Follows(s, a.c, Apply(cfg, s, a)) && Apply(cfg, s, a).log == s.log
  {
    hide LatestSuccessfulItems;
  }

  /** At most one more entry, and none of a committed crawl. */
  ghost predicate Unjudged(log: seq<Entry>, after: seq<Entry>) {
    after == log || (|after| == |log| + 1 && after == log + [after[|log|]] && !after[|log|].Committed?)
  }

  lemma WorldFollows(cfg: Config, s: State, a: Action)
    requires Enabled(cfg, s, a) && Outside(a)
    ensures Apply(cfg, s, a).callers == s.callers && Unjudged(s.log, Apply(cfg, s, a).log)
  {
    hide Dispatcher.DispatchBatches, History.AfterEdit, Retention.Retained, RowsAreFree, Retention.OldRuns;
  }

  // ---- the invariant --------------------------------------------------------------------------

  lemma ReadKept(log: seq<Entry>, more: seq<Entry>, caller: Caller)
    requires ReadFrom(log, caller) && log <= more
    ensures ReadFrom(more, caller)
  {
    hide Baseline;
    if caller.pc.Finishing? {
      var m: nat :| m <= |log| && ReadAt(log, m, caller.sourceId, caller.pc.run, caller.pc.baseline);
      assert more[..m] == log[..m];
      assert ReadAt(more, m, caller.sourceId, caller.pc.run, caller.pc.baseline);
    }
  }

  lemma FollowerReads(s: State, c: nat, after: State)
    requires c in s.callers && RowsOk(s) && DropBaseline.SourceOk(s, s.callers[c].sourceId) && ReadFrom(s.log, s.callers[c])
    requires Follows(s, c, after)
    ensures ReadFrom(after.log, after.callers[c])
  {
    var src, pc, next := s.callers[c].sourceId, s.callers[c].pc, after.callers[c].pc;
    BaselineIsQueried(s, src);
    hide RowsOk, DropBaseline.SourceOk, LatestSuccessfulItems, Baseline;
    if next.Finishing? {
      if pc.Finishing? {
        var m: nat :| m <= |s.log| && ReadAt(s.log, m, src, pc.run, pc.baseline);
        assert ReadAt(after.log, m, src, next.run, next.baseline);
      } else {
        assert s.log[..|s.log|] == s.log;
        assert ReadAt(after.log, |s.log|, src, next.run, next.baseline);
      }
    }
  }

  lemma JudgedLog(policy: Policy, log: seq<Entry>, e: Entry)
    requires forall i :: 0 <= i < |log| ==> Judged(policy, log[..i], log[i])
    requires Judged(policy, log, e)
    ensures forall i :: 0 <= i < |log + [e]| ==> Judged(policy, (log + [e])[..i], (log + [e])[i])
  {
    hide Judged;
    forall i | 0 <= i < |log + [e]| ensures Judged(policy, (log + [e])[..i], (log + [e])[i]) {
      assert (log + [e])[..i] == log[..i];
      if i == |log| {
        assert log[..i] == log;
      }
    }
  }

  lemma CommitIsJudged(cfg: Config, s: State, c: nat)
    requires c in s.callers && s.callers[c].pc.Finishing? && DropBaseline.CallerOk(s, c) && ReadFrom(s.log, s.callers[c])
    ensures var src, pc := s.callers[c].sourceId, s.callers[c].pc;
      Judged(cfg.policy, s.log, Committed(src, pc.run, pc.crawl, IsComplete(cfg, pc), pc.at, pc.work.ids, s.clock))
  {
    var src, pc := s.callers[c].sourceId, s.callers[c].pc;
    PartialMeansShort(cfg.policy, pc.crawl, pc.baseline);
    hide Baseline, FallsShort, IsPartial;
    var m: nat :| m <= |s.log| && ReadAt(s.log, m, src, pc.run, pc.baseline);
  }

  lemma FollowingKeepsReads(policy: Policy, s: State, c: nat, after: State)
    requires ReadsOk(policy, s) && RowsOk(s) && BaseOk(policy, s) && c in s.callers
    requires Follows(s, c, after) && s.log <= after.log
    requires forall i :: 0 <= i < |after.log| ==> Judged(policy, after.log[..i], after.log[i])
    ensures ReadsOk(policy, after)
  {
    assert DropBaseline.SourceOk(s, s.callers[c].sourceId);
    FollowerReads(s, c, after);
    hide Judged, ReadFrom, RowsOk, BaseOk, Follows;
    forall d <- after.callers ensures ReadFrom(after.log, after.callers[d]) {
      if d != c {
        assert Follows(s, c, after);
        Bystander(s, c, after, d);
        ReadKept(s.log, after.log, s.callers[d]);
      }
    }
  }

  lemma Bystander(s: State, c: nat, after: State, d: nat)
    requires Follows(s, c, after) && d != c && d in after.callers
    ensures d in s.callers && after.callers[d] == s.callers[d]
  {
  }

  lemma UnjudgedLog(policy: Policy, log: seq<Entry>, after: seq<Entry>)
    requires forall i :: 0 <= i < |log| ==> Judged(policy, log[..i], log[i])
    requires Unjudged(log, after)
    ensures log <= after && forall i :: 0 <= i < |after| ==> Judged(policy, after[..i], after[i])
  {
    if after != log {
      assert Judged(policy, log, after[|log|]);
      hide Judged;
      JudgedLog(policy, log, after[|log|]);
    }
  }

  lemma StepKeepsReads(cfg: Config, s: State, a: Action)
    requires ReadsOk(cfg.policy, s) && RowsOk(s) && BaseOk(cfg.policy, s) && Enabled(cfg, s, a)
    ensures ReadsOk(cfg.policy, Apply(cfg, s, a))
  {
    hide Apply, Enabled, Judged, ReadFrom, RowsOk, BaseOk, Follows, Unjudged;
    var after := Apply(cfg, s, a);
    if a.Call? {
      CallReads(cfg, s, a);
    } else if Outside(a) {
      WorldFollows(cfg, s, a);
      UnjudgedLog(cfg.policy, s.log, after.log);
      forall c <- after.callers ensures ReadFrom(after.log, after.callers[c]) {
        ReadKept(s.log, after.log, s.callers[c]);
      }
    } else {
      if a.FinishCommit? {
        CommitReads(cfg, s, a);
      } else {
        MoverFollows(cfg, s, a);
        UnjudgedLog(cfg.policy, s.log, after.log);
      }
      CallerIsKnown(s, a.c, after);
      FollowingKeepsReads(cfg.policy, s, a.c, after);
    }
  }

  lemma CallerIsKnown(s: State, c: nat, after: State)
    requires Follows(s, c, after)
    ensures c in s.callers
  {
  }

  lemma MoverFollows(cfg: Config, s: State, a: Action)
    requires Enabled(cfg, s, a) && !a.Call? && !Outside(a) && !a.FinishCommit?
    ensures Follows(s, a.c, Apply(cfg, s, a)) && Unjudged(s.log, Apply(cfg, s, a).log)
  {
    hide Apply, Enabled, Follows;
    if AtLock(a) {
      OutsiderFollows(cfg, s, a);
    } else if InFinish(a) {
      FinisherFollows(cfg, s, a);
    } else {
      RunnerFollows(cfg, s, a);
    }
  }

  lemma CommitReads(cfg: Config, s: State, a: Action)
    requires ReadsOk(cfg.policy, s) && BaseOk(cfg.policy, s) && Enabled(cfg, s, a) && a.FinishCommit?
    ensures var after := Apply(cfg, s, a);
      Follows(s, a.c, after) && s.log <= after.log && forall i :: 0 <= i < |after.log| ==> Judged(cfg.policy, after.log[..i], after.log[i])
  {
    CommitFollows(cfg, s, a);
    FinisherIsKnown(cfg, s, a);
    hide Apply, Enabled, Judged, ReadFrom, Follows, IsComplete;
    var after, c, pc := Apply(cfg, s, a), a.c, s.callers[a.c].pc;
    if after.log != s.log {
      assert DropBaseline.CallerOk(s, c);
      CommitIsJudged(cfg, s, c);
      JudgedLog(cfg.policy, s.log, Committed(s.callers[c].sourceId, pc.run, pc.crawl, IsComplete(cfg, pc), pc.at, pc.work.ids, s.clock));
    }
  }

  lemma FinisherIsKnown(cfg: Config, s: State, a: Action)
    requires Enabled(cfg, s, a) && a.FinishCommit?
    ensures a.c in s.callers && s.callers[a.c].pc.Finishing?
  {
    hide IsComplete;
  }

  lemma CallReads(cfg: Config, s: State, a: Action)
    requires ReadsOk(cfg.policy, s) && Enabled(cfg, s, a) && a.Call?
    ensures ReadsOk(cfg.policy, Apply(cfg, s, a))
  {
    hide Judged;
    var after := Apply(cfg, s, a);
    forall c <- after.callers ensures ReadFrom(after.log, after.callers[c]) {
      if c != a.c {
        assert ReadFrom(s.log, s.callers[c]);
      }
    }
  }

  lemma {:induction false} ReachableReads(cfg: Config, s: State, actions: seq<Action>)
    requires Initial(s) && Exec(cfg, s, actions).Some? && Exec(cfg, s, actions).value.lost == {}
    ensures ReadsOk(cfg.policy, Exec(cfg, s, actions).value)
    decreases |actions|
  {
    hide ReadsOk, Initial, Apply, Enabled, BaseOk, RowsOk;
    if actions == [] {
      NothingRead(cfg.policy, s);
    } else {
      var init := actions[..|actions| - 1];
      var before := Exec(cfg, s, init).value;
      StepLosesOnly(cfg, before, actions[|actions| - 1]);
      ReachableReads(cfg, s, init);
      ReachedFromStart(cfg, s, before);
      StepKeepsReads(cfg, before, actions[|actions| - 1]);
    }
  }

  lemma NothingRead(policy: Policy, s: State)
    requires Initial(s)
    ensures ReadsOk(policy, s)
  {
  }

  // ---- the theorem ----------------------------------------------------------------------------

  /** What the entry of a committed run says of its crawl and of the baseline it was compared with. */
  ghost predicate PartialExactly(log: seq<Entry>, i: nat, ratio: real)
    requires i < |log| && log[i].Committed?
  {
    var e := log[i];
    exists m: nat, baseline ::
      && m <= i && ReadAt(log, m, e.sourceId, e.run, baseline)
      && (Baseline(log[..i], e.sourceId).Some? ==> baseline == ItemsOf(Baseline(log[..i], e.sourceId)))
      && (!e.complete <==>
            || e.crawl.partial
            || (&& baseline.Some? && baseline.value > 0 && |e.crawl.items| < baseline.value
                && |e.crawl.items| as real <= baseline.value as real * (1.0 - ratio)))
  }

  /**
   * In every run of the protocol a committed crawl is PARTIAL exactly when it was partial itself, or
   * kept at most the share 1 - r of a positive baseline; without a baseline, or with baseline 0, a
   * whole crawl is a SUCCESS. The run's row says which, and the query for the baseline finds in every
   * state the last success that retention has not deleted.
   */
  lemma CommittedIsPartialExactly(cfg: Config, s: State, after: State)
    requires Initial(s) && Reached(cfg, s, after) && after.lost == {}
    ensures forall i :: 0 <= i < |after.log| && after.log[i].Committed? ==>
              && PartialExactly(after.log, i, cfg.policy.dropRatio)
              && (after.log[i].run in after.db.runs ==>
                    after.db.runs[after.log[i].run].status == if after.log[i].complete then Success else Partial)
    ensures forall src :: LatestSuccessfulItems(after.db, src) == ItemsOf(Baseline(after.log, src))
  {
    ReachedFromStart(cfg, s, after);
    assert forall src :: DropBaseline.SourceOk(after, src);
    hide Initial, DropBaseline.SourceOk, LatestSuccessfulItems, Baseline, BaseOk, Exec, PartialExactly, Judged, ReadFrom;
    forall src ensures LatestSuccessfulItems(after.db, src) == ItemsOf(Baseline(after.log, src)) {
      BaselineIsQueried(after, src);
    }
    var actions :| Exec(cfg, s, actions) == Some(after);
    ReachableReads(cfg, s, actions);
    hide Reached;
    forall i: nat | i < |after.log| && after.log[i].Committed?
      ensures PartialExactly(after.log, i, cfg.policy.dropRatio)
      ensures after.log[i].run in after.db.runs ==>
                after.db.runs[after.log[i].run].status == if after.log[i].complete then Success else Partial
    {
      JudgedInLog(cfg.policy, after.log, i);
      assert IsClosed(after.log[i], after.callers, after.db.runs, after.db.nextRunId);
    }
  }

  lemma JudgedInLog(policy: Policy, log: seq<Entry>, i: nat)
    requires i < |log| && log[i].Committed? && Judged(policy, log[..i], log[i])
    ensures PartialExactly(log, i, policy.dropRatio)
  {
    hide Baseline;
    var before, e := log[..i], log[i];
    var m: nat, baseline :| m <= |before| && ReadAt(before, m, e.sourceId, e.run, baseline)
        && (Baseline(before, e.sourceId).Some? ==> baseline == ItemsOf(Baseline(before, e.sourceId)))
        && (e.complete <==> !FallsShort(e.crawl, baseline, policy.dropRatio));
    assert before[..m] == log[..m];
    assert ReadAt(log, m, e.sourceId, e.run, baseline);
  }
}
