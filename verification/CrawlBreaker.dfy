/**
 * The circuit breaker over every run of the protocol. It rests on mutual exclusion: without it two
 * callers could read the same failure count, or one could start on a count the other then raises.
 */
module CrawlBreaker {
  import opened Prelude
  import opened Schema
  import opened Collector
  import opened CrawlRunner
  import opened CrawlProtocol
  import opened CrawlLocks
  import Drafts
  import Retention
  import History
  import Dispatcher

  // ---- what the log says of a source ----------------------------------------------------------

  /** Failed runs since the last success; partial and skipped runs do not count either way. */
  function FailedSince(log: seq<Entry>, src: nat): nat {
    if log == [] then 0 else CountedIn(FailedSince(log[..|log| - 1], src), log[|log| - 1], src)
  }

  function CountedIn(failures: nat, e: Entry, src: nat): nat {
    if e.Committed? && e.sourceId == src && e.complete then 0
    else if e.Failure? && e.sourceId == src then failures + 1
    else failures
  }

  /** The breaker has opened, and nobody has switched the source on again. */
  predicate Tripped(log: seq<Entry>, src: nat) {
    log != [] && TrippedIn(Tripped(log[..|log| - 1], src), log[|log| - 1], src)
  }

  predicate TrippedIn(tripped: bool, e: Entry, src: nat) {
    if e.Failure? && e.sourceId == src && e.alerted then true
    else if e.Reactivated? && e.sourceId == src then false
    else tripped
  }

  /** Somebody has switched the source on with its count at or over the threshold, and it has not succeeded since. */
  predicate Over(log: seq<Entry>, src: nat, threshold: nat) {
    log != [] && OverIn(Over(log[..|log| - 1], src, threshold), FailedSince(log[..|log| - 1], src), log[|log| - 1], src, threshold)
  }

  predicate OverIn(over: bool, failures: nat, e: Entry, src: nat, threshold: nat) {
    if e.Reactivated? && e.sourceId == src then failures >= threshold
    else if e.Committed? && e.sourceId == src && e.complete then false
    else over
  }

  lemma LogGrows(log: seq<Entry>, e: Entry, src: nat, threshold: nat)
    ensures FailedSince(log + [e], src) == CountedIn(FailedSince(log, src), e, src)
    ensures Tripped(log + [e], src) == TrippedIn(Tripped(log, src), e, src)
    ensures Over(log + [e], src, threshold) == OverIn(Over(log, src, threshold), FailedSince(log, src), e, src, threshold)
  {
    assert (log + [e])[..|log|] == log;
  }

  // ---- the invariant --------------------------------------------------------------------------

  /** What an entry promises, given those before it. */
  ghost predicate EntryOk(policy: Policy, before: seq<Entry>, e: Entry) {
    match e
    case Began(src, _) => !Tripped(before, src)
    case Committed(src, _, _, _, _, _, _) => !Tripped(before, src)
    case Failure(src, _, alerted) => !Tripped(before, src) && alerted == (FailedSince(before, src) + 1 == policy.failureThreshold)
    case _ => true
  }

  ghost predicate LogOk(policy: Policy, log: seq<Entry>) {
    log == [] || (LogOk(policy, log[..|log| - 1]) && EntryOk(policy, log[..|log| - 1], log[|log| - 1]))
  }

  ghost predicate SourceOk(policy: Policy, source: Source, log: seq<Entry>, src: nat) {
    && source.consecutiveFailures == FailedSince(log, src)
    && (Tripped(log, src) ==> !source.isActive && FailedSince(log, src) == policy.failureThreshold)
    && (Over(log, src, policy.failureThreshold) <==> !Tripped(log, src) && FailedSince(log, src) >= policy.failureThreshold)
  }

  ghost predicate CallerFits(sources: map<nat, Source>, caller: Caller, failures: nat, tripped: bool) {
    caller.pc.Working() ==>
      caller.sourceId in sources && !tripped && (caller.pc.Failing? ==> caller.pc.seenFailures == failures)
  }

  ghost predicate CallerOk(sources: map<nat, Source>, caller: Caller, log: seq<Entry>) {
    CallerFits(sources, caller, FailedSince(log, caller.sourceId), Tripped(log, caller.sourceId))
  }

  ghost predicate BreakerOk(policy: Policy, s: State) {
    && LogOk(policy, s.log)
    && (forall src <- s.db.sources :: SourceOk(policy, s.db.sources[src], s.log, src))
    && (forall c <- s.callers :: CallerOk(s.db.sources, s.callers[c], s.log))
  }

  // ---- steps ----------------------------------------------------------------------------------

  /** A step without an entry that leaves the sources alone. */
  lemma MoveKeepsBreaker(policy: Policy, s: State, c: nat, pc: Pc, after: State)
    requires BreakerOk(policy, s) && c in s.callers
    requires after.log == s.log && after.db.sources == s.db.sources
    requires after.callers == s.callers[c := s.callers[c].(pc := pc)]
    requires CallerOk(s.db.sources, s.callers[c].(pc := pc), s.log)
    ensures BreakerOk(policy, after)
  {
    hide LogOk, SourceOk, CallerOk;
  }

  /** A caller's step that writes no entry. */
  predicate Moving(a: Action) {
    StaysPut(a) || a.Load? || a.TryLock? || a.LockFault? || a.Unlock? || a.UnlockFault? || a.Close? || a.Crash?
  }

  lemma CallerKeepsOk(cfg: Config, s: State, a: Action, failures: nat, tripped: bool)
    requires Enabled(cfg, s, a) && Moving(a) && Apply(cfg, s, a).log == s.log
    requires CallerFits(s.db.sources, s.callers[a.c], failures, tripped)
    requires s.callers[a.c].sourceId in s.db.sources ==>
               var source := s.db.sources[s.callers[a.c].sourceId];
               source.consecutiveFailures == failures && (tripped ==> !source.isActive)
    ensures MovedFitly(s, a.c, Apply(cfg, s, a), failures, tripped)
  {
    hide MovedFitly, Apply, Enabled, CallerFits;
    if InFinish(a) {
      FinisherFits(cfg, s, a, failures, tripped);
    } else if AtLock(a) {
      OutsiderFits(cfg, s, a, failures, tripped);
    } else {
      RunnerFits(cfg, s, a, failures, tripped);
    }
  }

  ghost predicate MovedFitly(s: State, c: nat, after: State, failures: nat, tripped: bool) {
    && after.db.sources == s.db.sources && c in s.callers && c in after.callers
    && after.callers == s.callers[c := s.callers[c].(pc := after.callers[c].pc)]
    && CallerFits(s.db.sources, after.callers[c], failures, tripped)
  }

  lemma FinisherFits(cfg: Config, s: State, a: Action, failures: nat, tripped: bool)
    requires Enabled(cfg, s, a) && Apply(cfg, s, a).log == s.log && InFinish(a)
    requires CallerFits(s.db.sources, s.callers[a.c], failures, tripped)
    ensures MovedFitly(s, a.c, Apply(cfg, s, a), failures, tripped)
  {
    hide MovedFitly;
    if a.SightJob? || a.FinishCommit? {
      StatementFits(cfg, s, a, failures, tripped);
    } else {
      TransactionFits(cfg, s, a, failures, tripped);
    }
    hide Apply, Enabled, CallerFits;
  }

  lemma StatementFits(cfg: Config, s: State, a: Action, failures: nat, tripped: bool)
    requires Enabled(cfg, s, a) && Apply(cfg, s, a).log == s.log && (a.SightJob? || a.FinishCommit?)
    requires CallerFits(s.db.sources, s.callers[a.c], failures, tripped)
    ensures MovedFitly(s, a.c, Apply(cfg, s, a), failures, tripped)
  {
    hide WithJob, Joined, WithNextId, IsComplete, Drafts.Merged, Recorded;
  }

  lemma TransactionFits(cfg: Config, s: State, a: Action, failures: nat, tripped: bool)
    requires Enabled(cfg, s, a) && InFinish(a) && !a.SightJob? && !a.FinishCommit?
    requires CallerFits(s.db.sources, s.callers[a.c], failures, tripped)
    ensures MovedFitly(s, a.c, Apply(cfg, s, a), failures, tripped)
  {
    hide LatestSuccessfulItems, Drafts.Swept, IsComplete;
  }

  lemma RunnerFits(cfg: Config, s: State, a: Action, failures: nat, tripped: bool)
    requires Enabled(cfg, s, a) && Apply(cfg, s, a).log == s.log && StaysPut(a) && !InFinish(a) && !AtLock(a)
    requires CallerFits(s.db.sources, s.callers[a.c], failures, tripped)
    requires s.callers[a.c].sourceId in s.db.sources ==>
               var source := s.db.sources[s.callers[a.c].sourceId];
               source.consecutiveFailures == failures && (tripped ==> !source.isActive)
    ensures MovedFitly(s, a.c, Apply(cfg, s, a), failures, tripped)
  {
  }

  lemma OutsiderFits(cfg: Config, s: State, a: Action, failures: nat, tripped: bool)
    requires Enabled(cfg, s, a) && AtLock(a) && !a.Call?
    requires CallerFits(s.db.sources, s.callers[a.c], failures, tripped)
    ensures MovedFitly(s, a.c, Apply(cfg, s, a), failures, tripped)
  {
  }

  lemma MoveIsOk(cfg: Config, s: State, a: Action)
    requires BreakerOk(cfg.policy, s) && Enabled(cfg, s, a) && Moving(a) && Apply(cfg, s, a).log == s.log
    ensures BreakerOk(cfg.policy, Apply(cfg, s, a))
  {
    var src := s.callers[a.c].sourceId;
    assert CallerOk(s.db.sources, s.callers[a.c], s.log);
    assert src in s.db.sources ==> SourceOk(cfg.policy, s.db.sources[src], s.log, src);
    hide FailedSince, Tripped, Over, LogOk, Apply, BreakerOk;
    CallerKeepsOk(cfg, s, a, FailedSince(s.log, src), Tripped(s.log, src));
    var after := Apply(cfg, s, a);
    MoveKeepsBreaker(cfg.policy, s, a.c, after.callers[a.c].pc, after);
  }

  lemma CallKeepsBreaker(policy: Policy, s: State, c: nat, caller: Caller)
    requires BreakerOk(policy, s) && c !in s.callers && caller.pc.Start?
    ensures BreakerOk(policy, s.(callers := s.callers[c := caller]))
  {
    hide LogOk, SourceOk, FailedSince, Tripped;
  }

  predicate Concerns(e: Entry, src: nat) {
    (e.Began? || e.Committed? || e.Failure? || e.Reactivated?) && e.sourceId == src
  }

  /** An entry of one source does not concern the others. */
  lemma OtherSourcesKeep(policy: Policy, s: State, e: Entry)
    requires BreakerOk(policy, s) && EntryOk(policy, s.log, e)
    ensures LogOk(policy, s.log + [e])
    ensures forall src <- s.db.sources :: !Concerns(e, src) ==> SourceOk(policy, s.db.sources[src], s.log + [e], src)
    ensures forall c <- s.callers :: !Concerns(e, s.callers[c].sourceId) ==> CallerOk(s.db.sources, s.callers[c], s.log + [e])
  {
    assert (s.log + [e])[..|s.log|] == s.log;
    assert LogOk(policy, s.log + [e]);
    hide FailedSince, Tripped, Over, EntryOk, LogOk;
    forall src ensures !Concerns(e, src) ==> && FailedSince(s.log + [e], src) == FailedSince(s.log, src)
                                             && Tripped(s.log + [e], src) == Tripped(s.log, src)
                                             && Over(s.log + [e], src, policy.failureThreshold) == Over(s.log, src, policy.failureThreshold) {
      LogGrows(s.log, e, src, policy.failureThreshold);
    }
  }

  /** What a caller inside writes about its own source: nobody else is working on it. */
  lemma EntryKeepsBreaker(policy: Policy, s: State, c: nat, pc: Pc, e: Entry, source: Source, after: State)
    requires BreakerOk(policy, s) && Exclusive(s.callers) && c in s.callers && s.callers[c].pc.Critical()
    requires forall src :: Concerns(e, src) <==> src == s.callers[c].sourceId
    requires EntryOk(policy, s.log, e) && after.log == s.log + [e]
    requires after.callers == s.callers[c := s.callers[c].(pc := pc)]
    requires s.callers[c].sourceId in s.db.sources && after.db.sources == s.db.sources[s.callers[c].sourceId := source]
    requires SourceOk(policy, source, after.log, s.callers[c].sourceId)
    requires CallerOk(s.db.sources, s.callers[c].(pc := pc), after.log)
    ensures BreakerOk(policy, after)
  {
    OtherSourcesKeep(policy, s, e);
    hide LogOk, EntryOk, SourceOk, Concerns, FailedSince, Tripped, Over;
    forall d <- after.callers ensures CallerOk(after.db.sources, after.callers[d], after.log) {
      if d != c && s.callers[d].sourceId == s.callers[c].sourceId {
        assert !s.callers[d].pc.Working();
      }
    }
  }

  lemma StartKeepsBreaker(cfg: Config, s: State, a: Action)
    requires BreakerOk(cfg.policy, s) && Exclusive(s.callers) && Enabled(cfg, s, a) && a.StartCommit?
    ensures BreakerOk(cfg.policy, Apply(cfg, s, a))
  {
    var src, after := s.callers[a.c].sourceId, Apply(cfg, s, a);
    var e := Began(src, s.db.nextRunId);
    assert CallerOk(s.db.sources, s.callers[a.c], s.log) && SourceOk(cfg.policy, s.db.sources[src], s.log, src);
    LogGrows(s.log, e, src, cfg.policy.failureThreshold);
    hide LogOk, FailedSince, Tripped, Over, BreakerOk;
    EntryKeepsBreaker(cfg.policy, s, a.c, after.callers[a.c].pc, e, s.db.sources[src], after);
  }

  lemma FinishKeepsBreaker(cfg: Config, s: State, a: Action)
    requires BreakerOk(cfg.policy, s) && Exclusive(s.callers) && Enabled(cfg, s, a) && a.FinishCommit?
    requires cfg.policy.failureThreshold >= 1
    requires Apply(cfg, s, a).log != s.log
    ensures BreakerOk(cfg.policy, Apply(cfg, s, a))
  {
    hide Apply, LogOk, IsComplete, Enabled;
    FinishState(cfg, s, a);
    var src, after := s.callers[a.c].sourceId, Apply(cfg, s, a);
    var e := after.log[|s.log|];
    assert CallerOk(s.db.sources, s.callers[a.c], s.log) && SourceOk(cfg.policy, s.db.sources[src], s.log, src);
    LogGrows(s.log, e, src, cfg.policy.failureThreshold);
    hide FailedSince, Tripped, Over, BreakerOk;
    EntryKeepsBreaker(cfg.policy, s, a.c, after.callers[a.c].pc, e, after.db.sources[src], after);
  }

  lemma FinishState(cfg: Config, s: State, a: Action)
    requires Enabled(cfg, s, a) && a.FinishCommit? && Apply(cfg, s, a).log != s.log
    ensures var after, c := Apply(cfg, s, a), a.c;
      && c in s.callers && s.callers[c].pc.Finishing?
      && var src, pc := s.callers[c].sourceId, s.callers[c].pc;
         var source, complete := Lookup(s.db.sources, src), IsComplete(cfg, pc);
         && source.Some? && after.log == s.log + [Committed(src, pc.run, pc.crawl, complete, pc.at, pc.work.ids, s.clock)]
         && after.db.sources == s.db.sources[src := if complete then source.value.(lastSuccessAt := Some(s.clock), consecutiveFailures := 0) else source.value]
         && c in after.callers && after.callers == s.callers[c := s.callers[c].(pc := after.callers[c].pc)]
         && after.callers[c].pc.Releasing?
  {
    hide Drafts.Merged, IsComplete;
  }

  lemma FailKeepsBreaker(cfg: Config, s: State, a: Action)
    requires BreakerOk(cfg.policy, s) && Exclusive(s.callers) && Enabled(cfg, s, a) && a.FailCommit?
    requires Apply(cfg, s, a).log != s.log
    ensures BreakerOk(cfg.policy, Apply(cfg, s, a))
  {
    hide Apply, LogOk;
    var src, after := s.callers[a.c].sourceId, Apply(cfg, s, a);
    var seen := s.callers[a.c].pc.seenFailures;
    FailState(cfg, s, a);
    assert CallerOk(s.db.sources, s.callers[a.c], s.log) && SourceOk(cfg.policy, s.db.sources[src], s.log, src);
    hide BreakerOk;
    FailedSourceOk(cfg.policy, s.db.sources[src], s.log, src, s.callers[a.c].pc.run);
    EntryKeepsBreaker(cfg.policy, s, a.c, after.callers[a.c].pc, Failure(src, s.callers[a.c].pc.run, Trips(cfg.policy, seen)),
                      FailedSource(cfg.policy, s.db.sources[src], seen), after);
  }

  function FailedSource(policy: Policy, source: Source, seen: nat): Source {
    source.(consecutiveFailures := seen + 1, isActive := source.isActive && seen + 1 != policy.failureThreshold)
  }

  lemma FailState(cfg: Config, s: State, a: Action)
    requires Enabled(cfg, s, a) && a.FailCommit? && Apply(cfg, s, a).log != s.log
    ensures var after, src, pc := Apply(cfg, s, a), s.callers[a.c].sourceId, s.callers[a.c].pc;
      && src in s.db.sources && after.log == s.log + [Failure(src, pc.run, Trips(cfg.policy, pc.seenFailures))]
      && after.db.sources == s.db.sources[src := FailedSource(cfg.policy, s.db.sources[src], pc.seenFailures)]
      && a.c in after.callers && after.callers == s.callers[a.c := s.callers[a.c].(pc := after.callers[a.c].pc)]
      && after.callers[a.c].pc.Releasing?
  {
  }

  lemma FailedSourceOk(policy: Policy, source: Source, log: seq<Entry>, src: nat, run: nat)
    requires SourceOk(policy, source, log, src) && !Tripped(log, src)
    ensures var seen := FailedSince(log, src);
      SourceOk(policy, FailedSource(policy, source, seen), log + [Failure(src, run, Trips(policy, seen))], src)
  {
    LogGrows(log, Failure(src, run, Trips(policy, FailedSince(log, src))), src, policy.failureThreshold);
    hide FailedSince, Tripped, Over;
  }

  lemma EditState(cfg: Config, s: State, a: Action)
    requires Enabled(cfg, s, a) && a.Edit?
    ensures var after, known := Apply(cfg, s, a), s.db.sources[a.sourceId];
      && after.callers == s.callers && after.db.sources == s.db.sources[a.sourceId := known.(isActive := a.isActive)]
      && after.log == if a.isActive && !known.isActive then s.log + [Reactivated(a.sourceId)] else s.log
  {
  }

  lemma EditedSourceOk(policy: Policy, source: Source, log: seq<Entry>, src: nat, isActive: bool)
    requires SourceOk(policy, source, log, src)
    ensures SourceOk(policy, source.(isActive := isActive),
                     if isActive && !source.isActive then log + [Reactivated(src)] else log, src)
  {
    LogGrows(log, Reactivated(src), src, policy.failureThreshold);
    hide FailedSince, Tripped, Over;
  }

  lemma EditKeepsBreaker(cfg: Config, s: State, a: Action)
    requires BreakerOk(cfg.policy, s) && Enabled(cfg, s, a) && a.Edit?
    ensures BreakerOk(cfg.policy, Apply(cfg, s, a))
  {
    hide LogOk, FailedSince, Tripped, Over, Apply, SourceOk, CallerOk;
    var src, after := a.sourceId, Apply(cfg, s, a);
    EditState(cfg, s, a);
    EditedSourceOk(cfg.policy, s.db.sources[src], s.log, src, a.isActive);
    if after.log != s.log {
      OtherSourcesKeep(cfg.policy, s, Reactivated(src));
    }
    forall c <- s.callers ensures CallerOk(after.db.sources, after.callers[c], after.log) {
      EditedCallerOk(s.db.sources, after.db.sources, s.callers[c], s.log, src);
    }
  }

  lemma EditedCallerOk(sources: map<nat, Source>, after: map<nat, Source>, caller: Caller, log: seq<Entry>, src: nat)
    requires CallerOk(sources, caller, log) && sources.Keys == after.Keys
    ensures CallerOk(after, caller, log) && CallerOk(after, caller, log + [Reactivated(src)])
  {
    LogGrows(log, Reactivated(src), caller.sourceId, 0);
    hide FailedSince, Tripped;
  }

  /** Steps of the world around the callers, which leave the sources alone. */
  lemma OutsideSteps(cfg: Config, s: State, a: Action)
    requires Enabled(cfg, s, a) && (a.Reap? || a.Sever? || a.EditKeywords? || a.Retain? || a.Dispatch? || a.Tick?)
    ensures var after := Apply(cfg, s, a);
      && after.callers == s.callers && after.db.sources == s.db.sources
      && (after.log == s.log
          || (|after.log| == |s.log| + 1 && after.log == s.log + [after.log[|s.log|]]
              && (after.log[|s.log|].Purged? || after.log[|s.log|].Dispatched? || after.log[|s.log|].Reworded?)))
  {
    hide Dispatcher.DispatchBatches, Retention.RetainedJobs, Retention.OldRuns, History.AfterEdit;
  }

  lemma OutsideKeepsBreaker(cfg: Config, s: State, a: Action)
    requires BreakerOk(cfg.policy, s) && Enabled(cfg, s, a)
    requires a.Reap? || a.Sever? || a.EditKeywords? || a.Retain? || a.Dispatch? || a.Tick?
    ensures BreakerOk(cfg.policy, Apply(cfg, s, a))
  {
    hide Apply, Enabled, BreakerOk;
    OutsideSteps(cfg, s, a);
    NobodysEntry(cfg.policy, s, Apply(cfg, s, a));
  }

  /** An entry that is about no source. */
  lemma NobodysEntry(policy: Policy, s: State, after: State)
    requires BreakerOk(policy, s) && after.callers == s.callers && after.db.sources == s.db.sources
    requires after.log == s.log
             || (|after.log| == |s.log| + 1 && after.log == s.log + [after.log[|s.log|]]
                 && (after.log[|s.log|].Purged? || after.log[|s.log|].Dispatched? || after.log[|s.log|].Reworded?))
    ensures BreakerOk(policy, after)
  {
    hide LogOk, SourceOk, CallerOk;
    if after.log != s.log {
      OtherSourcesKeep(policy, s, after.log[|s.log|]);
    }
  }

  lemma StepKeepsBreaker(cfg: Config, s: State, a: Action)
    requires BreakerOk(cfg.policy, s) && Exclusive(s.callers) && Enabled(cfg, s, a) && cfg.policy.failureThreshold >= 1
    ensures BreakerOk(cfg.policy, Apply(cfg, s, a))
  {
    hide BreakerOk, Apply, Exclusive;
    if a.Call? {
      CallStep(cfg, s, a);
    } else if a.Reap? || a.Sever? || a.EditKeywords? || a.Retain? || a.Dispatch? || a.Tick? {
      OutsideKeepsBreaker(cfg, s, a);
    } else if a.Edit? {
      EditKeepsBreaker(cfg, s, a);
    } else if a.StartCommit? {
      StartKeepsBreaker(cfg, s, a);
    } else if Apply(cfg, s, a).log == s.log {
      MoveIsOk(cfg, s, a);
    } else if a.FinishCommit? {
      FinishKeepsBreaker(cfg, s, a);
    } else if a.FailCommit? {
      FailKeepsBreaker(cfg, s, a);
    } else {
      StepFrame(cfg, s, a);
    }
  }

  lemma CallStep(cfg: Config, s: State, a: Action)
    requires BreakerOk(cfg.policy, s) && Enabled(cfg, s, a) && a.Call?
    ensures BreakerOk(cfg.policy, Apply(cfg, s, a))
  {
    hide BreakerOk;
    CallKeepsBreaker(cfg.policy, s, a.c, Caller(a.sourceId, a.trigger, Start));
  }

  lemma {:induction false} ReachableBreaker(cfg: Config, s: State, actions: seq<Action>)
    requires BreakerOk(cfg.policy, s) && StateOk(cfg, s) && cfg.policy.failureThreshold >= 1
    requires Exec(cfg, s, actions).Some? && Exec(cfg, s, actions).value.lost == {}
    ensures BreakerOk(cfg.policy, Exec(cfg, s, actions).value)
    decreases |actions|
  {
    hide BreakerOk, StateOk, Apply, Enabled;
    if actions != [] {
      var init := actions[..|actions| - 1];
      var before := Exec(cfg, s, init).value;
      StepLosesOnly(cfg, before, actions[|actions| - 1]);
      ReachableBreaker(cfg, s, init);
      ReachableLocks(cfg, s, init);
      NobodyNextDoor(cfg, before);
      StepKeepsBreaker(cfg, before, actions[|actions| - 1]);
    }
  }

  lemma InitialBreaker(cfg: Config, s: State)
    requires Initial(s) && cfg.policy.failureThreshold >= 1
    ensures BreakerOk(cfg.policy, s)
  {
    forall src <- s.db.sources ensures SourceOk(cfg.policy, s.db.sources[src], [], src) {
    }
  }

  /** A run without an ended session, from an initial state. */
  lemma BreakerHolds(cfg: Config, s: State, after: State)
    requires Initial(s) && cfg.policy.failureThreshold >= 1 && Reached(cfg, s, after) && after.lost == {}
    ensures BreakerOk(cfg.policy, after)
  {
    hide Exec, BreakerOk;
    var actions :| Exec(cfg, s, actions) == Some(after);
    InitialBreaker(cfg, s);
    InitialLocks(cfg, s);
    ReachableBreaker(cfg, s, actions);
  }

  // ---- the theorems ---------------------------------------------------------------------------

  lemma {:induction false} EntryAt(policy: Policy, log: seq<Entry>, i: nat)
    requires LogOk(policy, log) && i < |log|
    ensures EntryOk(policy, log[..i], log[i])
    decreases |log|
  {
    if i < |log| - 1 {
      EntryAt(policy, log[..|log| - 1], i);
      assert log[..|log| - 1][..i] == log[..i];
    }
  }

  /**
   * The stored counter is the number of failed runs since the last success, in every interleaving;
   * and each failure's alert was sent exactly when it brought that number to the threshold.
   */
  lemma CounterMeaning(cfg: Config, s: State, after: State)
    requires Initial(s) && cfg.policy.failureThreshold >= 1 && Reached(cfg, s, after) && after.lost == {}
    ensures forall src <- after.db.sources :: after.db.sources[src].consecutiveFailures == FailedSince(after.log, src)
    ensures forall i :: 0 <= i < |after.log| && after.log[i].Failure? ==>
              after.log[i].alerted == (FailedSince(after.log[..i], after.log[i].sourceId) + 1 == cfg.policy.failureThreshold)
  {
    hide Reached, Initial, FailedSince, LogOk, Tripped, Over;
    BreakerHolds(cfg, s, after);
    assert forall src <- after.db.sources :: SourceOk(cfg.policy, after.db.sources[src], after.log, src);
    forall i: nat | i < |after.log| ensures EntryOk(cfg.policy, after.log[..i], after.log[i]) {
      EntryAt(cfg.policy, after.log, i);
    }
  }

  /**
   * Once the breaker of a source has opened it is inactive, nobody works on it, and no crawl of it
   * begins or ends, not even for a caller that read it as active before, until somebody switches it
   * on again.
   */
  lemma NothingStartsAfterTheTrip(cfg: Config, s: State, after: State)
    requires Initial(s) && cfg.policy.failureThreshold >= 1 && Reached(cfg, s, after) && after.lost == {}
    ensures forall i :: 0 <= i < |after.log| && EndsOrBegins(after.log[i]) ==> !Tripped(after.log[..i], after.log[i].sourceId)
    ensures forall src <- after.db.sources :: Tripped(after.log, src) ==>
              && !after.db.sources[src].isActive
              && forall c <- after.callers :: after.callers[c].sourceId == src ==> !after.callers[c].pc.Working()
  {
    hide Reached, Initial, FailedSince, LogOk, Tripped, Over;
    BreakerHolds(cfg, s, after);
    assert forall src <- after.db.sources :: SourceOk(cfg.policy, after.db.sources[src], after.log, src);
    assert forall c <- after.callers :: CallerOk(after.db.sources, after.callers[c], after.log);
    forall i: nat | i < |after.log| ensures EntryOk(cfg.policy, after.log[..i], after.log[i]) {
      EntryAt(cfg.policy, after.log, i);
    }
  }

  predicate EndsOrBegins(e: Entry) {
    e.Began? || e.Committed? || e.Failure?
  }

  /**
   * The breaker compares with ==. An active source is at or over the threshold exactly when somebody
   * switched it on there and it has not succeeded since. Every other active source, and every crawl
   * of one, is below; and the counter of a source whose breaker is open is the threshold itself.
   */
  lemma OverTheThresholdExactly(cfg: Config, s: State, after: State, src: nat)
    requires Initial(s) && cfg.policy.failureThreshold >= 1 && Reached(cfg, s, after) && after.lost == {}
    requires src in after.db.sources
    ensures var failures, over := after.db.sources[src].consecutiveFailures, Over(after.log, src, cfg.policy.failureThreshold);
      && (after.db.sources[src].isActive ==> (failures >= cfg.policy.failureThreshold <==> over))
      && (failures >= cfg.policy.failureThreshold <==> over || Tripped(after.log, src))
      && (Tripped(after.log, src) ==> failures == cfg.policy.failureThreshold)
      && (forall c <- after.callers :: after.callers[c].sourceId == src && after.callers[c].pc.Working() ==>
            (failures >= cfg.policy.failureThreshold <==> over))
  {
    hide Reached, FailedSince, LogOk, Tripped, Over, Initial;
    BreakerHolds(cfg, s, after);
    assert SourceOk(cfg.policy, after.db.sources[src], after.log, src);
    assert forall c <- after.callers :: CallerOk(after.db.sources, after.callers[c], after.log);
  }

  predicate Succeeded(log: seq<Entry>, src: nat, from: nat, to: nat)
    requires to <= |log|
  {
    exists k :: from <= k < to && log[k].Committed? && log[k].sourceId == src && log[k].complete
  }

  lemma {:induction false} FailuresOnlyGrow(log: seq<Entry>, src: nat, i: nat, j: nat)
    requires i <= j <= |log| && !Succeeded(log, src, i, j)
    ensures FailedSince(log[..i], src) <= FailedSince(log[..j], src)
    decreases j
  {
    if i < j {
      FailuresOnlyGrow(log, src, i, j - 1);
      assert log[..j] == log[..j - 1] + [log[j - 1]];
      LogGrows(log[..j - 1], log[j - 1], src, 0);
    }
  }

  /** Between two alerts about a source there is a success. */
  lemma AtMostOneAlertPerStreak(cfg: Config, s: State, after: State)
    requires Initial(s) && cfg.policy.failureThreshold >= 1 && Reached(cfg, s, after) && after.lost == {}
    ensures var log := after.log;
      forall i, j :: 0 <= i < j < |log| && IsAlert(log[i]) && IsAlert(log[j]) && log[i].sourceId == log[j].sourceId ==>
        Succeeded(log, log[i].sourceId, i, j)
  {
    hide Reached, FailedSince, Initial, Succeeded;
    CounterMeaning(cfg, s, after);
    var log := after.log;
    forall i: nat, j | i < j < |log| && IsAlert(log[i]) && IsAlert(log[j]) && log[i].sourceId == log[j].sourceId
      ensures Succeeded(log, log[i].sourceId, i, j)
    {
      SuccessBetweenAlerts(cfg.policy, log, i, j);
    }
  }

  predicate IsAlert(e: Entry) {
    e.Failure? && e.alerted
  }

  lemma SuccessBetweenAlerts(policy: Policy, log: seq<Entry>, i: nat, j: nat)
    requires i < j < |log| && IsAlert(log[i]) && IsAlert(log[j]) && log[i].sourceId == log[j].sourceId
    requires FailedSince(log[..i], log[i].sourceId) + 1 == policy.failureThreshold
    requires FailedSince(log[..j], log[j].sourceId) + 1 == policy.failureThreshold
    ensures Succeeded(log, log[i].sourceId, i, j)
  {
    var src := log[i].sourceId;
    hide FailedSince, Tripped, Over;
    LogGrows(log[..i], log[i], src, 0);
    assert log[..i + 1] == log[..i] + [log[i]];
    if !Succeeded(log, src, i, j) {
      FailuresOnlyGrow(log, src, i + 1, j);
    }
  }

  // ---- where the promise ends -----------------------------------------------------------------

  /**
   * The breaker compares with ==. A source that was switched on again with its counter at or over
   * the threshold keeps failing, and stays active, until a success resets the counter.
   */
  lemma {:induction false} ReactivatedSourceNeverTrips(cfg: Config, s: State, actions: seq<Action>, src: nat)
    requires BreakerOk(cfg.policy, s) && StateOk(cfg, s) && cfg.policy.failureThreshold >= 1
    requires Exec(cfg, s, actions).Some? && Exec(cfg, s, actions).value.lost == {}
    requires src in s.db.sources && s.db.sources[src].isActive && FailedSince(s.log, src) >= cfg.policy.failureThreshold
    requires forall i :: 0 <= i < |actions| && actions[i].Edit? ==> actions[i].sourceId != src
    ensures var after := Exec(cfg, s, actions).value;
      && s.log <= after.log && src in after.db.sources
      && (Succeeded(after.log, src, |s.log|, |after.log|)
          || (after.db.sources[src].isActive && FailedSince(after.log, src) >= cfg.policy.failureThreshold))
    decreases |actions|
  {
    hide BreakerOk, StateOk, Apply, Enabled, FailedSince, Succeeded;
    if actions != [] {
      var init, a := actions[..|actions| - 1], actions[|actions| - 1];
      var before := Exec(cfg, s, init).value;
      StepLosesOnly(cfg, before, a);
      ReactivatedSourceNeverTrips(cfg, s, init, src);
      ReachableBreaker(cfg, s, init);
      StepNeverTrips(cfg, before, a, src, |s.log|);
    }
  }

  lemma StepNeverTrips(cfg: Config, s: State, a: Action, src: nat, from: nat)
    requires BreakerOk(cfg.policy, s) && Enabled(cfg, s, a) && src in s.db.sources && from <= |s.log|
    requires a.Edit? ==> a.sourceId != src
    requires Succeeded(s.log, src, from, |s.log|)
             || (s.db.sources[src].isActive && FailedSince(s.log, src) >= cfg.policy.failureThreshold)
    ensures var after := Apply(cfg, s, a);
      && s.log <= after.log && src in after.db.sources
      && (Succeeded(after.log, src, from, |after.log|)
          || (after.db.sources[src].isActive && FailedSince(after.log, src) >= cfg.policy.failureThreshold))
  {
    var after := Apply(cfg, s, a);
    if a.FailCommit? {
      assert CallerOk(s.db.sources, s.callers[a.c], s.log);
    }
    ActivityChanges(cfg, s, a, src, FailedSince(s.log, src));
    StepFrame(cfg, s, a);
    hide BreakerOk, FailedSince, Tripped, Over, CallerOk, Apply;
    if after.log != s.log {
      CountStaysOver(s.log, after.log[|s.log|], src, from, cfg.policy.failureThreshold);
    }
  }

  /** Only an edit, or the failure that reaches the threshold, switches a source off. */
  lemma ActivityChanges(cfg: Config, s: State, a: Action, src: nat, failures: nat)
    requires Enabled(cfg, s, a) && src in s.db.sources && (a.Edit? ==> a.sourceId != src)
    requires a.FailCommit? && s.callers[a.c].sourceId == src ==> s.callers[a.c].pc.seenFailures == failures
    ensures var after := Apply(cfg, s, a);
      && src in after.db.sources
      && (s.db.sources[src].isActive && failures >= cfg.policy.failureThreshold ==> after.db.sources[src].isActive)
  {
    hide Apply, Enabled;
    StepFrame(cfg, s, a);
    if a.Edit? {
      EditState(cfg, s, a);
    } else if a.FailCommit? {
      FailActivity(cfg, s, a, src, failures);
    } else if a.FinishCommit? {
      FinishActivity(cfg, s, a, src);
    }
  }

  lemma FailActivity(cfg: Config, s: State, a: Action, src: nat, failures: nat)
    requires Enabled(cfg, s, a) && src in s.db.sources && a.FailCommit?
    requires s.callers[a.c].sourceId == src ==> s.callers[a.c].pc.seenFailures == failures
    ensures var after := Apply(cfg, s, a);
      && src in after.db.sources
      && (s.db.sources[src].isActive && failures >= cfg.policy.failureThreshold ==> after.db.sources[src].isActive)
  {
  }

  lemma FinishActivity(cfg: Config, s: State, a: Action, src: nat)
    requires Enabled(cfg, s, a) && src in s.db.sources && a.FinishCommit?
    ensures src in Apply(cfg, s, a).db.sources && Apply(cfg, s, a).db.sources[src].isActive == s.db.sources[src].isActive
  {
    hide IsComplete, Drafts.Merged;
  }

  lemma CountStaysOver(log: seq<Entry>, e: Entry, src: nat, from: nat, threshold: nat)
    requires from <= |log| && (Succeeded(log, src, from, |log|) || FailedSince(log, src) >= threshold)
    ensures Succeeded(log + [e], src, from, |log| + 1) || FailedSince(log + [e], src) >= threshold
    ensures Succeeded(log, src, from, |log|) ==> Succeeded(log + [e], src, from, |log| + 1)
  {
    LogGrows(log, e, src, 0);
    hide FailedSince, Tripped, Over;
    if Succeeded(log, src, from, |log|) {
      var k :| from <= k < |log| && log[k].Committed? && log[k].sourceId == src && log[k].complete;
      assert (log + [e])[k] == log[k];
    }
    assert (log + [e])[|log|] == e;
  }
}
