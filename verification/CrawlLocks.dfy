/** Who holds which lock, over every run of the protocol. */
module CrawlLocks {
  import opened Prelude
  import opened Schema
  import opened Locks
  import opened CrawlRunner
  import opened CrawlProtocol
  import Collector
  import Drafts
  import Retention
  import Dispatcher
  import History

  // ---- the invariant --------------------------------------------------------------------------

  /** Every connection is in one place: in the pool, with one caller, given up, or ended by the server. */
  ghost predicate ConnsOk(callers: map<nat, Caller>, b: Backend, lost: set<nat>) {
    && PoolIsKnown(b)
    && (forall conn <- lost :: conn < b.nextConn && conn !in b.idle && conn !in b.orphans)
    && (forall c <- callers :: callers[c].pc.HasConn() ==>
          callers[c].pc.conn < b.nextConn && callers[c].pc.conn !in b.idle && callers[c].pc.conn !in b.orphans)
    && (forall c <- callers, d <- callers :: c != d && callers[c].pc.HasConn() && callers[d].pc.HasConn() ==>
          callers[c].pc.conn != callers[d].pc.conn)
    && (forall key <- b.locks :: b.locks[key].conn !in lost)
  }

  /** A caller inside whose session lives holds its lock, once more than raising statements did. */
  ghost predicate HoldsItsLock(cfg: Config, caller: Caller, b: Backend, lost: set<nat>, leaks: map<int, nat>) {
    caller.pc.Critical() && caller.pc.conn !in lost ==>
      var key := cfg.lockKey(caller.sourceId);
      key in b.locks && b.locks[key].conn == caller.pc.conn && b.locks[key].depth == LeakedOn(leaks, key) + 1
  }

  ghost predicate LeaksOk(b: Backend, leaks: map<int, nat>) {
    forall key <- leaks :: key in b.locks && 1 <= leaks[key] <= b.locks[key].depth
  }

  ghost predicate LocksOk(cfg: Config, callers: map<nat, Caller>, b: Backend, lost: set<nat>, leaks: map<int, nat>) {
    && ConnsOk(callers, b, lost) && LeaksOk(b, leaks)
    && (forall c <- callers :: HoldsItsLock(cfg, callers[c], b, lost, leaks))
  }

  ghost predicate HeldInside(cfg: Config, callers: map<nat, Caller>, key: int, conn: nat) {
    exists c <- callers :: callers[c].pc.Critical() && callers[c].pc.conn == conn && cfg.lockKey(callers[c].sourceId) == key
  }

  /** A lock belongs to a session that is being ended, to a caller inside, or to nobody but raising statements. */
  ghost predicate Accounted(cfg: Config, callers: map<nat, Caller>, b: Backend, leaks: map<int, nat>) {
    forall key <- b.locks ::
      || b.locks[key].conn in b.orphans
      || HeldInside(cfg, callers, key, b.locks[key].conn)
      || b.locks[key].depth == LeakedOn(leaks, key)
  }

  ghost predicate StateOk(cfg: Config, s: State) {
    LocksOk(cfg, s.callers, s.backend, s.lost, s.leaks) && Accounted(cfg, s.callers, s.backend, s.leaks)
  }

  // ---- single steps ---------------------------------------------------------------------------

  /** A step that keeps its connection and its side of the lock does not concern the locks. */
  lemma SamePlaceKeepsLocks(cfg: Config, callers: map<nat, Caller>, b: Backend, lost: set<nat>, leaks: map<int, nat>, c: nat, pc: Pc)
    requires LocksOk(cfg, callers, b, lost, leaks) && c in callers
    requires pc.HasConn() == callers[c].pc.HasConn() && pc.Critical() == callers[c].pc.Critical()
    requires pc.HasConn() ==> pc.conn == callers[c].pc.conn
    ensures LocksOk(cfg, callers[c := callers[c].(pc := pc)], b, lost, leaks)
  {
  }

  lemma CallKeepsLocks(cfg: Config, callers: map<nat, Caller>, b: Backend, lost: set<nat>, leaks: map<int, nat>, c: nat, caller: Caller)
    requires LocksOk(cfg, callers, b, lost, leaks) && c !in callers && caller.pc.Start?
    ensures LocksOk(cfg, callers[c := caller], b, lost, leaks)
  {
  }

  lemma LoadKeepsLocks(cfg: Config, callers: map<nat, Caller>, b: Backend, lost: set<nat>, leaks: map<int, nat>, c: nat, conn: nat)
    requires LocksOk(cfg, callers, b, lost, leaks) && c in callers && callers[c].pc.Start? && Available(b, conn)
    ensures LocksOk(cfg, callers[c := callers[c].(pc := Connecting(conn))], Connected(b, conn), lost, leaks)
  {
  }

  lemma NoConnKeepsLocks(cfg: Config, callers: map<nat, Caller>, b: Backend, lost: set<nat>, leaks: map<int, nat>, c: nat, pc: Pc)
    requires LocksOk(cfg, callers, b, lost, leaks) && c in callers && !pc.HasConn()
    ensures LocksOk(cfg, callers[c := callers[c].(pc := pc)], b, lost, leaks)
  {
  }

  lemma LockKeepsLocks(cfg: Config, callers: map<nat, Caller>, b: Backend, lost: set<nat>, leaks: map<int, nat>, c: nat)
    requires LocksOk(cfg, callers, b, lost, leaks) && Accounted(cfg, callers, b, leaks)
    requires c in callers && callers[c].pc.Connecting? && callers[c].pc.conn !in lost
    requires CanLock(b, cfg.lockKey(callers[c].sourceId), callers[c].pc.conn)
    ensures LocksOk(cfg, callers[c := callers[c].(pc := Holding(callers[c].pc.conn))],
                    Locked(b, cfg.lockKey(callers[c].sourceId), callers[c].pc.conn), lost, leaks)
  {
    OwnLockIsLeaked(cfg, callers, b, lost, leaks, c, cfg.lockKey(callers[c].sourceId));
    hide Accounted;
  }

  /** What a caller outside holds was left by raising statements. */
  lemma OwnLockIsLeaked(cfg: Config, callers: map<nat, Caller>, b: Backend, lost: set<nat>, leaks: map<int, nat>, c: nat, key: int)
    requires LocksOk(cfg, callers, b, lost, leaks) && Accounted(cfg, callers, b, leaks)
    requires c in callers && callers[c].pc.HasConn() && !callers[c].pc.Critical()
    ensures key in b.locks && b.locks[key].conn == callers[c].pc.conn ==> b.locks[key].depth == LeakedOn(leaks, key)
    ensures key !in b.locks ==> LeakedOn(leaks, key) == 0
  {
  }

  lemma LockRaisedKeepsLocks(cfg: Config, callers: map<nat, Caller>, b: Backend, lost: set<nat>, leaks: map<int, nat>, c: nat)
    requires LocksOk(cfg, callers, b, lost, leaks) && c in callers && callers[c].pc.Connecting? && callers[c].pc.conn !in lost
    requires CanLock(b, cfg.lockKey(callers[c].sourceId), callers[c].pc.conn)
    ensures var key := cfg.lockKey(callers[c].sourceId);
      LocksOk(cfg, callers[c := callers[c].(pc := Closing(callers[c].pc.conn))], Locked(b, key, callers[c].pc.conn), lost,
              leaks[key := LeakedOn(leaks, key) + 1])
  {
  }

  lemma UnlockKeepsLocks(cfg: Config, callers: map<nat, Caller>, b: Backend, lost: set<nat>, leaks: map<int, nat>, c: nat)
    requires LocksOk(cfg, callers, b, lost, leaks) && c in callers && callers[c].pc.Releasing? && callers[c].pc.conn !in lost
    ensures LocksOk(cfg, callers[c := callers[c].(pc := Closing(callers[c].pc.conn))],
                    Unlocked(b, cfg.lockKey(callers[c].sourceId), callers[c].pc.conn), lost, leaks)
  {
    assert HoldsItsLock(cfg, callers[c], b, lost, leaks);
  }

  lemma CloseKeepsLocks(cfg: Config, callers: map<nat, Caller>, b: Backend, lost: set<nat>, leaks: map<int, nat>, c: nat)
    requires LocksOk(cfg, callers, b, lost, leaks) && c in callers && callers[c].pc.Closing? && callers[c].pc.conn !in lost
    ensures LocksOk(cfg, callers[c := callers[c].(pc := Returned)], Closed(b, callers[c].pc.conn), lost, leaks)
  {
  }

  lemma AbandonKeepsLocks(cfg: Config, callers: map<nat, Caller>, b: Backend, lost: set<nat>, leaks: map<int, nat>, c: nat, pc: Pc)
    requires LocksOk(cfg, callers, b, lost, leaks) && c in callers && callers[c].pc.HasConn() && !pc.HasConn() && callers[c].pc.conn !in lost
    ensures LocksOk(cfg, callers[c := callers[c].(pc := pc)], Abandoned(b, callers[c].pc.conn), lost, leaks)
  {
  }

  lemma ReapKeepsLocks(cfg: Config, callers: map<nat, Caller>, b: Backend, lost: set<nat>, leaks: map<int, nat>, conn: nat)
    requires LocksOk(cfg, callers, b, lost, leaks) && conn in b.orphans
    ensures LocksOk(cfg, callers, Reaped(b, conn), lost, LeaksOf(Reaped(b, conn), leaks))
  {
  }

  lemma SeverKeepsLocks(cfg: Config, callers: map<nat, Caller>, b: Backend, lost: set<nat>, leaks: map<int, nat>, c: nat)
    requires LocksOk(cfg, callers, b, lost, leaks) && c in callers && callers[c].pc.HasConn()
    ensures var conn := callers[c].pc.conn;
      LocksOk(cfg, callers, Reaped(b, conn), lost + {conn}, LeaksOf(Reaped(b, conn), leaks))
  {
  }

  // ---- who accounts for a lock ----------------------------------------------------------------

  /** One lock stays accounted for when caller c moves. */
  ghost predicate StaysAccounted(cfg: Config, callers: map<nat, Caller>, b: Backend, leaks: map<int, nat>, c: nat, pc: Pc,
                                 after: Backend, next: map<int, nat>, key: int)
    requires c in callers && key in after.locks
  {
    || after.locks[key].depth == LeakedOn(next, key)
    || (pc.Critical() && pc.conn == after.locks[key].conn && cfg.lockKey(callers[c].sourceId) == key)
    || (&& key in b.locks && b.locks[key] == after.locks[key] && LeakedOn(leaks, key) == LeakedOn(next, key)
        && (callers[c].pc.Critical() && callers[c].pc.conn == after.locks[key].conn && cfg.lockKey(callers[c].sourceId) == key ==>
              (pc.Critical() && pc.conn == callers[c].pc.conn) || callers[c].pc.conn in after.orphans))
  }

  lemma MoveAccounts(cfg: Config, callers: map<nat, Caller>, b: Backend, leaks: map<int, nat>, c: nat, pc: Pc, after: Backend, next: map<int, nat>)
    requires c in callers && Accounted(cfg, callers, b, leaks) && b.orphans <= after.orphans
    requires forall key <- after.locks :: StaysAccounted(cfg, callers, b, leaks, c, pc, after, next, key)
    ensures Accounted(cfg, callers[c := callers[c].(pc := pc)], after, next)
  {
    var moved := callers[c := callers[c].(pc := pc)];
    forall key <- after.locks
      ensures after.locks[key].conn in after.orphans || HeldInside(cfg, moved, key, after.locks[key].conn)
              || after.locks[key].depth == LeakedOn(next, key)
    {
      assert StaysAccounted(cfg, callers, b, leaks, c, pc, after, next, key);
      if after.locks[key].depth != LeakedOn(next, key) && after.locks[key].conn !in after.orphans {
        if pc.Critical() && pc.conn == after.locks[key].conn && cfg.lockKey(callers[c].sourceId) == key {
          assert moved[c].pc.Critical();
        } else {
          var d :| d in callers && callers[d].pc.Critical() && callers[d].pc.conn == b.locks[key].conn && cfg.lockKey(callers[d].sourceId) == key;
          assert d in moved;
        }
      }
    }
  }

  lemma CallAccounts(cfg: Config, callers: map<nat, Caller>, b: Backend, leaks: map<int, nat>, c: nat, caller: Caller)
    requires c !in callers && Accounted(cfg, callers, b, leaks)
    ensures Accounted(cfg, callers[c := caller], b, leaks)
  {
    forall key <- b.locks | HeldInside(cfg, callers, key, b.locks[key].conn) ensures HeldInside(cfg, callers[c := caller], key, b.locks[key].conn) {
      var d :| d in callers && callers[d].pc.Critical() && callers[d].pc.conn == b.locks[key].conn && cfg.lockKey(callers[d].sourceId) == key;
      assert d in callers[c := caller];
    }
  }

  lemma EndAccounts(cfg: Config, callers: map<nat, Caller>, b: Backend, leaks: map<int, nat>, conn: nat)
    requires Accounted(cfg, callers, b, leaks)
    ensures Accounted(cfg, callers, Reaped(b, conn), LeaksOf(Reaped(b, conn), leaks))
  {
    hide HeldInside;
  }

  // ---- every step -----------------------------------------------------------------------------

  /** Steps that only move on within the protected region, or outside it. */
  predicate StaysPut(a: Action) {
    || a.Skip? || a.SkipFault? || a.StartRead? || a.StartCommit? || a.StartFault? || a.CrawlRaises?
    || a.FinishBegin? || a.FinishRead? || a.SightJob? || a.CloseMissing? || a.FinishCommit? || a.FinishFault?
    || a.FailRead? || a.FailCommit? || a.FailFault?
  }

  lemma OutsideTouchesNoLock(cfg: Config, s: State, a: Action)
    requires Enabled(cfg, s, a) && Outside(a) && !a.Reap? && !a.Sever?
    ensures var after := Apply(cfg, s, a);
      after.callers == s.callers && after.backend == s.backend && after.lost == s.lost && after.leaks == s.leaks
  {
    hide Retention.Retained, Retention.OldRuns, Dispatcher.DispatchBatches, History.AfterEdit;
  }

  ghost predicate MovedInPlace(s: State, c: nat, after: State) {
    && after.backend == s.backend && after.lost == s.lost && after.leaks == s.leaks && c in s.callers && c in after.callers
    && var pc, next := s.callers[c].pc, after.callers[c].pc;
       && after.callers == s.callers[c := s.callers[c].(pc := next)]
       && next.HasConn() && pc.HasConn() && next.conn == pc.conn && next.Critical() == pc.Critical()
  }

  lemma SkipStaysPut(cfg: Config, s: State, a: Action)
    requires Enabled(cfg, s, a) && (a.Skip? || a.SkipFault?)
    ensures MovedInPlace(s, a.c, Apply(cfg, s, a))
  {
  }

  lemma RunStaysPut(cfg: Config, s: State, a: Action)
    requires Enabled(cfg, s, a) && StaysPut(a) && !AtLock(a) && !InFinish(a)
    ensures MovedInPlace(s, a.c, Apply(cfg, s, a))
  {
    hide MarkedFailed;
  }

  lemma FinishStaysPut(cfg: Config, s: State, a: Action)
    requires Enabled(cfg, s, a) && InFinish(a)
    ensures MovedInPlace(s, a.c, Apply(cfg, s, a))
  {
    hide MovedInPlace, Apply, Enabled;
    if a.SightJob? {
      SightStaysPut(cfg, s, a);
    } else if a.FinishCommit? {
      CommitStaysPut(cfg, s, a);
    } else {
      TransactionStaysPut(cfg, s, a);
    }
  }

  lemma SightStaysPut(cfg: Config, s: State, a: Action)
    requires Enabled(cfg, s, a) && a.SightJob?
    ensures MovedInPlace(s, a.c, Apply(cfg, s, a))
  {
    hide WithJob, Collector.Joined, Collector.WithNextId;
  }

  lemma CommitStaysPut(cfg: Config, s: State, a: Action)
    requires Enabled(cfg, s, a) && a.FinishCommit?
    ensures MovedInPlace(s, a.c, Apply(cfg, s, a))
  {
    hide Recorded, Drafts.Merged, IsComplete;
  }

  lemma TransactionStaysPut(cfg: Config, s: State, a: Action)
    requires Enabled(cfg, s, a) && InFinish(a) && !a.SightJob? && !a.FinishCommit?
    ensures MovedInPlace(s, a.c, Apply(cfg, s, a))
  {
    hide LatestSuccessfulItems, Drafts.Swept, IsComplete;
  }

  lemma StaysPutMoves(cfg: Config, s: State, a: Action)
    requires Enabled(cfg, s, a) && StaysPut(a)
    ensures MovedInPlace(s, a.c, Apply(cfg, s, a))
  {
    hide MovedInPlace, Apply, Enabled;
    if InFinish(a) {
      FinishStaysPut(cfg, s, a);
    } else if AtLock(a) {
      SkipStaysPut(cfg, s, a);
    } else {
      RunStaysPut(cfg, s, a);
    }
  }

  /** What a step leaves alone: at most one log entry, and sources and run rows but for the steps about them. */
  ghost predicate Framed(s: State, a: Action, after: State) {
    && (after.log == s.log || (|after.log| == |s.log| + 1 && after.log == s.log + [after.log[|s.log|]]))
    && (after.log == s.log || a.StartCommit? || a.FinishCommit? || a.FailCommit? || a.Edit? || a.EditKeywords? || a.Retain? || a.Dispatch?)
    && (after.db.sources == s.db.sources || a.FinishCommit? || a.FailCommit? || a.Edit?)
    && ((after.db.runs == s.db.runs && after.db.nextRunId == s.db.nextRunId)
        || a.Skip? || a.StartCommit? || a.FinishCommit? || a.FailCommit? || a.Retain?)
  }

  lemma StepFrame(cfg: Config, s: State, a: Action)
    requires Enabled(cfg, s, a)
    ensures Framed(s, a, Apply(cfg, s, a))
  {
    hide Framed, Apply, Enabled;
    if AtLock(a) {
      LockFrame(cfg, s, a);
    } else if Outside(a) {
      WorldFrame(cfg, s, a);
    } else if InFinish(a) {
      FinishFrame(cfg, s, a);
    } else {
      RunFrame(cfg, s, a);
    }
  }

  lemma LockFrame(cfg: Config, s: State, a: Action)
    requires Enabled(cfg, s, a) && AtLock(a)
    ensures Framed(s, a, Apply(cfg, s, a))
  {
  }

  lemma WorldFrame(cfg: Config, s: State, a: Action)
    requires Enabled(cfg, s, a) && Outside(a)
    ensures Framed(s, a, Apply(cfg, s, a))
  {
    hide Retention.RetainedJobs, Retention.OldRuns, Dispatcher.DispatchBatches, History.AfterEdit, RowsAreFree;
  }

  lemma FinishFrame(cfg: Config, s: State, a: Action)
    requires Enabled(cfg, s, a) && InFinish(a)
    ensures Framed(s, a, Apply(cfg, s, a))
  {
    hide LatestSuccessfulItems, Recorded, Drafts.Merged, Drafts.Swept, WithJob, Collector.Joined, Collector.WithNextId, IsComplete;
  }

  lemma RunFrame(cfg: Config, s: State, a: Action)
    requires Enabled(cfg, s, a) && !AtLock(a) && !Outside(a) && !InFinish(a)
    ensures Framed(s, a, Apply(cfg, s, a))
  {
    hide MarkedFailed;
  }

  lemma PutStepKeeps(cfg: Config, s: State, a: Action)
    requires StateOk(cfg, s) && Enabled(cfg, s, a) && StaysPut(a)
    ensures StateOk(cfg, Apply(cfg, s, a))
  {
    StaysPutMoves(cfg, s, a);
    hide LocksOk, Accounted, Apply, Enabled;
    var after := Apply(cfg, s, a);
    SamePlaceKeepsLocks(cfg, s.callers, s.backend, s.lost, s.leaks, a.c, after.callers[a.c].pc);
    MoveAccounts(cfg, s.callers, s.backend, s.leaks, a.c, after.callers[a.c].pc, s.backend, s.leaks);
  }

  lemma ConnStepKeeps(cfg: Config, s: State, a: Action)
    requires StateOk(cfg, s) && Enabled(cfg, s, a) && (a.Load? || a.Close? || a.UnlockFault? || a.Crash?)
    ensures StateOk(cfg, Apply(cfg, s, a))
  {
    hide LocksOk, Accounted;
    var after, pc := Apply(cfg, s, a), s.callers[a.c].pc;
    var next := after.callers[a.c].pc;
    if a.Load? && next.Connecting? {
      LoadKeepsLocks(cfg, s.callers, s.backend, s.lost, s.leaks, a.c, a.conn);
    } else if !pc.HasConn() || pc.conn in s.lost {
      NoConnKeepsLocks(cfg, s.callers, s.backend, s.lost, s.leaks, a.c, next);
    } else if a.Close? {
      CloseKeepsLocks(cfg, s.callers, s.backend, s.lost, s.leaks, a.c);
    } else {
      AbandonKeepsLocks(cfg, s.callers, s.backend, s.lost, s.leaks, a.c, next);
    }
    LostHoldsNothing(cfg, s);
    MoveAccounts(cfg, s.callers, s.backend, s.leaks, a.c, next, after.backend, s.leaks);
  }

  lemma LostHoldsNothing(cfg: Config, s: State)
    requires LocksOk(cfg, s.callers, s.backend, s.lost, s.leaks)
    ensures forall key <- s.backend.locks :: s.backend.locks[key].conn !in s.lost
  {
  }

  lemma LockStepKeeps(cfg: Config, s: State, a: Action)
    requires StateOk(cfg, s) && Enabled(cfg, s, a) && (a.TryLock? || a.LockFault? || a.Unlock?)
    ensures StateOk(cfg, Apply(cfg, s, a))
  {
    hide LocksOk, Accounted;
    var after, caller := Apply(cfg, s, a), s.callers[a.c];
    var next, key := after.callers[a.c].pc, cfg.lockKey(caller.sourceId);
    if a.Unlock? {
      UnlockKeepsLocks(cfg, s.callers, s.backend, s.lost, s.leaks, a.c);
      UnlockDepth(cfg, s, a.c);
    } else {
      OwnLockIsLeaked(cfg, s.callers, s.backend, s.lost, s.leaks, a.c, key);
      if after.backend == s.backend {
        SamePlaceKeepsLocks(cfg, s.callers, s.backend, s.lost, s.leaks, a.c, next);
      } else if a.TryLock? {
        LockKeepsLocks(cfg, s.callers, s.backend, s.lost, s.leaks, a.c);
      } else {
        LockRaisedKeepsLocks(cfg, s.callers, s.backend, s.lost, s.leaks, a.c);
      }
    }
    MoveAccounts(cfg, s.callers, s.backend, s.leaks, a.c, next, after.backend, after.leaks);
  }

  lemma UnlockDepth(cfg: Config, s: State, c: nat)
    requires LocksOk(cfg, s.callers, s.backend, s.lost, s.leaks) && c in s.callers && s.callers[c].pc.Releasing? && s.callers[c].pc.conn !in s.lost
    ensures var key := cfg.lockKey(s.callers[c].sourceId);
      && key in s.backend.locks && s.backend.locks[key].conn == s.callers[c].pc.conn && s.backend.locks[key].depth == LeakedOn(s.leaks, key) + 1
  {
    assert HoldsItsLock(cfg, s.callers[c], s.backend, s.lost, s.leaks);
  }

  lemma StepKeeps(cfg: Config, s: State, a: Action)
    requires StateOk(cfg, s) && Enabled(cfg, s, a)
    ensures StateOk(cfg, Apply(cfg, s, a))
  {
    if StaysPut(a) {
      PutStepKeeps(cfg, s, a);
    } else if Outside(a) && !a.Reap? && !a.Sever? {
      OutsideTouchesNoLock(cfg, s, a);
      hide Apply, LocksOk, Accounted;
    } else if a.Load? || a.Close? || a.UnlockFault? || a.Crash? {
      ConnStepKeeps(cfg, s, a);
    } else if a.TryLock? || a.LockFault? || a.Unlock? {
      LockStepKeeps(cfg, s, a);
    } else {
      RestKeeps(cfg, s, a);
    }
    hide StateOk, Apply, Enabled;
  }

  lemma RestKeeps(cfg: Config, s: State, a: Action)
    requires StateOk(cfg, s) && Enabled(cfg, s, a) && (a.Call? || a.Reap? || a.Sever?)
    ensures StateOk(cfg, Apply(cfg, s, a))
  {
    hide LocksOk, Accounted;
    match a
    case Call(c, sourceId, trigger) =>
      CallKeepsLocks(cfg, s.callers, s.backend, s.lost, s.leaks, c, Caller(sourceId, trigger, Start));
      CallAccounts(cfg, s.callers, s.backend, s.leaks, c, Caller(sourceId, trigger, Start));
    case Reap(conn) =>
      ReapKeepsLocks(cfg, s.callers, s.backend, s.lost, s.leaks, conn);
      EndAccounts(cfg, s.callers, s.backend, s.leaks, conn);
    case Sever(c) =>
      SeverKeepsLocks(cfg, s.callers, s.backend, s.lost, s.leaks, c);
      EndAccounts(cfg, s.callers, s.backend, s.leaks, s.callers[c].pc.conn);
  }

  lemma {:induction false} ReachableLocks(cfg: Config, s: State, actions: seq<Action>)
    requires StateOk(cfg, s) && Exec(cfg, s, actions).Some?
    ensures StateOk(cfg, Exec(cfg, s, actions).value)
    decreases |actions|
  {
    hide StateOk, Apply, Enabled;
    if actions != [] {
      ReachableLocks(cfg, s, actions[..|actions| - 1]);
      StepKeeps(cfg, Exec(cfg, s, actions[..|actions| - 1]).value, actions[|actions| - 1]);
    }
  }

  lemma InitialLocks(cfg: Config, s: State)
    requires Initial(s)
    ensures StateOk(cfg, s)
  {
  }

  // ---- the theorems ---------------------------------------------------------------------------

  /** Nobody works next to a caller inside, on this or any source with the same lock. */
  ghost predicate Exclusive(callers: map<nat, Caller>) {
    forall c <- callers, d <- callers :: c != d && callers[c].pc.Critical() && callers[d].pc.Critical() ==>
      callers[c].sourceId != callers[d].sourceId
  }

  /**
   * In every interleaving of callers, faults, crashes and ended sessions: two callers inside for one
   * source, or for two sources whose lock names collide, mean that one of them has lost its session.
   */
  lemma MutualExclusion(cfg: Config, s: State, after: State)
    requires Initial(s) && Reached(cfg, s, after)
    ensures forall c <- after.callers, d <- after.callers ::
              && c != d && after.callers[c].pc.Critical() && after.callers[d].pc.Critical()
              && cfg.lockKey(after.callers[c].sourceId) == cfg.lockKey(after.callers[d].sourceId) ==>
              after.callers[c].pc.conn in after.lost || after.callers[d].pc.conn in after.lost
    ensures after.lost == {} ==> Exclusive(after.callers)
  {
    hide Exec;
    var actions :| Exec(cfg, s, actions) == Some(after);
    InitialLocks(cfg, s);
    ReachableLocks(cfg, s, actions);
    NobodyNextDoor(cfg, after);
    hide StateOk;
  }

  lemma NobodyNextDoor(cfg: Config, s: State)
    requires StateOk(cfg, s)
    ensures forall c <- s.callers, d <- s.callers ::
              && c != d && s.callers[c].pc.Critical() && s.callers[d].pc.Critical()
              && cfg.lockKey(s.callers[c].sourceId) == cfg.lockKey(s.callers[d].sourceId) ==>
              s.callers[c].pc.conn in s.lost || s.callers[d].pc.conn in s.lost
  {
    hide Accounted;
    forall c <- s.callers ensures HoldsItsLock(cfg, s.callers[c], s.backend, s.lost, s.leaks) {
    }
  }

  /**
   * An idle connection of the pool holds a lock exactly when a lock statement that raised has taken
   * it on that connection. So the pool is clean as long as none of them took effect.
   */
  lemma PoolIsCleanExactly(cfg: Config, s: State, after: State, conn: nat)
    requires Initial(s) && Reached(cfg, s, after) && conn in after.backend.idle
    ensures Holds(after.backend, conn) <==> exists key <- after.leaks :: key in after.backend.locks && after.backend.locks[key].conn == conn
    ensures after.leaks == map[] ==> !Holds(after.backend, conn)
  {
    hide Exec;
    var actions :| Exec(cfg, s, actions) == Some(after);
    InitialLocks(cfg, s);
    ReachableLocks(cfg, s, actions);
    forall key <- after.backend.locks | after.backend.locks[key].conn == conn ensures key in after.leaks {
      IdleLockIsLeaked(cfg, after, key);
    }
    hide StateOk;
  }

  lemma IdleLockIsLeaked(cfg: Config, s: State, key: int)
    requires StateOk(cfg, s) && key in s.backend.locks && s.backend.locks[key].conn in s.backend.idle
    ensures key in s.leaks
  {
  }

  /**
   * A lock in use belongs to a live caller inside, to a session that the server has still to end, or
   * to a session on which a raising statement took it.
   */
  lemma LocksHaveOwners(cfg: Config, s: State, after: State)
    requires Initial(s) && Reached(cfg, s, after)
    ensures forall key <- after.backend.locks ::
              || after.backend.locks[key].conn in after.backend.orphans
              || HeldInside(cfg, after.callers, key, after.backend.locks[key].conn)
              || key in after.leaks
  {
    hide Exec;
    var actions :| Exec(cfg, s, actions) == Some(after);
    InitialLocks(cfg, s);
    ReachableLocks(cfg, s, actions);
    hide HeldInside;
  }

  /** Ended sessions are not forgotten. */
  lemma {:induction false} LossesStay(cfg: Config, s: State, actions: seq<Action>)
    requires Exec(cfg, s, actions).Some?
    ensures s.lost <= Exec(cfg, s, actions).value.lost
    decreases |actions|
  {
    hide Apply, Enabled;
    if actions != [] {
      LossesStay(cfg, s, actions[..|actions| - 1]);
      StepLosesOnly(cfg, Exec(cfg, s, actions[..|actions| - 1]).value, actions[|actions| - 1]);
    }
  }

  lemma StepLosesOnly(cfg: Config, s: State, a: Action)
    requires Enabled(cfg, s, a)
    ensures s.lost <= Apply(cfg, s, a).lost
  {
    if StaysPut(a) {
      StaysPutMoves(cfg, s, a);
      hide Apply;
    } else if Outside(a) && !a.Reap? && !a.Sever? {
      OutsideTouchesNoLock(cfg, s, a);
      hide Apply;
    }
  }

  lemma ExclusiveSoFar(cfg: Config, s: State, actions: seq<Action>)
    requires Initial(s) && Exec(cfg, s, actions).Some? && Exec(cfg, s, actions).value.lost == {}
    ensures Exclusive(Exec(cfg, s, actions).value.callers)
  {
    hide Exec;
    InitialLocks(cfg, s);
    ReachableLocks(cfg, s, actions);
    NobodyNextDoor(cfg, Exec(cfg, s, actions).value);
    hide StateOk;
  }

  // ---- where the promises end -----------------------------------------------------------------

  /** Two callers of one active source, and the first connections of a new pool. */
  ghost predicate TwoCallers(s: State, src: nat) {
    Initial(s) && src in s.db.sources && s.db.sources[src].isActive
  }

  /** Were the server to end the session of a caller inside, the next one gets in as well. */
  lemma LostSessionLetsOthersIn(cfg: Config, s: State, src: nat, t: CrawlTrigger, actions: seq<Action>)
    requires TwoCallers(s, src)
    requires actions == [Call(0, src, t), Load(0, 0), TryLock(0), Sever(0), Call(1, src, t), Load(1, 1), TryLock(1)]
    ensures Exec(cfg, s, actions).Some?
    ensures var after := Exec(cfg, s, actions).value;
      after.callers == map[0 := Caller(src, t, Holding(0)), 1 := Caller(src, t, Holding(1))] && after.lost == {0}
  {
    hide Exec;
    var key := cfg.lockKey(src);
    var first := Caller(src, t, Holding(0));
    var s3 := s.(callers := map[0 := first], backend := Backend(map[key := Hold(0, 1)], {}, {}, 1));
    FirstGetsIn(cfg, s, src, t);
    var s4 := s3.(backend := Backend(map[], {}, {}, 1), lost := {0});
    assert actions[..3] == [Call(0, src, t), Load(0, 0), TryLock(0)] && actions[..4] == actions[..3] + [actions[3]];
    ExecSnoc(cfg, s, actions[..3], Sever(0));
    assert Apply(cfg, s3, Sever(0)) == s4;
    hide Apply, Enabled;
    assert actions == actions[..4] + [Call(1, src, t)] + [Load(1, 1)] + [TryLock(1)];
    SecondTries(cfg, s, actions[..4], s4, src, t);
  }

  lemma SecondTries(cfg: Config, s: State, actions: seq<Action>, before: State, src: nat, t: CrawlTrigger)
    requires Exec(cfg, s, actions) == Some(before) && 1 !in before.callers && before.backend.nextConn == 1 && 1 !in before.lost
    requires src in before.db.sources && before.db.sources[src].isActive
    ensures var all := actions + [Call(1, src, t)] + [Load(1, 1)] + [TryLock(1)];
      var key := cfg.lockKey(src);
      && Exec(cfg, s, all).Some?
      && var after := Exec(cfg, s, all).value;
         && after.lost == before.lost
         && after.callers == before.callers[1 := Caller(src, t, if CanLock(before.backend, key, 1) then Holding(1) else Refused(1))]
         && after.backend.idle == before.backend.idle - {1}
         && (!CanLock(before.backend, key, 1) ==> after.backend.locks == before.backend.locks)
  {
    hide Exec;
    SecondConnects(cfg, s, actions, before, src, t);
    ExecSnoc(cfg, s, actions + [Call(1, src, t)] + [Load(1, 1)], TryLock(1));
  }

  lemma FirstGetsIn(cfg: Config, s: State, src: nat, t: CrawlTrigger)
    requires TwoCallers(s, src)
    ensures Exec(cfg, s, [Call(0, src, t), Load(0, 0), TryLock(0)])
         == Some(s.(callers := map[0 := Caller(src, t, Holding(0))], backend := Backend(map[cfg.lockKey(src) := Hold(0, 1)], {}, {}, 1)))
  {
    hide Exec;
    FirstConnects(cfg, s, src, t);
    var s2 := s.(callers := map[0 := Caller(src, t, Connecting(0))], backend := Backend(map[], {}, {}, 1));
    var s3 := s.(callers := map[0 := Caller(src, t, Holding(0))], backend := Backend(map[cfg.lockKey(src) := Hold(0, 1)], {}, {}, 1));
    assert [Call(0, src, t), Load(0, 0)] + [TryLock(0)] == [Call(0, src, t), Load(0, 0), TryLock(0)];
    ExecSnoc(cfg, s, [Call(0, src, t), Load(0, 0)], TryLock(0));
    assert Apply(cfg, s2, TryLock(0)) == s3;
  }

  lemma FirstConnects(cfg: Config, s: State, src: nat, t: CrawlTrigger)
    requires TwoCallers(s, src)
    ensures Exec(cfg, s, [Call(0, src, t), Load(0, 0)])
         == Some(s.(callers := map[0 := Caller(src, t, Connecting(0))], backend := Backend(map[], {}, {}, 1)))
  {
    assert Exec(cfg, s, []) == Some(s);
    hide Exec;
    var s1 := s.(callers := map[0 := Caller(src, t, Start)]);
    var s2 := s.(callers := map[0 := Caller(src, t, Connecting(0))], backend := Backend(map[], {}, {}, 1));
    assert [] + [Call(0, src, t)] == [Call(0, src, t)] && [Call(0, src, t)] + [Load(0, 0)] == [Call(0, src, t), Load(0, 0)];
    ExecSnoc(cfg, s, [], Call(0, src, t));
    assert Apply(cfg, s, Call(0, src, t)) == s1;
    ExecSnoc(cfg, s, [Call(0, src, t)], Load(0, 0));
    assert s1.backend.idle - {0} == {};
    assert Apply(cfg, s1, Load(0, 0)) == s2;
  }

  lemma SecondConnects(cfg: Config, s: State, actions: seq<Action>, before: State, src: nat, t: CrawlTrigger)
    requires Exec(cfg, s, actions) == Some(before) && 1 !in before.callers && before.backend.nextConn == 1
    requires src in before.db.sources && before.db.sources[src].isActive
    ensures Exec(cfg, s, actions + [Call(1, src, t)] + [Load(1, 1)])
         == Some(before.(callers := before.callers[1 := Caller(src, t, Connecting(1))],
                         backend := before.backend.(idle := before.backend.idle - {1}, nextConn := 2)))
  {
    hide Exec;
    var s1 := before.(callers := before.callers[1 := Caller(src, t, Start)]);
    var s2 := before.(callers := before.callers[1 := Caller(src, t, Connecting(1))],
                      backend := before.backend.(idle := before.backend.idle - {1}, nextConn := 2));
    ExecSnoc(cfg, s, actions, Call(1, src, t));
    assert Apply(cfg, before, Call(1, src, t)) == s1;
    ExecSnoc(cfg, s, actions + [Call(1, src, t)], Load(1, 1));
    assert s1.callers[1 := Caller(src, t, Connecting(1))] == s2.callers;
    assert Apply(cfg, s1, Load(1, 1)) == s2;
  }

  /** A raising lock statement that took the lock: the pool holds it, and the source is refused to everybody else. */
  lemma RaisedLockBlocksTheSource(cfg: Config, s: State, src: nat, t: CrawlTrigger, actions: seq<Action>)
    requires TwoCallers(s, src)
    requires actions == [Call(0, src, t), Load(0, 0), LockFault(0, true), Close(0), Call(1, src, t), Load(1, 1), TryLock(1)]
    ensures Exec(cfg, s, actions).Some?
    ensures var after := Exec(cfg, s, actions).value;
      && after.callers == map[0 := Caller(src, t, Returned), 1 := Caller(src, t, Refused(1))]
      && after.backend.idle == {0} && Holds(after.backend, 0)
  {
    hide Exec;
    var key := cfg.lockKey(src);
    var s4 := s.(callers := map[0 := Caller(src, t, Returned)], backend := Backend(map[key := Hold(0, 1)], {0}, {}, 1), leaks := map[key := 1]);
    FirstLeaks(cfg, s, src, t);
    assert actions[..4] == [Call(0, src, t), Load(0, 0), LockFault(0, true), Close(0)];
    assert actions == actions[..4] + [Call(1, src, t)] + [Load(1, 1)] + [TryLock(1)];
    SecondTries(cfg, s, actions[..4], s4, src, t);
    assert {0} - {1} == {0};
    assert s4.backend.locks[key].conn == 0;
  }

  lemma FirstLeaks(cfg: Config, s: State, src: nat, t: CrawlTrigger)
    requires TwoCallers(s, src)
    ensures Exec(cfg, s, [Call(0, src, t), Load(0, 0), LockFault(0, true), Close(0)])
         == Some(s.(callers := map[0 := Caller(src, t, Returned)], backend := Backend(map[cfg.lockKey(src) := Hold(0, 1)], {0}, {}, 1),
                    leaks := map[cfg.lockKey(src) := 1]))
  {
    hide Exec;
    var key := cfg.lockKey(src);
    FirstConnects(cfg, s, src, t);
    var s2 := s.(callers := map[0 := Caller(src, t, Connecting(0))], backend := Backend(map[], {}, {}, 1));
    var s3 := s2.(callers := map[0 := Caller(src, t, Closing(0))], backend := Backend(map[key := Hold(0, 1)], {}, {}, 1), leaks := map[key := 1]);
    var s4 := s3.(callers := map[0 := Caller(src, t, Returned)], backend := Backend(map[key := Hold(0, 1)], {0}, {}, 1));
    var a2 := [Call(0, src, t), Load(0, 0)];
    assert a2 + [LockFault(0, true)] == [Call(0, src, t), Load(0, 0), LockFault(0, true)];
    assert a2 + [LockFault(0, true)] + [Close(0)] == [Call(0, src, t), Load(0, 0), LockFault(0, true), Close(0)];
    ExecSnoc(cfg, s, a2, LockFault(0, true));
    assert Apply(cfg, s2, LockFault(0, true)) == s3;
    ExecSnoc(cfg, s, a2 + [LockFault(0, true)], Close(0));
    assert Apply(cfg, s3, Close(0)) == s4;
  }
}
