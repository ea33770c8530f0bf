/**
 * app/core/locks.py: session-level advisory locks, and the connection pool they live on.
 *
 * A lock is held by a database session, re-entrantly, until it is unlocked as often as it was
 * taken or the session ends. Returning a connection to the pool does not release its locks.
 */
module Locks {
  import opened Prelude

  datatype Hold = Hold(conn: nat, depth: nat)

  /** Sessions whose client is gone but which the server has not ended yet are orphans. */
  datatype Backend = Backend(locks: map<int, Hold>, idle: set<nat>, orphans: set<nat>, nextConn: nat)

  // ---- what one call does ---------------------------------------------------------------------

  predicate CanLock(b: Backend, key: int, conn: nat) {
    key !in b.locks || b.locks[key].conn == conn
  }

  function Locked(b: Backend, key: int, conn: nat): Backend {
    var depth := if key in b.locks then b.locks[key].depth + 1 else 1;
    b.(locks := b.locks[key := Hold(conn, depth)])
  }

  /** Unlocking a lock that the session does not hold only draws a warning. */
  function Unlocked(b: Backend, key: int, conn: nat): Backend {
    if key in b.locks && b.locks[key].conn == conn then
      if b.locks[key].depth > 1 then b.(locks := b.locks[key := Hold(conn, b.locks[key].depth - 1)])
      else b.(locks := b.locks - {key})
    else b
  }

  /** A connection comes from the pool or is new. */
  predicate Available(b: Backend, conn: nat) {
    conn in b.idle || conn == b.nextConn
  }

  function Connected(b: Backend, conn: nat): Backend {
    b.(idle := b.idle - {conn}, nextConn := if conn == b.nextConn then conn + 1 else b.nextConn)
  }

  function Closed(b: Backend, conn: nat): Backend {
    b.(idle := b.idle + {conn})
  }

  /** The client side of the connection is gone: thrown away, or its process died. */
  function Abandoned(b: Backend, conn: nat): Backend {
    b.(orphans := b.orphans + {conn})
  }

  /** The server notices and ends the session, which frees its locks. */
  function Reaped(b: Backend, conn: nat): Backend {
    b.(orphans := b.orphans - {conn},
       locks := map key | key in b.locks && b.locks[key].conn != conn :: b.locks[key])
  }

  predicate Holds(b: Backend, conn: nat) {
    exists key <- b.locks :: b.locks[key].conn == conn
  }

  /** Every session is known, and none is at once in the pool and given up. */
  ghost predicate PoolIsKnown(b: Backend) {
    && (forall key <- b.locks :: b.locks[key].conn < b.nextConn && b.locks[key].depth >= 1)
    && (forall conn <- b.idle :: conn < b.nextConn && conn !in b.orphans)
    && (forall conn <- b.orphans :: conn < b.nextConn)
  }

  /** What the pool is to promise: no idle session holds a lock. */
  ghost predicate PoolIsClean(b: Backend) {
    forall conn <- b.idle :: !Holds(b, conn)
  }

  /** A statement is answered, or raises; then it may have taken effect all the same. */
  datatype Reply = Answered | Raised(effective: bool)

  // ---- the helpers ----------------------------------------------------------------------------

  class Engine {
    var backend: Backend
    /** hashtext of the lock name: any function, collisions included. */
    const lockKey: nat -> int

    constructor (backend: Backend, lockKey: nat -> int)
      ensures this.backend == backend && this.lockKey == lockKey
    {
      this.backend, this.lockKey := backend, lockKey;
    }

    method Connect() returns (conn: nat)
      modifies this
      ensures Available(old(backend), conn) && backend == Connected(old(backend), conn)
    {
      conn := backend.nextConn;
      if backend.idle != {} {
        conn :| conn in backend.idle;
      }
      backend := Connected(backend, conn);
    }

    /** None when the statement raised. */
    method TryAcquireSourceLock(conn: nat, sourceId: nat, reply: Reply) returns (acquired: Option<bool>)
      modifies this
      ensures acquired == if reply.Raised? then None else Some(CanLock(old(backend), lockKey(sourceId), conn))
      ensures backend == if (reply.Raised? && !reply.effective) || !CanLock(old(backend), lockKey(sourceId), conn) then old(backend)
                         else Locked(old(backend), lockKey(sourceId), conn)
    {
      acquired := None;
      if reply == Raised(false) {
        return;
      }
      var free := CanLock(backend, lockKey(sourceId), conn);
      if free {
        backend := Locked(backend, lockKey(sourceId), conn);
      }
      acquired := if reply.Raised? then None else Some(free);
    }

    method ReleaseSourceLock(conn: nat, sourceId: nat)
      modifies this
      ensures backend == Unlocked(old(backend), lockKey(sourceId), conn)
    {
      backend := Unlocked(backend, lockKey(sourceId), conn);
    }

    method Close(conn: nat)
      modifies this
      ensures backend == Closed(old(backend), conn)
    {
      backend := Closed(backend, conn);
    }

    method Invalidate(conn: nat)
      modifies this
      ensures backend == Abandoned(old(backend), conn)
    {
      backend := Abandoned(backend, conn);
    }
  }
}
