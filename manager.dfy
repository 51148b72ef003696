/** `server/src/db/manager.py`: the reference-counted master session scope of
    `SessionManager`, its async pool singleton, and the one-shot
    `ConnectionManager`. */
module Manager {
  import opened Py
  import Engines
  import Sessions

  /** A call the scope makes on the master session. */
  datatype Event = Commit | Flush | Rollback | Close

  /** How the body of a `with db_manager.master_session()` block ended. */
  datatype Outcome = Normal | Raised(e: Exc)

  /** What each session call raises, if anything; the calls are the ORM's and
      their failure is an input of the model. */
  datatype Driver = Driver(commit: Option<Exc>, flush: Option<Exc>, rollback: Option<Exc>, close: Option<Exc>)

  const NoFailures: Driver := Driver(None, None, None, None)

  /** The result of leaving one scope: the calls made, in order, what
      propagates, the counter afterwards, and whether the commit returned
      (so that the after-commit hooks ran). */
  datatype ExitResult = ExitResult(events: seq<Event>, raised: Option<Exc>, count: int, committed: bool)

  /** The first exception of the `try` block after `yield`: the body's own, or
      the one `commit` or `flush` raised. */
  function TryError(count: int, autoflush: bool, outcome: Outcome, d: Driver): Option<Exc> {
    match outcome
    case Raised(e) => Some(e)
    case Normal => if count == 1 then d.commit else if autoflush then d.flush else None
  }

  /** The calls of the `try` block after `yield`. */
  function TryEvents(count: int, autoflush: bool, outcome: Outcome): seq<Event> {
    if outcome.Raised? then []
    else if count == 1 then [Commit]
    else if autoflush then [Flush]
    else []
  }

  /** Leaving a `master_session` scope whose counter reads `count`.  Only the
      outermost scope commits, and on an exception only it rolls back; inner
      scopes flush when `autoflush` is set.  Whatever the rollback does, the
      exception that was caught is the one that leaves (the `raise e` in the
      inner `finally`), unless closing the session raises in its turn.  The
      session is closed exactly when the counter drops to 0. */
  function ExitStep(count: int, autoflush: bool, outcome: Outcome, d: Driver): (r: ExitResult)
    requires count >= 1
    ensures r.count == count - 1
    ensures Commit in r.events <==> count == 1 && outcome.Normal?
    ensures r.committed <==> count == 1 && outcome.Normal? && d.commit.None?
    ensures Flush in r.events <==> count > 1 && outcome.Normal? && autoflush
    ensures Rollback in r.events <==>
              count == 1 && (outcome.Raised? ==> outcome.e.IsException()) &&
              (outcome.Normal? ==> d.commit.Some? && d.commit.value.IsException())
    ensures Close in r.events <==> count == 1
    ensures count == 1 && d.close.Some? ==> r.raised == d.close
    ensures outcome.Raised? && (count > 1 || d.close.None?) ==> r.raised == Some(outcome.e)
    ensures outcome.Normal? && count == 1 && d.close.None? ==> r.raised == d.commit
    ensures outcome.Normal? && count > 1 ==> r.raised == (if autoflush then d.flush else None)
  {
    var err := TryError(count, autoflush, outcome, d);
    var rollback := if err.Some? && err.value.IsException() && count == 1 then [Rollback] else [];
    var closing := if count - 1 > 0 then [] else [Close];
    var raised := if count - 1 <= 0 && d.close.Some? then d.close else err;
    ExitResult(TryEvents(count, autoflush, outcome) + rollback + closing, raised, count - 1,
               count == 1 && outcome.Normal? && d.commit.None?)
  }

  /** The rollback's own exception never reaches the caller: leaving a scope
      gives the same result whatever `rollback` raises. */
  lemma RollbackFailureMasked(count: int, autoflush: bool, outcome: Outcome, d: Driver, x: Option<Exc>)
    requires count >= 1
    ensures ExitStep(count, autoflush, outcome, d) == ExitStep(count, autoflush, outcome, d.(rollback := x))
  {
  }

  /** The scope's effect on the counter: it is back at its value before entry
      whether the scope ends normally or not. */
  lemma ScopeRestoresCounter(before: int, autoflush: bool, outcome: Outcome, d: Driver)
    requires before >= 0
    ensures ExitStep(before + 1, autoflush, outcome, d).count == before
  {
  }

  /** Leaving `depth` nested scopes, innermost first; each scope sees the
      outcome the one inside it propagated. */
  function Unwind(depth: nat, autoflush: bool, outcome: Outcome, d: Driver): seq<Event>
    decreases depth
  {
    if depth == 0 then []
    else
      var r := ExitStep(depth, autoflush, outcome, d);
      r.events + Unwind(depth - 1, autoflush, if r.raised.Some? then Raised(r.raised.value) else Normal, d)
  }

  /** What leaves the outermost of `depth` nested scopes, threaded through
      the scopes the way Unwind threads their outcomes. */
  function UnwindRaised(depth: nat, autoflush: bool, outcome: Outcome, d: Driver): Option<Exc>
    decreases depth
  {
    if depth == 0 then (if outcome.Raised? then Some(outcome.e) else None)
    else
      var r := ExitStep(depth, autoflush, outcome, d);
      UnwindRaised(depth - 1, autoflush, if r.raised.Some? then Raised(r.raised.value) else Normal, d)
  }

  /** `n` copies of `e`. */
  function Repeat(e: Event, n: nat): (r: seq<Event>)
    ensures |r| == n && forall i :: 0 <= i < n ==> r[i] == e
  {
    if n == 0 then [] else [e] + Repeat(e, n - 1)
  }

  /** Nested scopes that all end normally: the inner ones only flush (when
      `autoflush`), and the whole nest makes exactly one commit, followed by
      the one close, at the outermost exit; nothing is raised. */
  lemma {:induction false} NestedScopesCommitOnce(depth: nat, autoflush: bool)
    requires depth >= 1
    ensures Unwind(depth, autoflush, Normal, NoFailures)
              == Repeat(Flush, if autoflush then depth - 1 else 0) + [Commit, Close]
    ensures UnwindRaised(depth, autoflush, Normal, NoFailures) == None
    decreases depth
  {
    if depth > 1 {
      NestedScopesCommitOnce(depth - 1, autoflush);
      if autoflush {
        assert [Flush] + Repeat(Flush, depth - 2) == Repeat(Flush, depth - 1);
      }
    }
  }

  /** An exception raised in the innermost of `depth` nested scopes passes
      through every scope unchanged; no scope commits or flushes, the
      outermost one alone rolls back, and the session is then closed. */
  lemma {:induction false} NestedScopesRollbackOnce(depth: nat, autoflush: bool, e: Exc)
    requires depth >= 1 && e.IsException()
    ensures Unwind(depth, autoflush, Raised(e), NoFailures) == [Rollback, Close]
    ensures UnwindRaised(depth, autoflush, Raised(e), NoFailures) == Some(e)
    decreases depth
  {
    if depth > 1 {
      NestedScopesRollbackOnce(depth - 1, autoflush, e);
    }
  }

  /** The state machine of the nesting counter: no open scope, or `n` open ones. */
  datatype NestingState = Closed | Open(n: nat)

  /** A scope request: what `master_session(autoflush)` returns before it is entered. */
  datatype ScopeRequest = MasterScope(autoflush: bool)

  /** The asyncpg pool; `close()` is a driver call whose failure is an input. */
  class Pool {
    const dsn: string
    const minSize: int
    const maxSize: int
    var closed: bool

    constructor (dsn: string, minSize: int, maxSize: int)
      ensures this.dsn == dsn && this.minSize == minSize && this.maxSize == maxSize && !closed
    {
      this.dsn, this.minSize, this.maxSize := dsn, minSize, maxSize;
      closed := false;
    }

    method Close(err: Option<Exc>) returns (raised: Option<Exc>)
      modifies this
      ensures raised == err && closed == (old(closed) || err.None?)
    {
      if err.None? { closed := true; }
      raised := err;
    }
  }

  /** `min_size` and `max_size` of the async pool for the master role. */
  function PoolBounds(master: Engines.RoleConfig): (int, int) {
    (Engines.PoolSize(master) - Engines.MaxOverflow(master),
     Engines.PoolSize(master) + Engines.MaxOverflow(master))
  }

  /** The bounds are `size - overflow` and `size + overflow`; they determine
      size and overflow back, and with no configured values they are 1 and 9. */
  lemma PoolBoundsSpread(master: Engines.RoleConfig)
    ensures var (lo, hi) := PoolBounds(master);
      && (lo + hi) / 2 == Engines.PoolSize(master) && (hi - lo) / 2 == Engines.MaxOverflow(master)
      && (master.poolSize.None? && master.maxOverflow.None? ==> lo == 1 && hi == 9)
  {
  }

  class SessionManager {
    /** The `ENGINES` registry `db_factory` was made with. */
    const engines: Engines.Registry
    var openMasters: int
    var masterInstance: Sessions.MasterSession?
    var asyncInstance: Pool?
    /** Every call made on the master session, in order. */
    ghost var trace: seq<Event>

    ghost predicate Valid()
      reads this
    {
      openMasters >= 0 && (openMasters > 0 ==> masterInstance != null)
    }

    constructor (engines: Engines.Registry)
      ensures Valid() && this.engines == engines
      ensures openMasters == 0 && masterInstance == null && asyncInstance == null && trace == []
    {
      this.engines := engines;
      openMasters := 0;
      masterInstance := null;
      asyncInstance := null;
      trace := [];
    }

    function State(): NestingState
      reads this
      requires Valid()
    {
      if openMasters == 0 then Closed else Open(openMasters)
    }

    /** `has_open_master`: some scope is open. */
    predicate HasOpenMaster(): (r: bool)
      reads this
      requires Valid()
      ensures r <==> State() != Closed
    {
      openMasters > 0
    }

    /** The lazy `__master_session` property: created once, bound to the
        master engine, and the same object on every later access. */
    method MasterSessionInstance() returns (s: Sessions.MasterSession)
      modifies this`masterInstance
      ensures s == masterInstance
      ensures old(masterInstance) != null ==> s == old(masterInstance)
      ensures old(masterInstance) == null ==> fresh(s) && s.bind == engines.master && s.handlers == [] && s.invoked == []
    {
      if masterInstance == null {
        var r := Sessions.NewSession(Some(engines), engines, true);
        masterInstance := r.value.master;
      }
      s := masterInstance;
    }

    /** Entering `master_session()`: the counter goes up and the `with`
        target is the (lazily created) master session. */
    method EnterMaster() returns (s: Sessions.MasterSession)
      requires Valid()
      modifies this`openMasters, this`masterInstance
      ensures Valid() && State() == Open(old(openMasters) + 1)
      ensures openMasters == old(openMasters) + 1 && s == masterInstance
      ensures old(masterInstance) != null ==> s == old(masterInstance)
      ensures old(masterInstance) == null ==> fresh(s) && s.bind == engines.master && s.handlers == [] && s.invoked == []
    {
      openMasters := openMasters + 1;
      s := MasterSessionInstance();
    }

    /** Leaving `master_session(autoflush)` with the body's `outcome`; the
        return value is the exception the `with` statement raises.  The calls
        recorded, the counter and what propagates are those of ExitStep; a
        commit that returns runs the session's after-commit hooks. */
    method ExitMaster(autoflush: bool, outcome: Outcome, d: Driver) returns (raised: Option<Exc>)
      requires Valid() && openMasters >= 1
      modifies this`openMasters, this`trace, masterInstance
      ensures Valid() && masterInstance == old(masterInstance)
      ensures var r := ExitStep(old(openMasters), autoflush, outcome, d);
        && openMasters == r.count && trace == old(trace) + r.events && raised == r.raised
        && (r.committed ==>
              masterInstance.handlers == [] &&
              masterInstance.invoked == old(masterInstance.invoked) + old(masterInstance.handlers))
        && (!r.committed ==>
              masterInstance.handlers == old(masterInstance.handlers) &&
              masterInstance.invoked == old(masterInstance.invoked))
    {
      ghost var r := ExitStep(openMasters, autoflush, outcome, d);
      ghost var before := trace;
      var s := masterInstance;
      var err: Option<Exc> := None;
      // try: the statements after `yield`
      match outcome {
        case Raised(e) =>
          err := Some(e);
        case Normal =>
          if openMasters == 1 {
            trace := trace + [Commit];
            err := d.commit;
            if err.None? {
              s.AfterCommitHook();
            }
          } else if autoflush {
            trace := trace + [Flush];
            err := d.flush;
          }
      }
      assert err == TryError(r.count + 1, autoflush, outcome, d);
      assert trace == before + TryEvents(r.count + 1, autoflush, outcome);
      // except Exception as e: the rollback's own exception is superseded by `raise e`
      if err.Some? && err.value.IsException() && openMasters == 1 {
        trace := trace + [Rollback];
      }
      ghost var afterExcept := trace;
      // finally
      openMasters := openMasters - 1;
      if !(openMasters > 0) {
        trace := trace + [Close];
        if d.close.Some? {
          err := d.close;
        }
      }
      assert trace == afterExcept + (if r.count > 0 then [] else [Close]);
      raised := err;
    }

    /** `current_session`: both branches return a new, unentered
        `master_session()` scope with the default `autoflush`. */
    method CurrentSession() returns (scope: ScopeRequest)
      requires Valid()
      ensures scope == MasterScope(true)
    {
      if HasOpenMaster() {
        return MasterScope(true);
      }
      return MasterScope(true);
    }

    /** `close_all`: closes the master session if one was ever created. */
    method CloseAll(closeErr: Option<Exc>) returns (raised: Option<Exc>)
      modifies this`trace
      ensures masterInstance != null ==> trace == old(trace) + [Close] && raised == closeErr
      ensures masterInstance == null ==> trace == old(trace) && raised == None
    {
      raised := None;
      if masterInstance != null {
        trace := trace + [Close];
        raised := closeErr;
      }
    }

    /** `async_master`: the cached pool, or a new one sized from the master
        role; a failing `create_pool` leaves nothing cached. */
    method AsyncMaster(master: Engines.RoleConfig, createErr: Option<Exc>) returns (r: Result<Pool>)
      modifies this`asyncInstance
      ensures old(asyncInstance) != null ==> r == Ok(old(asyncInstance)) && asyncInstance == old(asyncInstance)
      ensures old(asyncInstance) == null && createErr.Some? ==>
                r == Err(createErr.value) && asyncInstance == null
      ensures old(asyncInstance) == null && createErr.None? ==>
                r.Ok? && fresh(r.value) && asyncInstance == r.value && !r.value.closed &&
                r.value.dsn == master.dsn && (r.value.minSize, r.value.maxSize) == PoolBounds(master)
    {
      if asyncInstance == null {
        if createErr.Some? {
          return Err(createErr.value);
        }
        var (lo, hi) := PoolBounds(master);
        asyncInstance := new Pool(master.dsn, lo, hi);
      }
      r := Ok(asyncInstance);
    }

    /** `async_close_master`: closes the cached pool and forgets it, so the
        next `async_master` creates a new one; with no pool it does nothing.
        If `close()` raises, the pool stays cached. */
    method AsyncCloseMaster(closeErr: Option<Exc>) returns (raised: Option<Exc>)
      modifies this`asyncInstance, asyncInstance
      ensures old(asyncInstance) == null ==> raised == None && asyncInstance == null
      ensures old(asyncInstance) != null && closeErr.None? ==>
                raised == None && asyncInstance == null && old(asyncInstance).closed
      ensures old(asyncInstance) != null && closeErr.Some? ==>
                raised == closeErr && asyncInstance == old(asyncInstance)
                && asyncInstance.closed == old(asyncInstance.closed)
    {
      raised := None;
      if asyncInstance != null {
        raised := asyncInstance.Close(closeErr);
        if raised.None? {
          asyncInstance := null;
        }
      }
    }

    /** `async_close_all`: the same as `async_close_master`. */
    method AsyncCloseAll(closeErr: Option<Exc>) returns (raised: Option<Exc>)
      modifies this`asyncInstance, asyncInstance
      ensures old(asyncInstance) == null ==> raised == None && asyncInstance == null
      ensures old(asyncInstance) != null && closeErr.None? ==>
                raised == None && asyncInstance == null && old(asyncInstance).closed
      ensures old(asyncInstance) != null && closeErr.Some? ==>
                raised == closeErr && asyncInstance == old(asyncInstance)
                && asyncInstance.closed == old(asyncInstance.closed)
    {
      raised := AsyncCloseMaster(closeErr);
    }
  }

  /** Two nested scopes that end normally: one commit, at the outer exit, and
      the hooks registered inside run once, then the queue is empty. */
  method NestedScopesScenario(engines: Engines.Registry, hook: PyObj)
    requires hook.Callable()
  {
    var m := new SessionManager(engines);
    var a := m.EnterMaster();
    var b := m.EnterMaster();
    assert a == b;
    var err := b.OnCommit(hook, [], map[]);
    assert ExitStep(2, true, Normal, NoFailures) == ExitResult([Flush], None, 1, false);
    assert ExitStep(1, true, Normal, NoFailures) == ExitResult([Commit, Close], None, 0, true);
    var rb := m.ExitMaster(true, Normal, NoFailures);
    assert m.trace == [Flush] && rb == None && m.openMasters == 1;
    assert a.invoked == [];
    var ra := m.ExitMaster(true, Normal, NoFailures);
    assert m.trace == [Flush, Commit, Close] && ra == None && !m.HasOpenMaster();
    assert a.invoked == [Sessions.HookRecord(hook, [], map[])] && a.handlers == [];
    var c := m.EnterMaster();
    assert c == a;
  }

  /** A raise inside one scope whose rollback fails as well: the caller still
      sees the original exception, and the queued hooks do not run. */
  method FailingScopeScenario(engines: Engines.Registry, hook: PyObj)
    requires hook.Callable()
  {
    var m := new SessionManager(engines);
    var a := m.EnterMaster();
    var err := a.OnCommit(hook, [], map[]);
    var r := m.ExitMaster(true, Raised(DriverError(1)), NoFailures.(rollback := Some(DriverError(2))));
    assert r == Some(DriverError(1));
    assert m.trace == [Rollback, Close] && a.invoked == [] && |a.handlers| == 1;
  }

  /** A pool survives until it is closed; afterwards a new one is created. */
  method PoolLifecycleScenario(engines: Engines.Registry, master: Engines.RoleConfig)
  {
    var m := new SessionManager(engines);
    var p1 := m.AsyncMaster(master, None);
    var p2 := m.AsyncMaster(master, None);
    assert p1 == p2;
    var e := m.AsyncCloseMaster(None);
    assert p1.value.closed;
    var p3 := m.AsyncMaster(master, None);
    assert p3.value != p1.value && !p3.value.closed;
  }

  /** The driver's connection, as `asyncpg.connect` returns it. */
  class Connection {
    const dsn: string
    const statementCacheSize: int
    ghost var closeCalls: nat

    constructor (dsn: string, statementCacheSize: int)
      ensures this.dsn == dsn && this.statementCacheSize == statementCacheSize && closeCalls == 0
    {
      this.dsn, this.statementCacheSize := dsn, statementCacheSize;
      closeCalls := 0;
    }

    method Close(err: Option<Exc>) returns (raised: Option<Exc>)
      modifies this
      ensures raised == err && closeCalls == old(closeCalls) + 1
    {
      closeCalls := closeCalls + 1;
      raised := err;
    }
  }

  /** `ConnectionManager`: one connection per `async with`, opened on entry
      and closed on exit whatever the body did. */
  class ConnectionManager {
    const dsn: string
    const statementCacheSize: int
    var connection: Connection?

    constructor (dsn: string, statementCacheSize: int)
      ensures this.dsn == dsn && this.statementCacheSize == statementCacheSize && connection == null
    {
      this.dsn, this.statementCacheSize := dsn, statementCacheSize;
      connection := null;
    }

    /** `acquire`: the manager itself is the context. */
    method Acquire() returns (r: ConnectionManager)
      ensures r == this
    {
      r := this;
    }

    /** `__aenter__` (and `__await__`): connects and keeps the connection. */
    method Enter(connectErr: Option<Exc>) returns (r: Result<Connection>)
      modifies this`connection
      ensures connectErr.Some? ==> r == Err(connectErr.value) && connection == old(connection)
      ensures connectErr.None? ==>
                r.Ok? && fresh(r.value) && connection == r.value &&
                r.value.dsn == dsn && r.value.statementCacheSize == statementCacheSize &&
                r.value.closeCalls == 0
    {
      if connectErr.Some? {
        return Err(connectErr.value);
      }
      connection := new Connection(dsn, statementCacheSize);
      r := Ok(connection);
    }

    /** `__aexit__`: closes the stored connection and lets the body's
        exception through, unless `close()` raises; with no stored connection
        the attribute lookup on `None` fails. */
    method Exit(outcome: Outcome, closeErr: Option<Exc>) returns (raised: Option<Exc>)
      modifies connection
      ensures old(connection) == null ==> raised == Some(AttributeError("close"))
      ensures old(connection) != null ==>
                connection.closeCalls == old(connection.closeCalls) + 1 &&
                raised == (if closeErr.Some? then closeErr
                           else if outcome.Raised? then Some(outcome.e) else None)
    {
      if connection == null {
        return Some(AttributeError("close"));
      }
      raised := connection.Close(closeErr);
      if raised.None? && outcome.Raised? {
        raised := Some(outcome.e);
      }
    }

    /** `close`: closes the stored connection, if there is one. */
    method Close(closeErr: Option<Exc>) returns (raised: Option<Exc>)
      modifies connection
      ensures old(connection) == null ==> raised == None
      ensures old(connection) != null ==>
                connection.closeCalls == old(connection.closeCalls) + 1 && raised == closeErr
    {
      raised := None;
      if connection != null {
        raised := connection.Close(closeErr);
      }
    }
  }

  /** The scope entered on a fresh manager closes exactly the connection it opened. */
  method ScopedConnectionScenario(dsn: string)
  {
    var cm := new ConnectionManager(dsn, 0);
    var ctx := cm.Acquire();
    var c := ctx.Enter(None);
    var e := ctx.Exit(Raised(DriverError(7)), None);
    assert e == Some(DriverError(7)) && c.value.closeCalls == 1;
  }
}
