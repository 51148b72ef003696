/** The session classes of `server/src/db/sessions.py`: a master session with
    its after-commit hook queue, a read-only slave session, and the factory
    that picks one of them. */
module Sessions {
  import opened Py
  import Engines

  /** One `(hook, args, kwargs)` entry of `_after_commit_handlers`. */
  datatype HookRecord = HookRecord(hook: PyObj, args: seq<PyObj>, kwargs: map<string, PyObj>)

  const HOOK_NOT_CALLABLE: string := "hook should be callable"
  const SLAVE_FLUSH_REFUSED: string := "Use master_session instead of slave_session."

  /** `on_commit` as a value: the new queue and what is raised. */
  function Registered(queue: seq<HookRecord>, rec: HookRecord): (r: (seq<HookRecord>, Option<Exc>))
    ensures rec.hook.Callable() <==> r.1.None?
    ensures rec.hook.Callable() ==> r.0 == queue + [rec]
    ensures !rec.hook.Callable() ==> r.0 == queue && r.1 == Some(ServerError(HOOK_NOT_CALLABLE))
  {
    if !rec.hook.Callable() then (queue, Some(ServerError(HOOK_NOT_CALLABLE)))
    else (queue + [rec], None)
  }

  /** The queue after a series of `on_commit` calls, each of which is independent
      of the others' errors (every caller sees its own `ServerError`). */
  function RegisterAll(queue: seq<HookRecord>, recs: seq<HookRecord>): seq<HookRecord>
    decreases |recs|
  {
    if recs == [] then queue else RegisterAll(Registered(queue, recs[0]).0, recs[1..])
  }

  /** The callable records of `recs`, in order. */
  function CallableOnly(recs: seq<HookRecord>): (r: seq<HookRecord>)
    ensures |r| <= |recs|
    ensures forall x :: x in r ==> x in recs && x.hook.Callable()
  {
    if recs == [] then []
    else (if recs[0].hook.Callable() then [recs[0]] else []) + CallableOnly(recs[1..])
  }

  /** After any series of registrations the queue holds what it held before
      followed by exactly the callable registrations, in the order they were
      made; a refused registration leaves no trace. */
  lemma {:induction false} RegisterAllIsFifo(queue: seq<HookRecord>, recs: seq<HookRecord>)
    ensures RegisterAll(queue, recs) == queue + CallableOnly(recs)
    decreases |recs|
  {
    if recs != [] {
      RegisterAllIsFifo(Registered(queue, recs[0]).0, recs[1..]);
      if recs[0].hook.Callable() {
        assert queue + [recs[0]] + CallableOnly(recs[1..]) == queue + CallableOnly(recs);
      } else {
        assert CallableOnly(recs) == CallableOnly(recs[1..]);
      }
    }
  }

  class MasterSession {
    const bind: Engines.Engine
    var handlers: seq<HookRecord>
    /** Every `handler(*args, **kwargs)` call made so far, in order. */
    ghost var invoked: seq<HookRecord>

    constructor (bind: Engines.Engine)
      ensures this.bind == bind && handlers == [] && invoked == []
    {
      this.bind := bind;
      handlers := [];
      invoked := [];
    }

    /** `on_commit`: refuses a non-callable hook with `ServerError`, otherwise
        appends one record at the end of the queue. */
    method OnCommit(hook: PyObj, args: seq<PyObj>, kwargs: map<string, PyObj>) returns (raised: Option<Exc>)
      modifies this`handlers
      ensures (handlers, raised) == Registered(old(handlers), HookRecord(hook, args, kwargs))
    {
      if !hook.Callable() {
        return Some(ServerError(HOOK_NOT_CALLABLE));
      }
      handlers := handlers + [HookRecord(hook, args, kwargs)];
      return None;
    }

    /** `_after_commit_hook`: calls every queued handler in order with its own
        arguments, then empties the queue. */
    method AfterCommitHook()
      modifies this`handlers, this`invoked
      ensures invoked == old(invoked) + old(handlers)
      ensures handlers == []
    {
      var i := 0;
      while i < |handlers|
        invariant 0 <= i <= |handlers| && handlers == old(handlers)
        invariant invoked == old(invoked) + handlers[..i]
      {
        invoked := invoked + [handlers[i]];
        i := i + 1;
      }
      handlers := [];
    }
  }

  /** A slave session: only the state `_is_clean()` inspects is kept. */
  class SlaveSession {
    const bind: Engines.Engine
    var pendingNew: set<PyObj>
    var dirty: set<PyObj>
    var deleted: set<PyObj>

    constructor (bind: Engines.Engine)
      ensures this.bind == bind && IsClean()
    {
      this.bind := bind;
      pendingNew, dirty, deleted := {}, {}, {};
    }

    predicate IsClean()
      reads this
    {
      pendingNew == {} && dirty == {} && deleted == {}
    }

    /** `SlaveSession.flush`: raises `ServerError` exactly when there is
        something to write; it never flushes (the method changes nothing). */
    method Flush() returns (raised: Option<Exc>)
      ensures raised.None? <==> IsClean()
      ensures raised.Some? ==> raised.value == ServerError(SLAVE_FLUSH_REFUSED)
    {
      if !IsClean() {
        return Some(ServerError(SLAVE_FLUSH_REFUSED));
      }
      return None;
    }
  }

  datatype SessionRef = Master(master: MasterSession) | Slave(slave: SlaveSession)

  /** `engines or ENGINES`: an omitted (falsy) registry means the module's own. */
  function EnginesOrDefault(engines: Option<Engines.Registry>, defaults: Engines.Registry): (r: Engines.Registry)
    ensures engines.Some? ==> r == engines.value
    ensures engines.None? ==> r == defaults
  {
    engines.GetOr(defaults)
  }

  /** `MasterSlaveSession.__new__`: a fresh master session bound to the master
      engine, or a fresh slave session bound to some slave engine (the model
      leaves the pick open); `random.choice` on an empty slave list raises
      `IndexError`. */
  method NewSession(engines: Option<Engines.Registry>, defaults: Engines.Registry, master: bool)
    returns (r: Result<SessionRef>)
    ensures var chosen := EnginesOrDefault(engines, defaults);
      && (master ==> r.Ok? && r.value.Master? && fresh(r.value.master)
                     && r.value.master.bind == chosen.master && r.value.master.handlers == []
                     && r.value.master.invoked == [])
      && (!master && chosen.slaves == [] ==> r == Err(IndexError))
      && (!master && chosen.slaves != [] ==>
            r.Ok? && r.value.Slave? && fresh(r.value.slave)
            && r.value.slave.bind in chosen.slaves && r.value.slave.IsClean())
  {
    var chosen := EnginesOrDefault(engines, defaults);
    if master {
      var s := new MasterSession(chosen.master);
      return Ok(Master(s));
    }
    if chosen.slaves == [] {
      return Err(IndexError);
    }
    var i :| 0 <= i < |chosen.slaves|;
    var s := new SlaveSession(chosen.slaves[i]);
    return Ok(Slave(s));
  }
}
