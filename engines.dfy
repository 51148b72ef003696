/** The engine registry of `server/src/db/engines.py`: one master engine and one
    engine per slave configuration, each with the fork (pid) guard installed on
    its connect and checkout events. */
module Engines {
  import opened Py

  const DEFAULT_POOL_SIZE: int := 5
  const DEFAULT_MAX_OVERFLOW: int := 4

  /** One role of `settings.db`: `dsn` and the optional `pool_size` and
      `max_overflow` keys. */
  datatype RoleConfig = RoleConfig(dsn: string, poolSize: Option<int>, maxOverflow: Option<int>)

  /** `settings.db`: the master role and the `slaves` key, which may be absent. */
  datatype DbSettings = DbSettings(master: RoleConfig, slaves: Option<seq<RoleConfig>>)

  datatype Isolation = DriverDefault | Autocommit

  /** The arguments `create_engine` receives for one role. */
  datatype EngineConfig = EngineConfig(dsn: string, poolSize: int, maxOverflow: int, isolation: Isolation)

  /** `role.get('pool_size', DEFAULT_POOL_SIZE)` */
  function PoolSize(c: RoleConfig): int { c.poolSize.GetOr(DEFAULT_POOL_SIZE) }

  /** `role.get('max_overflow', DEFAULT_MAX_OVERFLOW)` */
  function MaxOverflow(c: RoleConfig): int { c.maxOverflow.GetOr(DEFAULT_MAX_OVERFLOW) }

  function MasterEngineConfig(c: RoleConfig): EngineConfig {
    EngineConfig(c.dsn, PoolSize(c), MaxOverflow(c), DriverDefault)
  }

  function SlaveEngineConfig(c: RoleConfig): EngineConfig {
    EngineConfig(c.dsn, PoolSize(c), MaxOverflow(c), Autocommit)
  }

  /** `settings.db.get('slaves', [settings.db.master])` */
  function SlaveConfigs(db: DbSettings): (r: seq<RoleConfig>)
    ensures db.slaves.None? ==> r == [db.master]
    ensures db.slaves.Some? ==> r == db.slaves.value
  {
    db.slaves.GetOr([db.master])
  }

  /** A role without `pool_size` or `max_overflow` gets 5 and 4, whichever
      engine it configures; a given value is passed through unchanged. */
  lemma RoleDefaults(c: RoleConfig)
    ensures MasterEngineConfig(c).poolSize == SlaveEngineConfig(c).poolSize
              == (if c.poolSize.Some? then c.poolSize.value else 5)
    ensures MasterEngineConfig(c).maxOverflow == SlaveEngineConfig(c).maxOverflow
              == (if c.maxOverflow.Some? then c.maxOverflow.value else 4)
    ensures MasterEngineConfig(c).dsn == SlaveEngineConfig(c).dsn == c.dsn
  {
  }

  /** Only slave engines run in AUTOCOMMIT; the master keeps the driver's
      default isolation level. */
  lemma OnlySlavesAutocommit(c: RoleConfig)
    ensures SlaveEngineConfig(c).isolation == Autocommit
    ensures MasterEngineConfig(c).isolation != Autocommit
  {
  }

  /** With no `slaves` key, the single slave engine serves from the master's
      database with the master's pool sizing, but in AUTOCOMMIT. */
  lemma SlavesFallBackToMaster(db: DbSettings)
    requires db.slaves.None?
    ensures |SlaveConfigs(db)| == 1
    ensures SlaveEngineConfig(SlaveConfigs(db)[0])
              == MasterEngineConfig(db.master).(isolation := Autocommit)
  {
  }

  /** A pooled engine.  `dispose()` is a driver call: whether it raises is
      an input of DisposeEngines. */
  class Engine {
    const config: EngineConfig
    var pidGuarded: bool

    constructor (config: EngineConfig)
      ensures this.config == config && !pidGuarded
    {
      this.config := config;
      pidGuarded := false;
    }
  }

  /** `add_engine_pidguard`: registers the connect and checkout listeners
      (OnConnect and OnCheckout below) and hands back the very same engine. */
  method AddEnginePidguard(engine: Engine) returns (r: Engine)
    modifies engine
    ensures r == engine && engine.pidGuarded
  {
    engine.pidGuarded := true;
    r := engine;
  }

  /** The `ENGINES` dictionary. */
  datatype Registry = Registry(master: Engine, slaves: seq<Engine>) {
    /** The engines the registry holds, as a set (for frames). */
    function Members(): set<Engine> {
      {master} + set e | e in slaves
    }

    /** The engines in the order `dispose_engines` visits them. */
    function InOrder(): seq<Engine> {
      [master] + slaves
    }

    /** Every engine was created by its own `create_engine` call. */
    ghost predicate Distinct() {
      (forall i :: 0 <= i < |slaves| ==> slaves[i] != master) &&
      (forall i, j :: 0 <= i < j < |slaves| ==> slaves[i] != slaves[j])
    }
  }

  /** The construction of `ENGINES`: a guarded master engine and one guarded
      slave engine per slave configuration, in order. */
  method CreateEngines(db: DbSettings) returns (r: Registry)
    ensures r.Distinct()
    ensures fresh(r.master) && r.master.config == MasterEngineConfig(db.master)
    ensures |r.slaves| == |SlaveConfigs(db)|
    ensures forall i :: 0 <= i < |r.slaves| ==>
              fresh(r.slaves[i]) && r.slaves[i].config == SlaveEngineConfig(SlaveConfigs(db)[i])
    ensures forall e :: e in r.Members() ==> e.pidGuarded
  {
    var master := new Engine(MasterEngineConfig(db.master));
    master := AddEnginePidguard(master);
    var configs := SlaveConfigs(db);
    var slaves: seq<Engine> := [];
    var i := 0;
    while i < |configs|
      invariant 0 <= i <= |configs| && |slaves| == i
      invariant fresh(master) && master.config == MasterEngineConfig(db.master)
      invariant master.pidGuarded
      invariant forall j :: 0 <= j < i ==>
                  fresh(slaves[j]) && slaves[j].config == SlaveEngineConfig(configs[j]) &&
                  slaves[j].pidGuarded && slaves[j] != master
      invariant forall j, k :: 0 <= j < k < i ==> slaves[j] != slaves[k]
    {
      var e := new Engine(SlaveEngineConfig(configs[i]));
      e := AddEnginePidguard(e);
      slaves := slaves + [e];
      i := i + 1;
    }
    r := Registry(master, slaves);
  }

  /** The position of the first engine of `engines` whose `dispose()`
      raises (a key of `failure`), or `|engines|` when none does. */
  function FirstFailure(engines: seq<Engine>, failure: map<Engine, Exc>): (k: nat)
    ensures k <= |engines|
    ensures forall j :: 0 <= j < k ==> engines[j] !in failure
    ensures k < |engines| ==> engines[k] in failure
    decreases |engines|
  {
    if engines == [] then 0
    else if engines[0] in failure then 0
    else 1 + FirstFailure(engines[1..], failure)
  }

  /** FirstFailure is the position of the first engine that fails. */
  lemma {:induction false} FirstFailureIs(engines: seq<Engine>, failure: map<Engine, Exc>, n: nat)
    requires n <= |engines|
    requires forall j :: 0 <= j < n ==> engines[j] !in failure
    requires n < |engines| ==> engines[n] in failure
    ensures FirstFailure(engines, failure) == n
    decreases n
  {
    if n > 0 {
      FirstFailureIs(engines[1..], failure, n - 1);
    }
  }

  /** `dispose_engines`, with `failure` naming the engines whose `dispose()`
      raises and what it raises: the master first, then every slave in
      order, until a dispose raises; that exception leaves and the engines
      after it are not disposed.  `disposed` lists the dispose calls that
      returned, in order. */
  method DisposeEngines(r: Registry, failure: map<Engine, Exc>) returns (raised: Option<Exc>, ghost disposed: seq<Engine>)
    ensures var order := r.InOrder(); var k := FirstFailure(order, failure);
      raised == (if k < |order| then Some(failure[order[k]]) else None)
    ensures disposed == r.InOrder()[..FirstFailure(r.InOrder(), failure)]
  {
    ghost var order := r.InOrder();
    disposed := [];
    raised := None;
    if r.master in failure {
      raised := Some(failure[r.master]);
    } else {
      disposed := [r.master];
    }
    var i := 0;
    while i < |r.slaves| && raised.None?
      invariant 0 <= i <= |r.slaves|
      invariant |disposed| == (if raised.None? then i + 1 else i)
      invariant disposed == order[..|disposed|]
      invariant forall j :: 0 <= j < |disposed| ==> order[j] !in failure
      invariant raised.Some? ==> order[|disposed|] in failure && raised == Some(failure[order[|disposed|]])
    {
      var e := r.slaves[i];
      assert order[i + 1] == e;
      if e in failure {
        raised := Some(failure[e]);
      } else {
        disposed := disposed + [e];
      }
      i := i + 1;
    }
    FirstFailureIs(order, failure, |disposed|);
  }

  /** The driver's own connection object. */
  class DbapiConnection {
    constructor () {}
  }

  /** SQLAlchemy's `_ConnectionRecord`: its `info` dictionary and its connection. */
  class ConnectionRecord {
    var info: map<string, int>
    var connection: DbapiConnection?

    constructor (connection: DbapiConnection?)
      ensures info == map[] && this.connection == connection
    {
      info := map[];
      this.connection := connection;
    }
  }

  /** SQLAlchemy's `_ConnectionFairy`: the proxy handed to the checkout listener. */
  class ConnectionProxy {
    var connection: DbapiConnection?

    constructor (connection: DbapiConnection?)
      ensures this.connection == connection
    {
      this.connection := connection;
    }
  }

  /** What the checkout listener raises, given the record's `info` and the
      current process id: a missing stamp is a `KeyError`, a foreign stamp a
      `DisconnectionError`, the caller's own stamp nothing. */
  function CheckoutGuard(info: map<string, int>, pid: int): (r: Option<Exc>)
    ensures r.None? <==> "pid" in info && info["pid"] == pid
    ensures "pid" !in info ==> r == Some(KeyError("pid"))
    ensures "pid" in info && info["pid"] != pid ==> r == Some(DisconnectionError(info["pid"], pid))
  {
    if "pid" !in info then Some(KeyError("pid"))
    else if info["pid"] != pid then Some(DisconnectionError(info["pid"], pid))
    else None
  }

  /** A connection stamped by process `owner` can be checked out by `owner`
      only; any other process is refused with both pids in the error. */
  lemma StampedConnectionGuard(info: map<string, int>, owner: int, pid: int)
    ensures CheckoutGuard(info["pid" := owner], pid)
              == if owner == pid then None else Some(DisconnectionError(owner, pid))
  {
  }

  /** The `connect` listener: stamps the current process id on the record. */
  method OnConnect(record: ConnectionRecord, pid: int)
    modifies record
    ensures record.info == old(record.info)["pid" := pid]
    ensures record.connection == old(record.connection)
  {
    record.info := record.info["pid" := pid];
  }

  /** The `checkout` listener: in the owning process it changes nothing; in
      any other process it drops the connection from the record and from the
      proxy before raising. */
  method OnCheckout(record: ConnectionRecord, proxy: ConnectionProxy, pid: int) returns (raised: Option<Exc>)
    modifies record, proxy
    ensures raised == CheckoutGuard(old(record.info), pid)
    ensures record.info == old(record.info)
    ensures raised.Some? && raised.value.DisconnectionError? ==>
              record.connection == null && proxy.connection == null
    ensures !(raised.Some? && raised.value.DisconnectionError?) ==>
              record.connection == old(record.connection) && proxy.connection == old(proxy.connection)
  {
    if "pid" !in record.info {
      return Some(KeyError("pid"));
    }
    if record.info["pid"] != pid {
      record.connection := null;
      proxy.connection := null;
      return Some(DisconnectionError(record.info["pid"], pid));
    }
    return None;
  }
}
