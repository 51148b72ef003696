/** `server/src/config.py`: the settings object (layered YAML values with a
    temporary `override`), attribute lookup, `configure_logging` and
    `configure_db`. */
module Config {
  import opened Py
  import Engines

  /** A settings value as the YAML loader produces it. */
  datatype Setting =
    | Str(s: string)
    | Num(n: int)
    | Flag(b: bool)
    | Null
    | List(items: seq<Setting>)
    | Dict(m: map<string, Setting>)
  {
    /** Python truthiness of the value. */
    predicate Truthy() {
      match this
      case Str(s) => s != ""
      case Num(n) => n != 0
      case Flag(b) => b
      case Null => false
      case List(items) => items != []
      case Dict(m) => m != map[]
    }
  }

  /** `update_dict` of the settings dictionary: a nested mapping is merged
      into a mapping already there, any other value replaces what was there. */
  function Merge(base: Setting, over: Setting): Setting
    decreases over
  {
    if base.Dict? && over.Dict? then
      Dict(map k | k in base.m.Keys + over.m.Keys ::
             if k in over.m then (if k in base.m then Merge(base.m[k], over.m[k]) else over.m[k])
             else base.m[k])
    else over
  }

  /** The top-level dictionary after `update_dict(over)`. */
  function Update(base: map<string, Setting>, over: map<string, Setting>): (r: map<string, Setting>)
    ensures r.Keys == base.Keys + over.Keys
  {
    Merge(Dict(base), Dict(over)).m
  }

  /** What an update guarantees about plain values: every key keeps its old
      value unless the update names it, and a key the update gives a value
      that is not a mapping (or that had no mapping before) takes that value. */
  lemma UpdateOverridesAndKeeps(base: map<string, Setting>, over: map<string, Setting>, k: string)
    ensures k in Update(base, over) <==> k in base || k in over
    ensures k !in over && k in base ==> Update(base, over)[k] == base[k]
    ensures k in over && !(over[k].Dict? && k in base && base[k].Dict?) ==> Update(base, over)[k] == over[k]
  {
    if k in over && k in base {
      assert Update(base, over)[k] == Merge(base[k], over[k]);
    }
  }

  /** Merging a value into itself changes nothing. */
  lemma {:induction false} MergeSelf(x: Setting)
    ensures Merge(x, x) == x
    decreases x
  {
    if x.Dict? {
      forall k | k in x.m
        ensures Merge(x.m[k], x.m[k]) == x.m[k]
      {
        MergeSelf(x.m[k]);
      }
      assert Merge(x, x).m == x.m;
    }
  }

  /** Applying the same layer twice equals applying it once. */
  lemma {:induction false} MergeIdempotent(base: Setting, over: Setting)
    ensures Merge(Merge(base, over), over) == Merge(base, over)
    decreases over
  {
    if base.Dict? && over.Dict? {
      var once := Merge(base, over);
      forall k | k in over.m
        ensures Merge(once.m[k], over.m[k]) == once.m[k]
      {
        if k in base.m {
          assert once.m[k] == Merge(base.m[k], over.m[k]);
          MergeIdempotent(base.m[k], over.m[k]);
        } else {
          assert once.m[k] == over.m[k];
          MergeSelf(over.m[k]);
        }
      }
      assert Merge(once, over).m == once.m;
    } else {
      MergeSelf(over);
    }
  }

  /** `Settings.__init__`: the defaults, with the local file layered over them
      when it exists. */
  function Layered(defaults: map<string, Setting>, local: Option<map<string, Setting>>): map<string, Setting> {
    match local
    case None => defaults
    case Some(l) => Update(defaults, l)
  }

  /** The message of the `SettingNotDefinedError` for `key`. */
  function NotDefined(key: string): string {
    "Setting " + key + " is not defined"
  }

  class Settings {
    var data: map<string, Setting>

    constructor (defaults: map<string, Setting>, local: Option<map<string, Setting>>)
      ensures data == Layered(defaults, local)
    {
      data := Layered(defaults, local);
    }

    /** `__getattr__`: the value of a present key; a missing key raises
        `SettingNotDefinedError` naming it. */
    function GetAttr(key: string): (r: Result<Setting>)
      reads this
      ensures r.Ok? <==> key in data
      ensures r.Ok? ==> r.value == data[key]
      ensures r.Err? ==> r.error == SettingNotDefinedError(NotDefined(key))
    {
      if key in data then Ok(data[key]) else Err(SettingNotDefinedError(NotDefined(key)))
    }

    /** `__contains__`: `key in settings` holds exactly when reading the key
        as an attribute does not raise. */
    predicate Contains(key: string): (present: bool)
      reads this
      ensures present <==> GetAttr(key).Ok?
      ensures present ==> GetAttr(key) == Ok(data[key])
    {
      key in data
    }

    /** Entering `override(options)`: the snapshot the generator keeps, and
        the options merged into the live settings. */
    method OverrideEnter(options: map<string, Setting>) returns (snapshot: map<string, Setting>)
      modifies this
      ensures snapshot == old(data) && data == Update(old(data), options)
    {
      snapshot := data;
      data := Update(data, options);
    }

    /** Leaving `override`: the snapshot comes back whether the block ended
        normally or by an exception, and the exception goes on. */
    method OverrideExit(snapshot: map<string, Setting>, outcome: Option<Exc>) returns (raised: Option<Exc>)
      modifies this
      ensures data == snapshot && raised == outcome
    {
      data := snapshot;
      raised := outcome;
    }
  }

  /** Inside an override block every option is readable with its new value
      (a mapping merged into the old one), every other key reads as before;
      after the block the settings are the ones before it, and what the
      block raised leaves the `with` statement. */
  method OverrideScenario(s: Settings, options: map<string, Setting>, k: string, raised: Option<Exc>)
    returns (propagated: Option<Exc>)
    modifies s
    ensures s.data == old(s.data) && propagated == raised
  {
    var snapshot := s.OverrideEnter(options);
    UpdateOverridesAndKeeps(snapshot, options, k);
    assert k in options && !options[k].Dict? ==> s.GetAttr(k) == Ok(options[k]);
    assert k !in options ==> s.GetAttr(k) == (if k in snapshot then Ok(snapshot[k]) else Err(SettingNotDefinedError(NotDefined(k))));
    propagated := s.OverrideExit(snapshot, raised);
  }

  /** One handler after `configure_logging`: a handler with a `filename` gets
      it joined onto the logging directory; any other handler is untouched. */
  function RewriteHandler(h: Setting, dir: Setting, join: (Setting, Setting) -> Setting): Setting {
    if h.Dict? && "filename" in h.m then Dict(h.m["filename" := join(dir, h.m["filename"])]) else h
  }

  function RewriteHandlers(handlers: map<string, Setting>, dir: Setting, join: (Setting, Setting) -> Setting): map<string, Setting> {
    map k | k in handlers :: RewriteHandler(handlers[k], dir, join)
  }

  /** How `configure_logging` ends before handing the result to `dictConfig`. */
  datatype LoggingResult = Warned | Configured | Failed(error: Exc)

  /** `configure_logging` as a value: the settings it leaves and how it ends. */
  function LoggingConfigured(data: map<string, Setting>, join: (Setting, Setting) -> Setting)
    : (map<string, Setting>, LoggingResult)
  {
    if "logging" !in data then (data, Warned)
    else if !("logging_dir" in data && data["logging_dir"].Truthy()) then (data, Configured)
    else
      var logging := data["logging"];
      if !logging.Dict? then (data, Failed(AttributeError("handlers")))
      else if "handlers" !in logging.m then (data, Failed(KeyError("handlers")))
      else if !logging.m["handlers"].Dict? then (data, Failed(AttributeError("items")))
      else
        var handlers := logging.m["handlers"].m;
        var rewritten := RewriteHandlers(handlers, data["logging_dir"], join);
        (data["logging" := Dict(logging.m["handlers" := Dict(rewritten)])], Configured)
  }

  /** `configure_logging` leaves everything alone without a `logging` key or
      without a truthy `logging_dir`.  Otherwise a `logging` mapping without
      `handlers` raises `KeyError`; with handlers it keeps every handler,
      joins the directory onto each `filename`, and changes nothing outside
      `logging.handlers`. */
  lemma LoggingConfiguredRewritesFilenames(data: map<string, Setting>, join: (Setting, Setting) -> Setting, name: string)
    ensures "logging" !in data ==> LoggingConfigured(data, join) == (data, Warned)
    ensures "logging" in data && !("logging_dir" in data && data["logging_dir"].Truthy()) ==>
              LoggingConfigured(data, join) == (data, Configured)
    ensures "logging" in data && "logging_dir" in data && data["logging_dir"].Truthy() &&
            data["logging"].Dict? && "handlers" !in data["logging"].m ==>
              LoggingConfigured(data, join) == (data, Failed(KeyError("handlers")))
    ensures LoggingConfigured(data, join).1.Failed? ==> LoggingConfigured(data, join).0 == data
    ensures var (after, res) := LoggingConfigured(data, join);
      res == Configured && "logging" in data && "logging_dir" in data && data["logging_dir"].Truthy() ==>
        && after.Keys == data.Keys
        && (forall k :: k in data && k != "logging" ==> after[k] == data[k])
        && after["logging"].Dict? && after["logging"].m.Keys == data["logging"].m.Keys
        && (forall k :: k in data["logging"].m && k != "handlers" ==>
              after["logging"].m[k] == data["logging"].m[k])
        && var before := data["logging"].m["handlers"].m;
           var now := after["logging"].m["handlers"].m;
           && now.Keys == before.Keys
           && (name in before && before[name].Dict? && "filename" in before[name].m ==>
                 now[name] == Dict(before[name].m["filename" := join(data["logging_dir"], before[name].m["filename"])]))
           && (name in before && !(before[name].Dict? && "filename" in before[name].m) ==>
                 now[name] == before[name])
  {
  }

  /** `configure_logging` on the settings object: the handler loop rewrites
      one handler per step. */
  method ConfigureLogging(s: Settings, join: (Setting, Setting) -> Setting) returns (res: LoggingResult)
    modifies s
    ensures (s.data, res) == LoggingConfigured(old(s.data), join)
  {
    if !s.Contains("logging") {
      return Warned;
    }
    if !(s.Contains("logging_dir") && s.data["logging_dir"].Truthy()) {
      return Configured;
    }
    var dir := s.data["logging_dir"];
    var logging := s.data["logging"];
    if !logging.Dict? {
      return Failed(AttributeError("handlers"));
    }
    if "handlers" !in logging.m {
      return Failed(KeyError("handlers"));
    }
    if !logging.m["handlers"].Dict? {
      return Failed(AttributeError("items"));
    }
    var handlers := logging.m["handlers"].m;
    var current := handlers;
    var todo := handlers.Keys;
    while todo != {}
      invariant todo <= handlers.Keys && current.Keys == handlers.Keys
      invariant forall k :: k in handlers ==>
                  current[k] == if k in todo then handlers[k] else RewriteHandler(handlers[k], dir, join)
      decreases todo
    {
      var k :| k in todo;
      var h := current[k];
      if h.Dict? && "filename" in h.m {
        current := current[k := Dict(h.m["filename" := join(dir, h.m["filename"])])];
      }
      todo := todo - {k};
    }
    assert current == RewriteHandlers(handlers, dir, join);
    s.data := s.data["logging" := Dict(logging.m["handlers" := Dict(current)])];
    return Configured;
  }

  const SLAVE_POOL_SIZE: int := 50
  const SLAVE_MAX_OVERFLOW: int := 49

  /** The slave entry `configure_db` adds for a master `dsn`. */
  function DefaultSlave(dsn: Setting): Setting {
    Dict(map["dsn" := dsn, "pool_size" := Num(SLAVE_POOL_SIZE), "max_overflow" := Num(SLAVE_MAX_OVERFLOW)])
  }

  /** `t` occurs in `s` as a contiguous part (Python's `t in s` on strings). */
  predicate Substring(t: string, s: string)
    decreases |s|
  {
    |t| <= |s| && (s[..|t|] == t || Substring(t, s[1..]))
  }

  /** `'slaves' in value`: a key of a mapping, a part of a string or an
      element of a list; on any other value `in` raises `TypeError`. */
  function SlavesIn(value: Setting): (r: Result<bool>)
    ensures value.Dict? ==> r == Ok("slaves" in value.m)
    ensures r.Err? <==> !(value.Dict? || value.Str? || value.List?)
  {
    match value
    case Dict(m) => Ok("slaves" in m)
    case Str(s) => Ok(Substring("slaves", s))
    case List(items) => Ok(Setting.Str("slaves") in items)
    case _ => Err(TypeError)
  }

  /** `configure_db` as a value: the settings it leaves, or what it raises. */
  function DbConfigured(data: map<string, Setting>): Result<map<string, Setting>> {
    if "db" !in data then Err(SettingNotDefinedError(NotDefined("db")))
    else
      var db := data["db"];
      var present := SlavesIn(db);
      if present.Err? then Err(present.error)
      else if present.value then Ok(data)
      else if !db.Dict? then Err(AttributeError("master"))
      else if "master" !in db.m then Err(KeyError("master"))
      else if !db.m["master"].Dict? then Err(TypeError)
      else if "dsn" !in db.m["master"].m then Err(KeyError("dsn"))
      else
        Ok(data["db" := Dict(db.m["slaves" := List([DefaultSlave(db.m["master"].m["dsn"])])])])
  }

  /** `configure_db` keeps settings that already name slaves; otherwise it adds
      exactly one slave on the master's dsn with pool size 50 and overflow
      49, and changes nothing else.  Applying it again changes nothing. */
  lemma DbConfiguredAddsOneSlave(data: map<string, Setting>)
    ensures "db" in data && data["db"].Dict? && "slaves" in data["db"].m ==> DbConfigured(data) == Ok(data)
    ensures DbConfigured(data).Ok? && !data["db"].Dict? ==> DbConfigured(data) == Ok(data)
    ensures DbConfigured(data).Ok? && data["db"].Dict? ==>
              var after := DbConfigured(data).value;
              && after.Keys == data.Keys
              && (forall k :: k in data && k != "db" ==> after[k] == data[k])
              && after["db"].Dict? && "slaves" in after["db"].m
              && (forall k :: k in data["db"].m ==> k in after["db"].m)
              && (forall k :: k in data["db"].m && k != "slaves" ==> after["db"].m[k] == data["db"].m[k])
              && ("slaves" !in data["db"].m ==>
                    after["db"].m["slaves"] == List([DefaultSlave(data["db"].m["master"].m["dsn"])]))
              && DbConfigured(after) == Ok(after)
  {
  }

  /** The ways `configure_db` fails or returns early: no `db` setting; a
      string or list `db` that `'slaves' in` accepts returns unchanged, any
      other has no `master` attribute; a scalar `db` cannot be searched; a
      mapping without `master`, or a master without `dsn`, raises `KeyError`
      for that key. */
  lemma DbConfiguredErrors(data: map<string, Setting>)
    ensures "db" !in data ==> DbConfigured(data) == Err(SettingNotDefinedError(NotDefined("db")))
    ensures "db" in data && data["db"].Str? ==>
              DbConfigured(data) == if Substring("slaves", data["db"].s) then Ok(data) else Err(AttributeError("master"))
    ensures "db" in data && data["db"].List? ==>
              DbConfigured(data) == if Setting.Str("slaves") in data["db"].items then Ok(data) else Err(AttributeError("master"))
    ensures "db" in data && (data["db"].Num? || data["db"].Flag? || data["db"].Null?) ==>
              DbConfigured(data) == Err(TypeError)
    ensures "db" in data && data["db"].Dict? && "slaves" !in data["db"].m && "master" !in data["db"].m ==>
              DbConfigured(data) == Err(KeyError("master"))
    ensures "db" in data && data["db"].Dict? && "slaves" !in data["db"].m && "master" in data["db"].m &&
            data["db"].m["master"].Dict? && "dsn" !in data["db"].m["master"].m ==>
              DbConfigured(data) == Err(KeyError("dsn"))
  {
  }

  /** `configure_db` on the settings object. */
  method ConfigureDb(s: Settings) returns (raised: Option<Exc>)
    modifies s
    ensures DbConfigured(old(s.data)).Ok? ==> raised == None && s.data == DbConfigured(old(s.data)).value
    ensures DbConfigured(old(s.data)).Err? ==> raised == Some(DbConfigured(old(s.data)).error) && s.data == old(s.data)
  {
    var db := s.GetAttr("db");
    if db.Err? {
      return Some(db.error);
    }
    var present := SlavesIn(db.value);
    if present.Err? {
      return Some(present.error);
    }
    if present.value {
      return None;
    }
    if !db.value.Dict? {
      return Some(AttributeError("master"));
    }
    var m := db.value.m;
    if "master" !in m {
      return Some(KeyError("master"));
    }
    if !m["master"].Dict? {
      return Some(TypeError);
    }
    if "dsn" !in m["master"].m {
      return Some(KeyError("dsn"));
    }
    s.data := s.data["db" := Dict(m["slaves" := List([DefaultSlave(m["master"].m["dsn"])])])];
    return None;
  }

  /** A role of `settings.db` read the way `engines.py` reads it: a mapping
      whose `dsn` is a string and whose optional sizes are numbers. */
  function RoleOf(role: Setting): Option<Engines.RoleConfig> {
    if !(role.Dict? && "dsn" in role.m && role.m["dsn"].Str?) then None
    else if "pool_size" in role.m && !role.m["pool_size"].Num? then None
    else if "max_overflow" in role.m && !role.m["max_overflow"].Num? then None
    else Some(Engines.RoleConfig(role.m["dsn"].s,
                                 if "pool_size" in role.m then Some(role.m["pool_size"].n) else None,
                                 if "max_overflow" in role.m then Some(role.m["max_overflow"].n) else None))
  }

  /** The slave that `configure_db` adds is read by the engine registry as
      the master's database with pool size 50 and overflow 49. */
  lemma DefaultSlaveRole(master: Setting)
    requires RoleOf(master).Some?
    ensures var slave := RoleOf(DefaultSlave(master.m["dsn"]));
      && slave == Some(Engines.RoleConfig(RoleOf(master).value.dsn, Some(50), Some(49)))
      && Engines.SlaveEngineConfig(slave.value)
           == Engines.EngineConfig(RoleOf(master).value.dsn, 50, 49, Engines.Autocommit)
  {
  }
}
