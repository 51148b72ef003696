# Database session and connection lifecycle — Dafny model

This project models the synchronous database session and connection lifecycle
layer of a small aiohttp / SQLAlchemy web service, plus a few small decision
rules elsewhere in it. It proves properties of that model.

- **Session manager** (`Manager`). `SessionManager.master_session` is a
  reference-counted nested transaction. A counter field counts open scopes.
  One master session is created lazily and reused. Entering a scope is
  `EnterMaster` and leaving it is `ExitMaster(autoflush, outcome, driver)`.
  Each call the scope makes on the session (commit, flush, rollback, close)
  goes into a ghost trace. What the ORM calls raise is an input (`Driver`).
  The pure function `ExitStep` states what one exit does. `Unwind` strings
  exits together for nested scopes. The async pool singleton is a class
  whose methods set and clear the cached pool. The one-shot
  `ConnectionManager` is a class whose `__aenter__` sets the connection.
- **Sessions** (`Sessions`). This covers the master session's after-commit
  hook queue (`on_commit`, `_after_commit_hook`), the slave session's refusal
  to flush pending writes, and the master/slave factory.
- **Engines** (`Engines`). This covers per-role engine configuration with
  its defaults, building and disposing the registry, and the fork guard. The
  connect listener stamps the pid on the record. The checkout listener
  refuses a record stamped by another process.
- **Settings** (`Config`). This covers layering and `override`
  (snapshot/restore), attribute lookup and `in`, `configure_logging` and
  `configure_db`.
- **Small rules.** `Models` covers `from_dict`, `get_or_raise`, `truncate`,
  `is_relation_loaded` and the NOT NULL columns. `Middlewares` covers the
  authorization whitelist and the error-code mapping. `AdminDecorators`
  covers `register_view`. `LogFilters` covers the level and debug filters.
  `Helpers` covers `Constants.ALL`. Two of these are plain definitions
  with nothing further to prove: `Models.IsRelationLoaded`
  (`api/src/db/models.py:55-57`) holds when the relation is not among the
  unloaded ones, and `LogFilters.LevelFilter.Filter`
  (`api/src/commons/logging.py:33-35`) passes a record when its level lies
  between the bounds, inclusive.

Outside inputs are parameters of the model:

- whether each driver call raises;
- the current pid;
- whether the local settings file exists;
- what the token lookup yields;
- how paths are joined.

A failing rollback does not replace the original exception. In
`server/src/db/manager.py:111-118` the `raise e` in the inner `finally`
supersedes whatever the rollback raised, so the caught exception wins unless
closing the session raises afterwards (`Manager.ExitStep`,
`Manager.RollbackFailureMasked`).

Several things follow from the code as written and are kept in the model:

- Hooks queued in a transaction that rolls back are neither run nor
  discarded. They run at the next successful commit.
- A failing `create_pool` leaves no pool cached.
- A failing pool `close()` leaves the pool cached.

## Model

| member | source | states |
|---|---|---|
| `Manager.ExitStep` | server/src/db/manager.py:100-122 | leaving a scope lowers the counter by one. It commits iff it is the outermost scope and ended normally. It flushes iff it is inner, ended normally and autoflush is set. It rolls back iff it is outermost and an `Exception` (from the body or from commit) was caught. It closes iff the counter reaches 0. The caught exception propagates unless close raises |
| `Manager.RollbackFailureMasked` | server/src/db/manager.py:111-118 | whatever rollback raises, leaving a scope gives the same result, so rollback's own exception never reaches the caller |
| `Manager.ScopeRestoresCounter` | server/src/db/manager.py:103-120 | after a scope ends, normally or not, the counter is back at its value before entry |
| `Manager.NestedScopesCommitOnce` | server/src/db/manager.py:100-122 | for any depth of nested scopes ending normally, the trace is one flush per inner scope (when autoflush is set), then exactly one commit and one close at the outermost exit, and nothing leaves the outermost scope |
| `Manager.NestedScopesRollbackOnce` | server/src/db/manager.py:111-122 | an exception raised in the innermost scope passes every scope unchanged: the same exception leaves the outermost scope (`UnwindRaised`). The trace is exactly one rollback and one close, with no commit or flush |
| `Manager.PoolBoundsSpread` | server/src/db/manager.py:143-153 | the pool's min/max are size∓overflow, so size and overflow can be recovered from them. With no configured values the bounds are 1 and 9 |
| `Manager.SessionManager.constructor` | server/src/db/manager.py:84-88 | a new manager has counter 0, no master session, no async pool and an empty trace |
| `Manager.SessionManager.HasOpenMaster` | server/src/db/manager.py:131-134 | holds iff the nesting state machine is not `Closed`, i.e. the counter is positive |
| `Manager.SessionManager.MasterSessionInstance` | server/src/db/manager.py:90-98 | the master session is created once, bound to the master engine with an empty hook queue. Later accesses return the same object |
| `Manager.SessionManager.EnterMaster` | server/src/db/manager.py:100-105 | entering raises the counter by one, moving the state machine to `Open(n+1)`, and yields the lazily created master session |
| `Manager.SessionManager.ExitMaster` | server/src/db/manager.py:104-122 | the new counter, the calls appended to the trace and the propagated exception are those of `ExitStep`. A commit that returns runs every queued hook in order and empties the queue. Otherwise the queue and the hook calls are unchanged |
| `Manager.SessionManager.CurrentSession` | server/src/db/manager.py:124-129 | both branches return the same unentered `master_session()` scope with default autoflush |
| `Manager.SessionManager.CloseAll` | server/src/db/manager.py:136-139 | closes the master session iff one was ever created, and reports close's failure |
| `Manager.SessionManager.AsyncMaster` | server/src/db/manager.py:141-153 | returns the cached pool if there is one. Otherwise it creates a fresh pool with the master dsn and bounds `PoolBounds` and caches it. A failing creation caches nothing |
| `Manager.SessionManager.AsyncCloseMaster` | server/src/db/manager.py:155-159 | with no pool it does nothing. Otherwise it closes the pool and clears the singleton, so the next `AsyncMaster` creates a new pool. If close raises, the pool stays cached and is not marked closed |
| `Manager.SessionManager.AsyncCloseAll` | server/src/db/manager.py:161-163 | behaves exactly as `AsyncCloseMaster` |
| `Manager.ConnectionManager.constructor` | server/src/db/manager.py:34-45 | keeps dsn and statement cache size and stores no connection |
| `Manager.ConnectionManager.Acquire` | server/src/db/manager.py:47-49 | returns the manager itself |
| `Manager.ConnectionManager.Enter` | server/src/db/manager.py:51-59 | opens one fresh connection with the manager's dsn and cache size and stores it. A failing connect stores nothing |
| `Manager.ConnectionManager.Exit` | server/src/db/manager.py:61-63 | closes the connection that enter stored, exactly once. The body's exception propagates unless close raises. With nothing stored, the `close` lookup on `None` fails |
| `Manager.ConnectionManager.Close` | server/src/db/manager.py:69-72 | closes the stored connection only if there is one |
| `Sessions.Registered` | server/src/db/sessions.py:24-29 | a non-callable hook raises `ServerError` and leaves the queue unchanged. A callable one appends exactly one record at the end |
| `Sessions.RegisterAllIsFifo` | server/src/db/sessions.py:24-29 | after any series of registrations, the queue is the old queue followed by exactly the callable registrations, in order |
| `Sessions.MasterSession.constructor` | server/src/db/sessions.py:16-22 | a new master session is bound to its engine, with an empty hook queue and no hook calls |
| `Sessions.MasterSession.OnCommit` | server/src/db/sessions.py:24-29 | the queue and the raised error are those of `Registered` |
| `Sessions.MasterSession.AfterCommitHook` | server/src/db/sessions.py:31-36 | every queued record is called in queue order, then the queue is empty, so a second trigger calls nothing |
| `Sessions.SlaveSession.Flush` | server/src/db/sessions.py:42-45 | raises `ServerError` iff the session is not clean. It changes nothing, so it never flushes |
| `Sessions.EnginesOrDefault` | server/src/db/sessions.py:53 | a missing registry falls back to the module's `ENGINES` |
| `Sessions.NewSession` | server/src/db/sessions.py:51-60 | `master` gives a fresh master session bound to the master engine. Otherwise it gives a fresh clean slave session bound to some slave engine, or `IndexError` when there are no slaves |
| `Engines.SlaveConfigs` | server/src/db/engines.py:67 | the slave configs are the `slaves` list, or only the master config when the key is absent |
| `Engines.RoleDefaults` | server/src/db/engines.py:50-67 | each role uses pool size 5 and overflow 4 when unset and the given values otherwise, with its own dsn |
| `Engines.OnlySlavesAutocommit` | server/src/db/engines.py:58-67 | slave engines use AUTOCOMMIT and the master does not |
| `Engines.SlavesFallBackToMaster` | server/src/db/engines.py:58-67 | without `slaves` there is one slave engine, configured like the master except for AUTOCOMMIT |
| `Engines.AddEnginePidguard` | server/src/db/engines.py:12-36 | installs the guard and returns the same engine it was given |
| `Engines.CreateEngines` | server/src/db/engines.py:50-69 | builds a fresh guarded master engine and one fresh guarded slave engine per slave config, in order, all distinct |
| `Engines.DisposeEngines` | server/src/db/engines.py:39-47 | the master and then the slaves are disposed once each, in order, up to the first `dispose()` that raises. That exception propagates and the engines after it are not disposed. With no failure every engine is disposed and nothing is raised |
| `Engines.FirstFailureIs` | server/src/db/engines.py:45-47 | the engine whose exception `dispose_engines` raises is the first one, in visiting order, whose `dispose()` raises: every engine before it disposes without error |
| `Engines.CheckoutGuard` | server/src/db/engines.py:27-34 | a checkout passes iff the record carries the caller's pid. A foreign pid gives `DisconnectionError(owner, pid)` and a missing stamp gives `KeyError` |
| `Engines.StampedConnectionGuard` | server/src/db/engines.py:19-34 | a record stamped by pid p can be checked out only from p |
| `Engines.OnConnect` | server/src/db/engines.py:19-22 | the record's `pid` is the current pid afterwards, and nothing else changes |
| `Engines.OnCheckout` | server/src/db/engines.py:24-34 | in the owning pid nothing changes or is raised. In another pid both the record's and the proxy's connection are nulled and `DisconnectionError` is returned |
| `Config.Update` | server/src/config.py:52 | the keys after an update are the old keys plus the option keys |
| `Config.UpdateOverridesAndKeeps` | server/src/config.py:52 | keys the options do not name keep their value. A non-mapping option value (or one with no mapping under it) replaces the old value |
| `Config.MergeSelf` | server/src/config.py:52 | merging a value into itself changes nothing |
| `Config.MergeIdempotent` | server/src/config.py:93-95 | applying the same layer twice equals applying it once |
| `Config.Settings.constructor` | server/src/config.py:91-95 | the settings are the defaults, with the local file layered over them when it exists |
| `Config.Settings.GetAttr` | server/src/config.py:59-71 | a present key yields its value. A missing key raises `SettingNotDefinedError("Setting <key> is not defined")` |
| `Config.Settings.Contains` | server/src/config.py:73-82 | `key in settings` holds iff reading the key as an attribute does not raise, and then the read gives the stored value |
| `Config.Settings.OverrideEnter` | server/src/config.py:40-53 | keeps a snapshot of the settings before the change and merges the options into the live settings |
| `Config.Settings.OverrideExit` | server/src/config.py:54-57 | restores the snapshot on normal and exceptional exit alike, and lets the exception through |
| `Config.OverrideScenario` | server/src/config.py:40-57 | the `override` round trip: inside the block an option that is not a mapping reads as its new value and other keys read as before; after the block, on normal and exceptional exit alike, the settings are those from before and the block's exception propagates |
| `Config.LoggingConfiguredRewritesFilenames` | server/src/config.py:107-118 | without `logging` it warns and changes nothing. Without a truthy `logging_dir` it changes nothing. A `logging` mapping without `handlers` raises `KeyError('handlers')`, and any failure leaves the settings unchanged. Otherwise every handler is kept, each `filename` is joined onto the directory, handlers without a filename are untouched, the other keys of `logging` and of the settings keep their values, and no key is added or removed |
| `Config.ConfigureLogging` | server/src/config.py:107-121 | the handler loop leaves the settings and the outcome that `LoggingConfigured` describes |
| `Config.DbConfiguredAddsOneSlave` | server/src/config.py:128-140 | with `slaves` present nothing changes. Otherwise exactly one slave {master dsn, 50, 49} is added and nothing else changes. Applying it again changes nothing |
| `Config.DbConfiguredErrors` | server/src/config.py:128-140 | a missing `db` raises `SettingNotDefinedError`. A string or list `db` for which `'slaves' in db` holds returns unchanged, and any other string or list raises `AttributeError` for `master`. A scalar `db` raises `TypeError`. A mapping without `slaves` and `master` raises `KeyError('master')`, and a master mapping without `dsn` raises `KeyError('dsn')` |
| `Config.ConfigureDb` | server/src/config.py:128-140 | the method leaves the settings or the error that `DbConfigured` gives |
| `Config.DefaultSlaveRole` | server/src/config.py:133-140 | the added slave is read by the engine registry as the master's dsn with pool size 50, overflow 49 and AUTOCOMMIT |
| `Models.Model.FromDict` | api/src/db/models.py:44-48 | the attributes after the loop are `Merged(old attributes, columns, values)` |
| `Models.MergedSetsExactlyColumns` | api/src/db/models.py:44-48 | exactly the columns that are keys of `values` take those values. Other attributes are unchanged, and keys that are not columns are ignored |
| `Models.GetOrRaise` | api/src/db/models.py:63-73 | returns the instance iff the lookup found one. Otherwise it raises the given exception, or `NotFoundError` whose message is "`<Class> #<id> not found.`" iff `with_message`, and None otherwise |
| `Models.TruncateSql` | api/src/db/models.py:82-85 | the statement starts with `TRUNCATE TABLE ` |
| `Models.TruncateSqlShape` | api/src/db/models.py:85 | the statement is `TRUNCATE TABLE <schema>.<table>`, with `public` when the schema is unset or empty |
| `Models.UserNotNull` | api/src/db/models.py:97-104 | a user row is accepted iff `login` and `password` are non-null |
| `Models.ArticleNotNull` | api/src/db/models.py:118-126 | an article row is accepted iff title, content, category_id and user_id are non-null |
| `Middlewares.AuthorizationRequired` | server/src/api/middlewares.py:44-48 | authorization is not required iff the path ends with some whitelisted route |
| `Middlewares.WhitelistIsSuffixMatch` | server/src/api/middlewares.py:44-48 | the match is a suffix match. `/api/v1/login`, `/api/v1/login/` and `/api/v1/articles/relogin` are open, and `/api/v1/login/history` is not |
| `Middlewares.AuthDecision` | server/src/api/middlewares.py:50-64 | if authorization is not required the handler is called. If it is required: no cookies, no `token` cookie, a lookup failing with an `Exception` or no user each give 401, and a found user is set on the app before the handler is called. A lookup failure that is not an `Exception` escapes the middleware, and nothing else does |
| `Middlewares.HandlerReachedOnlyWhenAllowed` | server/src/api/middlewares.py:50-64 | the handler runs without a user only on whitelisted paths, and with a user only when the token lookup found that user |
| `Middlewares.AuthMiddleware` | server/src/api/middlewares.py:37-66 | the middleware's result (401, the handler with or without a user, or an escaping non-`Exception` lookup failure) is the decision for the whitelist verdict of the request path |
| `Middlewares.HttpErrorCode` | server/src/api/middlewares.py:28 | reading back the status digits followed by `2` gives status×10+2 |
| `Middlewares.ErrorMiddleware` | server/src/api/middlewares.py:18-34 | a response passes and an `ApiException` is re-raised unchanged. An HTTP exception becomes an API error with code status×10+2 and the same status and reason. Any other `Exception` becomes `UNKNOWN_SERVER_ERROR` (5002, HTTP 500). A non-`Exception` propagates |
| `Middlewares.HttpErrorCodesDistinct` | server/src/api/middlewares.py:26-34 | distinct statuses give distinct codes. An HTTP error collides with 5002 only for status 500. 404 gives 4042 |
| `AdminDecorators.RegisteredFirstWins` | server/src/admin/decorators.py:6-11 | a free name gets the class and a taken name keeps its first class. No other key changes and the group grows by at most one |
| `AdminDecorators.RegisteredIdempotent` | server/src/admin/decorators.py:6-11 | registering the same class twice equals registering it once. A second class of the same name changes nothing |
| `AdminDecorators.Group.Wrapper` | server/src/admin/decorators.py:4-13 | inserts the class under its name only if the name is absent, and returns the class itself |
| `LogFilters.LevelFilter.constructor` | api/src/commons/logging.py:27-31 | keeps the low and high bounds |
| `LogFilters.EmptyRangeBlocksAll` | api/src/commons/logging.py:35 | if low > high, no record passes |
| `LogFilters.RangeInclusive` | api/src/commons/logging.py:35 | both bounds pass and the levels just outside them do not |
| `LogFilters.RequireDebugTrue` | api/src/commons/logging.py:15-21 | passes iff `debug` is truthy. A missing `debug` setting raises `SettingNotDefinedError` |
| `LogFilters.RequireDebugFalse` | api/src/commons/logging.py:6-12 | passes iff `debug` is falsy. A missing setting raises |
| `LogFilters.DebugFiltersComplementary` | api/src/commons/logging.py:6-21 | with `debug` set exactly one of the two filters passes. Without it both raise the same error |
| `Helpers.AllMembership` | server/src/commons/helpers.py:80 | a value is in `ALL` iff some attribute holding it has a name not starting with `_` and is not callable |
| `Helpers.AllKeepsOrder` | server/src/commons/helpers.py:80 | `ALL` follows the class dictionary's order |
| `Helpers.StatusAll` | server/src/api/constants.py:40-44 | `Status.ALL` is `['ok', 'error']` |

## Left out

- Database driver and ORM calls are not executed. This covers `asyncpg.connect`, `create_pool`, pool and connection `close`, engine `dispose`, and session `commit` / `flush` / `rollback` / `close`. Whether each one raises is a parameter. What `dispose` does to an engine's pool is not modelled; `DisposeEngines` records which dispose calls returned. Queries are not modelled.
- Async scheduling and cancellation are left out. Each coroutine is modelled as one sequential step.
- SQLAlchemy's event framework is left out. Each master session registers its `after_commit` listener on the class, so a commit of any master session runs every session's queue. The model runs only the committing session's own queue.
- A hook that raises, or one that calls `on_commit` while the queue is being run, is outside the model. Python would run the appended record in the same pass. Hooks in the model are opaque calls that return.
- `random.choice` is a nondeterministic pick and `os.getpid` is a parameter.
- YAML loading, alembic, `logging.dictConfig`, structlog and path joining are left out. Path joining is a function parameter.
- The settings dictionary's `update_dict` is modelled as a recursive merge: a mapping is merged into a mapping, and any other value replaces what was there. Its `__getattr__` is taken to raise `KeyError` for a missing key, as the code expects.
- Settings values are the YAML values (strings, numbers, booleans, null, lists, mappings). A non-mapping `logging` raises `AttributeError('handlers')`, and non-mapping handlers raise `AttributeError('items')`. The exception's message text is not modelled. Handler entries that are not mappings count as having no `filename`. In the code a string handler containing `filename` would fail on `handler.filename`.
- `Config.Settings.OverrideEnter`: the settings are modelled as a value. The code updates the live dictionary in place and afterwards rebinds the settings to a deep copy of the old ones. So a nested node read before or inside the block (for example `db = settings.db`) still holds the overridden values after the block and is no longer part of the settings. The model does not capture this aliasing.
- `Sessions.NewSession`: it states that the slave engine is some member of the list, without saying that the choice is uniform. Only `None` stands for a falsy `engines` argument. An empty dictionary is falsy as well.
- `Manager.SessionManager.AsyncMaster`: asyncpg's own rejection of negative or inverted bounds is part of the creation failure parameter, not derived from the bounds.
- The JSON body of API errors is left out: `Error.get_exception`, the copied exception parameters and reason formatting.
- `ModelBase.session`, `delete` and `exists` are thin wrappers over ORM queries and are left out.
- `DEFAULT_DIALECT` and `SET_APPLICATION_NAME` are driver configuration only and are left out.
- These are outside the layer modelled here: the HTTP handlers, app and server wiring, the Flask admin app and views, `get_password` (SHA-512), the JWT token helpers, `get_event_loop` (uvloop), the load generators and the test suite.
