# cybero core, modelled in Dafny

cybero is a REST daemon written in Go. It dispatches HTTP requests to plugin
modules (`.so` files loaded with Go's `plugin` package). It also contains a
node manager and a runtime plugin that drive containerd to create
containers ("nodes" or "runtimes") and run processes inside them. This
project models the core of that system:

- the module registry (`core/modulesmanager.go`): it walks the plugin
  directory, classifies each plugin as an API handler or an auth provider,
  registers it only when the configuration enables it and its Initialize
  succeeds, and serves lookups;
- the request dispatchers:
  - `core/apimanager.go` and its older generation `core/api.go`, with its
    module cache;
  - `core/authmanager.go` and its older generation `core/auth.go`, with its
    provider loading;
  - the service-module dispatchers `core/modules.go` and `modules/modules.go`;
- the server endpoint table and socket-scheme choice (`core/server.go`);
- the node lifecycle: `modules/nodemanager/nodemanager.go` and its duplicate
  `modules/api/runtime/runtime.go`, over an abstract containerd backend.

Layout:

- `common.dfy` (module `Common`) holds Go's `strings.Split`,
  `strings.ReplaceAll`, `filepath.Ext` and `path.Join` as far as the core
  uses them. It also holds the `{Status, Response}` envelope and the outcome
  of an HTTP handler: wrote an envelope, returned nil silently, delegated to
  a plugin, returned an error, or panicked.
- `plugins.dfy` (module `Plugins`) treats the plugin loader as an oracle:
  - a `Loader` maps a file path to the symbols a plugin exports, or to
    nothing when opening fails;
  - a symbol is plain text or a module object;
  - a module object lists the interfaces it implements, what its accessors
    return, and whether its Initialize/Init succeeds.
- `containerd.dfy` (module `Containerd`) is the backend. Its state holds:
  - the images, in listing order;
  - the containers by name, each with its image and snapshot;
  - at most one task per container, holding processes by exec id.

  The client class's methods have these rules:
  - each call can fail nondeterministically (the daemon or the registry is
    unavailable);
  - each also fails deterministically when its target is missing or already
    in use;
  - a failed call changes nothing;
  - every call is appended to a ghost call log.

  With that log, contracts can state the order of backend calls and the
  step at which an operation gave up.
- `registry.dfy`, `apimanager.dfy`, `authmanager.dfy`, `server.dfy`,
  `coreapi.dfy`, `coreauth.dfy`, `coremodules.dfy`, `restmodules.dfy`,
  `nodemanager.dfy` and `runtime.dfy` each model one Go file of the core.

Modelling choices that apply throughout:

- **Singletons:** objects guarded by `sync.Once` are Dafny classes. A
  "package" object holds the single instance.
- **Panics:** a Go runtime panic is an explicit `Panicked` (or
  `NilClientPanic`) result, not a precondition. This covers a slice out of
  range, a failed type assertion and a call through a nil pointer.
- **Map iteration:** Go's unspecified map iteration order is a
  nondeterministic choice. Listings are specified up to that order.

## Model

| member | source | states |
|---|---|---|
| Common.Split | core/apimanager.go:131 | `strings.Split` on one separator: never empty, and no piece contains the separator |
| Common.JoinSplit | core/apimanager.go:131 | Joining the pieces of a split with the separator gives back the original path |
| Common.SplitLength | modules/modules.go:74-76 | A split has one piece more than the string has separators |
| Common.FirstSegmentIsPrefix | core/server.go:152-156 | The dispatch key is the longest separator-free prefix of the path |
| Common.FirstSegmentOf | core/apimanager.go:131-139 | A slash-free word followed by a slash and anything else is the first segment |
| Common.RemoveAll | core/server.go:101 | `strings.ReplaceAll(s, pat, "")` never lengthens the string |
| Common.RemoveAllAbsent | core/server.go:101 | Removing a pattern that does not occur changes nothing |
| Common.RemoveAllOfPrefixed | core/server.go:101 | Removing the scheme from "scheme + rest" gives rest when rest does not contain the scheme |
| Common.Ext | core/modulesmanager.go:43 | `filepath.Ext` is empty or starts with a dot, is a suffix of the name, and holds no slash |
| Common.ExtIsNeverBareSo | core/modules.go:97 | `filepath.Ext` never equals "so", so the listing filter skips every file |
| Common.ExtOfDottedWord | core/modulesmanager.go:43 | A name ending in "." + word has extension "." + word |
| Common.StemRemovesEveryOccurrence | core/modulesmanager.go:43 | The registry key removes every occurrence of the extension: any dot-free `w` followed twice by the same extension (such as "a.so.so") has key `w` |
| Common.JoinPath | core/modulesmanager.go:46 | `path.Join(dir, file)` ends with the file name |
| Common.QueryGet | core/apimanager.go:69 | A query parameter reads as its value, or "" when absent |
| Registry.Classify | core/modulesmanager.go:31-113 | An entry is registered only if it is a readable file, its stem is configured and enabled, and Initialize succeeds. API handlers are keyed by Endpoint() and auth providers by the file stem |
| Registry.HandlerNeverTriedAsAuth | core/modulesmanager.go:56-81 | A plugin exporting the handler symbol is never registered as an auth provider, even when the handler branch skips it |
| Registry.EnabledPluginIsRegistered | core/modulesmanager.go:56-101 | A valid, enabled plugin whose Initialize succeeds is registered: a handler under its endpoint, a provider under its stem |
| Registry.Apply | core/modulesmanager.go:71-100 | A registration inserts into exactly one table, and a later registration under the same key overwrites; a skip changes nothing |
| Registry.ScanKeepsValid | core/modulesmanager.go:31-113 | The walk keeps the registry invariant: handlers are under their own endpoint, and every entry has the right interface |
| Registry.AuthKeysAreEnabled | core/modulesmanager.go:85-101 | Default deny: a new auth-provider key is always an enabled configuration entry |
| Registry.ApiEntriesComeFromEnabledFiles | core/modulesmanager.go:56-73 | Every new API entry comes from a visited file whose stem is enabled and whose decision registered that module under that key |
| Registry.ScanRegistersLast | core/modulesmanager.go:71-100 | A registration decided for the last file visited is in the tables after the walk |
| Registry.ModulesManager.constructor | core/modulesmanager.go:152-158 | The manager starts with two empty tables |
| Registry.ModulesManager.VisitFile | core/modulesmanager.go:31-113 | One callback applies its decision to the tables and always returns nil |
| Registry.ModulesManager.LoadModules | core/modulesmanager.go:26-114 | The tables after the walk are the fold of the callback over every entry; no entry stops the walk |
| Registry.ModulesManager.GetAPIModule | core/modulesmanager.go:136-141 | The lookup finds a module exactly when the key is registered, and returns that module |
| Registry.ModulesManager.GetAuthModule | core/modulesmanager.go:127-133 | The lookup finds a provider exactly when the key is registered, and returns that provider |
| Registry.ModulesManager.GetAPIModules | core/modulesmanager.go:122-124 | The returned table has exactly the keys and values GetAPIModule finds |
| Registry.ModulesManager.GetAuthModules | core/modulesmanager.go:117-119 | The returned table has exactly the keys and values GetAuthModule finds |
| Registry.ModulesPackage.GetModuleManager | core/modulesmanager.go:144-166 | The first call builds the manager with two empty tables; later calls return that same instance |
| ApiManager.InfoReply | core/apimanager.go:65-84 | An empty module gives Status 0 with the builtin text; a registered module gives 0 with its Info(); anything else gives -1 with an error |
| ApiManager.HelpReply | core/apimanager.go:86-114 | An empty module succeeds exactly for "list" and "info"; a registered module gives 0 with Help(action) for any action; anything else gives -1 |
| ApiManager.NoHelpForHelp | core/apimanager.go:94-102 | The builtin "help" action has no help of its own |
| ApiManager.APIManager.constructor | core/apimanager.go:164-168 | The builtin table holds exactly list, info and help |
| ApiManager.APIManager.Route | core/apimanager.go:117-150 | A path shorter than "/api/" goes nowhere. Otherwise the first segment after "/api/" is the key, a builtin wins over a module, a registered module is next, and the rest is invalid |
| ApiManager.APIManager.List | core/apimanager.go:39-63 | Status 0, the builtin entry first, then exactly one {name, version, endpoint} entry per registered handler |
| ApiManager.APIManager.HandleRequest | core/apimanager.go:117-151 | "No module called" for a short path, the builtin reply, delegation to the module, or "Invalid operation", as Route decides |
| ApiManager.BuiltinShadowsModule | core/apimanager.go:139-148 | "/api/list", "/api/info" and "/api/help" reach the builtin even when a module has that key |
| ApiManager.UnknownKeyIsInvalid | core/apimanager.go:145-150 | A key that is neither builtin nor registered is never a success |
| ApiManager.ApiPackage.GetAPIManager | core/apimanager.go:154-176 | The first call builds the manager with the list/info/help table; later calls return that same instance |
| AuthManager.AuthManager.constructor | core/authmanager.go:73-76 | The action table holds exactly signin and refresh |
| AuthManager.AuthManager.HandleRequest | core/authmanager.go:46-60 | A path shorter than "/auth/" panics. Otherwise the first segment succeeds silently exactly when it is in the table, and fails with "Invalid operation" when it is not |
| AuthManager.AuthRoutes | core/authmanager.go:51-59 | With the default table, "signin" and "refresh" succeed and every other slash-free word fails |
| AuthManager.AuthPackage.GetAuthManager | core/authmanager.go:63-81 | The first call builds the manager with the signin/refresh table; later calls return that same instance |
| Server.Dispatch | core/server.go:148-172 | An empty path panics. Otherwise the first segment picks the handler; a nil return is handled with nothing more written; an unknown endpoint or a handler error gets {Status: -1, Error} |
| Server.DispatchReachesRegistered | core/server.go:152-160 | "/url" and "/url/rest" reach the handler registered for url |
| Server.SelectListener | core/server.go:96-126 | "unix://" selects a Unix socket and "tcp://" selects TCP (TLS iff configured), each with every occurrence of the scheme removed; anything else is invalid |
| Server.SchemeIsStripped | core/server.go:98-109 | "unix://file" listens on file and "tcp://addr" on addr |
| Server.RestAPIServer.APIHandler | core/server.go:141-146 | The table is created on first use; url maps to the new handler, and an earlier registration is overwritten |
| Server.RestAPIServer.ServeHTTP | core/server.go:148-172 | Dispatches over the current table (a nil table acts as an empty one); a handled request used a registered handler |
| Server.RestAPIServer.Initialize | core/server.go:96-138 | An invalid socket or a failed listener leaves the table unchanged. Otherwise "auth" and "api" are registered over the existing table, and nothing else changes |
| Plugins.ListingCovers | core/apimanager.go:41-52 | A listing shows every registered module's entry, and every entry after the builtin one belongs to a registered module |
| Plugins.PluginPath | core/api.go:48 | The plugin file for a name is `path.Join(dir, name + ".so")`: it ends in name + ".so", and is exactly that without a directory |
| CoreApi.LoadPlugin | core/api.go:48-86 | Open, then Name, Version and CyberoModule, then the type assertion, then Init, in order. A wrong type yields (nil, nil); a ready module implements RestModule and its Init succeeded |
| CoreApi.Fetch | core/api.go:41-98 | A hit never reopens and re-runs Init when the module reports it is uninitialized; a miss never returns a module: an open, symbol or Init failure returns that error, a wrong-typed module symbol returns (nil, nil), and both leave the cache unchanged; a ready module is cached and then the call panics |
| CoreApi.HitIgnoresLoader | core/api.go:44-46 | On a cache hit the plugin directory is not consulted |
| CoreApi.SecondCallReturnsModule | core/api.go:76-95 | Because of the shadowed variable, the first successful load caches the module and then panics; the next call returns it |
| CoreApi.InfoStep | core/api.go:124-143 | Builtin text for an empty module, Info() of a module getModule returns, otherwise -1 |
| CoreApi.HelpStep | core/api.go:146-174 | Builtin help only for list/info, Help(action) of a loaded module, otherwise -1 |
| CoreApi.WalkOnlyAddsInitialized | core/api.go:190-210 | The walk only adds to the cache, and only RestModules whose Init succeeded |
| CoreApi.LoadablePluginCrashesWalk | core/api.go:204-207 | A loadable plugin file not yet cached aborts InitializeAPI when every file before it was a cache hit or a plugin of the wrong type, because its first load panics |
| CoreApi.Route | core/api.go:220-241 | A short path panics; the first segment after "/api/" selects a builtin when the table has it, otherwise a module |
| CoreApi.BuiltinShadowsModule | core/api.go:212-216 | With the builtin table, list/info/help never reach a module |
| CoreApi.ApiState.constructor | core/api.go:32-38 | The package starts with the default path and empty tables |
| CoreApi.ApiState.GetModule | core/api.go:41-98 | The result and the new cache are those of Fetch |
| CoreApi.ApiState.List | core/api.go:101-121 | Status 0, the builtin entry, then exactly one name/version entry per cached module (one per key, even when two keys hold the same plugin); a non-RestModule in the cache panics |
| CoreApi.ApiState.InfoAction | core/api.go:124-143 | Reply and cache as InfoStep states |
| CoreApi.ApiState.HelpAction | core/api.go:146-174 | Reply and cache as HelpStep states |
| CoreApi.ApiState.InitializeAPI | core/api.go:177-217 | The cache is seeded with the orchestrator, then the walk runs; the builtin table is installed unless the walk panicked |
| CoreApi.ApiState.HandleRequest | core/api.go:220-242 | A builtin first, then a module getModule returns, else "Invalid operation" |
| CoreAuth.ProviderFile | core/auth.go:55 | The provider file is Path joined with Provider + ".so" |
| CoreAuth.LoadProvider | core/auth.go:56-80 | Open, look up CyberoAuthProvider, assert, Initialize, in that order, each failure named |
| CoreAuth.Auth.constructor | core/auth.go:34-38 | The zero `Auth{}` has no actions and no provider |
| CoreAuth.Auth.Initialize | core/auth.go:49-90 | Open, lookup or Initialize errors are returned with no action installed. A wrong-typed symbol reports success, installs nothing and clears the provider. Full success installs exactly signin and refresh |
| CoreAuth.Auth.HandleRequest | core/auth.go:93-105 | A short path panics; an installed action returns nil; anything else is "Invalid operation" |
| CoreAuth.UninitializedRejects | core/auth.go:99-104 | Without a successful Initialize, every request is invalid |
| CoreModules.LoadModule | core/modules.go:25-61 | A module is returned exactly when the plugin opens, exports Name, Version and a Module implementing ServiceModule |
| CoreModules.ModuleInfo | core/modules.go:111-122 | "builtin" gives 0 with "Built-in module"; a loadable module gives 0 with Info(); otherwise -1 |
| CoreModules.ModuleHelp | core/modules.go:124-152 | Without "action" the generic help, whatever the module. A non-string action panics. Builtin list/info get 0 and other builtin actions -1. A loadable module gets Help(action), otherwise -1 |
| CoreModules.ListModules | core/modules.go:84-109 | Always Status 0 with only the builtin entry, because the "so" filter never matches |
| CoreModules.ModuleHandle | core/modules.go:65-82 | Builtin runs list/info/help and gives -1 for any other action; another module delegates if it loads, otherwise -1 |
| RestModules.LoadModule | modules/modules.go:32-69 | A module is returned exactly when the plugin opens, exports Name, Version and a Module implementing RestModule |
| RestModules.Segments | modules/modules.go:74 | The segments after the leading '/', one more than its slashes; an empty path panics |
| RestModules.Dispatch | modules/modules.go:72-107 | Fewer than 3 segments is invalid. The third segment is the key. A GET of list, info or help goes to that builtin action, and a GET of anything else loads it; a POST does nothing; any other verb loads the key |
| RestModules.ThreeSegmentsNeedTwoSlashes | modules/modules.go:74-78 | A request is too short exactly when the path after the leading slash has fewer than two slashes |
| RestModules.PostNeverDispatches | modules/modules.go:98-106 | A POST reaches neither a module nor a builtin |
| RestModules.PathAccepted | modules/modules.go:149-153 | The path check fails exactly below 3 segments; an empty path panics |
| RestModules.ModuleInfo | modules/modules.go:145-170 | After the path check: builtin text for an empty module, Info() of a loadable one, otherwise -1 |
| RestModules.ModuleHelp | modules/modules.go:172-199 | After the path check: builtin help for list/info only, Help(action) of a loadable module, otherwise -1 |
| RestModules.ListModules | modules/modules.go:109-143 | Always Status -1 with only the builtin entry |
| RestModules.ModuleHandle | modules/modules.go:72-107 | Runs the builtin, delegates to the loaded module, or returns "Invalid operation", as Dispatch decides |
| NodeManager.ListNames | modules/nodemanager/nodemanager.go:88-102 | The listing has one name per backend image, in backend order; a list error is returned |
| NodeManager.CreateFromImage | modules/nodemanager/nodemanager.go:123-163 | Image check, then a pull only if the check failed (a get otherwise), then the container. A failed pull or get returns before any container and changes nothing. Success adds exactly the container with the given snapshot |
| NodeManager.DestroyContainer | modules/nodemanager/nodemanager.go:178-205 | Load, kill with signal 9, task delete, container delete. Only the load and the container delete decide the error; success removes the container and its task, and no other container's task changes |
| NodeManager.CreateTask | modules/nodemanager/nodemanager.go:260-282 | Load, NewTask, Wait in order up to the first failure, whose error is returned; once NewTask succeeds the task table gains exactly the empty task of this container |
| NodeManager.RunProcess | modules/nodemanager/nodemanager.go:284-310 | Exec, Start, Wait in order up to the first failure. A failed Exec changes nothing, a failed Start leaves the process exec'd but not started, and once Start succeeds the process runs with the task's args, env and cwd (even if Wait then fails); only success reports its pid. Other containers' tasks are unchanged |
| NodeManager.ExecTask | modules/nodemanager/nodemanager.go:260-312 | The six steps in order up to the first failure, with no cleanup. The container's task after each kind of failure is stated: empty, holding the unstarted process, or holding the started process when only the last Wait fails. Only a complete run reports the pid, and no other container's task changes |
| NodeManager.SignalProcess | modules/nodemanager/nodemanager.go:325-355 | Load, Task, LoadProcess by name, Kill, in order up to the first failure. A failure changes nothing; success delivers the signal to that process only |
| NodeManager.NodeManager.RuntimeExists | modules/nodemanager/nodemanager.go:47-57 | False without a client; otherwise one image-service lookup, true only for a known image |
| NodeManager.NodeManager.RuntimePull | modules/nodemanager/nodemanager.go:60-78 | Without a client the error "Containerd available" and no call; otherwise one pull, whose success adds the image |
| NodeManager.NodeManager.RuntimeList | modules/nodemanager/nodemanager.go:81-103 | Without a client an error; otherwise exactly one name per image, in backend order |
| NodeManager.NodeManager.NodeCreate | modules/nodemanager/nodemanager.go:106-166 | Without a client an error and no call. An existing node gives "Node already exists" and changes nothing. Otherwise the creation with snapshot node.Name + "-snapshot" from the runtime image |
| NodeManager.NodeManager.NodeDestroy | modules/nodemanager/nodemanager.go:169-206 | Without a client an error and no call; otherwise the destroy sequence, failing only at the load or the container delete, and leaving every other container's task as it was |
| NodeManager.NodeManager.NodeExists | modules/nodemanager/nodemanager.go:209-221 | False without a client; otherwise one container lookup, true only for an existing container |
| NodeManager.NodeManager.NodeLoad | modules/nodemanager/nodemanager.go:224-248 | Without a client an error. Otherwise the node has the container's name and image and every other field zero; a lookup error is returned |
| NodeManager.NodeManager.NodeExec | modules/nodemanager/nodemanager.go:251-313 | Without a client an error and no call. Otherwise the exec sequence; `task.PID` is written only when all six steps succeed, and is then the started process's pid; a failed Wait leaves the started process in place; other containers' tasks are unchanged |
| NodeManager.NodeManager.NodeSignal | modules/nodemanager/nodemanager.go:316-356 | Without a client an error and no call; otherwise the signal sequence, resolving the process by `task.Name` |
| NodeManager.NamesOfImages | modules/nodemanager/nodemanager.go:96-100 | The name list has one entry per image, each that image's name |
| NodeManager.NodeCreateEffects | modules/nodemanager/nodemanager.go:118-163 | An existing node changes nothing. Success adds exactly container node.Name with snapshot node.Name + "-snapshot" and the runtime image; failure adds no container; a pull happens only right after a failed image check |
| NodeManager.CreateKeepsSnapshotsDistinct | modules/nodemanager/nodemanager.go:149-156 | Creation keeps every snapshot owned by one container; success adds exactly the asked-for container |
| NodeManager.DestroyRemovesContainer | modules/nodemanager/nodemanager.go:178-202 | A missing container fails at the load; success leaves neither the container nor its task; snapshots stay distinct |
| NodeManager.CreateThenLoad | modules/nodemanager/nodemanager.go:233-247 | Round trip: after NodeCreate succeeds, the node NodeLoad reports carries the node's name and runtime and zero elsewhere |
| NodeManager.ExecStopsAtFirstFailure | modules/nodemanager/nodemanager.go:260-312 | The exec stops at its first failing step and returns that error; it succeeds exactly when all six steps do |
| NodeManager.SignalStopsAtFirstFailure | modules/nodemanager/nodemanager.go:325-352 | The signal stops at its first failing step, succeeds exactly when all four do, and addresses the process by name |
| NodeManager.NodePackage.GetNodeManager | modules/nodemanager/nodemanager.go:359-383 | The first call builds the manager with the client the connection gave (null on failure); later calls return that same instance |
| RuntimePlugin.RuntimeModule.Initialize | modules/api/runtime/runtime.go:69-83 | Keeps whatever client the connection gave and always reports success |
| RuntimePlugin.RuntimeModule.HandleRequest | modules/api/runtime/runtime.go:101-104 | Returns nil without writing |
| RuntimePlugin.RuntimeModule.ImageExists | modules/api/runtime/runtime.go:106-116 | False without a client; otherwise one lookup that changes nothing, true only for a known image |
| RuntimePlugin.RuntimeModule.ImagePull | modules/api/runtime/runtime.go:118-136 | Without a client "No client available" and no call; otherwise one pull, whose success adds the image |
| RuntimePlugin.RuntimeModule.ImageList | modules/api/runtime/runtime.go:138-159 | Without a client "No client available"; otherwise one name per backend image, in backend order |
| RuntimePlugin.RuntimeModule.RuntimeCreate | modules/api/runtime/runtime.go:161-207 | No client guard: without a client it panics. Otherwise a pull only after a failed image check, and no container after a failed pull or get. The container is info.Name with the caller's snapshot, and its id is returned |
| RuntimePlugin.RuntimeModule.RuntimeDestroy | modules/api/runtime/runtime.go:209-246 | Without a client "No client available"; otherwise the destroy sequence, whose kill and task-delete errors are ignored, leaving every other container's task as it was |
| RuntimePlugin.RuntimeModule.RuntimeExists | modules/api/runtime/runtime.go:248-260 | False without a client; otherwise one container lookup that changes nothing, true only for an existing container |
| RuntimePlugin.RuntimeModule.RuntimeExec | modules/api/runtime/runtime.go:262-324 | Without a client "Client not available". Otherwise the exec sequence; `taskInfo.PID` is written only when every step succeeds; a failed Wait leaves the started process in place; other containers' tasks are unchanged |
| RuntimePlugin.RuntimeModule.RuntimeKill | modules/api/runtime/runtime.go:326-365 | Without a client "Client not available"; otherwise the signal sequence on the process named `taskInfo.Name` |
| RuntimePlugin.CreatedRuntimeExists | modules/api/runtime/runtime.go:193-206 | A successful RuntimeCreate leaves a new container with the returned id, the caller's image and snapshot; snapshots stay distinct |

## Left out

- **Logging:** every `Printf`/`Println` to the loggers, and the log files themselves.
- **JSON:** the encoding of the envelope. Responses are a datatype.
- **Server I/O:** the listeners of `core/server.go` (Unix, TCP, TLS), `Shutdown` and `loadConfig`. Starting a listener is a parameter that says whether it succeeds.
- **Configuration and startup:** `core/configmanager.go`, `core/logmanager.go`, `main.go`, `server/main.go`, and `main` in `modules/api/runtime/runtime.go`. These are flags, files, signals and goroutines.
- **Concurrency:** `sync.Once` thread safety. Each singleton is an object constructed once, without concurrent callers.
- **Foreign code:** the plugin loader and the plugins' own methods. They are oracles; a plugin's `HandleRequest` is only recorded as a delegation, and what it then writes is not modelled.
- **Backend internals:** containerd's image unpacking, OCI specs, I/O streams and exit statuses. Images, containers, tasks and processes are abstract values.
- **Node and runtime fields:** `Env`, `Devices`, `Caps`, `Privileged` and `GIDs` of `Node` and `RuntimeInfo` are carried but never used, as in the source.
- **Initialize results:** what a plugin's Initialize/Init does with its configuration. Its success is a property of the plugin object, independent of the configuration passed.
- **Formatting and paths:** `%q` escaping, and all of the cleaning `path.Join` does through `path.Clean` (repeated slashes, `.` and `..` elements).
- **Out-of-core files:** `modules/auth/fileauth/fileauth.go` and both orchestrator files are not part of this model. `core/api.go` seeds its cache with the orchestrator module, which is modelled as a given plugin object.
- **Nil maps:** they are modelled as empty (or `None`) where the source reads them. In core/api.go `modulesCache` and `defaultLogger` stay nil until InitializeAPI runs, so a getModule that caches a module, or any logging call, before it panics in the source; the model's ApiState starts from empty maps and has no logger, so it does not capture that panic.
- **`ServiceRequest` parameter types:** only "string or not" matters, for the panic of `moduleHelp`.
- **Plain constants:** the runtime plugin's `Name`, `Version`, `Info` and `Help` return constants; they are module constants with no contract.
- **Duplicate init:** calling Init on a cached module that reports it is uninitialized is recorded as "Init ran". Its own effect on IsInitialized is not modelled.
- NodeManager.DestroyContainer: does not state the signal 9 the kill sends to the task. The task is deleted right after, and only the container and task tables are stated.
