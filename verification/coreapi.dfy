/**
 * The older API dispatcher of core/api.go: package-level state (a cache of
 * loaded modules, the builtin action table, the plugin directory), a loader
 * that fills the cache on demand, the builtin list/info/help actions, the
 * start-up walk over the plugin directory, and request routing.
 *
 * The loader carries two quirks that are modelled as written. A plugin
 * whose `CyberoModule` symbol has the wrong type yields neither a module nor
 * an error. And the module just loaded is stored in a variable that shadows
 * the outer one, so the final type assertion is applied to the outer nil
 * value: the first successful load caches the module and then panics; only
 * later calls return it.
 */
module CoreApi {
  import opened Common
  import opened Plugins

  const NameSymbol: string := "Name"
  const VersionSymbol: string := "Version"
  const ModuleSymbol: string := "CyberoModule"

  /** The initial value of defaultPath. */
  const DefaultPath: string := "/usr/lib/cybero"

  /** The length of "/api/", sliced off without a length check. */
  const Prefix: nat := 5

  /** The builtin action table InitializeAPI installs. */
  const DefaultActions: map<string, BuiltinAction> :=
    map["list" := ListAction, "info" := InfoAction, "help" := HelpAction]

  /** Why loading an uncached plugin failed with an error. */
  datatype LoadFailure = OpenFailed | MissingSymbol(symbol: string) | InitFailed

  /** The outcome of the load steps for an uncached name. */
  datatype LoadStep =
    | Refused(failure: LoadFailure)  // an error is returned
    | WrongType                      // `CyberoModule` is not a RestModule: (nil, nil)
    | Ready(impl: Impl)              // loaded and Init succeeded

  /**
   * The steps of getModule on a cache miss, in order: open, look up Name,
   * Version and CyberoModule, assert RestModule, run Init.
   */
  function LoadPlugin(file: string, open: Loader): (r: LoadStep)
    ensures r == Refused(OpenFailed) <==> open(file).None?
    ensures open(file).Some? ==> var p := open(file).value;
      && (NameSymbol !in p ==> r == Refused(MissingSymbol(NameSymbol)))
      && (NameSymbol in p && VersionSymbol !in p ==> r == Refused(MissingSymbol(VersionSymbol)))
      && (NameSymbol in p && VersionSymbol in p && ModuleSymbol !in p ==> r == Refused(MissingSymbol(ModuleSymbol)))
      && (NameSymbol in p && VersionSymbol in p && ModuleSymbol in p ==>
            && (r == WrongType <==> Assert(p[ModuleSymbol], RestModule).None?)
            && (r.Ready? <==> Assert(p[ModuleSymbol], RestModule).Some? && p[ModuleSymbol].impl.initOk)
            && (r.Ready? ==> r.impl == p[ModuleSymbol].impl))
    ensures r.Ready? ==> RestModule in r.impl.ifaces && r.impl.initOk
  {
    match open(file)
    case None => Refused(OpenFailed)
    case Some(p) =>
      if Lookup(p, NameSymbol).None? then Refused(MissingSymbol(NameSymbol))
      else if Lookup(p, VersionSymbol).None? then Refused(MissingSymbol(VersionSymbol))
      else if Lookup(p, ModuleSymbol).None? then Refused(MissingSymbol(ModuleSymbol))
      else match Assert(p[ModuleSymbol], RestModule)
        case None => WrongType
        case Some(m) => if m.initOk then Ready(m) else Refused(InitFailed)
  }

  /** What getModule returns: a module, an error, (nil, nil), or a panic. */
  datatype ModuleResult = Loaded(impl: Impl) | LoadError(failure: LoadFailure) | NilNil | Panic

  /** The result of one getModule call: what it returned, the new cache, and whether Init ran. */
  datatype Fetched = Fetched(result: ModuleResult, cache: map<string, Impl>, initRun: bool)

  /**
   * getModule(name) over the cache `cache` and plugin directory `dir`. A
   * cached module is returned (and re-initialized when it reports it is not
   * initialized); a miss never returns a module.
   */
  function Fetch(cache: map<string, Impl>, dir: string, name: string, open: Loader): (f: Fetched)
    ensures name in cache ==> f.cache == cache
    ensures name in cache && RestModule in cache[name].ifaces ==>
      f.result == Loaded(cache[name]) && (f.initRun <==> !cache[name].initialized)
    ensures name in cache && RestModule !in cache[name].ifaces ==> f.result == Panic
    ensures name !in cache ==> !f.result.Loaded?
    ensures name !in cache ==> match LoadPlugin(PluginPath(dir, name), open)
      case Refused(failure) => f.result == LoadError(failure) && f.cache == cache
      case WrongType => f.result == NilNil && f.cache == cache
      case Ready(m) => f.result == Panic && f.cache == cache[name := m]
    ensures f.result.LoadError? || f.result == NilNil ==> f.cache == cache
    ensures f.cache != cache ==>
      && name !in cache && f.result == Panic && name in f.cache
      && f.cache == cache[name := f.cache[name]]
      && RestModule in f.cache[name].ifaces && f.cache[name].initOk
  {
    if name !in cache then
      match LoadPlugin(PluginPath(dir, name), open)
      case Refused(failure) => Fetched(LoadError(failure), cache, failure == InitFailed)
      case WrongType => Fetched(NilNil, cache, false)
      // cached, then the assertion on the shadowed (nil) variable panics
      case Ready(m) => Fetched(Panic, cache[name := m], true)
    else
      var m := cache[name];
      if RestModule in m.ifaces then Fetched(Loaded(m), cache, !m.initialized)
      else Fetched(Panic, cache, false)
  }

  /** A cache hit never looks at the plugin directory: the result is the same whatever `open` does. */
  lemma HitIgnoresLoader(cache: map<string, Impl>, dir: string, name: string, open1: Loader, open2: Loader)
    requires name in cache
    ensures Fetch(cache, dir, name, open1) == Fetch(cache, dir, name, open2)
  {
  }

  /**
   * The first successful load of a name panics after caching the module; the
   * next call returns that module without reopening the plugin.
   */
  lemma SecondCallReturnsModule(cache: map<string, Impl>, dir: string, name: string, open: Loader, later: Loader)
    requires name !in cache && LoadPlugin(PluginPath(dir, name), open).Ready?
    ensures var first := Fetch(cache, dir, name, open);
      && first.result == Panic
      && Fetch(first.cache, dir, name, later).result == Loaded(LoadPlugin(PluginPath(dir, name), open).impl)
  {
  }

  /** The listing entry of a cached module: name and version, no endpoint. */
  function CacheEntry(m: Impl): (e: Entry)
  {
    Entry(m.name, m.version, None)
  }

  /** The result of a handler together with the cache it leaves behind. */
  datatype Step = Step(outcome: Outcome, cache: map<string, Impl>)

  /** infoAction: the builtin text, a loaded module's Info(), or an error; a nil module panics. */
  function InfoStep(cache: map<string, Impl>, dir: string, req: Request, open: Loader): (s: Step)
    ensures var name := QueryGet(req, "module");
      && (name == "" ==> s == Step(Wrote(Response(0, Info(BuiltinInfo))), cache))
      && (name != "" ==> var f := Fetch(cache, dir, name, open);
            && s.cache == f.cache
            && (f.result.Loaded? ==> s.outcome == Wrote(Response(0, Info(f.result.impl.info))))
            && (f.result.LoadError? ==> s.outcome.Wrote? && s.outcome.response.status == -1 && s.outcome.response.body.Error?)
            && (f.result == NilNil || f.result == Panic ==> s.outcome == Panicked))
  {
    var name := QueryGet(req, "module");
    if name == "" then Step(Wrote(Response(0, Info(BuiltinInfo))), cache)
    else
      var f := Fetch(cache, dir, name, open);
      match f.result
      case Loaded(m) => Step(Wrote(Response(0, Info(m.info))), f.cache)
      case LoadError(_) => Step(Wrote(Response(-1, Error("Error module does not exits " + Quote(name) + "\n"))), f.cache)
      case NilNil => Step(Panicked, f.cache)   // Info() called on a nil interface
      case Panic => Step(Panicked, f.cache)
  }

  /** helpAction: builtin help for "list" and "info" only, a loaded module's Help(action), or an error. */
  function HelpStep(cache: map<string, Impl>, dir: string, req: Request, open: Loader): (s: Step)
    ensures var name, action := QueryGet(req, "module"), QueryGet(req, "action");
      && (name == "" ==>
            s.cache == cache && s.outcome.Wrote? &&
            (s.outcome.response.status == 0 <==> action == "list" || action == "info"))
      && (name == "" && action == "list" ==> s.outcome == Wrote(Response(0, Help(ListHelp))))
      && (name == "" && action == "info" ==> s.outcome == Wrote(Response(0, Help(InfoHelp))))
      && (name != "" ==> var f := Fetch(cache, dir, name, open);
            && s.cache == f.cache
            && (f.result.Loaded? ==> s.outcome == Wrote(Response(0, Help(f.result.impl.Help(action)))))
            && (f.result.LoadError? ==> s.outcome.Wrote? && s.outcome.response.status == -1)
            && (f.result == NilNil || f.result == Panic ==> s.outcome == Panicked))
      && (s.outcome.Wrote? && s.outcome.response.status == -1 ==> s.outcome.response.body.Error?)
  {
    var name, action := QueryGet(req, "module"), QueryGet(req, "action");
    var failure := Wrote(Response(-1, Error("Error module or action does not exits " + Quote(name) + "\n")));
    if name == "" then
      if action == "list" then Step(Wrote(Response(0, Help(ListHelp))), cache)
      else if action == "info" then Step(Wrote(Response(0, Help(InfoHelp))), cache)
      else Step(failure, cache)
    else
      var f := Fetch(cache, dir, name, open);
      match f.result
      case Loaded(m) => Step(Wrote(Response(0, Help(m.Help(action)))), f.cache)
      case LoadError(_) => Step(failure, f.cache)
      case NilNil => Step(Panicked, f.cache)   // Help() called on a nil interface
      case Panic => Step(Panicked, f.cache)
  }

  /** True when every cached value is a RestModule, so listAction's assertions hold. */
  predicate AllRest(cache: map<string, Impl>)
  {
    forall k :: k in cache ==> RestModule in cache[k].ifaces
  }

  /** The outcome of the InitializeAPI walk. */
  datatype WalkStatus = Completed | Stopped(failure: LoadFailure) | Crashed

  /**
   * The walk callback applied to `entries` in order, starting from `cache`:
   * unreadable entries and directories are skipped, every file's stem is
   * loaded, the first load error stops the walk and a panic aborts it.
   */
  function WalkModules(cache: map<string, Impl>, dir: string, open: Loader, entries: seq<WalkEntry>): (r: (map<string, Impl>, WalkStatus))
    decreases |entries|
  {
    if entries == [] then (cache, Completed)
    else
      var e := entries[0];
      if e.statError || e.isDir then WalkModules(cache, dir, open, entries[1..])
      else
        var f := Fetch(cache, dir, Stem(e.name), open);
        match f.result
        case LoadError(failure) => (f.cache, Stopped(failure))
        case Panic => (f.cache, Crashed)
        case _ => WalkModules(f.cache, dir, open, entries[1..])
  }

  /**
   * The walk only ever adds to the cache, and what it adds are RestModules
   * whose Init succeeded.
   */
  lemma {:induction false} WalkOnlyAddsInitialized(cache: map<string, Impl>, dir: string, open: Loader, entries: seq<WalkEntry>)
    ensures var c := WalkModules(cache, dir, open, entries).0;
      && (forall k :: k in cache ==> k in c && c[k] == cache[k])
      && (forall k :: k in c && k !in cache ==> RestModule in c[k].ifaces && c[k].initOk)
    decreases |entries|
  {
    if entries != [] {
      var e := entries[0];
      if e.statError || e.isDir {
        WalkOnlyAddsInitialized(cache, dir, open, entries[1..]);
      } else {
        var f := Fetch(cache, dir, Stem(e.name), open);
        if !f.result.LoadError? && f.result != Panic {
          WalkOnlyAddsInitialized(f.cache, dir, open, entries[1..]);
        }
      }
    }
  }

  /**
   * A plugin file that loads cleanly, met before anything else stops the
   * walk, aborts InitializeAPI: the first successful load panics. The files
   * before it are cache hits on RestModules or plugins of the wrong type,
   * neither of which changes the cache.
   */
  lemma {:induction false} LoadablePluginCrashesWalk(cache: map<string, Impl>, dir: string, open: Loader, entries: seq<WalkEntry>, i: nat)
    requires i < |entries| && !entries[i].statError && !entries[i].isDir
    requires forall j :: 0 <= j < i && !entries[j].statError && !entries[j].isDir ==>
      var r := Fetch(cache, dir, Stem(entries[j].name), open).result; r.Loaded? || r == NilNil
    requires Stem(entries[i].name) !in cache
    requires LoadPlugin(PluginPath(dir, Stem(entries[i].name)), open).Ready?
    ensures WalkModules(cache, dir, open, entries).1 == Crashed
    decreases i
  {
    if i > 0 {
      LoadablePluginCrashesWalk(cache, dir, open, entries[1..], i - 1);
    }
  }

  /** Where HandleRequest sends a request. */
  datatype ApiRoute =
    | Short                        // the path is shorter than "/api/": the slice panics
    | Builtin(action: BuiltinAction)
    | ToModule(key: string)        // handed to getModule

  /**
   * The routing decision of HandleRequest: the first segment after "/api/"
   * selects a builtin action when the table has it, and a module otherwise.
   */
  function Route(actions: map<string, BuiltinAction>, path: string): (r: ApiRoute)
    ensures |path| < Prefix <==> r == Short
    ensures |path| >= Prefix ==>
      var key := FirstSegment(path[Prefix..], '/');
      && (r.Builtin? <==> key in actions)
      && (r.Builtin? ==> r.action == actions[key])
      && (r.ToModule? ==> r.key == key)
  {
    if |path| < Prefix then Short
    else
      // strings.Split never returns an empty slice: "No module called" cannot happen.
      var key := Split(path[Prefix..], '/')[0];
      if key in actions then Builtin(actions[key]) else ToModule(key)
  }

  /** With the builtin table, "/api/list", "/api/info" and "/api/help" never reach a module. */
  lemma {:induction false} BuiltinShadowsModule(word: string, rest: string)
    requires word in DefaultActions
    ensures Route(DefaultActions, "/api/" + word + "/" + rest) == Builtin(DefaultActions[word])
    ensures Route(DefaultActions, "/api/" + word) == Builtin(DefaultActions[word])
  {
    assert !HasChar(word, '/');
    FirstSegmentOf(word, rest, '/');
    assert ("/api/" + word + "/" + rest)[Prefix..] == word + ['/'] + rest;
    assert ("/api/" + word)[Prefix..] == word;
  }

  /** The package-level variables of core/api.go and the functions that update them. */
  class ApiState {
    var defaultPath: string
    var modulesCache: map<string, Impl>
    var apiActions: map<string, BuiltinAction>

    /** The state before InitializeAPI: the default directory and empty tables. */
    constructor ()
      ensures defaultPath == DefaultPath && modulesCache == map[] && apiActions == map[]
    {
      defaultPath := DefaultPath;
      modulesCache := map[];
      apiActions := map[];
    }

    /** getModule: the steps of Fetch, updating the cache in place. */
    method GetModule(name: string, open: Loader) returns (r: ModuleResult)
      modifies this
      ensures var f := Fetch(old(modulesCache), defaultPath, name, open);
        r == f.result && modulesCache == f.cache
      ensures defaultPath == old(defaultPath) && apiActions == old(apiActions)
    {
      if name !in modulesCache {
        var plugin := open(PluginPath(defaultPath, name));
        if plugin.None? {
          return LoadError(OpenFailed);
        }
        if Lookup(plugin.value, NameSymbol).None? {
          return LoadError(MissingSymbol(NameSymbol));
        }
        if Lookup(plugin.value, VersionSymbol).None? {
          return LoadError(MissingSymbol(VersionSymbol));
        }
        var sym := Lookup(plugin.value, ModuleSymbol);
        if sym.None? {
          return LoadError(MissingSymbol(ModuleSymbol));
        }
        var impl := Assert(sym.value, RestModule);
        if impl.None? {
          return NilNil;
        }
        if !impl.value.initOk {
          return LoadError(InitFailed);
        }
        modulesCache := modulesCache[name := impl.value];
        // the assertion that follows reads the outer, still nil, moduleImpl
        return Panic;
      }
      var m := modulesCache[name];
      if RestModule !in m.ifaces {
        return Panic;
      }
      // a module that is not initialized is re-initialized; the error is ignored
      r := Loaded(m);
    }

    /** listAction: the builtin entry and one name/version entry per cached module. */
    method List() returns (o: Outcome)
      ensures AllRest(modulesCache) ==> o.Wrote? && IsListing(o.response, modulesCache, CacheEntry)
      ensures !AllRest(modulesCache) ==> o == Panicked
    {
      var entries := [BuiltinEntry];
      var remaining := modulesCache.Keys;
      ghost var done: set<string> := {};
      ghost var order: seq<string> := [];
      while remaining != {}
        invariant remaining !! done && remaining + done == modulesCache.Keys
        invariant |entries| == 1 + |done| == 1 + |order|
        invariant entries[0] == BuiltinEntry
        invariant forall j :: 0 <= j < |order| ==> order[j] in done && entries[j + 1] == CacheEntry(modulesCache[order[j]])
        invariant forall k :: k in done ==> k in order && RestModule in modulesCache[k].ifaces
        decreases remaining
      {
        var k :| k in remaining;
        if RestModule !in modulesCache[k].ifaces {
          return Panicked;   // the assertion moduleImpl.(RestModule) fails
        }
        entries := entries + [CacheEntry(modulesCache[k])];
        remaining := remaining - {k};
        done := done + {k};
        order := order + [k];
      }
      var r := Response(0, Modules(entries));
      ListingOf(r, modulesCache, CacheEntry, order);
      o := Wrote(r);
    }

    /** infoAction, as InfoStep describes it. */
    method InfoAction(req: Request, open: Loader) returns (o: Outcome)
      modifies this
      ensures Step(o, modulesCache) == InfoStep(old(modulesCache), defaultPath, req, open)
      ensures defaultPath == old(defaultPath) && apiActions == old(apiActions)
    {
      var name := QueryGet(req, "module");
      if name == "" {
        return Wrote(Response(0, Info(BuiltinInfo)));
      }
      var r := GetModule(name, open);
      match r {
        case Loaded(m) => o := Wrote(Response(0, Info(m.info)));
        case LoadError(_) => o := Wrote(Response(-1, Error("Error module does not exits " + Quote(name) + "\n")));
        case NilNil => o := Panicked;
        case Panic => o := Panicked;
      }
    }

    /** helpAction, as HelpStep describes it. */
    method HelpAction(req: Request, open: Loader) returns (o: Outcome)
      modifies this
      ensures Step(o, modulesCache) == HelpStep(old(modulesCache), defaultPath, req, open)
      ensures defaultPath == old(defaultPath) && apiActions == old(apiActions)
    {
      var name, action := QueryGet(req, "module"), QueryGet(req, "action");
      var failure := Wrote(Response(-1, Error("Error module or action does not exits " + Quote(name) + "\n")));
      if name == "" {
        o := failure;
        if action == "list" {
          o := Wrote(Response(0, Help(ListHelp)));
        }
        if action == "info" {
          o := Wrote(Response(0, Help(InfoHelp)));
        }
        return;
      }
      var r := GetModule(name, open);
      match r {
        case Loaded(m) => o := Wrote(Response(0, Help(m.Help(action))));
        case LoadError(_) => o := failure;
        case NilNil => o := Panicked;
        case Panic => o := Panicked;
      }
    }

    /**
     * InitializeAPI: sets the plugin directory, seeds the cache with the
     * orchestrator module, walks the directory, then installs the builtin
     * actions. A panic during the walk aborts it before the actions are set;
     * a load error only stops the walk.
     */
    method InitializeAPI(path: string, orchestrator: Impl, entries: seq<WalkEntry>, open: Loader) returns (crashed: bool)
      modifies this
      ensures defaultPath == path
      ensures var (cache, status) := WalkModules(map["orchestrator" := orchestrator], path, open, entries);
        && modulesCache == cache
        && (crashed <==> status == Crashed)
        && apiActions == (if crashed then old(apiActions) else DefaultActions)
    {
      defaultPath := path;
      modulesCache := map["orchestrator" := orchestrator];
      var i := 0;
      crashed := false;
      while i < |entries|
        invariant 0 <= i <= |entries| && defaultPath == path && apiActions == old(apiActions)
        invariant WalkModules(modulesCache, path, open, entries[i..]) ==
          WalkModules(map["orchestrator" := orchestrator], path, open, entries)
        decreases |entries| - i
      {
        var e := entries[i];
        assert entries[i..][1..] == entries[i + 1..];
        if !e.statError && !e.isDir {
          var r := GetModule(Stem(e.name), open);
          if r.LoadError? {
            break;       // the callback's error ends filepath.Walk
          }
          if r == Panic {
            return true;
          }
        }
        i := i + 1;
      }
      apiActions := DefaultActions;
    }

    /**
     * HandleRequest: a builtin action first, then a module that getModule
     * returns, else "Invalid operation"; a nil module or a short path panics.
     */
    method HandleRequest(req: Request, open: Loader) returns (o: Outcome)
      modifies this
      ensures defaultPath == old(defaultPath) && apiActions == old(apiActions)
      ensures match Route(apiActions, req.path)
        case Short => o == Panicked && modulesCache == old(modulesCache)
        case Builtin(ListAction) => modulesCache == old(modulesCache) &&
          (AllRest(modulesCache) ==> o.Wrote? && IsListing(o.response, modulesCache, CacheEntry)) &&
          (!AllRest(modulesCache) ==> o == Panicked)
        case Builtin(InfoAction) => Step(o, modulesCache) == InfoStep(old(modulesCache), defaultPath, req, open)
        case Builtin(HelpAction) => Step(o, modulesCache) == HelpStep(old(modulesCache), defaultPath, req, open)
        case ToModule(key) =>
          var f := Fetch(old(modulesCache), defaultPath, key, open);
          && modulesCache == f.cache
          && (f.result.Loaded? <==> o == Delegated(key))
          && (f.result.LoadError? <==> o == Failed(InvalidOperation))
          && (f.result == NilNil || f.result == Panic <==> o == Panicked)
    {
      match Route(apiActions, req.path) {
        case Short => o := Panicked;
        case Builtin(action) =>
          match action {
            case ListAction => o := List();
            case InfoAction => o := InfoAction(req, open);
            case HelpAction => o := HelpAction(req, open);
          }
        case ToModule(key) =>
          var r := GetModule(key, open);
          match r {
            case Loaded(_) => o := Delegated(key);
            case LoadError(_) => o := Failed(InvalidOperation);
            case NilNil => o := Panicked;   // HandleRequest called on a nil interface
            case Panic => o := Panicked;
          }
      }
    }
  }
}
