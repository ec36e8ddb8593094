/**
 * The module registry of core/modulesmanager.go: a scan of the modules
 * directory that activates enabled plugins, two tables filled by that scan
 * (API handlers keyed by their endpoint, auth providers keyed by file stem),
 * lookups on those tables, and the once-constructed manager.
 */
module Registry {
  import opened Common
  import opened Plugins

  /** One entry of the `configs` section: types.CyberoModuleConfig. */
  datatype ModuleConfig = ModuleConfig(enabled: bool, config: map<string, string>)

  /** The `modules` section of the configuration: types.CyberoModulesConfig. */
  datatype ModulesConfig = ModulesConfig(path: string, configuration: map<string, ModuleConfig>)

  const HandlerSymbol: string := "CyberoRestHandler"
  const AuthSymbol: string := "CyberoAuthProvider"

  /** A module is active only with a configuration entry whose Enabled is set. */
  predicate Enabled(cfg: ModulesConfig, name: string)
  {
    name in cfg.configuration && cfg.configuration[name].enabled
  }

  /** The file opened for a directory entry: `<Modules.Path>/<stem>.so`. */
  function PluginFile(cfg: ModulesConfig, fileName: string): (file: string)
  {
    PluginPath(cfg.path, Stem(fileName))
  }

  /** Why the walk callback left an entry out (each reason is only logged). */
  datatype SkipReason = AccessError | Directory | OpenFailed | NotLoaded | InitFailed | NotAPlugin

  /** What the walk callback does with one entry. */
  datatype Decision =
    | Skip(reason: SkipReason)
    | RegisterApi(key: string, impl: Impl)
    | RegisterAuth(key: string, impl: Impl)

  /**
   * The decision of the LoadModules walk callback for one entry. A plugin
   * exporting the handler symbol is settled on that branch alone: if the
   * value has the wrong type, the module is unconfigured or disabled, or
   * Initialize fails, it is skipped without trying the auth-provider symbol.
   */
  function Classify(cfg: ModulesConfig, open: Loader, e: WalkEntry): (d: Decision)
    ensures !d.Skip? ==> !e.statError && !e.isDir && Enabled(cfg, Stem(e.name)) && d.impl.initOk
    ensures d.RegisterApi? ==> d.key == d.impl.endpoint && HandlerModule in d.impl.ifaces
    ensures d.RegisterAuth? ==> d.key == Stem(e.name) && AuthModule in d.impl.ifaces
  {
    if e.statError then Skip(AccessError)
    else if e.isDir then Skip(Directory)
    else
      var name := Stem(e.name);
      match open(PluginFile(cfg, e.name))
      case None => Skip(OpenFailed)
      case Some(p) =>
        if HandlerSymbol in p then
          match Assert(p[HandlerSymbol], HandlerModule)
          case Some(impl) =>
            if !Enabled(cfg, name) then Skip(NotLoaded)
            else if !impl.initOk then Skip(InitFailed)
            else RegisterApi(impl.endpoint, impl)
          case None => Skip(NotLoaded)
        else if AuthSymbol in p then
          match Assert(p[AuthSymbol], AuthModule)
          case Some(impl) =>
            if !Enabled(cfg, name) then Skip(NotLoaded)
            else if !impl.initOk then Skip(InitFailed)
            else RegisterAuth(name, impl)
          case None => Skip(NotLoaded)
        else Skip(NotAPlugin)
  }

  /** A plugin that exports the handler symbol is never registered as an auth provider. */
  lemma HandlerNeverTriedAsAuth(cfg: ModulesConfig, open: Loader, e: WalkEntry, p: Plugin)
    requires open(PluginFile(cfg, e.name)) == Some(p) && HandlerSymbol in p
    ensures !Classify(cfg, open, e).RegisterAuth?
  {
  }

  /**
   * A valid, enabled handler whose Initialize succeeds is registered under
   * its endpoint; a valid, enabled auth provider under the file stem.
   */
  lemma EnabledPluginIsRegistered(cfg: ModulesConfig, open: Loader, e: WalkEntry, p: Plugin, impl: Impl)
    requires !e.statError && !e.isDir && open(PluginFile(cfg, e.name)) == Some(p)
    requires Enabled(cfg, Stem(e.name)) && impl.initOk
    ensures HandlerSymbol in p && p[HandlerSymbol] == Object(impl) && HandlerModule in impl.ifaces
      ==> Classify(cfg, open, e) == RegisterApi(impl.endpoint, impl)
    ensures HandlerSymbol !in p && AuthSymbol in p && p[AuthSymbol] == Object(impl) && AuthModule in impl.ifaces
      ==> Classify(cfg, open, e) == RegisterAuth(Stem(e.name), impl)
  {
  }

  /** The two registry tables as values. */
  datatype Tables = Tables(api: map<string, Impl>, auth: map<string, Impl>)

  /** Registry invariant: API handlers sit under their own endpoint; every entry has the right kind. */
  ghost predicate TablesValid(t: Tables)
  {
    && (forall k :: k in t.api ==> t.api[k].endpoint == k && HandlerModule in t.api[k].ifaces)
    && (forall k :: k in t.auth ==> AuthModule in t.auth[k].ifaces)
  }

  /** The effect of one callback decision on the tables; a later registration under the same key wins. */
  function Apply(t: Tables, d: Decision): (t': Tables)
    ensures d.Skip? ==> t' == t
    ensures d.RegisterApi? ==> t' == Tables(t.api[d.key := d.impl], t.auth)
    ensures d.RegisterAuth? ==> t' == Tables(t.api, t.auth[d.key := d.impl])
  {
    match d
    case Skip(_) => t
    case RegisterApi(k, impl) => Tables(t.api[k := impl], t.auth)
    case RegisterAuth(k, impl) => Tables(t.api, t.auth[k := impl])
  }

  /** The tables after the walk has visited `entries` in order, starting from `t`. */
  function Scan(t: Tables, cfg: ModulesConfig, open: Loader, entries: seq<WalkEntry>): (r: Tables)
    decreases |entries|
  {
    if entries == [] then t
    else Apply(Scan(t, cfg, open, entries[..|entries| - 1]), Classify(cfg, open, entries[|entries| - 1]))
  }

  /** The scan keeps the registry invariant. */
  lemma {:induction false} ScanKeepsValid(t: Tables, cfg: ModulesConfig, open: Loader, entries: seq<WalkEntry>)
    requires TablesValid(t)
    ensures TablesValid(Scan(t, cfg, open, entries))
    decreases |entries|
  {
    if entries != [] {
      ScanKeepsValid(t, cfg, open, entries[..|entries| - 1]);
    }
  }

  /**
   * Default deny: an auth provider appears under a new key only if the
   * configuration has that key enabled, whatever files the directory holds.
   */
  lemma {:induction false} AuthKeysAreEnabled(t: Tables, cfg: ModulesConfig, open: Loader, entries: seq<WalkEntry>, k: string)
    requires k in Scan(t, cfg, open, entries).auth && k !in t.auth
    ensures Enabled(cfg, k)
    decreases |entries|
  {
    if entries != [] {
      var prefix := entries[..|entries| - 1];
      var d := Classify(cfg, open, entries[|entries| - 1]);
      if !(d.RegisterAuth? && d.key == k) {
        AuthKeysAreEnabled(t, cfg, open, prefix, k);
      }
    }
  }

  /**
   * Every new API table entry comes from a visited file whose stem is
   * enabled and whose decision registered exactly that module under that key.
   */
  lemma {:induction false} ApiEntriesComeFromEnabledFiles(t: Tables, cfg: ModulesConfig, open: Loader, entries: seq<WalkEntry>, k: string)
    requires k in Scan(t, cfg, open, entries).api && k !in t.api
    ensures exists i :: (0 <= i < |entries| && Enabled(cfg, Stem(entries[i].name))
      && Classify(cfg, open, entries[i]) == RegisterApi(k, Scan(t, cfg, open, entries).api[k]))
    decreases |entries|
  {
    var n := |entries|;
    if n > 0 {
      var prefix := entries[..n - 1];
      var d := Classify(cfg, open, entries[n - 1]);
      if d.RegisterApi? && d.key == k {
        assert Enabled(cfg, Stem(entries[n - 1].name));
      } else {
        ApiEntriesComeFromEnabledFiles(t, cfg, open, prefix, k);
        var i :| 0 <= i < |prefix| && Enabled(cfg, Stem(prefix[i].name))
          && Classify(cfg, open, prefix[i]) == RegisterApi(k, Scan(t, cfg, open, prefix).api[k]);
        assert prefix[i] == entries[i];
      }
    }
  }

  /** A registered decision for the last visited file is in the tables after the scan. */
  lemma ScanRegistersLast(t: Tables, cfg: ModulesConfig, open: Loader, entries: seq<WalkEntry>)
    requires entries != []
    ensures var d := Classify(cfg, open, entries[|entries| - 1]);
      var s := Scan(t, cfg, open, entries);
      (d.RegisterApi? ==> d.key in s.api && s.api[d.key] == d.impl)
      && (d.RegisterAuth? ==> d.key in s.auth && s.auth[d.key] == d.impl)
  {
  }

  /** The registry: core.ModulesManager. */
  class ModulesManager {
    var apiModules: map<string, Impl>
    var authModules: map<string, Impl>

    ghost function Snapshot(): (t: Tables)
      reads this
    {
      Tables(apiModules, authModules)
    }

    ghost predicate Valid()
      reads this
    {
      TablesValid(Snapshot())
    }

    /** The construction done once by GetModuleManager: two empty tables. */
    constructor ()
      ensures apiModules == map[] && authModules == map[]
      ensures Valid()
    {
      apiModules := map[];
      authModules := map[];
    }

    /**
     * The walk callback for one entry. It always returns nil, so no entry
     * ever stops the scan.
     */
    method VisitFile(cfg: ModulesConfig, open: Loader, e: WalkEntry) returns (err: Option<string>)
      requires Valid()
      modifies this
      ensures Valid()
      ensures err == None
      ensures Snapshot() == Apply(old(Snapshot()), Classify(cfg, open, e))
    {
      var d := Classify(cfg, open, e);
      match d {
        case Skip(_) =>
        case RegisterApi(key, impl) =>
          apiModules := apiModules[key := impl];
        case RegisterAuth(key, impl) =>
          authModules := authModules[key := impl];
      }
      return None;
    }

    /**
     * LoadModules: filepath.Walk over the modules directory, calling the
     * callback on each entry in order and stopping at the first callback
     * error. Since the callback never fails, every entry is visited.
     */
    method LoadModules(cfg: ModulesConfig, open: Loader, entries: seq<WalkEntry>)
      requires Valid()
      modifies this
      ensures Valid()
      ensures Snapshot() == Scan(old(Snapshot()), cfg, open, entries)
    {
      var i := 0;
      while i < |entries|
        invariant 0 <= i <= |entries|
        invariant Valid()
        invariant Snapshot() == Scan(old(Snapshot()), cfg, open, entries[..i])
      {
        var err := VisitFile(cfg, open, entries[i]);
        if err.Some? {
          break;
        }
        assert entries[..i + 1][..i] == entries[..i];
        i := i + 1;
      }
      assert entries[..|entries|] == entries;
    }

    /** GetAPIModule: the handler registered under `name`, if any. */
    function GetAPIModule(name: string): (r: Option<Impl>)
      reads this
      ensures r.Some? <==> name in apiModules
      ensures r.Some? ==> r.value == apiModules[name]
    {
      if name in apiModules then Some(apiModules[name]) else None
    }

    /** GetAuthModule: the auth provider registered under `name`, if any. */
    function GetAuthModule(name: string): (r: Option<Impl>)
      reads this
      ensures r.Some? <==> name in authModules
      ensures r.Some? ==> r.value == authModules[name]
    {
      if name in authModules then Some(authModules[name]) else None
    }

    /** GetAPIModules: the whole handler table; its keys are exactly the names GetAPIModule finds. */
    function GetAPIModules(): (m: map<string, Impl>)
      reads this
      ensures forall k :: k in m <==> GetAPIModule(k).Some?
      ensures forall k :: k in m ==> GetAPIModule(k) == Some(m[k])
    {
      apiModules
    }

    /** GetAuthModules: the whole provider table; its keys are exactly the names GetAuthModule finds. */
    function GetAuthModules(): (m: map<string, Impl>)
      reads this
      ensures forall k :: k in m <==> GetAuthModule(k).Some?
      ensures forall k :: k in m ==> GetAuthModule(k) == Some(m[k])
    {
      authModules
    }
  }

  /** The package-level `modulesManager` guarded by `modulesSync`. */
  class ModulesPackage {
    var modulesManager: ModulesManager?

    constructor ()
      ensures modulesManager == null
    {
      modulesManager := null;
    }

    /** GetModuleManager: builds the manager with two empty tables on the first call, then returns that same instance. */
    method GetModuleManager() returns (m: ModulesManager)
      modifies this
      ensures modulesManager == m
      ensures old(modulesManager) != null ==> m == old(modulesManager)
      ensures old(modulesManager) == null ==> fresh(m) && m.apiModules == map[] && m.authModules == map[]
    {
      if modulesManager == null {
        modulesManager := new ModulesManager();
      }
      m := modulesManager;
    }
  }
}
