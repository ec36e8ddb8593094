/**
 * The plugin loader (Go's `plugin` package) and the directory walk
 * (`filepath.Walk`), seen from the core as oracles.
 *
 * A plugin is the set of symbols it exports. Opening a file either fails or
 * yields those symbols; looking a symbol up either fails (the symbol is
 * missing) or yields its value; a type assertion on that value succeeds only
 * when the value implements the interface asked for.
 */
module Plugins {
  import opened Common

  /** The Go interfaces that the generations of the core assert plugin values to. */
  datatype Iface =
    | HandlerModule   // types.CyberoHandlerModule (core/modulesmanager.go)
    | AuthModule      // types.CyberoAuthModule and definitions.RestAPIAuthProvider
    | RestModule      // core.RestModule (core/api.go): with Init and IsInitialized
    | PlainRestModule // modules.RestModule (modules/modules.go): without Init and IsInitialized
    | ServiceModule   // core.ServiceModule (core/modules.go)

  /**
   * A module object exported by a plugin: what its accessor methods return,
   * which interfaces it satisfies, whether Initialize/Init succeeds, and what
   * IsInitialized reports.
   */
  datatype Impl = Impl(
    name: string,
    version: string,
    info: string,
    endpoint: string,
    helpTexts: map<string, string>,
    ifaces: set<Iface>,
    initOk: bool,
    initialized: bool)
  {
    /** module.Help(action): the plugin's text for the action, "" when it has none. */
    function Help(action: string): (text: string)
    {
      if action in helpTexts then helpTexts[action] else ""
    }
  }

  /** The value of an exported symbol: a plain variable or a module object. */
  datatype Symbol = Text(text: string) | Object(impl: Impl)

  /** The symbols a plugin exports, by name. */
  type Plugin = map<string, Symbol>

  /** plugin.Open: a file path gives the opened plugin, or None when opening fails. */
  type Loader = string -> Option<Plugin>

  /** plugin.Lookup: the symbol's value, or None when the plugin does not export it. */
  function Lookup(p: Plugin, symbol: string): (r: Option<Symbol>)
    ensures r.Some? <==> symbol in p
  {
    if symbol in p then Some(p[symbol]) else None
  }

  /** The plugin file for module `name` in directory `dir`: path.Join(dir, name + ".so"). */
  function PluginPath(dir: string, name: string): (file: string)
    ensures IsSuffix(name + ".so", file)
    ensures dir == "" ==> file == name + ".so"
  {
    JoinPath(dir, name + ".so")
  }

  /** The type assertion `sym.(I)`: the module object when it implements I. */
  function Assert(sym: Symbol, iface: Iface): (r: Option<Impl>)
    ensures r.Some? <==> sym.Object? && iface in sym.impl.ifaces
    ensures r.Some? ==> r.value == sym.impl
  {
    if sym.Object? && iface in sym.impl.ifaces then Some(sym.impl) else None
  }

  /**
   * One item that filepath.Walk hands to its callback: the path, the base
   * name of the file, whether it is a directory, and whether lstat failed.
   */
  datatype WalkEntry = WalkEntry(path: string, name: string, isDir: bool, statError: bool)

  /**
   * What a listAction writes for the module table `modules`, when `entry`
   * turns a module into its listing entry: Status 0, the builtin entry
   * first, then exactly one entry per module (in Go's map iteration order,
   * which is unspecified): some ordering of the module keys, each key once,
   * gives the entries after the builtin one.
   */
  ghost predicate IsListing(r: Response, modules: map<string, Impl>, entry: Impl -> Entry)
  {
    && r.status == 0 && r.body.Modules?
    && |r.body.entries| == |modules| + 1
    && r.body.entries[0] == BuiltinEntry
    && exists order :: ListedInOrder(r.body.entries[1..], modules, entry, order)
  }

  /**
   * `entries` are the entries of the modules in key order `order`, which
   * names every key of `modules` and, being no longer than the key set,
   * names each exactly once.
   */
  ghost predicate ListedInOrder(entries: seq<Entry>, modules: map<string, Impl>, entry: Impl -> Entry, order: seq<string>)
  {
    && |order| == |modules| == |entries|
    && (forall k :: k in modules ==> k in order)
    && (forall j :: 0 <= j < |order| ==> order[j] in modules && entries[j] == entry(modules[order[j]]))
  }

  /** A listing shows every module, and shows nothing but modules after the builtin entry. */
  lemma ListingCovers(r: Response, modules: map<string, Impl>, entry: Impl -> Entry)
    requires IsListing(r, modules, entry)
    ensures forall k :: k in modules ==> entry(modules[k]) in r.body.entries[1..]
    ensures forall i :: 1 <= i < |r.body.entries| ==> exists k :: k in modules && r.body.entries[i] == entry(modules[k])
  {
    var rest := r.body.entries[1..];
    var order :| ListedInOrder(rest, modules, entry, order);
    forall k | k in modules ensures entry(modules[k]) in rest {
      var j :| 0 <= j < |order| && order[j] == k;
      assert rest[j] == entry(modules[k]);
    }
    forall i | 1 <= i < |r.body.entries| ensures exists k :: k in modules && r.body.entries[i] == entry(modules[k]) {
      assert rest[i - 1] == r.body.entries[i];
      assert order[i - 1] in modules && rest[i - 1] == entry(modules[order[i - 1]]);
    }
  }

  /** An envelope that lists the modules of `order`, every key once, after the builtin entry, is a listing. */
  lemma ListingOf(r: Response, modules: map<string, Impl>, entry: Impl -> Entry, order: seq<string>)
    requires r.status == 0 && r.body.Modules?
    requires |r.body.entries| == 1 + |modules| == 1 + |order|
    requires r.body.entries[0] == BuiltinEntry
    requires forall j :: 0 <= j < |order| ==> order[j] in modules && r.body.entries[j + 1] == entry(modules[order[j]])
    requires forall k :: k in modules ==> k in order
    ensures IsListing(r, modules, entry)
  {
    var rest := r.body.entries[1..];
    assert forall j :: 0 <= j < |rest| ==> rest[j] == r.body.entries[j + 1];
    assert ListedInOrder(rest, modules, entry, order);
  }
}
