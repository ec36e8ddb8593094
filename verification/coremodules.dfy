/**
 * The service-module dispatcher of core/modules.go: requests name a module
 * and an action; the "builtin" module serves list, info and help, any other
 * module is loaded from `<ModulesLocation>/<module>.so` and handles the
 * request itself. Every reply is a status code and a response body.
 *
 * The ServiceRequest, ServiceModule and ServiceAction declarations are not
 * part of this model; their shape is taken from how core/modules.go uses
 * them.
 */
module CoreModules {
  import opened Common
  import opened Plugins

  const NameSymbol: string := "Name"
  const VersionSymbol: string := "Version"
  const ModuleSymbol: string := "Module"
  const InvalidPluginFile: string := "Invalid plugin file"

  /** The module name that selects the builtin actions. */
  const BuiltinName: string := "builtin"

  /** The builtin action table `builtinActions`. */
  const BuiltinActions: map<string, BuiltinAction> :=
    map["list" := ListAction, "info" := InfoAction, "help" := HelpAction]

  /** A value of the request's `Parameters` map: a string or some other Go value. */
  datatype Param = Str(text: string) | Other

  /** A ServiceRequest: the module addressed, the action asked for, and the parameters. */
  datatype ServiceRequest = ServiceRequest(moduleName: string, action: string, parameters: map<string, Param>)

  /**
   * loadModule: open the plugin, check that it exports Name, Version and a
   * Module that is a ServiceModule. Every failure is "Invalid plugin file".
   */
  function LoadModule(file: string, open: Loader): (r: Option<Impl>)
    ensures r.Some? <==>
      && open(file).Some?
      && NameSymbol in open(file).value && VersionSymbol in open(file).value && ModuleSymbol in open(file).value
      && Assert(open(file).value[ModuleSymbol], ServiceModule).Some?
    ensures r.Some? ==> open(file).value[ModuleSymbol] == Object(r.value) && ServiceModule in r.value.ifaces
  {
    match open(file)
    case None => None
    case Some(p) =>
      if Lookup(p, NameSymbol).None? || Lookup(p, VersionSymbol).None? || Lookup(p, ModuleSymbol).None? then None
      else Assert(p[ModuleSymbol], ServiceModule)
  }

  /** moduleInfo: the builtin text, a loadable module's Info(), or an error. */
  function ModuleInfo(req: ServiceRequest, location: string, open: Loader): (r: Response)
    ensures req.moduleName == BuiltinName ==> r == Response(0, Info("Built-in module"))
    ensures req.moduleName != BuiltinName ==>
      match LoadModule(PluginPath(location, req.moduleName), open)
      case Some(m) => r == Response(0, Info(m.info))
      case None => r.status == -1 && r.body.Error?
  {
    if req.moduleName == BuiltinName then Response(0, Info("Built-in module"))
    else match LoadModule(PluginPath(location, req.moduleName), open)
      case Some(m) => Response(0, Info(m.info))
      case None => Response(-1, Error("Error opening module " + Quote(req.moduleName) + "\n"))
  }

  /**
   * moduleHelp: without an "action" parameter the generic help, whatever the
   * module; a non-string action panics; the builtin module has help for
   * "list" and "info" only; another module answers Help(action) if it loads.
   */
  function ModuleHelp(req: ServiceRequest, location: string, open: Loader): (o: Outcome)
    ensures "action" !in req.parameters ==> o == Wrote(Response(0, Help("Returns help about a specific action")))
    ensures "action" in req.parameters && !req.parameters["action"].Str? ==> o == Panicked
    ensures "action" in req.parameters && req.parameters["action"].Str? ==>
      var action := req.parameters["action"].text;
      && o.Wrote?
      && (req.moduleName == BuiltinName ==>
            (o.response.status == 0 <==> action == "list" || action == "info"))
      && (req.moduleName == BuiltinName && action == "list" ==> o.response == Response(0, Help(ListHelp)))
      && (req.moduleName == BuiltinName && action == "info" ==> o.response == Response(0, Help(InfoHelp)))
      && (req.moduleName != BuiltinName ==>
            match LoadModule(PluginPath(location, req.moduleName), open)
            case Some(m) => o.response == Response(0, Help(m.Help(action)))
            case None => o.response.status == -1)
      && (o.response.status == -1 ==> o.response.body.Error?)
  {
    if "action" !in req.parameters then Wrote(Response(0, Help("Returns help about a specific action")))
    else match req.parameters["action"]
      case Other => Panicked   // the assertion .(string) fails
      case Str(action) =>
        if req.moduleName == BuiltinName then
          if action == "list" then Wrote(Response(0, Help(ListHelp)))
          else if action == "info" then Wrote(Response(0, Help(InfoHelp)))
          else Wrote(Response(-1, Error("Action not available: " + Quote(action))))
        else match LoadModule(PluginPath(location, req.moduleName), open)
          case Some(m) => Wrote(Response(0, Help(m.Help(action))))
          case None => Wrote(Response(-1, Error("Module does not exists: " + Quote(req.moduleName) + "\n")))
  }

  /**
   * listModules: walks the plugin directory, but compares filepath.Ext (which
   * keeps the dot) with "so", so every file is skipped and only the builtin
   * entry is ever listed.
   */
  method ListModules(entries: seq<WalkEntry>, open: Loader) returns (r: Response)
    ensures r == Response(0, Modules([BuiltinEntry]))
  {
    var modules := [BuiltinEntry];
    var i := 0;
    while i < |entries|
      invariant 0 <= i <= |entries|
      invariant modules == [BuiltinEntry]
    {
      var e := entries[i];
      if !e.statError && !e.isDir && Ext(e.name) == "so" {
        match LoadModule(JoinPath(e.path, e.name), open) {
          case Some(m) => modules := modules + [Entry(m.name, m.version, None)];
          case None =>
        }
      }
      i := i + 1;
    }
    r := Response(0, Modules(modules));
  }

  /**
   * ModuleHandle: the builtin module runs one of its actions or reports the
   * action missing; any other module handles the request itself if it loads,
   * otherwise the reply is an error.
   */
  method ModuleHandle(req: ServiceRequest, location: string, entries: seq<WalkEntry>, open: Loader) returns (o: Outcome)
    ensures req.moduleName == BuiltinName && req.action == "list" ==> o == Wrote(Response(0, Modules([BuiltinEntry])))
    ensures req.moduleName == BuiltinName && req.action == "info" ==> o == Wrote(ModuleInfo(req, location, open))
    ensures req.moduleName == BuiltinName && req.action == "help" ==> o == ModuleHelp(req, location, open)
    ensures req.moduleName == BuiltinName && req.action !in BuiltinActions ==>
      o.Wrote? && o.response.status == -1 && o.response.body.Error?
    ensures req.moduleName != BuiltinName ==>
      (o == Delegated(req.moduleName) <==> LoadModule(PluginPath(location, req.moduleName), open).Some?)
    ensures req.moduleName != BuiltinName && LoadModule(PluginPath(location, req.moduleName), open).None? ==>
      o.Wrote? && o.response.status == -1 && o.response.body.Error?
  {
    if req.moduleName == BuiltinName {
      if req.action in BuiltinActions {
        match BuiltinActions[req.action] {
          case ListAction =>
            var r := ListModules(entries, open);
            o := Wrote(r);
          case InfoAction => o := Wrote(ModuleInfo(req, location, open));
          case HelpAction => o := ModuleHelp(req, location, open);
        }
      } else {
        o := Wrote(Response(-1, Error("Error, action " + Quote(req.action) + " does not exits\n")));
      }
      return;
    }
    var m := LoadModule(PluginPath(location, req.moduleName), open);
    if m.Some? {
      o := Delegated(req.moduleName);   // module.Handle(request)
    } else {
      o := Wrote(Response(-1, Error("Error opening module " + Quote(req.moduleName) + "\n")));
    }
  }
}
