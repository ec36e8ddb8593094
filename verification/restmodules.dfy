/**
 * The REST module dispatcher of modules/modules.go: the third segment of the
 * path names a builtin action (list, info, help) or a module loaded from
 * `<ModulesLocation>/<key>.so`, and the HTTP verb decides which of the two
 * is consulted. A POST never reaches anything: its case is empty and Go
 * does not fall through, so it ends with "Invalid operation".
 */
module RestModules {
  import opened Common
  import opened Plugins

  const NameSymbol: string := "Name"
  const VersionSymbol: string := "Version"
  const ModuleSymbol: string := "Module"
  const InvalidPluginFile: string := "Invalid plugin file"

  /**
   * loadModule: open the plugin, check that it exports Name, Version and a
   * Module that is a modules.RestModule. Every failure is "Invalid plugin file".
   */
  function LoadModule(file: string, open: Loader): (r: Option<Impl>)
    ensures r.Some? <==>
      && open(file).Some?
      && NameSymbol in open(file).value && VersionSymbol in open(file).value && ModuleSymbol in open(file).value
      && Assert(open(file).value[ModuleSymbol], PlainRestModule).Some?
    ensures r.Some? ==> open(file).value[ModuleSymbol] == Object(r.value) && PlainRestModule in r.value.ifaces
  {
    match open(file)
    case None => None
    case Some(p) =>
      if Lookup(p, NameSymbol).None? || Lookup(p, VersionSymbol).None? || Lookup(p, ModuleSymbol).None? then None
      else Assert(p[ModuleSymbol], PlainRestModule)
  }

  /**
   * The segments of the path after its leading '/', or None when the path is
   * empty and the slice Path[1:] panics.
   */
  function Segments(path: string): (parts: Option<seq<string>>)
    ensures parts.None? <==> path == ""
    ensures parts.Some? ==> parts.value == Split(path[1..], '/') && |parts.value| == Count(path[1..], '/') + 1
  {
    if path == "" then None
    else
      SplitLength(path[1..], '/');
      Some(Split(path[1..], '/'))
  }

  /** Where ModuleHandle sends a request. */
  datatype Target =
    | NoPath                          // empty path: the slice panics
    | TooShort                        // fewer than three segments
    | Builtin(action: BuiltinAction)  // a GET of list, info or help
    | Load(key: string)               // the module <key>.so is loaded
    | Nothing                         // a POST: the empty case

  /**
   * The routing decision of ModuleHandle: the third segment is the key; a
   * GET serves list/info/help itself and loads anything else, a POST does
   * nothing, and every other verb loads the key.
   */
  function Dispatch(req: Request): (t: Target)
    ensures t == NoPath <==> req.path == ""
    ensures req.path != "" ==>
      var parts := Split(req.path[1..], '/');
      && (t == TooShort <==> |parts| < 3)
      && (|parts| >= 3 ==>
            && (req.verb == "POST" <==> t == Nothing)
            && (t.Builtin? <==> req.verb == "GET" && parts[2] in {"list", "info", "help"})
            && (req.verb == "GET" && parts[2] == "list" ==> t == Builtin(ListAction))
            && (req.verb == "GET" && parts[2] == "info" ==> t == Builtin(InfoAction))
            && (req.verb == "GET" && parts[2] == "help" ==> t == Builtin(HelpAction))
            && (t.Load? ==> t.key == parts[2]))
  {
    match Segments(req.path)
    case None => NoPath
    case Some(parts) =>
      if |parts| < 3 then TooShort
      else
        var key := parts[2];
        if req.verb == "GET" then
          if key == "list" then Builtin(ListAction)
          else if key == "info" then Builtin(InfoAction)
          else if key == "help" then Builtin(HelpAction)
          else Load(key)
        else if req.verb == "POST" then Nothing
        else Load(key)
  }

  /** A path needs two slashes after the leading one to have three segments. */
  lemma ThreeSegmentsNeedTwoSlashes(req: Request)
    requires req.path != ""
    ensures Dispatch(req) == TooShort <==> Count(req.path[1..], '/') < 2
  {
    SplitLength(req.path[1..], '/');
  }

  /** No POST reaches a module or a builtin action. */
  lemma PostNeverDispatches(req: Request)
    requires req.verb == "POST"
    ensures !Dispatch(req).Load? && !Dispatch(req).Builtin?
  {
  }

  /**
   * moduleInfo and moduleHelp first check the path: None when it is empty
   * (panic), Some(false) when it has fewer than three segments.
   */
  function PathAccepted(path: string): (ok: Option<bool>)
    ensures ok.None? <==> path == ""
    ensures ok.Some? ==> (ok.value <==> |Split(path[1..], '/')| >= 3)
  {
    match Segments(path)
    case None => None
    case Some(parts) => Some(|parts| >= 3)
  }

  /**
   * moduleInfo: after the path check, an empty `module` parameter gives the
   * builtin text, a loadable module its Info(), anything else an error.
   */
  function ModuleInfo(req: Request, location: string, open: Loader): (o: Outcome)
    ensures PathAccepted(req.path) == None ==> o == Panicked
    ensures PathAccepted(req.path) == Some(false) ==> o == Failed(InvalidOperation)
    ensures PathAccepted(req.path) == Some(true) ==>
      var name := QueryGet(req, "module");
      && (name == "" ==> o == Wrote(Response(0, Info(BuiltinInfo))))
      && (name != "" ==>
            match LoadModule(PluginPath(location, name), open)
            case Some(m) => o == Wrote(Response(0, Info(m.info)))
            case None => o.Wrote? && o.response.status == -1 && o.response.body.Error?)
  {
    match PathAccepted(req.path)
    case None => Panicked
    case Some(false) => Failed(InvalidOperation)
    case Some(true) =>
      var name := QueryGet(req, "module");
      if name == "" then Wrote(Response(0, Info(BuiltinInfo)))
      else match LoadModule(PluginPath(location, name), open)
        case Some(m) => Wrote(Response(0, Info(m.info)))
        case None => Wrote(Response(-1, Error("Error module does not exits " + Quote(name) + "\n")))
  }

  /**
   * moduleHelp: after the path check, an empty `module` has help for "list"
   * and "info" only; a loadable module answers Help(action); anything else
   * is an error.
   */
  function ModuleHelp(req: Request, location: string, open: Loader): (o: Outcome)
    ensures PathAccepted(req.path) == None ==> o == Panicked
    ensures PathAccepted(req.path) == Some(false) ==> o == Failed(InvalidOperation)
    ensures PathAccepted(req.path) == Some(true) ==>
      var name, action := QueryGet(req, "module"), QueryGet(req, "action");
      && o.Wrote?
      && (name == "" ==> (o.response.status == 0 <==> action == "list" || action == "info"))
      && (name == "" && action == "list" ==> o.response == Response(0, Help(ListHelp)))
      && (name == "" && action == "info" ==> o.response == Response(0, Help(InfoHelp)))
      && (name != "" ==>
            match LoadModule(PluginPath(location, name), open)
            case Some(m) => o.response == Response(0, Help(m.Help(action)))
            case None => o.response.status == -1)
      && (o.response.status == -1 ==> o.response.body.Error?)
  {
    match PathAccepted(req.path)
    case None => Panicked
    case Some(false) => Failed(InvalidOperation)
    case Some(true) =>
      var name, action := QueryGet(req, "module"), QueryGet(req, "action");
      var failure := Wrote(Response(-1, Error("Error module or action does not exits " + Quote(name) + "\n")));
      if name == "" then
        if action == "list" then Wrote(Response(0, Help(ListHelp)))
        else if action == "info" then Wrote(Response(0, Help(InfoHelp)))
        else failure
      else match LoadModule(PluginPath(location, name), open)
        case Some(m) => Wrote(Response(0, Help(m.Help(action))))
        case None => failure
  }

  /**
   * listModules: walks the plugin directory, but compares filepath.Ext (which
   * keeps the dot) with "so", so every file is skipped; the reply carries
   * Status -1 and only the builtin entry.
   */
  method ListModules(entries: seq<WalkEntry>, open: Loader) returns (o: Outcome)
    ensures o == Wrote(Response(-1, Modules([BuiltinEntry])))
  {
    var modules := [BuiltinEntry];
    var i := 0;
    while i < |entries|
      invariant 0 <= i <= |entries|
      invariant modules == [BuiltinEntry]
    {
      var e := entries[i];
      if !e.statError && !e.isDir && Ext(e.name) == "so" {
        match LoadModule(JoinPath(e.path, e.name), open) {
          case Some(m) => modules := modules + [Entry(m.name, m.version, None)];
          case None =>
        }
      }
      i := i + 1;
    }
    o := Wrote(Response(-1, Modules(modules)));
  }

  /**
   * ModuleHandle: runs the builtin action or hands the request to the loaded
   * module as Dispatch decides; a module that does not load, a short path and
   * a POST all end in "Invalid operation".
   */
  method ModuleHandle(req: Request, location: string, entries: seq<WalkEntry>, open: Loader) returns (o: Outcome)
    ensures match Dispatch(req)
      case NoPath => o == Panicked
      case TooShort => o == Failed(InvalidOperation)
      case Nothing => o == Failed(InvalidOperation)
      case Builtin(ListAction) => o == Wrote(Response(-1, Modules([BuiltinEntry])))
      case Builtin(InfoAction) => o == ModuleInfo(req, location, open)
      case Builtin(HelpAction) => o == ModuleHelp(req, location, open)
      case Load(key) =>
        (o == Delegated(key) <==> LoadModule(PluginPath(location, key), open).Some?) &&
        (o != Delegated(key) ==> o == Failed(InvalidOperation))
  {
    match Dispatch(req) {
      case NoPath => o := Panicked;
      case TooShort => o := Failed(InvalidOperation);
      case Nothing => o := Failed(InvalidOperation);
      case Builtin(action) =>
        match action {
          case ListAction => o := ListModules(entries, open);
          case InfoAction => o := ModuleInfo(req, location, open);
          case HelpAction => o := ModuleHelp(req, location, open);
        }
      case Load(key) =>
        if LoadModule(PluginPath(location, key), open).Some? {
          o := Delegated(key);   // module.HandleRequest(w, r)
        } else {
          o := Failed(InvalidOperation);
        }
    }
  }
}
