/**
 * The request dispatcher of core/apimanager.go: the `/api/` endpoint routes
 * its first path segment to a builtin action (list, info, help) or to an API
 * handler registered in the module registry.
 */
module ApiManager {
  import opened Common
  import opened Plugins
  import Registry

  /** The builtin action table installed by GetAPIManager. */
  const DefaultActions: map<string, BuiltinAction> :=
    map["list" := ListAction, "info" := InfoAction, "help" := HelpAction]

  /** The length of "/api/": everything after it is split on '/'. */
  const Prefix: nat := 5

  /** Where HandleRequest sends a request. */
  datatype Route =
    | NoModule                      // the path is shorter than "/api/"
    | Builtin(action: BuiltinAction)
    | ToModule(key: string, handler: Impl)
    | Invalid                       // neither a builtin nor a registered module

  /** The listing entry of a registered API handler: name, version and endpoint. */
  function ApiEntry(m: Impl): (e: Entry)
  {
    Entry(m.name, m.version, Some(m.endpoint))
  }

  /**
   * infoAction: an empty `module` parameter describes the builtin namespace,
   * a registered handler gives its Info(), anything else is an error.
   */
  function InfoReply(req: Request, registry: Registry.ModulesManager): (r: Response)
    reads registry
    ensures var moduleName := QueryGet(req, "module");
      && (moduleName == "" ==> r == Response(0, Common.Info(BuiltinInfo)))
      && (moduleName != "" && moduleName in registry.apiModules ==>
            r == Response(0, Common.Info(registry.apiModules[moduleName].info)))
      && (moduleName != "" && moduleName !in registry.apiModules ==> r.status == -1 && r.body.Error?)
  {
    var moduleName := QueryGet(req, "module");
    if moduleName == "" then Response(0, Common.Info(BuiltinInfo))
    else match registry.GetAPIModule(moduleName)
      case Some(m) => Response(0, Common.Info(m.info))
      case None => Response(-1, Error("Error module does not exits " + Quote(moduleName) + "\n"))
  }

  /**
   * helpAction: with an empty `module` only the actions "list" and "info"
   * have help (not even "help" itself); a registered handler answers
   * Help(action) for any action; anything else is an error.
   */
  function HelpReply(req: Request, registry: Registry.ModulesManager): (r: Response)
    reads registry
    ensures var moduleName, action := QueryGet(req, "module"), QueryGet(req, "action");
      && (moduleName == "" ==> (r.status == 0 <==> action == "list" || action == "info"))
      && (moduleName == "" && action == "list" ==> r == Response(0, Help(ListHelp)))
      && (moduleName == "" && action == "info" ==> r == Response(0, Help(InfoHelp)))
      && (moduleName != "" && moduleName in registry.apiModules ==>
            r == Response(0, Help(registry.apiModules[moduleName].Help(action))))
      && (moduleName != "" && moduleName !in registry.apiModules ==> r.status == -1)
      && (r.status == -1 ==> r.body.Error?)
  {
    var moduleName, action := QueryGet(req, "module"), QueryGet(req, "action");
    var failure := Response(-1, Error("Error module or action does not exits " + Quote(moduleName) + "\n"));
    if moduleName == "" then
      if action == "list" then Response(0, Help(ListHelp))
      else if action == "info" then Response(0, Help(InfoHelp))
      else failure
    else match registry.GetAPIModule(moduleName)
      case Some(m) => Response(0, Help(m.Help(action)))
      case None => failure
  }

  /** Builtin help for the "help" action itself does not exist. */
  lemma NoHelpForHelp(req: Request, registry: Registry.ModulesManager)
    requires QueryGet(req, "module") == "" && QueryGet(req, "action") == "help"
    ensures HelpReply(req, registry).status == -1
  {
  }

  /** core.APIManager. */
  class APIManager {
    var apiActions: map<string, BuiltinAction>

    /** The construction done once by GetAPIManager: the list/info/help table. */
    constructor ()
      ensures apiActions == DefaultActions
    {
      apiActions := DefaultActions;
    }

    /**
     * The routing decision of HandleRequest. The key is the first segment
     * after "/api/"; the builtin table is consulted before the registry.
     */
    function Route(path: string, registry: Registry.ModulesManager): (r: Route)
      reads this, registry
      ensures |path| < Prefix <==> r == NoModule
      ensures |path| >= Prefix ==>
        var key := FirstSegment(path[Prefix..], '/');
        && (r.Builtin? <==> key in apiActions)
        && (r.Builtin? ==> r.action == apiActions[key])
        && (r.ToModule? <==> key !in apiActions && key in registry.apiModules)
        && (r.ToModule? ==> r.key == key && r.handler == registry.apiModules[key])
    {
      if |path| < Prefix then NoModule
      else
        // strings.Split never returns an empty slice, so the source's
        // `len(parts) == 0` check cannot fire.
        var key := Split(path[Prefix..], '/')[0];
        if key in apiActions then Builtin(apiActions[key])
        else match registry.GetAPIModule(key)
          case Some(m) => ToModule(key, m)
          case None => Invalid
    }

    /** listAction: the builtin entry followed by one entry per registered API handler. */
    method List(registry: Registry.ModulesManager) returns (r: Response)
      ensures IsListing(r, registry.apiModules, ApiEntry)
    {
      var modules := registry.GetAPIModules();
      var entries := [BuiltinEntry];
      var remaining := modules.Keys;
      ghost var done: set<string> := {};
      ghost var order: seq<string> := [];
      while remaining != {}
        invariant remaining !! done && remaining + done == modules.Keys
        invariant |entries| == 1 + |done| == 1 + |order|
        invariant entries[0] == BuiltinEntry
        invariant forall j :: 0 <= j < |order| ==> order[j] in done && entries[j + 1] == ApiEntry(modules[order[j]])
        invariant forall k :: k in done ==> k in order
        decreases remaining
      {
        var k :| k in remaining;
        entries := entries + [ApiEntry(modules[k])];
        remaining := remaining - {k};
        done := done + {k};
        order := order + [k];
      }
      r := Response(0, Modules(entries));
      ListingOf(r, modules, ApiEntry, order);
    }

    /**
     * HandleRequest: runs the builtin action, hands the request to the
     * registered handler, or fails; an unknown key is never a success.
     */
    method HandleRequest(req: Request, registry: Registry.ModulesManager) returns (o: Outcome)
      ensures var route := Route(req.path, registry);
        && (route == NoModule ==> o == Failed(NoModuleCalled))
        && (route == Builtin(ListAction) ==> o.Wrote? && IsListing(o.response, registry.apiModules, ApiEntry))
        && (route == Builtin(InfoAction) ==> o == Wrote(InfoReply(req, registry)))
        && (route == Builtin(HelpAction) ==> o == Wrote(HelpReply(req, registry)))
        && (route.ToModule? ==> o == Delegated(route.key))
        && (route == Invalid ==> o == Failed(InvalidOperation))
    {
      match Route(req.path, registry) {
        case NoModule => o := Failed(NoModuleCalled);
        case Builtin(action) =>
          match action {
            case ListAction =>
              var r := List(registry);
              o := Wrote(r);
            case InfoAction => o := Wrote(InfoReply(req, registry));
            case HelpAction => o := Wrote(HelpReply(req, registry));
          }
        case ToModule(key, _) => o := Delegated(key);
        case Invalid => o := Failed(InvalidOperation);
      }
    }
  }

  /** With the builtin table, a builtin name wins over a module registered under the same key. */
  lemma {:induction false} BuiltinShadowsModule(api: APIManager, registry: Registry.ModulesManager, word: string, rest: string)
    requires api.apiActions == DefaultActions
    requires word in DefaultActions
    ensures api.Route("/api/" + word + "/" + rest, registry) == Builtin(DefaultActions[word])
    ensures api.Route("/api/" + word, registry) == Builtin(DefaultActions[word])
  {
    assert !HasChar(word, '/');
    FirstSegmentOf(word, rest, '/');
    assert ("/api/" + word + "/" + rest)[Prefix..] == word + ['/'] + rest;
    assert ("/api/" + word)[Prefix..] == word;
  }

  /**
   * The dispatch key is the first segment after "/api/": a slash-free word
   * that is neither builtin nor registered makes the request fail.
   */
  lemma {:induction false} UnknownKeyIsInvalid(api: APIManager, registry: Registry.ModulesManager, word: string, rest: string)
    requires !HasChar(word, '/') && word !in api.apiActions && word !in registry.apiModules
    ensures api.Route("/api/" + word + "/" + rest, registry) == Invalid
  {
    FirstSegmentOf(word, rest, '/');
    assert ("/api/" + word + "/" + rest)[Prefix..] == word + ['/'] + rest;
  }

  /** The package-level `api` guarded by `apiSync`. */
  class ApiPackage {
    var api: APIManager?

    constructor ()
      ensures api == null
    {
      api := null;
    }

    /** GetAPIManager: builds the manager with the list/info/help table once, then returns that same instance. */
    method GetAPIManager() returns (m: APIManager)
      modifies this
      ensures api == m
      ensures old(api) != null ==> m == old(api)
      ensures old(api) == null ==> fresh(m) && m.apiActions == DefaultActions
    {
      if api == null {
        api := new APIManager();
      }
      m := api;
    }
  }
}
