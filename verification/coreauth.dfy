/**
 * The older authentication endpoint of core/auth.go: Initialize loads the
 * configured provider plugin and installs the signin/refresh actions only
 * when every step succeeds; HandleRequest dispatches on the first segment
 * after "/auth/".
 */
module CoreAuth {
  import opened Common
  import opened Plugins
  import opened AuthManager

  const ProviderSymbol: string := "CyberoAuthProvider"

  /** The `Auth` part of the server configuration: provider directory, provider name and its settings. */
  datatype AuthConfig = AuthConfig(path: string, provider: string, config: map<string, string>)

  /** The error Initialize returns. */
  datatype AuthFailure = OpenFailed | LookupFailed | ProviderInitFailed

  /** The provider file: path.Join(Path, Provider + ".so"). */
  function ProviderFile(config: AuthConfig): (file: string)
    ensures IsSuffix(config.provider + ".so", file)
    ensures config.path == "" ==> file == config.provider + ".so"
  {
    PluginPath(config.path, config.provider)
  }

  /** How far the provider-loading steps of Initialize get. */
  datatype ProviderStep =
    | OpenError                 // plugin.Open failed
    | LookupError               // the plugin does not export CyberoAuthProvider
    | WrongType                 // the symbol is not a RestAPIAuthProvider; the (nil) lookup error is returned
    | InitError(provider: Impl) // the provider's Initialize failed
    | Installed(provider: Impl) // every step succeeded

  /** The provider-loading steps, in order: open, look up, assert, initialize. */
  function LoadProvider(file: string, open: Loader): (r: ProviderStep)
    ensures r == OpenError <==> open(file).None?
    ensures r == LookupError <==> open(file).Some? && ProviderSymbol !in open(file).value
    ensures r == WrongType <==>
      open(file).Some? && ProviderSymbol in open(file).value &&
      Assert(open(file).value[ProviderSymbol], AuthModule).None?
    ensures (r.InitError? || r.Installed?) ==>
      && open(file).Some? && ProviderSymbol in open(file).value
      && open(file).value[ProviderSymbol] == Object(r.provider)
      && AuthModule in r.provider.ifaces
      && (r.Installed? <==> r.provider.initOk)
  {
    match open(file)
    case None => OpenError
    case Some(p) =>
      match Lookup(p, ProviderSymbol)
      case None => LookupError
      case Some(sym) =>
        match Assert(sym, AuthModule)
        case None => WrongType
        case Some(m) => if m.initOk then Installed(m) else InitError(m)
  }

  /** core.Auth. */
  class Auth {
    /** authActions: empty while the Go map is still nil. */
    var authActions: map<string, AuthAction>
    var authConfig: AuthConfig
    /** authProvider: None while it is nil. */
    var authProvider: Option<Impl>

    /** The zero value `Auth{}`. */
    constructor ()
      ensures authActions == map[] && authConfig == AuthConfig("", "", map[]) && authProvider == None
    {
      authActions := map[];
      authConfig := AuthConfig("", "", map[]);
      authProvider := None;
    }

    /**
     * Initialize: stores the configuration, loads the provider and, only when
     * its Initialize succeeds, installs the signin/refresh table. An open or
     * lookup failure leaves the provider as it was; a wrong-typed symbol
     * clears it and reports success without installing any action.
     */
    method Initialize(config: AuthConfig, open: Loader) returns (err: Option<AuthFailure>)
      modifies this
      ensures authConfig == config
      ensures var step := LoadProvider(ProviderFile(config), open);
        && (err.None? <==> step == WrongType || step.Installed?)
        && (step == OpenError ==> err == Some(OpenFailed))
        && (step == LookupError ==> err == Some(LookupFailed))
        && (step.InitError? ==> err == Some(ProviderInitFailed))
        && (authActions == if step.Installed? then DefaultAuthActions else old(authActions))
        && (authProvider ==
              match step
              case OpenError => old(authProvider)
              case LookupError => old(authProvider)
              case WrongType => None
              case InitError(m) => Some(m)
              case Installed(m) => Some(m))
    {
      authConfig := config;
      var plugin := open(ProviderFile(config));
      if plugin.None? {
        return Some(OpenFailed);
      }
      var sym := Lookup(plugin.value, ProviderSymbol);
      if sym.None? {
        return Some(LookupFailed);
      }
      authProvider := Assert(sym.value, AuthModule);
      if authProvider.None? {
        return None;
      }
      if !authProvider.value.initOk {
        return Some(ProviderInitFailed);
      }
      authActions := DefaultAuthActions;
      err := None;
    }

    /**
     * HandleRequest: a path shorter than "/auth/" makes the slice panic; the
     * first segment after it selects an installed action, which returns nil;
     * anything else is an invalid operation.
     */
    function HandleRequest(req: Request): (o: Outcome)
      reads this
      ensures |req.path| < AuthPrefix <==> o == Panicked
      ensures |req.path| >= AuthPrefix ==>
        (o == Silent <==> FirstSegment(req.path[AuthPrefix..], '/') in authActions)
      ensures o == Silent || o == Panicked || o == Failed(InvalidOperation)
    {
      if |req.path| < AuthPrefix then Panicked
      else if Split(req.path[AuthPrefix..], '/')[0] in authActions then Silent
      else Failed(InvalidOperation)
    }
  }

  /** Before a fully successful Initialize the table is empty, so every request of sufficient length is invalid. */
  lemma UninitializedRejects(a: Auth, req: Request)
    requires a.authActions == map[] && |req.path| >= AuthPrefix
    ensures a.HandleRequest(req) == Failed(InvalidOperation)
  {
  }
}
