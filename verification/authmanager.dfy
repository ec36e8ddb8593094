/**
 * The authentication dispatcher of core/authmanager.go: the `/auth/` endpoint
 * routes its first path segment to the builtin actions signin and refresh,
 * both of which accept the request without writing anything.
 */
module AuthManager {
  import opened Common

  /** The builtin authentication actions. */
  datatype AuthAction = Signin | Refresh

  /** The action table installed by GetAuthManager. */
  const DefaultAuthActions: map<string, AuthAction> :=
    map["signin" := Signin, "refresh" := Refresh]

  /** The length of "/auth/": the path is sliced there without a length check. */
  const AuthPrefix: nat := 6

  /** core.AuthManager. */
  class AuthManager {
    var authActions: map<string, AuthAction>

    /** The construction done once by GetAuthManager: the signin/refresh table. */
    constructor ()
      ensures authActions == DefaultAuthActions
    {
      authActions := DefaultAuthActions;
    }

    /**
     * HandleRequest. A path shorter than "/auth/" makes the slice panic; the
     * first segment after it selects an action, which returns nil; any other
     * segment is an invalid operation.
     */
    function HandleRequest(req: Request): (o: Outcome)
      reads this
      ensures |req.path| < AuthPrefix <==> o == Panicked
      ensures |req.path| >= AuthPrefix ==>
        (o == Silent <==> FirstSegment(req.path[AuthPrefix..], '/') in authActions)
      ensures o == Silent || o == Panicked || o == Failed(InvalidOperation)
    {
      if |req.path| < AuthPrefix then Panicked
      else if Split(req.path[AuthPrefix..], '/')[0] in authActions then Silent
      else Failed(InvalidOperation)
    }
  }

  /**
   * With the default table, "/auth/signin" and "/auth/refresh" (followed by
   * anything after a slash) succeed, and any other slash-free word fails.
   */
  lemma {:induction false} AuthRoutes(m: AuthManager, word: string, rest: string, verb: string, query: map<string, string>)
    requires m.authActions == DefaultAuthActions
    requires !HasChar(word, '/')
    ensures m.HandleRequest(Request(verb, "/auth/" + word + "/" + rest, query)) ==
      if word == "signin" || word == "refresh" then Silent else Failed(InvalidOperation)
    ensures m.HandleRequest(Request(verb, "/auth/" + word, query)) ==
      if word == "signin" || word == "refresh" then Silent else Failed(InvalidOperation)
  {
    FirstSegmentOf(word, rest, '/');
    assert ("/auth/" + word + "/" + rest)[AuthPrefix..] == word + ['/'] + rest;
    assert ("/auth/" + word)[AuthPrefix..] == word;
  }

  /** The package-level `auth` guarded by `authSync`. */
  class AuthPackage {
    var auth: AuthManager?

    constructor ()
      ensures auth == null
    {
      auth := null;
    }

    /** GetAuthManager: builds the manager with the signin/refresh table once, then returns that same instance. */
    method GetAuthManager() returns (m: AuthManager)
      modifies this
      ensures auth == m
      ensures old(auth) != null ==> m == old(auth)
      ensures old(auth) == null ==> fresh(m) && m.authActions == DefaultAuthActions
    {
      if auth == null {
        auth := new AuthManager();
      }
      m := auth;
    }
  }
}
