/**
 * The endpoint table of core/server.go: handlers registered by URL, requests
 * dispatched on their first path segment, the error envelope written when no
 * handler accepts a request, and the choice of listener from the socket
 * scheme.
 */
module Server {
  import opened Common

  /** The envelope ServeHTTP writes when no registered handler accepted the request. */
  const ProcessingError: Response := Response(-1, Error("Error, processing request\n"))

  const UnixScheme: string := "unix://"
  const TcpScheme: string := "tcp://"
  const InvalidSocket: string := "Invalid socket"

  /** The endpoint names registered by Initialize (AuthEndpoint and APIEndpoint). */
  const AuthEndpoint: string := "auth"
  const ApiEndpoint: string := "api"

  /** What ServeHTTP did with one request, for handlers of type H. */
  datatype Served<H> =
    | Aborted                                      // empty path: the slice Path[1:] panics
    | Handled(handler: H)                          // the handler returned nil; nothing more is written
    | Rejected(tried: Option<H>, envelope: Response) // unknown endpoint, or the handler returned an error

  /**
   * The decision of ServeHTTP over an endpoint table. `accepts(h)` is whether
   * handler h returns nil for this request.
   */
  function Dispatch<H(==)>(endpoints: map<string, H>, path: string, accepts: H -> bool): (s: Served<H>)
    ensures s == Aborted <==> path == ""
    ensures path != "" ==>
      var key := FirstSegment(path[1..], '/');
      && (s.Handled? <==> key in endpoints && accepts(endpoints[key]))
      && (s.Handled? ==> s.handler == endpoints[key])
      && (s.Rejected? ==> s.envelope == ProcessingError)
      && (s.Rejected? && key in endpoints ==> s.tried == Some(endpoints[key]))
      && (s.Rejected? && key !in endpoints ==> s.tried == None)
  {
    if path == "" then Aborted
    else
      // strings.Split never returns an empty slice, so `len(parts) != 0` always holds.
      var key := Split(path[1..], '/')[0];
      if key in endpoints then
        var h := endpoints[key];
        if accepts(h) then Handled(h) else Rejected(Some(h), ProcessingError)
      else Rejected(None, ProcessingError)
  }

  /** A request for "/<url>" or "/<url>/<rest>" reaches the handler registered for url, whatever else is registered. */
  lemma {:induction false} DispatchReachesRegistered<H>(endpoints: map<string, H>, url: string, h: H, rest: string, accepts: H -> bool)
    requires !HasChar(url, '/')
    ensures Dispatch(endpoints[url := h], "/" + url + "/" + rest, accepts) ==
      if accepts(h) then Handled(h) else Rejected(Some(h), ProcessingError)
    ensures Dispatch(endpoints[url := h], "/" + url, accepts) ==
      if accepts(h) then Handled(h) else Rejected(Some(h), ProcessingError)
  {
    FirstSegmentOf(url, rest, '/');
    assert ("/" + url + "/" + rest)[1..] == url + ['/'] + rest;
    assert ("/" + url)[1..] == url;
  }

  /** The listener Initialize starts. */
  datatype Listener = UnixSocket(file: string) | Tcp(address: string) | TcpTls(address: string)

  /**
   * The socket-scheme choice of Initialize: "unix://" selects a Unix socket,
   * "tcp://" a TCP socket (with TLS when configured); every occurrence of the
   * scheme is removed from the socket to give the file or address. Anything
   * else is an invalid socket.
   */
  function SelectListener(socket: string, useTls: bool): (l: Option<Listener>)
    ensures l.None? <==> !HasPrefix(socket, UnixScheme) && !HasPrefix(socket, TcpScheme)
    ensures HasPrefix(socket, UnixScheme) ==> l == Some(UnixSocket(RemoveAll(socket, UnixScheme)))
    ensures !HasPrefix(socket, UnixScheme) && HasPrefix(socket, TcpScheme) ==>
      l == Some(if useTls then TcpTls(RemoveAll(socket, TcpScheme)) else Tcp(RemoveAll(socket, TcpScheme)))
  {
    if HasPrefix(socket, UnixScheme) then Some(UnixSocket(RemoveAll(socket, UnixScheme)))
    else if HasPrefix(socket, TcpScheme) then
      var addr := RemoveAll(socket, TcpScheme);
      Some(if useTls then TcpTls(addr) else Tcp(addr))
    else None
  }

  /**
   * The scheme is stripped off: "unix://<file>" listens on <file> and
   * "tcp://<addr>" on <addr>, when the rest does not itself contain the scheme.
   */
  lemma SchemeIsStripped(rest: string, useTls: bool)
    ensures !Contains(rest, UnixScheme) ==> SelectListener(UnixScheme + rest, useTls) == Some(UnixSocket(rest))
    ensures !Contains(rest, TcpScheme) ==>
      SelectListener(TcpScheme + rest, useTls) == Some(if useTls then TcpTls(rest) else Tcp(rest))
  {
    assert HasPrefix(UnixScheme + rest, UnixScheme);
    assert HasPrefix(TcpScheme + rest, TcpScheme);
    assert !HasPrefix(TcpScheme + rest, UnixScheme) by {
      assert (TcpScheme + rest)[0] == 't';
    }
    if !Contains(rest, UnixScheme) {
      RemoveAllOfPrefixed(UnixScheme, rest);
    }
    if !Contains(rest, TcpScheme) {
      RemoveAllOfPrefixed(TcpScheme, rest);
    }
  }

  /** core.RestAPIServer, reduced to its endpoint table; handlers have type H. */
  class RestAPIServer<H(==)> {
    /** serverEndpoints: None while the Go map is still nil. */
    var serverEndpoints: Option<map<string, H>>

    constructor ()
      ensures serverEndpoints == None
    {
      serverEndpoints := None;
    }

    /** The table as lookups see it: a nil map behaves as an empty one. */
    function Endpoints(): (m: map<string, H>)
      reads this
      ensures serverEndpoints.None? ==> m == map[]
      ensures serverEndpoints.Some? ==> m == serverEndpoints.value
    {
      if serverEndpoints.None? then map[] else serverEndpoints.value
    }

    /** APIHandler: creates the table on first use and sets url to handler, replacing an earlier registration. */
    method APIHandler(url: string, handler: H)
      modifies this
      ensures serverEndpoints == Some(old(Endpoints())[url := handler])
    {
      if serverEndpoints.None? {
        serverEndpoints := Some(map[]);
      }
      serverEndpoints := Some(serverEndpoints.value[url := handler]);
    }

    /** ServeHTTP: dispatches the request path over the current table. */
    function ServeHTTP(path: string, accepts: H -> bool): (s: Served<H>)
      reads this
      ensures s == Dispatch(Endpoints(), path, accepts)
      ensures s.Handled? ==> s.handler in Endpoints().Values
    {
      Dispatch(Endpoints(), path, accepts)
    }

    /**
     * The part of Initialize after the configuration is loaded: choose the
     * listener from the socket, start it (`listen` says whether that
     * succeeds), then register the auth and api handlers. Errors from
     * initializing the auth and api endpoints themselves are not checked.
     */
    method Initialize(socket: string, useTls: bool, listen: Listener -> bool, authHandler: H, apiHandler: H)
      returns (err: Option<string>)
      modifies this
      ensures SelectListener(socket, useTls).None? ==> err == Some(InvalidSocket)
      ensures err.None? <==> SelectListener(socket, useTls).Some? && listen(SelectListener(socket, useTls).value)
      ensures err.Some? ==> serverEndpoints == old(serverEndpoints)
      ensures err.None? ==>
        serverEndpoints == Some(old(Endpoints())[AuthEndpoint := authHandler][ApiEndpoint := apiHandler])
    {
      var choice := SelectListener(socket, useTls);
      if choice.None? {
        return Some(InvalidSocket);
      }
      if !listen(choice.value) {
        return Some("listen failed");
      }
      APIHandler(AuthEndpoint, authHandler);
      APIHandler(ApiEndpoint, apiHandler);
      err := None;
    }
  }
}
