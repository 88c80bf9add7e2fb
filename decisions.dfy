/** The small decision rules of lib/server.js: broken-pipe suppression on the raw socket and
    the choice of endpoint in `connect` and `listen`. */
module Decisions {
  import opened Common

  /** What the raw socket's `error` handler does with the error it receives. */
  datatype Disposition = Swallow | Reemit(err: Option<Error>)

  /** `err && err.code === 'EPIPE'`; a missing error is `None`. */
  predicate IsBrokenPipe(err: Option<Error>) {
    err.Some? && err.value.code == Some("EPIPE")
  }

  /** Broken pipes are eaten; anything else, a missing error included, is re-emitted on the
      session exactly as received. */
  function SocketErrorRule(err: Option<Error>): (d: Disposition)
    ensures d.Swallow? <==> IsBrokenPipe(err)
    ensures d.Reemit? ==> d.err == err
  {
    match err
    case Some(e) => if e.code == Some("EPIPE") then Swallow else Reemit(err)
    case None => Reemit(None)
  }

  /** The normalised arguments of `connect` and `listen`: `port` when a number was given,
      `path` and `host` when strings were given, `block` when a callback was given. */
  datatype Params = Params(port: Option<int>, path: Option<string>, host: Option<string>, block: bool)

  datatype Endpoint = UnixPath(path: string) | Tcp(port: int, host: Option<string>)

  datatype ConfigError =
    | NoPortOrPath     // "no port or unix path given" / "no port or path provided"
    | PortNotANumber   // the failed `assert('number' === typeof port)` of `listen`

  /** JavaScript truthiness of `params.path`: present and not the empty string. */
  predicate PathGiven(p: Params) {
    p.path.Some? && p.path.value != ""
  }

  /** JavaScript truthiness of `params.port`: present and not zero. */
  predicate PortGiven(p: Params) {
    p.port.Some? && p.port.value != 0
  }

  /** `connect`: a path wins, then a port (with the host); neither is a configuration error. */
  function ConnectEndpoint(p: Params): (r: Result<Endpoint, ConfigError>)
    ensures r.Ok? <==> PathGiven(p) || PortGiven(p)
    ensures r.Ok? && r.value.UnixPath? <==> PathGiven(p)
    ensures r.Err? ==> r.error == NoPortOrPath
    ensures r.Ok? ==> Supplied(p, r.value)
  {
    if PathGiven(p) then Ok(UnixPath(p.path.value))
    else if PortGiven(p) then Ok(Tcp(p.port.value, p.host))
    else Err(NoPortOrPath)
  }

  /** `listen`: the first argument must be a number; then a non-negative port wins (with the
      host), then a path; neither is a configuration error. */
  function ListenEndpoint(firstIsNumber: bool, p: Params): (r: Result<Endpoint, ConfigError>)
    ensures !firstIsNumber ==> r == Err(PortNotANumber)
    ensures firstIsNumber ==> (r.Ok? <==> (p.port.Some? && p.port.value >= 0) || PathGiven(p))
    ensures firstIsNumber ==> (r.Ok? && r.value.Tcp? <==> p.port.Some? && p.port.value >= 0)
    ensures firstIsNumber && r.Err? ==> r.error == NoPortOrPath
    ensures r.Ok? ==> Supplied(p, r.value)
  {
    if !firstIsNumber then Err(PortNotANumber)
    else if p.port.Some? && p.port.value >= 0 then Ok(Tcp(p.port.value, p.host))
    else if PathGiven(p) then Ok(UnixPath(p.path.value))
    else Err(NoPortOrPath)
  }

  /** The endpoint's address is one the caller supplied. */
  predicate Supplied(p: Params, e: Endpoint) {
    match e
    case UnixPath(path) => p.path == Some(path)
    case Tcp(port, host) => p.port == Some(port) && p.host == host
  }

  /** The two rules rank the addressing modes oppositely: given both a usable port and a path,
      `connect` dials the path and `listen` binds the port. */
  lemma OppositePreferences(p: Params)
    requires PathGiven(p) && PortGiven(p) && p.port.value > 0
    ensures ConnectEndpoint(p) == Ok(UnixPath(p.path.value))
    ensures ListenEndpoint(true, p) == Ok(Tcp(p.port.value, p.host))
  {
  }

  /** Port 0 is no port at all to `connect` but an ordinary port to `listen`. */
  lemma PortZero(host: Option<string>)
    ensures ConnectEndpoint(Params(Some(0), None, host, false)) == Err(NoPortOrPath)
    ensures ListenEndpoint(true, Params(Some(0), None, host, false)) == Ok(Tcp(0, host))
  {
  }
}
