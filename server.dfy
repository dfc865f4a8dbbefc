/** The application class of lib/server.js: handler registration, server
    creation with certificate discovery, classification of accepted
    WebSocket connections, and the choice of process role in `start`. */
module Server {
  import opened Js
  import opened Koa
  import Router

  // ---------------------------------------------------------------------
  // Options
  // ---------------------------------------------------------------------

  /** Key or certificate material: given inline, or read from a file by
      `fs.readFileSync` (a Buffer, always truthy). */
  datatype Material = Inline(text: string) | FileContents(file: string)

  /** `key` / `cert` is truthy. */
  predicate Present(m: Option<Material>)
  {
    m.Some? && (m.value.Inline? ==> m.value.text != "")
  }

  datatype Ssl = Ssl(dir: Option<string>, key: Option<Material>, cert: Option<Material>, port: Option<int>, sslOnly: bool)

  /** `option.cluster`: falsy, or truthy with an optional `numCPUs` field (a
      bare `true` or a number has no such field). */
  datatype Cluster = NoCluster | ClusterOn(numCPUs: Option<int>)

  datatype ServerOptions = ServerOptions(port: Option<int>, ssl: Option<Ssl>, cluster: Cluster)

  /** The `option` argument of `server` and `start`: left out (defaults to
      80), `null` (typeof 'object'), a number, or an object. */
  datatype OptionArg = Missing | Null | Scalar(port: int) | Object(options: ServerOptions)

  /** `if (typeof option !== 'object') option = {port: option}`; None for `null`,
      which passes the test and then has no properties to read. */
  function Normalize(arg: OptionArg): Option<ServerOptions>
  {
    match arg
    case Missing => Some(ServerOptions(Some(80), None, NoCluster))
    case Null => None
    case Scalar(p) => Some(ServerOptions(Some(p), None, NoCluster))
    case Object(o) => Some(o)
  }

  /** Reading a property of `null` throws a TypeError. */
  datatype StartError = OptionIsNull

  // ---------------------------------------------------------------------
  // Certificate discovery
  // ---------------------------------------------------------------------

  /** Node's `fs.existsSync`, `fs.readdirSync`, `path.extname` and `path.join`. */
  datatype FileSystem = FileSystem(
    existsSync: string -> bool,
    readdir: string -> seq<string>,
    extname: string -> string,
    join: (string, string) -> string)

  const CertExts: set<string> := {".crt", ".pem"}
  const KeyExts: set<string> := {".key"}

  /** The position of the first listed name with one of the extensions. */
  function FirstWithExt(extname: string -> string, names: seq<string>, exts: set<string>): (r: Option<nat>)
    ensures r.Some? ==> (r.value < |names| && extname(names[r.value]) in exts
      && forall j :: 0 <= j < r.value ==> extname(names[j]) !in exts)
    ensures r.None? ==> forall j :: 0 <= j < |names| ==> extname(names[j]) !in exts
  {
    if |names| == 0 then None
    else
      match FirstWithExt(extname, names[..|names| - 1], exts)
      case Some(i) => Some(i)
      case None => if extname(names[|names| - 1]) in exts then Some(|names| - 1) else None
  }

  /** A credential after the scan: kept when present, else the contents of
      the first listed file with a matching extension, if any. */
  function Filled(fs: FileSystem, dir: string, names: seq<string>, current: Option<Material>, exts: set<string>): Option<Material>
  {
    if Present(current) then current
    else
      match FirstWithExt(fs.extname, names, exts)
      case Some(i) => Some(FileContents(fs.join(dir, names[i])))
      case None => current
  }

  /** One more listed name: it fills the credential exactly when the
      credential is still missing and the name has a matching extension. */
  lemma FilledStep(fs: FileSystem, dir: string, names: seq<string>, i: nat, current: Option<Material>, exts: set<string>)
    requires i < |names|
    ensures Filled(fs, dir, names[..i + 1], current, exts) ==
      if !Present(Filled(fs, dir, names[..i], current, exts)) && fs.extname(names[i]) in exts
      then Some(FileContents(fs.join(dir, names[i])))
      else Filled(fs, dir, names[..i], current, exts)
  {
    assert names[..i + 1][..i] == names[..i];
  }

  /** The directory is scanned only when a credential is missing and it exists. */
  predicate Scans(fs: FileSystem, ssl: Ssl)
  {
    (!Present(ssl.key) || !Present(ssl.cert)) && ssl.dir.Some? && fs.existsSync(ssl.dir.value)
  }

  function SelectedKey(fs: FileSystem, ssl: Ssl): Option<Material>
  {
    if Scans(fs, ssl) then Filled(fs, ssl.dir.value, fs.readdir(ssl.dir.value), ssl.key, KeyExts) else ssl.key
  }

  function SelectedCert(fs: FileSystem, ssl: Ssl): Option<Material>
  {
    if Scans(fs, ssl) then Filled(fs, ssl.dir.value, fs.readdir(ssl.dir.value), ssl.cert, CertExts) else ssl.cert
  }

  /** The scan only fills missing credentials: a supplied key or certificate
      is never replaced; a missing one becomes the first `.key` (respectively
      `.crt` or `.pem`) entry in listing order, or stays missing. */
  lemma SelectionFillsOnly(fs: FileSystem, ssl: Ssl)
    ensures Present(ssl.key) ==> SelectedKey(fs, ssl) == ssl.key
    ensures Present(ssl.cert) ==> SelectedCert(fs, ssl) == ssl.cert
    ensures !Scans(fs, ssl) ==> SelectedKey(fs, ssl) == ssl.key && SelectedCert(fs, ssl) == ssl.cert
    ensures Scans(fs, ssl) && !Present(ssl.cert) ==>
      var names := fs.readdir(ssl.dir.value);
      (|| (SelectedCert(fs, ssl) == ssl.cert && forall j :: 0 <= j < |names| ==> fs.extname(names[j]) !in CertExts)
       || exists i :: (&& 0 <= i < |names| && fs.extname(names[i]) in CertExts
                       && (forall j :: 0 <= j < i ==> fs.extname(names[j]) !in CertExts)
                       && SelectedCert(fs, ssl) == Some(FileContents(fs.join(ssl.dir.value, names[i])))))
    ensures Scans(fs, ssl) && !Present(ssl.key) ==>
      var names := fs.readdir(ssl.dir.value);
      (|| (SelectedKey(fs, ssl) == ssl.key && forall j :: 0 <= j < |names| ==> fs.extname(names[j]) !in KeyExts)
       || exists i :: (&& 0 <= i < |names| && fs.extname(names[i]) in KeyExts
                       && (forall j :: 0 <= j < i ==> fs.extname(names[j]) !in KeyExts)
                       && SelectedKey(fs, ssl) == Some(FileContents(fs.join(ssl.dir.value, names[i])))))
  {
  }

  /** The certificate loop of `server()` (lib/server.js:67-79). */
  method SelectCredentials(fs: FileSystem, ssl: Ssl) returns (key: Option<Material>, cert: Option<Material>)
    ensures key == SelectedKey(fs, ssl) && cert == SelectedCert(fs, ssl)
  {
    key, cert := ssl.key, ssl.cert;
    if !Present(key) || !Present(cert) {
      if ssl.dir.Some? && fs.existsSync(ssl.dir.value) {
        var dir := ssl.dir.value;
        var names := fs.readdir(dir);
        for i := 0 to |names|
          invariant cert == Filled(fs, dir, names[..i], ssl.cert, CertExts)
          invariant key == Filled(fs, dir, names[..i], ssl.key, KeyExts)
        {
          FilledStep(fs, dir, names, i, ssl.cert, CertExts);
          FilledStep(fs, dir, names, i, ssl.key, KeyExts);
          var ext := fs.extname(names[i]);
          assert ext in CertExts <==> ext == ".crt" || ext == ".pem";
          if (ext == ".crt" || ext == ".pem") && !Present(cert) {
            cert := Some(FileContents(fs.join(dir, names[i])));
          } else if ext == ".key" && !Present(key) {
            key := Some(FileContents(fs.join(dir, names[i])));
          }
        }
        assert names[..|names|] == names;
      }
    }
  }

  // ---------------------------------------------------------------------
  // Servers
  // ---------------------------------------------------------------------

  /** What `GraphQL(...)` registers: its mount path and whether its schema has
      a subscription type. */
  datatype GraphqlConfig = GraphqlConfig(path: string, hasSubscriptions: bool)

  datatype Transport = Http | Https

  /** A `WebSocket.Server`: the server it is attached to, the routers its
      connection handler was bound to when `server()` ran (none when it carries
      no handler), whether a subscription server uses it, and the only path it
      accepts, if restricted. */
  datatype WsServer = WsServer(server: Option<Transport>, routers: seq<Router.WebSocketRouter>, subscriptions: bool, onlyPath: Option<string>)

  datatype HttpsServer = HttpsServer(port: int, key: Option<Material>, cert: Option<Material>)

  /** The `servers` object: each entry absent or what was created; `http` is
      the port the HTTP server listens on. */
  datatype Servers = Servers(http: Option<int>, https: Option<HttpsServer>, ws: Option<WsServer>, wss: Option<WsServer>)

  /** `graphql.bindSubscription(server, ws)` (lib/graphql.js:16-35): without a
      subscription type `ws` is returned as it is; otherwise a subscription
      server is attached to `ws`, created on the graphql path when absent. */
  function BindSubscription(g: GraphqlConfig, server: Option<Transport>, ws: Option<WsServer>): (r: Option<WsServer>)
    ensures !g.hasSubscriptions ==> r == ws
    ensures g.hasSubscriptions ==> r.Some? && r.value.subscriptions
    ensures g.hasSubscriptions && ws.Some? ==>
      r.value.server == ws.value.server && r.value.routers == ws.value.routers && r.value.onlyPath == ws.value.onlyPath
    ensures g.hasSubscriptions && ws.None? ==>
      r.value.server == server && r.value.routers == [] && r.value.onlyPath == Some(g.path)
  {
    if !g.hasSubscriptions then ws
    else if ws.None? then Some(WsServer(server, [], true, Some(g.path)))
    else Some(ws.value.(subscriptions := true))
  }

  predicate MakesHttp(opt: ServerOptions)
  {
    opt.ssl.None? || !opt.ssl.value.sslOnly
  }

  /** The servers `server()` creates for normalised options, given the
      WebSocket routers and the graphql handle registered so far. */
  function ServersFor(fs: FileSystem, opt: ServerOptions, routers: seq<Router.WebSocketRouter>, graphql: Option<GraphqlConfig>): Servers
  {
    var http := if MakesHttp(opt) then Some(OrElse(opt.port, 80)) else None;
    var https := match opt.ssl
      case None => None
      case Some(ssl) => Some(HttpsServer(OrElse(ssl.port, 443), SelectedKey(fs, ssl), SelectedCert(fs, ssl)));
    var ws := if |routers| > 0 && http.Some? then Some(WsServer(Some(Http), routers, false, None)) else None;
    var wss := if |routers| > 0 && https.Some? then Some(WsServer(Some(Https), routers, false, None)) else None;
    match graphql
    case None => Servers(http, https, ws, wss)
    case Some(g) =>
      Servers(http, https, BindSubscription(g, if http.Some? then Some(Http) else None, ws),
              if https.Some? then BindSubscription(g, Some(Https), wss) else wss)
  }

  /** An HTTP server is created unless `ssl.sslOnly` is set, on `port` or 80;
      an HTTPS server exactly when `ssl` is given, on `ssl.port` or 443, with
      the selected credentials. With routers registered and no graphql, a
      WebSocket server bound to those routers is attached to each created
      server and to nothing else. A schema with subscriptions always leaves an
      HTTP-side WebSocket server, and one on the HTTPS side exactly when there
      is an HTTPS server, each keeping the routers; a WebSocket server made for
      the subscriptions alone accepts only the graphql path. */
  lemma ServerCreationRules(fs: FileSystem, opt: ServerOptions, routers: seq<Router.WebSocketRouter>, graphql: Option<GraphqlConfig>)
    ensures var s := ServersFor(fs, opt, routers, graphql);
      && (s.http.Some? <==> !(opt.ssl.Some? && opt.ssl.value.sslOnly))
      && (s.http.Some? ==> s.http.value == (if NumTruthy(opt.port) then opt.port.value else 80))
      && (s.https.Some? <==> opt.ssl.Some?)
      && (s.https.Some? ==>
            && s.https.value.port == (if NumTruthy(opt.ssl.value.port) then opt.ssl.value.port.value else 443)
            && s.https.value.key == SelectedKey(fs, opt.ssl.value)
            && s.https.value.cert == SelectedCert(fs, opt.ssl.value))
    ensures graphql.None? ==> var s := ServersFor(fs, opt, routers, graphql);
      && (s.ws.Some? <==> |routers| > 0 && s.http.Some?)
      && (s.wss.Some? <==> |routers| > 0 && s.https.Some?)
      && (s.ws.Some? ==> s.ws.value.routers == routers && s.ws.value.server == Some(Http))
      && (s.wss.Some? ==> s.wss.value.routers == routers && s.wss.value.server == Some(Https))
    ensures graphql.Some? && !graphql.value.hasSubscriptions ==>
      ServersFor(fs, opt, routers, graphql) == ServersFor(fs, opt, routers, None)
    ensures graphql.Some? && graphql.value.hasSubscriptions ==> var s := ServersFor(fs, opt, routers, graphql);
      && s.ws.Some? && s.ws.value.subscriptions
      && s.ws.value.routers == (if s.http.Some? then routers else [])
      && s.ws.value.onlyPath == (if |routers| > 0 && s.http.Some? then None else Some(graphql.value.path))
      && (s.wss.Some? <==> s.https.Some?)
      && (s.wss.Some? ==>
            && s.wss.value.subscriptions && s.wss.value.routers == routers && s.wss.value.server == Some(Https)
            && s.wss.value.onlyPath == (if |routers| > 0 then None else Some(graphql.value.path)))
  {
  }

  // ---------------------------------------------------------------------
  // Connections
  // ---------------------------------------------------------------------

  const GraphqlProtocol := "graphql-ws"
  const NotFoundMessage := "Not Found Websocket path"

  /** How the routers' chain ended when some layer matched, as two independent
      facts: whether the last `next` reached the fallback (at most once, since
      koa-compose rejects a second call of the same `next`), and whether the
      chain finally threw, with the error's message. A handler may do both,
      as `async (ctx, next) => { await next(); throw e }` does. Handler bodies
      are not modelled; this is their outcome. */
  datatype ChainOutcome = ChainOutcome(reachesFallback: bool, thrown: Option<string>)

  /** The outcome of a chain whose last `next` reached the fallback and that
      did not throw, as when every router passes the request through. */
  const FellThrough := ChainOutcome(true, None)

  /** The effects of the connection handler: the router invoked on the
      context, the socket closed, an error emitted on the application. */
  datatype Effect = RunRouters(path: string) | CloseSocket | EmitError(message: string)

  /** Every registered router hands the request straight to `next`. */
  predicate AllPassThrough(p2r: Router.PathToRegexp, stacks: seq<seq<Router.Layer>>, httpMethod: string, path: string)
  {
    forall i :: 0 <= i < |stacks| ==> Router.DispatchOf(p2r, stacks[i], httpMethod, path).PassThrough?
  }

  /** The `connection` handler of `bindWsServer` (lib/server.js:93-119). A
      `graphql-ws` connection is left to the subscription server, closed only
      when graphql is mounted on a path other than the connection's. Any other
      connection runs the composed routers once with a fallback that closes
      the socket and reports "Not Found Websocket path"; when every router
      passes the request through, the fallback is reached at once; an error
      the chain throws, after the fallback ran or not, closes the socket and
      is then emitted. */
  function ConnectionEffects(p2r: Router.PathToRegexp, graphql: Option<GraphqlConfig>, stacks: seq<seq<Router.Layer>>,
                             protocol: string, httpMethod: string, path: string, chain: ChainOutcome): seq<Effect>
  {
    if protocol == GraphqlProtocol then
      if graphql.Some? && graphql.value.path != "" && path != graphql.value.path then [CloseSocket] else []
    else
      var outcome := if AllPassThrough(p2r, stacks, httpMethod, path) then FellThrough else chain;
      [RunRouters(path)]
        + (if outcome.reachesFallback then [CloseSocket, EmitError(NotFoundMessage)] else [])
        + (match outcome.thrown
           case None => []
           case Some(message) => [CloseSocket, EmitError(message)])
  }

  /** A `graphql-ws` connection never reaches the routers, and is closed
      exactly when graphql is mounted on a (non-empty) path other than the
      connection's. */
  lemma GraphqlConnectionsBypassRouters(p2r: Router.PathToRegexp, graphql: Option<GraphqlConfig>, stacks: seq<seq<Router.Layer>>,
                                        httpMethod: string, path: string, chain: ChainOutcome)
    ensures var effects := ConnectionEffects(p2r, graphql, stacks, GraphqlProtocol, httpMethod, path, chain);
      && (forall e :: e in effects ==> !e.RunRouters? && !e.EmitError?)
      && (CloseSocket in effects <==> graphql.Some? && graphql.value.path != "" && path != graphql.value.path)
  {
  }

  /** Any other connection runs the routers exactly once, first, on its path.
      Every close of the socket is directly followed by an emitted error and
      every emitted error directly follows a close. When some layer matches,
      the chain's outcome decides the rest: nothing more when it was handled;
      the "Not Found" pair first when the fallback was reached; the thrown
      error's pair last when it threw. A path no layer of any router matches
      always falls through to "Not Found", and only that. */
  lemma OtherConnectionsRouteOnce(p2r: Router.PathToRegexp, graphql: Option<GraphqlConfig>, stacks: seq<seq<Router.Layer>>,
                                  protocol: string, path: string, chain: ChainOutcome)
    requires protocol != GraphqlProtocol
    ensures var effects := ConnectionEffects(p2r, graphql, stacks, protocol, "GET", path, chain);
      && effects[0] == RunRouters(path)
      && (forall k :: 1 <= k < |effects| ==> !effects[k].RunRouters?)
      && (forall k :: 0 <= k < |effects| && effects[k] == CloseSocket ==> k + 1 < |effects| && effects[k + 1].EmitError?)
      && (forall k :: 0 <= k < |effects| && effects[k].EmitError? ==> 1 <= k && effects[k - 1] == CloseSocket)
    ensures !AllPassThrough(p2r, stacks, "GET", path) ==>
      var effects := ConnectionEffects(p2r, graphql, stacks, protocol, "GET", path, chain);
      && |effects| == 1 + (if chain.reachesFallback then 2 else 0) + (if chain.thrown.Some? then 2 else 0)
      && (chain.reachesFallback ==> effects[1] == CloseSocket && effects[2] == EmitError(NotFoundMessage))
      && (chain.thrown.Some? ==>
            effects[|effects| - 2] == CloseSocket && effects[|effects| - 1] == EmitError(chain.thrown.value))
    ensures (forall i, j :: 0 <= i < |stacks| && 0 <= j < |stacks[i]| ==> !Router.Matches(p2r, stacks[i][j], path)) ==>
      ConnectionEffects(p2r, graphql, stacks, protocol, "GET", path, chain)
        == [RunRouters(path), CloseSocket, EmitError(NotFoundMessage)]
  {
    var effects := ConnectionEffects(p2r, graphql, stacks, protocol, "GET", path, chain);
    var outcome := if AllPassThrough(p2r, stacks, "GET", path) then FellThrough else chain;
    var fallback: seq<Effect> := if outcome.reachesFallback then [CloseSocket, EmitError(NotFoundMessage)] else [];
    var thrown: seq<Effect> := if outcome.thrown.Some? then [CloseSocket, EmitError(outcome.thrown.value)] else [];
    assert effects == [RunRouters(path)] + fallback + thrown;
    if forall i, j :: 0 <= i < |stacks| && 0 <= j < |stacks[i]| ==> !Router.Matches(p2r, stacks[i][j], path) {
      forall i | 0 <= i < |stacks| ensures Router.DispatchOf(p2r, stacks[i], "GET", path).PassThrough? {
        Router.DispatchRule(p2r, stacks[i], "GET", path);
      }
    }
  }

  /** `e.status || 500`: the status the error handler of the constructor
      (lib/server.js:23-31) gives a response when a later middleware throws. */
  function CaughtStatus(status: Option<int>): (r: int)
    ensures r != 0
    ensures NumTruthy(status) ==> r == status.value
    ensures !NumTruthy(status) ==> r == 500
  {
    OrElse(status, 500)
  }

  // ---------------------------------------------------------------------
  // Roles
  // ---------------------------------------------------------------------

  /** `numCPUs` in `start`: 1 without clustering, else `cluster.numCPUs` when
      truthy, else the machine's CPU count. */
  function WorkerCount(cluster: Cluster, cpuCount: nat): int
  {
    match cluster
    case NoCluster => 1
    case ClusterOn(n) => OrElse(n, cpuCount)
  }

  /** What the `start` callback receives, and how many workers were forked. */
  datatype StartReport = StartReport(master: bool, numCPUs: int, forks: nat, servers: Option<Servers>)

  /** An HTTP pipeline entry: the error handler the constructor installs, the
      middlewares Apollo adds, or a user handler. */
  datatype HttpHandler = ErrorHandler | ApolloHandlers | UserHandler(id: nat)

  /** What `use` is given. */
  datatype Handle = RouterHandle(router: Router.WebSocketRouter) | GraphqlHandle(config: GraphqlConfig) | OtherHandle(id: nat)

  function Stacks(routers: seq<Router.WebSocketRouter>): (r: seq<seq<Router.Layer>>)
    reads set i | 0 <= i < |routers| :: routers[i]
    ensures |r| == |routers|
  {
    seq(|routers|, i reads routers requires 0 <= i < |routers| => routers[i].stack)
  }

  class App {
    var middleware: seq<HttpHandler>
    /** One entry per registered router: its `middleware()` reads the router's
        stack when it runs, so the router itself stands for it. */
    var wsRoutes: seq<Router.WebSocketRouter>
    var graphql: Option<GraphqlConfig>

    /** The constructor (lib/server.js:17-32): no routes, and the error
        handler as the first HTTP middleware. */
    constructor ()
      ensures middleware == [ErrorHandler] && wsRoutes == [] && graphql == None
    {
      middleware := [ErrorHandler];
      wsRoutes := [];
      graphql := None;
    }

    /** `use(handle)` (lib/server.js:34-47): a router joins `wsRoutes` and not
        the HTTP pipeline; a graphql handle is recorded and Apollo mounts its
        middlewares; anything else goes to Koa's own `use`. Returns `this`. */
    method Use(handle: Handle) returns (self: App)
      modifies this
      ensures self == this
      ensures handle.RouterHandle? ==>
        wsRoutes == old(wsRoutes) + [handle.router] && middleware == old(middleware) && graphql == old(graphql)
      ensures handle.GraphqlHandle? ==>
        graphql == Some(handle.config) && middleware == old(middleware) + [ApolloHandlers] && wsRoutes == old(wsRoutes)
      ensures handle.OtherHandle? ==>
        middleware == old(middleware) + [UserHandler(handle.id)] && wsRoutes == old(wsRoutes) && graphql == old(graphql)
    {
      self := this;
      match handle
      case RouterHandle(r) =>
        wsRoutes := wsRoutes + [r];
      case GraphqlHandle(g) =>
        graphql := Some(g);
        middleware := middleware + [ApolloHandlers];
      case OtherHandle(id) =>
        middleware := middleware + [UserHandler(id)];
    }

    /** `server()` on normalised options, filling `servers` step by step
        (lib/server.js:54-141). */
    method CreateServers(fs: FileSystem, opt: ServerOptions) returns (servers: Servers)
      ensures servers == ServersFor(fs, opt, wsRoutes, graphql)
    {
      servers := Servers(None, None, None, None);
      if opt.ssl.None? || !opt.ssl.value.sslOnly {
        servers := servers.(http := Some(if NumTruthy(opt.port) then opt.port.value else 80));
      }
      if opt.ssl.Some? {
        var ssl := opt.ssl.value;
        var key, cert := SelectCredentials(fs, ssl);
        servers := servers.(https := Some(HttpsServer(if NumTruthy(ssl.port) then ssl.port.value else 443, key, cert)));
      }
      if |wsRoutes| > 0 {
        if servers.http.Some? {
          servers := servers.(ws := Some(WsServer(Some(Http), wsRoutes, false, None)));
        }
        if servers.https.Some? {
          servers := servers.(wss := Some(WsServer(Some(Https), wsRoutes, false, None)));
        }
      }
      if graphql.Some? {
        servers := servers.(ws := BindSubscription(graphql.value, if servers.http.Some? then Some(Http) else None, servers.ws));
        if servers.https.Some? {
          servers := servers.(wss := BindSubscription(graphql.value, Some(Https), servers.wss));
        }
      }
    }

    /** `server(option)`: a non-object option is normalised to `{port: option}`
        first; `null` throws. */
    method Server(fs: FileSystem, arg: OptionArg) returns (r: Result<Servers, StartError>)
      ensures arg.Null? <==> r.Err?
      ensures r.Ok? ==> r.value == ServersFor(fs, Normalize(arg).value, wsRoutes, graphql)
      ensures arg.Scalar? ==> r.Ok? && r.value.http == Some(if arg.port != 0 then arg.port else 80) && r.value.https.None?
      ensures arg.Missing? ==> r.Ok? && r.value.http == Some(80) && r.value.https.None?
    {
      var opt := Normalize(arg);
      if opt.None? {
        return Err(OptionIsNull);
      }
      var servers := CreateServers(fs, opt.value);
      r := Ok(servers);
    }

    /** `start(option, callback)` (lib/server.js:144-184), up to the respawn
        on worker exit: with more than one worker the master forks exactly
        `numCPUs` workers and reports no servers, a worker creates the servers;
        otherwise the one process creates them and reports itself master. */
    method Start(fs: FileSystem, arg: OptionArg, isMaster: bool, cpuCount: nat) returns (r: Result<StartReport, StartError>)
      ensures arg.Null? <==> r.Err?
      ensures r.Ok? ==>
        var opt := Normalize(arg).value;
        var n := WorkerCount(opt.cluster, cpuCount);
        && r.value.numCPUs == n
        && (n > 1 && isMaster ==> r.value == StartReport(true, n, n, None))
        && (n > 1 && !isMaster ==> r.value == StartReport(false, n, 0, Some(ServersFor(fs, opt, wsRoutes, graphql))))
        && (n <= 1 ==> r.value == StartReport(true, n, 0, Some(ServersFor(fs, opt, wsRoutes, graphql))))
    {
      var opt := Normalize(arg);
      if opt.None? {
        return Err(OptionIsNull);
      }
      var option := opt.value;
      var numCPUs := 1;
      if option.cluster.ClusterOn? {
        numCPUs := if NumTruthy(option.cluster.numCPUs) then option.cluster.numCPUs.value else cpuCount;
      }
      if numCPUs > 1 {
        if isMaster {
          var forks := 0;
          for i := 0 to numCPUs
            invariant forks == i
          {
            forks := forks + 1;
          }
          return Ok(StartReport(true, numCPUs, forks, None));
        } else {
          var servers := CreateServers(fs, option);
          return Ok(StartReport(false, numCPUs, 0, Some(servers)));
        }
      }
      var servers := CreateServers(fs, option);
      r := Ok(StartReport(true, numCPUs, 0, Some(servers)));
    }

    /** The connection handler of WebSocket server `ws` on an accepted socket:
        a `graphql-ws` socket gets no context; any other gets a fresh context
        with `websocket` and `path` set before the routers run. The routers are
        those `server()` bound: a single router is kept as it was, while
        `compose(this.wsRoutes)` keeps the array itself and so also runs
        routers registered later. */
    method HandleConnection(p2r: Router.PathToRegexp, ws: WsServer, protocol: string, httpMethod: string, path: string,
                            headers: Headers, socket: nat, chain: ChainOutcome)
      returns (ctx: Context?, effects: seq<Effect>)
      requires |ws.routers| >= 1
      ensures |ws.routers| == 1 ==>
        effects == ConnectionEffects(p2r, graphql, Stacks(ws.routers), protocol, httpMethod, path, chain)
      ensures |ws.routers| > 1 ==>
        effects == ConnectionEffects(p2r, graphql, Stacks(wsRoutes), protocol, httpMethod, path, chain)
      ensures ctx == null <==> protocol == GraphqlProtocol
      ensures ctx != null ==> (fresh(ctx) && ctx.websocket == Some(socket) && ctx.path == path
        && ctx.httpMethod == httpMethod && ctx.headers == headers)
    {
      if protocol == GraphqlProtocol {
        effects := [];
        if graphql.Some? && graphql.value.path != "" {
          if path != graphql.value.path {
            effects := [CloseSocket];
          }
        }
        return null, effects;
      }
      var routers := if |ws.routers| > 1 then wsRoutes else ws.routers;
      ctx := new Context(httpMethod, path, headers, false);
      ctx.websocket := Some(socket);
      ctx.path := path;
      effects := ConnectionEffects(p2r, graphql, Stacks(routers), protocol, httpMethod, path, chain);
    }
  }
}
