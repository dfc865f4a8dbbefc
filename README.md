# koa-app-server in Dafny

A model of the core of koa-app-server, a Koa application server. The server
accepts HTTP, HTTPS and WebSocket connections and can run as a cluster. The
model covers three parts:

- **`Static`**: the `serveStatic` middleware. It resolves a request path below
  a mount point and probes the file or its pre-compressed `.gz` sibling. It
  then evaluates conditional-GET preconditions (`If-Match` and
  `If-Unmodified-Since`, as in section 6 of RFC 7232). Finally it answers
  412 or 304, or runs the post-middlewares, sets the entity tag and sends the
  file. The token scanner `parseTokenList` is proved against a reference
  split-and-trim definition.
- **`Router`**: the WebSocket route table. Layers check their middleware when
  they are built. Matching keeps the matching layers in registration order.
  Parameters are merged into the existing ones with safe URI decoding. The
  router middleware either passes the request to `next` or builds a chain of
  bind steps and handlers, where the last matching layer names the matched
  route.
- **`Server`**: the application subclass. It covers:
  - the error handler installed first;
  - `use` deciding where a handle goes;
  - `server` creating HTTP and HTTPS servers;
  - the discovery of certificates in the `ssl.dir` directory;
  - WebSocket servers for the routers and graphql subscriptions;
  - the classification of accepted WebSocket connections;
  - how `start` picks the process role.

The collaborators the code calls are parameters of the model. These are `fs`,
`path`, `etag`, `fresh`, `Date.parse`, `decodeURIComponent` and
path-to-regexp. They appear as function-valued fields (`FileEnv`,
`FileSystem`, `PathToRegexp`, `Decoder`). JavaScript truthiness is spelled out
in `Js.Truthy` and `Js.NumTruthy`, and `a || b` on numbers in `Js.OrElse`.
Side effects and the order of awaited calls are recorded as traces of steps:
- `Static.Step` for the static middleware;
- `Router.Step` for the router chain;
- `Server.Effect` for the connection handler.

The state a method changes on a Koa context is a field of `Koa.Context`. The
methods that update it declare it in their `modifies` frames.

The model follows the code where it and its documentation differ:
- A numeric `cluster` option such as `cluster: 4` does not set the worker
  count. The code reads `option.cluster.numCPUs`, which a number lacks, so the
  CPU count is used (`Server.WorkerCount`).
- `route(path)` without handlers is accepted and registers a layer with an
  empty stack.
- An array of paths given to `route` calls `router.get`, which the router does
  not define. A non-empty array throws and an empty one returns the router
  (`Router.WebSocketRouter.Route`).
- `If-Match` also accepts a weak form of the entity tag in either direction.
  The `every` callback compares `W/`-prefixed forms.
- With `etag: false` the middleware still assigns `undefined` to
  `ctx.response.etag` before sending. Koa's setter quotes any value not
  already in entity-tag form, so the response carries the header
  `ETag: "undefined"` (`Koa.EtagHeader`, `Static.ServeStatic`).

## Model

| member | source | states |
|---|---|---|
| Static.SegmentsSplitAtCommas | lib/static.js:26-44 | splitting at commas gives one piece more than there are commas; no piece has a comma; joining the pieces with commas gives back the input |
| Static.SegmentsOfJoin | lib/static.js:26-44 | the converse round trip: comma-free pieces joined with commas split back into the same pieces |
| Static.TrimShape | lib/static.js:28-39 | a token has no leading or trailing space, and its segment is that token between runs of spaces |
| Static.TokensShape | lib/static.js:20-47 | the token list has commas+1 tokens; no token holds a comma or starts or ends with a space; the empty string gives one empty token |
| Static.TokenOfPiece | lib/static.js:28-39 | the token of a comma-free piece is comma-free, has no edge spaces, and is the piece less leading and trailing spaces |
| Static.TokensOfJoin | lib/static.js:20-47 | the tokens of comma-joined entries are those entries, trimmed |
| Static.ParseTokenList | lib/static.js:20-47 | the one-pass scanner with start/end indices returns exactly the trimmed comma-separated pieces |
| Static.IfMatchDecidesAlone | lib/static.js:64-71 | with If-Match present, the outcome ignores If-Unmodified-Since, the modification time and the date parser; a missing entity tag fails; `*` passes when there is a tag |
| Static.IfMatchListedPasses | lib/static.js:66-70 | If-Match listing the entity tag among any entries, strong or weak, with any surrounding spaces, passes |
| Static.IfMatchUnlistedFails | lib/static.js:66-70 | If-Match whose entries all name other tags, and which is not `*`, fails |
| Static.UnmodifiedSinceRule | lib/static.js:57-80 | without If-Match, failure holds exactly when If-Unmodified-Since parses and the file is newer; a request without conditional headers never fails |
| Static.ServeCallsNextExactlyWhenDeclined | lib/static.js:86-136 | `next` runs, once and last, exactly when the method is not HEAD/GET, the path is outside the mount, or no probed file exists |
| Static.ServeProbeOrder | lib/static.js:83-98 | the `.gz` sibling is probed exactly when gzip is enabled and preferred, and first; the plain file exactly when no sibling was found; both options default to on |
| Static.ServeOutcomeOrder | lib/static.js:100-132 | a found file ends in 412 iff the precondition fails, in 304 iff not failed and fresh, and then nothing follows the probes but that answer; the file is sent iff neither happened and no post-middleware rejects, and then all post-middlewares run in order, then the entity tag is set, then the file is sent, last |
| Static.ServeStopsAtRejection | lib/static.js:117-123 | when no 412 or 304 was answered and a post-middleware rejects, the post-middlewares up to the first rejecting one run in order and its error ends the middleware; the entity tag is never set and nothing is sent |
| Static.ServeSendTarget | lib/static.js:89-131 | a request for the mount point itself sends the mount's base name from the root's parent; otherwise the rest of the path from the root; `send` gets the middleware's own options |
| Static.ServePrefersGzipSibling | lib/static.js:93-101 | when the sibling exists and is preferred, its stats are used and the plain file is never probed |
| Static.ServeStatic | lib/static.js:86-137 | the middleware on a context takes exactly the steps of the reference trace; it sets status 304 only when it answers 304 and sets the `ETag` header only when it sends, through Koa's setter, so with entity tags disabled the header is `"undefined"` |
| Koa.EtagHeader | lib/static.js:123 | the value assigned to `ctx.response.etag` becomes a header in entity-tag form: kept when it starts with `"` or `W/"`, quoted otherwise; `undefined` gives `"undefined"` |
| Koa.EtagHeaderIdempotent | lib/static.js:123 | assigning the header's own value again leaves it unchanged |
| Router.NewLayer | lib/router.js:14-32 | building a layer succeeds iff every middleware is a function and the pattern compiles; the layer keeps path, options, keys and handlers; a non-function fails first, with an error naming the first non-function's type; otherwise a malformed pattern fails with path-to-regexp's error |
| Router.Captures | lib/router.js:63-65 | captures succeed exactly when the layer matches the path; otherwise `null.slice` throws |
| Router.SafeDecode | lib/router.js:5-11 | the decoded text, or the input unchanged when decoding throws |
| Router.MergeWrites | lib/router.js:42-53 | merged params have the existing keys plus the bound names; other existing entries are kept; a name gets the (decoded) capture of its last key |
| Router.LayerParams | lib/router.js:42-53 | the params loop computes that merge, starting from `existingParams or {}` |
| Router.MatchIsOrderedSelection | lib/router.js:126-139 | the matched layers are the stack entries at strictly increasing positions, and a position is selected iff its layer matches |
| Router.WebSocketRouter.Match | lib/router.js:126-139 | the loop returns exactly the matching layers in stack order |
| Router.LayerChainShape | lib/router.js:113-120 | the chain binds each matched layer once, in order, on the request path, and lists their handlers in order; its length is layers plus handlers |
| Router.BuildChain | lib/router.js:113-120 | the reduce loop builds exactly that chain |
| Router.DispatchRule | lib/router.js:100-122 | the router passes through iff the method is not GET or no layer matches; otherwise the matched route is the path of the last matching layer |
| Router.ParamsAccumulate | lib/router.js:113-120 | across the bind steps, a name no layer binds keeps its value and the last layer's bindings win |
| Router.WebSocketRouter.Route | lib/router.js:74-97 | one path appends one layer compiled with end/non-sensitive/non-strict options iff its handlers are functions and its pattern compiles, and otherwise throws with the stack unchanged; an array of paths throws unless empty |
| Router.WebSocketRouter.Middleware | lib/router.js:99-124 | the middleware's decision is the dispatch rule; `_matchedRoute` is set only when a chain runs |
| Router.RunBind | lib/router.js:114-117 | a bind step sets captures and merges params iff the layer matches the path; otherwise it leaves both unchanged |
| Server.FirstWithExt | lib/server.js:70-77 | the first listed name with one of the extensions, or none when no name has one |
| Server.SelectionFillsOnly | lib/server.js:67-79 | supplied key and certificate are never replaced; the directory is used only when one is missing and it exists; a missing one becomes the first `.key` (resp. `.crt`/`.pem`) file in listing order, or stays missing |
| Server.SelectCredentials | lib/server.js:67-79 | the directory loop computes exactly that selection |
| Server.ServerCreationRules | lib/server.js:60-136 | HTTP unless `sslOnly`, on `port or 80`; HTTPS iff `ssl`, on `ssl.port or 443` with the selected credentials; with routers and no graphql, a WebSocket server bound to the registered routers on each created server only; a schema without subscriptions changes nothing; one with subscriptions always leaves an HTTP-side WebSocket server and an HTTPS-side one iff HTTPS exists, keeping the routers, restricted to the graphql path when made for it alone |
| Server.BindSubscription | lib/graphql.js:16-35 | without a subscription type the WebSocket server is returned unchanged; with one, the result always carries subscriptions, keeps an existing server's transport, routers and path, and is otherwise a new server on the graphql path without routers |
| Server.CaughtStatus | lib/server.js:23-31 | the status set on a caught error is never 0: the error's own status when truthy, else 500 |
| Server.App.CreateServers | lib/server.js:54-141 | building `servers` step by step gives exactly those servers |
| Server.App.Server | lib/server.js:49-52 | a `null` option throws; a number `p` listens on `p or 80` with no HTTPS; no option listens on 80 |
| Server.GraphqlConnectionsBypassRouters | lib/server.js:96-104 | a `graphql-ws` connection never reaches the routers and is closed iff graphql is mounted on another path |
| Server.OtherConnectionsRouteOnce | lib/server.js:106-118 | other connections run the routers once, first; every close is directly followed by an emitted error and every emitted error follows a close; the "Not Found" pair comes first when the fallback was reached, the thrown error's pair last when the chain threw, both when both happened; a path no layer matches always ends in "Not Found Websocket path" alone |
| Server.App.HandleConnection | lib/server.js:87-119 | only non-graphql connections get a fresh context carrying the socket, the parsed path, the method and the headers; the effects are those of the handler over the routers `server()` bound: the single router it found, or every router registered by the time of the connection when it found several |
| Server.App.Use | lib/server.js:34-47 | a router goes to `wsRoutes` only, a graphql handle is recorded and mounts Apollo, anything else joins the HTTP pipeline; returns the application |
| Server.App.Start | lib/server.js:144-184 | with more than one worker, the master forks exactly `numCPUs` workers and reports no servers, and a worker creates them; otherwise the single process creates them and reports itself master; a `null` option throws |

## Left out

- I/O: listening sockets, TLS handshakes, reading files and sending responses are absent. `koa-send` is the final `Send` step, which carries the file, the root and the middleware's options. `fs.readFileSync` is a `FileContents` value.
- Static.ServeSendTarget: `StaticOptions` holds only `etag` and `gzip`, so the other options a caller may pass through to `koa-send` (such as `maxage` or `index`) are not represented in the `Send` step.
- `ctx.acceptsEncodings('gzip', 'identity')` is a boolean on the request. The `etag` package, `fresh`, `Date.parse`, `decodeURIComponent` and path-to-regexp are opaque function parameters. A pattern path-to-regexp rejects is the error `BadPattern`, without its message.
- Post-middleware bodies are not modelled: whether each rejects on the request is a parameter (`FileEnv.rejects`).
- Koa's `response.etag` setter belongs to Koa, which is not part of this model's source. `Koa.EtagHeader` states its quoting rule: a value not matching `^(W/)?"` is wrapped in double quotes.
- koa-compose is not executed. The router chain is the ordered list of steps it would run, and the connection handler takes the outcome of the handlers (`ChainOutcome`: whether the fallback was reached, and whether and what the chain threw) as a parameter. `Server.App.HandleConnection` relies on koa-compose reading the array it was given at each call, so several routers composed by `server()` include routers registered afterwards.
- Handler bodies and Koa's own `use` are left out. Koa's error event emission (`this.emit('error', e)`) is an `EmitError` effect; Node's throw when no `error` listener is registered is not modelled. The error handler is modelled only by the status `e.status || 500` it sets (`Server.CaughtStatus`).
- `Server.App.Start` does not model the respawn of an exited worker after 2000 ms. Timers and process events are outside the model.
- Server.App.Use: `handle.middleware()` is the router itself. The closure reads the router's stack when it runs, so the two agree. Apollo's `applyMiddleware` is one `ApolloHandlers` entry.
- The subscriptions-transport-ws server and the `ws` library are left out. `Server.BindSubscription` records that a subscription server is attached. With `sslOnly` and graphql subscriptions, the model records a WebSocket server with no HTTP server; `ws`'s own rejection of such options is not modelled.
- `url.parse(req.url).pathname` is the connection's given path.
- A port given as a string, a non-integer `numCPUs`, and values of unexpected types in the options have no model. The Layer constructor's `opts || {}` default is not modelled because every caller passes options.
- Router.RunBind: the `params` object is modelled as a value, so aliasing between `existingParams` and the returned object is not captured.
