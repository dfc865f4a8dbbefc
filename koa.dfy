/** The part of Koa's request context that the core reads and writes. */
module Koa {
  import opened Js

  /** Request headers, keyed by lower-case name. */
  type Headers = map<string, string>

  /** `ctx.headers[name]`: `undefined` when the header is absent. */
  function Header(h: Headers, name: string): Option<string>
  {
    if name in h then Some(h[name]) else None
  }

  /** A header value already in entity-tag form: it starts with `"` or `W/"`. */
  predicate IsQuoted(v: string)
  {
    (|v| >= 1 && v[0] == '"') || (|v| >= 3 && v[..3] == "W/\"")
  }

  /** Koa's `response.etag` setter: a value not already in entity-tag form is
      wrapped in double quotes, `undefined` being written out as the text
      "undefined" first. The result is the `ETag` header. */
  function EtagHeader(val: Option<string>): (r: string)
    ensures IsQuoted(r)
    ensures val.Some? && IsQuoted(val.value) ==> r == val.value
    ensures val.Some? && !IsQuoted(val.value) ==> r == "\"" + val.value + "\""
    ensures val.None? ==> r == "\"undefined\""
  {
    var text := if val.Some? then val.value else "undefined";
    if IsQuoted(text) then text else "\"" + text + "\""
  }

  /** Setting the header again changes nothing: the setter is idempotent. */
  lemma EtagHeaderIdempotent(val: Option<string>)
    ensures EtagHeader(Some(EtagHeader(val))) == EtagHeader(val)
  {
  }

  /** Koa's per-request (or per-connection) context object. */
  class Context {
    var httpMethod: string
    var path: string
    var headers: Headers
    /** `ctx.acceptsEncodings('gzip', 'identity') === 'gzip'`, decided by Koa from Accept-Encoding */
    var acceptsGzip: bool
    var status: int
    /** The `ETag` response header, as `ctx.response.etag` reads it back */
    var etag: Option<string>
    /** `ctx.params`, undefined until a route binds it */
    var params: Option<map<string, Option<string>>>
    /** `ctx.captures`, undefined until a route binds it */
    var captures: Option<seq<Option<string>>>
    /** `ctx._matchedRoute` */
    var matchedRoute: Option<string>
    /** `ctx.websocket`: the accepted socket, identified by a number */
    var websocket: Option<nat>

    /** `app.createContext(req)`: a fresh context. `status` starts at 404, the
        status Koa's request handling sets before an HTTP request reaches the
        middlewares; a context made for a WebSocket connection has no response,
        and nothing reads its status. */
    constructor (httpMethod: string, path: string, headers: Headers, acceptsGzip: bool)
      ensures this.httpMethod == httpMethod && this.path == path && this.headers == headers
      ensures this.acceptsGzip == acceptsGzip && status == 404 && etag == None
      ensures params == None && captures == None && matchedRoute == None && websocket == None
    {
      this.httpMethod := httpMethod;
      this.path := path;
      this.headers := headers;
      this.acceptsGzip := acceptsGzip;
      status := 404;
      etag := None;
      params := None;
      captures := None;
      matchedRoute := None;
      websocket := None;
    }
  }
}
