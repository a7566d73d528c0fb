/** The cross-origin middleware: at start-up it builds the list of origins it
    trusts from the environment, and on each request it adds the four CORS
    headers to the downstream response when the request's `Origin` is one of
    them. */
module Cors {
  import opened Common

  const ClientOrigin := "CLIENT_ORIGIN"
  const ClientOriginDev := "CLIENT_ORIGIN_DEV"

  /** The origins trusted when neither variable is set. */
  const LocalOrigin := "http://localhost:3000"
  const DeployedOrigin := "https://eventify-front-e281c9a84c02.herokuapp.com"

  const AllowOrigin := "Access-Control-Allow-Origin"
  const AllowHeaders := "Access-Control-Allow-Headers"
  const AllowMethods := "Access-Control-Allow-Methods"
  const AllowCredentials := "Access-Control-Allow-Credentials"

  /** The trusted list: CLIENT_ORIGIN, then CLIENT_ORIGIN_DEV, each when the
      variable is present (whatever its value, the empty string included),
      and the two fallbacks when neither is. */
  function AllowedOrigins(env: map<string, string>): seq<string>
  {
    var configured := (if ClientOrigin in env then [env[ClientOrigin]] else [])
                      + (if ClientOriginDev in env then [env[ClientOriginDev]] else []);
    if configured == [] then [LocalOrigin, DeployedOrigin] else configured
  }

  /** The test of `__call__`: an origin that is present and not empty, and
      either listed or covered by a listed `*`. */
  predicate Admits(allowed: seq<string>, origin: Option<string>)
  {
    origin.Some? && origin.value != "" && (origin.value in allowed || "*" in allowed)
  }

  /** ASCII lower case, the form under which header names are compared. */
  function FoldChar(c: char): char
  {
    if 'A' <= c <= 'Z' then (c as int + 32) as char else c
  }

  function Fold(name: string): (r: string)
    ensures |r| == |name|
  {
    seq(|name|, i requires 0 <= i < |name| => FoldChar(name[i]))
  }

  /** A response's header mapping as Django keeps it: case-insensitive,
      each entry under the lower-cased name, holding the name as last written
      and the value. */
  type Headers = map<string, (string, string)>

  /** `response[name] = value`: replaces any header whose name differs from
      `name` only in case. */
  function SetHeader(headers: Headers, name: string, value: string): (r: Headers)
    ensures r.Keys == headers.Keys + {Fold(name)}
    ensures r[Fold(name)] == (name, value)
    ensures forall k :: k in headers && k != Fold(name) ==> r[k] == headers[k]
  {
    headers[Fold(name) := (name, value)]
  }

  /** The keys of the four headers the middleware sets. */
  const CorsKeys: set<string> := {Fold(AllowOrigin), Fold(AllowHeaders), Fold(AllowMethods), Fold(AllowCredentials)}

  /** The headers of the response the middleware returns. */
  function Decorate(headers: Headers, allowed: seq<string>, origin: Option<string>): Headers
  {
    if Admits(allowed, origin) then
      var h1 := SetHeader(headers, AllowOrigin, origin.value);
      var h2 := SetHeader(h1, AllowHeaders, "Content-Type, Authorization");
      var h3 := SetHeader(h2, AllowMethods, "GET, POST, PUT, PATCH, DELETE, OPTIONS");
      SetHeader(h3, AllowCredentials, "true")
    else headers
  }

  /** An HTTP response whose header mapping the middleware writes into. */
  class Response {
    var headers: Headers

    constructor (headers: Headers)
      ensures this.headers == headers
    {
      this.headers := headers;
    }
  }

  class CorsMiddleware {
    var allowedOrigins: seq<string>

    /** `__init__`, reading the environment once. */
    constructor (env: map<string, string>)
      ensures allowedOrigins == AllowedOrigins(env)
    {
      var origins: seq<string> := [];
      if ClientOrigin in env {
        origins := origins + [env[ClientOrigin]];
      }
      if ClientOriginDev in env {
        origins := origins + [env[ClientOriginDev]];
      }
      if origins == [] {
        origins := [LocalOrigin, DeployedOrigin];
      }
      allowedOrigins := origins;
    }

    /** `__call__` on the response the rest of the stack produced for a
        request whose `Origin` header is `origin`. */
    method Call(response: Response, origin: Option<string>)
      modifies response
      ensures response.headers == Decorate(old(response.headers), allowedOrigins, origin)
    {
      if origin.Some? && origin.value != "" && (origin.value in allowedOrigins || "*" in allowedOrigins) {
        response.headers := SetHeader(response.headers, AllowOrigin, origin.value);
        response.headers := SetHeader(response.headers, AllowHeaders, "Content-Type, Authorization");
        response.headers := SetHeader(response.headers, AllowMethods, "GET, POST, PUT, PATCH, DELETE, OPTIONS");
        response.headers := SetHeader(response.headers, AllowCredentials, "true");
      }
    }
  }

  // ------------------------------------------------------------ properties

  /** The list holds one or two origins: each configured variable's value in
      order, or else exactly the two fallbacks. */
  lemma {:induction false} AllowedOriginsShape(env: map<string, string>)
    ensures 1 <= |AllowedOrigins(env)| <= 2
    ensures ClientOrigin !in env && ClientOriginDev !in env ==> AllowedOrigins(env) == [LocalOrigin, DeployedOrigin]
    ensures ClientOrigin in env ==> AllowedOrigins(env)[0] == env[ClientOrigin]
    ensures ClientOriginDev in env ==> AllowedOrigins(env)[|AllowedOrigins(env)| - 1] == env[ClientOriginDev]
    ensures ClientOrigin in env && ClientOriginDev in env ==> |AllowedOrigins(env)| == 2
  {
  }

  /** Once a variable is set the fallbacks are no longer trusted (unless the
      variable names one of them). */
  lemma {:induction false} ConfiguredReplacesFallback(env: map<string, string>, origin: string)
    requires ClientOrigin in env || ClientOriginDev in env
    ensures origin in AllowedOrigins(env) <==>
              (ClientOrigin in env && origin == env[ClientOrigin])
              || (ClientOriginDev in env && origin == env[ClientOriginDev])
  {
  }

  /** With no variable set, exactly the two fallback origins get the headers. */
  lemma {:induction false} FallbackAdmitsExactly(env: map<string, string>, origin: string)
    requires ClientOrigin !in env && ClientOriginDev !in env
    ensures Admits(AllowedOrigins(env), Some(origin)) <==> origin == LocalOrigin || origin == DeployedOrigin
  {
    assert AllowedOrigins(env) == [LocalOrigin, DeployedOrigin];
  }

  /** A request without an Origin, or with an empty one, never gets the headers. */
  lemma {:induction false} MissingOriginRefused(allowed: seq<string>, headers: Headers)
    ensures Decorate(headers, allowed, None) == headers
    ensures Decorate(headers, allowed, Some("")) == headers
  {
  }

  /** A listed `*` admits every non-empty origin. */
  lemma {:induction false} WildcardAdmitsAll(allowed: seq<string>, origin: string)
    requires "*" in allowed && origin != ""
    ensures Admits(allowed, Some(origin))
  {
  }

  /** The four names stay apart once case is ignored. */
  lemma {:induction false} CorsNamesDistinct()
    ensures Fold(AllowOrigin) != Fold(AllowHeaders) && Fold(AllowOrigin) != Fold(AllowMethods)
    ensures Fold(AllowOrigin) != Fold(AllowCredentials) && Fold(AllowHeaders) != Fold(AllowMethods)
    ensures Fold(AllowHeaders) != Fold(AllowCredentials) && Fold(AllowMethods) != Fold(AllowCredentials)
  {
    assert |AllowOrigin| == 27 && |AllowHeaders| == 28 && |AllowMethods| == 28 && |AllowCredentials| == 32;
    assert Fold(AllowHeaders)[21] == FoldChar('H') && Fold(AllowMethods)[21] == FoldChar('M');
  }

  /** When admitted, all four headers are set with their fixed values, the
      allowed origin echoes the request's own origin (never a `*` the list
      holds), a CORS header already there in another case is replaced, and
      every other header is untouched. When not, the response is as the rest
      of the stack left it. */
  lemma {:induction false} DecorateHeaders(headers: Headers, allowed: seq<string>, origin: Option<string>)
    ensures var h := Decorate(headers, allowed, origin);
            && (Admits(allowed, origin) ==>
                  && h.Keys == headers.Keys + CorsKeys
                  && h[Fold(AllowOrigin)] == (AllowOrigin, origin.value)
                  && h[Fold(AllowHeaders)] == (AllowHeaders, "Content-Type, Authorization")
                  && h[Fold(AllowMethods)] == (AllowMethods, "GET, POST, PUT, PATCH, DELETE, OPTIONS")
                  && h[Fold(AllowCredentials)] == (AllowCredentials, "true")
                  && forall k :: k in headers && k !in CorsKeys ==> h[k] == headers[k])
            && (!Admits(allowed, origin) ==> h == headers)
  {
    CorsNamesDistinct();
  }

  /** Passing a response through the middleware twice is the same as once. */
  lemma {:induction false} DecorateIdempotent(headers: Headers, allowed: seq<string>, origin: Option<string>)
    ensures Decorate(Decorate(headers, allowed, origin), allowed, origin) == Decorate(headers, allowed, origin)
  {
    if Admits(allowed, origin) {
      var d := Decorate(headers, allowed, origin);
      DecorateHeaders(headers, allowed, origin);
      DecorateHeaders(d, allowed, origin);
      assert Decorate(d, allowed, origin).Keys == d.Keys;
    }
  }
}
