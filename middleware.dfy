/**
 * The edge middleware: blocks API requests without an `authorization` header and adds the
 * security headers to every response it lets through.
 */
module Middleware {
  import opened Wrappers
  import opened Text

  /** The parts of a request the middleware reads: path, HTTP method (`verb`), host name ("" when
      the URL has none) and the `authorization` header. */
  datatype EdgeRequest = EdgeRequest(pathname: string, verb: string, hostname: string, authorization: Option<string>)

  /** A response's header list, by header name. */
  class Headers {
    var entries: map<string, string>

    constructor (initial: map<string, string>)
      ensures entries == initial
    {
      entries := initial;
    }

    method Set(name: string, value: string)
      modifies this
      ensures entries == old(entries)[name := value]
    {
      entries := entries[name := value];
    }
  }

  class Response {
    const status: int
    const headers: Headers
    const message: string

    constructor (status: int, headers: Headers, message: string)
      ensures this.status == status && this.headers == headers && this.message == message
    {
      this.status := status;
      this.headers := headers;
      this.message := message;
    }
  }

  const FrameOptions: string := "X-Frame-Options"
  const ContentTypeOptions: string := "X-Content-Type-Options"
  const ReferrerPolicy: string := "Referrer-Policy"
  const PermissionsPolicy: string := "Permissions-Policy"
  const TransportSecurity: string := "Strict-Transport-Security"
  const HstsValue: string := "max-age=63072000; includeSubDomains; preload"

  predicate IsLocalhost(hostname: string) {
    hostname == "localhost" || hostname == "127.0.0.1"
  }

  /** The headers `withSecurityHeaders` sets for a request to `hostname`. */
  function SecurityHeaders(hostname: string): (h: map<string, string>)
    ensures FrameOptions in h && h[FrameOptions] == "DENY"
    ensures ContentTypeOptions in h && h[ContentTypeOptions] == "nosniff"
    ensures ReferrerPolicy in h && h[ReferrerPolicy] == "strict-origin-when-cross-origin"
    ensures PermissionsPolicy in h && h[PermissionsPolicy] == "camera=(), microphone=(), geolocation=()"
    ensures TransportSecurity in h <==> !IsLocalhost(hostname)
    ensures TransportSecurity in h ==> h[TransportSecurity] == HstsValue
  {
    var base := map[FrameOptions := "DENY", ContentTypeOptions := "nosniff",
                     ReferrerPolicy := "strict-origin-when-cross-origin",
                     PermissionsPolicy := "camera=(), microphone=(), geolocation=()"];
    if IsLocalhost(hostname) then base else base[TransportSecurity := HstsValue]
  }

  /** `withSecurityHeaders(req, res)`: the successive `set` calls on the response's headers. */
  method WithSecurityHeaders(req: EdgeRequest, res: Response)
    modifies res.headers
    ensures res.headers.entries == old(res.headers.entries) + SecurityHeaders(req.hostname)
  {
    ghost var before := res.headers.entries;
    assert before == before + map[];
    res.headers.Set(FrameOptions, "DENY");
    SetOverUnion(before, map[], FrameOptions, "DENY");
    res.headers.Set(ContentTypeOptions, "nosniff");
    SetOverUnion(before, map[FrameOptions := "DENY"], ContentTypeOptions, "nosniff");
    res.headers.Set(ReferrerPolicy, "strict-origin-when-cross-origin");
    SetOverUnion(before, map[FrameOptions := "DENY", ContentTypeOptions := "nosniff"],
      ReferrerPolicy, "strict-origin-when-cross-origin");
    res.headers.Set(PermissionsPolicy, "camera=(), microphone=(), geolocation=()");
    SetOverUnion(before, map[FrameOptions := "DENY", ContentTypeOptions := "nosniff",
      ReferrerPolicy := "strict-origin-when-cross-origin"],
      PermissionsPolicy, "camera=(), microphone=(), geolocation=()");
    var isLocalhost := req.hostname == "localhost" || req.hostname == "127.0.0.1";
    if !isLocalhost {
      res.headers.Set(TransportSecurity, HstsValue);
      SetOverUnion(before, map[FrameOptions := "DENY", ContentTypeOptions := "nosniff",
        ReferrerPolicy := "strict-origin-when-cross-origin",
        PermissionsPolicy := "camera=(), microphone=(), geolocation=()"],
        TransportSecurity, HstsValue);
    }
  }

  /** Setting a header on `m + n` is setting it in the overriding part `n`. */
  lemma SetOverUnion(m: map<string, string>, n: map<string, string>, name: string, value: string)
    ensures (m + n)[name := value] == m + n[name := value]
  {
  }

  predicate IsApi(req: EdgeRequest) {
    StartsWith(req.pathname, "/api/")
  }

  /** Whether the middleware answers 401 itself instead of passing the request on. */
  function Blocks(req: EdgeRequest): (blocked: bool)
    ensures blocked ==> StartsWith(req.pathname, "/api/") && req.verb != "OPTIONS"
    ensures blocked ==> req.authorization.GetOr("") == ""
  {
    if IsApi(req) && req.verb == "OPTIONS" then false
    else IsApi(req) && (req.authorization.None? || req.authorization.value == "")
  }

  /** Only API requests other than preflights are blocked, and exactly those without a
      non-empty `authorization` header; the header's content is not examined. */
  lemma BlocksSpec(req: EdgeRequest)
    ensures Blocks(req) <==>
      StartsWith(req.pathname, "/api/") && req.verb != "OPTIONS" && req.authorization.GetOr("") == ""
    ensures !StartsWith(req.pathname, "/api/") ==> !Blocks(req)
    ensures req.verb == "OPTIONS" ==> !Blocks(req)
  {
  }

  const MissingAuthorization: string := "Missing Authorization header"

  /** `middleware(req)`: a blocked request gets a 401 JSON reply carrying only its content type;
      every other request passes on with the security headers. */
  method Handle(req: EdgeRequest) returns (res: Response)
    ensures fresh(res) && fresh(res.headers)
    ensures Blocks(req) ==> res.status == 401 && res.message == MissingAuthorization
    ensures Blocks(req) ==> res.headers.entries == map["content-type" := "application/json"]
    ensures !Blocks(req) ==> res.status == 200 && res.headers.entries == SecurityHeaders(req.hostname)
  {
    var isApi := StartsWith(req.pathname, "/api/");
    if isApi && req.verb == "OPTIONS" {
      var headers := new Headers(map[]);
      res := new Response(200, headers, "");
      WithSecurityHeaders(req, res);
      return;
    }
    if isApi {
      if req.authorization.None? || req.authorization.value == "" {
        var headers := new Headers(map["content-type" := "application/json"]);
        res := new Response(401, headers, MissingAuthorization);
        return;
      }
    }
    var headers := new Headers(map[]);
    res := new Response(200, headers, "");
    WithSecurityHeaders(req, res);
  }
}
