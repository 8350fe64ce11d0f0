/**
 * What every API route handler shares: the request as the handlers read it, the client
 * token for the rate check, the bearer-token extraction, the authentication prelude and the
 * mapping of a thrown error to a status code.
 */
module Http {
  import opened Wrappers
  import opened Text
  import opened Windows

  const Loopback: string := "127.0.0.1"

  /** A JSON value as the handlers test it. `Other` stands for arrays, objects and
      non-integer numbers: all truthy and none of them a string. */
  datatype Value = Undefined | Null | Bool(b: bool) | Num(n: int) | Str(s: string) | Other

  /** JavaScript truthiness. */
  predicate Truthy(v: Value) {
    match v
    case Undefined => false
    case Null => false
    case Bool(b) => b
    case Num(n) => n != 0
    case Str(s) => s != ""
    case Other => true
  }

  /** A request body after `req.json()`: the parse either rejects or yields a top-level value. */
  datatype Body = Malformed(error: Thrown) | NullJson | ObjectJson(fields: map<string, Value>) | OtherJson

  const NullBodyMessage: string := "Cannot destructure property of null"

  /** The property `name` of an object; a missing key reads as `undefined`. */
  function Field(fields: map<string, Value>, name: string): Value {
    if name in fields then fields[name] else Undefined
  }

  /** `const { ... } = await req.json()`: a parse error propagates, a `null` body makes the
      destructuring throw, and any non-object value yields only `undefined` properties. */
  function Destructure(body: Body): (r: Result<map<string, Value>, Thrown>)
    ensures r.Err? <==> body.Malformed? || body.NullJson?
    ensures body.ObjectJson? ==> r == Ok(body.fields)
  {
    match body
    case Malformed(e) => Err(e)
    case NullJson => Err(Thrown(NullBodyMessage))
    case ObjectJson(fields) => Ok(fields)
    case OtherJson => Ok(map[])
  }

  /** The request as the handlers see it: the platform-reported client address, the
      `x-forwarded-for` and `authorization` headers, the query parameters and the body. */
  datatype Request = Request(
    ip: Option<string>,
    forwardedFor: Option<string>,
    authorization: Option<string>,
    query: map<string, string>,
    body: Body)

  function Query(req: Request, name: string): Option<string> {
    if name in req.query then Some(req.query[name]) else None
  }

  /** Rate token of the comments routes: the trimmed first comma-separated entry of
      `x-forwarded-for`, or the loopback address only when the header is absent. */
  function ForwardedClient(forwardedFor: Option<string>): (token: string)
    ensures forwardedFor.None? ==> token == Loopback
    ensures forwardedFor.Some? ==> |token| <= |forwardedFor.value|
  {
    match forwardedFor
    case None => Loopback
    case Some(h) => Trim(Split(h, ',')[0])
  }

  lemma ForwardedClientSpec(forwardedFor: Option<string>)
    ensures forwardedFor.None? ==> ForwardedClient(forwardedFor) == Loopback
    ensures forwardedFor.Some? ==>
      var first := Split(forwardedFor.value, ',')[0];
      first <= forwardedFor.value && ',' !in first &&
      (|first| < |forwardedFor.value| ==> forwardedFor.value[|first|] == ',') &&
      IsTrimOf(first, ForwardedClient(forwardedFor))
  {
    if forwardedFor.Some? {
      FirstPieceIsPrefix(forwardedFor.value, ',');
      TrimSpec(Split(forwardedFor.value, ',')[0]);
    }
  }

  /** A present but blank header gives the empty token: there is no empty-token check. */
  lemma BlankForwardedForGivesEmptyToken()
    ensures ForwardedClient(Some("  ")) == ""
  {
    assert Split("  ", ',') == ["  "] by {
      assert Split(" ", ',') == [" "];
    }
    assert TrimStart("  ") == TrimStart(" ");
  }

  /** Rate token of the other routes: `req.ip`, or the loopback address. */
  function PlatformClient(ip: Option<string>): (r: string)
    ensures ip.Some? ==> r == ip.value
    ensures ip.None? ==> r == Loopback
  {
    ip.GetOr(Loopback)
  }

  /** `const [, token] = (authorization || '').split(' ')`, kept only when non-empty: the text
      between the first space and the next one (or the end). */
  function BearerToken(authorization: Option<string>): (r: Option<string>)
    ensures r.Some? ==> r.value != "" && ' ' !in r.value
  {
    var pieces := Split(authorization.GetOr(""), ' ');
    if |pieces| >= 2 && pieces[1] != "" then Some(pieces[1]) else None
  }

  /** The token of `<scheme> <token>` is found for any scheme word and any non-empty token
      without spaces; a header with no space, or no header, yields none. */
  lemma {:induction false} BearerTokenSpec(scheme: string, token: string, h: string)
    requires ' ' !in scheme && ' ' !in token && token != ""
    ensures BearerToken(Some(scheme + " " + token)) == Some(token)
    ensures ' ' !in h ==> BearerToken(Some(h)) == None
    ensures BearerToken(None) == None
  {
    var s := scheme + " " + token;
    var pieces := Split(s, ' ');
    FirstPieceIsPrefix(s, ' ');
    SplitNoSeparator(token, ' ');
    SplitNoSeparator(scheme, ' ');
    SplitAfterPrefix(scheme, token, ' ');
    if ' ' !in h { SplitNoSeparator(h, ' '); }
    SplitNoSeparator("", ' ');
  }

  lemma {:induction false} SplitNoSeparator(s: string, sep: char)
    requires sep !in s
    ensures Split(s, sep) == [s]
    decreases |s|
  {
    if s != [] {
      assert sep !in s[1..];
      SplitNoSeparator(s[1..], sep);
      assert [s[0]] + s[1..] == s;
    }
  }

  lemma {:induction false} SplitAfterPrefix(a: string, b: string, sep: char)
    requires sep !in a
    ensures Split(a + [sep] + b, sep) == [a] + Split(b, sep)
    decreases |a|
  {
    if a == [] {
      assert a + [sep] + b == [sep] + b;
      assert ([sep] + b)[1..] == b;
    } else {
      var s := a + [sep] + b;
      assert s[1..] == a[1..] + [sep] + b;
      assert sep !in a[1..];
      SplitAfterPrefix(a[1..], b, sep);
      assert [a[0]] + a[1..] == a;
    }
  }

  /** What the identity provider says of a bearer token: the user's id (already mapped to
      the database's UUID form), or the error it throws. */
  datatype Verification = Verified(userId: string) | Rejected(error: Thrown)

  /** The reply a handler sends: an error status with a message, or a status with a payload. */
  datatype Reply<+T> = Fail(status: int, message: string) | Done(status: int, payload: T)

  /** A handler's reply together with the backend operations it performed, in order. */
  datatype Handled<+T, +E> = Handled(reply: Reply<T>, effects: seq<E>)

  const MissingBearer: string := "Missing Authorization Bearer token"
  const InvalidToken: string := "Invalid token"

  /** The `catch` of every handler: only the exact message "Rate limit exceeded" is 429;
      every other thrown error is a 500. */
  function ThrownStatus(e: Thrown): (status: int)
    ensures status == 429 <==> e.message == RateLimitExceeded
    ensures status == 500 <==> e.message != RateLimitExceeded
  {
    if e.message == RateLimitExceeded then 429 else 500
  }

  /** The message the `catch` replies with: "Rate limit exceeded" for that error, and the
      route's own fixed text (`fallback`) for any other; the thrown message only goes into the
      reply's `details`. */
  function CaughtMessage(e: Thrown, fallback: string): (message: string)
    ensures e.message == RateLimitExceeded ==> message == RateLimitExceeded
    ensures e.message != RateLimitExceeded ==> message == fallback
  {
    if e.message == RateLimitExceeded then RateLimitExceeded else fallback
  }

  /** The reply of a handler's `catch` for the error `e`. */
  function Caught<T>(e: Thrown, fallback: string): (r: Reply<T>)
    ensures r.Fail? && r.status == ThrownStatus(e) && r.message == CaughtMessage(e, fallback)
  {
    Fail(ThrownStatus(e), CaughtMessage(e, fallback))
  }

  /** How far the shared prelude got: on to the handler body with the user's id, or a reply. */
  datatype Gate = Admit(userId: string) | Refuse(status: int, message: string)

  /** The prelude of the routes that catch verification errors: the rate verdict first (a
      thrown check reaches the route's `catch`, whose fixed text is `fallback`), then 401 for a
      missing bearer token, then 403 when verification throws. */
  function Authenticate(verdict: Result<(), Thrown>, authorization: Option<string>,
                        verify: string -> Verification, fallback: string): (g: Gate)
    ensures verdict.Err? ==> g == Refuse(ThrownStatus(verdict.error), CaughtMessage(verdict.error, fallback))
    ensures verdict.Ok? && BearerToken(authorization).None? ==> g == Refuse(401, MissingBearer)
    ensures verdict.Ok? && BearerToken(authorization).Some? ==>
      match verify(BearerToken(authorization).value)
      case Verified(id) => g == Admit(id)
      case Rejected(_) => g == Refuse(403, InvalidToken)
  {
    if verdict.Err? then Refuse(ThrownStatus(verdict.error), CaughtMessage(verdict.error, fallback))
    else match BearerToken(authorization)
      case None => Refuse(401, MissingBearer)
      case Some(token) =>
        match verify(token)
        case Verified(id) => Admit(id)
        case Rejected(_) => Refuse(403, InvalidToken)
  }
}
