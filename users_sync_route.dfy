/**
 * `/api/users/sync` POST: after sign-in, creates the user's `users` row if missing and
 * upserts the profile with defaults. Rate-limited by client address before authenticating.
 */
module UsersSyncRoute {
  import opened Wrappers
  import opened Text
  import opened Windows
  import opened RateLimiter
  import opened Http

  const SyncLimit: int := 20
  const MaxName: int := 100
  const DefaultUsername: string := "user"
  const UserRole: string := "user"
  const InvalidBody: string := "Invalid request body"
  /** The text of the 500 reply to an unexpected failure. */
  const SyncFailure: string := "users/sync failed"

  /** The URL and e-mail format checks of the body schema, which come from a validation
      library and are taken as given. */
  datatype Validators = Validators(isUrl: string -> bool, isEmail: string -> bool)

  /** The body after a successful schema check. */
  datatype SyncBody = SyncBody(name: Option<string>, avatarUrl: Option<string>, email: Option<string>)

  /** A value an optional string field accepts: absent, or a string that passes `ok`. */
  predicate Fits(v: Value, ok: string -> bool) {
    v.Undefined? || (v.Str? && ok(v.s))
  }

  /** An optional string field: absent, or a string that passes `ok`. Anything else, `null`
      included, fails. */
  function OptionalString(v: Value, ok: string -> bool): (r: Result<Option<string>, string>)
    ensures r.Ok? <==> Fits(v, ok)
    ensures r.Ok? ==> (r.value.Some? <==> v.Str?) && (v.Str? ==> r.value == Some(v.s))
  {
    match v
    case Undefined => Ok(None)
    case Str(s) => if ok(s) then Ok(Some(s)) else Err("invalid")
    case _ => Err("invalid")
  }

  predicate NameLength(s: string) {
    1 <= |s| <= MaxName
  }

  /** `bodySchema.safeParse(await req.json().catch(() => ({})))`: a body that does not parse
      counts as `{}`; anything but an object fails, as does any present field of the wrong
      shape. */
  function ParseBody(body: Body, v: Validators): (r: Option<SyncBody>)
    ensures body.Malformed? ==> r == Some(SyncBody(None, None, None))
    ensures body.NullJson? || body.OtherJson? ==> r.None?
    ensures r.Some? && r.value.name.Some? ==> NameLength(r.value.name.value)
    ensures body.ObjectJson? ==>
      (r.Some? <==>
        Fits(Field(body.fields, "name"), NameLength) && Fits(Field(body.fields, "avatar_url"), v.isUrl) &&
        Fits(Field(body.fields, "email"), v.isEmail))
    ensures r.Some? && body.ObjectJson? ==>
      (r.value.name.Some? ==> Field(body.fields, "name") == Str(r.value.name.value)) &&
      (r.value.avatarUrl.Some? ==> Field(body.fields, "avatar_url") == Str(r.value.avatarUrl.value)) &&
      (r.value.email.Some? ==> Field(body.fields, "email") == Str(r.value.email.value)) &&
      (r.value.name.None? ==> Field(body.fields, "name").Undefined?) &&
      (r.value.avatarUrl.None? ==> Field(body.fields, "avatar_url").Undefined?) &&
      (r.value.email.None? ==> Field(body.fields, "email").Undefined?)
  {
    var fields := if body.ObjectJson? then body.fields else map[];
    if body.NullJson? || body.OtherJson? then None
    else
      var name := OptionalString(Field(fields, "name"), NameLength);
      var avatar := OptionalString(Field(fields, "avatar_url"), v.isUrl);
      var email := OptionalString(Field(fields, "email"), v.isEmail);
      if name.Err? || avatar.Err? || email.Err? then None
      else Some(SyncBody(name.value, avatar.value, email.value))
  }

  /** The schema accepts an empty object, and an object holding only a name of 1 to 100
      characters, taking the name as given. */
  lemma ParseBodyAccepts(name: string, v: Validators)
    ensures ParseBody(ObjectJson(map[]), v) == Some(SyncBody(None, None, None))
    ensures NameLength(name) ==> ParseBody(ObjectJson(map["name" := Str(name)]), v) == Some(SyncBody(Some(name), None, None))
  {
  }

  /** `(email?.split('@')[0] || 'user').toLowerCase()` */
  function BaseUsername(email: Option<string>): (b: string)
    ensures b != []
    ensures forall k :: 0 <= k < |b| ==> !('A' <= b[k] <= 'Z')
  {
    var local := if email.Some? then Split(email.value, '@')[0] else "";
    Lower(if local == "" then DefaultUsername else local)
  }

  /** The base username is never empty and holds no '@' and no upper-case ASCII letter; it is
      "user" when there is no e-mail. */
  lemma BaseUsernameShape(email: Option<string>)
    ensures var b := BaseUsername(email);
      b != "" && '@' !in b && forall k :: 0 <= k < |b| ==> !('A' <= b[k] <= 'Z')
    ensures email.None? ==> BaseUsername(email) == DefaultUsername
  {
    if email.Some? {
      BaseUsernameOfSome(email.value);
    } else {
      LowerKeepsLower(DefaultUsername);
    }
  }

  /** The shape of the base username for an e-mail address that is present. */
  lemma BaseUsernameOfSome(email: string)
    ensures var b := BaseUsername(Some(email)); b != "" && '@' !in b
  {
    var l := Split(email, '@')[0];
    BaseUsernameOfLocalPart(email, l);
    if l == "" {
      LowerKeepsLower(DefaultUsername);
    } else {
      LowerKeepsAt(l);
    }
  }

  /** Lower-casing adds no '@'. */
  lemma LowerKeepsAt(s: string)
    requires '@' !in s
    ensures '@' !in Lower(s)
  {
    var r := Lower(s);
    forall k | 0 <= k < |r| ensures r[k] != '@' {
      assert r[k] == LowerChar(s[k]);
    }
  }

  /** For an address `local@domain` the base username is the lower-cased local part, or "user"
      when the local part is empty. */
  lemma BaseUsernameOfAddress(local: string, domain: string)
    requires '@' !in local
    ensures BaseUsername(Some(local + "@" + domain)) == if local == "" then DefaultUsername else Lower(local)
  {
    var address := local + "@" + domain;
    assert address == local + ['@'] + domain;
    SplitAfterPrefix(local, domain, '@');
    BaseUsernameOfLocalPart(address, local);
  }

  /** The base username depends on the address only through its local part. */
  lemma BaseUsernameOfLocalPart(email: string, local: string)
    requires Split(email, '@')[0] == local
    ensures BaseUsername(Some(email)) == if local == "" then DefaultUsername else Lower(local)
  {
    LowerKeepsLower(DefaultUsername);
  }

  /** A string with no upper-case ASCII letter is its own lower case. */
  lemma LowerKeepsLower(s: string)
    requires forall k :: 0 <= k < |s| ==> !('A' <= s[k] <= 'Z')
    ensures Lower(s) == s
  {
    var r := Lower(s);
    forall k | 0 <= k < |s| ensures r[k] == s[k] {
      assert r[k] == LowerChar(s[k]);
    }
  }

  /** `${baseUsername}-${userId.slice(0, 8)}` */
  function UniqueUsername(base: string, userId: string): (u: string)
    ensures |u| == |base| + 1 + (if |userId| < 8 then |userId| else 8)
    ensures u[..|base| + 1] == base + "-" && u[|base| + 1..] <= userId
  {
    base + "-" + Take(userId, 8)
  }

  datatype Effect =
    | InsertUser(id: string, username: string, role: string)
    | UpsertProfile(id: string, name: string, avatarUrl: string)

  /** The outcomes of the handler's backend calls: how many `users` rows the lookup found (or
      its error), the insert's error and the profile upsert's error. */
  datatype SyncDb = SyncDb(existing: Result<nat, string>, insertError: Option<string>, upsertError: Option<string>)

  /** POST after the rate check produced `verdict`. Unlike the other routes, a token that fails
      verification is not caught locally: its error reaches the outer handler. */
  function Sync(req: Request, verdict: Result<(), Thrown>, verify: string -> Verification,
                v: Validators, db: SyncDb): (h: Handled<string, Effect>)
    ensures |h.effects| <= 2
    ensures h.reply.Done? ==> h.reply.status == 200 && |h.effects| >= 1 && h.effects[|h.effects| - 1].UpsertProfile?
  {
    if verdict.Err? then Handled(Caught(verdict.error, SyncFailure), [])
    else match BearerToken(req.authorization)
      case None => Handled(Fail(401, MissingBearer), [])
      case Some(token) =>
        match verify(token)
        case Rejected(e) => Handled(Caught(e, SyncFailure), [])
        case Verified(userId) =>
          match ParseBody(req.body, v)
          case None => Handled(Fail(400, InvalidBody), [])
          case Some(body) =>
            var base := BaseUsername(body.email);
            match db.existing
            case Err(_) => Handled(Fail(400, "User lookup failed"), [])
            case Ok(found) =>
              if found == 0 && db.insertError.Some? then Handled(Fail(400, "Insert user failed"), [])
              else
                var created := if found == 0 then [InsertUser(userId, UniqueUsername(base, userId), UserRole)] else [];
                if db.upsertError.Some? then Handled(Fail(400, "Upsert profile failed"), created)
                else
                  var name := if body.name.Some? && body.name.value != "" then body.name.value else base;
                  var avatar := if body.avatarUrl.Some? && body.avatarUrl.value != "" then body.avatarUrl.value else "";
                  Handled(Done(200, userId), created + [UpsertProfile(userId, name, avatar)])
  }

  /** Once the caller is verified and the body accepted: a failed lookup is 400; a missing user
      is inserted first (a failed insert is 400 with nothing else written); then the profile is
      upserted with the name or the base username and the avatar URL or "", and the reply is 200
      with the user id, or 400 should the upsert fail. */
  lemma SyncDecides(req: Request, verdict: Result<(), Thrown>, verify: string -> Verification, v: Validators, db: SyncDb)
    requires verdict.Ok? && BearerToken(req.authorization).Some?
    requires verify(BearerToken(req.authorization).value).Verified?
    requires ParseBody(req.body, v).Some?
    ensures var h := Sync(req, verdict, verify, v, db);
      var userId := verify(BearerToken(req.authorization).value).userId;
      var body := ParseBody(req.body, v).value;
      var base := BaseUsername(body.email);
      var created := if db.existing == Ok(0) then [InsertUser(userId, UniqueUsername(base, userId), UserRole)] else [];
      (db.existing.Err? ==> h == Handled(Fail(400, "User lookup failed"), [])) &&
      (db.existing == Ok(0) && db.insertError.Some? ==> h == Handled(Fail(400, "Insert user failed"), [])) &&
      (db.existing.Ok? && (db.existing.value > 0 || db.insertError.None?) ==>
         (db.upsertError.Some? ==> h == Handled(Fail(400, "Upsert profile failed"), created)) &&
         (db.upsertError.None? ==>
            h == Handled(Done(200, userId),
                         created + [UpsertProfile(userId, body.name.GetOr(base), body.avatarUrl.GetOr(""))])))
  {
    var body := ParseBody(req.body, v).value;
    if body.name.Some? {
      assert NameLength(body.name.value);
    }
  }

  /** The replies that come before any write: a failed rate check is answered by the `catch`
      (429, or 500 "users/sync failed"), a missing bearer token is 401, and, for a verified
      caller, a body the schema rejects is 400 "Invalid request body". */
  lemma SyncRefuses(req: Request, verdict: Result<(), Thrown>, verify: string -> Verification, v: Validators, db: SyncDb)
    ensures var h := Sync(req, verdict, verify, v, db);
      var token := BearerToken(req.authorization);
      (verdict.Err? ==> h == Handled(Caught(verdict.error, SyncFailure), [])) &&
      (verdict.Ok? && token.None? ==> h == Handled(Fail(401, MissingBearer), [])) &&
      (verdict.Ok? && token.Some? && verify(token.value).Verified? && ParseBody(req.body, v).None? ==>
        h == Handled(Fail(400, InvalidBody), []))
  {
  }

  /** A token that fails verification is a server error (500 "users/sync failed", or 429
      should its message read "Rate limit exceeded"), never 403, and nothing is written. */
  lemma VerificationNotCaught(req: Request, verdict: Result<(), Thrown>, verify: string -> Verification, v: Validators, db: SyncDb)
    requires verdict.Ok? && BearerToken(req.authorization).Some?
    requires verify(BearerToken(req.authorization).value).Rejected?
    ensures var h := Sync(req, verdict, verify, v, db);
      var e := verify(BearerToken(req.authorization).value).error;
      h.reply == Fail(ThrownStatus(e), CaughtMessage(e, SyncFailure)) && h.reply.status != 403 && h.effects == []
  {
    var e := verify(BearerToken(req.authorization).value).error;
    assert ThrownStatus(e) in {429, 500};
  }

  /** A `users` row is inserted only when the lookup found none, and then first, with role
      "user" and the derived unique username. */
  lemma InsertsUserOnlyWhenMissing(req: Request, verdict: Result<(), Thrown>, verify: string -> Verification, v: Validators, db: SyncDb)
    ensures var h := Sync(req, verdict, verify, v, db);
      forall k :: 0 <= k < |h.effects| && h.effects[k].InsertUser? ==>
        var token := BearerToken(req.authorization);
        k == 0 && db.existing == Ok(0) && h.effects[k].role == UserRole &&
        token.Some? && verify(token.value).Verified? && ParseBody(req.body, v).Some? &&
        h.effects[k].username ==
          UniqueUsername(BaseUsername(ParseBody(req.body, v).value.email), verify(token.value).userId)
  {
    var h := Sync(req, verdict, verify, v, db);
    var token := BearerToken(req.authorization);
    if verdict.Ok? && token.Some? && verify(token.value).Verified? && ParseBody(req.body, v).Some? && db.existing.Ok? {
      SyncDecides(req, verdict, verify, v, db);
      var userId := verify(token.value).userId;
      var base := BaseUsername(ParseBody(req.body, v).value.email);
      assert forall k :: 1 <= k < |h.effects| ==> h.effects[k].UpsertProfile?;
      assert forall k :: 0 <= k < |h.effects| && h.effects[k].InsertUser? ==>
        k == 0 && db.existing == Ok(0) && h.effects[k] == InsertUser(userId, UniqueUsername(base, userId), UserRole);
    } else {
      assert h.effects == [];
    }
  }

  /** A 200 reply ends with the profile upsert, whose name defaults to the base username and
      avatar URL to ""; a user row was inserted before it exactly when none existed. */
  lemma UpsertDefaults(req: Request, verdict: Result<(), Thrown>, verify: string -> Verification, v: Validators, db: SyncDb)
    requires Sync(req, verdict, verify, v, db).reply.status == 200
    ensures var h := Sync(req, verdict, verify, v, db);
      var token := BearerToken(req.authorization);
      var body := ParseBody(req.body, v).value;
      token.Some? && verify(token.value).Verified? && ParseBody(req.body, v).Some? &&
      |h.effects| >= 1 &&
      h.effects[|h.effects| - 1] == UpsertProfile(verify(token.value).userId,
        body.name.GetOr(BaseUsername(body.email)), body.avatarUrl.GetOr("")) &&
      (db.existing == Ok(0) <==> |h.effects| == 2)
  {
    assert forall e: Thrown :: ThrownStatus(e) != 200;
    var body := ParseBody(req.body, v).value;
    if body.name.Some? {
      assert NameLength(body.name.value);
    }
  }

  /** A present `name` outside 1 to 100 characters fails the schema: 400, nothing written. */
  lemma RejectsBadName(req: Request, verdict: Result<(), Thrown>, verify: string -> Verification, v: Validators, db: SyncDb)
    requires verdict.Ok? && BearerToken(req.authorization).Some?
    requires verify(BearerToken(req.authorization).value).Verified?
    requires req.body.ObjectJson? && Field(req.body.fields, "name").Str?
    requires !NameLength(Field(req.body.fields, "name").s)
    ensures Sync(req, verdict, verify, v, db) == Handled(Fail(400, InvalidBody), [])
  {
  }

  /** The handler as the server runs it: one rate check on `req.ip` (or the loopback address)
      with limit 20, then the request logic on its verdict. */
  method Post(limiter: Limiter, req: Request, now: int, io: StoreIo, verify: string -> Verification,
              v: Validators, db: SyncDb) returns (h: Handled<string, Effect>)
    modifies limiter.store.Footprint()
    ensures limiter.store.Table() == old(limiter.CheckStep(PlatformClient(req.ip), now, io)).table
    ensures h == Sync(req, Verdict(SyncLimit, old(limiter.CheckStep(PlatformClient(req.ip), now, io)).result), verify, v, db)
  {
    var verdict := limiter.Check(SyncLimit, PlatformClient(req.ip), now, io);
    h := Sync(req, verdict, verify, v, db);
  }
}
