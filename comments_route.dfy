/**
 * `/api/comments`: GET lists a question's comments with their authors; POST adds a comment.
 * Both rate-limit by forwarded client address before authenticating.
 */
module CommentsRoute {
  import opened Wrappers
  import opened Text
  import opened Windows
  import opened RateLimiter
  import opened Http
  import opened Profiles

  const ListLimit: int := 60
  const CreateLimit: int := 10
  const MaxContent: int := 1000
  const Anonymous: string := "Anonymous"
  /** The messages of the two handlers' `catch` for errors other than the rate limit. */
  const ListFailure: string := "Fetch comments failed"
  const CreateFailure: string := "Create comment failed"

  /** A `comments` row as selected. */
  datatype CommentRow = CommentRow(id: string, content: string, createdAt: string, userId: string)

  datatype Author = Author(name: string, avatarUrl: string)

  /** A comment as returned to the client. */
  datatype CommentView = CommentView(id: string, content: string, createdAt: string, userId: string, author: Author)

  /** The backend operations the handlers perform. */
  datatype Effect =
    | FetchComments(questionId: string)
    | LookupProfiles(ids: set<string>)
    | InsertComment(questionId: string, userId: string, content: string)

  /** Author of a comment: the indexed profile's name, or "Anonymous", and its avatar URL, or "". */
  function AuthorOf(index: map<string, ProfileView>, userId: string): (a: Author)
    ensures userId !in index ==> a == Author(Anonymous, "")
    ensures userId in index ==>
      a == Author(index[userId].name.GetOr(Anonymous), index[userId].avatarUrl.GetOr(""))
  {
    if userId in index then Author(index[userId].name.GetOr(Anonymous), index[userId].avatarUrl.GetOr(""))
    else Author(Anonymous, "")
  }

  function ViewComment(c: CommentRow, index: map<string, ProfileView>): CommentView {
    CommentView(c.id, c.content, c.createdAt, c.userId, AuthorOf(index, c.userId))
  }

  /** The `map` over the fetched comments. */
  function CommentItems(rows: seq<CommentRow>, index: map<string, ProfileView>): seq<CommentView> {
    seq(|rows|, i requires 0 <= i < |rows| => ViewComment(rows[i], index))
  }

  /** The outcomes of the GET handler's backend reads: the comments query and the profiles query
      (error message on failure). */
  datatype ListDb = ListDb(comments: Result<seq<CommentRow>, string>, profiles: Result<seq<ProfileRow>, string>)

  /** GET after the rate check produced `verdict`. */
  function List(req: Request, verdict: Result<(), Thrown>, verify: string -> Verification, db: ListDb)
    : (h: Handled<seq<CommentView>, Effect>)
    ensures h.reply.Done? ==> db.comments.Ok? && |h.reply.payload| == |db.comments.value|
    ensures h.effects != [] ==> h.effects[0].FetchComments?
    ensures forall k :: 1 <= k < |h.effects| ==> h.effects[k].LookupProfiles?
  {
    match Authenticate(verdict, req.authorization, verify, ListFailure)
    case Refuse(status, message) => Handled(Fail(status, message), [])
    case Admit(userId) =>
      var questionId := Query(req, "question_id");
      if questionId.None? || questionId.value == "" then
        Handled(Fail(400, "Missing question_id parameter"), [])
      else
        var fetch := [FetchComments(questionId.value)];
        match db.comments
        case Err(_) => Handled(Fail(400, "Fetch failed"), fetch)
        case Ok(rows) =>
          var ids := IdSet(seq(|rows|, i requires 0 <= i < |rows| => rows[i].userId));
          if ids == {} then Handled(Done(200, CommentItems(rows, map[])), fetch)
          else
            Handled(Done(200, CommentItems(rows, ListIndex(db.profiles))), fetch + [LookupProfiles(ids)])
  }

  /** GET's outcomes: the rate check and authentication come first; a missing `question_id` is
      400 before any query; the comments of that question are then fetched, and a failed query
      is 400; otherwise 200 with one item per fetched comment, in order, each with its author
      resolved through the profiles of exactly the comments' authors (a failed profiles query
      only loses the names). Nothing is written. */
  lemma ListSpec(req: Request, verdict: Result<(), Thrown>, verify: string -> Verification, db: ListDb)
    ensures var h := List(req, verdict, verify, db);
      var gate := Authenticate(verdict, req.authorization, verify, ListFailure);
      var q := Query(req, "question_id");
      (gate.Refuse? ==> h == Handled(Fail(gate.status, gate.message), [])) &&
      (gate.Admit? && (q.None? || q.value == "") ==>
        h == Handled(Fail(400, "Missing question_id parameter"), [])) &&
      (gate.Admit? && q.Some? && q.value != "" ==> |h.effects| >= 1 && h.effects[0] == FetchComments(q.value)) &&
      (gate.Admit? && q.Some? && q.value != "" && db.comments.Err? ==>
        h == Handled(Fail(400, "Fetch failed"), [FetchComments(q.value)])) &&
      (h.reply.status == 200 <==> gate.Admit? && q.Some? && q.value != "" && db.comments.Ok?) &&
      (h.reply.status == 200 ==>
        var rows := db.comments.value;
        h.reply.Done? && |h.reply.payload| == |rows| &&
        (forall i :: 0 <= i < |rows| ==> h.reply.payload[i] == ViewComment(rows[i], ListIndex(db.profiles))) &&
        (rows == [] <==> |h.effects| == 1) &&
        (rows != [] ==> h.effects == [FetchComments(q.value), LookupProfiles(set i | 0 <= i < |rows| :: rows[i].userId)]) &&
        (db.profiles.Err? ==>
          forall i :: 0 <= i < |rows| ==> h.reply.payload[i].author == Author(Anonymous, "")))
  {
    var h := List(req, verdict, verify, db);
    var gate := Authenticate(verdict, req.authorization, verify, ListFailure);
    if gate.Refuse? {
      assert gate.status != 200 by {
        if verdict.Err? { assert gate.status == ThrownStatus(verdict.error); }
      }
    }
    if h.reply.status == 200 && gate.Admit? {
      var rows := db.comments.value;
      var ids := seq(|rows|, i requires 0 <= i < |rows| => rows[i].userId);
      assert IdSet(ids) == set i | 0 <= i < |rows| :: rows[i].userId by {
        forall id | id in IdSet(ids) ensures exists i :: 0 <= i < |rows| && rows[i].userId == id {
          var i :| 0 <= i < |ids| && ids[i] == id;
          assert rows[i].userId == id;
        }
        forall i | 0 <= i < |rows| ensures rows[i].userId in IdSet(ids) {
          assert ids[i] == rows[i].userId;
        }
      }
    }
  }

  /** The body fields POST reads. */
  datatype CreateDb = CreateDb(insert: Result<CommentRow, string>, profile: Option<ProfileView>)

  /** POST's validation: a non-empty string `question_id`, and string `content` whose trimmed
      length is between 1 and 1000. Returns the question id and the trimmed content. */
  function ValidateComment(fields: map<string, Value>): (r: Result<(string, string), string>)
    ensures r.Ok? <==>
      Field(fields, "question_id").Str? && Field(fields, "question_id").s != "" &&
      Field(fields, "content").Str? && 1 <= |Trim(Field(fields, "content").s)| <= MaxContent
    ensures r.Ok? ==> r.value == (Field(fields, "question_id").s, Trim(Field(fields, "content").s))
    ensures (Field(fields, "question_id").Str? && Field(fields, "question_id").s != "" &&
             Field(fields, "content").Str?) ==>
        (Trim(Field(fields, "content").s) == [] ==> r == Err("Invalid content")) &&
        (|Trim(Field(fields, "content").s)| > MaxContent ==> r == Err("Content too long (max 1000 characters)"))
  {
    var questionId := Field(fields, "question_id");
    var content := Field(fields, "content");
    if !Truthy(questionId) || !questionId.Str? then Err("Invalid question_id")
    else if !Truthy(content) || !content.Str? || |Trim(content.s)| < 1 then Err("Invalid content")
    else if |Trim(content.s)| > MaxContent then Err("Content too long (max 1000 characters)")
    else Ok((questionId.s, Trim(content.s)))
  }

  /** POST after the rate check produced `verdict`. */
  function Create(req: Request, verdict: Result<(), Thrown>, verify: string -> Verification, db: CreateDb)
    : (h: Handled<CommentView, Effect>)
    ensures |h.effects| <= 1
    ensures h.effects != [] ==> db.insert.Ok? && h.reply.Done? && h.reply.status == 201 && h.reply.payload.id == db.insert.value.id
  {
    match Authenticate(verdict, req.authorization, verify, CreateFailure)
    case Refuse(status, message) => Handled(Fail(status, message), [])
    case Admit(userId) =>
      match Destructure(req.body)
      case Err(e) => Handled(Caught(e, CreateFailure), [])
      case Ok(fields) =>
        match ValidateComment(fields)
        case Err(message) => Handled(Fail(400, message), [])
        case Ok((questionId, content)) =>
          match db.insert
          case Err(_) => Handled(Fail(400, "Create failed"), [])
          case Ok(row) =>
            var author := Author(
              if db.profile.Some? then db.profile.value.name.GetOr(Anonymous) else Anonymous,
              if db.profile.Some? then db.profile.value.avatarUrl.GetOr("") else "");
            Handled(Done(201, CommentView(row.id, row.content, row.createdAt, row.userId, author)),
                    [InsertComment(questionId, userId, content)])
  }

  /** POST writes at most one comment, and only one that passed validation: its content is the
      trimmed text, 1 to 1000 characters long, and the reply is 201. A request refused by the
      rate check or authentication gets that reply, a body that is not an object is answered by
      the `catch` ("Create comment failed"), and invalid fields are 400; none of them writes. */
  lemma CreateSpec(req: Request, verdict: Result<(), Thrown>, verify: string -> Verification, db: CreateDb)
    ensures var h := Create(req, verdict, verify, db);
      var gate := Authenticate(verdict, req.authorization, verify, CreateFailure);
      |h.effects| <= 1 &&
      (h.reply.status == 201 <==> |h.effects| == 1) &&
      (|h.effects| == 1 ==>
        var fields := Destructure(req.body).value;
        gate.Admit? && h.effects[0].InsertComment? &&
        h.effects[0].userId == gate.userId &&
        h.effects[0].content == Trim(Field(fields, "content").s) &&
        1 <= |h.effects[0].content| <= MaxContent &&
        h.effects[0].questionId == Field(fields, "question_id").s) &&
      (gate.Refuse? ==> h == Handled(Fail(gate.status, gate.message), [])) &&
      (gate.Admit? && Destructure(req.body).Err? ==>
        h == Handled(Caught(Destructure(req.body).error, CreateFailure), [])) &&
      (gate.Admit? && Destructure(req.body).Ok? && ValidateComment(Destructure(req.body).value).Err? ==>
        h == Handled(Fail(400, ValidateComment(Destructure(req.body).value).error), []))
  {
    var h := Create(req, verdict, verify, db);
    var gate := Authenticate(verdict, req.authorization, verify, CreateFailure);
    if gate.Refuse? {
      assert gate.status != 201 by {
        if verdict.Err? { assert gate.status == ThrownStatus(verdict.error); }
      }
    } else if Destructure(req.body).Err? {
      assert h.reply.status == ThrownStatus(Destructure(req.body).error);
    }
  }

  /** The converse: an authenticated request with valid fields whose insert succeeds writes
      exactly that comment, by that user, with the trimmed content, and is answered 201 with the
      stored row and its author ("Anonymous" and "" standing in for a missing profile); a failed
      insert is 400 "Create failed". */
  lemma CreateInserts(req: Request, verdict: Result<(), Thrown>, verify: string -> Verification, db: CreateDb)
    requires Authenticate(verdict, req.authorization, verify, CreateFailure).Admit?
    requires Destructure(req.body).Ok? && ValidateComment(Destructure(req.body).value).Ok?
    ensures var h := Create(req, verdict, verify, db);
      var userId := Authenticate(verdict, req.authorization, verify, CreateFailure).userId;
      var fields := Destructure(req.body).value;
      (db.insert.Ok? ==>
        var row := db.insert.value;
        h.effects == [InsertComment(Field(fields, "question_id").s, userId, Trim(Field(fields, "content").s))] &&
        h.reply == Done(201, CommentView(row.id, row.content, row.createdAt, row.userId,
          Author(if db.profile.Some? then db.profile.value.name.GetOr(Anonymous) else Anonymous,
                 if db.profile.Some? then db.profile.value.avatarUrl.GetOr("") else ""))) ) &&
      (db.insert.Err? ==> h == Handled(Fail(400, "Create failed"), []))
  {
  }

  /** Content that is only white space is refused as invalid, and content longer than 1000
      characters after trimming as too long; white space around the text does not count. */
  lemma ContentBounds(questionId: string, content: string)
    requires questionId != ""
    ensures var fields := map["question_id" := Str(questionId), "content" := Str(content)];
      (AllSpace(content) ==> ValidateComment(fields) == Err("Invalid content")) &&
      (|Trim(content)| > MaxContent ==> ValidateComment(fields) == Err("Content too long (max 1000 characters)"))
  {
    var fields := map["question_id" := Str(questionId), "content" := Str(content)];
    assert Field(fields, "question_id") == Str(questionId);
    assert Field(fields, "content") == Str(content);
    if AllSpace(content) {
      TrimStartOfSpace(content);
    }
  }

  /** The handlers as the server runs them: one rate check on the forwarded client address
      (limit 60 for GET, 10 for POST), then the request logic on its verdict. */
  method Get(limiter: Limiter, req: Request, now: int, io: StoreIo, verify: string -> Verification, db: ListDb)
    returns (h: Handled<seq<CommentView>, Effect>)
    modifies limiter.store.Footprint()
    ensures limiter.store.Table() == old(limiter.CheckStep(ForwardedClient(req.forwardedFor), now, io)).table
    ensures h == List(req, Verdict(ListLimit, old(limiter.CheckStep(ForwardedClient(req.forwardedFor), now, io)).result), verify, db)
  {
    var verdict := limiter.Check(ListLimit, ForwardedClient(req.forwardedFor), now, io);
    h := List(req, verdict, verify, db);
  }

  method Post(limiter: Limiter, req: Request, now: int, io: StoreIo, verify: string -> Verification, db: CreateDb)
    returns (h: Handled<CommentView, Effect>)
    modifies limiter.store.Footprint()
    ensures limiter.store.Table() == old(limiter.CheckStep(ForwardedClient(req.forwardedFor), now, io)).table
    ensures h == Create(req, Verdict(CreateLimit, old(limiter.CheckStep(ForwardedClient(req.forwardedFor), now, io)).result), verify, db)
  {
    var verdict := limiter.Check(CreateLimit, ForwardedClient(req.forwardedFor), now, io);
    h := Create(req, verdict, verify, db);
  }
}
