/**
 * `/api/questions`: GET lists one page of questions, newest first, with author profiles;
 * POST creates a question. Rate-limited by client address before authenticating.
 */
module QuestionsRoute {
  import opened Wrappers
  import opened Text
  import opened Windows
  import opened RateLimiter
  import opened Http
  import opened Profiles

  const ListLimit: int := 60
  const CreateLimit: int := 10
  const DefaultPage: int := 0
  const DefaultPageSize: int := 10
  const MinQuestionText: int := 3
  /** The texts of the 500 replies to an unexpected failure. */
  const ListFailure: string := "Fetch questions failed"
  const CreateFailure: string := "Create question failed"

  /** A `questions` row as selected; the counters may be null. */
  datatype QuestionRow = QuestionRow(id: string, userId: string, questionText: string,
    yesVotes: Option<int>, noVotes: Option<int>, commentsCount: Option<int>, createdAt: string)

  /** A question as returned to the client. */
  datatype QuestionItem = QuestionItem(id: string, userId: string, questionText: string,
    yesVotes: int, noVotes: int, commentsCount: int, createdAt: string, profile: Option<ProfileView>)

  datatype Effect =
    | FetchRange(from: int, to: int)
    | LookupProfiles(ids: set<string>)
    | InsertQuestion(userId: string, questionText: string, title: string, expiresAt: Value)

  /** The inclusive row range of a page: `from = page * pageSize`, `to = from + pageSize - 1`,
      with page 0 and page size 10 when the parameters are absent. */
  function PageRange(page: Option<int>, pageSize: Option<int>): (r: (int, int))
    ensures r.0 == page.GetOr(DefaultPage) * pageSize.GetOr(DefaultPageSize)
    ensures r.1 - r.0 + 1 == pageSize.GetOr(DefaultPageSize)
  {
    var p := page.GetOr(DefaultPage);
    var size := pageSize.GetOr(DefaultPageSize);
    var from := p * size;
    (from, from + size - 1)
  }

  /** A page covers exactly `pageSize` rows, the default page is rows 0 to 9, and consecutive
      pages tile the ordering with no gap and no overlap. */
  lemma PageRangeSpec(page: int, size: int)
    ensures PageRange(Some(page), Some(size)).1 - PageRange(Some(page), Some(size)).0 + 1 == size
    ensures PageRange(Some(page + 1), Some(size)).0 == PageRange(Some(page), Some(size)).1 + 1
    ensures PageRange(Some(page), Some(size)).0 == page * size
    ensures PageRange(None, None) == (0, 9)
  {
    assert (page + 1) * size == page * size + size;
  }

  /** One output item per fetched row: null counters read 0, an unknown author no profile. */
  function ItemOf(q: QuestionRow, index: map<string, ProfileView>): (item: QuestionItem)
    ensures item.yesVotes == q.yesVotes.GetOr(0) && item.noVotes == q.noVotes.GetOr(0)
    ensures item.commentsCount == q.commentsCount.GetOr(0)
    ensures item.profile == if q.userId in index then Some(index[q.userId]) else None
  {
    QuestionItem(q.id, q.userId, q.questionText, q.yesVotes.GetOr(0), q.noVotes.GetOr(0),
      q.commentsCount.GetOr(0), q.createdAt, if q.userId in index then Some(index[q.userId]) else None)
  }

  function Items(rows: seq<QuestionRow>, index: map<string, ProfileView>): seq<QuestionItem> {
    seq(|rows|, i requires 0 <= i < |rows| => ItemOf(rows[i], index))
  }

  /** The outcomes of GET's backend reads: the page of questions and the profiles. */
  datatype ListDb = ListDb(questions: Result<seq<QuestionRow>, string>, profiles: Result<seq<ProfileRow>, string>)

  /** GET after the rate check produced `verdict`; `page` and `pageSize` are the numeric query
      parameters, absent when not given. */
  function List(req: Request, page: Option<int>, pageSize: Option<int>, verdict: Result<(), Thrown>,
                verify: string -> Verification, db: ListDb): (h: Handled<seq<QuestionItem>, Effect>)
    ensures |h.effects| <= 2
    ensures h.effects != [] ==> h.effects[0] == FetchRange(PageRange(page, pageSize).0, PageRange(page, pageSize).1)
    ensures h.reply.Done? ==> db.questions.Ok? && |h.reply.payload| == |db.questions.value|
  {
    match Authenticate(verdict, req.authorization, verify, ListFailure)
    case Refuse(status, message) => Handled(Fail(status, message), [])
    case Admit(_) =>
      var (from, to) := PageRange(page, pageSize);
      match db.questions
      case Err(_) => Handled(Fail(400, "Fetch failed"), [FetchRange(from, to)])
      case Ok(rows) =>
        var ids := IdSet(seq(|rows|, i requires 0 <= i < |rows| => rows[i].userId));
        if ids == {} then Handled(Done(200, Items(rows, map[])), [FetchRange(from, to)])
        else
          Handled(Done(200, Items(rows, ListIndex(db.profiles))), [FetchRange(from, to), LookupProfiles(ids)])
  }

  /** GET's outcomes: after the rate check and authentication it asks for exactly the page's
      range; a failed query is 400 "Fetch failed" after that fetch alone; otherwise 200 with
      one item per row in the order fetched, profiles being looked up only when there is at
      least one row. */
  lemma ListSpec(req: Request, page: Option<int>, pageSize: Option<int>, verdict: Result<(), Thrown>,
                 verify: string -> Verification, db: ListDb)
    ensures var h := List(req, page, pageSize, verdict, verify, db);
      var gate := Authenticate(verdict, req.authorization, verify, ListFailure);
      (gate.Refuse? ==> h == Handled(Fail(gate.status, gate.message), [])) &&
      (gate.Admit? ==> |h.effects| >= 1 && h.effects[0] == FetchRange(PageRange(page, pageSize).0, PageRange(page, pageSize).1)) &&
      (gate.Admit? && db.questions.Err? ==>
        h == Handled(Fail(400, "Fetch failed"), [FetchRange(PageRange(page, pageSize).0, PageRange(page, pageSize).1)])) &&
      (gate.Admit? && db.questions.Ok? ==>
        var rows := db.questions.value;
        h.reply.Done? && h.reply.status == 200 && |h.reply.payload| == |rows| &&
        (forall i :: 0 <= i < |rows| ==> h.reply.payload[i] == ItemOf(rows[i], ListIndex(db.profiles))) &&
        (|h.effects| == 2 <==> rows != []) &&
        (rows != [] ==> h.effects[1] == LookupProfiles(set i | 0 <= i < |rows| :: rows[i].userId)))
  {
    var gate := Authenticate(verdict, req.authorization, verify, ListFailure);
    if gate.Admit? && db.questions.Ok? {
      var rows := db.questions.value;
      var ids := seq(|rows|, i requires 0 <= i < |rows| => rows[i].userId);
      assert IdSet(ids) == set i | 0 <= i < |rows| :: rows[i].userId by {
        forall id | id in IdSet(ids) ensures exists i :: 0 <= i < |rows| && rows[i].userId == id {
          var i :| 0 <= i < |ids| && ids[i] == id;
          assert rows[i].userId == id;
        }
        forall i | 0 <= i < |rows| ensures rows[i].userId in IdSet(ids) {
          assert ids[i] == rows[i].userId;
        }
      }
    }
  }

  /** The body fields POST reads. */
  datatype NewQuestion = NewQuestion(questionText: string, title: string, expiresAt: Value)

  /** The `question_text` check: a string of at least 3 characters once trimmed, kept trimmed. */
  function QuestionText(v: Value): (r: Result<string, string>)
    ensures r.Ok? <==> v.Str? && |Trim(v.s)| >= MinQuestionText
    ensures r.Ok? ==> r.value == Trim(v.s)
    ensures r.Err? ==> r.error == "Invalid question_text"
  {
    if !v.Str? || !Truthy(v) then Err("Invalid question_text")
    else
      var trimmed := Trim(v.s);
      if |trimmed| < MinQuestionText then Err("Invalid question_text") else Ok(trimmed)
  }

  /** The `title` check: a non-empty string, kept trimmed (so white space alone passes). */
  function TitleText(v: Value): (r: Result<string, string>)
    ensures r.Ok? <==> v.Str? && v.s != ""
    ensures r.Ok? ==> r.value == Trim(v.s)
    ensures r.Err? ==> r.error == "Invalid title"
  {
    if !v.Str? || !Truthy(v) then Err("Invalid title") else Ok(Trim(v.s))
  }

  /** POST's validation: `question_text` a string of at least 3 characters after trimming and
      `title` a non-empty string; the stored values are trimmed and a falsy `expires_at` is null. */
  function ValidateQuestion(fields: map<string, Value>): (r: Result<NewQuestion, string>)
    ensures r.Ok? <==>
      Field(fields, "question_text").Str? && |Trim(Field(fields, "question_text").s)| >= MinQuestionText &&
      Field(fields, "title").Str? && Field(fields, "title").s != ""
    ensures r.Ok? ==>
      r.value.questionText == Trim(Field(fields, "question_text").s) &&
      r.value.title == Trim(Field(fields, "title").s) &&
      r.value.expiresAt == (if Truthy(Field(fields, "expires_at")) then Field(fields, "expires_at") else Null)
  {
    var expiresAt := Field(fields, "expires_at");
    match QuestionText(Field(fields, "question_text"))
    case Err(message) => Err(message)
    case Ok(text) =>
      match TitleText(Field(fields, "title"))
      case Err(message) => Err(message)
      case Ok(title) => Ok(NewQuestion(text, title, if Truthy(expiresAt) then expiresAt else Null))
  }

  /** POST after the rate check produced `verdict`; `insert` is the new row's id or the error. */
  function Create(req: Request, verdict: Result<(), Thrown>, verify: string -> Verification,
                  insert: Result<string, string>): (h: Handled<string, Effect>)
    ensures |h.effects| <= 1
    ensures h.effects != [] ==> insert.Ok? && h.reply == Done(201, insert.value)
  {
    match Authenticate(verdict, req.authorization, verify, CreateFailure)
    case Refuse(status, message) => Handled(Fail(status, message), [])
    case Admit(userId) =>
      match Destructure(req.body)
      case Err(e) => Handled(Caught(e, CreateFailure), [])
      case Ok(fields) =>
        match ValidateQuestion(fields)
        case Err(message) => Handled(Fail(400, message), [])
        case Ok(q) =>
          match insert
          case Err(_) => Handled(Fail(400, "Create failed"), [])
          case Ok(id) =>
            Handled(Done(201, id), [InsertQuestion(userId, q.questionText, q.title, q.expiresAt)])
  }

  /** POST inserts at most one question, only a validated one, owned by the authenticated user,
      with trimmed text of at least 3 characters; 201 carries the new id. A title that is only
      white space passes the check and is stored empty. A request refused by the rate check or
      authentication gets that reply, a body that is not an object is answered by the `catch`
      ("Create question failed"), and invalid fields are 400; none of them writes. */
  lemma CreateSpec(req: Request, verdict: Result<(), Thrown>, verify: string -> Verification,
                   insert: Result<string, string>)
    ensures var h := Create(req, verdict, verify, insert);
      var gate := Authenticate(verdict, req.authorization, verify, CreateFailure);
      |h.effects| <= 1 &&
      (h.reply.status == 201 <==> |h.effects| == 1) &&
      (h.reply.status == 201 ==> h.reply == Done(201, insert.value)) &&
      (|h.effects| == 1 ==>
        gate.Admit? && h.effects[0].InsertQuestion? && h.effects[0].userId == gate.userId &&
        |h.effects[0].questionText| >= MinQuestionText &&
        h.effects[0].questionText == Trim(Field(Destructure(req.body).value, "question_text").s)) &&
      (gate.Refuse? ==> h == Handled(Fail(gate.status, gate.message), [])) &&
      (gate.Admit? && Destructure(req.body).Err? ==>
        h == Handled(Caught(Destructure(req.body).error, CreateFailure), [])) &&
      (gate.Admit? && Destructure(req.body).Ok? && ValidateQuestion(Destructure(req.body).value).Err? ==>
        h == Handled(Fail(400, ValidateQuestion(Destructure(req.body).value).error), []))
  {
    var gate := Authenticate(verdict, req.authorization, verify, CreateFailure);
    if gate.Refuse? && verdict.Err? {
      assert gate.status == ThrownStatus(verdict.error);
    }
    if gate.Admit? && Destructure(req.body).Err? {
      assert ThrownStatus(Destructure(req.body).error) in {429, 500};
    }
  }

  /** A valid, authenticated POST inserts exactly the validated question, owned by the caller:
      trimmed text and title, and the deadline or null; 201 carries the new id, and a failed
      insert is 400 with nothing written. */
  lemma CreateInserts(req: Request, verdict: Result<(), Thrown>, verify: string -> Verification,
                      insert: Result<string, string>)
    requires Authenticate(verdict, req.authorization, verify, CreateFailure).Admit?
    requires Destructure(req.body).Ok? && ValidateQuestion(Destructure(req.body).value).Ok?
    ensures var h := Create(req, verdict, verify, insert);
      var userId := Authenticate(verdict, req.authorization, verify, CreateFailure).userId;
      var q := ValidateQuestion(Destructure(req.body).value).value;
      (insert.Ok? ==> h == Handled(Done(201, insert.value), [InsertQuestion(userId, q.questionText, q.title, q.expiresAt)])) &&
      (insert.Err? ==> h == Handled(Fail(400, "Create failed"), []))
  {
  }

  /** The handlers as the server runs them: one rate check on `req.ip` (or the loopback
      address), limit 60 for GET and 10 for POST, then the request logic on its verdict. */
  method Get(limiter: Limiter, req: Request, page: Option<int>, pageSize: Option<int>, now: int, io: StoreIo,
             verify: string -> Verification, db: ListDb) returns (h: Handled<seq<QuestionItem>, Effect>)
    modifies limiter.store.Footprint()
    ensures limiter.store.Table() == old(limiter.CheckStep(PlatformClient(req.ip), now, io)).table
    ensures h == List(req, page, pageSize, Verdict(ListLimit, old(limiter.CheckStep(PlatformClient(req.ip), now, io)).result), verify, db)
  {
    var verdict := limiter.Check(ListLimit, PlatformClient(req.ip), now, io);
    h := List(req, page, pageSize, verdict, verify, db);
  }

  method Post(limiter: Limiter, req: Request, now: int, io: StoreIo, verify: string -> Verification,
              insert: Result<string, string>) returns (h: Handled<string, Effect>)
    modifies limiter.store.Footprint()
    ensures limiter.store.Table() == old(limiter.CheckStep(PlatformClient(req.ip), now, io)).table
    ensures h == Create(req, Verdict(CreateLimit, old(limiter.CheckStep(PlatformClient(req.ip), now, io)).result), verify, insert)
  {
    var verdict := limiter.Check(CreateLimit, PlatformClient(req.ip), now, io);
    h := Create(req, verdict, verify, insert);
  }
}
