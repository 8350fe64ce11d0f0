/**
 * `/api/votes` POST: records one vote (+1 or -1) per user and question, or reports the
 * vote already cast. Rate-limited by client address before authenticating.
 */
module VotesRoute {
  import opened Wrappers
  import opened Windows
  import opened RateLimiter
  import opened Http

  const VoteLimit: int := 20
  /** The message of the handler's `catch` for errors other than the rate limit. */
  const VoteFailure: string := "Vote failed"

  /** A `votes` row of this user on the question, as selected. */
  datatype VoteRow = VoteRow(id: string, value: int)

  /** A question's vote counters. */
  datatype Counts = Counts(yesVotes: int, noVotes: int)

  datatype VoteReply = AlreadyVoted(value: int, counts: Counts) | Recorded(counts: Counts)

  datatype Effect = InsertVote(questionId: string, userId: string, value: int)

  /** The outcomes of the handler's backend calls: the duplicate lookup, the insert (its error,
      if any) and the counters read (error messages on failure). */
  datatype VoteDb = VoteDb(existing: Result<seq<VoteRow>, string>, insertError: Option<string>,
                           counts: Result<Counts, string>)

  /** A vote value is the number 1 or the number -1, nothing else. */
  predicate ValidVote(v: Value) {
    v == Num(1) || v == Num(-1)
  }

  /** The body check: a non-empty string `question_id` and a valid vote value. */
  function ValidateVote(fields: map<string, Value>): (r: Result<(string, int), string>)
    ensures r.Ok? <==>
      Field(fields, "question_id").Str? && Field(fields, "question_id").s != "" && ValidVote(Field(fields, "value"))
    ensures r.Ok? ==> r.value == (Field(fields, "question_id").s, Field(fields, "value").n)
  {
    var questionId := Field(fields, "question_id");
    var value := Field(fields, "value");
    if !Truthy(questionId) || !questionId.Str? then Err("Invalid question_id")
    else if !ValidVote(value) then Err("Invalid vote value")
    else Ok((questionId.s, value.n))
  }

  /** POST after the rate check produced `verdict`. */
  function Vote(req: Request, verdict: Result<(), Thrown>, verify: string -> Verification, db: VoteDb)
    : (h: Handled<VoteReply, Effect>)
    ensures |h.effects| <= 1
    ensures h.reply.status == 409 ==> h.effects == []
  {
    match Authenticate(verdict, req.authorization, verify, VoteFailure)
    case Refuse(status, message) => Handled(Fail(status, message), [])
    case Admit(userId) =>
      match Destructure(req.body)
      case Err(e) => Handled(Caught(e, VoteFailure), [])
      case Ok(fields) =>
        match ValidateVote(fields)
        case Err(message) => Handled(Fail(400, message), [])
        case Ok((questionId, value)) =>
          match db.existing
          case Err(_) => Handled(Fail(400, "Lookup failed"), [])
          case Ok(existing) =>
            if |existing| > 0 then
              match db.counts
              case Err(_) => Handled(Fail(400, "Counts failed"), [])
              case Ok(counts) => Handled(Done(409, AlreadyVoted(existing[0].value, counts)), [])
            else if db.insertError.Some? then
              Handled(Fail(400, "Insert failed"), [])
            else
              var inserted := [InsertVote(questionId, userId, value)];
              match db.counts
              case Err(_) => Handled(Fail(400, "Counts failed"), inserted)
              case Ok(counts) => Handled(Done(201, Recorded(counts)), inserted)
  }

  /** What POST promises: a user with a vote on the question gets 409 with that vote's value and
      nothing is inserted; otherwise at most one vote is inserted, with a valid value, by the
      authenticated user and only when no earlier vote exists; 201 means it was. A request
      refused by the rate check or authentication gets that reply, a body that is not an object
      is answered by the `catch` ("Vote failed"), and invalid input is 400; none of them
      writes. */
  lemma VoteSpec(req: Request, verdict: Result<(), Thrown>, verify: string -> Verification, db: VoteDb)
    ensures var h := Vote(req, verdict, verify, db);
      var gate := Authenticate(verdict, req.authorization, verify, VoteFailure);
      |h.effects| <= 1 &&
      (h.reply.status == 201 ==> |h.effects| == 1) &&
      (h.reply.status == 409 ==>
        db.existing.Ok? && |db.existing.value| > 0 && h.effects == [] &&
        h.reply == Done(409, AlreadyVoted(db.existing.value[0].value, db.counts.value))) &&
      (|h.effects| == 1 ==>
        var fields := Destructure(req.body).value;
        gate.Admit? && db.existing == Ok([]) && db.insertError.None? &&
        h.effects[0] == InsertVote(Field(fields, "question_id").s, gate.userId, Field(fields, "value").n) &&
        (h.effects[0].value == 1 || h.effects[0].value == -1) && h.effects[0].questionId != "") &&
      (gate.Refuse? ==> h == Handled(Fail(gate.status, gate.message), [])) &&
      (gate.Admit? && Destructure(req.body).Err? ==>
        h == Handled(Caught(Destructure(req.body).error, VoteFailure), [])) &&
      (gate.Admit? && Destructure(req.body).Ok? && ValidateVote(Destructure(req.body).value).Err? ==>
        h == Handled(Fail(400, ValidateVote(Destructure(req.body).value).error), []))
  {
    var gate := Authenticate(verdict, req.authorization, verify, VoteFailure);
    if gate.Refuse? && verdict.Err? {
      assert gate.status == ThrownStatus(verdict.error);
    }
    if gate.Admit? && Destructure(req.body).Err? {
      assert ThrownStatus(Destructure(req.body).error) in {429, 500};
    }
  }

  /** The duplicate-vote rule, for an authenticated request with a valid body: a failed lookup
      is 400; an existing vote is answered 409 with its value and the counters and nothing is
      inserted; with none, exactly this user's vote is inserted and answered 201 with the
      counters. A failed insert or counters read is 400. */
  lemma VoteDecides(req: Request, verdict: Result<(), Thrown>, verify: string -> Verification, db: VoteDb)
    requires Authenticate(verdict, req.authorization, verify, VoteFailure).Admit?
    requires Destructure(req.body).Ok? && ValidateVote(Destructure(req.body).value).Ok?
    ensures var h := Vote(req, verdict, verify, db);
      var userId := Authenticate(verdict, req.authorization, verify, VoteFailure).userId;
      var (questionId, value) := ValidateVote(Destructure(req.body).value).value;
      var existing := if db.existing.Ok? then db.existing.value else [];
      (db.existing.Err? ==> h == Handled(Fail(400, "Lookup failed"), [])) &&
      (db.existing.Ok? ==>
         (|existing| > 0 && db.counts.Ok? ==>
            h == Handled(Done(409, AlreadyVoted(existing[0].value, db.counts.value)), [])) &&
         (|existing| > 0 && db.counts.Err? ==> h == Handled(Fail(400, "Counts failed"), [])) &&
         (existing == [] && db.insertError.Some? ==> h == Handled(Fail(400, "Insert failed"), [])) &&
         (existing == [] && db.insertError.None? ==>
            h.effects == [InsertVote(questionId, userId, value)] &&
            (db.counts.Ok? ==> h.reply == Done(201, Recorded(db.counts.value))) &&
            (db.counts.Err? ==> h.reply == Fail(400, "Counts failed"))))
  {
  }

  /** Authentication comes before the body is looked at: a refused request gets the same reply
      whatever its body. */
  lemma AuthBeforeBody(req: Request, body: Body, verdict: Result<(), Thrown>, verify: string -> Verification, db: VoteDb)
    requires Authenticate(verdict, req.authorization, verify, VoteFailure).Refuse?
    ensures Vote(req, verdict, verify, db) == Vote(req.(body := body), verdict, verify, db)
    ensures Vote(req, verdict, verify, db).effects == []
  {
  }

  /** The handler as the server runs it: one rate check on `req.ip` (or the loopback address)
      with limit 20, then the request logic on its verdict. */
  method Post(limiter: Limiter, req: Request, now: int, io: StoreIo, verify: string -> Verification, db: VoteDb)
    returns (h: Handled<VoteReply, Effect>)
    modifies limiter.store.Footprint()
    ensures limiter.store.Table() == old(limiter.CheckStep(PlatformClient(req.ip), now, io)).table
    ensures h == Vote(req, Verdict(VoteLimit, old(limiter.CheckStep(PlatformClient(req.ip), now, io)).result), verify, db)
  {
    var verdict := limiter.Check(VoteLimit, PlatformClient(req.ip), now, io);
    h := Vote(req, verdict, verify, db);
  }
}
