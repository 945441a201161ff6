/** `lambda_handler` and `handle_status_check`: the preflight answer, the routing of
    status requests, the parsing and validation of the request body, the hand-off to an
    asynchronous re-invocation, and the choice between the asynchronous continuation and
    the synchronous run. The environment, the JSON parser, the generated uuids and the
    outcome of every external call are inputs. */
module Handler {
  import opened PyValue
  import opened PyText
  import opened Gateway
  import opened Reconciliation
  import opened Scraping

  /** `os.getenv` for the three variables the handler reads. */
  datatype Env = Env(supabaseUrl: Option<string>, supabaseKey: Option<string>, apifyToken: Option<string>)

  /** `supabase_url and supabase_key`: both set and non-empty. */
  predicate StoreConfigured(env: Env) {
    env.supabaseUrl.Some? && env.supabaseUrl.value != "" && env.supabaseKey.Some? && env.supabaseKey.value != ""
  }

  /** What the store answers to the status query: the text of the exception raised by
      the request, `raise_for_status` or `response.json()`, or the decoded rows. */
  datatype StatusReply = QueryFailed(message: string) | Answered(data: Value)

  /** Everything the handler gets from outside the event: the environment, `json.loads`
      (`Err` carries the text of a `JSONDecodeError`), the two `uuid.uuid4()` strings in
      the order they are drawn, whether the asynchronous invoke succeeded, what the
      scraping job yields, and what the status query answers. */
  datatype World = World(
    env: Env,
    loads: string -> Result<Value, string>,
    firstUuid: string,
    secondUuid: string,
    handoffOk: bool,
    job: Job,
    statusReply: StatusReply)

  predicate WellFormedWorld(w: World) {
    WellFormed(w.job)
  }

  /** A parser that reads the default body text `'{}'` as the empty object. */
  predicate ParsesEmptyObject(loads: string -> Result<Value, string>) {
    loads("{}") == Ok(Dict(map[]))
  }

  const StatusRoute: string := "/scraping-status/"

  function Reply(code: nat, body: Body): Effect {
    Effect(Response(code, true, body), [])
  }

  /** The handler's outer `except`: the attempt is marked failed when the store is
      configured, and 500 carries `Type: text`. */
  function Internal(attempt: Value, e: PyError, env: Env, py: Py): Effect {
    var message := TypeName(e) + ": " + py.message(e);
    var calls := if Truthy(attempt) && StoreConfigured(env) then [UpdateMetadata(attempt, MarkFailed(message))] else [];
    Effect(Response(500, true, Failure("Internal server error", Some(message))), calls)
  }

  /** `scraping_metadata_id` when truthy, otherwise the second uuid. */
  function AttemptFor(body: Item, secondUuid: string): Value {
    var given := Get(body, "scraping_metadata_id");
    if Truthy(given) then given else Str(secondUuid)
  }

  /** The event sent to the asynchronous re-invocation. */
  function HandOffPayload(attempt: Value, placeIds: Value, maxReviews: Value, start: Value, businessPlaceId: Value): Item {
    map["isAsyncExecution" := Bool(true), "scrapingAttemptId" := attempt, "placeIds" := placeIds,
        "maxReviews" := maxReviews, "reviewsStartDate" := start, "businessPlaceId" := businessPlaceId]
  }

  /** `lambda_handler(event, context)`. `Err` is an exception that leaves the handler:
      only the membership test on a GET's path sits outside every `try`. */
  function Handle(event: Item, w: World, py: Py): Result<Effect, PyError>
    requires WellFormedWorld(w)
  {
    var httpMethod := Get(event, "httpMethod");
    if httpMethod == Str("OPTIONS") then Ok(Reply(200, Message("OK")))
    else if httpMethod == Str("GET") && Contains(GetOr(event, "path", Str("")), StatusRoute) != Ok(false) then
      match Contains(GetOr(event, "path", Str("")), StatusRoute)
      case Err(e) => Err(e)
      case Ok(_) => Ok(StatusCheck(event, w.env, w.statusReply, py))
    else Ok(HandleBody(event, w, py))
  }

  /** From the body parsing on, inside the outer `try`. */
  function HandleBody(event: Item, w: World, py: Py): Effect
    requires WellFormedWorld(w)
  {
    var attempt := Str(w.firstUuid);
    var text := GetOr(event, "body", Str("{}"));
    if !text.Str? then Internal(attempt, NotJsonText(text), w.env, py)
    else match w.loads(text.s)
      case Err(detail) => Reply(400, Failure("Invalid JSON in request body", Some(detail)))
      case Ok(parsed) =>
        if !parsed.Dict? then Internal(attempt, NoAttribute(parsed, "get"), w.env, py)
        else Validated(event, parsed.fields, w, py)
  }

  /** The validation of the parsed body and what follows it. */
  function Validated(event: Item, body: Item, w: World, py: Py): Effect
    requires WellFormedWorld(w)
  {
    var placeIds := GetOr(body, "placeIds", List([]));
    var maxReviews := GetOr(body, "maxReviews", Int(5));
    var start := Get(body, "reviewsStartDate");
    var returnImmediately := GetOr(body, "returnImmediately", Bool(true));
    var userProfileId := Get(body, "user_profile_id");
    if !Truthy(placeIds) then Reply(400, Failure("Place IDs are required", None))
    else if !Truthy(userProfileId) then Reply(400, Failure("user_profile_id is required", None))
    else
      var attempt := AttemptFor(body, w.secondUuid);
      match First(placeIds)
      case Err(e) => Internal(attempt, e, w.env, py)
      case Ok(businessPlaceId) =>
        if !StoreConfigured(w.env) then
          Reply(500, Failure("Supabase URL or Key not configured in environment variables", None))
        else if Truthy(returnImmediately) && w.handoffOk then
          Effect(Response(202, true, Initiated(attempt)),
                 [InvokeSelf(HandOffPayload(attempt, placeIds, maxReviews, start, businessPlaceId))])
        else if Truthy(Get(event, "isAsyncExecution")) then
          AsyncRun(event, w.env.apifyToken, w.job, py)
        else
          Scrape(RunRequest(attempt, placeIds, maxReviews, start, businessPlaceId, userProfileId), w.env.apifyToken, w.job, py)
  }

  /** `handle_status_check(event)`. */
  function StatusCheck(event: Item, env: Env, reply: StatusReply, py: Py): Effect {
    var path := GetOr(event, "path", Str(""));
    if !path.Str? then
      Reply(500, Failure("Failed to check status", Some(py.message(NoAttribute(path, "split")))))
    else if !StoreConfigured(env) then
      Reply(500, Failure("Supabase URL or Key not configured for status check", None))
    else
      Effect(StatusAnswer(reply, py), [QueryMetadata(LastSegment(path.s))])
  }

  /** The answer to a status query once it was made. */
  function StatusAnswer(reply: StatusReply, py: Py): Response {
    match reply
    case QueryFailed(m) => Response(500, true, Failure("Failed to check status", Some(m)))
    case Answered(data) =>
      if !Truthy(data) then Response(404, true, Failure("Scraping attempt not found", None))
      else match First(data)
        case Ok(row) => Response(200, true, Row(row))
        case Err(e) => Response(500, true, Failure("Failed to check status", Some(py.message(e))))
  }

  // ---------------------------------------------------------------------------
  // Properties of the handler

  /** A preflight request is answered at once, whatever else the event holds. */
  lemma Preflight(event: Item, w: World, py: Py)
    requires WellFormedWorld(w)
    requires Get(event, "httpMethod") == Str("OPTIONS")
    ensures Handle(event, w, py) == Ok(Effect(Response(200, true, Message("OK")), []))
  {
  }

  /** A GET whose path mentions the status route is a status check and nothing else; a
      path that supports no `in` test makes the handler raise. */
  lemma StatusRouting(event: Item, w: World, py: Py)
    requires WellFormedWorld(w)
    requires Get(event, "httpMethod") == Str("GET")
    ensures var path := GetOr(event, "path", Str(""));
      Contains(path, StatusRoute) == Ok(true) ==> Handle(event, w, py) == Ok(StatusCheck(event, w.env, w.statusReply, py))
    ensures var path := GetOr(event, "path", Str(""));
      Contains(path, StatusRoute).Err? ==> Handle(event, w, py) == Err(NotIterable(path))
    ensures var path := GetOr(event, "path", Str(""));
      Contains(path, StatusRoute) == Ok(false) ==> Handle(event, w, py) == Ok(HandleBody(event, w, py))
  {
  }

  /** The body the handler validates: the event's parsed `body`, when it is an object. */
  predicate ParsedBody(event: Item, w: World, body: Item) {
    var text := GetOr(event, "body", Str("{}"));
    text.Str? && w.loads(text.s) == Ok(Dict(body))
  }

  /** A body that is not JSON text is refused with 400 and no call; one that is not an
      object, or is not text at all, reaches the outer `except`; an object is validated. */
  lemma BodyParsing(event: Item, w: World, py: Py)
    requires WellFormedWorld(w)
    ensures var text := GetOr(event, "body", Str("{}"));
      text.Str? && w.loads(text.s).Err? ==>
        HandleBody(event, w, py) == Reply(400, Failure("Invalid JSON in request body", Some(w.loads(text.s).error)))
    ensures var text := GetOr(event, "body", Str("{}"));
      !text.Str? ==> HandleBody(event, w, py) == Internal(Str(w.firstUuid), NotJsonText(text), w.env, py)
    ensures var text := GetOr(event, "body", Str("{}"));
      text.Str? && w.loads(text.s).Ok? && !w.loads(text.s).value.Dict? ==>
        HandleBody(event, w, py) == Internal(Str(w.firstUuid), NoAttribute(w.loads(text.s).value, "get"), w.env, py)
    ensures forall body | ParsedBody(event, w, body) :: HandleBody(event, w, py) == Validated(event, body, w, py)
  {
  }

  /** Validation order: place ids are checked first, then the user profile; a 400 is
      answered before any call is made. */
  lemma ValidationOrder(event: Item, body: Item, w: World, py: Py)
    requires WellFormedWorld(w)
    ensures var r := Validated(event, body, w, py);
      r.response.statusCode == 400 ==> r.calls == []
    ensures Validated(event, body, w, py).response == Response(400, true, Failure("Place IDs are required", None)) <==>
      !Truthy(GetOr(body, "placeIds", List([])))
    ensures Validated(event, body, w, py).response == Response(400, true, Failure("user_profile_id is required", None)) <==>
      Truthy(GetOr(body, "placeIds", List([]))) && !Truthy(Get(body, "user_profile_id"))
  {
    if Truthy(GetOr(body, "placeIds", List([]))) && Truthy(Get(body, "user_profile_id")) {
      ValidatedCodes(event, body, w, py);
    }
  }

  /** Past validation, the answer is 200, 202 or 500, and 202 only when the hand-off
      was made. */
  lemma ValidatedCodes(event: Item, body: Item, w: World, py: Py)
    requires WellFormedWorld(w)
    requires Truthy(GetOr(body, "placeIds", List([]))) && Truthy(Get(body, "user_profile_id"))
    ensures Validated(event, body, w, py).response.statusCode in {200, 202, 500}
    ensures Validated(event, body, w, py).response.statusCode == 202 <==>
      First(GetOr(body, "placeIds", List([]))).Ok? && StoreConfigured(w.env) &&
      Truthy(GetOr(body, "returnImmediately", Bool(true))) && w.handoffOk
  {
    var attempt := AttemptFor(body, w.secondUuid);
    var placeIds := GetOr(body, "placeIds", List([]));
    if First(placeIds).Ok? && StoreConfigured(w.env) {
      var req := RunRequest(attempt, placeIds, GetOr(body, "maxReviews", Int(5)), Get(body, "reviewsStartDate"),
                            First(placeIds).value, Get(body, "user_profile_id"));
      SuccessRule(req, w.env.apifyToken, w.job, py);
      AsyncCodes(event, w.env.apifyToken, w.job, py);
    }
  }

  /** A 202 means exactly one call was made: the re-invocation, carrying the attempt id
      that is also returned, the caller's place ids, limit and start date, and their
      first place id as the business. */
  lemma HandOff(event: Item, body: Item, w: World, py: Py)
    requires WellFormedWorld(w)
    requires Validated(event, body, w, py).response.statusCode == 202
    ensures var placeIds := GetOr(body, "placeIds", List([]));
      var attempt := AttemptFor(body, w.secondUuid);
      Validated(event, body, w, py) ==
        Effect(Response(202, true, Initiated(attempt)),
               [InvokeSelf(HandOffPayload(attempt, placeIds, GetOr(body, "maxReviews", Int(5)),
                                          Get(body, "reviewsStartDate"), First(placeIds).value))])
    ensures First(GetOr(body, "placeIds", List([]))).Ok?
  {
    ValidationOrder(event, body, w, py);
    ValidatedCodes(event, body, w, py);
  }

  /** The re-invocation's event has no body and no method, so the re-invoked handler
      parses `'{}'` and refuses it for want of place ids. */
  lemma HandOffRefused(payload: Item, w: World, py: Py)
    requires WellFormedWorld(w) && ParsesEmptyObject(w.loads)
    requires "body" !in payload && "httpMethod" !in payload
    ensures Handle(payload, w, py) == Ok(Effect(Response(400, true, Failure("Place IDs are required", None)), []))
  {
  }

  /** So whatever a 202 hands off is refused: the asynchronous work is never done, no
      call is made, and the attempt stays as the caller left it. */
  lemma HandOffGoesNowhere(attempt: Value, placeIds: Value, maxReviews: Value, start: Value, businessPlaceId: Value, w: World, py: Py)
    requires WellFormedWorld(w) && ParsesEmptyObject(w.loads)
    ensures Handle(HandOffPayload(attempt, placeIds, maxReviews, start, businessPlaceId), w, py) ==
      Ok(Effect(Response(400, true, Failure("Place IDs are required", None)), []))
  {
    var payload := HandOffPayload(attempt, placeIds, maxReviews, start, businessPlaceId);
    assert payload.Keys == {"isAsyncExecution", "scrapingAttemptId", "placeIds", "maxReviews", "reviewsStartDate", "businessPlaceId"};
    HandOffRefused(payload, w, py);
  }

  /** The synchronous run: when nothing routes the request elsewhere, it runs with the
      metadata id if one was given (otherwise the second uuid), the first place id as
      the business, and the caller's profile id. */
  lemma SynchronousRun(event: Item, body: Item, w: World, py: Py)
    requires WellFormedWorld(w)
    requires Truthy(GetOr(body, "placeIds", List([]))) && Truthy(Get(body, "user_profile_id"))
    requires First(GetOr(body, "placeIds", List([]))).Ok? && StoreConfigured(w.env)
    requires !(Truthy(GetOr(body, "returnImmediately", Bool(true))) && w.handoffOk)
    requires !Truthy(Get(event, "isAsyncExecution"))
    ensures var placeIds := GetOr(body, "placeIds", List([]));
      var attempt := if Truthy(Get(body, "scraping_metadata_id")) then body["scraping_metadata_id"] else Str(w.secondUuid);
      Validated(event, body, w, py) == Scrape(RunRequest(attempt, placeIds, GetOr(body, "maxReviews", Int(5)),
        Get(body, "reviewsStartDate"), First(placeIds).value, body["user_profile_id"]), w.env.apifyToken, w.job, py)
  {
  }

  /** Without the store configured, a valid request is answered 500 before any call. */
  lemma StoreRequired(event: Item, body: Item, w: World, py: Py)
    requires WellFormedWorld(w)
    requires Truthy(GetOr(body, "placeIds", List([]))) && Truthy(Get(body, "user_profile_id"))
    requires First(GetOr(body, "placeIds", List([]))).Ok?
    requires !StoreConfigured(w.env)
    ensures Validated(event, body, w, py) ==
      Effect(Response(500, true, Failure("Supabase URL or Key not configured in environment variables", None)), [])
  {
  }

  /** A first place id that cannot be taken answers 500 as an internal error under the
      attempt id already chosen, before the store configuration is looked at. */
  lemma NoFirstPlaceId(event: Item, body: Item, w: World, py: Py)
    requires WellFormedWorld(w)
    requires Truthy(GetOr(body, "placeIds", List([]))) && Truthy(Get(body, "user_profile_id"))
    requires First(GetOr(body, "placeIds", List([]))).Err?
    ensures Validated(event, body, w, py) ==
      Internal(AttemptFor(body, w.secondUuid), First(GetOr(body, "placeIds", List([]))).error, w.env, py)
    ensures GetOr(body, "placeIds", List([])).Dict? || GetOr(body, "placeIds", List([])).Int? ||
      GetOr(body, "placeIds", List([])).Float? || GetOr(body, "placeIds", List([])).Bool? ||
      GetOr(body, "placeIds", List([])).Opaque?
  {
  }

  /** A generated attempt id is used exactly when the caller gave none. */
  lemma GeneratedAttempt(body: Item, secondUuid: string)
    ensures AttemptFor(body, secondUuid) == Str(secondUuid) <==>
      !Truthy(Get(body, "scraping_metadata_id")) || Get(body, "scraping_metadata_id") == Str(secondUuid)
    ensures Truthy(Get(body, "scraping_metadata_id")) ==> AttemptFor(body, secondUuid) == body["scraping_metadata_id"]
  {
  }

  /** The answer to a query is 200, 404 or 500: 404 exactly when the store returned no
      rows, and 200 with the first row when it returned the rows as a list. */
  lemma QueryAnswers(reply: StatusReply, py: Py)
    ensures StatusAnswer(reply, py).statusCode in {200, 404, 500}
    ensures StatusAnswer(reply, py).statusCode == 404 <==> reply.Answered? && !Truthy(reply.data)
    ensures reply.Answered? && reply.data.List? && reply.data.items != [] ==>
      StatusAnswer(reply, py) == Response(200, true, Row(reply.data.items[0]))
  {
    if reply.Answered? && Truthy(reply.data) {
      var data := reply.data;
      if data.List? && data.items != [] {
        assert First(data) == Ok(data.items[0]);
      }
    }
  }

  /** The status lookup answers 200, 404 or 500. */
  lemma StatusCodes(event: Item, env: Env, reply: StatusReply, py: Py)
    ensures StatusCheck(event, env, reply, py).response.statusCode in {200, 404, 500}
  {
    var path := GetOr(event, "path", Str(""));
    if path.Str? && StoreConfigured(env) {
      QueryAnswers(reply, py);
    }
  }

  /** With a string path and the store configured, the status lookup answers 404
      exactly when the store returned no rows, and 200 with the first row when it
      returned some rows as a list. */
  lemma StatusAnswers(event: Item, env: Env, reply: StatusReply, py: Py)
    requires GetOr(event, "path", Str("")).Str? && StoreConfigured(env)
    ensures StatusCheck(event, env, reply, py).response.statusCode == 404 <==> reply.Answered? && !Truthy(reply.data)
    ensures reply.Answered? && reply.data.List? && reply.data.items != [] ==>
      StatusCheck(event, env, reply, py).response == Response(200, true, Row(reply.data.items[0]))
  {
    var path := GetOr(event, "path", Str(""));
    assert StatusCheck(event, env, reply, py).response == StatusAnswer(reply, py);
    QueryAnswers(reply, py);
  }

  /** The status lookup queries one attempt: the path's last `/`-segment (a string
      without a slash that ends the path, by `LastSegmentShape`). No query is
      made without a string path and the store. */
  lemma StatusQueriesLastSegment(event: Item, env: Env, reply: StatusReply, py: Py)
    ensures |StatusCheck(event, env, reply, py).calls| <= 1
    ensures StatusCheck(event, env, reply, py).calls != [] <==> GetOr(event, "path", Str("")).Str? && StoreConfigured(env)
    ensures var calls := StatusCheck(event, env, reply, py).calls;
      calls != [] ==> calls[0] == QueryMetadata(LastSegment(GetOr(event, "path", Str("")).s))
  {
    var path := GetOr(event, "path", Str(""));
    if path.Str? && StoreConfigured(env) {
      assert StatusCheck(event, env, reply, py).calls == [QueryMetadata(LastSegment(path.s))];
    } else {
      assert StatusCheck(event, env, reply, py).calls == [];
    }
  }

  /** A failure in the handler's own code before the run is reported as an internal
      error, and the metadata is marked failed only when the store is configured. */
  lemma InternalErrorWrites(attempt: Value, e: PyError, env: Env, py: Py)
    ensures var r := Internal(attempt, e, env, py);
      r.response.statusCode == 500 &&
      (r.calls != [] <==> Truthy(attempt) && StoreConfigured(env)) &&
      forall c | c in r.calls :: c == UpdateMetadata(attempt, MarkFailed(TypeName(e) + ": " + py.message(e)))
  {
  }

  // ---------------------------------------------------------------------------
  // A worked request: one place, a review and a `no_reviews` record

  const ExampleBody: Item := map["placeIds" := List([Str("P1")]), "maxReviews" := Int(2),
                                 "returnImmediately" := Bool(false), "user_profile_id" := Str("7")]

  const ExampleReview: Item := map["reviewId" := Str("r1"), "placeId" := Str("P1"), "text" := Str("Great coffee")]

  const ExampleNoReviews: Item := map["error" := Str("no_reviews"), "placeId" := Str("P1"), "title" := Str("Cafe")]

  /** The loop over the two records: one insert, one error, the business found. */
  lemma ExampleBatch(replies: seq<DbReply>, attempt: Value, py: Py)
    requires |replies| == 2 && replies[0].Stored? && Truthy(replies[0].result)
    ensures Reconcile([ExampleReview, ExampleNoReviews], replies, attempt, Str("P1"), py).successfulInserts == 1
    ensures |Reconcile([ExampleReview, ExampleNoReviews], replies, attempt, Str("P1"), py).errors| == 1
    ensures Reconcile([ExampleReview, ExampleNoReviews], replies, attempt, Str("P1"), py).businessInfo.Some?
    ensures Reconcile([ExampleReview, ExampleNoReviews], replies, attempt, Str("P1"), py).scrapingErrors == [Str("no_reviews")]
    ensures Reconcile([ExampleReview, ExampleNoReviews], replies, attempt, Str("P1"), py).totalReviewsScraped == 1
    ensures Reconcile([ExampleReview, ExampleNoReviews], replies, attempt, Str("P1"), py).businessPlaceId == Str("P1")
  {
    var os := Outcomes([ExampleReview, ExampleNoReviews], replies, attempt, py);
    ExampleVerdicts(replies, py);
    RunOfTwo(Start(Str("P1")), os);
    InsertThenReport(Start(Str("P1")), os[0], os[1]);
  }

  /** A review inserted, then a report carrying the business, from the start. */
  lemma InsertThenReport(p0: Progress, o0: Outcome, o1: Outcome)
    requires p0 == Start(Str("P1"))
    requires o0.verdict == Inserted
    requires o1.verdict.Reported? && o1.verdict.message == Str("no_reviews") && o1.verdict.business.Some?
    ensures Step(Step(p0, o0), o1).successfulInserts == 1
    ensures |Step(Step(p0, o0), o1).errors| == 1
    ensures Step(Step(p0, o0), o1).businessInfo.Some?
    ensures Step(Step(p0, o0), o1).scrapingErrors == [Str("no_reviews")]
    ensures Step(Step(p0, o0), o1).totalReviewsScraped == 1
    ensures Step(Step(p0, o0), o1).businessPlaceId == Str("P1")
  {
  }

  /** The review is inserted; the `no_reviews` record is reported under its tag and
      carries the business. */
  lemma ExampleVerdicts(replies: seq<DbReply>, py: Py)
    requires |replies| == 2 && replies[0].Stored? && Truthy(replies[0].result)
    ensures Classify(ExampleReview, replies[0], py) == Inserted
    ensures var v := Classify(ExampleNoReviews, replies[1], py);
      v.Reported? && v.message == Str("no_reviews") && v.business.Some?
  {
    assert Categories(ExampleNoReviews, py) == Ok("");
    assert CarriesBusiness(ExampleNoReviews, py);
  }

  /** The example request's body is parsed and validated. */
  lemma ExampleRouting(text: string, w: World, py: Py)
    requires WellFormedWorld(w) && w.loads(text) == Ok(Dict(ExampleBody))
    ensures Handle(map["httpMethod" := Str("POST"), "body" := Str(text)], w, py) ==
      Ok(Validated(map["httpMethod" := Str("POST"), "body" := Str(text)], ExampleBody, w, py))
  {
    var event := map["httpMethod" := Str("POST"), "body" := Str(text)];
    assert Get(event, "httpMethod") == Str("POST");
    assert Handle(event, w, py) == Ok(HandleBody(event, w, py));
    assert ParsedBody(event, w, ExampleBody);
    BodyParsing(event, w, py);
  }

  /** The example body passes validation and reaches the synchronous run under the
      second uuid. */
  lemma ExampleValidated(event: Item, w: World, py: Py)
    requires WellFormedWorld(w) && StoreConfigured(w.env) && "isAsyncExecution" !in event
    ensures Validated(event, ExampleBody, w, py) ==
      Scrape(RunRequest(Str(w.secondUuid), List([Str("P1")]), Int(2), Null, Str("P1"), Str("7")), w.env.apifyToken, w.job, py)
  {
    var body := ExampleBody;
    assert GetOr(body, "placeIds", List([])) == List([Str("P1")]);
    assert First(List([Str("P1")])) == Ok(Str("P1"));
    assert Get(body, "user_profile_id") == Str("7");
    assert GetOr(body, "returnImmediately", Bool(true)) == Bool(false);
    assert GetOr(body, "maxReviews", Int(5)) == Int(2);
    assert Get(body, "reviewsStartDate") == Null;
    assert Get(body, "scraping_metadata_id") == Null;
    assert Get(event, "isAsyncExecution") == Null;
    SynchronousRun(event, body, w, py);
  }

  /** What follows the example's loop: 200 with the batch's counts, the attempt left
      `completed_with_errors`, and the business created for profile 7. */
  lemma ExampleConclude(attempt: Value, calls: seq<Call>, p: Progress, py: Py)
    requires p.successfulInserts == 1 && |p.errors| == 1 && p.businessInfo.Some?
    requires p.scrapingErrors == [Str("no_reviews")] && p.totalReviewsScraped == 1 && p.businessPlaceId == Str("P1")
    ensures var e := Conclude(attempt, Str("7"), calls, p, 2, py);
      e.response == Response(200, true, Results(2, 1, p.errors, p.businessInfo, attempt)) &&
      LastStatus(e.calls) == Some(CompletedWithErrors) &&
      e.calls[|e.calls| - 1] == CreateBusiness(Str("P1"), Some(7))
  {
    assert DecimalString(7) == "7";
    DecimalProfile(7, py);
    SummaryOfStrings(p.scrapingErrors, py);
    ConcludeSuccess(attempt, Str("7"), calls, p, 2, py);
    ConcludeStatus(attempt, Str("7"), calls, p, 2, py);
  }

  /** The request `{placeIds: ["P1"], maxReviews: 2, returnImmediately: false,
      user_profile_id: "7"}`, answered synchronously with a stored review and a
      `no_reviews` record: one insert, one error, the business info filled in, the
      attempt left `completed_with_errors`, and the business created for profile 7. */
  lemma ExampleRequest(text: string, w: World, py: Py)
    requires w.loads(text) == Ok(Dict(ExampleBody))
    requires StoreConfigured(w.env) && w.env.apifyToken.Some? && w.env.apifyToken.value != ""
    requires w.job.Fetched? && w.job.items == [ExampleReview, ExampleNoReviews] && |w.job.replies| == 2
    requires w.job.replies[0].Stored? && Truthy(w.job.replies[0].result)
    ensures var r := Handle(map["httpMethod" := Str("POST"), "body" := Str(text)], w, py);
      r.Ok? && r.value.response.statusCode == 200 && r.value.response.body.Results?
    ensures var r := Handle(map["httpMethod" := Str("POST"), "body" := Str(text)], w, py);
      r.Ok? && r.value.response.body.Results? ==>
        r.value.response.body.totalItems == 2 &&
        r.value.response.body.successfulInserts == 1 && |r.value.response.body.errors| == 1 &&
        r.value.response.body.businessInfo.Some? &&
        r.value.response.body.scrapingAttemptId == Str(w.secondUuid)
    ensures var r := Handle(map["httpMethod" := Str("POST"), "body" := Str(text)], w, py);
      r.Ok? ==> LastStatus(r.value.calls) == Some(CompletedWithErrors)
    ensures var r := Handle(map["httpMethod" := Str("POST"), "body" := Str(text)], w, py);
      r.Ok? && r.value.calls != [] ==> r.value.calls[|r.value.calls| - 1] == CreateBusiness(Str("P1"), Some(7))
  {
    var event := map["httpMethod" := Str("POST"), "body" := Str(text)];
    var req := RunRequest(Str(w.secondUuid), List([Str("P1")]), Int(2), Null, Str("P1"), Str("7"));
    var job := w.job;
    ExampleRouting(text, w, py);
    ExampleValidated(event, w, py);
    assert Handle(event, w, py) == Ok(Scrape(req, w.env.apifyToken, job, py));
    assert Submits(req, w.env.apifyToken);
    ExampleBatch(job.replies, req.attemptId, py);
    var p := Reconcile(job.items, job.replies, req.attemptId, req.businessPlaceId, py);
    var config := JobConfigFor(req.placeIds, req.maxReviews, req.reviewsStartDate).value;
    var calls := [SubmitJob(ActorId, config)] + p.calls;
    FetchedRun(req, w.env.apifyToken, job, py);
    assert Scrape(req, w.env.apifyToken, job, py) == Conclude(req.attemptId, Str("7"), calls, p, 2, py);
    ExampleConclude(req.attemptId, calls, p, py);
  }
}
