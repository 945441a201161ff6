/** `handle_synchronous_scraping` and `handle_async_scraping`: submit the scraping job,
    reconcile its items with the store, write the attempt's final status and create the
    business record. The actor, the dataset and the store are inputs; the calls made to
    them are recorded in order. The store is configured whenever these run: the handler
    answers 500 before reaching them otherwise. */
module Scraping {
  import opened PyValue
  import opened PyText
  import opened Gateway
  import opened Reconciliation

  /** The JSON body of a response. */
  datatype Body =
    | Message(text: string)                            // {'message': text}
    | Failure(error: string, details: Option<string>)  // {'error': ..., 'details': ...}
    | Initiated(scrapingAttemptId: Value)              // 202: status in_progress, estimated 10-15 minutes
    | Results(totalItems: nat, successfulInserts: nat, errors: seq<ProcessedError>,
              businessInfo: Option<BusinessInfo>, scrapingAttemptId: Value)
    | Row(row: Value)                                  // one `scraping_metadata` row

  /** A response; `cors` says whether the CORS headers are attached. */
  datatype Response = Response(statusCode: nat, cors: bool, body: Body)

  /** What the handler does: its response and the calls it made, in order. */
  datatype Effect = Effect(response: Response, calls: seq<Call>)

  /** The arguments of `handle_synchronous_scraping`; `userProfileId` is `Null` for `None`. */
  datatype RunRequest = RunRequest(
    attemptId: Value,
    placeIds: Value,
    maxReviews: Value,
    reviewsStartDate: Value,
    businessPlaceId: Value,
    userProfileId: Value)

  /** What the actor and the dataset answer: the text of the exception raised by the
      actor call or by the dataset retrieval, or the items together with the store's reply
      to each item's insert. */
  datatype Job =
    | SubmitFailed(message: string)
    | FetchFailed(message: string)
    | Fetched(items: seq<Item>, replies: seq<DbReply>)

  predicate WellFormed(job: Job) {
    job.Fetched? ==> |job.replies| == |job.items|
  }

  /** `run_input`: the fixed options, the caller's place ids and limit, and the start date
      only when it is a non-blank string; `.strip()` on any other truthy value raises. */
  function JobConfigFor(placeIds: Value, maxReviews: Value, start: Value): (r: Result<JobConfig, PyError>)
    ensures r.Err? <==> Truthy(start) && !start.Str?
    ensures r.Err? ==> r.error == NoAttribute(start, "strip")
    ensures r.Ok? ==> r.value.placeIds == placeIds && r.value.maxReviews == maxReviews
    ensures r.Ok? ==> r.value.reviewsSort == "newest" && r.value.language == "en" &&
                      r.value.reviewsOrigin == "all" && r.value.personalData
    ensures r.Ok? ==> (r.value.reviewsStartDate.Some? <==> start.Str? && !Blank(start.s))
    ensures r.Ok? && r.value.reviewsStartDate.Some? ==> r.value.reviewsStartDate.value == start
  {
    var config := JobConfig(placeIds, maxReviews, "newest", "en", "all", true, None);
    if !Truthy(start) then Ok(config)
    else if !start.Str? then Err(NoAttribute(start, "strip"))
    else if Strip(start.s) != "" then Ok(config.(reviewsStartDate := Some(start)))
    else Ok(config)
  }

  /** `int(user_profile_id)` when one was given. */
  function UserProfile(v: Value, py: Py): Result<Option<int>, PyError> {
    if v.Null? then Ok(None)
    else match PyInt(v, py)
      case Ok(k) => Ok(Some(k))
      case Err(e) => Err(e)
  }

  const TokenMissing: string := "Apify token not configured in environment variables"

  /** A failure before the items are processed: the attempt is marked failed and 500 is
      returned. */
  function Abort(attempt: Value, calls: seq<Call>, message: string, error: string, details: Option<string>): Effect {
    Effect(Response(500, true, Failure(error, details)), calls + [UpdateMetadata(attempt, MarkFailed(message))])
  }

  /** The outer `except` of the handler: `Type: text` is written and returned. */
  function Crash(attempt: Value, calls: seq<Call>, e: PyError, py: Py): Effect {
    var message := TypeName(e) + ": " + py.message(e);
    Abort(attempt, calls, message, "Scraping failed", Some(message))
  }

  /** The final metadata write for a reconciled batch. */
  function FinishFor(p: Progress, summary: Option<string>): MetadataUpdate {
    Finish(p.businessPlaceId, FinalStatus(p.scrapingErrors, p.totalReviewsScraped), p.totalReviewsScraped, summary)
  }

  /** `handle_synchronous_scraping` as a whole. */
  function Scrape(req: RunRequest, apifyToken: Option<string>, job: Job, py: Py): Effect
    requires WellFormed(job)
  {
    var attempt := req.attemptId;
    if apifyToken.None? || apifyToken.value == "" then
      Abort(attempt, [], TokenMissing, TokenMissing, None)
    else
      match JobConfigFor(req.placeIds, req.maxReviews, req.reviewsStartDate)
      case Err(e) =>
        var message := "Apify scraping failed: " + py.message(e);
        Abort(attempt, [], message, "Scraping failed", Some(message))
      case Ok(config) => Submitted(req, config, job, py)
  }

  /** From the actor call on. */
  function Submitted(req: RunRequest, config: JobConfig, job: Job, py: Py): Effect
    requires WellFormed(job)
  {
    var attempt := req.attemptId;
    var submitted := [SubmitJob(ActorId, config)];
    match job
    case SubmitFailed(m) =>
      var message := "Apify scraping failed: " + m;
      Abort(attempt, submitted, message, "Scraping failed", Some(message))
    case FetchFailed(m) =>
      var message := "Failed to retrieve scraped data: " + m;
      Abort(attempt, submitted, message, "Failed to retrieve scraped data", Some(message))
    case Fetched(items, replies) =>
      var p := Reconcile(items, replies, attempt, req.businessPlaceId, py);
      Conclude(attempt, req.userProfileId, submitted + p.calls, p, |items|, py)
  }

  /** What follows the item loop: the final status write, the business record and the
      200 answer, or the outer `except` when the summary or the profile raises. */
  function Conclude(attempt: Value, userProfileId: Value, calls: seq<Call>, p: Progress, totalItems: nat, py: Py): Effect {
    match ErrorSummary(p.scrapingErrors, py)
    case Err(e) => Crash(attempt, calls, e, py)
    case Ok(summary) =>
      var finished := calls + [UpdateMetadata(attempt, FinishFor(p, summary))];
      match UserProfile(userProfileId, py)
      case Err(e) => Crash(attempt, finished, e, py)
      case Ok(profile) =>
        Effect(Response(200, true, Results(totalItems, p.successfulInserts, p.errors, p.businessInfo, attempt)),
               finished + [CreateBusiness(p.businessPlaceId, profile)])
  }

  /** The answer to an event that lacks `key`: 500, without CORS headers, and no call. */
  function MissingKeyAnswer(key: string, py: Py): Effect {
    Effect(Response(500, false, Failure("Async scraping failed", Some(py.message(MissingKey(Str(key)))))), [])
  }

  /** `handle_async_scraping`: the run's arguments come from the event itself; the first
      missing key answers 500 without CORS headers, and no user profile is passed on. */
  function AsyncRun(event: Item, apifyToken: Option<string>, job: Job, py: Py): (e: Effect)
    requires WellFormed(job)
    ensures "scrapingAttemptId" !in event ==> e == MissingKeyAnswer("scrapingAttemptId", py)
    ensures "scrapingAttemptId" in event && "placeIds" !in event ==> e == MissingKeyAnswer("placeIds", py)
    ensures "scrapingAttemptId" in event && "placeIds" in event && "maxReviews" !in event ==>
      e == MissingKeyAnswer("maxReviews", py)
    ensures ("scrapingAttemptId" in event && "placeIds" in event && "maxReviews" in event &&
             "businessPlaceId" !in event) ==> e == MissingKeyAnswer("businessPlaceId", py)
    ensures "scrapingAttemptId" in event && "placeIds" in event && "maxReviews" in event && "businessPlaceId" in event ==>
      e == Scrape(RunRequest(event["scrapingAttemptId"], event["placeIds"], event["maxReviews"],
                             Get(event, "reviewsStartDate"), event["businessPlaceId"], Null), apifyToken, job, py)
    ensures e.response.statusCode == 500 && !e.response.cors ==> e.calls == []
  {
    if "scrapingAttemptId" !in event then MissingKeyAnswer("scrapingAttemptId", py)
    else if "placeIds" !in event then MissingKeyAnswer("placeIds", py)
    else if "maxReviews" !in event then MissingKeyAnswer("maxReviews", py)
    else if "businessPlaceId" !in event then MissingKeyAnswer("businessPlaceId", py)
    else
      Scrape(RunRequest(event["scrapingAttemptId"], event["placeIds"], event["maxReviews"],
                        Get(event, "reviewsStartDate"), event["businessPlaceId"], Null), apifyToken, job, py)
  }

  // ---------------------------------------------------------------------------
  // Properties of a run

  /** The status a metadata write leaves the attempt in. */
  function StatusOf(u: MetadataUpdate): Status {
    match u
    case MarkFailed(_) => Failed
    case Finish(_, status, _, _) => status
  }

  /** The status written last, if any metadata write was made. */
  function LastStatus(calls: seq<Call>): Option<Status> {
    if calls == [] then None
    else
      var c := calls[|calls| - 1];
      if c.UpdateMetadata? then Some(StatusOf(c.update)) else LastStatus(calls[..|calls| - 1])
  }

  /** The token is there and the start date does not break the job configuration. */
  predicate Submits(req: RunRequest, apifyToken: Option<string>) {
    apifyToken.Some? && apifyToken.value != "" && JobConfigFor(req.placeIds, req.maxReviews, req.reviewsStartDate).Ok?
  }

  /** A run whose job delivered its items goes on to `Conclude` after the actor call and
      the loop's calls. */
  lemma FetchedRun(req: RunRequest, apifyToken: Option<string>, job: Job, py: Py)
    requires WellFormed(job) && Submits(req, apifyToken) && job.Fetched?
    ensures var p := Reconcile(job.items, job.replies, req.attemptId, req.businessPlaceId, py);
      var config := JobConfigFor(req.placeIds, req.maxReviews, req.reviewsStartDate).value;
      Scrape(req, apifyToken, job, py) ==
        Conclude(req.attemptId, req.userProfileId, [SubmitJob(ActorId, config)] + p.calls, p, |job.items|, py)
  {
  }

  /** When the summary and the profile convert, the loop's results are returned with 200,
      after the final status write and the business record. */
  lemma ConcludeSuccess(attempt: Value, userProfileId: Value, calls: seq<Call>, p: Progress, totalItems: nat, py: Py)
    requires ErrorSummary(p.scrapingErrors, py).Ok? && UserProfile(userProfileId, py).Ok?
    ensures Conclude(attempt, userProfileId, calls, p, totalItems, py) ==
      Effect(Response(200, true, Results(totalItems, p.successfulInserts, p.errors, p.businessInfo, attempt)),
             calls + [UpdateMetadata(attempt, FinishFor(p, ErrorSummary(p.scrapingErrors, py).value)),
                      CreateBusiness(p.businessPlaceId, UserProfile(userProfileId, py).value)])
  {
  }

  /** After the loop, the last metadata write is `failed` on a 500, and the batch's
      final status on a 200. */
  lemma ConcludeStatus(attempt: Value, userProfileId: Value, calls: seq<Call>, p: Progress, totalItems: nat, py: Py)
    ensures var e := Conclude(attempt, userProfileId, calls, p, totalItems, py);
      e.response.statusCode == 200 || e.response.statusCode == 500
    ensures var e := Conclude(attempt, userProfileId, calls, p, totalItems, py);
      LastStatus(e.calls) == if e.response.statusCode == 200 then Some(FinalStatus(p.scrapingErrors, p.totalReviewsScraped)) else Some(Failed)
  {
    var e := Conclude(attempt, userProfileId, calls, p, totalItems, py);
    if e.response.statusCode == 200 {
      assert e.calls[..|e.calls| - 1] == calls + [UpdateMetadata(attempt, FinishFor(p, ErrorSummary(p.scrapingErrors, py).value))];
    }
  }

  /** Every run ends with the attempt in a terminal state: `failed` whenever it answers
      500, otherwise the final status the batch earned. */
  lemma NeverLeftInProgress(req: RunRequest, apifyToken: Option<string>, job: Job, py: Py)
    requires WellFormed(job)
    ensures var e := Scrape(req, apifyToken, job, py);
      LastStatus(e.calls).Some? && LastStatus(e.calls).value != InProgress
    ensures var e := Scrape(req, apifyToken, job, py);
      e.response.statusCode != 200 ==> LastStatus(e.calls) == Some(Failed)
    ensures var e := Scrape(req, apifyToken, job, py);
      e.response.statusCode == 200 ==>
        job.Fetched? &&
        (var p := Reconcile(job.items, job.replies, req.attemptId, req.businessPlaceId, py);
         LastStatus(e.calls) == Some(FinalStatus(p.scrapingErrors, p.totalReviewsScraped)))
  {
    if Submits(req, apifyToken) && job.Fetched? {
      var p := Reconcile(job.items, job.replies, req.attemptId, req.businessPlaceId, py);
      var config := JobConfigFor(req.placeIds, req.maxReviews, req.reviewsStartDate).value;
      ConcludeStatus(req.attemptId, req.userProfileId, [SubmitJob(ActorId, config)] + p.calls, p, |job.items|, py);
    }
  }

  /** Without the actor token, the attempt is marked failed and nothing is submitted. */
  lemma TokenMissingSubmitsNothing(req: RunRequest, job: Job, py: Py)
    requires WellFormed(job)
    ensures Scrape(req, None, job, py) == Scrape(req, Some(""), job, py)
    ensures Scrape(req, None, job, py) ==
      Effect(Response(500, true, Failure(TokenMissing, None)), [UpdateMetadata(req.attemptId, MarkFailed(TokenMissing))])
  {
  }

  /** A run answers 200 exactly when the job delivered its items, the error summary could
      be built and the user profile converted; it answers 500 otherwise. */
  lemma SuccessRule(req: RunRequest, apifyToken: Option<string>, job: Job, py: Py)
    requires WellFormed(job)
    ensures var e := Scrape(req, apifyToken, job, py);
      e.response.statusCode == 200 || e.response.statusCode == 500
    ensures var e := Scrape(req, apifyToken, job, py);
      e.response.statusCode == 200 <==>
        Submits(req, apifyToken) && job.Fetched? &&
        ErrorSummary(Reconcile(job.items, job.replies, req.attemptId, req.businessPlaceId, py).scrapingErrors, py).Ok? &&
        UserProfile(req.userProfileId, py).Ok?
  {
  }

  /** The 200 answer reports the batch: every item is counted, errors in dataset order,
      and the business is created last, with the place id the loop settled on. */
  lemma ResultsReport(req: RunRequest, apifyToken: Option<string>, job: Job, py: Py)
    requires WellFormed(job)
    requires Scrape(req, apifyToken, job, py).response.statusCode == 200
    ensures job.Fetched?
    ensures var e := Scrape(req, apifyToken, job, py);
      var p := Reconcile(job.items, job.replies, req.attemptId, req.businessPlaceId, py);
      var os := Outcomes(job.items, job.replies, req.attemptId, py);
      e.response.body == Results(|job.items|, p.successfulInserts, p.errors, p.businessInfo, req.attemptId) &&
      p.errors == ReportedErrors(os) &&
      p.successfulInserts + |p.errors| + DroppedCount(os) == |job.items| &&
      e.calls[|e.calls| - 1] == CreateBusiness(p.businessPlaceId, UserProfile(req.userProfileId, py).value)
  {
    Accounting(job.items, job.replies, req.attemptId, req.businessPlaceId, py);
  }

  /** A user profile id that does not convert is only noticed after the final status was
      written: that status is then overwritten with `failed`, and no business is created. */
  lemma ProfileFailureAfterFinish(req: RunRequest, apifyToken: Option<string>, job: Job, py: Py)
    requires WellFormed(job) && Submits(req, apifyToken) && job.Fetched?
    requires ErrorSummary(Reconcile(job.items, job.replies, req.attemptId, req.businessPlaceId, py).scrapingErrors, py).Ok?
    requires UserProfile(req.userProfileId, py).Err?
    ensures var e := Scrape(req, apifyToken, job, py);
      var p := Reconcile(job.items, job.replies, req.attemptId, req.businessPlaceId, py);
      var summary := ErrorSummary(p.scrapingErrors, py).value;
      var err := UserProfile(req.userProfileId, py).error;
      var message := TypeName(err) + ": " + py.message(err);
      e.response == Response(500, true, Failure("Scraping failed", Some(message))) &&
      |e.calls| >= 2 &&
      e.calls[|e.calls| - 2] == UpdateMetadata(req.attemptId, FinishFor(p, summary)) &&
      e.calls[|e.calls| - 1] == UpdateMetadata(req.attemptId, MarkFailed(message)) &&
      forall c | c in e.calls :: !c.CreateBusiness?
  {
    var p := Reconcile(job.items, job.replies, req.attemptId, req.businessPlaceId, py);
    ReviewCallsOnly(job.items, job.replies, req.attemptId, req.businessPlaceId, py);
    var config := JobConfigFor(req.placeIds, req.maxReviews, req.reviewsStartDate).value;
    var e := Scrape(req, apifyToken, job, py);
    var summary := ErrorSummary(p.scrapingErrors, py).value;
    var err := UserProfile(req.userProfileId, py).error;
    var message := TypeName(err) + ": " + py.message(err);
    assert e.calls == [SubmitJob(ActorId, config)] + p.calls + [UpdateMetadata(req.attemptId, FinishFor(p, summary))]
      + [UpdateMetadata(req.attemptId, MarkFailed(message))];
  }

  /** The steps after the loop only append: metadata writes for the attempt and the
      business record with the converted profile id. */
  lemma ConcludeCalls(attempt: Value, userProfileId: Value, calls: seq<Call>, p: Progress, totalItems: nat, py: Py)
    ensures var e := Conclude(attempt, userProfileId, calls, p, totalItems, py);
      |calls| < |e.calls| && e.calls[..|calls|] == calls
    ensures var e := Conclude(attempt, userProfileId, calls, p, totalItems, py);
      forall c | c in e.calls[|calls|..] ::
        (c.UpdateMetadata? && c.attempt == attempt) || (c.CreateBusiness? && UserProfile(userProfileId, py) == Ok(c.userProfile))
  {
    var e := Conclude(attempt, userProfileId, calls, p, totalItems, py);
    match ErrorSummary(p.scrapingErrors, py)
    case Err(err) =>
      var tail := [UpdateMetadata(attempt, MarkFailed(TypeName(err) + ": " + py.message(err)))];
      assert e.calls == calls + tail;
      Appended(calls, tail);
    case Ok(summary) =>
      var finish := UpdateMetadata(attempt, FinishFor(p, summary));
      match UserProfile(userProfileId, py)
      case Err(err) =>
        var tail := [finish, UpdateMetadata(attempt, MarkFailed(TypeName(err) + ": " + py.message(err)))];
        assert e.calls == calls + [finish] + [tail[1]];
        assert calls + [finish] + [tail[1]] == calls + tail;
        Appended(calls, tail);
      case Ok(profile) =>
        var tail := [finish, CreateBusiness(p.businessPlaceId, profile)];
        assert e.calls == calls + [finish] + [tail[1]];
        assert calls + [finish] + [tail[1]] == calls + tail;
        Appended(calls, tail);
  }

  /** `a + b` splits back into `a` and `b`. */
  lemma Appended(a: seq<Call>, b: seq<Call>)
    ensures (a + b)[..|a|] == a && (a + b)[|a|..] == b
  {
  }

  /** The calls of a run that reaches the loop: the actor call, the loop's review calls,
      then what `Conclude` appends. */
  lemma FetchedCalls(req: RunRequest, apifyToken: Option<string>, job: Job, py: Py)
    requires WellFormed(job) && Submits(req, apifyToken) && job.Fetched?
    ensures var e := Scrape(req, apifyToken, job, py);
      forall c | c in e.calls ::
        c.SubmitJob? || ReviewCall(c, req.attemptId) || (c.UpdateMetadata? && c.attempt == req.attemptId) ||
        (c.CreateBusiness? && UserProfile(req.userProfileId, py) == Ok(c.userProfile))
  {
    var e := Scrape(req, apifyToken, job, py);
    var p := Reconcile(job.items, job.replies, req.attemptId, req.businessPlaceId, py);
    var config := JobConfigFor(req.placeIds, req.maxReviews, req.reviewsStartDate).value;
    var before := [SubmitJob(ActorId, config)] + p.calls;
    ReviewCallsOnly(job.items, job.replies, req.attemptId, req.businessPlaceId, py);
    ConcludeCalls(req.attemptId, req.userProfileId, before, p, |job.items|, py);
    assert e.calls == before + e.calls[|before|..];
  }

  /** Every metadata write of a run is about its own attempt, and so is every review tag. */
  lemma WritesTargetTheAttempt(req: RunRequest, apifyToken: Option<string>, job: Job, py: Py)
    requires WellFormed(job)
    ensures forall c | c in Scrape(req, apifyToken, job, py).calls ::
      (c.UpdateMetadata? ==> c.attempt == req.attemptId) && (c.TagReview? ==> c.attempt == req.attemptId)
  {
    if Submits(req, apifyToken) && job.Fetched? {
      FetchedCalls(req, apifyToken, job, py);
    }
  }

  /** The business record carries the user profile id as converted by `int()`. */
  lemma BusinessCarriesProfile(req: RunRequest, apifyToken: Option<string>, job: Job, py: Py)
    requires WellFormed(job)
    ensures forall c | c in Scrape(req, apifyToken, job, py).calls ::
      c.CreateBusiness? ==> UserProfile(req.userProfileId, py) == Ok(c.userProfile)
  {
    if Submits(req, apifyToken) && job.Fetched? {
      FetchedCalls(req, apifyToken, job, py);
    }
  }

  /** The steps after the loop insert no review. */
  lemma ConcludeInsertsNothing(attempt: Value, userProfileId: Value, calls: seq<Call>, p: Progress, totalItems: nat, py: Py)
    ensures Inserts(Conclude(attempt, userProfileId, calls, p, totalItems, py).calls) == Inserts(calls)
  {
    var e := Conclude(attempt, userProfileId, calls, p, totalItems, py);
    ConcludeCalls(attempt, userProfileId, calls, p, totalItems, py);
    var added := e.calls[|calls|..];
    assert e.calls == calls + added;
    NoInserts(added);
    InsertsAppend(calls, added);
  }

  /** One insert per untagged item once the job has delivered; none otherwise. */
  lemma InsertsOfRun(req: RunRequest, apifyToken: Option<string>, job: Job, py: Py)
    requires WellFormed(job)
    ensures Inserts(Scrape(req, apifyToken, job, py).calls) ==
      if Submits(req, apifyToken) && job.Fetched? then UntaggedCount(job.items) else 0
  {
    var e := Scrape(req, apifyToken, job, py);
    var attempt := req.attemptId;
    if Submits(req, apifyToken) {
      var config := JobConfigFor(req.placeIds, req.maxReviews, req.reviewsStartDate).value;
      var submitted := [SubmitJob(ActorId, config)];
      assert Inserts(submitted) == 0 by {
        assert submitted[..0] == [];
      }
      if job.Fetched? {
        var p := Reconcile(job.items, job.replies, attempt, req.businessPlaceId, py);
        InsertsPerItem(job.items, job.replies, attempt, req.businessPlaceId, py);
        InsertsAppend(submitted, p.calls);
        ConcludeInsertsNothing(attempt, req.userProfileId, submitted + p.calls, p, |job.items|, py);
      } else {
        assert e.calls[..|e.calls| - 1] == submitted;
      }
    }
  }

  /** A profile id written out in decimal digits reaches the business record as that number. */
  lemma DecimalProfile(n: nat, py: Py)
    ensures UserProfile(Str(DecimalString(n)), py) == Ok(Some(n as int))
  {
    IntOfDecimalString(n, py);
  }

  /** The asynchronous continuation answers 200 or 500, like the run it continues. */
  lemma AsyncCodes(event: Item, apifyToken: Option<string>, job: Job, py: Py)
    requires WellFormed(job)
    ensures AsyncRun(event, apifyToken, job, py).response.statusCode in {200, 500}
  {
    if "scrapingAttemptId" in event && "placeIds" in event && "maxReviews" in event && "businessPlaceId" in event {
      SuccessRule(RunRequest(event["scrapingAttemptId"], event["placeIds"], event["maxReviews"],
                             Get(event, "reviewsStartDate"), event["businessPlaceId"], Null), apifyToken, job, py);
    }
  }

  /** The asynchronous continuation runs the same work, with no user profile: it never
      fails on the profile, and the business it creates has none. */
  lemma AsyncHasNoProfile(event: Item, apifyToken: Option<string>, job: Job, py: Py)
    requires WellFormed(job)
    ensures forall c | c in AsyncRun(event, apifyToken, job, py).calls :: c.CreateBusiness? ==> c.userProfile == None
  {
    if "scrapingAttemptId" in event && "placeIds" in event && "maxReviews" in event && "businessPlaceId" in event {
      BusinessCarriesProfile(RunRequest(event["scrapingAttemptId"], event["placeIds"], event["maxReviews"],
                                        Get(event, "reviewsStartDate"), event["businessPlaceId"], Null), apifyToken, job, py);
    }
  }
}
