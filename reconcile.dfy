/** The result-reconciliation loop of `handle_synchronous_scraping`: every scraped
    item becomes either a stored review or a `ProcessedError`, and the final status and
    error summary of the attempt follow from the tallies. */
module Reconciliation {
  import opened PyValue
  import opened PyText
  import opened Gateway
  import Clean

  /** The four-field business snapshot attached to a `no_reviews` error. */
  datatype Snapshot = Snapshot(title: Value, address: Value, totalScore: Value, reviewsCount: Value)

  /** `ProcessedError`; an absent optional is `Null`, as in the JSON the source returns. */
  datatype ProcessedError = ProcessedError(
    kind: Value,
    description: Value,
    placeId: Value,
    reviewId: Value,
    businessInfo: Option<Snapshot>)

  /** `ProcessedBusinessInfo`, with `categories` already comma-joined. */
  datatype BusinessInfo = BusinessInfo(
    placeId: Value, title: Value, categoryName: Value, categories: string,
    address: Value, neighborhood: Value, street: Value, city: Value,
    postalCode: Value, state: Value, countryCode: Value, location: Value,
    totalScore: Value, reviewsCount: Value, price: Value,
    permanentlyClosed: Value, temporarilyClosed: Value,
    imageUrl: Value, url: Value, cid: Value, fid: Value)

  /** What the store did with one review insert. */
  datatype DbReply =
    | Stored(result: Value, listed: bool)      // 2xx with a JSON body; `listed`: the follow-up lookup found the review
    | RequestFailed(detail: string, responseText: Option<string>)   // a `RequestException`
    | UndecodableResponse(text: string)        // 2xx whose body is not JSON

  /** How one item ends up, independently of every other item. */
  datatype Verdict =
    | Inserted
    | Dropped                                  // the store answered with an empty result
    | Reported(error: ProcessedError, message: Value, business: Option<BusinessInfo>)

  const NoReviews: Value := Str("no_reviews")

  function ErrorTag(item: Item): Value {
    Get(item, "error")
  }

  function SnapshotOf(item: Item): Snapshot {
    Snapshot(Get(item, "title"), Get(item, "address"), Get(item, "totalScore"), Get(item, "reviewsCount"))
  }

  function BusinessInfoOf(item: Item, categories: string): BusinessInfo {
    BusinessInfo(
      Get(item, "placeId"), Get(item, "title"), Get(item, "categoryName"), categories,
      Get(item, "address"), Get(item, "neighborhood"), Get(item, "street"), Get(item, "city"),
      Get(item, "postalCode"), Get(item, "state"), Get(item, "countryCode"), Get(item, "location"),
      Get(item, "totalScore"), Get(item, "reviewsCount"), Get(item, "price"),
      Get(item, "permanentlyClosed"), Get(item, "temporarilyClosed"),
      Get(item, "imageUrl"), Get(item, "url"), Get(item, "cid"), Get(item, "fid"))
  }

  /** `','.join(item.get('categories', []))`. */
  function Categories(item: Item, py: Py): Result<string, PyError> {
    PyJoin(",", GetOr(item, "categories", List([])), py)
  }

  /** A `no_reviews` item whose categories can be joined: the one kind of item that
      yields business information. */
  predicate CarriesBusiness(item: Item, py: Py) {
    Truthy(ErrorTag(item)) && ErrorTag(item) == NoReviews && Categories(item, py).Ok?
  }

  /** The description of an unexpected exception `type: text`; its text `"0"`,
      `"Unknown error"` or empty is replaced by the traceback. */
  function FailureText(typeName: string, text: string, traceback: string): (r: string)
    ensures text != "0" && text != "Unknown error" && text != "" ==> r == typeName + ": " + text
  {
    var message := if text != "0" then text else "Unknown error";
    if message == "Unknown error" || message == "" then "Exception in item processing: " + traceback
    else typeName + ": " + message
  }

  function ProcessingError(item: Item, description: string): Verdict {
    Reported(ProcessedError(Str("processing_error"), Str(description), Null, Get(item, "reviewId"), None), Str(description), None)
  }

  function DatabaseErrorText(detail: string, responseText: Option<string>): string {
    "Database error: " + detail + (if responseText.Some? then " Response: " + responseText.value else "")
  }

  function InvalidResponseText(text: string): string {
    "Invalid JSON response from database: " + text[..if |text| < 500 then |text| else 500]
  }

  /** The verdict on one item, given the store's reply to its insert (ignored when the
      item is error-tagged, since no insert is made then). */
  function Classify(item: Item, reply: DbReply, py: Py): (v: Verdict)
    ensures Truthy(ErrorTag(item)) ==> v.Reported?
    ensures Truthy(ErrorTag(item)) && !(ErrorTag(item) == NoReviews && Categories(item, py).Err?) ==>
      v.error.kind == ErrorTag(item) &&
      v.error.description == GetOr(item, "errorDescription", ErrorTag(item)) &&
      v.message == v.error.description &&
      v.error.placeId == Get(item, "placeId")
    ensures v.Reported? ==> (v.business.Some? <==> CarriesBusiness(item, py))
    ensures v.Reported? ==> (v.error.businessInfo.Some? <==> CarriesBusiness(item, py))
    ensures CarriesBusiness(item, py) ==>
      v.business == Some(BusinessInfoOf(item, Categories(item, py).value)) &&
      v.error.businessInfo == Some(SnapshotOf(item))
    ensures Truthy(ErrorTag(item)) && ErrorTag(item) == NoReviews && Categories(item, py).Err? ==>
      v.error.kind == Str("processing_error") && v.error.reviewId == Get(item, "reviewId") &&
      v.error.placeId == Null && v.business == None
    ensures !Truthy(ErrorTag(item)) ==> (v.Inserted? <==> reply.Stored? && Truthy(reply.result))
    ensures !Truthy(ErrorTag(item)) && reply.Stored? && !Truthy(reply.result) ==> v == Dropped
    ensures !Truthy(ErrorTag(item)) && reply.RequestFailed? ==>
      v.Reported? && v.error.kind == Str("database_error") && v.error.reviewId == Get(item, "reviewId") &&
      v.error.description == Str(DatabaseErrorText(reply.detail, reply.responseText)) &&
      v.message == v.error.description && v.error.placeId == Null && v.business == None
    ensures !Truthy(ErrorTag(item)) && reply.UndecodableResponse? ==>
      v == ProcessingError(item, FailureText("Exception", InvalidResponseText(reply.text), py.traceback))
  {
    var tag := ErrorTag(item);
    if Truthy(tag) then
      var description := GetOr(item, "errorDescription", tag);
      var error := ProcessedError(tag, description, Get(item, "placeId"), Null, None);
      if tag == NoReviews then
        match Categories(item, py)
        case Ok(categories) =>
          Reported(error.(businessInfo := Some(SnapshotOf(item))), description, Some(BusinessInfoOf(item, categories)))
        case Err(e) => ProcessingError(item, FailureText(TypeName(e), py.message(e), py.traceback))
      else Reported(error, description, None)
    else
      match reply
      case Stored(result, _) => if Truthy(result) then Inserted else Dropped
      case RequestFailed(detail, responseText) =>
        var text := DatabaseErrorText(detail, responseText);
        Reported(ProcessedError(Str("database_error"), Str(text), Null, Get(item, "reviewId"), None), Str(text), None)
      case UndecodableResponse(text) =>
        ProcessingError(item, FailureText("Exception", InvalidResponseText(text), py.traceback))
  }

  /** The id of a stored review in the insert's response: from the first row of a list,
      or from a single object. */
  function ReviewId(result: Value): (id: Value)
    ensures id == Null || Truthy(id)
  {
    match result
    case List(rows) =>
      if |rows| > 0 && rows[0].Dict? && Truthy(Get(rows[0].fields, "id")) then rows[0].fields["id"] else Null
    case Dict(m) => if Truthy(Get(m, "id")) then m["id"] else Null
    case _ => Null
  }

  /** A call on the `reviews` resource; a review is only ever tagged with this attempt. */
  predicate ReviewCall(c: Call, attempt: Value) {
    c.InsertReview? || c.LookupReview? || (c.TagReview? && c.attempt == attempt)
  }

  /** The calls that follow a review's insert: for a stored review with an id, the
      lookup and (if found) the tag. */
  function AfterInsert(reply: DbReply, attempt: Value): seq<Call> {
    if reply.Stored? && Truthy(reply.result) && Truthy(ReviewId(reply.result)) then
      [LookupReview(ReviewId(reply.result))] + (if reply.listed then [TagReview(ReviewId(reply.result), attempt)] else [])
    else []
  }

  /** The store calls one item causes: none for an error-tagged item; otherwise the
      insert, then what follows it. */
  function ItemCalls(item: Item, reply: DbReply, attempt: Value, py: Py): seq<Call> {
    if Truthy(ErrorTag(item)) then []
    else [InsertReview(Clean.CleanItem(item, py.show))] + AfterInsert(reply, attempt)
  }

  /** An untagged item is inserted exactly once, a tagged one never; every call it
      causes is on the `reviews` resource. */
  lemma ItemCallsShape(item: Item, reply: DbReply, attempt: Value, py: Py)
    ensures Inserts(ItemCalls(item, reply, attempt, py)) == if Truthy(ErrorTag(item)) then 0 else 1
    ensures forall c | c in ItemCalls(item, reply, attempt, py) :: ReviewCall(c, attempt)
  {
    if !Truthy(ErrorTag(item)) {
      var insert := [InsertReview(Clean.CleanItem(item, py.show))];
      var extra := AfterInsert(reply, attempt);
      assert ItemCalls(item, reply, attempt, py) == insert + extra;
      assert Inserts(insert) == 1 by {
        assert insert[..0] == [];
      }
      assert forall c | c in extra :: c.LookupReview? || (c.TagReview? && c.attempt == attempt);
      NoInserts(extra);
      InsertsAppend(insert, extra);
    }
  }

  /** An untagged item's first call inserts its cleaned record; the lookup follows a
      non-empty stored answer with a truthy id, and the tag with this attempt follows
      exactly when the lookup found the review. */
  lemma ItemCallsContent(item: Item, reply: DbReply, attempt: Value, py: Py, id: Value)
    requires !Truthy(ErrorTag(item))
    ensures ItemCalls(item, reply, attempt, py)[0] == InsertReview(Clean.CleanItem(item, py.show))
    ensures LookupReview(id) in ItemCalls(item, reply, attempt, py) <==>
      reply.Stored? && Truthy(reply.result) && id == ReviewId(reply.result) && Truthy(id)
    ensures TagReview(id, attempt) in ItemCalls(item, reply, attempt, py) <==>
      reply.Stored? && Truthy(reply.result) && reply.listed && id == ReviewId(reply.result) && Truthy(id)
  {
    var calls := ItemCalls(item, reply, attempt, py);
    assert calls == [InsertReview(Clean.CleanItem(item, py.show))] + AfterInsert(reply, attempt);
  }

  /** One item together with its verdict and the calls it causes. */
  datatype Outcome = Outcome(item: Item, verdict: Verdict, calls: seq<Call>)

  /** The outcome of every item, in dataset order. */
  function Outcomes(items: seq<Item>, replies: seq<DbReply>, attempt: Value, py: Py): (os: seq<Outcome>)
    requires |replies| == |items|
    ensures |os| == |items|
    ensures forall i | 0 <= i < |items| ::
      os[i] == Outcome(items[i], Classify(items[i], replies[i], py), ItemCalls(items[i], replies[i], attempt, py))
  {
    seq(|items|, i requires 0 <= i < |items| =>
      Outcome(items[i], Classify(items[i], replies[i], py), ItemCalls(items[i], replies[i], attempt, py)))
  }

  /** The loop's variables: `processed_results`, `scraping_errors`,
      `total_reviews_scraped`, `business_place_id`, and the calls made so far. */
  datatype Progress = Progress(
    successfulInserts: nat,
    errors: seq<ProcessedError>,
    businessInfo: Option<BusinessInfo>,
    scrapingErrors: seq<Value>,
    totalReviewsScraped: nat,
    businessPlaceId: Value,
    calls: seq<Call>)

  function Start(placeId: Value): Progress {
    Progress(0, [], None, [], 0, placeId, [])
  }

  /** `business_place_id` takes the item's `placeId` while it is still falsy. */
  function NextPlaceId(current: Value, item: Item): Value {
    if !Truthy(current) && Truthy(Get(item, "placeId")) then item["placeId"] else current
  }

  /** A verdict recorded in the loop's counters and error lists. */
  function Tally(p: Progress, v: Verdict): Progress {
    match v
    case Inserted =>
      p.(successfulInserts := p.successfulInserts + 1, totalReviewsScraped := p.totalReviewsScraped + 1)
    case Dropped => p
    case Reported(error, message, business) =>
      p.(errors := p.errors + [error], scrapingErrors := p.scrapingErrors + [message],
         businessInfo := if business.Some? then business else p.businessInfo)
  }

  /** One iteration of the loop: the item's outcome recorded in the loop's variables. */
  function Step(p: Progress, o: Outcome): Progress {
    Tally(p.(businessPlaceId := NextPlaceId(p.businessPlaceId, o.item), calls := p.calls + o.calls), o.verdict)
  }

  /** The loop's variables after `os`, one at a time, in order. */
  function Run(start: Progress, os: seq<Outcome>): Progress
    decreases |os|
  {
    if os == [] then start else Step(Run(start, os[..|os| - 1]), os[|os| - 1])
  }

  /** Two outcomes are two steps. */
  lemma RunOfTwo(start: Progress, os: seq<Outcome>)
    requires |os| == 2
    ensures Run(start, os) == Step(Step(start, os[0]), os[1])
  {
    assert os[..1][..0] == [] && os[..1] == [os[0]];
    assert Run(start, os[..1]) == Step(start, os[0]);
  }

  /** The state after the loop has processed every item. */
  function Reconcile(items: seq<Item>, replies: seq<DbReply>, attempt: Value, placeId: Value, py: Py): Progress
    requires |replies| == |items|
  {
    Run(Start(placeId), Outcomes(items, replies, attempt, py))
  }

  /** One pass of the loop's body: the `try` block for one item, updating the loop's
      variables in `q`. */
  method ProcessItem(p: Progress, item: Item, reply: DbReply, attempt: Value, py: Py) returns (q: Progress)
    ensures q == Step(p, Outcome(item, Classify(item, reply, py), ItemCalls(item, reply, attempt, py)))
  {
    q := p;
    if !Truthy(q.businessPlaceId) && Truthy(Get(item, "placeId")) {
      q := q.(businessPlaceId := item["placeId"]);
    }
    if Truthy(Get(item, "error")) {
      q := ProcessTagged(q, item, reply, py);
    } else {
      q := ProcessReview(q, item, reply, attempt, py);
    }
  }

  /** The body for an error-tagged item: record it, and attach the business found. It
      makes no call. */
  method ProcessTagged(p: Progress, item: Item, reply: DbReply, py: Py) returns (q: Progress)
    requires Truthy(Get(item, "error"))
    ensures q == Tally(p, Classify(item, reply, py))
  {
    ghost var verdict := Classify(item, reply, py);
    q := p;
    var tag := item["error"];
    var description := GetOr(item, "errorDescription", tag);
    var error := ProcessedError(tag, description, Get(item, "placeId"), Null, None);
    if tag == NoReviews {
      var categories := PyJoin(",", GetOr(item, "categories", List([])), py);
      if categories.Ok? {
        error := error.(businessInfo := Some(SnapshotOf(item)));
        q := q.(businessInfo := Some(BusinessInfoOf(item, categories.value)));
        q := q.(errors := q.errors + [error], scrapingErrors := q.scrapingErrors + [description]);
        assert verdict == Reported(error, description, q.businessInfo);
      } else {
        var e := categories.error;
        var text := FailureText(TypeName(e), py.message(e), py.traceback);
        q := q.(errors := q.errors + [ProcessedError(Str("processing_error"), Str(text), Null, Get(item, "reviewId"), None)],
                scrapingErrors := q.scrapingErrors + [Str(text)]);
        assert verdict == ProcessingError(item, text);
      }
    } else {
      q := q.(errors := q.errors + [error], scrapingErrors := q.scrapingErrors + [description]);
      assert verdict == Reported(error, description, None);
    }
  }

  /** The body for a review: clean it, insert it, then record the store's answer. */
  method ProcessReview(p: Progress, item: Item, reply: DbReply, attempt: Value, py: Py) returns (q: Progress)
    requires !Truthy(Get(item, "error"))
    ensures q == Tally(p, Classify(item, reply, py)).(calls := p.calls + ItemCalls(item, reply, attempt, py))
  {
    var cleaned := Clean.CleanReviewData(item, py.show);
    assert cleaned == Clean.CleanItem(item, py.show);
    q := p.(calls := p.calls + [InsertReview(cleaned)]);
    if reply.Stored? {
      q := RecordStored(q, item, reply, attempt, py);
    } else {
      q := RecordFailure(q, item, reply, py);
    }
  }

  /** The store stored the review: count it when the answer is non-empty, then look the
      review up by its id and tag it with the attempt. */
  method RecordStored(p: Progress, item: Item, reply: DbReply, attempt: Value, py: Py) returns (q: Progress)
    requires !Truthy(Get(item, "error")) && reply.Stored?
    ensures q == Tally(p, Classify(item, reply, py)).(calls := p.calls + AfterInsert(reply, attempt))
  {
    q := p;
    if Truthy(reply.result) {
      q := q.(successfulInserts := q.successfulInserts + 1, totalReviewsScraped := q.totalReviewsScraped + 1);
      var reviewId := ReviewId(reply.result);
      if Truthy(reviewId) {
        q := q.(calls := q.calls + [LookupReview(reviewId)]);
        if reply.listed {
          q := q.(calls := q.calls + [TagReview(reviewId, attempt)]);
        }
      }
      assert Classify(item, reply, py) == Inserted;
    } else {
      assert Classify(item, reply, py) == Dropped;
    }
  }

  /** The insert failed, or its answer could not be decoded: record a `database_error`
      or a `processing_error` for the review. No further call is made. */
  method RecordFailure(p: Progress, item: Item, reply: DbReply, py: Py) returns (q: Progress)
    requires !Truthy(Get(item, "error")) && !reply.Stored?
    ensures q == Tally(p, Classify(item, reply, py))
  {
    match reply
    case RequestFailed(detail, responseText) =>
      var text := DatabaseErrorText(detail, responseText);
      var error := ProcessedError(Str("database_error"), Str(text), Null, Get(item, "reviewId"), None);
      q := p.(errors := p.errors + [error], scrapingErrors := p.scrapingErrors + [Str(text)]);
      assert Classify(item, reply, py) == Reported(error, Str(text), None);
    case UndecodableResponse(body) =>
      var text := FailureText("Exception", InvalidResponseText(body), py.traceback);
      q := p.(errors := p.errors + [ProcessedError(Str("processing_error"), Str(text), Null, Get(item, "reviewId"), None)],
              scrapingErrors := p.scrapingErrors + [Str(text)]);
      assert Classify(item, reply, py) == ProcessingError(item, text);
  }

  /** The loop over the dataset's items, in order. */
  method ReconcileItems(items: seq<Item>, replies: seq<DbReply>, attempt: Value, placeId: Value, py: Py)
    returns (p: Progress)
    requires |replies| == |items|
    ensures p == Reconcile(items, replies, attempt, placeId, py)
    ensures |p.errors| == |p.scrapingErrors|
    ensures p.successfulInserts == p.totalReviewsScraped
    ensures p.successfulInserts + |p.errors| <= |items|
  {
    ghost var os := Outcomes(items, replies, attempt, py);
    p := Start(placeId);
    var i := 0;
    while i < |items|
      invariant 0 <= i <= |items|
      invariant p == Run(Start(placeId), os[..i])
      invariant |p.errors| == |p.scrapingErrors|
      invariant p.successfulInserts == p.totalReviewsScraped
      invariant p.successfulInserts + |p.errors| <= i
    {
      StepBalance(p, os[i]);
      p := ProcessItem(p, items[i], replies[i], attempt, py);
      assert os[..i + 1][..i] == os[..i];
      i := i + 1;
    }
    assert os[..i] == os;
  }

  /** One step keeps the two error lists in step and the two counters equal, and adds
      at most one insert or one error. */
  lemma StepBalance(p: Progress, o: Outcome)
    requires |p.errors| == |p.scrapingErrors| && p.successfulInserts == p.totalReviewsScraped
    ensures |Step(p, o).errors| == |Step(p, o).scrapingErrors|
    ensures Step(p, o).successfulInserts == Step(p, o).totalReviewsScraped
    ensures Step(p, o).successfulInserts + |Step(p, o).errors| <= p.successfulInserts + |p.errors| + 1
  {
  }

  // ---------------------------------------------------------------------------
  // What the loop computes, item by item

  function InsertedCount(os: seq<Outcome>): nat {
    if os == [] then 0 else InsertedCount(os[..|os| - 1]) + (if os[|os| - 1].verdict.Inserted? then 1 else 0)
  }

  function DroppedCount(os: seq<Outcome>): nat {
    if os == [] then 0 else DroppedCount(os[..|os| - 1]) + (if os[|os| - 1].verdict.Dropped? then 1 else 0)
  }

  /** The reported errors, in order. */
  function ReportedErrors(os: seq<Outcome>): seq<ProcessedError> {
    if os == [] then []
    else ReportedErrors(os[..|os| - 1]) + (if os[|os| - 1].verdict.Reported? then [os[|os| - 1].verdict.error] else [])
  }

  /** The `scraping_errors` entries the reported errors contribute, in order. */
  function ReportedMessages(os: seq<Outcome>): seq<Value> {
    if os == [] then []
    else ReportedMessages(os[..|os| - 1]) + (if os[|os| - 1].verdict.Reported? then [os[|os| - 1].verdict.message] else [])
  }

  lemma {:induction false} RunAccounting(os: seq<Outcome>, placeId: Value)
    ensures Run(Start(placeId), os).successfulInserts == InsertedCount(os)
    ensures Run(Start(placeId), os).totalReviewsScraped == InsertedCount(os)
    ensures Run(Start(placeId), os).errors == ReportedErrors(os)
    ensures Run(Start(placeId), os).scrapingErrors == ReportedMessages(os)
    ensures InsertedCount(os) + |ReportedErrors(os)| + DroppedCount(os) == |os|
    decreases |os|
  {
    if os != [] {
      RunAccounting(os[..|os| - 1], placeId);
    }
  }

  /** Every item is counted exactly once: as a stored review, as an error, or (when the
      store's answer is empty) as neither; stored reviews are what `successfulInserts` and
      `total_reviews_scraped` both count, and the errors appear in dataset order. */
  lemma Accounting(items: seq<Item>, replies: seq<DbReply>, attempt: Value, placeId: Value, py: Py)
    requires |replies| == |items|
    ensures var p := Reconcile(items, replies, attempt, placeId, py);
      var os := Outcomes(items, replies, attempt, py);
      p.successfulInserts == InsertedCount(os) && p.totalReviewsScraped == InsertedCount(os) &&
      p.errors == ReportedErrors(os) && p.scrapingErrors == ReportedMessages(os) &&
      InsertedCount(os) + |ReportedErrors(os)| + DroppedCount(os) == |items|
  {
    RunAccounting(Outcomes(items, replies, attempt, py), placeId);
  }

  lemma {:induction false} DroppedCounted(os: seq<Outcome>, i: int)
    requires 0 <= i < |os| && os[i].verdict.Dropped?
    ensures DroppedCount(os) > 0
    decreases |os|
  {
    if i < |os| - 1 {
      var init := os[..|os| - 1];
      assert init[i] == os[i];
      DroppedCounted(init, i);
    }
  }

  /** An untagged item whose stored answer is empty counts as neither insert nor error,
      so the batch then ends with fewer inserts and errors than items. */
  lemma EmptyAnswerShortfall(items: seq<Item>, replies: seq<DbReply>, attempt: Value, placeId: Value, py: Py, i: int)
    requires |replies| == |items| && 0 <= i < |items|
    requires !Truthy(ErrorTag(items[i])) && replies[i].Stored? && !Truthy(replies[i].result)
    ensures var p := Reconcile(items, replies, attempt, placeId, py);
      p.successfulInserts + |p.errors| < |items|
  {
    var os := Outcomes(items, replies, attempt, py);
    assert os[i].verdict == Dropped;
    DroppedCounted(os, i);
    Accounting(items, replies, attempt, placeId, py);
  }

  lemma {:induction false} NoReportsNoErrors(os: seq<Outcome>)
    ensures ReportedErrors(os) == [] <==> forall i | 0 <= i < |os| :: !os[i].verdict.Reported?
    decreases |os|
  {
    if os != [] {
      var init := os[..|os| - 1];
      NoReportsNoErrors(init);
      assert forall i | 0 <= i < |init| :: init[i] == os[i];
    }
  }

  lemma {:induction false} NoInsertsZeroCount(os: seq<Outcome>)
    ensures InsertedCount(os) == 0 <==> forall i | 0 <= i < |os| :: !os[i].verdict.Inserted?
    decreases |os|
  {
    if os != [] {
      var init := os[..|os| - 1];
      NoInsertsZeroCount(init);
      assert forall i | 0 <= i < |init| :: init[i] == os[i];
    }
  }

  /** Each reported error contributes exactly one `scraping_errors` entry. */
  lemma {:induction false} OneMessagePerError(os: seq<Outcome>)
    ensures |ReportedMessages(os)| == |ReportedErrors(os)|
    decreases |os|
  {
    if os != [] {
      OneMessagePerError(os[..|os| - 1]);
    }
  }

  /** `final_status`: `completed` with no errors; otherwise `failed` when nothing was
      stored, and `completed_with_errors` when something was. Never `in_progress`. */
  function FinalStatus(scrapingErrors: seq<Value>, totalReviewsScraped: nat): (s: Status)
    ensures s != InProgress
  {
    if scrapingErrors == [] then Completed
    else if totalReviewsScraped == 0 then Failed
    else CompletedWithErrors
  }

  /** The status follows from the items: `completed` exactly when no item was reported,
      `failed` exactly when some item was reported and none stored, and
      `completed_with_errors` exactly when both happened. */
  lemma StatusRule(items: seq<Item>, replies: seq<DbReply>, attempt: Value, placeId: Value, py: Py)
    requires |replies| == |items|
    ensures var p := Reconcile(items, replies, attempt, placeId, py);
      var s := FinalStatus(p.scrapingErrors, p.totalReviewsScraped);
      (s == Completed <==> forall i | 0 <= i < |items| :: !Classify(items[i], replies[i], py).Reported?) &&
      (s == Failed <==>
        (exists i | 0 <= i < |items| :: Classify(items[i], replies[i], py).Reported?) &&
        (forall i | 0 <= i < |items| :: !Classify(items[i], replies[i], py).Inserted?)) &&
      (s == CompletedWithErrors <==>
        (exists i | 0 <= i < |items| :: Classify(items[i], replies[i], py).Reported?) &&
        (exists i | 0 <= i < |items| :: Classify(items[i], replies[i], py).Inserted?))
  {
    var os := Outcomes(items, replies, attempt, py);
    RunAccounting(os, placeId);
    NoReportsNoErrors(os);
    NoInsertsZeroCount(os);
    OneMessagePerError(os);
  }

  // ---------------------------------------------------------------------------
  // The business the attempt is about

  predicate HasPlaceId(item: Item) {
    Truthy(Get(item, "placeId"))
  }

  /** `j` is the first item that names a place. */
  predicate FirstWithPlaceId(items: seq<Item>, j: int) {
    0 <= j < |items| && HasPlaceId(items[j]) && forall k | 0 <= k < j :: !HasPlaceId(items[k])
  }

  predicate FirstNamed(os: seq<Outcome>, j: int) {
    0 <= j < |os| && HasPlaceId(os[j].item) && forall k | 0 <= k < j :: !HasPlaceId(os[k].item)
  }

  lemma RunPlaceId(os: seq<Outcome>, placeId: Value)
    ensures Truthy(placeId) ==> Run(Start(placeId), os).businessPlaceId == placeId
    ensures !Truthy(placeId) ==> forall j | FirstNamed(os, j) :: Run(Start(placeId), os).businessPlaceId == os[j].item["placeId"]
    ensures (forall i | 0 <= i < |os| :: !HasPlaceId(os[i].item)) ==> Run(Start(placeId), os).businessPlaceId == placeId
  {
    if Truthy(placeId) || forall i | 0 <= i < |os| :: !HasPlaceId(os[i].item) {
      RunPlaceIdStays(os, placeId);
    }
    forall j | !Truthy(placeId) && FirstNamed(os, j)
      ensures Run(Start(placeId), os).businessPlaceId == os[j].item["placeId"]
    {
      RunPlaceIdFirst(os, placeId, j);
    }
  }

  /** The caller's id stays when it is truthy or no item names a place. */
  lemma {:induction false} RunPlaceIdStays(os: seq<Outcome>, placeId: Value)
    requires Truthy(placeId) || forall i | 0 <= i < |os| :: !HasPlaceId(os[i].item)
    ensures Run(Start(placeId), os).businessPlaceId == placeId
    decreases |os|
  {
    if os != [] {
      var n := |os| - 1;
      var init := os[..n];
      assert forall k | 0 <= k < n :: init[k] == os[k];
      RunPlaceIdStays(init, placeId);
      assert Run(Start(placeId), os) == Step(Run(Start(placeId), init), os[n]);
    }
  }

  /** With a falsy caller id, the first item that names a place decides. */
  lemma {:induction false} RunPlaceIdFirst(os: seq<Outcome>, placeId: Value, j: int)
    requires !Truthy(placeId) && FirstNamed(os, j)
    ensures Run(Start(placeId), os).businessPlaceId == os[j].item["placeId"]
    decreases |os|
  {
    var n := |os| - 1;
    var init := os[..n];
    assert forall k | 0 <= k < n :: init[k] == os[k];
    var before := Run(Start(placeId), init);
    assert Run(Start(placeId), os) == Step(before, os[n]);
    if j < n {
      assert FirstNamed(init, j);
      RunPlaceIdFirst(init, placeId, j);
      assert Truthy(before.businessPlaceId);
    } else {
      RunPlaceIdStays(init, placeId);
    }
  }

  /** `business_place_id`: a truthy id given by the caller is kept; otherwise the first
      item that names a place decides it; with no such item the caller's value stays. */
  lemma BusinessPlaceIdRule(items: seq<Item>, replies: seq<DbReply>, attempt: Value, placeId: Value, py: Py)
    requires |replies| == |items|
    ensures Truthy(placeId) ==> Reconcile(items, replies, attempt, placeId, py).businessPlaceId == placeId
    ensures !Truthy(placeId) ==> forall j | FirstWithPlaceId(items, j) ::
      Reconcile(items, replies, attempt, placeId, py).businessPlaceId == items[j]["placeId"]
    ensures (forall i | 0 <= i < |items| :: !HasPlaceId(items[i])) ==>
      Reconcile(items, replies, attempt, placeId, py).businessPlaceId == placeId
  {
    RunPlaceId(Outcomes(items, replies, attempt, py), placeId);
  }

  /** The outcome sets `businessInfo`. */
  predicate Carries(o: Outcome) {
    o.verdict.Reported? && o.verdict.business.Some?
  }

  lemma RunBusinessInfo(os: seq<Outcome>, placeId: Value)
    ensures Run(Start(placeId), os).businessInfo.Some? <==> exists j | 0 <= j < |os| :: Carries(os[j])
    ensures forall j | 0 <= j < |os| && Carries(os[j]) && (forall k | j < k < |os| :: !Carries(os[k])) ::
      Run(Start(placeId), os).businessInfo == os[j].verdict.business
  {
    RunBusinessInfoSome(os, placeId);
    forall j | 0 <= j < |os| && Carries(os[j]) && (forall k | j < k < |os| :: !Carries(os[k]))
      ensures Run(Start(placeId), os).businessInfo == os[j].verdict.business
    {
      RunBusinessInfoLast(os, placeId, j);
    }
  }

  lemma {:induction false} RunBusinessInfoSome(os: seq<Outcome>, placeId: Value)
    ensures Run(Start(placeId), os).businessInfo.Some? <==> exists j | 0 <= j < |os| :: Carries(os[j])
    decreases |os|
  {
    if os != [] {
      var n := |os| - 1;
      var init := os[..n];
      RunBusinessInfoSome(init, placeId);
      assert forall k | 0 <= k < n :: init[k] == os[k];
      assert Run(Start(placeId), os) == Step(Run(Start(placeId), init), os[n]);
    }
  }

  /** `os[j]` carries business info and no later outcome does. */
  predicate LastCarrying(os: seq<Outcome>, j: int) {
    0 <= j < |os| && Carries(os[j]) && forall k | j < k < |os| :: !Carries(os[k])
  }

  lemma {:induction false} RunBusinessInfoLast(os: seq<Outcome>, placeId: Value, j: int)
    requires LastCarrying(os, j)
    ensures Run(Start(placeId), os).businessInfo == os[j].verdict.business
    decreases |os|
  {
    var n := |os| - 1;
    var init := os[..n];
    assert Run(Start(placeId), os) == Step(Run(Start(placeId), init), os[n]);
    if j < n {
      assert !Carries(os[n]);
      assert LastCarrying(init, j) by {
        assert forall k | j < k < n :: init[k] == os[k];
      }
      RunBusinessInfoLast(init, placeId, j);
    }
  }

  /** `j` is the last `no_reviews` item whose categories could be joined. */
  predicate LastCarrier(items: seq<Item>, py: Py, j: int) {
    0 <= j < |items| && CarriesBusiness(items[j], py) && forall k | j < k < |items| :: !CarriesBusiness(items[k], py)
  }

  /** `businessInfo` is present exactly when some item carries it, and then it is built
      from the last such item. */
  lemma BusinessInfoRule(items: seq<Item>, replies: seq<DbReply>, attempt: Value, placeId: Value, py: Py)
    requires |replies| == |items|
    ensures Reconcile(items, replies, attempt, placeId, py).businessInfo.Some? <==>
      exists j | 0 <= j < |items| :: CarriesBusiness(items[j], py)
    ensures forall j | LastCarrier(items, py, j) ::
      Reconcile(items, replies, attempt, placeId, py).businessInfo == Some(BusinessInfoOf(items[j], Categories(items[j], py).value))
  {
    var os := Outcomes(items, replies, attempt, py);
    RunBusinessInfo(os, placeId);
    forall j | 0 <= j < |items|
      ensures Carries(os[j]) == CarriesBusiness(items[j], py)
      ensures Carries(os[j]) ==> os[j].verdict.business == Some(BusinessInfoOf(items[j], Categories(items[j], py).value))
    {
      assert os[j].verdict == Classify(items[j], replies[j], py);
    }
  }

  // ---------------------------------------------------------------------------
  // Calls to the store

  /** The number of items without an error tag. */
  function UntaggedCount(items: seq<Item>): nat {
    if items == [] then 0 else UntaggedCount(items[..|items| - 1]) + (if Truthy(ErrorTag(items[|items| - 1])) then 0 else 1)
  }

  lemma {:induction false} RunInserts(os: seq<Outcome>, placeId: Value, items: seq<Item>)
    requires |items| == |os|
    requires forall i | 0 <= i < |os| :: os[i].item == items[i] && Inserts(os[i].calls) == if Truthy(ErrorTag(items[i])) then 0 else 1
    ensures Inserts(Run(Start(placeId), os).calls) == UntaggedCount(items)
    decreases |os|
  {
    if os != [] {
      var n := |os| - 1;
      RunInserts(os[..n], placeId, items[..n]);
      InsertsAppend(Run(Start(placeId), os[..n]).calls, os[n].calls);
    }
  }

  /** One insert per untagged item and none for an error-tagged one, whatever the store
      answers. */
  lemma InsertsPerItem(items: seq<Item>, replies: seq<DbReply>, attempt: Value, placeId: Value, py: Py)
    requires |replies| == |items|
    ensures Inserts(Reconcile(items, replies, attempt, placeId, py).calls) == UntaggedCount(items)
  {
    forall i | 0 <= i < |items| {
      ItemCallsShape(items[i], replies[i], attempt, py);
    }
    RunInserts(Outcomes(items, replies, attempt, py), placeId, items);
  }

  lemma {:induction false} RunReviewCalls(os: seq<Outcome>, placeId: Value, attempt: Value)
    requires forall i | 0 <= i < |os| :: forall c | c in os[i].calls :: ReviewCall(c, attempt)
    ensures forall c | c in Run(Start(placeId), os).calls :: ReviewCall(c, attempt)
    decreases |os|
  {
    if os != [] {
      var n := |os| - 1;
      RunReviewCalls(os[..n], placeId, attempt);
    }
  }

  /** The loop only touches reviews: it never writes the attempt's metadata, and every
      review it tags is tagged with this attempt. */
  lemma ReviewCallsOnly(items: seq<Item>, replies: seq<DbReply>, attempt: Value, placeId: Value, py: Py)
    requires |replies| == |items|
    ensures forall c | c in Reconcile(items, replies, attempt, placeId, py).calls :: ReviewCall(c, attempt)
  {
    forall i | 0 <= i < |items| {
      ItemCallsShape(items[i], replies[i], attempt, py);
    }
    RunReviewCalls(Outcomes(items, replies, attempt, py), placeId, attempt);
  }

  // ---------------------------------------------------------------------------
  // The error message of the final write

  /** Only the first five messages go into `error_message`. */
  const SummaryLimit: nat := 5

  /** `scraping_errors[:5]`: the first five messages, or all of them when there are fewer. */
  function Shown(scrapingErrors: seq<Value>): (shown: seq<Value>)
    ensures |shown| == if |scrapingErrors| < SummaryLimit then |scrapingErrors| else SummaryLimit
    ensures shown == scrapingErrors[..|shown|]
  {
    scrapingErrors[..if |scrapingErrors| < SummaryLimit then |scrapingErrors| else SummaryLimit]
  }

  /** `'; '.join(scraping_errors[:5]) if scraping_errors else None`; the join raises a
      `TypeError` when one of those five is not a string. */
  function ErrorSummary(scrapingErrors: seq<Value>, py: Py): (r: Result<Option<string>, PyError>)
    ensures r == Ok(None) <==> scrapingErrors == []
    ensures scrapingErrors != [] && AllStr(Shown(scrapingErrors)) ==>
      r == Ok(Some(JoinWith(Strings(Shown(scrapingErrors)), "; ")))
    ensures scrapingErrors != [] && !AllStr(Shown(scrapingErrors)) ==>
      r == Err(NotJoinable(List(Shown(scrapingErrors))))
  {
    if scrapingErrors == [] then Ok(None)
    else
      var shown := Shown(scrapingErrors);
      match PyJoin("; ", List(shown), py)
      case Ok(text) => Ok(Some(text))
      case Err(e) => Err(e)
  }

  /** Messages after the fifth never reach the summary. */
  lemma SummaryIgnoresLater(errs: seq<Value>, more: seq<Value>, py: Py)
    requires |errs| >= SummaryLimit
    ensures ErrorSummary(errs + more, py) == ErrorSummary(errs, py)
  {
    assert (errs + more)[..SummaryLimit] == errs[..SummaryLimit];
  }

  /** With string messages, the summary is their `"; "`-join and starts with the first. */
  lemma SummaryOfStrings(errs: seq<Value>, py: Py)
    requires errs != [] && AllStr(errs)
    ensures ErrorSummary(errs, py) == Ok(Some(JoinWith(Strings(Shown(errs)), "; ")))
    ensures var text := ErrorSummary(errs, py).value.value;
      |errs[0].s| <= |text| && text[..|errs[0].s|] == errs[0].s
  {
    var shown := Shown(errs);
    assert AllStr(shown);
    JoinStartsWithFirst(Strings(shown), "; ");
  }

  /** The summary fails exactly when one of the first five messages is not a string. */
  lemma SummaryFails(errs: seq<Value>, py: Py)
    ensures ErrorSummary(errs, py).Err? <==>
      exists i | 0 <= i < |errs| && i < SummaryLimit :: !errs[i].Str?
  {
    if errs != [] {
      var shown := Shown(errs);
      assert forall i | 0 <= i < |shown| :: shown[i] == errs[i];
    }
  }
}
