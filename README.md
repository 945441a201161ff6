# Google-reviews scraping function, modelled in Dafny

The system is an HTTP function (`index.py`). One request asks for the Google reviews of
some places. The function submits a scraping job to an Apify actor and stores every
scraped review through the store's `process_google_review` procedure. It tags each
stored review with the scraping attempt and records the attempt's outcome in
`scraping_metadata`: `completed`, `completed_with_errors` or `failed`, with a short
error summary. Finally it creates a `businesses` record for the caller's user profile.
A request can instead hand the work off to an asynchronous re-invocation and answer 202
at once. A GET on `/scraping-status/<id>` returns the metadata row of an attempt.

This project models the function's decisions and bookkeeping. The Apify actor, the
dataset, the store, the runtime's JSON parser, `uuid4`, the environment variables and
the asynchronous invoke are not modelled. Their answers are inputs: a `Job`, one
`DbReply` per item, a `StatusReply`, an `Env`, a `loads` function, two uuid strings and
a `handoffOk` flag. Every call the function makes to them is recorded, in order, as a
`Call`. A response is a status code, whether the CORS headers are attached, and a
`Body`.

Modules, one file each:

- `PyValue` (`py_value.dfy`) holds the Python values the code handles. These are decoded
  JSON plus opaque objects. The module gives their truthiness, `dict.get`, `v[0]`, `in`,
  the exceptions raised and their type names. `Py` carries what the runtime contributes
  as text: `str(v)`, `str(e)`, the traceback, dict key order and `int(float)`.
- `PyText` (`py_text.dfy`) gives `str.strip`, `sep.join`, `split('/')[-1]` and `int(str)`.
- `Clean` (`clean.dfy`) models `clean_review_data`, both as a function and as the
  source's loop.
- `PlaceId` (`place_id.dfy`) models `extract_place_id`. What `\d` matches is the
  runtime's Unicode decimal-digit class (category Nd); the model takes it as a
  parameter `isDecimal`.
- `Gateway` (`gateway.dfy`) holds the calls to the actor, the store and the runtime, the
  attempt statuses and the actor's job configuration.
- `Reconciliation` (`reconcile.dfy`) models the loop over the scraped items, the final
  status and the error summary. `ReconcileItems` is the loop, proved against the fold
  `Reconcile`. The fold's properties are then proved as lemmas.
- `Scraping` (`scraping.dfy`) models `handle_synchronous_scraping` and
  `handle_async_scraping` as the functions `Scrape` and `AsyncRun`. Their only loop is the
  item loop, which is the method `ReconcileItems`.
- `Handler` (`handler.dfy`) models `lambda_handler` and `handle_status_check`. It also
  proves the worked request with one place id, a review and a `no_reviews` record.

The model follows the code in two places where the code does less than one might expect:

- **Accounting.** One would expect every scraped record to end as an insert or an error,
  so that `successfulInserts + errors == N`. But index.py:469 counts an insert only when
  its JSON answer is truthy, and an empty answer counts as neither. So the model proves
  `successfulInserts + |errors| + dropped == N`, and hence `<= N`
  (`Reconciliation.Accounting`).
- **Hand-off.** The comments at index.py:167 and index.py:202 say that the asynchronous
  re-invocation, flagged by `isAsyncExecution`, does the actual work. But the hand-off
  payload has no `body`, so the re-invoked function finds no `placeIds` and answers 400
  before it reaches the `isAsyncExecution` branch (`Handler.HandOffGoesNowhere`).

## Model

| member | source | states |
|---|---|---|
| Clean.CleanReviewData | index.py:62-80 | the loop keeps exactly the input's keys; each value is passed unchanged when JSON-encodable and replaced by `str(value)` otherwise; the result is encodable |
| Clean.CleanItem | index.py:62-80 | same key set as the input, each value cleaned by the per-type rule |
| Clean.CleanValue | index.py:67-79 | `None`, str, int, float, bool and encodable lists/dicts pass; anything else becomes `str(value)` |
| Clean.CleanedIsSerializable | index.py:446-453 | every cleaned record is encodable, so the `json.dumps` of the review payload never fails |
| Clean.CleanIdempotent | index.py:62-80 | cleaning twice equals cleaning once |
| Clean.CleanKeepsEncodable | index.py:62-80 | an encodable record is left exactly as it is |
| PlaceId.ExtractPlaceId | index.py:57-60 | for any decimal-digit class `isDecimal`: `Some` exactly when `?cid=` followed by a member of the class occurs; then the value is the greedy run of class members after the leftmost occurrence |
| PlaceId.Search | index.py:59 | the leftmost-first scan from a position finds a match iff one exists at or after it, and returns the digit run at the leftmost one; the digit class is a parameter |
| PlaceId.TakeDigits | index.py:59 | the longest prefix of members of the digit class, as greedy `\d+` consumes |
| PlaceId.ExtractedIdShape | index.py:57-60 | an extracted id is a non-empty run of the digit class and `?cid=` + id is a substring of the URL |
| PlaceId.NoMarkerNoId | index.py:57-60 | a URL without `?cid=` yields no id, whatever the digit class |
| PlaceId.NonAsciiDigits | index.py:59 | with Arabic-Indic three and four in the class (they are in Nd), `?cid=٣٤` yields `٣٤` |
| PyValue.Get | index.py:403 | `d.get(k)`: the value under `k`, or `None` when the key is absent |
| PyValue.GetOr | index.py:409 | `d.get(k, default)`: the value under `k`, or `default` when the key is absent |
| PyValue.First | index.py:141 | `v[0]` succeeds exactly on a non-empty list or string and gives its first element |
| PyValue.Contains | index.py:98 | `in` on a string is the substring test; it raises on anything but a string, list or dict |
| PyValue.Truthy | index.py:403-406 | Python truthiness; a predicate with no contract of its own; `PyValue.First` and `Reconciliation.StatusRule` state what depends on it |
| PyValue.Serializable | index.py:73 | whether `json.dumps` accepts a value; a predicate with no contract of its own; `Clean.CleanedIsSerializable` and `Clean.CleanKeepsEncodable` carry its properties |
| PyText.LastSegment | index.py:619 | `split('/')[-1]`; no contract of its own, `PyText.LastSegmentShape` carries it |
| PyText.Strip | index.py:330 | `str.strip()`: the result is a slice of the text with only whitespace before and after it, empty exactly when the text is all whitespace, and otherwise starts and ends with a non-space |
| PyText.TrimmedSurrounds | index.py:330 | removing a whitespace prefix and then a whitespace suffix leaves a slice surrounded only by whitespace, empty exactly when the text is blank |
| PyText.PyJoin | index.py:548 | `sep.join(v)`: on a list it succeeds exactly when every element is a str and gives them joined by `sep`; numbers, `None`, booleans and objects raise `TypeError` |
| PyText.PyInt | index.py:562 | `int(v)`: an int is itself; `None`, list, dict and objects raise; a str converts exactly when its stripped text is an integer literal |
| PyText.LastSegmentShape | index.py:619 | `split('/')[-1]`: a suffix of the path without `/`, preceded by `/` when shorter than the path |
| PyText.IntOfDecimalString | index.py:562 | `int()` of a decimal string gives back the number |
| Scraping.JobConfigFor | index.py:321-331 | the fixed options (`newest`, `en`, `all`, personal data), the given place ids and limit; the start date included iff it is a non-blank string; a truthy non-string start date raises `AttributeError` |
| Scraping.Abort | index.py:292-398 | each failure answer before the loop (missing token, job configuration, actor call, dataset retrieval); no contract of its own, `Scraping.TokenMissingSubmitsNothing` and `Scraping.NeverLeftInProgress` state it: a `failed` write for the attempt, then 500 |
| Scraping.Crash | index.py:586-612 | the function's outer `except`: `Type: text` is written as the failure and returned with 500; no contract of its own, `Scraping.ProfileFailureAfterFinish` and `Scraping.ConcludeStatus` state it |
| Scraping.FinishFor | index.py:537-549 | the final metadata write: place id, final status, review count and summary; no contract of its own, `Scraping.ConcludeStatus` states its status |
| Scraping.MissingKeyAnswer | index.py:281-286 | the `except` of `handle_async_scraping` for a missing key; its use is stated by `Scraping.AsyncRun` |
| Scraping.UserProfile | index.py:561-562 | `int(user_profile_id)` when one is given; no contract of its own, `Scraping.DecimalProfile` and `Scraping.BusinessCarriesProfile` state its effect |
| Scraping.Scrape | index.py:288-612 | `handle_synchronous_scraping`; no contract of its own, its properties are `Scraping.NeverLeftInProgress`, `Scraping.SuccessRule`, `Scraping.ResultsReport`, `Scraping.TokenMissingSubmitsNothing`, `Scraping.InsertsOfRun` and `Scraping.WritesTargetTheAttempt` |
| Scraping.Submitted | index.py:333-401 | the actor call, the dataset and the loop; no contract of its own, `Scraping.FetchedRun` and `Scraping.FetchedCalls` state it |
| Scraping.Conclude | index.py:537-612 | the steps after the loop; no contract of its own, `Scraping.ConcludeCalls`, `Scraping.ConcludeStatus` and `Scraping.ConcludeSuccess` state it |
| Scraping.AsyncRun | index.py:256-286 | the keys are read in the order `scrapingAttemptId`, `placeIds`, `maxReviews`, `businessPlaceId`; the first missing one answers 500 without CORS headers, `Async scraping failed` with the `KeyError` text, and no call; with all four present the result is the synchronous run on them, with `reviewsStartDate` from `.get` and no user profile |
| Scraping.NeverLeftInProgress | index.py:288-612 | every run ends with a metadata write whose status is not `in_progress`: `failed` on every non-200 answer, the batch's final status on 200 |
| Scraping.TokenMissingSubmitsNothing | index.py:292-316 | with no token (absent or empty) the only call is the `failed` write and the answer is 500 with the token message |
| Scraping.SuccessRule | index.py:288-612 | the answer is 200 or 500; 200 exactly when the job is submitted and fetched, the summary joins and the profile converts |
| Scraping.ResultsReport | index.py:361-584 | a 200 reports every item (inserts + errors + dropped = total), the errors in dataset order, and creates the business last |
| Scraping.ProfileFailureAfterFinish | index.py:537-612 | a non-numeric profile id fails after the final status was written: the status is overwritten with `failed` and no business is created |
| Scraping.WritesTargetTheAttempt | index.py:288-612 | every metadata write and every review tag is about the request's attempt |
| Scraping.BusinessCarriesProfile | index.py:556-577 | the business record carries `int(user_profile_id)` |
| Scraping.InsertsOfRun | index.py:401-514 | one insert per untagged item when the job delivered; none otherwise |
| Scraping.DecimalProfile | index.py:562 | a decimal profile id reaches the business record as that number |
| Scraping.AsyncCodes | index.py:256-286 | the asynchronous continuation answers 200 or 500 |
| Scraping.AsyncHasNoProfile | index.py:275-278 | the asynchronous continuation creates businesses without a profile |
| Scraping.ConcludeCalls | index.py:537-577 | after the loop only metadata writes for the attempt and the business record are appended |
| Scraping.ConcludeStatus | index.py:537-612 | after the loop the last status written is the final status on 200 and `failed` on 500 |
| Scraping.ConcludeSuccess | index.py:537-584 | when the summary and the profile convert: 200 with the loop's results, after the final write and the business record |
| Scraping.FetchedRun | index.py:319-401 | a delivered job leads to the post-loop steps after the actor call and the loop's calls |
| Scraping.ConcludeInsertsNothing | index.py:537-577 | the steps after the loop insert no review |
| Scraping.FetchedCalls | index.py:319-577 | a delivered job's calls are the actor call, review calls, the attempt's metadata writes and the business record |
| Reconciliation.ReconcileItems | index.py:401-534 | the loop equals the fold `Reconcile`; `errors` and `scraping_errors` stay the same length; `successfulInserts == total_reviews_scraped`; inserts plus errors never exceed the items |
| Reconciliation.ProcessItem | index.py:402-534 | one pass of the loop's body is one step of the fold |
| Reconciliation.ProcessTagged | index.py:406-444 | an error-tagged item's verdict is tallied into the loop's variables; it makes no call |
| Reconciliation.ProcessReview | index.py:446-460 | a review is cleaned and inserted, then the store's answer is tallied; the calls are exactly the item's calls |
| Reconciliation.RecordStored | index.py:469-497 | a stored answer is tallied (an insert when non-empty, a drop otherwise) and followed by the lookup and tag calls of `AfterInsert` |
| Reconciliation.RecordFailure | index.py:462-534 | a failed request or an undecodable answer is tallied as its error verdict, with no further call |
| Reconciliation.SnapshotOf | index.py:413-418 | the four-field `business_info` snapshot; its presence is stated by `Reconciliation.Classify` |
| Reconciliation.BusinessInfoOf | index.py:419-441 | the `ProcessedBusinessInfo` record built from the item; when it is taken is stated by `Reconciliation.Classify` and `Reconciliation.BusinessInfoRule` |
| Reconciliation.Categories | index.py:423 | `','.join(item.get('categories', []))`; `PyText.PyJoin` states when it succeeds |
| Reconciliation.ProcessingError | index.py:517-534 | the `processing_error` record of the item's `except`, with the item's `reviewId` and no place id; `Reconciliation.Classify` states it for the join failure |
| Reconciliation.DatabaseErrorText | index.py:501-507 | `Database error: <text>`, then ` Response: <body>` when the error carries a response; `Reconciliation.Classify` states that a failed insert request reports exactly this text as both the error's description and its message |
| Reconciliation.InvalidResponseText | index.py:464-467 | the message for an undecodable insert answer, with the body cut to 500 characters |
| Reconciliation.Classify | index.py:406-534 | a truthy tag yields exactly one error; it has type = tag, description = `errorDescription` or the tag, and the place id, except for a `no_reviews` item whose `categories` cannot be comma-joined, where the join's exception becomes a `processing_error` with the item's `reviewId` and no place id; only a joinable `no_reviews` item attaches the 4-field snapshot and the business info; an untagged item is inserted iff the store answers non-empty; a non-empty stored answer counts as an insert and an empty one (index.py:469) is dropped, neither insert nor error; a failed insert request is a `database_error` whose description and message are `DatabaseErrorText` of the failure and whose place id is null; an answer that is not JSON becomes the `processing_error` of the item's `except` with the `Invalid JSON response` text |
| Reconciliation.ReviewId | index.py:474-479 | the id of a stored review, from the first row of a list or from an object; it is `None` or truthy |
| Reconciliation.AfterInsert | index.py:474-497 | the calls after an insert; no contract of its own, `Reconciliation.ItemCallsContent` states them |
| Reconciliation.ItemCalls | index.py:406-514 | one item's store calls; no contract of its own, `Reconciliation.ItemCallsShape`, `Reconciliation.ItemCallsContent` and `Reconciliation.InsertsPerItem` state them |
| Reconciliation.ItemCallsContent | index.py:446-497 | for an untagged item the first call inserts the cleaned item; the review is looked up by `id` exactly when the store answered non-empty with that truthy `id`, and tagged with this attempt exactly when, in addition, the lookup listed it |
| Reconciliation.Tally | index.py:406-534 | one verdict recorded in the counters; no contract of its own, `Reconciliation.StepBalance` and `Reconciliation.Accounting` state its effect |
| Reconciliation.NextPlaceId | index.py:403-404 | `business_place_id` takes the item's truthy `placeId` while it is still falsy; `Reconciliation.BusinessPlaceIdRule` states the result over a whole run |
| Reconciliation.Step | index.py:402-534 | one iteration of the loop; no contract of its own, `Reconciliation.ProcessItem` is proved against it and `Reconciliation.StepBalance` states what it keeps |
| Reconciliation.Run | index.py:401-534 | the fold of `Step`; no contract of its own, `Reconciliation.RunAccounting`, `Reconciliation.RunPlaceId`, `Reconciliation.RunBusinessInfo`, `Reconciliation.RunInserts` and `Reconciliation.RunReviewCalls` state it |
| Reconciliation.Reconcile | index.py:361-534 | the loop's variables after every item; no contract of its own, `Reconciliation.ReconcileItems` is proved against it and `Reconciliation.Accounting`, `Reconciliation.StatusRule`, `Reconciliation.BusinessPlaceIdRule` and `Reconciliation.BusinessInfoRule` state it |
| Reconciliation.StepBalance | index.py:402-534 | one step keeps the two error lists equally long and the two counters equal, and adds at most one insert or error |
| Reconciliation.FailureText | index.py:517-524 | `Type: text` for an exception with a message |
| Reconciliation.Outcomes | index.py:401 | one outcome per item, in order; a failure on one item does not affect the others |
| Reconciliation.ItemCallsShape | index.py:406-514 | an untagged item is inserted exactly once, a tagged one never; every call is on the `reviews` resource and tags only this attempt |
| Reconciliation.Accounting | index.py:361-534 | every item counted exactly once as insert, error or drop; `successfulInserts` and `total_reviews_scraped` both count the inserts; errors in dataset order |
| Reconciliation.RunAccounting | index.py:401-534 | the same, for any sequence of outcomes |
| Reconciliation.DroppedCounted | index.py:469 | a dropped outcome makes the drop count positive |
| Reconciliation.EmptyAnswerShortfall | index.py:469 | one untagged item whose insert answer is empty leaves inserts plus errors short of the number of items |
| Reconciliation.OneMessagePerError | index.py:401-534 | each error contributes exactly one `scraping_errors` entry |
| Reconciliation.NoReportsNoErrors | index.py:401-534 | no errors exactly when no item was reported |
| Reconciliation.NoInsertsZeroCount | index.py:469-471 | zero inserts exactly when no item was inserted |
| Reconciliation.FinalStatus | index.py:537 | the final status is never `in_progress` |
| Reconciliation.StatusRule | index.py:537 | `completed` iff no item reported an error (so also for zero items); `failed` iff some error and no insert; `completed_with_errors` iff both |
| Reconciliation.BusinessPlaceIdRule | index.py:401-404 | a truthy caller id is kept; otherwise the first item with a truthy `placeId` decides; with none, the caller's value stays |
| Reconciliation.RunPlaceId | index.py:403-404 | the same, for any sequence of outcomes |
| Reconciliation.BusinessInfoRule | index.py:413-441 | `businessInfo` is present iff some `no_reviews` item's categories join, and is built from the last such item |
| Reconciliation.RunBusinessInfo | index.py:418-441 | the last outcome carrying business info decides it |
| Reconciliation.InsertsPerItem | index.py:401-514 | one insert per untagged item, whatever the store answers to earlier items |
| Reconciliation.RunInserts | index.py:401-514 | the insert count is the sum over outcomes |
| Reconciliation.ReviewCallsOnly | index.py:446-514 | the loop only calls the `reviews` resource and tags reviews with this attempt |
| Reconciliation.RunReviewCalls | index.py:401-514 | the same, for any sequence of outcomes |
| Reconciliation.ErrorSummary | index.py:548 | `None` exactly when there are no errors; otherwise the `"; "`-join of the first five messages when they are all strings, and the join's `TypeError` on that list when one is not |
| Reconciliation.Shown | index.py:548 | the first five messages, or all of them when there are fewer |
| Reconciliation.SummaryIgnoresLater | index.py:548 | only the first five messages matter |
| Reconciliation.SummaryOfStrings | index.py:548 | string messages give the `"; "`-join of the first five as summary, which starts with the first message |
| Reconciliation.SummaryFails | index.py:548 | the join raises exactly when one of the first five messages is not a string |
| Gateway.Inserts | index.py:455-460 | the number of review inserts among the calls, zero exactly when none of the calls is an insert |
| Gateway.InsertsAppend | index.py:455-460 | insert counts add up over concatenation |
| Handler.Handle | index.py:89-254 | `lambda_handler`; no contract of its own, its properties are `Handler.Preflight`, `Handler.StatusRouting`, `Handler.BodyParsing` and `Handler.ValidationOrder` |
| Handler.Internal | index.py:212-254 | the outer `except`; no contract of its own, `Handler.InternalErrorWrites` states it |
| Handler.HandleBody | index.py:104-115 | parsing the body; no contract of its own, `Handler.BodyParsing` states it |
| Handler.Validated | index.py:115-210 | validation and the choice between hand-off and synchronous run; no contract of its own, `Handler.ValidationOrder`, `Handler.ValidatedCodes`, `Handler.HandOff`, `Handler.SynchronousRun` and `Handler.StoreRequired` state it |
| Handler.StatusCheck | index.py:614-664 | `handle_status_check`; no contract of its own, `Handler.StatusCodes`, `Handler.StatusAnswers` and `Handler.StatusQueriesLastSegment` state it |
| Handler.StatusAnswer | index.py:640-664 | the answer to a made status query; no contract of its own, `Handler.QueryAnswers` states it |
| Handler.AttemptFor | index.py:136-140 | the attempt id: `scraping_metadata_id` when truthy, else a fresh uuid; `Handler.SynchronousRun` and `Handler.GeneratedAttempt` state it |
| Handler.HandOffPayload | index.py:168-175 | the event sent to the re-invocation; `Handler.HandOff` and `Handler.HandOffGoesNowhere` state its content and its fate |
| Handler.Preflight | index.py:90-95 | OPTIONS is answered 200 with no call, whatever else the event holds |
| Handler.StatusRouting | index.py:97-99 | a GET whose path contains `/scraping-status/` is a status check; a path without `in` makes the handler raise; otherwise the body is processed |
| Handler.BodyParsing | index.py:104-115 | invalid JSON text answers 400 with the decoder's message and no call; a non-text or non-object body reaches the outer `except`; an object is validated |
| Handler.ValidationOrder | index.py:115-134 | missing/empty `placeIds` answers 400 first, then a falsy `user_profile_id`; a 400 makes no call |
| Handler.ValidatedCodes | index.py:136-210 | past validation the answer is 200, 202 or 500; 202 exactly when the hand-off is made |
| Handler.HandOff | index.py:162-196 | a 202 makes exactly the re-invocation, carrying the attempt id it returns, the place ids, limit and start date and their first place id |
| Handler.HandOffRefused | index.py:104-127 | an event with no body and no method is refused 400 for want of place ids |
| Handler.HandOffGoesNowhere | index.py:104-175 | the handed-off payload is itself refused 400 with no call |
| Handler.SynchronousRun | index.py:136-210 | the attempt is `scraping_metadata_id` when truthy, else the generated uuid; the business id is `placeIds[0]`; the profile is passed on |
| Handler.StoreRequired | index.py:143-152 | without both store variables a valid request answers 500 with no call |
| Handler.NoFirstPlaceId | index.py:141-254 | a truthy `placeIds` without a first element (a dict, number or object) reaches the outer `except` |
| Handler.GeneratedAttempt | index.py:136-139 | the generated uuid is used when no metadata id is given |
| Handler.InternalErrorWrites | index.py:212-254 | the outer `except` answers 500 and marks the attempt failed only when the store is configured |
| Handler.QueryAnswers | index.py:640-664 | a made query answers 200, 404 or 500; 404 exactly when the store returned no rows; 200 with row 0 for a non-empty list |
| Handler.StatusCodes | index.py:614-664 | the status check answers 200, 404 or 500 |
| Handler.StatusAnswers | index.py:640-657 | 404 exactly when the store returned no rows; 200 with row 0 for a non-empty list |
| Handler.StatusQueriesLastSegment | index.py:618-638 | at most one query, made only with a string path and the store configured, for the path's last `/`-segment |
| Handler.ExampleVerdicts | index.py:406-471 | in the worked request, the review is inserted and the `no_reviews` record is reported with business info |
| Handler.ExampleBatch | index.py:401-534 | the worked batch: one insert, one error, business info set, place id `P1` |
| Handler.ExampleRouting | index.py:89-115 | the worked request is routed past the preflight and status checks, and its body is parsed and validated |
| Handler.ExampleValidated | index.py:115-210 | the worked body passes validation and reaches the synchronous run under the generated uuid, with `P1` as the business id and profile `"7"` |
| Handler.ExampleConclude | index.py:537-584 | the worked batch answers 200, ends `completed_with_errors` and creates the business for profile 7 |
| Handler.ExampleRequest | index.py:89-612 | the whole worked request: 200, 1 insert, 1 error, business info, `completed_with_errors`, business for profile 7 |

## Left out

- `application.py` (Flask routes, a daemon thread, `subprocess.Popen`) is not part of this model. It is process plumbing.
- HTTP, `raise_for_status`, timeouts, the Apify client and `boto3` are not modelled. Each outcome is an input: the job, the per-item store reply, the status reply, and whether the hand-off invoke succeeded.
- A failed hand-off invoke is not recorded as a call. Only its effect is modelled: the request falls back to running synchronously.
- A failing metadata write, review lookup, review tag or business creation is not modelled. The source logs these and carries on, so they never change the answer. The model records the write as attempted.
- The model assumes `requests` 2.27 or later, where `Response.json()` raises `requests.exceptions.JSONDecodeError`, a `RequestException`, and that `simplejson` is not installed. With `simplejson` present, that error derives from simplejson's decode error instead of `json.JSONDecodeError`. A non-JSON insert answer then escapes the handler at index.py:466 and is recorded by the `RequestException` handler at index.py:501 as a `database_error`, where the model records a `processing_error`. With an older `requests`, a lookup reply that is not JSON (index.py:489) raises a plain `ValueError`. That error passes the `RequestException` handlers and reaches the item's `except` at index.py:517, after the insert was counted. The item is then both an insert and a `processing_error`, and `successfulInserts + |errors| <= N` no longer holds. The model does not cover that case.
- JSON text is not modelled: neither the parsing of the request body (the `loads` input) nor the serialisation of responses. The model also leaves out `safe_json_dumps`'s `default=str`, CORS header contents and `print` logging.
- Float arithmetic is not modelled. Floats are opaque apart from zero, infinity and NaN.
- Dict insertion order is an input (`Py.keyOrder`). It only matters for `','.join` of a dict-valued `categories`.
- Traceback text is an input (`Py.traceback`). So is the text of every exception message (`Py.message`).
- Reconciliation.FailureText: the "Unknown error" rule (index.py:519-523) is modelled as written. The traceback it then shows is opaque.
- PyText.PyInt: `int()` on strings accepts ASCII digits with an optional sign and surrounding whitespace. It does not accept Unicode digits or `_` separators.
- PyText.IntOfDecimalString: the round trip is stated for non-negative numbers only.
- PyValue.Serializable: cyclic containers cannot be expressed. Non-finite floats are treated as encodable, as `json.dumps` does by default.
- `bytes` request bodies are outside the value model.
- Dataset items that are not dicts are not modelled: every item of a fetched job is an `Item`. A non-dict item would make `item.get` raise at index.py:403. The item handler would then raise again at index.py:526, and the run would end in the outer 500 at index.py:586. The model does not cover that case.
- The `Supabase configuration missing` branch of `handle_async_scraping` cannot be reached (index.py:266-272). Neither can the "details missing" branches of `handle_synchronous_scraping`. The handler checks the store configuration before calling either function, so the model leaves these branches out.
