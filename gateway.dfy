/** The calls the handler makes to its collaborators: the scraping actor, the review,
    business and scraping-metadata resources of the store, and the function runtime.
    The model records each call it attempts, in order; what a call returns is an input. */
module Gateway {
  import opened PyValue

  /** `scraping_status` of a scraping attempt. */
  datatype Status = InProgress | Completed | CompletedWithErrors | Failed

  /** The scraping actor that is called. */
  const ActorId: string := "Xb8osYTtOjlsgI6k9"

  /** `run_input` for the actor. `reviewsStartDate` is `None` when the key is left out. */
  datatype JobConfig = JobConfig(
    placeIds: Value,
    maxReviews: Value,
    reviewsSort: string,
    language: string,
    reviewsOrigin: string,
    personalData: bool,
    reviewsStartDate: Option<Value>)

  /** The body of a PATCH on `scraping_metadata?id=eq.<attempt>`. */
  datatype MetadataUpdate =
    | MarkFailed(failure: string)
    | Finish(businessPlaceId: Value, status: Status, totalReviewsScraped: nat, errorMessage: Option<string>)

  datatype Call =
    | InvokeSelf(payload: Item)                     // asynchronous re-invocation of the function
    | SubmitJob(actor: string, config: JobConfig)   // actor call, then dataset retrieval
    | InsertReview(reviewData: Item)                // POST rpc/process_google_review
    | LookupReview(reviewId: Value)                 // GET reviews?id=eq.<id>
    | TagReview(reviewId: Value, attempt: Value)    // PATCH reviews?id=eq.<id> {scraping_attempt}
    | UpdateMetadata(attempt: Value, update: MetadataUpdate)
    | CreateBusiness(placeId: Value, userProfile: Option<int>)
    | QueryMetadata(attemptId: string)               // GET scraping_metadata?id=eq.<attempt>

  /** The number of review inserts among `calls`. */
  function Inserts(calls: seq<Call>): (n: nat)
    ensures n <= |calls|
    ensures n == 0 <==> forall c | c in calls :: !c.InsertReview?
  {
    if calls == [] then 0
    else Inserts(calls[..|calls| - 1]) + (if calls[|calls| - 1].InsertReview? then 1 else 0)
  }

  /** Calls none of which is an insert count no insert. */
  lemma {:induction false} NoInserts(calls: seq<Call>)
    requires forall c | c in calls :: !c.InsertReview?
    ensures Inserts(calls) == 0
    decreases |calls|
  {
    if calls != [] {
      var init := calls[..|calls| - 1];
      assert forall c | c in init :: c in calls;
      NoInserts(init);
    }
  }

  lemma {:induction false} InsertsAppend(a: seq<Call>, b: seq<Call>)
    ensures Inserts(a + b) == Inserts(a) + Inserts(b)
    decreases |b|
  {
    if b != [] {
      var b' := b[..|b| - 1];
      assert (a + b)[..|a + b| - 1] == a + b';
      InsertsAppend(a, b');
    } else {
      assert a + b == a;
    }
  }
}
