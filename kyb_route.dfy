/** The business verification route: looks the company applicant up at Sumsub through the
    shared, signed request config and reports whether the review approved it. */
module KybRoute {
  import opened Wrappers
  import opened Text
  import opened Sumsub
  import opened KybTypes

  const UserIdRequired := "userId is required"

  /** The review result as Sumsub sends it, with the fields the route drops. */
  datatype SumsubReviewResult = SumsubReviewResult(reviewAnswer: Option<string>, rejectLabels: Option<seq<string>>,
                                                   reviewRejectType: Option<string>, others: seq<(string, string)>)

  datatype Review = Review(reviewStatus: Option<string>, reviewResult: Option<SumsubReviewResult>)

  /** The applicant record; only `review` is read. */
  datatype ApplicantData = ApplicantData(review: Option<Review>)

  datatype RouteResponse = BadRequest(error: string) | Answered(body: StatusResponse)

  /** The projection of the review result onto its answer, labels and reject type. */
  function Project(r: SumsubReviewResult): ReviewResult
  {
    ReviewResult(r.reviewAnswer, r.rejectLabels, r.reviewRejectType)
  }

  /** The response body for a lookup outcome. */
  function StatusOf(lookup: Async<ApplicantData>): (r: StatusResponse)
    ensures r.verified <==> lookup.Done? && lookup.value.review.Some? &&
                            lookup.value.review.value.reviewStatus == Some(Completed) &&
                            lookup.value.review.value.reviewResult.Some? &&
                            lookup.value.review.value.reviewResult.value.reviewAnswer == Some(Green)
    ensures lookup.Threw? ==> r == Unknown
    ensures r.reviewResult.Some? <==> lookup.Done? && lookup.value.review.Some? && lookup.value.review.value.reviewResult.Some?
    ensures r.reviewResult.Some? ==>
      var raw := lookup.value.review.value.reviewResult.value;
      r.reviewResult.value.reviewAnswer == raw.reviewAnswer && r.reviewResult.value.rejectLabels == raw.rejectLabels &&
      r.reviewResult.value.reviewRejectType == raw.reviewRejectType
  {
    match lookup
    case Threw(_) => Unknown
    case Done(data) =>
      var reviewStatus := if data.review.Some? then data.review.value.reviewStatus else None;
      var reviewResult := if data.review.Some? then data.review.value.reviewResult else None;
      var verified := reviewStatus == Some(Completed) && reviewResult.Some? && reviewResult.value.reviewAnswer == Some(Green);
      StatusResponse(verified, reviewStatus, if reviewResult.Some? then Some(Project(reviewResult.value)) else None)
  }

  /** A verified applicant has a completed review approved with GREEN; the response keeps
      the review's status and answer, so a client can tell a completed RED review from one
      still in progress. */
  lemma StatusOfOutcome(lookup: Async<ApplicantData>)
    ensures var r := StatusOf(lookup);
      (r.verified ==> r.reviewStatus == Some(Completed) && AnswerIs(r.reviewResult, Green)) &&
      (r.reviewStatus == Some(Completed) && AnswerIs(r.reviewResult, Green) ==> r.verified) &&
      (AnswerIs(r.reviewResult, Red) ==> !r.verified)
  {
  }

  /** `GET`: without a non-empty `userId` the answer is 400 and nothing is requested;
      otherwise the shared config is filled for the company lookup and signed by the
      request interceptor before the call, whose outcome is `lookup`. */
  method Get(config: Config, userId: Option<string>, ts: nat, hmacHex: string -> string, stringify: Value -> string,
             lookup: Async<ApplicantData>)
    returns (response: RouteResponse, requested: bool)
    modifies config
    ensures !Truthy(userId) ==> response == BadRequest(UserIdRequired) && !requested && unchanged(config)
    ensures Truthy(userId) ==>
      requested && response == Answered(StatusOf(lookup)) &&
      config.httpMethod == "get" && config.data.None? &&
      config.url == "/resources/applicants/-;type=company&externalUserId=" + userId.value + "/one" &&
      config.headers == ReadHeaders(config.appToken)[TsHeader := NatToString(ts)]
                          [SigHeader := hmacHex(SignedMessage(ts, "get", config.url, None, stringify))]
  {
    if !Truthy(userId) {
      return BadRequest(UserIdRequired), false;
    }
    var c := config.GetCompanyApplicantData(userId.value);
    c := c.CreateSignature(ts, hmacHex, stringify);
    response := Answered(StatusOf(lookup));
    requested := true;
  }
}
