/** The business (KYB) verification records shared by the status route, the store and the
    components: the review result, the route's status response and the stored status. */
module KybTypes {
  import opened Wrappers

  /** The review result as the application keeps it; every field may be missing. */
  datatype ReviewResult = ReviewResult(reviewAnswer: Option<string>, rejectLabels: Option<seq<string>>,
                                       reviewRejectType: Option<string>)

  /** The body of a successful status lookup. */
  datatype StatusResponse = StatusResponse(verified: bool, reviewStatus: Option<string>, reviewResult: Option<ReviewResult>)

  /** What a failed lookup stands for: not verified, with no review. */
  const Unknown := StatusResponse(false, None, None)

  /** `BusinessVerificationStatus`. */
  datatype VerificationStatus = Idle | Pending | Verified | Rejected

  const Completed := "completed"
  const Green := "GREEN"
  const Red := "RED"

  predicate AnswerIs(r: Option<ReviewResult>, answer: string)
  {
    r.Some? && r.value.reviewAnswer == Some(answer)
  }
}
