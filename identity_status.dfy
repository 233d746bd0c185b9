/** The business identity card: the status lookup run when the card mounts, and the view
    chosen from its result. */
module IdentityStatus {
  import opened Wrappers
  import opened KybTypes

  /** The views of the card; `PendingView` carries its badge text and `RejectedView` the
      reason line, when one is shown. */
  datatype View = Loading | VerifiedView | RejectedView(reason: Option<string>) | PendingView(badge: string) | NonVerified

  const UnderReview := "Under Review"
  const InProgress := "In Progress"

  /** `labels.join(', ')`. */
  function Join(labels: seq<string>): (r: string)
    ensures |labels| == 1 ==> r == labels[0]
  {
    if |labels| == 0 then ""
    else if |labels| == 1 then labels[0]
    else Join(labels[..|labels| - 1]) + ", " + labels[|labels| - 1]
  }

  /** The reason line, shown only for a non-empty list of labels. */
  function Reason(rejectLabels: Option<seq<string>>): (r: Option<string>)
    ensures r.Some? <==> rejectLabels.Some? && |rejectLabels.value| > 0
    ensures r.Some? ==> r.value == "Reason: " + Join(rejectLabels.value)
  {
    if rejectLabels.Some? && |rejectLabels.value| > 0 then Some("Reason: " + Join(rejectLabels.value)) else None
  }

  predicate InReview(reviewStatus: Option<string>)
  {
    reviewStatus == Some("pending") || reviewStatus == Some("queued") || reviewStatus == Some("onHold")
  }

  /** The view for the loading flag and the status record. */
  function ViewOf(loading: bool, status: Option<StatusResponse>): (v: View)
    ensures loading ==> v == Loading
    ensures !loading && status.Some? && status.value.verified ==> v == VerifiedView
    ensures v.RejectedView? <==> !loading && status.Some? && !status.value.verified && AnswerIs(status.value.reviewResult, Red)
    ensures v.RejectedView? ==> v.reason == Reason(status.value.reviewResult.value.rejectLabels)
    ensures v.PendingView? <==>
      !loading && status.Some? && !status.value.verified && !AnswerIs(status.value.reviewResult, Red) &&
      InReview(status.value.reviewStatus)
    ensures v.PendingView? ==> (v.badge == UnderReview <==> status.value.reviewStatus == Some("pending"))
    ensures v == NonVerified <==>
      !loading && (status.None? ||
        (!status.value.verified && !AnswerIs(status.value.reviewResult, Red) && !InReview(status.value.reviewStatus)))
  {
    if loading then Loading
    else if status.None? then NonVerified
    else if status.value.verified then VerifiedView
    else if AnswerIs(status.value.reviewResult, Red) then RejectedView(Reason(status.value.reviewResult.value.rejectLabels))
    else if InReview(status.value.reviewStatus) then
      PendingView(if status.value.reviewStatus == Some("pending") then UnderReview else InProgress)
    else NonVerified
  }

  class BusinessIdentityStatus {
    var status: Option<StatusResponse>
    var loading: bool

    constructor()
      ensures status.None? && loading
    {
      status := None;
      loading := true;
    }

    /** The effect, once the lookup has settled: a failed lookup counts as not verified. */
    method Settle(lookup: Async<StatusResponse>)
      modifies this
      ensures !loading
      ensures status == Some(if lookup.Done? then lookup.value else Unknown)
    {
      match lookup {
        case Done(response) =>
          status := Some(response);
        case Threw(_) =>
          status := Some(Unknown);
      }
      loading := false;
    }

    function Render(): View
      reads this
    {
      ViewOf(loading, status)
    }
  }

  /** A failed lookup shows the card of a business not yet verified. */
  lemma FailedLookupShowsNonVerified()
    ensures ViewOf(false, Some(Unknown)) == NonVerified
  {
  }

  /** A verified response shows Verified even when its review answer is RED. */
  lemma VerifiedWinsOverRed(s: StatusResponse)
    requires s.verified && AnswerIs(s.reviewResult, Red)
    ensures ViewOf(false, Some(s)) == VerifiedView
  {
  }
}
