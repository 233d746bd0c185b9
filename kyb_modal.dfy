/** The business verification modal: fetches an SDK access token while open, reacts to the
    verification SDK's events by updating the shared store, and refreshes the status from
    the status route. */
module KybModal {
  import opened Wrappers
  import opened KybTypes
  import opened KybStore

  const TokenFailed := "Failed to get access token"
  const StatusChanged := "idCheck.onApplicantStatusChanged"
  const Submitted := "idCheck.onApplicantSubmitted"
  const Resubmitted := "idCheck.onApplicantResubmitted"

  /** The access-token response: whether it was ok, and its `error` and `token`. */
  datatype TokenResponse = TokenResponse(ok: bool, error: Option<string>, token: Option<string>)

  /** An SDK event's payload, when there is one. */
  datatype Payload = Payload(reviewStatus: Option<string>, reviewResult: Option<ReviewResult>)

  /** What the modal's body shows. */
  datatype Body = ErrorMessage(message: string) | Spinner | Sdk(accessToken: string)

  /** The message of a failed token request: the response's `error`, or the fallback. */
  function TokenError(response: TokenResponse): (r: string)
    ensures Truthy(response.error) ==> r == response.error.value
    ensures !Truthy(response.error) ==> r == TokenFailed
  {
    if Truthy(response.error) then response.error.value else TokenFailed
  }

  class VerificationModal {
    const store: BusinessVerificationStore
    var accessToken: Option<string>
    var error: Option<string>

    constructor(store: BusinessVerificationStore)
      ensures this.store == store && accessToken.None? && error.None?
    {
      this.store := store;
      accessToken := None;
      error := None;
    }

    /** The token effect, run when the modal opens or closes: closed, it clears the token
        and the error; open, it stores the token of an ok response and an error message
        otherwise. `fetched` is the outcome of the request and its JSON body. */
    method SyncToken(fetched: Async<TokenResponse>)
      modifies this
      ensures !store.isModalOpen ==> accessToken.None? && error.None?
      ensures store.isModalOpen && fetched.Threw? ==>
        error == Some(fetched.message) && accessToken == old(accessToken)
      ensures store.isModalOpen && fetched.Done? && !fetched.value.ok ==>
        error == Some(TokenError(fetched.value)) && accessToken == old(accessToken)
      ensures store.isModalOpen && fetched.Done? && fetched.value.ok ==>
        accessToken == fetched.value.token && error == old(error)
    {
      if !store.isModalOpen {
        accessToken := None;
        error := None;
        return;
      }
      match fetched {
        case Threw(message) =>
          error := Some(message);
        case Done(response) =>
          if !response.ok {
            error := Some(TokenError(response));
          } else {
            accessToken := response.token;
          }
      }
    }

    /** The "Try Again" button. */
    method TryAgain()
      modifies this
      ensures accessToken.None? && error.None?
    {
      error := None;
      accessToken := None;
    }

    /** `refreshStatus`, once the lookup has settled: verified or back to idle, and loading
        cleared even when the lookup fails. */
    method RefreshStatus(lookup: Async<StatusResponse>)
      modifies store
      ensures !store.isLoading
      ensures lookup.Threw? ==> store.status == old(store.status)
      ensures lookup.Done? ==> store.status == (if lookup.value.verified then Verified else Idle)
      ensures store.reviewResult == old(store.reviewResult) && store.isModalOpen == old(store.isModalOpen)
    {
      store.SetIsLoading(true);
      if lookup.Done? {
        if lookup.value.verified {
          store.SetStatus(Verified);
        } else {
          store.SetStatus(Idle);
        }
      }
      store.SetIsLoading(false);
    }

    /** `handleMessage`. `refresh` says whether a status refresh is scheduled. */
    method HandleMessage(eventType: string, payload: Option<Payload>) returns (refresh: bool)
      modifies store
      ensures store.isLoading == old(store.isLoading)
      ensures refresh <==> eventType == Submitted || eventType == Resubmitted
      ensures refresh ==> store.status == Pending && store.reviewResult == old(store.reviewResult) &&
                          store.isModalOpen == old(store.isModalOpen)
      ensures eventType == StatusChanged ==>
        StatusTransition(payload, old(store.status), old(store.reviewResult), old(store.isModalOpen)) ==
        (store.status, store.reviewResult, store.isModalOpen)
      ensures eventType != StatusChanged && !refresh ==>
        store.status == old(store.status) && store.reviewResult == old(store.reviewResult) &&
        store.isModalOpen == old(store.isModalOpen)
    {
      refresh := false;
      if eventType == StatusChanged {
        if payload.Some? && payload.value.reviewStatus == Some(Completed) {
          if AnswerIs(payload.value.reviewResult, Green) {
            store.SetStatus(Verified);
            store.CloseModal();
          } else if AnswerIs(payload.value.reviewResult, Red) {
            store.SetStatus(Rejected);
            store.SetReviewResult(payload.value.reviewResult);
          }
        } else if payload.Some? && (payload.value.reviewStatus == Some("pending") || payload.value.reviewStatus == Some("queued")) {
          store.SetStatus(Pending);
        }
      } else if eventType == Submitted || eventType == Resubmitted {
        store.SetStatus(Pending);
        refresh := true;
      }
    }

    /** The modal's body. */
    function Render(): (b: Body)
      reads this
      ensures b.ErrorMessage? <==> Truthy(error)
      ensures b.Sdk? ==> Some(b.accessToken) == accessToken
    {
      if Truthy(error) then ErrorMessage(error.value)
      else if !Truthy(accessToken) then Spinner
      else Sdk(accessToken.value)
    }
  }

  /** The status change an `onApplicantStatusChanged` event makes: the new status, review
      result and modal flag. */
  function StatusTransition(payload: Option<Payload>, status: VerificationStatus, reviewResult: Option<ReviewResult>,
                            isModalOpen: bool): (VerificationStatus, Option<ReviewResult>, bool)
  {
    if payload.Some? && payload.value.reviewStatus == Some(Completed) then
      if AnswerIs(payload.value.reviewResult, Green) then (Verified, reviewResult, false)
      else if AnswerIs(payload.value.reviewResult, Red) then (Rejected, payload.value.reviewResult, isModalOpen)
      else (status, reviewResult, isModalOpen)
    else if payload.Some? && (payload.value.reviewStatus == Some("pending") || payload.value.reviewStatus == Some("queued")) then
      (Pending, reviewResult, isModalOpen)
    else (status, reviewResult, isModalOpen)
  }

  /** Only an approved review verifies and closes the modal; a rejection keeps it open and
      stores the review; a completed review with any other answer, a review on hold and a
      missing payload change nothing; the modal is never opened by an event. */
  lemma StatusTransitionOutcome(payload: Option<Payload>, status: VerificationStatus, reviewResult: Option<ReviewResult>,
                                isModalOpen: bool)
    ensures var (s, r, open) := StatusTransition(payload, status, reviewResult, isModalOpen);
      (s == Verified && status != Verified ==>
         payload.Some? && payload.value.reviewStatus == Some(Completed) && AnswerIs(payload.value.reviewResult, Green) && !open) &&
      (s == Rejected && status != Rejected ==> AnswerIs(payload.value.reviewResult, Red) && r == payload.value.reviewResult && open == isModalOpen) &&
      (open ==> isModalOpen) &&
      (payload.None? || payload.value.reviewStatus == Some("onHold") ==> (s, r, open) == (status, reviewResult, isModalOpen)) &&
      (payload.Some? && payload.value.reviewStatus == Some(Completed) &&
       !AnswerIs(payload.value.reviewResult, Green) && !AnswerIs(payload.value.reviewResult, Red) ==>
         (s, r, open) == (status, reviewResult, isModalOpen))
  {
  }
}
