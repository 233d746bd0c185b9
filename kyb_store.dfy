/** The business verification store: the shared status, review result, loading flag and
    modal flag, each changed only by its own action. */
module KybStore {
  import opened Wrappers
  import opened KybTypes

  class BusinessVerificationStore {
    var status: VerificationStatus
    var reviewResult: Option<ReviewResult>
    var isLoading: bool
    var isModalOpen: bool

    /** The state the store starts in and `reset` returns to. */
    predicate Initial()
      reads this
    {
      status == Idle && reviewResult.None? && isLoading && !isModalOpen
    }

    constructor()
      ensures Initial()
    {
      status := Idle;
      reviewResult := None;
      isLoading := true;
      isModalOpen := false;
    }

    method SetStatus(s: VerificationStatus)
      modifies this
      ensures status == s
      ensures reviewResult == old(reviewResult) && isLoading == old(isLoading) && isModalOpen == old(isModalOpen)
    {
      status := s;
    }

    method SetReviewResult(r: Option<ReviewResult>)
      modifies this
      ensures reviewResult == r
      ensures status == old(status) && isLoading == old(isLoading) && isModalOpen == old(isModalOpen)
    {
      reviewResult := r;
    }

    method SetIsLoading(loading: bool)
      modifies this
      ensures isLoading == loading
      ensures status == old(status) && reviewResult == old(reviewResult) && isModalOpen == old(isModalOpen)
    {
      isLoading := loading;
    }

    method OpenModal()
      modifies this
      ensures isModalOpen
      ensures status == old(status) && reviewResult == old(reviewResult) && isLoading == old(isLoading)
    {
      isModalOpen := true;
    }

    method CloseModal()
      modifies this
      ensures !isModalOpen
      ensures status == old(status) && reviewResult == old(reviewResult) && isLoading == old(isLoading)
    {
      isModalOpen := false;
    }

    /** `reset`: back to the initial state, whatever the state was, so resetting twice is
        resetting once. */
    method Reset()
      modifies this
      ensures Initial()
    {
      status := Idle;
      reviewResult := None;
      isLoading := true;
      isModalOpen := false;
    }
  }
}
