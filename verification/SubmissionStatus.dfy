/** The states of a submission, as its brief report shows them. */
module SubmissionStatus {
  datatype Status = Queued | Aborted | Finished | Cancelled | Running | Cancelling | Failed

  predicate Terminal(s: Status) {
    s.Finished? || s.Failed? || s.Cancelled?
  }
}
