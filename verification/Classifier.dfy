/** Which row errors can resolve on their own. */
module Classifier {
  import opened Model

  const RETRYABLE_ROW_ERRORS: set<string> := {"TOO_RECENT_CONVERSION"}

  function ClassifyRowError(code: string): FailureClass {
    if code in RETRYABLE_ROW_ERRORS then Transient else Permanent
  }
}
