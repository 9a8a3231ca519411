// The results a provider's operations hand back to the component
// controller.  An action either succeeds with a details message or fails
// with an error that the provider's classifier marks retryable or not; a
// check is in progress, complete, failed through the classifier, or
// returns its error to the caller unclassified.
module OperationResults {
  datatype ActionResult = ActionSuccess(details: string) | ActionError(error: string)

  datatype CheckResult =
    | CheckInProgress(details: string)
    | CheckComplete(details: string)
    | CheckError(error: string)
    | CheckFailed(error: string)
}
