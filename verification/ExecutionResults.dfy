/** What an adapter reports back. */
module ExecutionResults {

  datatype ExecutionStatus = Succeeded | Failed | PartiallyDone | Rejected

  datatype FailureType = PolicyFailure | EnvironmentFailure | InternalFailure | NoFailure

  datatype ExecutionResult = ExecutionResult(status: ExecutionStatus, failure: FailureType)
}
