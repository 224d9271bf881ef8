/** The exception hierarchy of the system, as values. */
module Errors {

  datatype IncidentAssignmentError =
    | ServiceNowError(message: string)
    | DatabaseError(message: string)
    | WeightCalculationError(message: string)
    | ConfigurationError(message: string)
    | NoAvailableMembersError(message: string)

  /** An exception that escapes a step: one of the system's own, or the KeyError of a
      subscript on a missing dictionary key. */
  datatype Raised = AppError(error: IncidentAssignmentError) | KeyError(key: string)

  /** str(e): an application error prints its message, a KeyError its quoted key. */
  function ErrorText(e: Raised): string {
    match e
    case AppError(err) => err.message
    case KeyError(key) => "'" + key + "'"
  }
}
