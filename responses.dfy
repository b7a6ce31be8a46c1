/**
  The responses of the administrative endpoints: an HTTP status class and a
  tag for the message or payload, carrying only the values the message is
  built from.
 */
module Responses {
  import opened Causes
  import opened Entities

  datatype Status = Ok | Created | BadRequest | NotFound | Forbidden | ServerError

  datatype Body =
    // provider endpoints
    | ProviderJson(row: Row)
    | SetupFailed(message: string)
    | IllegalBoolean
    | NoSuchProvider(id: string)
    | AlreadyEnabled(id: string)
    | Enabled(id: string)
    | NoFactory(alias: string)
    | CannotInstantiate(message: string)
    | Disabled(id: string, noneLeft: bool)
    | Deleted(id: string, noneLeft: bool)
    // account conversion
    | SuperusersOnly
    | UserNotFound(user: int)
    | NoLookup(user: int)
    | NullProviderId(user: int)
    | WrongProvider(user: int, actual: string, expected: string)
    | InvalidValues(user: int, violations: seq<Violation>)
    | UnexpectedFailure(user: int, cause: ExKind)
    | NotConverted(user: int)
    | HalfConverted(user: int)
    | HalfConvertedUnexpected(user: int, cause: ExKind)
    | Converted(email: string, userName: string)
    // validation report
    | ValidReport
    | UnknownReport
    | ViolationReport(entity: string, field: string, invalidValue: string)
    | Uncaught(exception: string)

  datatype Response = Response(status: Status, body: Body)
}
