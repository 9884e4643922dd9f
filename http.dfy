/** The outcome of a request handler, as its JSON body and status code show it. */
module Http {
  import opened CostModel

  /** Why a request failed; each handler's catch block turns it into `{error: message}`. */
  datatype Failure =
    | InvalidCost(fields: seq<Field>)   // the schema's ValidationError
    | Unparsable                        // a query or path parameter that is not a number
    | StoreFailure(message: string)     // the store call itself failed
    | NotAFunction(category: string)    // TypeError from `grouped[category].push`
    | UserNotFound

  datatype Response<T> =
    | Ok(body: T)
    | BadRequest(failure: Failure)
    | NotFound(failure: Failure)
    | ServerError(failure: Failure)

  function Status<T>(r: Response<T>): int {
    match r
    case Ok(_) => 200
    case BadRequest(_) => 400
    case NotFound(_) => 404
    case ServerError(_) => 500
  }
}
