/** `ApiError`: the JSON body of every error response. */
module ApiErrors {
  import opened Wrappers
  import opened Constraints
  import opened Http

  datatype ApiError = ApiError(
    status: int,
    error: string,
    message: Option<string>,
    path: string,
    fieldErrors: Option<seq<string>>,
    timestamp: Timestamp)

  /** The `(HttpStatus, message, path)` constructor, with the clock read at
      `now`: the status's code and reason phrase, the message and path as
      given, and no field errors. */
  function NewApiError(status: HttpStatus, message: Option<string>, path: string, now: Timestamp): (r: ApiError)
    ensures r.status == status.Value() && r.error == status.ReasonPhrase()
    ensures r.message == message && r.path == path && r.timestamp == now
    ensures r.fieldErrors.None?
  {
    ApiError(status.Value(), status.ReasonPhrase(), message, path, None, now)
  }

  /** The body's code and phrase always agree: the code determines the
      status, hence the phrase. */
  lemma CodeDeterminesPhrase(a: HttpStatus, b: HttpStatus, m: Option<string>, p: string, now: Timestamp)
    requires NewApiError(a, m, p, now).status == NewApiError(b, m, p, now).status
    ensures NewApiError(a, m, p, now).error == NewApiError(b, m, p, now).error
  {
    ValueInjective(a, b);
  }
}
