/** The HTTP statuses the services answer with, and Spring's `ResponseEntity`. */
module Http {
  import opened Wrappers

  /** The statuses in use, with their codes and the reason phrases of
      section 15 of RFC 9110. */
  datatype HttpStatus = Ok | Created | BadRequest | NotFound | InternalServerError
  {
    /** The numeric status code. */
    function Value(): (r: int)
      ensures 200 <= r < 600
      ensures (r < 300) <==> (this == Ok || this == Created)
      ensures (500 <= r) <==> (this == InternalServerError)
    {
      match this
      case Ok => 200
      case Created => 201
      case BadRequest => 400
      case NotFound => 404
      case InternalServerError => 500
    }

    /** The reason phrase: sections 15.3.1, 15.3.2, 15.5.1, 15.5.5 and
        15.6.1 of RFC 9110. */
    function ReasonPhrase(): string {
      match this
      case Ok => "OK"
      case Created => "Created"
      case BadRequest => "Bad Request"
      case NotFound => "Not Found"
      case InternalServerError => "Internal Server Error"
    }
  }

  /** Distinct statuses have distinct codes, so a code names its status. */
  lemma ValueInjective(a: HttpStatus, b: HttpStatus)
    ensures a.Value() == b.Value() <==> a == b
  {
  }

  /** A response: its status and, unless empty, its body. */
  datatype ResponseEntity<T> = ResponseEntity(status: HttpStatus, body: Option<T>)
}
