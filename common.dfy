/** Values shared by every controller of the back office: optional request
    fields, the error response a handler sends, identifiers and time. */
module Common {

  /** An optional field of a request body or of a stored document. */
  datatype Option<T> = None | Some(value: T) {
    function GetOr(default: T): T {
      match this
      case Some(v) => v
      case None => default
    }
  }

  /** The `errorResponse(res, message, status)` a handler ends with. */
  datatype Failure = Failure(status: nat, message: string)

  /** What a handler sends back: the document it produced, or an error. */
  datatype Result<T> = Ok(value: T) | Err(failure: Failure) {
    predicate IsStatus(code: nat) {
      Err? && failure.status == code
    }
  }

  /** Document identifiers (Mongo ObjectIds); fresh ones are supplied by the caller. */
  type Id = nat

  /** A point in time in milliseconds, as `Date.now()` returns it. */
  type Time = int

  /** JavaScript truthiness of an optional string: absent and "" are falsy. */
  predicate Truthy(s: Option<string>) {
    s.Some? && s.value != ""
  }

  /** The `a || b` fallback over optional strings. */
  function OrElse(patch: Option<string>, current: string): string {
    if Truthy(patch) then patch.value else current
  }
}
