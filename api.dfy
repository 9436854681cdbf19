/** The transport adapter's mapping of a failure to a human-readable message. */
module Api {
  import opened JsValues
  import opened Wrappers

  const UnexpectedError := "Unexpected error occurred"

  /** The JSON body of a failed response, as far as the mapper reads it. */
  datatype ErrorBody = ErrorBody(error: Nullable<string>, message: Nullable<string>)

  /**
   * What a rejected request can carry: an HTTP-client error (its own message,
   * and the response body when there was a response with a body), any other
   * `Error`, or a thrown value that is not an `Error` at all.
   */
  datatype ErrorValue =
    | HttpClientError(message: string, body: Option<ErrorBody>)
    | PlainError(message: string)
    | NonError

  /** The body's `error`, else the body's `message`, both read with `?.`. */
  function BodyMessage(body: Option<ErrorBody>): Nullable<string> {
    match body
    case None => Undefined
    case Some(b) => Coalesce(b.error, b.message)
  }

  /**
   * The message shown for a failure: the server's `error` field wins over its
   * `message` field, which wins over the client error's own message; a plain
   * error gives its message and anything else a fixed fallback.
   */
  function GetErrorMessage(e: ErrorValue): (r: string)
    ensures e.HttpClientError? && e.body.Some? && e.body.value.error.Defined? ==>
      r == e.body.value.error.value
    ensures e.HttpClientError? && e.body.Some? && Nullish(e.body.value.error) && e.body.value.message.Defined? ==>
      r == e.body.value.message.value
    ensures e.HttpClientError? && (e.body.None? || (Nullish(e.body.value.error) && Nullish(e.body.value.message))) ==>
      r == e.message
    ensures e.PlainError? ==> r == e.message
    ensures e.NonError? ==> r == UnexpectedError
  {
    match e
    case HttpClientError(message, body) =>
      var fromBody := BodyMessage(body);
      if fromBody.Defined? then fromBody.value else message
    case PlainError(message) => message
    case NonError => UnexpectedError
  }

  /**
   * `??` skips only `null` and `undefined`: an empty `error` field in the body
   * is returned as the message even when a non-empty `message` field is there.
   */
  lemma EmptyErrorFieldIsReturned(clientMessage: string, bodyMessage: string)
    ensures GetErrorMessage(HttpClientError(clientMessage, Some(ErrorBody(Defined(""), Defined(bodyMessage))))) == ""
  {
  }

  /** The mapper is total and its answer is always one of the strings it was given or the fallback. */
  lemma GetErrorMessageSource(e: ErrorValue)
    ensures var r := GetErrorMessage(e);
      || r == UnexpectedError
      || ((e.HttpClientError? || e.PlainError?) && r == e.message)
      || (e.HttpClientError? && e.body.Some? && (Defined(r) == e.body.value.error || Defined(r) == e.body.value.message))
  {
  }
}
