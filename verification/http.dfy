/** The replies a service sends (`common/http.go`): a status and a JSON
    body. A failure reply carries `{"error": message}`, and a caller that
    reads such a body back recovers the message. */
module Http {
  import opened Wrappers
  import opened Errors
  import opened Json

  const StatusOk := 200
  const StatusBadRequest := 400
  const StatusUnauthorized := 401
  const StatusInternalServerError := 500
  const StatusBadGateway := 502

  /** What `SendInternalErrorResponse` says, whatever went wrong. */
  const InternalErrorMessage := "an internal error occurred"

  /** A request or response body as it arrived: a JSON value, or the
      reason it is not one. */
  type Payload = Result<Json, Error>

  /** A handler's answer: a 200 with a payload, or a failure status and
      its message. */
  datatype Reply<T> = Ok(payload: T) | Refused(status: int, message: string)

  /** A reply as sent: a status and a body. */
  datatype Response = Response(status: int, body: Json)

  /** `SendErrorResponse`. */
  function ErrorResponse(status: int, message: string): Response
  {
    Response(status, ErrorObject(message))
  }

  /** `SendSuccessResponse`. */
  const SuccessResponse := Response(StatusOk, JObject([Member("success", JBool(true))]))

  /** The `error` text of an error body as `common.ErrorResponse` decodes
      it; a body that is not such an object leaves it empty, as the
      callers ignore the decoding error. */
  function ErrorText(body: Payload): string
  {
    if body.Failure? then ""
    else
      match StructMembers(body.value, "common.ErrorResponse")
      case Failure(_) => ""
      case Success(ms) =>
        match StringField(ms, "error")
        case Failure(_) => ""
        case Success(m) => m
  }

  /** The message of an error response reaches the caller intact. */
  lemma ErrorTextRoundTrip(status: int, message: string)
    ensures ErrorText(Success(ErrorResponse(status, message).body)) == message
  {
    var ms := ErrorObject(message).members;
    assert DistinctNames(ms);
    LookupDistinct(ms, 0);
  }

  /** A success body carries no error text. */
  lemma SuccessHasNoErrorText()
    ensures ErrorText(Success(SuccessResponse.body)) == ""
  {
    assert Lookup(SuccessResponse.body.members, "error") == None;
  }
}
