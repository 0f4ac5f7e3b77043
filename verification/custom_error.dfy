/** `user/server/handlers/custom_error.go`: the wallet's three outcome
    kinds, and how its handlers turn an outcome into a reply. */
module CustomErrors {
  import opened Wrappers
  import opened Json
  import opened Http

  /** The kinds, declared with `iota`. */
  datatype ErrorType = TypeNoError | TypeClientError | TypeInternalError
  {
    /** The integer Go gives the kind. */
    function Ordinal(): (n: nat)
      ensures n < 3
    {
      match this
      case TypeNoError => 0
      case TypeClientError => 1
      case TypeInternalError => 2
    }
  }

  /** The kinds are distinct and numbered 0, 1, 2 in declaration order. */
  lemma OrdinalsDistinct(a: ErrorType, b: ErrorType)
    ensures a.Ordinal() == b.Ordinal() <==> a == b
    ensures TypeNoError.Ordinal() == 0 && TypeClientError.Ordinal() == 1 && TypeInternalError.Ordinal() == 2
  {
  }

  datatype CustomError = CustomError(kind: ErrorType, message: string)

  /** The fixed text of every internal error. */
  const InternalErrorText := "An internal error occurred."

  function NoError(): (e: CustomError)
    ensures e.kind == TypeNoError && e.message == ""
  {
    CustomError(TypeNoError, "")
  }

  /** A client error keeps its message verbatim. */
  function ClientError(message: string): (e: CustomError)
    ensures e.kind == TypeClientError && e.message == message
  {
    CustomError(TypeClientError, message)
  }

  function InternalError(): (e: CustomError)
    ensures e.kind == TypeInternalError && e.message == InternalErrorText
  {
    CustomError(TypeInternalError, InternalErrorText)
  }

  /** What a wallet handler sends for an outcome: a client error's message
      with 400, the server's generic text with 500 for an internal error,
      and otherwise the success reply. */
  function Answer(cerr: CustomError, success: Response): (r: Response)
    ensures cerr.kind.TypeClientError? ==> r == ErrorResponse(StatusBadRequest, cerr.message)
    ensures cerr.kind.TypeInternalError? ==> r == ErrorResponse(StatusInternalServerError, InternalErrorMessage)
    ensures cerr.kind.TypeNoError? ==> r == success
  {
    if cerr.kind == TypeClientError then ErrorResponse(StatusBadRequest, cerr.message)
    else if cerr.kind == TypeInternalError then ErrorResponse(StatusInternalServerError, InternalErrorMessage)
    else success
  }

  /** A client error's message reaches the front end intact; an internal
      error's own text never does. */
  lemma AnswerCarriesClientMessage(message: string, success: Response)
    ensures ErrorText(Success(Answer(ClientError(message), success).body)) == message
    ensures ErrorText(Success(Answer(InternalError(), success).body)) == InternalErrorMessage
    ensures Answer(ClientError(message), success).status == StatusBadRequest
  {
    ErrorTextRoundTrip(StatusBadRequest, message);
    ErrorTextRoundTrip(StatusInternalServerError, InternalErrorMessage);
  }
}
