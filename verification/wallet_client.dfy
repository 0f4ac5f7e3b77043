/** `user/server/handlers/common.go`: the wallet's outgoing requests and
    its credential file.

    The wallet's HTTP client is a `Network` from (method, URL, body) to
    what happened: the request could not be built, could not be sent, or
    was answered with a status and a body. The wallet file
    (`wallet/verifiable-credentials.json`) holds the credentials keyed by
    issuer DID; it is modelled by what it decodes to. */
module WalletClient {
  import opened Wrappers
  import opened Errors
  import opened Json
  import opened Common
  import opened Http
  import opened CustomErrors

  /** `VC_URI`, the wallet file. */
  const VcUri := "wallet/verifiable-credentials.json"

  /** `PRIVATE_KEY_URI` (declared in `post_verify.go`), the holder's key. */
  const PrivateKeyUri := "wallet/private.key"

  datatype Method = Get | Post

  datatype Exchange =
    | NotBuilt(cause: Error)
    | NotSent(cause: Error)
    | Answered(status: int, body: Payload)

  type Network = (Method, string, Option<Json>) -> Exchange

  /** What `sendRequest` returns: the body (on a 200 only), the outcome
      kind, and the error it logs. */
  datatype Sent = Sent(body: Option<Payload>, cerr: CustomError, logged: Option<Error>)

  /** `sendRequest`: a request that cannot be built or sent is an internal
      error; a 200 gives its body; a 500 is an internal error whatever the
      server said; any other status is a client error carrying the
      server's `error` text. */
  function SendRequest(net: Network, verb: Method, url: string, body: Option<Json>): (r: Sent)
    ensures r.body.Some? <==> r.cerr == NoError()
    ensures r.body.Some? <==> r.cerr.kind.TypeNoError?
    ensures (net(verb, url, body).NotBuilt? || net(verb, url, body).NotSent?) ==> r.cerr == InternalError()
    ensures net(verb, url, body).Answered? && net(verb, url, body).status == StatusOk ==>
      r.body == Some(net(verb, url, body).body)
    ensures net(verb, url, body).Answered? && net(verb, url, body).status == StatusInternalServerError ==>
      r.cerr == InternalError()
    ensures net(verb, url, body).Answered? && net(verb, url, body).status !in {StatusOk, StatusInternalServerError} ==>
      r.cerr == ClientError(ErrorText(net(verb, url, body).body))
  {
    match net(verb, url, body)
    case NotBuilt(e) => Sent(None, InternalError(), Some(Chain("error creating request", e)))
    case NotSent(e) => Sent(None, InternalError(), Some(Chain("error sending request", e)))
    case Answered(status, b) =>
      if status != StatusOk then
        var err := Chain("error from server", ErrorText(b));
        if status == StatusInternalServerError then Sent(None, InternalError(), Some(err))
        else Sent(None, ClientError(ErrorText(b)), Some(err))
      else Sent(Some(b), NoError(), None)
  }

  /** A service's refusal, as its reply is sent, reaches the wallet as the
      outcome kind its status calls for, with the service's own message
      for a client error. */
  lemma RefusalClassified(net: Network, verb: Method, url: string, body: Option<Json>, status: int, message: string)
    requires status != StatusOk
    requires net(verb, url, body) == Answered(status, Success(ErrorResponse(status, message).body))
    ensures SendRequest(net, verb, url, body).cerr ==
      if status == StatusInternalServerError then InternalError() else ClientError(message)
  {
    ErrorTextRoundTrip(status, message);
  }

  /** The credentials in the wallet, keyed by the DID of their issuer. */
  type Wallet = map<string, Credential>

  /** The wallet file: missing, unreadable as a credential map (with the
      decoder's error), holding `null`, or holding credentials. A file
      holding `null` decodes without error, and Go's decoder then leaves
      the map nil rather than empty. */
  datatype WalletFile = Missing | Unreadable(cause: Error) | HoldsNull | Holds(creds: Wallet)

  /** `loadVerifiableCredentials`: the decoded map, or a chained error. A
      nil map reads like an empty one, so `null` gives no credentials. */
  function LoadCredentials(f: WalletFile): (r: Result<Wallet, Error>)
    ensures r.Success? <==> f.Holds? || f.HoldsNull?
    ensures f.Holds? ==> r == Success(f.creds)
    ensures f.HoldsNull? ==> r == Success(map[])
    ensures f.Missing? ==> r.error == Chain("error loading JSON file", Chain("error opening JSON file", NoSuchFile(VcUri)))
    ensures f.Unreadable? ==> r.error == Chain("error loading JSON file", f.cause)
  {
    match f
    case Missing => Failure(Chain("error loading JSON file", Chain("error opening JSON file", NoSuchFile(VcUri))))
    case Unreadable(e) => Failure(Chain("error loading JSON file", e))
    case HoldsNull => Success(map[])
    case Holds(w) => Success(w)
  }

  /** `WriteJSONToFile(VC_URI, ...)`. */
  function SaveCredentials(w: Wallet): (f: WalletFile)
    ensures LoadCredentials(f) == Success(w)
  {
    Holds(w)
  }
}
