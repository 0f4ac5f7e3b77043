/** `user/server/handlers/get_query.go`: the wallet reads a service's
    presentation request from a URL, checks the service's signature on it
    through the service's DID document, and reports what the service asks
    for, including whether the request's issuer endorsed the service's
    document. */
module WalletQuery {
  import opened Wrappers
  import opened Errors
  import opened Json
  import opened Common
  import opened Crypto
  import opened Did
  import opened Http
  import opened CustomErrors
  import opened WalletClient

  /** `QueryResponse`: the request's description, the service's domain as
      its DID document gives it, and the endorsement verdict. */
  datatype QueryResponse = QueryResponse(
    requestType: string,
    serviceUrl: string,
    did: string,
    name: string,
    domain: string,
    credType: string,
    description: string,
    fields: seq<PresentationField>,
    issuer: string,
    trustedByIssuer: bool)

  /** `VerifyDIDDocumentSignature(doc, issuer)`, whose body is not part of
      this model: an error, or none when `issuer` endorsed the document. */
  type Endorser = (DidDocument, string) -> Option<Error>

  const InvalidUrl := "Invalid URL."
  const EntityUnverified := "Entity cannot be verified."
  const MissingUrl := "missing required parameter 'url'"

  /** The presentation request in a fetched body. */
  function DecodePresentation(body: Payload): Result<PresentationRequest, Error>
  {
    if body.Failure? then Failure(body.error) else DecodeRequest(body.value)
  }

  /** The response built from a request whose signature checked, and the
      service's document. */
  function Describe(pres: PresentationRequest, doc: DidDocument, endorse: Endorser): QueryResponse
  {
    QueryResponse(pres.requestType, pres.serviceUrl, pres.entity.did, pres.entityName, doc.domain,
                  pres.credType, pres.description, pres.fields, pres.issuer,
                  pres.issuer != "" && endorse(doc, pres.issuer).None?)
  }

  /** `getQuery`: fetch, decode, resolve the service's DID document and key,
      check the service's signature, describe. A failure is never reported
      as `NoError`. */
  function GetQuery(platform: Platform, net: Network, store: Store, keys: KeyServer, endorse: Endorser, url: string)
    : (r: Result<QueryResponse, CustomError>)
    ensures r.Failure? ==> !r.error.kind.TypeNoError?
    ensures SendRequest(net, Get, url, None).body.None? ==> r == Failure(SendRequest(net, Get, url, None).cerr)
    ensures SendRequest(net, Get, url, None).body.Some? && DecodePresentation(SendRequest(net, Get, url, None).body.value).Failure? ==>
      r == Failure(ClientError(InvalidUrl))
  {
    var sent := SendRequest(net, Get, url, None);
    if !sent.cerr.kind.TypeNoError? then Failure(sent.cerr)
    else
      match DecodePresentation(sent.body.value)
      case Failure(_) => Failure(ClientError(InvalidUrl))
      case Success(pres) =>
        match LoadDocument(store, pres.entity.did)
        case Failure(_) => Failure(InternalError())
        case Success(doc) =>
          match LoadPublicKeyFromDocument(keys, doc)
          case Failure(_) => Failure(InternalError())
          case Success(key) =>
            if VerifyStructSignature(platform, key, pres, EntitySlot()).err.Some? then Failure(ClientError(EntityUnverified))
            else Success(Describe(pres, doc, endorse))
  }

  /** `QueryResponse` as `json.Marshal` writes it; `fields` and `issuer`
      are `omitempty`. */
  function EncodeQueryResponse(q: QueryResponse): Json
  {
    JObject(
      [ Member("type", JString(q.requestType)),
        Member("service_url", JString(q.serviceUrl)),
        Member("did", JString(q.did)),
        Member("name", JString(q.name)),
        Member("domain", JString(q.domain)),
        Member("cred_type", JString(q.credType)),
        Member("description", JString(q.description)) ]
      + (if |q.fields| == 0 then [] else [Member("fields", JArray(EncodeFieldList(q.fields)))])
      + (if q.issuer == "" then [] else [Member("issuer", JString(q.issuer))])
      + [ Member("trusted_by_issuer", JBool(q.trustedByIssuer)) ])
  }

  /** `GetQueryHandler`. A failed query carries a client or internal kind,
      so `Answer` never reaches its success reply there. */
  function GetQueryHandler(platform: Platform, net: Network, store: Store, keys: KeyServer, endorse: Endorser, url: string)
    : (r: Response)
    ensures url == "" ==> r == ErrorResponse(StatusBadGateway, MissingUrl)
    ensures r.status == StatusOk <==> url != "" && GetQuery(platform, net, store, keys, endorse, url).Success?
  {
    if url == "" then ErrorResponse(StatusBadGateway, MissingUrl)
    else
      match GetQuery(platform, net, store, keys, endorse, url)
      case Success(res) => Response(StatusOk, EncodeQueryResponse(res))
      case Failure(cerr) => Answer(cerr, SuccessResponse)
  }

  /** An empty `url` is refused before anything is fetched: the reply is
      the same whatever the network, the documents or the keys. */
  lemma EmptyUrlNoFetch(platform: Platform, net: Network, store: Store, keys: KeyServer, endorse: Endorser,
                        platform': Platform, net': Network, store': Store, keys': KeyServer, endorse': Endorser)
    ensures GetQueryHandler(platform, net, store, keys, endorse, "") == ErrorResponse(StatusBadGateway, MissingUrl)
    ensures GetQueryHandler(platform, net, store, keys, endorse, "") == GetQueryHandler(platform', net', store', keys', endorse', "")
  {
  }

  /** The reply to a failed query: a client error's own message with 400,
      the generic text with 500. */
  lemma FailureAnswered(platform: Platform, net: Network, store: Store, keys: KeyServer, endorse: Endorser, url: string)
    requires url != "" && GetQuery(platform, net, store, keys, endorse, url).Failure?
    ensures var cerr := GetQuery(platform, net, store, keys, endorse, url).error;
      GetQueryHandler(platform, net, store, keys, endorse, url) ==
        if cerr.kind.TypeClientError? then ErrorResponse(StatusBadRequest, cerr.message)
        else ErrorResponse(StatusInternalServerError, InternalErrorMessage)
  {
  }

  /** A service document or key that cannot be resolved is an internal
      error, and the service's signature is never checked: the outcome is
      the same whatever the signature scheme and the endorsements. */
  lemma ResolutionFailureIsInternal(platform: Platform, platform': Platform, net: Network, store: Store, keys: KeyServer,
                                    endorse: Endorser, endorse': Endorser, url: string)
    requires SendRequest(net, Get, url, None).body.Some?
    requires DecodePresentation(SendRequest(net, Get, url, None).body.value).Success?
    requires var pres := DecodePresentation(SendRequest(net, Get, url, None).body.value).value;
      LoadDocument(store, pres.entity.did).Failure? ||
      LoadPublicKeyFromDocument(keys, LoadDocument(store, pres.entity.did).value).Failure?
    ensures GetQuery(platform, net, store, keys, endorse, url) == Failure(InternalError())
    ensures GetQuery(platform, net, store, keys, endorse, url) == GetQuery(platform', net, store, keys, endorse', url)
  {
  }

  /** A request whose service signature does not check, under the key its
      DID document leads to, is refused as unverifiable. */
  lemma EntityFailureRefused(platform: Platform, net: Network, store: Store, keys: KeyServer, endorse: Endorser, url: string)
    requires SendRequest(net, Get, url, None).body.Some?
    requires DecodePresentation(SendRequest(net, Get, url, None).body.value).Success?
    requires var pres := DecodePresentation(SendRequest(net, Get, url, None).body.value).value;
      && LoadDocument(store, pres.entity.did).Success?
      && LoadPublicKeyFromDocument(keys, LoadDocument(store, pres.entity.did).value).Success?
      && VerifyStructSignature(platform, LoadPublicKeyFromDocument(keys, LoadDocument(store, pres.entity.did).value).value,
                               pres, EntitySlot()).err.Some?
    ensures GetQuery(platform, net, store, keys, endorse, url) == Failure(ClientError(EntityUnverified))
  {
  }

  /** A successful query describes the fetched request: every descriptive
      field is copied from it, the domain comes from the service's DID
      document, and the service is trusted exactly when the request names
      an issuer and that issuer endorsed the document. */
  lemma QueryDescribes(platform: Platform, net: Network, store: Store, keys: KeyServer, endorse: Endorser, url: string)
    requires GetQuery(platform, net, store, keys, endorse, url).Success?
    ensures SendRequest(net, Get, url, None).body.Some?
    ensures DecodePresentation(SendRequest(net, Get, url, None).body.value).Success?
    ensures var pres := DecodePresentation(SendRequest(net, Get, url, None).body.value).value;
      var q := GetQuery(platform, net, store, keys, endorse, url).value;
      && LoadDocument(store, pres.entity.did).Success?
      && var doc := LoadDocument(store, pres.entity.did).value;
      && q.requestType == pres.requestType && q.serviceUrl == pres.serviceUrl && q.did == pres.entity.did
      && q.name == pres.entityName && q.credType == pres.credType && q.description == pres.description
      && q.fields == pres.fields && q.issuer == pres.issuer && q.domain == doc.domain
      && (q.trustedByIssuer <==> pres.issuer != "" && endorse(doc, pres.issuer).None?)
  {
  }

  /** Without an issuer there is nothing to trust: the endorsement check
      is never consulted. */
  lemma NoIssuerNotTrusted(pres: PresentationRequest, doc: DidDocument, endorse: Endorser, endorse': Endorser)
    requires pres.issuer == ""
    ensures !Describe(pres, doc, endorse).trustedByIssuer
    ensures Describe(pres, doc, endorse) == Describe(pres, doc, endorse')
  {
  }
}
