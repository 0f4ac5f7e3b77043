/** `verifier/verifier.go`: handing out a signed presentation request, and
    the ordered verification chain a presented credential goes through:
    the holder's signature, then the issuer's key, then the issuer's
    signature, then the role callback. Each failure has its own status.

    As in the issuer, the flat fields of this revision are the `subject`
    and `issuer` signature pairs of a `Credential`, and the verifier's
    `VerifierDID`/`VerifierSignature` are the request's `entity`. The
    issuer's key is resolved through the DID document store and the key
    server of `common/did.go`. */
module Verifier {
  import opened Wrappers
  import opened Errors
  import opened Json
  import opened Common
  import opened Crypto
  import opened Did
  import opened Http

  /** `VerifierService`: the request it hands out
      (`CreatePresentationRequest`), its acceptance callback
      (`VerifyCredentials`: an error or none) and its private key file. */
  datatype VerifierService = VerifierService(
    request: PresentationRequest,
    accept: Credential -> Option<Error>,
    privateKeyUri: string)

  const InvalidBody := "invalid JSON body"
  const SubjectRejected := "error verifying subject signature"
  const IssuerRejected := "error verifying issuer signature"

  /** `GetVerifyHandler`: the request is signed exactly as built, and the
      signature text is stored in the request only afterwards. */
  function GetVerify(platform: Platform, files: Files, s: VerifierService): (r: Reply<PresentationRequest>)
    ensures r.Refused? <==> SignBytes(platform, files, s.privateKeyUri, EncodeRequest(s.request)).Failure?
    ensures r.Refused? ==> r == Refused(StatusInternalServerError, InternalErrorMessage)
    ensures r.Ok? ==> r.payload == SignInPlace(platform, files, s.privateKeyUri, s.request, EntitySlot()).value
  {
    match SignBytes(platform, files, s.privateKeyUri, EncodeRequest(s.request))
    case Failure(_) => Refused(StatusInternalServerError, InternalErrorMessage)
    case Success(b) => Ok(s.request.(entity := s.request.entity.(signature := platform.structCodec.encode(b))))
  }

  /** A request built with an empty entity signature, once signed, checks
      under the verifier's certificate and clears back to the request as
      built; one built with a non-empty signature never checks. */
  lemma HandedOutRequestVerifies(platform: Platform, files: Files, s: VerifierService, cert: Bytes)
    requires Correct(platform.scheme) && Binding(platform.scheme, EncodeRequest) && Lossless(platform.structCodec)
    requires KeyPair(platform, files, s.privateKeyUri, cert)
    requires GetVerify(platform, files, s).Ok?
    ensures s.request.entity.signature == "" ==>
      VerifyStructSignature(platform, cert, GetVerify(platform, files, s).payload, EntitySlot()) == InPlace(s.request, None)
    ensures s.request.entity.signature != "" ==>
      VerifyStructSignature(platform, cert, GetVerify(platform, files, s).payload, EntitySlot()).err.Some?
  {
    SlotsSound();
    if s.request.entity.signature == "" {
      SignThenVerify(platform, files, s.privateKeyUri, cert, s.request, EntitySlot());
    } else {
      SignedUnclearedNeverVerifies(platform, files, s.privateKeyUri, cert, s.request, EntitySlot());
    }
  }

  function DecodeBody(body: Payload): Result<Credential, Error>
  {
    if body.Failure? then Failure(body.error) else DecodeCredential(body.value)
  }

  /** Step 1: the holder's signature, under the holder's DID text. */
  function CheckSubject(platform: Platform, c: Credential): InPlace<Credential>
  {
    VerifyStructSignature(platform, c.subject.did, c, SubjectSlot())
  }

  /** Step 3: the issuer's signature, under the resolved certificate. */
  function CheckIssuer(platform: Platform, key: Bytes, c: Credential): InPlace<Credential>
  {
    VerifyStructSignature(platform, key, c, IssuerSlot())
  }

  /** `PostVerifyHandler`. */
  function PostVerify(platform: Platform, store: Store, net: KeyServer, s: VerifierService, body: Payload): (r: Reply<()>)
    ensures DecodeBody(body).Failure? ==> r == Refused(StatusBadRequest, InvalidBody)
    ensures r.Refused? ==> r.status in {StatusBadRequest, StatusUnauthorized, StatusInternalServerError}
  {
    match DecodeBody(body)
    case Failure(_) => Refused(StatusBadRequest, InvalidBody)
    case Success(cred) =>
      var subject := CheckSubject(platform, cred);
      if subject.err.Some? then Refused(StatusUnauthorized, SubjectRejected)
      else
        match LoadPublicKeyFromUri(store, net, subject.value.issuer.did)
        case Failure(_) => Refused(StatusInternalServerError, InternalErrorMessage)
        case Success(key) =>
          var issuer := CheckIssuer(platform, key, subject.value);
          if issuer.err.Some? then Refused(StatusUnauthorized, IssuerRejected)
          else
            match s.accept(issuer.value)
            case Some(e) => Refused(StatusBadRequest, e)
            case None => Ok(())
  }

  /** The reply as sent. */
  function Wire(r: Reply<()>): Response
  {
    match r
    case Ok(_) => SuccessResponse
    case Refused(status, message) => ErrorResponse(status, message)
  }

  /** The credential the issuer's signature is checked over: the presented
      one with BOTH signatures cleared. */
  function BothCleared(c: Credential): Credential
  {
    c.(subject := c.subject.Clear(), issuer := c.issuer.Clear())
  }

  /** The success reply is sent exactly when all four steps pass, in order:
      the holder's signature over the credential with it cleared, the
      issuer's key, the issuer's signature over the credential with both
      signatures cleared, and the callback on that same credential. */
  lemma AcceptedExactly(platform: Platform, store: Store, net: KeyServer, s: VerifierService, body: Payload)
    ensures PostVerify(platform, store, net, s, body).Ok? <==>
      && DecodeBody(body).Success?
      && var c := DecodeBody(body).value;
      && CheckSubject(platform, c).err.None?
      && LoadPublicKeyFromUri(store, net, c.issuer.did).Success?
      && CheckIssuer(platform, LoadPublicKeyFromUri(store, net, c.issuer.did).value, c.(subject := c.subject.Clear())).err.None?
      && s.accept(BothCleared(c)).None?
  {
    if DecodeBody(body).Success? {
      var c := DecodeBody(body).value;
      SubjectStepClears(platform, c);
      if LoadPublicKeyFromUri(store, net, c.issuer.did).Success? {
        IssuerStepClears(platform, LoadPublicKeyFromUri(store, net, c.issuer.did).value, c);
      }
    }
  }

  /** The holder's step hands on the credential with its signature cleared
      and the issuer's pair untouched. */
  lemma SubjectStepClears(platform: Platform, c: Credential)
    ensures CheckSubject(platform, c).value == c.(subject := c.subject.Clear())
    ensures CheckSubject(platform, c).value.issuer == c.issuer
  {
  }

  /** The issuer's step, after the holder's, leaves both signatures cleared. */
  lemma IssuerStepClears(platform: Platform, key: Bytes, c: Credential)
    ensures CheckIssuer(platform, key, c.(subject := c.subject.Clear())).value == BothCleared(c)
  {
  }

  /** The issuer's signature step checks exactly the issuer's signature
      text against the credential with both signatures cleared. */
  lemma IssuerCheckMeaning(platform: Platform, key: Bytes, c: Credential)
    requires c.subject.signature == ""
    ensures CheckIssuer(platform, key, c).value == BothCleared(c)
    ensures CheckIssuer(platform, key, c).err.None? <==>
      && platform.structCodec.decode(c.issuer.signature).Success?
      && LoadPublicKey(platform.parsers, key).Success?
      && platform.scheme.verify(
           LoadPublicKey(platform.parsers, key).value,
           platform.structCodec.decode(c.issuer.signature).value,
           EncodeCredential(BothCleared(c)))
  {
    assert c.subject.Clear() == c.subject;
  }

  /** A holder-signature failure is a 401 and stops the chain: the issuer's
      DID is never resolved and the callback never runs, so the reply is
      the same whatever the documents, the key server or the callback. */
  lemma SubjectFailureStops(platform: Platform, store: Store, net: KeyServer, s: VerifierService,
                            store': Store, net': KeyServer, s': VerifierService, body: Payload)
    requires DecodeBody(body).Success?
    requires CheckSubject(platform, DecodeBody(body).value).err.Some?
    ensures PostVerify(platform, store, net, s, body) == Refused(StatusUnauthorized, SubjectRejected)
    ensures PostVerify(platform, store, net, s, body) == PostVerify(platform, store', net', s', body)
  {
  }

  /** An issuer key that cannot be resolved is a 500, not a 401, and the
      callback never runs. */
  lemma KeyFailureIsInternal(platform: Platform, store: Store, net: KeyServer, s: VerifierService, s': VerifierService, body: Payload)
    requires DecodeBody(body).Success?
    requires CheckSubject(platform, DecodeBody(body).value).err.None?
    requires LoadPublicKeyFromUri(store, net, DecodeBody(body).value.issuer.did).Failure?
    ensures PostVerify(platform, store, net, s, body) == Refused(StatusInternalServerError, InternalErrorMessage)
    ensures PostVerify(platform, store, net, s, body) == PostVerify(platform, store, net, s', body)
  {
    SubjectStepClears(platform, DecodeBody(body).value);
  }

  /** An issuer signature that does not check is a 401, and the callback
      never runs. */
  lemma IssuerFailureStops(platform: Platform, store: Store, net: KeyServer, s: VerifierService, s': VerifierService, body: Payload)
    requires DecodeBody(body).Success?
    requires CheckSubject(platform, DecodeBody(body).value).err.None?
    requires LoadPublicKeyFromUri(store, net, DecodeBody(body).value.issuer.did).Success?
    requires CheckIssuer(platform, LoadPublicKeyFromUri(store, net, DecodeBody(body).value.issuer.did).value,
                         CheckSubject(platform, DecodeBody(body).value).value).err.Some?
    ensures PostVerify(platform, store, net, s, body) == Refused(StatusUnauthorized, IssuerRejected)
    ensures PostVerify(platform, store, net, s, body) == PostVerify(platform, store, net, s', body)
  {
  }

  /** Once both signatures check, the callback decides: its error is a 400
      carrying its message. */
  lemma CallbackDecides(platform: Platform, store: Store, net: KeyServer, s: VerifierService, body: Payload)
    requires DecodeBody(body).Success?
    requires CheckSubject(platform, DecodeBody(body).value).err.None?
    requires LoadPublicKeyFromUri(store, net, DecodeBody(body).value.issuer.did).Success?
    requires CheckIssuer(platform, LoadPublicKeyFromUri(store, net, DecodeBody(body).value.issuer.did).value,
                         CheckSubject(platform, DecodeBody(body).value).value).err.None?
    ensures var verdict := s.accept(BothCleared(DecodeBody(body).value));
      PostVerify(platform, store, net, s, body) == if verdict.Some? then Refused(StatusBadRequest, verdict.value) else Ok(())
  {
    var c := DecodeBody(body).value;
    SubjectStepClears(platform, c);
    IssuerStepClears(platform, LoadPublicKeyFromUri(store, net, c.issuer.did).value, c);
  }
}
