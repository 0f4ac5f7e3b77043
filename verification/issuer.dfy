/** `issuer/issuer.go`: the issuance pipeline. A holder posts a credential
    request signed with its own key; the issuer checks that signature
    against the holder's DID text, lets its role callback mint the
    credential, stamps its own DID on it, signs it and returns it.

    The issuer revision uses flat fields (`SubjectDID`, `SubjectSignature`,
    `IssuerDID`, `IssuerSig`); they are the `subject` and `issuer`
    signature pairs of a `Credential` here. Clearing `SubjectSignature` by
    hand and then checking is the same as `VerifyStructSignature` clearing
    the subject field in place.

    The handler never checks the signature of an upstream issuer that a
    submitted credential names, though an issuer that mints from upstream
    claims (the bus company) trusts them. `PostIssueUpstream` is the
    pipeline with that check. Its statuses follow the verifier's (401 for a
    signature that fails, 500 for a certificate that cannot be resolved);
    its refusal text is chosen here. */
module Issuer {
  import opened Wrappers
  import opened Errors
  import opened Json
  import opened Common
  import opened Crypto
  import opened Http
  import opened Did

  /** `IssuerService`: the role callback (`CreateVerifiableCredentials`,
      which may change the credential it is given and may fail), the
      issuer's DID, its private key file, and the text form in which it
      writes its signature (hex in this revision). */
  datatype IssuerService = IssuerService(
    mint: Credential -> InPlace<Credential>,
    did: string,
    privateKeyUri: string,
    signatureCodec: TextCodec)

  const InvalidBody := "invalid JSON body"
  const SubjectRejected := "error verifying subject signature"
  const UpstreamRejected := "error verifying upstream issuer signature"

  /** The request body read as a credential. */
  function DecodeBody(body: Payload): Result<Credential, Error>
  {
    if body.Failure? then Failure(body.error) else DecodeCredential(body.value)
  }

  /** The holder's signature checked with the holder's DID text as the
      certificate; the result holds the request with that signature
      cleared. */
  function CheckSubject(platform: Platform, request: Credential): InPlace<Credential>
  {
    VerifyStructSignature(platform, request.subject.did, request, SubjectSlot())
  }

  /** The issuer's DID put on a credential. */
  function Stamp(c: Credential, did: string): Credential
  {
    c.(issuer := c.issuer.(did := did))
  }

  /** The steps after the holder's check: the callback mints from the
      checked request, the issuer's DID is stamped on the result, and the
      issuer signs it and writes the signature in its codec. */
  function MintAndSign(platform: Platform, files: Files, s: IssuerService, request: Credential): (r: Reply<Credential>)
    ensures s.mint(request).err.Some? ==> r == Refused(StatusBadRequest, s.mint(request).err.value)
    ensures r.Refused? ==> r.status in {StatusBadRequest, StatusInternalServerError}
    ensures r.Ok? ==> r.payload.issuer.did == s.did && r.payload.subject == s.mint(request).value.subject
    ensures r.Ok? ==> r.payload.credType == s.mint(request).value.credType && r.payload.claims == s.mint(request).value.claims
  {
    var minted := s.mint(request);
    if minted.err.Some? then Refused(StatusBadRequest, minted.err.value)
    else
      var stamped := Stamp(minted.value, s.did);
      match SignBytes(platform, files, s.privateKeyUri, EncodeCredential(stamped))
      case Failure(_) => Refused(StatusInternalServerError, InternalErrorMessage)
      case Success(b) => Ok(stamped.(issuer := stamped.issuer.(signature := s.signatureCodec.encode(b))))
  }

  /** `PostIssueHandler`. */
  function PostIssue(platform: Platform, files: Files, s: IssuerService, body: Payload): (r: Reply<Credential>)
    ensures DecodeBody(body).Failure? ==> r == Refused(StatusBadRequest, InvalidBody)
    ensures r.Refused? ==> r.status in {StatusBadRequest, StatusUnauthorized, StatusInternalServerError}
    ensures r.Ok? ==> r.payload.issuer.did == s.did
  {
    match DecodeBody(body)
    case Failure(_) => Refused(StatusBadRequest, InvalidBody)
    case Success(request) =>
      var checked := CheckSubject(platform, request);
      if checked.err.Some? then Refused(StatusUnauthorized, SubjectRejected)
      else MintAndSign(platform, files, s, checked.value)
  }

  /** The upstream issuer's signature on a submitted credential, checked
      under the upstream issuer's resolved certificate over the credential
      with both signatures cleared. */
  function CheckUpstream(platform: Platform, key: Bytes, c: Credential): InPlace<Credential>
  {
    VerifyStructSignature(platform, key, c, IssuerSlot())
  }

  /** The issuance pipeline with the upstream check: after the holder's
      check, a service that mints from credentials of `upstream` insists
      that the submission names that issuer and carries its signature,
      resolves the issuer's certificate through its DID document, and
      checks the signature before the callback sees any claim. A missing
      signature is refused, not trusted. */
  function PostIssueUpstream(platform: Platform, files: Files, store: Store, net: KeyServer,
                             s: IssuerService, upstream: string, body: Payload): (r: Reply<Credential>)
    ensures DecodeBody(body).Failure? ==> r == Refused(StatusBadRequest, InvalidBody)
    ensures r.Refused? ==> r.status in {StatusBadRequest, StatusUnauthorized, StatusInternalServerError}
    ensures r.Ok? ==> r.payload.issuer.did == s.did
    ensures r.Ok? ==> DecodeBody(body).Success? && DecodeBody(body).value.issuer.did == upstream && DecodeBody(body).value.issuer.signature != ""
  {
    match DecodeBody(body)
    case Failure(_) => Refused(StatusBadRequest, InvalidBody)
    case Success(request) =>
      var checked := CheckSubject(platform, request);
      if checked.err.Some? then Refused(StatusUnauthorized, SubjectRejected)
      else if request.issuer.did != upstream || request.issuer.signature == "" then Refused(StatusUnauthorized, UpstreamRejected)
      else
        match LoadPublicKeyFromUri(store, net, upstream)
        case Failure(_) => Refused(StatusInternalServerError, InternalErrorMessage)
        case Success(key) =>
          var vouched := CheckUpstream(platform, key, checked.value);
          if vouched.err.Some? then Refused(StatusUnauthorized, UpstreamRejected)
          else MintAndSign(platform, files, s, vouched.value)
  }

  /** The reply as sent: the credential's encoding, or an error body. */
  function Wire(r: Reply<Credential>): Response
  {
    match r
    case Ok(c) => Response(StatusOk, EncodeCredential(c))
    case Refused(status, message) => ErrorResponse(status, message)
  }

  /** An undecodable body is refused before anything is checked or signed:
      the reply does not depend on the keys, the files or the service. */
  lemma UndecodableRefused(platform: Platform, files: Files, s: IssuerService,
                           platform': Platform, files': Files, s': IssuerService, body: Payload)
    requires DecodeBody(body).Failure?
    ensures PostIssue(platform, files, s, body) == Refused(StatusBadRequest, InvalidBody)
    ensures PostIssue(platform, files, s, body) == PostIssue(platform', files', s', body)
  {
  }

  /** The holder's signature is checked over the request with that
      signature cleared, under the certificate that IS the holder's DID
      text. */
  lemma SubjectCheckMeaning(platform: Platform, request: Credential)
    ensures CheckSubject(platform, request).value == request.(subject := request.subject.Clear())
    ensures CheckSubject(platform, request).err.None? <==>
      && platform.structCodec.decode(request.subject.signature).Success?
      && LoadPublicKey(platform.parsers, request.subject.did).Success?
      && platform.scheme.verify(
           LoadPublicKey(platform.parsers, request.subject.did).value,
           platform.structCodec.decode(request.subject.signature).value,
           EncodeCredential(request.(subject := request.subject.Clear())))
  {
  }

  /** A request whose holder signature does not check gets 401, and the
      callback is never invoked: the reply is the same whatever the
      callback, the key or the files. */
  lemma SubjectFailureStops(platform: Platform, files: Files, s: IssuerService, files': Files, s': IssuerService, body: Payload)
    requires DecodeBody(body).Success?
    requires CheckSubject(platform, DecodeBody(body).value).err.Some?
    ensures PostIssue(platform, files, s, body) == Refused(StatusUnauthorized, SubjectRejected)
    ensures PostIssue(platform, files, s, body) == PostIssue(platform, files', s', body)
  {
  }

  /** A callback failure is returned as 400 with the callback's message;
      nothing is signed, so the key files do not matter. */
  lemma MintFailurePassedOn(platform: Platform, files: Files, files': Files, s: IssuerService, body: Payload)
    requires DecodeBody(body).Success?
    requires CheckSubject(platform, DecodeBody(body).value).err.None?
    requires s.mint(CheckSubject(platform, DecodeBody(body).value).value).err.Some?
    ensures PostIssue(platform, files, s, body)
      == Refused(StatusBadRequest, s.mint(CheckSubject(platform, DecodeBody(body).value).value).err.value)
    ensures PostIssue(platform, files, s, body) == PostIssue(platform, files', s, body)
  {
  }

  /** The credential the issuer returns: the callback's credential with the
      issuer's DID stamped on it and the issuer's signature, written in the
      service's codec, over the stamped credential; every other field is
      as the callback left it. A signing failure is a 500. */
  lemma IssuedCredential(platform: Platform, files: Files, s: IssuerService, body: Payload)
    requires DecodeBody(body).Success?
    requires CheckSubject(platform, DecodeBody(body).value).err.None?
    requires s.mint(CheckSubject(platform, DecodeBody(body).value).value).err.None?
    ensures var m := s.mint(CheckSubject(platform, DecodeBody(body).value).value).value;
      var signed := SignBytes(platform, files, s.privateKeyUri, EncodeCredential(Stamp(m, s.did)));
      && (signed.Failure? ==> PostIssue(platform, files, s, body) == Refused(StatusInternalServerError, InternalErrorMessage))
      && (signed.Success? ==> PostIssue(platform, files, s, body) == Ok(Credential(
            m.credType, m.claims, m.subject, Signature(s.did, s.signatureCodec.encode(signed.value)))))
  {
  }

  /** The platform with the issuer's own codec in place of the struct
      codec: how a checker that reads the issuer's text would see it. */
  function WithCodec(platform: Platform, codec: TextCodec): Platform
  {
    platform.(structCodec := codec)
  }

  /** The returned credential is the stamped credential signed in place
      through its issuer field, under the issuer's codec. */
  lemma IssuedIsSignedInPlace(platform: Platform, files: Files, s: IssuerService, body: Payload)
    requires PostIssue(platform, files, s, body).Ok?
    ensures var m := s.mint(CheckSubject(platform, DecodeBody(body).value).value).value;
      var out := SignInPlace(WithCodec(platform, s.signatureCodec), files, s.privateKeyUri, Stamp(m, s.did), IssuerSlot());
      out.err.None? && out.value == PostIssue(platform, files, s, body).payload
  {
  }

  /** The issuer's signature checks: a checker using the issuer's codec
      and certificate accepts the returned credential, provided the
      callback left the issuer signature empty, and clearing it gives back
      the stamped credential. */
  lemma IssuerSignatureVerifies(platform: Platform, files: Files, s: IssuerService, cert: Bytes, body: Payload)
    requires Correct(platform.scheme) && Lossless(s.signatureCodec)
    requires KeyPair(platform, files, s.privateKeyUri, cert)
    requires PostIssue(platform, files, s, body).Ok?
    requires s.mint(CheckSubject(platform, DecodeBody(body).value).value).value.issuer.signature == ""
    ensures var c := PostIssue(platform, files, s, body).payload;
      VerifyStructSignature(WithCodec(platform, s.signatureCodec), cert, c, IssuerSlot())
        == InPlace(c.(issuer := c.issuer.Clear()), None)
  {
    var p' := WithCodec(platform, s.signatureCodec);
    var m := s.mint(CheckSubject(platform, DecodeBody(body).value).value).value;
    var stamped := Stamp(m, s.did);
    SlotsSound();
    IssuedIsSignedInPlace(platform, files, s, body);
    SignThenVerify(p', files, s.privateKeyUri, cert, stamped, IssuerSlot());
  }

  /** The issuer's signature covers the issuer DID it stamped: the same
      credential claiming any other issuer DID does not check. */
  lemma IssuerDidCovered(platform: Platform, files: Files, s: IssuerService, cert: Bytes, body: Payload, other: string)
    requires Correct(platform.scheme) && Binding(platform.scheme, EncodeCredential) && Lossless(s.signatureCodec)
    requires KeyPair(platform, files, s.privateKeyUri, cert)
    requires PostIssue(platform, files, s, body).Ok?
    requires s.mint(CheckSubject(platform, DecodeBody(body).value).value).value.issuer.signature == ""
    requires other != s.did
    ensures var c := PostIssue(platform, files, s, body).payload;
      VerifyStructSignature(WithCodec(platform, s.signatureCodec), cert, c.(issuer := c.issuer.(did := other)), IssuerSlot()).err.Some?
  {
    var p' := WithCodec(platform, s.signatureCodec);
    var m := s.mint(CheckSubject(platform, DecodeBody(body).value).value).value;
    var stamped := Stamp(m, s.did);
    var c := PostIssue(platform, files, s, body).payload;
    SlotsSound();
    IssuedIsSignedInPlace(platform, files, s, body);
    VerifiesExactlyTheSigned(p', files, s.privateKeyUri, cert, stamped, IssuerSlot(), c.(issuer := c.issuer.(did := other)));
  }

  /** A submission that does not name the upstream issuer, or names it
      without a signature, is refused once the holder's signature checks:
      nothing is resolved, minted or signed. */
  lemma MissingUpstreamRefused(platform: Platform, files: Files, store: Store, net: KeyServer, s: IssuerService,
                               files': Files, store': Store, net': KeyServer, s': IssuerService, upstream: string, body: Payload)
    requires DecodeBody(body).Success?
    requires CheckSubject(platform, DecodeBody(body).value).err.None?
    requires DecodeBody(body).value.issuer.did != upstream || DecodeBody(body).value.issuer.signature == ""
    ensures PostIssueUpstream(platform, files, store, net, s, upstream, body) == Refused(StatusUnauthorized, UpstreamRejected)
    ensures PostIssueUpstream(platform, files, store, net, s, upstream, body)
      == PostIssueUpstream(platform, files', store', net', s', upstream, body)
  {
  }

  /** An upstream signature that does not check under the upstream
      issuer's certificate is refused, and the callback never sees the
      claims: the reply is the same whatever the callback and the key. */
  lemma ForgedUpstreamRefused(platform: Platform, files: Files, store: Store, net: KeyServer, s: IssuerService,
                              files': Files, s': IssuerService, upstream: string, body: Payload)
    requires DecodeBody(body).Success?
    requires CheckSubject(platform, DecodeBody(body).value).err.None?
    requires LoadPublicKeyFromUri(store, net, upstream).Success?
    requires CheckUpstream(platform, LoadPublicKeyFromUri(store, net, upstream).value,
                           CheckSubject(platform, DecodeBody(body).value).value).err.Some?
    ensures PostIssueUpstream(platform, files, store, net, s, upstream, body) == Refused(StatusUnauthorized, UpstreamRejected)
    ensures PostIssueUpstream(platform, files, store, net, s, upstream, body)
      == PostIssueUpstream(platform, files', store, net, s', upstream, body)
  {
  }

  /** The callback runs exactly when the holder's signature checks, the
      submission names the upstream issuer with a signature, the issuer's
      certificate resolves, and that signature checks over the submission
      with both signatures cleared; it then mints from that cleared
      submission. */
  lemma UpstreamCheckedExactly(platform: Platform, files: Files, store: Store, net: KeyServer, s: IssuerService,
                               upstream: string, body: Payload)
    requires DecodeBody(body).Success?
    ensures var request := DecodeBody(body).value;
      var cleared := request.(subject := request.subject.Clear(), issuer := request.issuer.Clear());
      var passed :=
        && CheckSubject(platform, request).err.None?
        && request.issuer.did == upstream && request.issuer.signature != ""
        && LoadPublicKeyFromUri(store, net, upstream).Success?
        && CheckUpstream(platform, LoadPublicKeyFromUri(store, net, upstream).value, request.(subject := request.subject.Clear())).err.None?;
      && (passed ==> PostIssueUpstream(platform, files, store, net, s, upstream, body) == MintAndSign(platform, files, s, cleared))
      && (!passed ==> PostIssueUpstream(platform, files, store, net, s, upstream, body).Refused?)
  {
    var request := DecodeBody(body).value;
    SlotsSound();
    SubjectCheckMeaning(platform, request);
    if LoadPublicKeyFromUri(store, net, upstream).Success? {
      var key := LoadPublicKeyFromUri(store, net, upstream).value;
      assert CheckUpstream(platform, key, request.(subject := request.subject.Clear())).value
        == request.(subject := request.subject.Clear(), issuer := request.issuer.Clear());
    }
  }

  /** What the upstream check buys: when the submission carries the text
      of a signature the upstream issuer made over `card`, the check
      passes exactly when the submission, both signatures cleared, IS
      `card`, so an accepted submission asserts no claim the upstream
      issuer did not sign. */
  lemma UpstreamClaimsSigned(platform: Platform, files: Files, store: Store, net: KeyServer, s: IssuerService, upstream: string,
                             upFiles: Files, upKey: string, cert: Bytes, card: Credential, body: Payload)
    requires Correct(platform.scheme) && Binding(platform.scheme, EncodeCredential) && Lossless(platform.structCodec)
    requires LoadPublicKeyFromUri(store, net, upstream) == Success(cert)
    requires KeyPair(platform, upFiles, upKey, cert)
    requires card.issuer.signature == ""
    requires SignInPlace(platform, upFiles, upKey, card, IssuerSlot()).err.None?
    requires DecodeBody(body).Success?
    requires DecodeBody(body).value.issuer.signature == SignatureText(platform, upFiles, upKey, card, IssuerSlot())
    ensures var request := DecodeBody(body).value;
      (CheckUpstream(platform, cert, request.(subject := request.subject.Clear())).err.None? <==>
         request.(subject := request.subject.Clear(), issuer := request.issuer.Clear()) == card)
    ensures var request := DecodeBody(body).value;
      PostIssueUpstream(platform, files, store, net, s, upstream, body).Ok? ==>
        request.(subject := request.subject.Clear(), issuer := request.issuer.Clear()) == card
  {
    var request := DecodeBody(body).value;
    var x := request.(subject := request.subject.Clear());
    SlotsSound();
    SubjectCheckMeaning(platform, request);
    VerifiesExactlyTheSigned(platform, upFiles, upKey, cert, card, IssuerSlot(), x);
    assert IssuerSlot().put(x, IssuerSlot().get(x).Clear()) == request.(subject := request.subject.Clear(), issuer := request.issuer.Clear());
  }
}
