/** `demo/bus/main.go`: the bus company turns a university student ID card
    into a bus pass, and checks bus passes. */
module Bus {
  import opened Wrappers
  import opened Errors
  import opened Common
  import opened Crypto
  import opened Format
  import University
  import Issuer
  import Did
  import Http
  import Verifier

  const IssuerDid := "did:example:d2f54564-cbf4-4574-904f-a49e3a6a2f1f"
  const VerifierDid := "did:example:c6970460-f6b0-4eaa-9e96-75418fb8c4f9"
  const CredType := "Bus Pass"
  const Port := 8086
  const ExpirationDate := "05-01-2022"
  const IssuerKeyUri := "bus/keys/issuer.private.key"

  /** `Issuer.CreatePresentationRequest`: asks for a credential issued by
      the university. */
  function IssuerRequest(): (r: PresentationRequest)
    ensures r.requestType == "iss:cred" && r.issuer == University.IssuerDid && r.fields == []
    ensures r.entity == Signature(IssuerDid, "")
  {
    PresentationRequest("iss:cred", Localhost(Port, "/issue"), "Bus Pass Creator", CredType,
      "Create a new bus pass using your student ID card.", [],
      "did:example:e98e0ae2-5096-4de5-8096-97df8e50cf41", Signature(IssuerDid, ""))
  }

  /** `Issuer.CreateVerifiableCredentials`: a new credential, never an
      error. It keeps the holder's signature pair, names the bus issuer
      with no signature, and holds exactly the holder's first and last
      names (empty when missing) and the fixed expiry date. */
  function Mint(c: Credential): (r: InPlace<Credential>)
    ensures r.err.None?
    ensures r.value.credType == CredType
    ensures r.value.subject == c.subject && r.value.issuer == Signature(IssuerDid, "")
    ensures r.value.claims.Keys == {"First Name", "Last Name", "Expiration Date"}
    ensures r.value.claims["First Name"] == Get(c.claims, "First Name")
    ensures r.value.claims["Last Name"] == Get(c.claims, "Last Name")
    ensures r.value.claims["Expiration Date"] == ExpirationDate
  {
    var firstName := Get(c.claims, "First Name");
    var lastName := Get(c.claims, "Last Name");
    InPlace(Credential(CredType,
                       map["First Name" := firstName, "Last Name" := lastName, "Expiration Date" := ExpirationDate],
                       c.subject, Signature(IssuerDid, "")),
            None)
  }

  /** The bus pass checker: asks for a bus pass issued by the bus company. */
  function VerifierRequest(): (r: PresentationRequest)
    ensures r.requestType == "" && r.issuer == IssuerDid && r.entity == Signature(VerifierDid, "")
  {
    PresentationRequest("", Localhost(Port, "/verify/check"), "Bus Pass Check", CredType,
      "Verifies the bus pass is valid and not expired.", [], IssuerDid, Signature(VerifierDid, ""))
  }

  /** It only logs, so it accepts every credential. */
  function Accept(c: Credential): (r: Option<Error>)
    ensures r.None?
  {
    None
  }

  function IssuerService(codec: TextCodec): (s: Issuer.IssuerService)
    ensures s.did == IssuerDid && s.privateKeyUri == IssuerKeyUri
  {
    Issuer.IssuerService(Mint, IssuerDid, IssuerKeyUri, codec)
  }

  /** Served under `/verify/check`. */
  function CheckService(): (s: Verifier.VerifierService)
    ensures s.request == VerifierRequest() && s.privateKeyUri == "bus/keys/verifier.private.key"
  {
    Verifier.VerifierService(VerifierRequest(), Accept, "bus/keys/verifier.private.key")
  }

  /** A student ID card the university minted becomes a bus pass for the
      same student, held by the same holder. */
  lemma StudentCardBecomesPass(c: Credential)
    requires University.Mint(c).err.None?
    ensures var pass := Mint(University.Mint(c).value).value;
      && pass.claims == map["First Name" := "Alice", "Last Name" := "Student", "Expiration Date" := ExpirationDate]
      && pass.subject == c.subject
  {
  }

  /** The two services of the bus server listen on different URLs. */
  lemma DistinctServiceUrls()
    ensures IssuerRequest().serviceUrl != VerifierRequest().serviceUrl
  {
    LocalhostInjective(Port, "/issue", Port, "/verify/check");
  }

  /** As written, the bus issuer trusts whatever names a submission
      asserts: a credential that merely CLAIMS to come from the university,
      with any text at all as the university's signature, becomes a bus
      pass carrying the names the holder typed, once the holder's own
      signature checks and the bus key signs. */
  lemma ForgedStudentCardAccepted(platform: Platform, files: Files, codec: TextCodec, body: Http.Payload, junk: string)
    requires Issuer.DecodeBody(body).Success?
    requires Issuer.DecodeBody(body).value.issuer == Signature(University.IssuerDid, junk)
    requires Issuer.CheckSubject(platform, Issuer.DecodeBody(body).value).err.None?
    requires SignBytes(platform, files, IssuerKeyUri,
               EncodeCredential(Mint(Issuer.CheckSubject(platform, Issuer.DecodeBody(body).value).value).value)).Success?
    ensures var r := Issuer.PostIssue(platform, files, IssuerService(codec), body);
      && r.Ok?
      && r.payload.claims["First Name"] == Get(Issuer.DecodeBody(body).value.claims, "First Name")
      && r.payload.claims["Last Name"] == Get(Issuer.DecodeBody(body).value.claims, "Last Name")
  {
    var request := Issuer.DecodeBody(body).value;
    Issuer.SubjectCheckMeaning(platform, request);
    var pass := Mint(Issuer.CheckSubject(platform, request).value).value;
    assert Issuer.Stamp(pass, IssuerDid) == pass;
  }

  /** The bus issuer with the upstream check: it mints a pass only from a
      credential the university signed. */
  function PostIssueChecked(platform: Platform, files: Files, store: Did.Store, net: Did.KeyServer,
                            codec: TextCodec, body: Http.Payload): (r: Http.Reply<Credential>)
    ensures r.Ok? ==> r.payload.credType == CredType && r.payload.issuer.did == IssuerDid
    ensures r.Ok? ==> Issuer.DecodeBody(body).Success? && Issuer.DecodeBody(body).value.issuer.did == University.IssuerDid
  {
    Issuer.PostIssueUpstream(platform, files, store, net, IssuerService(codec), University.IssuerDid, body)
  }

  /** The forgery above is refused by the checked issuer: a claimed
      university signature that is missing, or that does not check under
      the university's certificate, gets 401 and no pass. */
  lemma ForgedStudentCardRefused(platform: Platform, files: Files, store: Did.Store, net: Did.KeyServer,
                                 codec: TextCodec, body: Http.Payload, junk: string)
    requires Issuer.DecodeBody(body).Success?
    requires Issuer.DecodeBody(body).value.issuer == Signature(University.IssuerDid, junk)
    requires Issuer.CheckSubject(platform, Issuer.DecodeBody(body).value).err.None?
    requires junk == "" ||
      (Did.LoadPublicKeyFromUri(store, net, University.IssuerDid).Success? &&
       Issuer.CheckUpstream(platform, Did.LoadPublicKeyFromUri(store, net, University.IssuerDid).value,
                            Issuer.CheckSubject(platform, Issuer.DecodeBody(body).value).value).err.Some?)
    ensures PostIssueChecked(platform, files, store, net, codec, body)
      == Http.Refused(Http.StatusUnauthorized, Issuer.UpstreamRejected)
  {
  }

  /** With the check, a pass carries the names of a card the university
      signed: if the submission holds the university's signature over
      `card`, any pass granted has `card`'s first and last names,
      whatever names the holder put beside it. */
  lemma PassNamesAreSigned(platform: Platform, files: Files, store: Did.Store, net: Did.KeyServer, codec: TextCodec,
                           uniFiles: Files, cert: Bytes, card: Credential, body: Http.Payload)
    requires Correct(platform.scheme) && Binding(platform.scheme, EncodeCredential) && Lossless(platform.structCodec)
    requires Did.LoadPublicKeyFromUri(store, net, University.IssuerDid) == Success(cert)
    requires KeyPair(platform, uniFiles, University.IssuerKeyUri, cert)
    requires card.issuer.signature == ""
    requires SignInPlace(platform, uniFiles, University.IssuerKeyUri, card, IssuerSlot()).err.None?
    requires Issuer.DecodeBody(body).Success?
    requires Issuer.DecodeBody(body).value.issuer.signature == SignatureText(platform, uniFiles, University.IssuerKeyUri, card, IssuerSlot())
    ensures var r := PostIssueChecked(platform, files, store, net, codec, body);
      r.Ok? ==> r.payload.claims == map["First Name" := Get(card.claims, "First Name"),
                                        "Last Name" := Get(card.claims, "Last Name"),
                                        "Expiration Date" := ExpirationDate]
  {
    Issuer.UpstreamClaimsSigned(platform, files, store, net, IssuerService(codec), University.IssuerDid,
                                uniFiles, University.IssuerKeyUri, cert, card, body);
    Issuer.UpstreamCheckedExactly(platform, files, store, net, IssuerService(codec), University.IssuerDid, body);
  }

  /** The check only adds refusals: a pass the checked issuer grants is
      the pass the issuer as written grants for the same submission. */
  lemma CheckedAgrees(platform: Platform, files: Files, store: Did.Store, net: Did.KeyServer, codec: TextCodec, body: Http.Payload)
    requires PostIssueChecked(platform, files, store, net, codec, body).Ok?
    ensures PostIssueChecked(platform, files, store, net, codec, body) == Issuer.PostIssue(platform, files, IssuerService(codec), body)
  {
    var request := Issuer.DecodeBody(body).value;
    Issuer.UpstreamCheckedExactly(platform, files, store, net, IssuerService(codec), University.IssuerDid, body);
    Issuer.SubjectCheckMeaning(platform, request);
    var cleared := request.(subject := request.subject.Clear(), issuer := request.issuer.Clear());
    assert Mint(cleared) == Mint(Issuer.CheckSubject(platform, request).value);
  }
}
