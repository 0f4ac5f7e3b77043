/** `demo/university/main.go`: the university issues student ID cards to
    users who log in with a form, and runs a verifier that accepts any
    student ID card it issued. */
module University {
  import opened Wrappers
  import opened Errors
  import opened Common
  import opened Crypto
  import opened Format
  import Issuer
  import Verifier

  const IssuerDid := "did:example:e98e0ae2-5096-4de5-8096-97df8e50cf41"
  const VerifierDid := "did:example:189a2384-cc88-4a72-8c70-c2b7aedda6b8"
  const CredType := "Student ID Card"
  const IssuerKeyUri := "university/keys/issuer.private.key"

  /** The `-port` flag's default. */
  const DefaultPort := 8084

  const BadLogin := "invalid username and/or password"

  /** The fixed claims of the one student the demo knows. */
  const StudentClaims: map<string, string> := map[
    "First Name" := "Alice",
    "Last Name" := "Student",
    "Student Number" := "0123456",
    "Email" := "alice@university.ca"]

  /** `Verifier.CreatePresentationRequest`: a verifier request (no type)
      for a student ID card issued by the university, signed by the
      university's verifier. */
  function VerifierRequest(port: nat): (r: PresentationRequest)
    ensures r.requestType == "" && r.fields == [] && r.issuer == IssuerDid
    ensures r.entity == Signature(VerifierDid, "")
  {
    PresentationRequest("", Localhost(port, "/verify"), "University Verifier", CredType,
      "Records student information for the purpose of attendance tracking for the exam.",
      [], IssuerDid, Signature(VerifierDid, ""))
  }

  /** `Verifier.VerifyCredentials`: it only logs, so it accepts every
      credential. */
  function Accept(c: Credential): (r: Option<Error>)
    ensures r.None?
  {
    None
  }

  /** `Issuer.CreatePresentationRequest`: a form asking for a user name and
      a password, signed by the university's issuer. */
  function IssuerRequest(port: nat): (r: PresentationRequest)
    ensures r.requestType == "iss:form" && r.issuer == ""
    ensures r.fields == [PresentationField("Username", "text"), PresentationField("Password", "password")]
    ensures r.entity == Signature(IssuerDid, "")
  {
    PresentationRequest("iss:form", Localhost(port, "/issue"), "University Issuer", CredType,
      "Authenticate using login information to create a student ID card.",
      [PresentationField("Username", "text"), PresentationField("Password", "password")],
      "", Signature(IssuerDid, ""))
  }

  /** `Issuer.CreateVerifiableCredentials`: the demo's login check. A wrong
      login is refused and the credential is left as it was; a right one
      replaces the claims (the login itself included) with the student's
      and sets the credential type. */
  function Mint(c: Credential): (r: InPlace<Credential>)
    ensures r.err.Some? <==> Get(c.claims, "Username") != "username" || Get(c.claims, "Password") != "password"
    ensures r.err.Some? ==> r.err.value == BadLogin && r.value == c
    ensures r.err.None? ==> r.value == c.(credType := CredType, claims := StudentClaims)
  {
    if Get(c.claims, "Username") != "username" || Get(c.claims, "Password") != "password" then
      InPlace(c, Some(BadLogin))
    else InPlace(c.(credType := CredType, claims := StudentClaims), None)
  }

  /** The demo's issuer, signing its replies in `codec`. */
  function IssuerService(codec: TextCodec): (s: Issuer.IssuerService)
    ensures s.did == IssuerDid && s.privateKeyUri == IssuerKeyUri
  {
    Issuer.IssuerService(Mint, IssuerDid, IssuerKeyUri, codec)
  }

  function VerifierService(port: nat): (s: Verifier.VerifierService)
    ensures s.request == VerifierRequest(port) && s.privateKeyUri == "university/keys/verifier.private.key"
  {
    Verifier.VerifierService(VerifierRequest(port), Accept, "university/keys/verifier.private.key")
  }

  /** The form asks for exactly what the login check reads: filling its
      fields with the demo login gets a student ID card, whose claims no
      longer hold the login, and the holder's and issuer's signature pairs
      pass through unchanged. */
  lemma FormLoginMints(port: nat, c: Credential)
    requires forall f :: f in IssuerRequest(port).fields ==> f.name in c.claims
    requires c.claims[IssuerRequest(port).fields[0].name] == "username"
    requires c.claims[IssuerRequest(port).fields[1].name] == "password"
    ensures Mint(c).err.None?
    ensures Mint(c).value.credType == CredType && Mint(c).value.claims == StudentClaims
    ensures "Username" !in Mint(c).value.claims && "Password" !in Mint(c).value.claims
    ensures Mint(c).value.subject == c.subject && Mint(c).value.issuer == c.issuer
  {
    assert IssuerRequest(port).fields[0] in IssuerRequest(port).fields;
    assert IssuerRequest(port).fields[1] in IssuerRequest(port).fields;
  }

  /** The two services of one server listen on different URLs. */
  lemma DistinctServiceUrls(port: nat)
    ensures IssuerRequest(port).serviceUrl != VerifierRequest(port).serviceUrl
  {
    LocalhostInjective(port, "/issue", port, "/verify");
  }
}
