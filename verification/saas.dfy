/** `demo/saas/main.go`: a software service that opens an account from a
    form and logs users in with the account credential. */
module Saas {
  import opened Wrappers
  import opened Errors
  import opened Common
  import opened Crypto
  import opened Format
  import Issuer
  import Verifier

  const IssuerDid := "did:example:bd395203-9b81-4808-b259-7ff410aa7f73"
  const VerifierDid := "did:example:41766f26-de13-4c9f-b9f2-aa51f189f6d1"
  const CredType := "Account Credentials"
  const Port := 8085

  /** `Issuer.CreatePresentationRequest`: a form asking for a user name and
      a first and last name, in that order. */
  function IssuerRequest(): (r: PresentationRequest)
    ensures r.requestType == "iss:form" && r.issuer == "" && r.entity == Signature(IssuerDid, "")
    ensures r.fields == [PresentationField("Username", "text"), PresentationField("First Name", "text"),
                         PresentationField("Last Name", "text")]
  {
    PresentationRequest("iss:form", Localhost(Port, "/issue"), "SaaS Account Creator", CredType,
      "Create a new account for SaaS.",
      [PresentationField("Username", "text"), PresentationField("First Name", "text"), PresentationField("Last Name", "text")],
      "", Signature(IssuerDid, ""))
  }

  /** `Issuer.CreateVerifiableCredentials`: never fails; it sets the
      credential type and changes nothing else. */
  function Mint(c: Credential): (r: InPlace<Credential>)
    ensures r.err.None? && r.value.credType == CredType
    ensures r.value.(credType := c.credType) == c
  {
    InPlace(c.(credType := CredType), None)
  }

  /** `LoginVerifier.CreatePresentationRequest`: asks for an account
      credential issued by this service. */
  function LoginRequest(): (r: PresentationRequest)
    ensures r.requestType == "" && r.issuer == IssuerDid && r.entity == Signature(VerifierDid, "")
  {
    PresentationRequest("", Localhost(Port, "/verify/login"), "SaaS Login", CredType,
      "Creates a new session for the provided account", [], IssuerDid, Signature(VerifierDid, ""))
  }

  /** It only logs, so it accepts every credential. */
  function Accept(c: Credential): (r: Option<Error>)
    ensures r.None?
  {
    None
  }

  function IssuerService(codec: TextCodec): (s: Issuer.IssuerService)
    ensures s.did == IssuerDid && s.privateKeyUri == "saas/keys/issuer.private.key"
  {
    Issuer.IssuerService(Mint, IssuerDid, "saas/keys/issuer.private.key", codec)
  }

  /** Served under `/verify/login`. */
  function LoginService(): (s: Verifier.VerifierService)
    ensures s.request == LoginRequest() && s.privateKeyUri == "saas/keys/verifier.private.key"
  {
    Verifier.VerifierService(LoginRequest(), Accept, "saas/keys/verifier.private.key")
  }

  /** The account credential holds exactly what the user typed into the
      form, and the holder's signature pair as it came. */
  lemma AccountKeepsTypedFields(c: Credential)
    ensures Mint(c).value.claims == c.claims && Mint(c).value.subject == c.subject
  {
  }

  /** The two services of the SaaS server listen on different URLs. */
  lemma DistinctServiceUrls()
    ensures IssuerRequest().serviceUrl != LoginRequest().serviceUrl
  {
    LocalhostInjective(Port, "/issue", Port, "/verify/login");
  }
}
