# Verifiable credentials demo: the trust protocol in Dafny

This project models the trust protocol of the VerifiableCredentialsDemo
repository. The protocol has five parts:

- **Self-referential signing** (`common/crypto.go`). A record carries its own
  `Signature` field. `SignStruct` signs the record's encoding and writes the
  signature text into that field. `VerifyStructSignature` first clears the
  field in place, then decodes the text, loads the key from the certificate
  bytes, and checks the signature against the record with the field cleared.
  So a signature is valid only if it was made while the field was empty.
- **DID resolution** (`common/did.go`). A DID names a document file under
  `../blockchain`. The document names the host and route that serve the
  owner's certificate. DID endorsement (`tools/did_signer/main.go`) signs a
  document with its endorsement map removed. It then files the signature
  under the endorser's DID.
- **The issuer** (`issuer/issuer.go`). It checks the holder's signature with
  the holder's DID text as the certificate. It then runs its role callback,
  stamps its own DID on the result and signs it.
- **The verifier** (`verifier/verifier.go`). It signs the presentation
  request it hands out. It checks a presented credential in a fixed order:
  the holder's signature, then the issuer's key, then the issuer's
  signature, then the role callback. Each failure has its own status.
- **The wallet** (`user/server/handlers/*`). It sorts every HTTP outcome
  into one of three error kinds. It queries and checks a service's
  presentation request, asks issuers for credentials, keeps them keyed by
  issuer DID, and presents them to verifiers. The demo roles (university,
  bus company, SaaS) are the callbacks the issuer and the verifier run.

How the model is built:

- Records are immutable datatypes, and every operation is a pure function.
  A Go function that mutates through a pointer returns the new value
  together with its error (`Crypto.InPlace`).
- A `*Signature` pointer into the record being signed is a `Common.Slot`: a
  getter, a setter and the record's encoding.
- The canonical encoding is a concrete `Json` tree. Its `omitempty` members
  are left out exactly when Go leaves them out, so a cleared signature and
  an absent one encode alike. A `JStringMap` and a `JObject` of string
  members can print alike, but one encoder always writes the same kind of
  node at each member, so two encodings of one record type are two byte
  strings.
- Cryptography is abstract. A `Crypto.Scheme` gives key pairs, signing and
  checking. It is constrained by two predicates: `Correct` (a signature
  checks under the matching public key) and `Binding` (among the encodings
  of one record type, a signature checks only for the message it was made
  over). These are `requires` of the lemmas that need them.
- PEM, PKCS#8 and X.509 parsing are function-valued parameters
  (`Crypto.Parsers`).
- The text form of a signature is a `Crypto.TextCodec` parameter, with a
  `Lossless` predicate. `common/crypto.go` writes unpadded base64 (section 4
  of RFC 4648, without the padding of section 3.2). `issuer/issuer.go:67`
  writes hex, so the issuer's codec is a field of the service. The
  end-to-end lemmas in `Protocol` state the condition under which a
  verifier can read what an issuer wrote: both use the same codec. The
  corrected issuer's upstream check (`Issuer.PostIssueUpstream`) reads the
  upstream signature as the verifier does, under the same condition.
- Files, the DID document store, the key server and the wallet's HTTP client
  are all parameters: maps or functions from request to answer.
- "X is never run" is stated as noninterference. The result is the same
  whatever the oracle that X would have consulted.

Where the code revisions disagree:

- `issuer/issuer.go` and `verifier/verifier.go` are older revisions. They use
  the flat fields `SubjectDID`/`SubjectSignature`/`IssuerDID`/`IssuerSig` and
  call `SignStruct` with a different signature.
- The model maps those flat fields onto the `subject` and `issuer`
  `Signature` pairs of `common/common.go`. It maps `VerifierDID` and
  `VerifierSignature` onto the request's `entity` signature.
- It maps the issuer's `IssueRequest` onto the credential that the wallet
  posts.
- Clearing a field by hand and then checking is modelled as
  `VerifyStructSignature` clearing it in place. The two are the same
  computation.
- `PresentationRequest`, `PresentationField` and `CredType` are not
  declared in the files modelled. They are rebuilt from their uses in the
  demos and in `get_query.go`. Their JSON member names are chosen here, and
  their round trips are proved.
- `user/server/handlers/get_query.go:73` passes `&pres.Entity.Signature`,
  a `*string`, where `VerifyStructSignature` (`common/crypto.go:37`) takes
  a `*Signature`, so that line does not compile as written. The model
  checks through the `entity` signature pair itself (`Common.EntitySlot`),
  which is what the call evidently means.
- The code uses two signature text encodings: base64 in
  `common/crypto.go:33,41` and hex in `issuer/issuer.go:67`. The model
  takes a codec parameter wherever the choice matters.

## Model

| member | source | states |
|---|---|---|
| Errors.Chain | common/common.go:17-19 | a chained error is the context, a newline and a tab, then the cause's text unchanged |
| Errors.ChainKeepsCause | common/common.go:17-19 | under one context, two chained errors are equal iff their causes are equal, so the cause can be read back |
| Errors.ChainAllLayout | common/common.go:17-19 | nested chaining puts the outermost context first, each inner context in turn, and the original cause as the suffix |
| Common.EncodeSignature | common/common.go:5-8 | the signer `did` is always encoded, even when empty; the text is encoded iff non-empty, so a cleared signature encodes exactly like an absent one |
| Common.SignatureRoundTrip | common/common.go:5-8 | decoding an encoded signature gives it back; a missing `signature` member reads as empty text |
| Common.EncodeCredential | common/common.go:10-15 | the credential's encoding holds its claims and both signature pairs, each as its own member |
| Common.CredentialRoundTrip | common/common.go:10-15 | decoding an encoded credential gives the credential back, so the encoding is injective |
| Common.ClearingOneKeepsTheOther | common/common.go:10-15 | clearing the subject signature leaves the issuer signature, text included, in the signed bytes, and the other way round |
| Common.SlotsSound | common/common.go:5-15 | the subject, issuer and entity fields behave as record fields (read what was written, later write wins, rewriting changes nothing), and their records encode injectively |
| Common.FieldRoundTrip | demo/university/main.go:49-58 | decoding an encoded presentation field gives it back |
| Common.FieldListRoundTrip | demo/university/main.go:49-58 | decoding an encoded field list gives back the same fields in the same order |
| Common.EncodeRequest | demo/university/main.go:42-63 | an encoded request has at least six members, and the entity signature is always its last member |
| Common.RequestRoundTrip | user/server/handlers/get_query.go:79-89 | decoding an encoded presentation request gives it back, whichever `omitempty` members were left out |
| Crypto.LoadPrivateKey | common/crypto.go:74-100 | a key loads iff the file exists, holds a PEM block, parses as PKCS#8 and is RSA; otherwise the failure is one of read, no PEM block, not PKCS#8, not RSA private |
| Crypto.LoadPublicKey | common/crypto.go:102-122 | certificate bytes give a key iff they hold a PEM block that parses as a certificate with an RSA key; otherwise no PEM block, not a certificate, or not RSA public |
| Crypto.KeyFailuresDistinct | common/crypto.go:74-122 | two key failures have the same error text iff they are the same failure, wrapped parser cause included |
| Crypto.SignBytes | common/crypto.go:16-31 | signing succeeds iff the private key loads and the scheme signs; a key failure is reported chained under "error loading private key from file" |
| Crypto.SignStruct | common/crypto.go:16-35 | only `sig.Signature` changes, and only on success, where it becomes the codec text of the signature over the record as it was when the call started |
| Crypto.SignInPlace | common/crypto.go:16-35 | signing through a field of the record covers the record as it was and stores the text in that field; a failure leaves the record unchanged |
| Crypto.VerifyStructSignature | common/crypto.go:37-63 | the field is cleared whatever the outcome; undecodable text fails before any key is parsed; success iff the text decodes, the certificate gives a key, and the signature checks against the record with the field cleared |
| Crypto.VerifyLeavesFieldCleared | common/crypto.go:37-39 | after verification the field is empty, its signer DID is kept, and putting the old signature back gives the original record |
| Crypto.SignThenVerify | common/crypto.go:16-63 | a record signed while its field was empty verifies under the matching certificate, and verification gives back the record as signed |
| Crypto.VerifiesExactlyTheSigned | common/crypto.go:51-60 | tamper detection: a record carrying a signature made over `r` verifies iff, with its field cleared, it equals `r`; any other change makes the check fail |
| Crypto.SignedUnclearedNeverVerifies | common/crypto.go:37-57 | a record signed while its field still held text never verifies, because the check looks at the record with the field cleared |
| Did.EncodeDocument | common/did.go:12-17 | name, domain and route are always encoded; the signatures map is encoded iff it has entries |
| Did.DocumentRoundTrip | common/did.go:12-17 | decoding an encoded document gives it back, except that an empty signatures map comes back absent; nothing else changes |
| Did.FullUriIsJson | common/did.go:19-21 | whatever the uri, the document path ends in ".json" |
| Did.FullUriPlain | common/did.go:19-21 | a uri without slashes names "../blockchain/<uri>.json" |
| Did.FullUriInjective | common/did.go:19-21 | different slash-free uris name different document files |
| Did.LoadDocument | common/did.go:23-37 | a missing file gives the chained open error and no document; a file that is not JSON, or whose JSON is not a document, gives the chained decode error carrying the parser's cause; otherwise the decoded document |
| Did.SaveDocument | common/did.go:69-82 | saving writes the document's file only; every other file keeps its content |
| Did.SaveThenLoad | common/did.go:23-82 | save then load with the same uri gives the document back, up to an empty signatures map |
| Did.SaveKeepsOthers | common/did.go:69-82 | saving one document leaves every other document loading as before |
| Did.KeyUrlPlain | common/did.go:40 | for a host and a route that are single path elements, the key URL is "http://" + domain + "/" + route |
| Paths.JoinKeepsLastName | common/did.go:20 | `path.Join` keeps a final element that ends in a slash-free name of more than two characters |
| Paths.CleanIdempotent | common/did.go:40 | `path.Clean`, which `path.Join` applies, is idempotent |
| Did.LoadPublicKeyFromDocument | common/did.go:39-58 | a transport error or any non-200 status gives an error and no key; on a 200 the body is returned unchanged as the key bytes |
| Did.LoadPublicKeyFromUri | common/did.go:60-67 | a document load failure gives the chained error; otherwise the result is the fetch for the loaded document |
| Did.NoFetchWithoutDocument | common/did.go:60-67 | when the document does not load, nothing is fetched: the result fails and is the same for any key server |
| Did.OnlyKeyUrlFetched | common/did.go:39-67 | only the key server's answer for the document's own key URL affects the result |
| DidSigner.RunAsWritten | tools/did_signer/main.go:9-33 | the tool as written: a load failure gives the chained load error, and a panic happens only on a loaded document with no signatures map |
| DidSigner.Run | tools/did_signer/main.go:9-33 | with a nil map read as empty: never panics; writes iff the document loads and signing succeeds; load and signing failures give their chained errors and nothing is saved |
| DidSigner.RunEndorses | tools/did_signer/main.go:15-25 | after a run the document keeps its name, domain and route; the endorser's DID maps to the new signature; the key set is the old one plus the endorser; every other entry is unchanged |
| DidSigner.RunTouchesOnlyTheDocument | tools/did_signer/main.go:27 | a run rewrites only the document's own file |
| DidSigner.EndorsementIgnoresOthers | tools/did_signer/main.go:15-19 | the endorsement is computed over the document with its map removed, so it does not depend on the endorsements already present |
| DidSigner.EndorsementVerifies | tools/did_signer/main.go:15-25 | the stored endorsement decodes and checks under the endorser's certificate against the reloaded document with its map removed |
| DidSigner.AsWrittenPanicsOnUnendorsed | tools/did_signer/main.go:15-24 | on a document with no signatures map, the tool as written panics where the corrected run writes |
| DidSigner.SavedUnendorsedHasNoMap | common/did.go:16 | a document saved with no endorsements loads back with no map, so the tool as written cannot endorse it |
| DidSigner.AsWrittenAgrees | tools/did_signer/main.go:9-33 | wherever the tool as written does not panic, it agrees with the corrected run |
| Issuer.PostIssue | issuer/issuer.go:27-69 | an undecodable body is a 400; every refusal is 400, 401 or 500; a returned credential names the issuer's DID |
| Issuer.UndecodableRefused | issuer/issuer.go:30-36 | an undecodable body is a 400, and nothing is checked or signed: the reply is the same whatever the keys, files or service |
| Issuer.SubjectCheckMeaning | issuer/issuer.go:38-43 | the holder's signature is checked over the request with it cleared, under the certificate that is the holder's DID text |
| Issuer.SubjectFailureStops | issuer/issuer.go:43-48 | a holder signature that fails gives 401, and the callback is never run: the reply is the same for any callback, key or files |
| Issuer.MintFailurePassedOn | issuer/issuer.go:50-55 | a callback error gives 400 with the callback's message, and nothing is signed |
| Issuer.IssuedCredential | issuer/issuer.go:57-68 | a signing failure is a 500; on success the reply is the callback's credential with the issuer DID stamped and the codec text of the signature over the stamped credential |
| Issuer.IssuedIsSignedInPlace | issuer/issuer.go:57-67 | the returned credential is the stamped credential signed through its issuer field under the issuer's codec |
| Issuer.IssuerSignatureVerifies | issuer/issuer.go:57-68 | a checker using the issuer's codec and certificate accepts the returned credential, and clearing it gives back the stamped credential |
| Issuer.IssuerDidCovered | issuer/issuer.go:57-59 | the issuer DID is stamped before signing: the same credential claiming any other issuer DID does not verify |
| Issuer.MintAndSign | issuer/issuer.go:50-68 | a callback error is a 400 with its message; a returned credential has the callback's type, claims and holder pair and names the issuer's DID |
| Issuer.PostIssueUpstream | issuer/issuer.go:38-68 | the corrected pipeline: a returned credential came from a submission that names the upstream issuer and carries a signature; every refusal is 400, 401 or 500 |
| Issuer.MissingUpstreamRefused | issuer/issuer.go:38-55 | with the upstream check, a submission that does not name the upstream issuer, or names it without a signature, is a 401 before anything is resolved, minted or signed |
| Issuer.ForgedUpstreamRefused | issuer/issuer.go:38-55 | with the upstream check, an upstream signature that does not check under the upstream certificate is a 401, and the callback never runs |
| Issuer.UpstreamCheckedExactly | issuer/issuer.go:38-68 | with the upstream check, the callback runs exactly when the holder signature, the upstream name and signature, the key resolution and the upstream signature all pass, and it mints from the submission with both signatures cleared |
| Issuer.UpstreamClaimsSigned | issuer/issuer.go:38-55 | with the upstream check, a submission carrying the upstream issuer's signature over a card passes iff, both signatures cleared, it is that card |
| Verifier.GetVerify | verifier/verifier.go:30-42 | a signing failure gives 500; otherwise the request is signed as built and the text is stored in the entity signature only afterwards |
| Verifier.HandedOutRequestVerifies | verifier/verifier.go:30-41 | a handed-out request built with an empty entity signature verifies under the verifier's certificate; one built with text never does |
| Verifier.PostVerify | verifier/verifier.go:44-94 | an undecodable credential is a 400; every refusal is 400, 401 or 500 |
| Verifier.AcceptedExactly | verifier/verifier.go:44-93 | success iff all four steps pass in order: holder signature, issuer key resolution, issuer signature over the credential with both signatures cleared, callback |
| Verifier.SubjectStepClears | verifier/verifier.go:55-60 | the holder step passes on the credential with only the subject signature cleared |
| Verifier.IssuerStepClears | verifier/verifier.go:75-80 | after the holder step, the issuer step leaves both signatures cleared |
| Verifier.IssuerCheckMeaning | verifier/verifier.go:75-80 | the issuer step checks exactly the issuer's text against the credential with both signatures cleared |
| Verifier.SubjectFailureStops | verifier/verifier.go:55-65 | a holder-signature failure is a 401; the issuer DID is never resolved and the callback never runs |
| Verifier.KeyFailureIsInternal | verifier/verifier.go:67-73 | an unresolvable issuer key is a 500, not a 401, and the callback never runs |
| Verifier.IssuerFailureStops | verifier/verifier.go:75-85 | an issuer signature that fails gives 401, and the callback never runs |
| Verifier.CallbackDecides | verifier/verifier.go:87-93 | once both signatures check, the callback decides: its error is a 400 with its message, and none is the success reply |
| Http.ErrorTextRoundTrip | common/http.go:34-38 | the message of an error response reaches a caller that decodes it intact |
| Http.SuccessHasNoErrorText | common/http.go:28-32 | a success body carries no error text |
| CustomErrors.ErrorType.Ordinal | user/server/handlers/custom_error.go:3-7 | each kind's integer is below 3 |
| CustomErrors.OrdinalsDistinct | user/server/handlers/custom_error.go:3-7 | the three kinds are distinct, with values 0, 1 and 2 |
| CustomErrors.NoError | user/server/handlers/custom_error.go:14-18 | kind NoError with an empty message |
| CustomErrors.ClientError | user/server/handlers/custom_error.go:20-25 | kind ClientError with the message kept verbatim |
| CustomErrors.InternalError | user/server/handlers/custom_error.go:27-32 | kind InternalError with the text "An internal error occurred." |
| CustomErrors.Answer | user/server/handlers/post_issue.go:29-39 | a client error is a 400 with its message; an internal error is a 500 with the generic text; otherwise the success reply |
| CustomErrors.AnswerCarriesClientMessage | user/server/handlers/post_issue.go:30-37 | a client error's message reaches the front end intact; an internal error's own text never does |
| WalletClient.SendRequest | user/server/handlers/common.go:14-47 | a build or transport failure is internal with no body; a 200 gives its body with NoError; a 500 is internal whatever the server said; any other status is a client error with the server's `error` text; a body is returned iff the kind is NoError |
| WalletClient.RefusalClassified | user/server/handlers/common.go:31-43 | a service's refusal, as sent, reaches the wallet as internal for a 500 and as a client error with the service's message otherwise |
| WalletClient.LoadCredentials | user/server/handlers/common.go:49-58 | the wallet loads as the decoded map or as a chained error; a file holding `null` loads without error and holds no credentials |
| WalletClient.SaveCredentials | user/server/handlers/post_issue.go:99-100 | the saved wallet loads back as the map that was saved |
| WalletQuery.GetQuery | user/server/handlers/get_query.go:44-96 | a failure is never NoError; the send's error kind is passed on unchanged; an undecodable body is ClientError("Invalid URL.") |
| WalletQuery.GetQueryHandler | user/server/handlers/get_query.go:24-42 | an empty url is a 502 "missing required parameter 'url'"; the reply is a 200 iff the url is non-empty and the query succeeds |
| WalletQuery.EmptyUrlNoFetch | user/server/handlers/get_query.go:25-29 | an empty url is refused before any fetch: the reply is the same whatever the network, documents or keys |
| WalletQuery.FailureAnswered | user/server/handlers/get_query.go:31-39 | a failed query is answered with 400 and the client message, or 500 with the generic text |
| WalletQuery.ResolutionFailureIsInternal | user/server/handlers/get_query.go:61-71 | a document or key resolution failure is InternalError, and the signature and the endorsement are never checked |
| WalletQuery.EntityFailureRefused | user/server/handlers/get_query.go:73-77 | a failing entity signature gives ClientError("Entity cannot be verified.") |
| WalletQuery.QueryDescribes | user/server/handlers/get_query.go:79-93 | a successful query copies type, URL, DID, name, credential type, description, fields and issuer from the request and the domain from the document; it is trusted iff an issuer is named and that issuer endorsed the document |
| WalletQuery.NoIssuerNotTrusted | user/server/handlers/get_query.go:91-93 | without an issuer the service is not trusted, and the endorsement check is never consulted |
| WalletIssue.IssueRequest | user/server/handlers/post_issue.go:42-68 | "iss:form" gives the DID file as subject DID, no signature, and exactly the typed fields, or InternalError without the file; any other type loads the wallet (failure is internal) and takes the stored credential, with ClientError("No credential found for ID.") when it is missing |
| WalletIssue.PostIssue | user/server/handlers/post_issue.go:42-107 | the corrected handler, which reads a `null` wallet file as empty: every failure leaves the wallet as it was; success is exactly NoError, needs a readable wallet and leaves one; request failures are returned unchanged |
| WalletIssue.Requested | user/server/handlers/post_issue.go:42-90 | the steps before the wallet file is read end in the issued credential or in a failure kind that is never NoError; request failures are passed on unchanged |
| WalletIssue.PostIssueAsWritten | user/server/handlers/post_issue.go:92-99 | as written, the handler panics only on a wallet file holding `null`, and only after the issuer has issued |
| WalletIssue.AsWrittenPanicsOnNullWallet | user/server/handlers/post_issue.go:92-99 | with a `null` wallet file every issue the issuer grants panics, where the corrected handler files the credential as the wallet's only entry |
| WalletIssue.AsWrittenAgrees | user/server/handlers/post_issue.go:42-107 | wherever the handler as written does not panic, it agrees with the corrected one, and it cannot panic unless the file holds `null` |
| WalletIssue.PostIssueHandler | user/server/handlers/post_issue.go:19-40 | an undecodable body is a 400 and the wallet is kept; the reply is 200 iff the issue succeeds; any non-200 reply leaves the wallet unchanged |
| WalletIssue.IssuerErrorPassedOn | user/server/handlers/post_issue.go:76-82 | the issuer server's error kind and message are returned unchanged, and the wallet is untouched |
| WalletIssue.WalletUpdate | user/server/handlers/post_issue.go:92-100 | on success the wallet maps the returned credential's issuer DID to it, replacing an earlier one; every other entry is unchanged |
| WalletIssue.FormRequestSigned | user/server/handlers/post_issue.go:45-53 | a form request carries the DID file as subject DID, the typed fields as claims and no issuer, and its subject signature was made while that field was empty |
| WalletVerify.PostVerify | user/server/handlers/post_verify.go:39-67 | a wallet load failure is internal; a missing ID is ClientError("No credential found for ID."); success is exactly NoError; the wallet is only read |
| WalletVerify.PostVerifyHandler | user/server/handlers/post_verify.go:16-37 | an undecodable body is a 400; the reply is 200 iff the presentation succeeds |
| WalletVerify.SubmissionIsStoredResigned | user/server/handlers/post_verify.go:52-58 | the submitted credential is the stored one with only its subject signature replaced, by a signature over the stored credential whatever subject text it carried |
| WalletVerify.VerifierDecides | user/server/handlers/post_verify.go:58-66 | the verifier's error kind is the outcome, and it depends on the network only through the one post |
| WalletVerify.NoSubmissionWithoutCredential | user/server/handlers/post_verify.go:40-56 | when the credential cannot be loaded, found or signed, the outcome is a failure and nothing is sent |
| Format.Decimal | demo/university/main.go:24 | `%d` of a port is a non-empty run of digits with no leading zero except for 0 |
| Format.DecimalRoundTrip | demo/university/main.go:24 | reading the printed port gives the number back |
| Format.DecimalInjective | demo/university/main.go:24 | two ports print alike iff they are equal |
| Format.LocalhostInjective | demo/university/main.go:24 | a local service URL determines its port and its path |
| University.VerifierRequest | demo/university/main.go:22-33 | the verifier's request has no type and no fields, names the university issuer, and is signed by the verifier DID with an empty signature |
| University.Accept | demo/university/main.go:35-38 | the verifier callback accepts every credential |
| University.IssuerRequest | demo/university/main.go:42-63 | the issuer's request is "iss:form" with fields Username (text) and Password (password), and its entity is the issuer DID with an empty signature |
| University.Mint | demo/university/main.go:65-81 | rejects with "invalid username and/or password", leaving the credential unchanged, unless the login is username/password; on success the type is "Student ID Card" and the claims are exactly the four fixed entries |
| University.IssuerService | demo/university/main.go:95-99 | the university issuer runs under its DID with its own key file |
| University.VerifierService | demo/university/main.go:91-94 | the university verifier hands out its request and uses its own key file |
| University.FormLoginMints | demo/university/main.go:42-81 | filling the form's fields with the demo login mints a student card whose claims no longer hold the login, with both signature pairs unchanged |
| University.DistinctServiceUrls | demo/university/main.go:22-63 | the issuer and the verifier of one server listen on different URLs |
| Bus.IssuerRequest | demo/bus/main.go:20-32 | the issuer's request is "iss:cred" and names the university issuer DID |
| Bus.Mint | demo/bus/main.go:34-54 | never fails; type "Bus Pass"; keeps the holder's signature pair; the issuer is the bus DID with no signature; the claims are exactly first and last name (empty if absent) and the fixed expiry date |
| Bus.VerifierRequest | demo/bus/main.go:58-69 | the checker's request names the bus issuer DID and is signed by the checker DID |
| Bus.Accept | demo/bus/main.go:71-74 | the checker accepts every credential |
| Bus.IssuerService | demo/bus/main.go:79-83 | the bus issuer runs under its DID with its own key file |
| Bus.CheckService | demo/bus/main.go:84-89 | the checker hands out its request and uses its own key file |
| Bus.StudentCardBecomesPass | demo/bus/main.go:34-54 | a student card minted by the university becomes a bus pass for the same student and the same holder |
| Bus.DistinctServiceUrls | demo/bus/main.go:20-69 | the bus issuer and checker listen on different URLs |
| Bus.ForgedStudentCardAccepted | demo/bus/main.go:34-54 | as written, a submission that merely names the university as its issuer, with any signature text, becomes a bus pass with the names the holder typed |
| Bus.PostIssueChecked | demo/bus/main.go:34-54 | the corrected bus issuer grants only a "Bus Pass" under the bus DID, and only for a submission that names the university |
| Bus.ForgedStudentCardRefused | demo/bus/main.go:34-54 | with the upstream check, a missing university signature, or one that does not check under the university's certificate, is a 401 and no pass |
| Bus.PassNamesAreSigned | demo/bus/main.go:34-54 | with the upstream check, a granted pass carries the first and last names of the card the university signed, whatever names the holder put beside that signature |
| Bus.CheckedAgrees | demo/bus/main.go:34-54 | the check only adds refusals: a pass the checked issuer grants is the pass the issuer as written grants for the same submission |
| Saas.IssuerRequest | demo/saas/main.go:20-45 | the issuer's request is "iss:form" with fields Username, First Name and Last Name, in that order |
| Saas.Mint | demo/saas/main.go:47-52 | never fails, sets the type to "Account Credentials" and changes nothing else |
| Saas.LoginRequest | demo/saas/main.go:56-67 | the login request names the SaaS issuer DID and is signed by the login verifier DID |
| Saas.Accept | demo/saas/main.go:69-72 | the login verifier accepts every credential |
| Saas.IssuerService | demo/saas/main.go:83-87 | the SaaS issuer runs under its DID with its own key file |
| Saas.LoginService | demo/saas/main.go:77-82 | the login verifier hands out its request and uses its own key file |
| Saas.AccountKeepsTypedFields | demo/saas/main.go:47-52 | the account credential keeps exactly the typed claims and the holder's signature pair |
| Saas.DistinctServiceUrls | demo/saas/main.go:20-67 | the SaaS issuer and login verifier listen on different URLs |
| Protocol.FormRequestPassesIssuer | user/server/handlers/post_issue.go:45-76 | a form request the wallet signs decodes at the issuer and passes its holder check, and the callback gets the request as it was before signing |
| Protocol.PresentationPassesHolderCheck | user/server/handlers/post_verify.go:52-58 | a re-signed presentation of a credential with an empty subject signature passes the verifier's holder check and hands on the credential as stored |
| Protocol.IssuedPassesIssuerCheck | verifier/verifier.go:75-85 | a credential the issuer signed in the verifier's codec passes the verifier's issuer check under the issuer's certificate |
| Protocol.IssuedCredentialAccepted | verifier/verifier.go:44-93 | an issued credential presented by its holder is accepted iff the verifier's callback accepts it |
| Protocol.HandedOutRequestQueried | user/server/handlers/get_query.go:44-89 | a request the verifier hands out passes the wallet's query and is described as the verifier built it |

## Left out

- HTTP servers, routing, CORS and response writing are left out. This
  covers `demo/server.go`, `user/server/main.go` and the `main` functions.
  Handlers are modelled from the decoded request body to the reply they
  send.
- The front end (`user/public/index.js`, `user/client/...`) is UI and is
  not modelled.
- `GetIssueHandler`, which `demo/server.go` calls, is not part of this
  model.
- `get_cred.go` and `get_creds.go` only read the wallet and respond, so
  they are not modelled.
- RSA, SHA-256, PEM, PKCS#8 and X.509 are foreign library code. They appear
  only as the abstract `Scheme` and `Parsers`.
- Base64 and hex are abstract `TextCodec`s with a `Lossless` predicate. No
  concrete alphabet is modelled.
- `VerifyDIDDocumentSignature`, used at `get_query.go:92`, is an abstract
  `Endorser` parameter because its body is not part of this model.
- `DIDFileLoader` (`verifier/verifier.go:18`) is not part of this model.
  The verifier's key resolution is modelled by `LoadPublicKeyFromURI` of
  `common/did.go`.
- JSON text is not modelled. A body is the JSON tree it parses to, or a
  parse error. Marshalling records of strings cannot fail, so the
  "error marshaling json" branches are absent.
- Member names are matched case-sensitively. Go's decoder also accepts
  case-insensitive matches, which is not modelled.
- Claims are never nil. An absent or `null` claims member decodes as an
  empty map. Go keeps the two apart: it writes a nil `map[string]string`
  as `null` and an empty one as `{}`. A form posted without `fields`
  makes the Go wallet sign and post `"credentials":null`
  (`post_issue.go:53`), where the model signs `{}`. Signatures over such a
  credential cover different bytes than in Go. Both ends of every check
  make the same choice, in Go and in the model, so no check outcome
  changes.
- A member repeated within one object: the model keeps only its last
  occurrence. Go decodes a repeated member whose value is an object (the
  claims map, a signature pair) into what the earlier occurrence left,
  merging the two. No encoder writes a member twice, so the round trips
  are unaffected.
- The wallet file is modelled by what it decodes to (`WalletFile`),
  a file holding `null` included.
  A failure of `WriteJSONToFile` at `post_issue.go:100-104` is not
  modelled: a save always succeeds.
- A failure of `os.Create` or of the encoder in `SaveDIDDocument` is not
  modelled: a save always succeeds.
- A key-server body read failure is modelled. The connection's `Close` is
  not.
- Logging (`log.Println`, `LogChainError`) is left out. The errors that
  would be logged are kept where the source builds them.
- The university's `-port` flag is a `nat` parameter of its requests.
  Negative ports are not modelled.
- Verifier.PostVerify: its contract states only the error cases and the
  status set. The full decision is stated by `Verifier.AcceptedExactly`
  and the step lemmas.
- Issuer.PostIssue: its contract states the error cases, the status set
  and the stamped DID. The full reply is stated by `Issuer.IssuedCredential`
  and the step lemmas.
- WalletQuery.GetQuery: its contract states the send failure, the decode
  failure and that a failure is never NoError. Resolution, signature and
  success are stated by `WalletQuery.ResolutionFailureIsInternal`,
  `WalletQuery.EntityFailureRefused` and `WalletQuery.QueryDescribes`.
- WalletIssue.PostIssue: its contract states the wallet discipline and the
  request failures. The issuer's refusal and the wallet update are stated
  by `WalletIssue.IssuerErrorPassedOn` and `WalletIssue.WalletUpdate`.
- WalletVerify.PostVerify: its contract states the load and lookup
  failures. Signing and submission are stated by
  `WalletVerify.VerifierDecides` and `WalletVerify.NoSubmissionWithoutCredential`.
- Paths.JoinKeepsLastName: stated only for a final name of more than two
  characters. That covers ".json" but not names like "." or "..", which
  `path.Clean` rewrites.
- Did.KeyUrlPlain: stated only for a domain and a route that are single
  path elements. Other routes go through the general `path.Join` model
  without a closed form.

## Findings

| source | as written | input that shows it | evidently intended | confidence | as-written member | corrected member |
|---|---|---|---|---|---|---|
| user/server/handlers/post_issue.go:92-99 | `creds := CredentialsMap{}`, then `LoadJSONFromFile(VC_URI, &creds)`, then `creds[cred.Issuer.DID] = cred`; a file holding `null` decodes without error and leaves `creds` nil, so the assignment panics, after the issuer has already issued the credential | a wallet file whose content is `null` (what `WriteJSONToFile` writes for a nil map), then any issue the issuer grants | a nil map is read as empty and the credential is filed as the wallet's first entry | not executed | WalletIssue.PostIssueAsWritten (exhibited by WalletIssue.AsWrittenPanicsOnNullWallet) | WalletIssue.PostIssue (proved by WalletIssue.WalletUpdate and WalletIssue.AsWrittenAgrees) |
| issuer/issuer.go:38-55 | after the holder's signature check the submission goes straight to `CreateVerifiableCredentials`; the upstream issuer a submitted credential names, and that issuer's signature, are never checked, and the bus callback (`demo/bus/main.go:34-54`) copies the names the submission carries | a credential the holder builds with `Signature{DID: <university issuer DID>, Signature: "junk"}` as issuer and any names as claims, signed with the holder's own key and posted to the bus issuer | an issuer that mints from an upstream credential resolves that issuer's certificate and refuses a submission whose upstream signature is missing or does not check: the bus request names the university issuer DID as the required issuer (`demo/bus/main.go:27`) and asks for "your student ID card" (`demo/bus/main.go:26`), and the verifier in the same code base resolves and checks a credential's issuer signature before trusting it, with a 401 on failure (`verifier/verifier.go:67-85`) | not executed | Bus.ForgedStudentCardAccepted | Issuer.PostIssueUpstream and Bus.PostIssueChecked (proved by Issuer.UpstreamClaimsSigned, Bus.ForgedStudentCardRefused and Bus.PassNamesAreSigned) |
| tools/did_signer/main.go:15-16,24 | `sigs := doc.Signatures` then `sigs[did] = ...`; for a document loaded without a `signatures` member, `sigs` is a nil map and the assignment panics | a document saved with no endorsements, which `SaveDIDDocument` writes without the `omitempty` map (`DidSigner.SavedUnendorsedHasNoMap`), then endorsed by any signer | a missing map is read as empty and the first endorsement is added | not executed | DidSigner.RunAsWritten (exhibited by DidSigner.AsWrittenPanicsOnUnendorsed) | DidSigner.Run (proved by DidSigner.RunEndorses and DidSigner.EndorsementVerifies) |
