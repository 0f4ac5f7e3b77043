/** `user/server/handlers/post_issue.go`: the wallet asks an issuer for a
    credential. The request is either a form (the holder's DID certificate
    with the fields the user typed) or a credential already in the wallet;
    either way the holder signs it through its `subject` field, posts it,
    and files the credential that comes back under its issuer's DID. */
module WalletIssue {
  import opened Wrappers
  import opened Errors
  import opened Json
  import opened Common
  import opened Crypto
  import opened Http
  import opened CustomErrors
  import opened WalletClient

  /** `DID_URI`: the holder's DID, a PEM certificate. */
  const DidUri := "wallet/DID.cert"

  /** The request type that asks for a form; any other is treated as
      "iss:cred". */
  const FormType := "iss:form"

  const NoCredential := "No credential found for ID."
  const InvalidBody := "invalid JSON body"

  /** `IssuePostBody`, as the front end posts it. */
  datatype IssuePostBody = IssuePostBody(
    serviceUrl: string,
    issueType: string,
    fields: map<string, string>,
    credentialId: string)

  function DecodeIssueBody(body: Payload): Result<IssuePostBody, Error>
  {
    var j :- body;
    var ms :- StructMembers(j, "handlers.IssuePostBody");
    var serviceUrl :- StringField(ms, "service_url");
    var issueType :- StringField(ms, "type");
    var fields :- StringMapField(ms, "fields");
    var credentialId :- StringField(ms, "credential_id");
    Success(IssuePostBody(serviceUrl, issueType, if fields.Some? then fields.value else map[], credentialId))
  }

  /** The credential the holder asks with, before signing. A form request
      carries the holder's DID certificate, unsigned, and exactly the
      typed fields; a credential request is the stored credential with
      that ID. */
  function IssueRequest(files: Files, wallet: WalletFile, body: IssuePostBody): (r: Result<Credential, CustomError>)
    ensures r.Failure? ==> !r.error.kind.TypeNoError?
    ensures body.issueType == FormType ==>
      (r.Success? <==> DidUri in files) &&
      (r.Success? ==> r.value == Credential("", body.fields, Signature(files[DidUri], ""), NoSignature))
    ensures body.issueType != FormType ==>
      (LoadCredentials(wallet).Failure? ==> r == Failure(InternalError())) &&
      (LoadCredentials(wallet).Success? && body.credentialId !in LoadCredentials(wallet).value ==>
         r == Failure(ClientError(NoCredential))) &&
      (LoadCredentials(wallet).Success? && body.credentialId in LoadCredentials(wallet).value ==>
         r == Success(LoadCredentials(wallet).value[body.credentialId]))
  {
    if body.issueType == FormType then
      if DidUri !in files then Failure(InternalError())
      else Success(EmptyCredential.(claims := body.fields, subject := EmptyCredential.subject.(did := files[DidUri])))
    else
      match LoadCredentials(wallet)
      case Failure(_) => Failure(InternalError())
      case Success(creds) =>
        if body.credentialId !in creds then Failure(ClientError(NoCredential))
        else Success(creds[body.credentialId])
  }

  /** The credential in the issuer's reply. */
  function DecodeIssued(body: Payload): Result<Credential, Error>
  {
    if body.Failure? then Failure(body.error) else DecodeCredential(body.value)
  }

  /** What `postIssue` leaves behind: its outcome and the wallet file. */
  datatype Issued = Issued(cerr: CustomError, wallet: WalletFile)

  /** The signed request as it is posted. */
  function Signed(platform: Platform, files: Files, cred: Credential): InPlace<Credential>
  {
    SignInPlace(platform, files, PrivateKeyUri, cred, SubjectSlot())
  }

  /** The part of `postIssue` before the wallet file is read: build the
      request, sign it, post it and decode the reply. The result is the
      issued credential, or the outcome that ends the run. */
  function Requested(platform: Platform, files: Files, net: Network, wallet: WalletFile, body: IssuePostBody): (r: Result<Credential, CustomError>)
    ensures r.Failure? ==> !r.error.kind.TypeNoError?
    ensures IssueRequest(files, wallet, body).Failure? ==> r == Failure(IssueRequest(files, wallet, body).error)
  {
    var cred :- IssueRequest(files, wallet, body);
    var signed := Signed(platform, files, cred);
    if signed.err.Some? then Failure(InternalError())
    else
      var sent := SendRequest(net, Post, body.serviceUrl, Some(EncodeCredential(signed.value)));
      if !sent.cerr.kind.TypeNoError? then Failure(sent.cerr)
      else
        match DecodeIssued(sent.body.value)
        case Failure(_) => Failure(InternalError())
        case Success(issued) => Success(issued)
  }

  /** `postIssue`, with a nil map read as empty, as the handler evidently
      intends. Only the last step writes the wallet: every failure leaves
      it as it was, and success files the issued credential under its
      issuer's DID. */
  function PostIssue(platform: Platform, files: Files, net: Network, wallet: WalletFile, body: IssuePostBody): (r: Issued)
    ensures !r.cerr.kind.TypeNoError? ==> r.wallet == wallet
    ensures r.cerr.kind.TypeNoError? ==> r.cerr == NoError() && LoadCredentials(wallet).Success? && r.wallet.Holds?
    ensures IssueRequest(files, wallet, body).Failure? ==> r == Issued(IssueRequest(files, wallet, body).error, wallet)
  {
    match Requested(platform, files, net, wallet, body)
    case Failure(e) => Issued(e, wallet)
    case Success(issued) =>
      match LoadCredentials(wallet)
      case Failure(_) => Issued(InternalError(), wallet)
      case Success(creds) => Issued(NoError(), SaveCredentials(creds[issued.issuer.did := issued]))
  }

  /** How `postIssue` as written ends: it returns, or it panics at the
      wallet update. A panic unwinds the handler, so no reply is written
      and the wallet file keeps what it held. */
  datatype Run = Returned(issued: Issued) | Panicked(message: string)

  /** `postIssue` as written: `creds[cred.Issuer.DID] = cred` assigns into
      the map `LoadJSONFromFile` decoded, and a file holding `null` leaves
      that map nil, so the assignment panics. By then the issuer has
      already issued the credential. */
  function PostIssueAsWritten(platform: Platform, files: Files, net: Network, wallet: WalletFile, body: IssuePostBody): (r: Run)
    ensures r.Panicked? ==> wallet.HoldsNull? && Requested(platform, files, net, wallet, body).Success?
  {
    match Requested(platform, files, net, wallet, body)
    case Failure(e) => Returned(Issued(e, wallet))
    case Success(issued) =>
      match LoadCredentials(wallet)
      case Failure(_) => Returned(Issued(InternalError(), wallet))
      case Success(creds) =>
        if wallet.HoldsNull? then Panicked(NilMapPanic)
        else Returned(Issued(NoError(), SaveCredentials(creds[issued.issuer.did := issued])))
  }

  /** The panic: with a wallet file holding `null`, every issue the issuer
      grants ends in a panic, where the corrected handler files the
      credential as the wallet's only entry. */
  lemma AsWrittenPanicsOnNullWallet(platform: Platform, files: Files, net: Network, body: IssuePostBody)
    requires Requested(platform, files, net, HoldsNull, body).Success?
    ensures PostIssueAsWritten(platform, files, net, HoldsNull, body) == Panicked(NilMapPanic)
    ensures var issued := Requested(platform, files, net, HoldsNull, body).value;
      PostIssue(platform, files, net, HoldsNull, body) == Issued(NoError(), Holds(map[issued.issuer.did := issued]))
  {
  }

  /** Wherever the handler as written does not panic, it does what the
      corrected one does. */
  lemma AsWrittenAgrees(platform: Platform, files: Files, net: Network, wallet: WalletFile, body: IssuePostBody)
    ensures !PostIssueAsWritten(platform, files, net, wallet, body).Panicked? ==>
      PostIssueAsWritten(platform, files, net, wallet, body) == Returned(PostIssue(platform, files, net, wallet, body))
    ensures !wallet.HoldsNull? ==> !PostIssueAsWritten(platform, files, net, wallet, body).Panicked?
  {
  }

  /** `PostIssueHandler`. */
  function PostIssueHandler(platform: Platform, files: Files, net: Network, wallet: WalletFile, body: Payload): (r: (Response, WalletFile))
    ensures DecodeIssueBody(body).Failure? ==> r == (ErrorResponse(StatusBadRequest, InvalidBody), wallet)
    ensures r.0.status == StatusOk <==>
      DecodeIssueBody(body).Success? && PostIssue(platform, files, net, wallet, DecodeIssueBody(body).value).cerr.kind.TypeNoError?
    ensures r.0.status != StatusOk ==> r.1 == wallet
  {
    match DecodeIssueBody(body)
    case Failure(_) => (ErrorResponse(StatusBadRequest, InvalidBody), wallet)
    case Success(b) =>
      var out := PostIssue(platform, files, net, wallet, b);
      (Answer(out.cerr, SuccessResponse), out.wallet)
  }

  /** The issuer's refusal reaches the user with its own kind and message,
      and the wallet is untouched. */
  lemma IssuerErrorPassedOn(platform: Platform, files: Files, net: Network, wallet: WalletFile, body: IssuePostBody)
    requires IssueRequest(files, wallet, body).Success?
    requires Signed(platform, files, IssueRequest(files, wallet, body).value).err.None?
    requires var sent := SendRequest(net, Post, body.serviceUrl, Some(EncodeCredential(Signed(platform, files, IssueRequest(files, wallet, body).value).value)));
      !sent.cerr.kind.TypeNoError?
    ensures var sent := SendRequest(net, Post, body.serviceUrl, Some(EncodeCredential(Signed(platform, files, IssueRequest(files, wallet, body).value).value)));
      PostIssue(platform, files, net, wallet, body) == Issued(sent.cerr, wallet)
  {
  }

  /** On success the wallet holds the issued credential under its issuer's
      DID, replacing any earlier one from that issuer, and every other
      entry is as it was. */
  lemma WalletUpdate(platform: Platform, files: Files, net: Network, wallet: WalletFile, body: IssuePostBody)
    requires PostIssue(platform, files, net, wallet, body).cerr.kind.TypeNoError?
    ensures var cred := IssueRequest(files, wallet, body).value;
      var sent := SendRequest(net, Post, body.serviceUrl, Some(EncodeCredential(Signed(platform, files, cred).value)));
      && sent.body.Some? && DecodeIssued(sent.body.value).Success?
      && var issued := DecodeIssued(sent.body.value).value;
      && var before := LoadCredentials(wallet).value;
      && var after := PostIssue(platform, files, net, wallet, body).wallet.creds;
      && issued.issuer.did in after && after[issued.issuer.did] == issued
      && after.Keys == before.Keys + {issued.issuer.did}
      && (forall id :: id in before && id != issued.issuer.did ==> after[id] == before[id])
  {
  }

  /** The request a form sends: the holder's certificate as subject DID,
      exactly the typed fields as claims, no issuer, and a subject
      signature made while that field was empty. */
  lemma FormRequestSigned(platform: Platform, files: Files, wallet: WalletFile, body: IssuePostBody)
    requires body.issueType == FormType && DidUri in files
    requires Signed(platform, files, IssueRequest(files, wallet, body).value).err.None?
    ensures var sent := Signed(platform, files, IssueRequest(files, wallet, body).value).value;
      && sent.subject.did == files[DidUri]
      && sent.claims == body.fields
      && sent.issuer == NoSignature
      && sent.(subject := sent.subject.Clear()) == IssueRequest(files, wallet, body).value
  {
  }
}
