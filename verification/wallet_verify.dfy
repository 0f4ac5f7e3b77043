/** `user/server/handlers/post_verify.go`: the wallet presents a stored
    credential to a verifier, re-signed by the holder through its
    `subject` field. The wallet file is only read. */
module WalletVerify {
  import opened Wrappers
  import opened Errors
  import opened Json
  import opened Common
  import opened Crypto
  import opened Http
  import opened CustomErrors
  import opened WalletClient

  const NoCredential := "No credential found for ID."
  const InvalidBody := "invalid JSON body"

  /** `PostVerifyBody`. */
  datatype PostVerifyBody = PostVerifyBody(serviceUrl: string, credentialId: string)

  function DecodeVerifyBody(body: Payload): Result<PostVerifyBody, Error>
  {
    var j :- body;
    var ms :- StructMembers(j, "handlers.PostVerifyBody");
    var serviceUrl :- StringField(ms, "service_url");
    var credentialId :- StringField(ms, "credential_id");
    Success(PostVerifyBody(serviceUrl, credentialId))
  }

  /** The stored credential, re-signed by the holder. */
  function Presented(platform: Platform, files: Files, cred: Credential): InPlace<Credential>
  {
    SignInPlace(platform, files, PrivateKeyUri, cred, SubjectSlot())
  }

  /** `postVerify`. It returns only an outcome: no path writes the wallet. */
  function PostVerify(platform: Platform, files: Files, net: Network, wallet: WalletFile, body: PostVerifyBody): (r: CustomError)
    ensures LoadCredentials(wallet).Failure? ==> r == InternalError()
    ensures LoadCredentials(wallet).Success? && body.credentialId !in LoadCredentials(wallet).value ==> r == ClientError(NoCredential)
    ensures r.kind.TypeNoError? ==> r == NoError()
  {
    match LoadCredentials(wallet)
    case Failure(_) => InternalError()
    case Success(creds) =>
      if body.credentialId !in creds then ClientError(NoCredential)
      else
        var signed := Presented(platform, files, creds[body.credentialId]);
        if signed.err.Some? then InternalError()
        else
          var sent := SendRequest(net, Post, body.serviceUrl, Some(EncodeCredential(signed.value)));
          if !sent.cerr.kind.TypeNoError? then sent.cerr else NoError()
  }

  /** `PostVerifyHandler`. */
  function PostVerifyHandler(platform: Platform, files: Files, net: Network, wallet: WalletFile, body: Payload): (r: Response)
    ensures DecodeVerifyBody(body).Failure? ==> r == ErrorResponse(StatusBadRequest, InvalidBody)
    ensures r.status == StatusOk <==>
      DecodeVerifyBody(body).Success? && PostVerify(platform, files, net, wallet, DecodeVerifyBody(body).value).kind.TypeNoError?
  {
    match DecodeVerifyBody(body)
    case Failure(_) => ErrorResponse(StatusBadRequest, InvalidBody)
    case Success(b) => Answer(PostVerify(platform, files, net, wallet, b), SuccessResponse)
  }

  /** What is submitted is the stored credential with only its subject
      signature replaced, by a signature over the stored credential as it
      was, whatever subject signature it still carried. */
  lemma SubmissionIsStoredResigned(platform: Platform, files: Files, cred: Credential)
    requires Presented(platform, files, cred).err.None?
    ensures var sent := Presented(platform, files, cred).value;
      && sent.(subject := cred.subject) == cred
      && sent.subject.did == cred.subject.did
      && sent.subject.signature == SignatureText(platform, files, PrivateKeyUri, cred, SubjectSlot())
      && SignatureText(platform, files, PrivateKeyUri, cred, SubjectSlot())
           == platform.structCodec.encode(SignBytes(platform, files, PrivateKeyUri, EncodeCredential(cred)).value)
  {
  }

  /** The verifier's answer is what the user gets: the outcome depends on
      the network only through the one post of the presented credential. */
  lemma VerifierDecides(platform: Platform, files: Files, net: Network, net': Network, wallet: WalletFile, body: PostVerifyBody)
    requires LoadCredentials(wallet).Success? && body.credentialId in LoadCredentials(wallet).value
    requires Presented(platform, files, LoadCredentials(wallet).value[body.credentialId]).err.None?
    requires var m := Some(EncodeCredential(Presented(platform, files, LoadCredentials(wallet).value[body.credentialId]).value));
      net(Post, body.serviceUrl, m) == net'(Post, body.serviceUrl, m)
    ensures var m := Some(EncodeCredential(Presented(platform, files, LoadCredentials(wallet).value[body.credentialId]).value));
      PostVerify(platform, files, net, wallet, body) == SendRequest(net, Post, body.serviceUrl, m).cerr
    ensures PostVerify(platform, files, net, wallet, body) == PostVerify(platform, files, net', wallet, body)
  {
  }

  /** Nothing is sent when the credential cannot be found or signed. */
  lemma NoSubmissionWithoutCredential(platform: Platform, files: Files, net: Network, net': Network, wallet: WalletFile, body: PostVerifyBody)
    requires LoadCredentials(wallet).Failure? || body.credentialId !in LoadCredentials(wallet).value ||
      Presented(platform, files, LoadCredentials(wallet).value[body.credentialId]).err.Some?
    ensures !PostVerify(platform, files, net, wallet, body).kind.TypeNoError?
    ensures PostVerify(platform, files, net, wallet, body) == PostVerify(platform, files, net', wallet, body)
  {
  }
}
