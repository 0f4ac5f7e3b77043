/** The parties together: what the wallet sends is what the issuer and
    the verifiers check, provided the keys on file belong together and
    the signature texts are written and read the same way. */
module Protocol {
  import opened Wrappers
  import opened Json
  import opened Common
  import opened Crypto
  import opened Did
  import opened Http
  import opened CustomErrors
  import opened WalletClient
  import Issuer
  import Verifier
  import WalletIssue
  import WalletVerify
  import WalletQuery

  /** A form request the wallet signs passes the issuer's holder check,
      provided the wallet's private key belongs to the certificate in its
      DID file: the issuer decodes what was posted, the signature checks,
      and the callback gets the request as it was before signing. */
  lemma FormRequestPassesIssuer(platform: Platform, files: Files, wallet: WalletFile, body: WalletIssue.IssuePostBody)
    requires Correct(platform.scheme) && Lossless(platform.structCodec)
    requires body.issueType == WalletIssue.FormType && WalletIssue.DidUri in files
    requires KeyPair(platform, files, PrivateKeyUri, files[WalletIssue.DidUri])
    requires WalletIssue.Signed(platform, files, WalletIssue.IssueRequest(files, wallet, body).value).err.None?
    ensures var unsigned := WalletIssue.IssueRequest(files, wallet, body).value;
      var sent := WalletIssue.Signed(platform, files, unsigned).value;
      && Issuer.DecodeBody(Success(EncodeCredential(sent))) == Success(sent)
      && Issuer.CheckSubject(platform, sent) == InPlace(unsigned, None)
  {
    var unsigned := WalletIssue.IssueRequest(files, wallet, body).value;
    var sent := WalletIssue.Signed(platform, files, unsigned).value;
    CredentialRoundTrip(sent);
    SlotsSound();
    SignThenVerify(platform, files, PrivateKeyUri, files[WalletIssue.DidUri], unsigned, SubjectSlot());
  }

  /** The holder's re-signed presentation of a credential whose subject
      signature is empty passes the verifier's holder check, under the
      certificate that is the holder's DID, and hands on the credential as
      stored. */
  lemma PresentationPassesHolderCheck(platform: Platform, files: Files, stored: Credential)
    requires Correct(platform.scheme) && Lossless(platform.structCodec)
    requires KeyPair(platform, files, PrivateKeyUri, stored.subject.did)
    requires stored.subject.signature == ""
    requires WalletVerify.Presented(platform, files, stored).err.None?
    ensures var sent := WalletVerify.Presented(platform, files, stored).value;
      && Verifier.DecodeBody(Success(EncodeCredential(sent))) == Success(sent)
      && Verifier.CheckSubject(platform, sent) == InPlace(stored, None)
  {
    var sent := WalletVerify.Presented(platform, files, stored).value;
    CredentialRoundTrip(sent);
    SlotsSound();
    SignThenVerify(platform, files, PrivateKeyUri, stored.subject.did, stored, SubjectSlot());
  }

  /** A credential the issuer signed with the verifier's codec, with empty
      subject and issuer signatures as the callback left them, passes the
      verifier's issuer check under the issuer's certificate, and the
      callback sees it with both signatures cleared. */
  lemma IssuedPassesIssuerCheck(platform: Platform, files: Files, s: Issuer.IssuerService, cert: Bytes, body: Payload)
    requires Correct(platform.scheme) && Lossless(platform.structCodec)
    requires s.signatureCodec == platform.structCodec
    requires KeyPair(platform, files, s.privateKeyUri, cert)
    requires Issuer.PostIssue(platform, files, s, body).Ok?
    requires var m := s.mint(Issuer.CheckSubject(platform, Issuer.DecodeBody(body).value).value).value;
      m.issuer.signature == "" && m.subject.signature == ""
    ensures var issued := Issuer.PostIssue(platform, files, s, body).payload;
      && issued.subject.signature == ""
      && Verifier.CheckIssuer(platform, cert, issued) == InPlace(Verifier.BothCleared(issued), None)
  {
    var issued := Issuer.PostIssue(platform, files, s, body).payload;
    assert Issuer.WithCodec(platform, s.signatureCodec) == platform;
    Issuer.IssuerSignatureVerifies(platform, files, s, cert, body);
    assert issued.subject.Clear() == issued.subject;
  }

  /** The whole trip: a credential issued as above, filed in the wallet and
      presented by the holder whose DID it names, is accepted by a verifier
      that resolves the issuer's DID to the issuer's certificate, exactly
      when the verifier's callback accepts it. */
  lemma IssuedCredentialAccepted(platform: Platform, files: Files, s: Issuer.IssuerService, cert: Bytes, body: Payload,
                                 walletFiles: Files, store: Store, keys: KeyServer, v: Verifier.VerifierService)
    requires Correct(platform.scheme) && Lossless(platform.structCodec)
    requires s.signatureCodec == platform.structCodec
    requires KeyPair(platform, files, s.privateKeyUri, cert)
    requires Issuer.PostIssue(platform, files, s, body).Ok?
    requires var m := s.mint(Issuer.CheckSubject(platform, Issuer.DecodeBody(body).value).value).value;
      m.issuer.signature == "" && m.subject.signature == ""
    requires LoadPublicKeyFromUri(store, keys, s.did) == Success(cert)
    requires var issued := Issuer.PostIssue(platform, files, s, body).payload;
      && KeyPair(platform, walletFiles, PrivateKeyUri, issued.subject.did)
      && WalletVerify.Presented(platform, walletFiles, issued).err.None?
    ensures var issued := Issuer.PostIssue(platform, files, s, body).payload;
      var sent := WalletVerify.Presented(platform, walletFiles, issued).value;
      Verifier.PostVerify(platform, store, keys, v, Success(EncodeCredential(sent))).Ok? <==>
        v.accept(Verifier.BothCleared(issued)).None?
  {
    var issued := Issuer.PostIssue(platform, files, s, body).payload;
    IssuedPassesIssuerCheck(platform, files, s, cert, body);
    PresentationPassesHolderCheck(platform, walletFiles, issued);
  }

  /** A presentation request the verifier hands out, fetched by the wallet
      from the verifier's URL, passes the wallet's query when the
      verifier's DID document leads to the verifier's certificate; the
      wallet then describes the request as the verifier built it. */
  lemma HandedOutRequestQueried(platform: Platform, files: Files, v: Verifier.VerifierService, cert: Bytes,
                                net: Network, store: Store, keys: KeyServer, endorse: WalletQuery.Endorser, url: string)
    requires Correct(platform.scheme) && Binding(platform.scheme, EncodeRequest) && Lossless(platform.structCodec)
    requires KeyPair(platform, files, v.privateKeyUri, cert)
    requires v.request.entity.signature == ""
    requires Verifier.GetVerify(platform, files, v).Ok?
    requires net(Get, url, None) == Answered(StatusOk, Success(EncodeRequest(Verifier.GetVerify(platform, files, v).payload)))
    requires LoadDocument(store, v.request.entity.did).Success?
    requires LoadPublicKeyFromDocument(keys, LoadDocument(store, v.request.entity.did).value) == Success(cert)
    ensures WalletQuery.GetQuery(platform, net, store, keys, endorse, url) ==
      Success(WalletQuery.Describe(v.request, LoadDocument(store, v.request.entity.did).value, endorse))
  {
    var handed := Verifier.GetVerify(platform, files, v).payload;
    RequestRoundTrip(handed);
    assert WalletQuery.DecodePresentation(SendRequest(net, Get, url, None).body.value) == Success(handed);
    Verifier.HandedOutRequestVerifies(platform, files, v, cert);
    assert handed.entity.did == v.request.entity.did;
  }
}
