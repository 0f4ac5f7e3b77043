/** `common/crypto.go`: signing a record and checking a record's signature.

    RSA PKCS#1 v1.5 over SHA-256, PEM, PKCS#8 and X.509 are foreign code and
    appear only through their interfaces: a `Scheme` (key pairs, signing,
    checking) whose behaviour is pinned down by `Correct` and `Binding`, and
    `Parsers` that turn bytes into keys or report why they cannot. The text
    form of a signature is a `TextCodec`; `SignStruct` and
    `VerifyStructSignature` use unpadded base64 (section 4 of RFC 4648
    without the padding of section 3.2), other callers use hex, so the codec
    is a parameter. */
module Crypto {
  import opened Wrappers
  import opened Errors
  import opened Json
  import opened Common

  /** Go's `[]byte` and `string` are both octet sequences, and converting
      between them copies the octets; one type serves both. */
  type Bytes = string

  datatype PrivateKey = PrivateKey(id: nat)
  datatype PublicKey = PublicKey(id: nat)

  /** What `x509.ParsePKCS8PrivateKey` / a certificate's key may be. */
  datatype ParsedPrivateKey = RsaPrivateKey(key: PrivateKey) | OtherPrivateKey
  datatype ParsedPublicKey = RsaPublicKey(key: PublicKey) | OtherPublicKey

  /** The signature scheme: each private key has its public key, signing a
      canonical encoding may fail, and checking answers yes or no. The
      hash is folded into `sign` and `verify`. */
  datatype Scheme = Scheme(
    publicOf: PrivateKey -> PublicKey,
    sign: (PrivateKey, Json) -> Result<Bytes, Error>,
    verify: (PublicKey, Bytes, Json) -> bool)

  /** A signature made with a private key checks under its public key. */
  ghost predicate Correct(s: Scheme)
  {
    forall k, m | s.sign(k, m).Success? :: s.verify(s.publicOf(k), s.sign(k, m).value, m)
  }

  /** Among the encodings of one record type, a signature checks only for
      the message it was made over. The scheme sees bytes, and the trees
      one encoder produces are distinct byte strings (see `Json`), so a
      scheme that binds bytes binds these trees; trees from different
      encoders or built by hand are not in scope. */
  ghost predicate Binding<R(!new)>(s: Scheme, encode: R -> Json)
  {
    forall k, a, b | s.sign(k, encode(a)).Success? && s.verify(s.publicOf(k), s.sign(k, encode(a)).value, encode(b))
      :: encode(b) == encode(a)
  }

  /** `pem.Decode` (the block's bytes, or none), `x509.ParsePKCS8PrivateKey`
      and `x509.ParseCertificate` (the certificate's public key). */
  datatype Parsers = Parsers(
    pemBlock: Bytes -> Option<Bytes>,
    pkcs8: Bytes -> Result<ParsedPrivateKey, Error>,
    certificate: Bytes -> Result<ParsedPublicKey, Error>)

  /** A text form for signature bytes. */
  datatype TextCodec = TextCodec(encode: Bytes -> string, decode: string -> Result<Bytes, Error>)

  /** Decoding what was encoded gives the bytes back. */
  ghost predicate Lossless(c: TextCodec)
  {
    forall b :: c.decode(c.encode(b)) == Success(b)
  }

  /** The collaborators one deployment uses, and the codec of `SignStruct`
      and `VerifyStructSignature`. */
  datatype Platform = Platform(scheme: Scheme, parsers: Parsers, structCodec: TextCodec)

  /** The files a party can read (key files, its DID certificate). */
  type Files = map<string, Bytes>

  /** The error text `rsa.VerifyPKCS1v15` returns for a signature that does
      not check. */
  const VerificationError: Error := "crypto/rsa: verification error"

  /** Why a key could not be loaded; `Text` is the error the source reports. */
  datatype KeyFailure =
    | ReadFailed(cause: Error)
    | NoPemBlock
    | NotPkcs8(cause: Error)
    | NotRsaPrivate
    | NotCertificate(cause: Error)
    | NotRsaPublic
  {
    function Text(): Error
    {
      match this
      case ReadFailed(cause) => Chain("error reading private key file", Chain("error reading file", cause))
      case NoPemBlock => "error parsing PEM block"
      case NotPkcs8(cause) => Chain("error parsing private key from PEM bytes", cause)
      case NotRsaPrivate => "key is not an RSA private key"
      case NotCertificate(cause) => Chain("error parsing certificate", cause)
      case NotRsaPublic => "key is not an RSA public key"
    }
  }

  /** The characters at which the six key-failure messages differ. */
  function Marks(t: Error): seq<char>
    requires |t| >= 23
  {
    [t[0], t[6], t[14], t[19]]
  }

  /** The marks each kind of key failure shows. */
  function ExpectedMarks(f: KeyFailure): seq<char>
  {
    match f
    case ReadFailed(_) => ['e', 'r', 'p', 't']
    case NoPemBlock => ['e', 'p', 'P', 'l']
    case NotPkcs8(_) => ['e', 'p', 'p', 't']
    case NotRsaPrivate => ['k', ' ', 'R', 'r']
    case NotCertificate(_) => ['e', 'p', 'c', 'f']
    case NotRsaPublic => ['k', ' ', 'R', 'u']
  }

  lemma KeyFailureMarks(f: KeyFailure)
    ensures |f.Text()| >= 23 && Marks(f.Text()) == ExpectedMarks(f)
  {
    match f
    case ReadFailed(c) => ReadFailedMarks(c);
    case NotPkcs8(c) => NotPkcs8Marks(c);
    case NotCertificate(c) => NotCertificateMarks(c);
    case NoPemBlock => LiteralMarks("error parsing PEM block", ExpectedMarks(f));
    case NotRsaPrivate => LiteralMarks("key is not an RSA private key", ExpectedMarks(f));
    case NotRsaPublic => LiteralMarks("key is not an RSA public key", ExpectedMarks(f));
  }

  lemma ReadFailedMarks(c: Error)
    ensures |ReadFailed(c).Text()| >= 23 && Marks(ReadFailed(c).Text()) == ['e', 'r', 'p', 't']
  {
    ChainedMarks("error reading private key file", Chain("error reading file", c));
    LiteralMarks("error reading private key file", ['e', 'r', 'p', 't']);
  }

  lemma NotPkcs8Marks(c: Error)
    ensures |NotPkcs8(c).Text()| >= 23 && Marks(NotPkcs8(c).Text()) == ['e', 'p', 'p', 't']
  {
    ChainedMarks("error parsing private key from PEM bytes", c);
    LiteralMarks("error parsing private key from PEM bytes", ['e', 'p', 'p', 't']);
  }

  lemma NotCertificateMarks(c: Error)
    ensures |NotCertificate(c).Text()| >= 23 && Marks(NotCertificate(c).Text()) == ['e', 'p', 'c', 'f']
  {
    ChainedMarks("error parsing certificate", c);
    LiteralMarks("error parsing certificate", ['e', 'p', 'c', 'f']);
  }

  lemma LiteralMarks(t: string, m: seq<char>)
    requires |t| >= 23 && |m| == 4
    requires t[0] == m[0] && t[6] == m[1] && t[14] == m[2] && t[19] == m[3]
    ensures Marks(t) == m
  {
  }

  /** A chained error shows its context's marks. */
  lemma ChainedMarks(context: string, cause: Error)
    requires |context| >= 23
    ensures |Chain(context, cause)| >= 23 && Marks(Chain(context, cause)) == Marks(context)
  {
    var e := Chain(context, cause);
    assert e[..|context|] == context;
    assert e[0] == context[0] && e[6] == context[6] && e[14] == context[14] && e[19] == context[19];
  }

  /** Each way of failing to load a key is reported with its own text, and
      a wrapped parser error can be read back from it. */
  lemma KeyFailuresDistinct(a: KeyFailure, b: KeyFailure)
    ensures a.Text() == b.Text() <==> a == b
  {
    if a.Text() == b.Text() {
      KeyFailureMarks(a);
      KeyFailureMarks(b);
      match a
      case ReadFailed(c) =>
        ChainKeepsCause("error reading private key file", Chain("error reading file", c), Chain("error reading file", b.cause));
        ChainKeepsCause("error reading file", c, b.cause);
      case NotPkcs8(c) =>
        ChainKeepsCause("error parsing private key from PEM bytes", c, b.cause);
      case NotCertificate(c) =>
        ChainKeepsCause("error parsing certificate", c, b.cause);
      case _ =>
    }
  }

  /** `loadPrivateKeyFromFile`: read the file, find a PEM block, parse it as
      PKCS#8, insist on RSA. */
  function LoadPrivateKey(parsers: Parsers, files: Files, path: string): (r: Result<PrivateKey, KeyFailure>)
    ensures path !in files ==> r.Failure? && r.error.ReadFailed?
    ensures r.Failure? ==> r.error.ReadFailed? || r.error.NoPemBlock? || r.error.NotPkcs8? || r.error.NotRsaPrivate?
    ensures r.Success? <==>
      && path in files
      && parsers.pemBlock(files[path]).Some?
      && parsers.pkcs8(parsers.pemBlock(files[path]).value).Success?
      && parsers.pkcs8(parsers.pemBlock(files[path]).value).value.RsaPrivateKey?
    ensures r.Success? ==> parsers.pkcs8(parsers.pemBlock(files[path]).value) == Success(RsaPrivateKey(r.value))
  {
    if path !in files then Failure(ReadFailed(NoSuchFile(path)))
    else
      match parsers.pemBlock(files[path])
      case None => Failure(NoPemBlock)
      case Some(der) =>
        match parsers.pkcs8(der)
        case Failure(e) => Failure(NotPkcs8(e))
        case Success(OtherPrivateKey) => Failure(NotRsaPrivate)
        case Success(RsaPrivateKey(k)) => Success(k)
  }

  /** `loadPublicKeyFromBytes`: the bytes are a PEM certificate, and the key
      inside it must be RSA. */
  function LoadPublicKey(parsers: Parsers, bytes: Bytes): (r: Result<PublicKey, KeyFailure>)
    ensures r.Failure? ==> r.error.NoPemBlock? || r.error.NotCertificate? || r.error.NotRsaPublic?
    ensures r.Success? <==>
      && parsers.pemBlock(bytes).Some?
      && parsers.certificate(parsers.pemBlock(bytes).value).Success?
      && parsers.certificate(parsers.pemBlock(bytes).value).value.RsaPublicKey?
    ensures r.Success? ==> parsers.certificate(parsers.pemBlock(bytes).value) == Success(RsaPublicKey(r.value))
  {
    match parsers.pemBlock(bytes)
    case None => Failure(NoPemBlock)
    case Some(der) =>
      match parsers.certificate(der)
      case Failure(e) => Failure(NotCertificate(e))
      case Success(OtherPublicKey) => Failure(NotRsaPublic)
      case Success(RsaPublicKey(k)) => Success(k)
  }

  /** The private key at `keyPath` and the certificate `cert` belong together. */
  ghost predicate KeyPair(platform: Platform, files: Files, keyPath: string, cert: Bytes)
  {
    && LoadPrivateKey(platform.parsers, files, keyPath).Success?
    && LoadPublicKey(platform.parsers, cert) == Success(platform.scheme.publicOf(LoadPrivateKey(platform.parsers, files, keyPath).value))
  }

  /** Load the private key and sign the encoded record: the part of
      `SignStruct` before the text encoding, also used on its own by callers
      that encode the signature themselves. */
  function SignBytes(platform: Platform, files: Files, keyPath: string, message: Json): (r: Result<Bytes, Error>)
    ensures r.Success? <==>
      && LoadPrivateKey(platform.parsers, files, keyPath).Success?
      && platform.scheme.sign(LoadPrivateKey(platform.parsers, files, keyPath).value, message).Success?
    ensures r.Success? ==>
      r.value == platform.scheme.sign(LoadPrivateKey(platform.parsers, files, keyPath).value, message).value
    ensures LoadPrivateKey(platform.parsers, files, keyPath).Failure? ==>
      r == Failure(Chain("error loading private key from file", LoadPrivateKey(platform.parsers, files, keyPath).error.Text()))
  {
    match LoadPrivateKey(platform.parsers, files, keyPath)
    case Failure(f) => Failure(Chain("error loading private key from file", f.Text()))
    case Success(key) =>
      match platform.scheme.sign(key, message)
      case Failure(e) => Failure(Chain("error signing hash", e))
      case Success(b) => Success(b)
  }

  /** The value a Go function leaves in the variable it was given a pointer
      to, together with the error it returned. */
  datatype InPlace<T> = InPlace(value: T, err: Option<Error>)

  /** `SignStruct(keyURI, sig, v)`: sign `message`, the encoding of `v` as it
      is when the call starts, and store the text of the signature in
      `sig.Signature`. Only `sig.Signature` changes, and only on success. */
  function SignStruct(platform: Platform, files: Files, keyPath: string, sig: Signature, message: Json): (r: InPlace<Signature>)
    ensures r.value.did == sig.did
    ensures r.err.Some? ==> r.value == sig
    ensures r.err.None? <==> SignBytes(platform, files, keyPath, message).Success?
    ensures r.err.None? ==> r.value.signature == platform.structCodec.encode(SignBytes(platform, files, keyPath, message).value)
  {
    match SignBytes(platform, files, keyPath, message)
    case Failure(e) => InPlace(sig, Some(e))
    case Success(b) => InPlace(sig.(signature := platform.structCodec.encode(b)), None)
  }

  /** `SignStruct(keyURI, &v.field, &v)`: the pointer is into the record, so
      the signature covers the record with the field as it was before the
      call, and the new text lands in that field. */
  function SignInPlace<R>(platform: Platform, files: Files, keyPath: string, r: R, slot: Slot<R>): (out: InPlace<R>)
    ensures out.err.Some? ==> out.value == r
    ensures out.err.None? ==>
      out.value == slot.put(r, SignStruct(platform, files, keyPath, slot.get(r), slot.encode(r)).value)
  {
    var s := SignStruct(platform, files, keyPath, slot.get(r), slot.encode(r));
    if s.err.None? then InPlace(slot.put(r, s.value), None) else InPlace(r, s.err)
  }

  /** `VerifyStructSignature(DID, &v.field, &v)`: take the text out of the
      field and clear the field FIRST, then decode the text, load the
      public key from the certificate bytes `did`, and check the signature
      against the record as it now is, with the field cleared. The field
      stays cleared whatever the outcome. */
  function VerifyStructSignature<R>(platform: Platform, did: Bytes, r: R, slot: Slot<R>): (out: InPlace<R>)
    ensures out.value == slot.put(r, slot.get(r).Clear())
    ensures platform.structCodec.decode(slot.get(r).signature).Failure? ==>
      out.err == Some(Chain("error decoding signature", platform.structCodec.decode(slot.get(r).signature).error))
    ensures out.err.None? <==>
      && platform.structCodec.decode(slot.get(r).signature).Success?
      && LoadPublicKey(platform.parsers, did).Success?
      && platform.scheme.verify(
           LoadPublicKey(platform.parsers, did).value,
           platform.structCodec.decode(slot.get(r).signature).value,
           slot.encode(out.value))
  {
    var text := slot.get(r).signature;
    var cleared := slot.put(r, slot.get(r).Clear());
    match platform.structCodec.decode(text)
    case Failure(e) => InPlace(cleared, Some(Chain("error decoding signature", e)))
    case Success(sigBytes) =>
      match LoadPublicKey(platform.parsers, did)
      case Failure(f) => InPlace(cleared, Some(Chain("error loading public key from DID", f.Text())))
      case Success(key) =>
        if platform.scheme.verify(key, sigBytes, slot.encode(cleared)) then InPlace(cleared, None)
        else InPlace(cleared, Some(Chain("error verifying signature", VerificationError)))
  }

  /** Whether verification succeeds or fails, the field it was pointed at
      is empty afterwards, and the rest of the record is untouched. */
  lemma VerifyLeavesFieldCleared<R(!new)>(platform: Platform, did: Bytes, r: R, slot: Slot<R>)
    requires Lawful(slot)
    ensures slot.get(VerifyStructSignature(platform, did, r, slot).value).signature == ""
    ensures slot.get(VerifyStructSignature(platform, did, r, slot).value).did == slot.get(r).did
    ensures slot.put(VerifyStructSignature(platform, did, r, slot).value, slot.get(r)) == r
  {
  }

  /** Round trip: a record signed while its field was empty, then checked
      with the matching certificate, verifies, and checking restores the
      record as it was signed. */
  lemma SignThenVerify<R(!new)>(platform: Platform, files: Files, keyPath: string, cert: Bytes, r: R, slot: Slot<R>)
    requires Lawful(slot) && Correct(platform.scheme) && Lossless(platform.structCodec)
    requires KeyPair(platform, files, keyPath, cert)
    requires slot.get(r).signature == ""
    requires SignInPlace(platform, files, keyPath, r, slot).err.None?
    ensures VerifyStructSignature(platform, cert, SignInPlace(platform, files, keyPath, r, slot).value, slot) == InPlace(r, None)
  {
    var signed := SignInPlace(platform, files, keyPath, r, slot).value;
    var s := SignStruct(platform, files, keyPath, slot.get(r), slot.encode(r)).value;
    var key := LoadPrivateKey(platform.parsers, files, keyPath).value;
    assert slot.get(signed) == s;
    assert slot.put(signed, s.Clear()) == slot.put(r, slot.get(r));
    assert platform.structCodec.decode(s.signature) == Success(platform.scheme.sign(key, slot.encode(r)).value);
  }

  /** The signature a signer made over `r`, as stored text. */
  function SignatureText<R>(platform: Platform, files: Files, keyPath: string, r: R, slot: Slot<R>): string
    requires SignInPlace(platform, files, keyPath, r, slot).err.None?
  {
    SignStruct(platform, files, keyPath, slot.get(r), slot.encode(r)).value.signature
  }

  /** Tamper detection, both directions: a record carrying the text of a
      signature made over `r` (with `r`'s field empty) verifies exactly when,
      with its field cleared, it IS `r`. Changing any other part of the
      record, the signer's `did` included, makes the check fail. */
  lemma VerifiesExactlyTheSigned<R(!new)>(platform: Platform, files: Files, keyPath: string, cert: Bytes, r: R, slot: Slot<R>, x: R)
    requires Lawful(slot) && Injective(slot)
    requires Correct(platform.scheme) && Binding(platform.scheme, slot.encode) && Lossless(platform.structCodec)
    requires KeyPair(platform, files, keyPath, cert)
    requires slot.get(r).signature == ""
    requires SignInPlace(platform, files, keyPath, r, slot).err.None?
    requires slot.get(x).signature == SignatureText(platform, files, keyPath, r, slot)
    ensures VerifyStructSignature(platform, cert, x, slot).err.None? <==> slot.put(x, slot.get(x).Clear()) == r
  {
    var key := LoadPrivateKey(platform.parsers, files, keyPath).value;
    var sigBytes := platform.scheme.sign(key, slot.encode(r)).value;
    assert platform.structCodec.decode(slot.get(x).signature) == Success(sigBytes);
    var cleared := slot.put(x, slot.get(x).Clear());
    if VerifyStructSignature(platform, cert, x, slot).err.None? {
      assert platform.scheme.verify(platform.scheme.publicOf(key), sigBytes, slot.encode(cleared));
      assert slot.encode(cleared) == slot.encode(r);
    }
  }

  /** A signature made while the field still held text never verifies:
      the check always clears the field, so it looks at a different record
      from the one that was signed. */
  lemma SignedUnclearedNeverVerifies<R(!new)>(platform: Platform, files: Files, keyPath: string, cert: Bytes, r: R, slot: Slot<R>)
    requires Lawful(slot) && Injective(slot)
    requires Binding(platform.scheme, slot.encode) && Lossless(platform.structCodec)
    requires KeyPair(platform, files, keyPath, cert)
    requires slot.get(r).signature != ""
    requires SignInPlace(platform, files, keyPath, r, slot).err.None?
    ensures VerifyStructSignature(platform, cert, SignInPlace(platform, files, keyPath, r, slot).value, slot).err.Some?
  {
    var signed := SignInPlace(platform, files, keyPath, r, slot).value;
    var s := slot.get(signed);
    var key := LoadPrivateKey(platform.parsers, files, keyPath).value;
    var sigBytes := platform.scheme.sign(key, slot.encode(r)).value;
    assert platform.structCodec.decode(s.signature) == Success(sigBytes);
    var cleared := slot.put(signed, s.Clear());
    assert cleared == slot.put(r, slot.get(r).Clear());
    assert slot.get(cleared) != slot.get(r);
    assert slot.encode(cleared) != slot.encode(r);
    assert !platform.scheme.verify(platform.scheme.publicOf(key), sigBytes, slot.encode(cleared));
  }
}
