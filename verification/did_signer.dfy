/** `tools/did_signer/main.go`: endorsing a DID document. The endorser
    signs the document with its endorsement map removed and files the
    signature text in that map under its own DID, so every endorsement
    covers the same bytes whatever other endorsements exist. */
module DidSigner {
  import opened Wrappers
  import opened Errors
  import opened Json
  import opened Common
  import opened Crypto
  import opened Did

  /** How a run of the tool ends: the document store after the save, an
      error, or a run-time panic. */
  datatype Outcome = Written(store: Store) | Failed(error: Error) | Panicked(message: string)

  /** The document an endorsement covers: the same document with no
      endorsement map at all. */
  function Bare(d: DidDocument): DidDocument
  {
    d.(signatures := None)
  }

  /** Signing the bare document into a fresh `Signature{}`. */
  function Endorsement(platform: Platform, files: Files, keyUri: string, d: DidDocument): InPlace<Signature>
  {
    SignStruct(platform, files, keyUri, NoSignature, EncodeDocument(Bare(d)))
  }

  /** `Run` as written: when the loaded document has no endorsement map the
      assignment `sigs[did] = ...` lands in a nil map and panics. */
  function RunAsWritten(platform: Platform, files: Files, store: Store, keyUri: string, did: string, docUri: string): (r: Outcome)
    ensures LoadDocument(store, docUri).Failure? ==>
      r == Failed(Chain("error loading DID doc from URI", LoadDocument(store, docUri).error))
    ensures r.Panicked? ==> LoadDocument(store, docUri).Success? && LoadDocument(store, docUri).value.signatures.None?
  {
    match LoadDocument(store, docUri)
    case Failure(e) => Failed(Chain("error loading DID doc from URI", e))
    case Success(doc) =>
      var sig := Endorsement(platform, files, keyUri, doc);
      if sig.err.Some? then Failed(Chain("error signing DID doc", sig.err.value))
      else if doc.signatures.None? then Panicked(NilMapPanic)
      else Written(SaveDocument(store, docUri, doc.(signatures := Some(doc.signatures.value[did := sig.value.signature]))))
  }

  /** `Run` with a nil map read as empty, as the tool evidently intends:
      load, sign the bare document, add the endorsement, save. */
  function Run(platform: Platform, files: Files, store: Store, keyUri: string, did: string, docUri: string): (r: Outcome)
    ensures !r.Panicked?
    ensures LoadDocument(store, docUri).Failure? ==>
      r == Failed(Chain("error loading DID doc from URI", LoadDocument(store, docUri).error))
    ensures r.Written? <==>
      && LoadDocument(store, docUri).Success?
      && Endorsement(platform, files, keyUri, LoadDocument(store, docUri).value).err.None?
    ensures LoadDocument(store, docUri).Success? && Endorsement(platform, files, keyUri, LoadDocument(store, docUri).value).err.Some? ==>
      r == Failed(Chain("error signing DID doc", Endorsement(platform, files, keyUri, LoadDocument(store, docUri).value).err.value))
  {
    match LoadDocument(store, docUri)
    case Failure(e) => Failed(Chain("error loading DID doc from URI", e))
    case Success(doc) =>
      var sig := Endorsement(platform, files, keyUri, doc);
      if sig.err.Some? then Failed(Chain("error signing DID doc", sig.err.value))
      else Written(SaveDocument(store, docUri, doc.(signatures := Some(Endorsements(doc)[did := sig.value.signature]))))
  }

  /** After a run, the document reads back with its name, domain and route
      unchanged and one more (or one renewed) endorsement: the endorser's
      DID now maps to the new signature text, every other entry is as it
      was, and the key set is the old one plus the endorser's DID. */
  lemma RunEndorses(platform: Platform, files: Files, store: Store, keyUri: string, did: string, docUri: string)
    requires Run(platform, files, store, keyUri, did, docUri).Written?
    ensures var before := LoadDocument(store, docUri).value;
      var after := LoadDocument(Run(platform, files, store, keyUri, did, docUri).store, docUri);
      var text := Endorsement(platform, files, keyUri, before).value.signature;
      && after.Success?
      && after.value.name == before.name
      && after.value.domain == before.domain
      && after.value.route == before.route
      && after.value.signatures.Some?
      && after.value.signatures.value.Keys == Endorsements(before).Keys + {did}
      && after.value.signatures.value[did] == text
      && (forall k :: k in Endorsements(before) && k != did ==> after.value.signatures.value[k] == Endorsements(before)[k])
  {
    var before := LoadDocument(store, docUri).value;
    var text := Endorsement(platform, files, keyUri, before).value.signature;
    var d := before.(signatures := Some(Endorsements(before)[did := text]));
    assert Run(platform, files, store, keyUri, did, docUri).store == SaveDocument(store, docUri, d);
    SaveThenLoad(store, docUri, d);
    assert did in Endorsements(d);
    assert Saved(d) == d;
  }

  /** A run rewrites only the document's own file: no file appears or
      disappears, and every other file is as it was. */
  lemma RunTouchesOnlyTheDocument(platform: Platform, files: Files, store: Store, keyUri: string, did: string, docUri: string)
    requires Run(platform, files, store, keyUri, did, docUri).Written?
    ensures var after := Run(platform, files, store, keyUri, did, docUri).store;
      && after.Keys == store.Keys
      && forall p :: p in store && p != FullUri(docUri) ==> after[p] == store[p]
  {
    assert FullUri(docUri) in store;
  }

  /** The endorsement text does not depend on the endorsements already
      present: endorsers can sign in any order. */
  lemma EndorsementIgnoresOthers(platform: Platform, files: Files, keyUri: string, d: DidDocument, others: Option<map<string, string>>)
    ensures Endorsement(platform, files, keyUri, d) == Endorsement(platform, files, keyUri, d.(signatures := others))
  {
    assert Bare(d) == Bare(d.(signatures := others));
  }

  /** The stored endorsement checks: decoding the text and checking it
      under the endorser's certificate against the reloaded document with
      its map removed succeeds. */
  lemma EndorsementVerifies(platform: Platform, files: Files, store: Store, keyUri: string, cert: Bytes, did: string, docUri: string)
    requires Correct(platform.scheme) && Lossless(platform.structCodec)
    requires KeyPair(platform, files, keyUri, cert)
    requires Run(platform, files, store, keyUri, did, docUri).Written?
    ensures var after := LoadDocument(Run(platform, files, store, keyUri, did, docUri).store, docUri);
      && after.Success? && after.value.signatures.Some? && did in after.value.signatures.value
      && platform.structCodec.decode(after.value.signatures.value[did]).Success?
      && platform.scheme.verify(
           LoadPublicKey(platform.parsers, cert).value,
           platform.structCodec.decode(after.value.signatures.value[did]).value,
           EncodeDocument(Bare(after.value)))
  {
    RunEndorses(platform, files, store, keyUri, did, docUri);
    var before := LoadDocument(store, docUri).value;
    var after := LoadDocument(Run(platform, files, store, keyUri, did, docUri).store, docUri).value;
    assert Bare(after) == Bare(before);
    var key := LoadPrivateKey(platform.parsers, files, keyUri).value;
    assert platform.structCodec.decode(after.signatures.value[did])
        == Success(platform.scheme.sign(key, EncodeDocument(Bare(before))).value);
  }

  /** The as-written tool panics on a document that has no endorsement map,
      which is how `SaveDIDDocument` writes a document with no endorsements
      (the map is `omitempty`); the intended run succeeds there. */
  lemma AsWrittenPanicsOnUnendorsed(platform: Platform, files: Files, store: Store, keyUri: string, did: string, docUri: string)
    requires LoadDocument(store, docUri).Success?
    requires LoadDocument(store, docUri).value.signatures.None?
    requires Endorsement(platform, files, keyUri, LoadDocument(store, docUri).value).err.None?
    ensures RunAsWritten(platform, files, store, keyUri, did, docUri) == Panicked(NilMapPanic)
    ensures Run(platform, files, store, keyUri, did, docUri).Written?
  {
  }

  /** A document saved with no endorsements loads back without a map, so
      the as-written tool cannot endorse it. */
  lemma SavedUnendorsedHasNoMap(store: Store, uri: string, d: DidDocument)
    requires |Endorsements(d)| == 0
    ensures LoadDocument(SaveDocument(store, uri, d), uri).Success?
    ensures LoadDocument(SaveDocument(store, uri, d), uri).value.signatures.None?
  {
    SaveThenLoad(store, uri, d);
  }

  /** Wherever the as-written tool does not panic, it agrees with the
      intended one. */
  lemma AsWrittenAgrees(platform: Platform, files: Files, store: Store, keyUri: string, did: string, docUri: string)
    ensures !RunAsWritten(platform, files, store, keyUri, did, docUri).Panicked? ==>
      RunAsWritten(platform, files, store, keyUri, did, docUri) == Run(platform, files, store, keyUri, did, docUri)
  {
  }
}
