/** `common/did.go`: resolving a DID to its public key. A DID names a
    document file on the shared "blockchain" directory; the document names
    the host and route that serve the owner's certificate.

    The file system is a `Store` from file path to what the file's bytes
    parse to, a JSON value or the parser's error (a missing path is an open
    error), and `http.Get` is a `KeyServer`
    from URL to what came back. */
module Did {
  import opened Wrappers
  import opened Errors
  import opened Json
  import opened Paths
  import opened Crypto
  import opened Http

  /** `DIDDocument`. `signatures` is a Go map, which may be nil: `None`. */
  datatype DidDocument = DidDocument(
    name: string,
    domain: string,
    route: string,
    signatures: Option<map<string, string>>)

  /** The endorsements of a document, as a Go program reads them: a nil map
      has no entries. */
  function Endorsements(d: DidDocument): map<string, string>
  {
    if d.signatures.Some? then d.signatures.value else map[]
  }

  /** `signatures` is `omitempty`, which for a map means nil or empty. */
  function EncodeDocument(d: DidDocument): (j: Json)
    ensures j.JObject? && 3 <= |j.members| <= 4
    ensures j.members[..3] == [
      Member("name", JString(d.name)),
      Member("domain", JString(d.domain)),
      Member("route", JString(d.route))]
    ensures |j.members| == 4 <==> |Endorsements(d)| > 0
  {
    JObject(
      [ Member("name", JString(d.name)),
        Member("domain", JString(d.domain)),
        Member("route", JString(d.route)) ]
      + (if |Endorsements(d)| == 0 then [] else [Member("signatures", JStringMap(Endorsements(d)))]))
  }

  function DecodeDocument(j: Json): Result<DidDocument, Error>
  {
    var ms :- StructMembers(j, "common.DIDDocument");
    var name :- StringField(ms, "name");
    var domain :- StringField(ms, "domain");
    var route :- StringField(ms, "route");
    var signatures :- StringMapField(ms, "signatures");
    Success(DidDocument(name, domain, route, signatures))
  }

  /** The document as it reads back after a save: an empty map is not
      written, so it comes back nil. */
  function Saved(d: DidDocument): DidDocument
  {
    d.(signatures := if |Endorsements(d)| == 0 then None else d.signatures)
  }

  /** Decoding an encoded document gives it back, except that an empty
      endorsement map comes back absent. */
  lemma DocumentRoundTrip(d: DidDocument)
    ensures DecodeDocument(EncodeDocument(d)) == Success(Saved(d))
    ensures Saved(d) == d <==> d.signatures != Some(map[])
  {
    DocumentMembersRead(d);
    if d.signatures.Some? && |d.signatures.value| == 0 {
      assert d.signatures.value == map[];
    }
  }

  /** Each member of an encoded document reads back as written. */
  lemma DocumentMembersRead(d: DidDocument)
    ensures var ms := EncodeDocument(d).members;
      && StringField(ms, "name") == Success(d.name)
      && StringField(ms, "domain") == Success(d.domain)
      && StringField(ms, "route") == Success(d.route)
      && StringMapField(ms, "signatures") == Success(Saved(d).signatures)
  {
    var ms := EncodeDocument(d).members;
    assert DistinctNames(ms);
    LookupDistinct(ms, 0);
    LookupDistinct(ms, 1);
    LookupDistinct(ms, 2);
    if |Endorsements(d)| > 0 {
      LookupDistinct(ms, 3);
    }
  }

  /** `getFullURI`: the document for `uri` is `<uri>.json` in the
      "blockchain" directory next to the working directory. */
  function FullUri(uri: string): string
  {
    Join(["..", "blockchain", uri + ".json"])
  }

  /** Whatever the uri, the file opened is a ".json" file. */
  lemma FullUriIsJson(uri: string)
    ensures EndsWith(FullUri(uri), ".json")
  {
    JoinKeepsLastName(["..", "blockchain", uri + ".json"], uri, ".json");
  }

  /** A uri without slashes names the file directly; cleaning changes
      nothing. */
  lemma FullUriPlain(uri: string)
    requires '/' !in uri
    ensures FullUri(uri) == "../blockchain/" + uri + ".json"
  {
    var x := uri + ".json";
    NoSlashJson(uri);
    var elems := ["..", "blockchain", x];
    assert Normal(elems, false);
    CleanRelativeFixed(elems);
    JoinSlashThree("..", "blockchain", x);
  }

  lemma NoSlashJson(uri: string)
    requires '/' !in uri
    ensures '/' !in uri + ".json" && |uri + ".json"| > 2
  {
    var x := uri + ".json";
    assert forall i :: 0 <= i < |x| ==> x[i] == (if i < |uri| then uri[i] else ".json"[i - |uri|]);
  }

  /** Different slash-free uris name different files. */
  lemma FullUriInjective(u: string, v: string)
    requires '/' !in u && '/' !in v
    ensures FullUri(u) == FullUri(v) <==> u == v
  {
    FullUriPlain(u);
    FullUriPlain(v);
    if FullUri(u) == FullUri(v) {
      var a := "../blockchain/" + u + ".json";
      var b := "../blockchain/" + v + ".json";
      assert |u| == |v|;
      assert u == a[14..14 + |u|];
      assert v == b[14..14 + |v|];
    }
  }

  /** The file system the documents live on, by path: what each file's
      bytes parse to, the JSON value or the parser's error for a file that
      is not JSON. */
  type Store = map<string, Result<Json, Error>>

  /** `LoadDIDDocumentFromURI`. */
  function LoadDocument(store: Store, uri: string): (r: Result<DidDocument, Error>)
    ensures FullUri(uri) !in store ==>
      r == Failure(Chain("error opening DID document file", NoSuchFile(FullUri(uri))))
    ensures FullUri(uri) in store && store[FullUri(uri)].Failure? ==>
      r == Failure(Chain("error decoding JSON", store[FullUri(uri)].error))
    ensures FullUri(uri) in store && store[FullUri(uri)].Success? ==>
      r == match DecodeDocument(store[FullUri(uri)].value)
           case Failure(e) => Failure(Chain("error decoding JSON", e))
           case Success(d) => Success(d)
  {
    var path := FullUri(uri);
    if path !in store then Failure(Chain("error opening DID document file", NoSuchFile(path)))
    else
      match store[path]
      case Failure(e) => Failure(Chain("error decoding JSON", e))
      case Success(j) => DecodeDocument(j).MapFailure(e => Chain("error decoding JSON", e))
  }

  /** `SaveDIDDocument`: the document file is (over)written with the
      encoding; no other file changes. */
  function SaveDocument(store: Store, uri: string, d: DidDocument): (s: Store)
    ensures s.Keys == store.Keys + {FullUri(uri)}
    ensures forall p :: p in store && p != FullUri(uri) ==> s[p] == store[p]
  {
    store[FullUri(uri) := Success(EncodeDocument(d))]
  }

  /** Save then load with the same uri gives the document back, up to an
      empty endorsement map. */
  lemma SaveThenLoad(store: Store, uri: string, d: DidDocument)
    ensures LoadDocument(SaveDocument(store, uri, d), uri) == Success(Saved(d))
  {
    DocumentRoundTrip(d);
  }

  /** Saving one document leaves every document in another file as it
      loaded before. */
  lemma SaveKeepsOthers(store: Store, uri: string, d: DidDocument, other: string)
    requires FullUri(other) != FullUri(uri)
    ensures LoadDocument(SaveDocument(store, uri, d), other) == LoadDocument(store, other)
  {
  }

  /** The URL a document's certificate is served from. */
  function KeyUrl(d: DidDocument): string
  {
    "http://" + Join([d.domain, d.route])
  }

  /** For a host name and a route that are single path elements, the key
      URL is the host, a slash and the route. */
  lemma KeyUrlPlain(d: DidDocument)
    requires IsName(d.domain) && IsName(d.route)
    requires '/' !in d.domain && '/' !in d.route
    ensures KeyUrl(d) == "http://" + d.domain + "/" + d.route
  {
    var elems := [d.domain, d.route];
    assert Normal(elems, false);
    CleanRelativeFixed(elems);
    assert elems[1..] == [d.route];
  }

  /** What `http.Get` gave: a transport error, or a status and a body that
      may fail to read. */
  datatype Fetch = NoResponse(cause: Error) | Fetched(status: int, body: Result<Bytes, Error>)

  type KeyServer = string -> Fetch

  /** `LoadPublicKeyFromDocument`: fetch the certificate from the document's
      key URL; a 200 body is the key, unchanged. */
  function LoadPublicKeyFromDocument(net: KeyServer, d: DidDocument): (r: Result<Bytes, Error>)
    ensures net(KeyUrl(d)).NoResponse? ==> r == Failure(Chain("error sending DID Get request", net(KeyUrl(d)).cause))
    ensures net(KeyUrl(d)).Fetched? && net(KeyUrl(d)).status != StatusOk ==>
      r == Failure("error getting DID from url: " + KeyUrl(d))
    ensures r.Success? <==> net(KeyUrl(d)).Fetched? && net(KeyUrl(d)).status == StatusOk && net(KeyUrl(d)).body.Success?
    ensures r.Success? ==> r.value == net(KeyUrl(d)).body.value
  {
    var url := KeyUrl(d);
    match net(url)
    case NoResponse(e) => Failure(Chain("error sending DID Get request", e))
    case Fetched(status, body) =>
      if status != StatusOk then Failure("error getting DID from url: " + url)
      else
        match body
        case Failure(e) => Failure(Chain("error reading request body", e))
        case Success(b) => Success(b)
  }

  /** `LoadPublicKeyFromURI`: load the document, then fetch its key. */
  function LoadPublicKeyFromUri(store: Store, net: KeyServer, uri: string): (r: Result<Bytes, Error>)
    ensures LoadDocument(store, uri).Failure? ==>
      r == Failure(Chain("error loading DID document", LoadDocument(store, uri).error))
    ensures LoadDocument(store, uri).Success? ==>
      r == LoadPublicKeyFromDocument(net, LoadDocument(store, uri).value)
  {
    match LoadDocument(store, uri)
    case Failure(e) => Failure(Chain("error loading DID document", e))
    case Success(d) => LoadPublicKeyFromDocument(net, d)
  }

  /** When the document does not load, nothing is fetched: the outcome is
      the same whatever the network would have answered. */
  lemma NoFetchWithoutDocument(store: Store, net1: KeyServer, net2: KeyServer, uri: string)
    requires LoadDocument(store, uri).Failure?
    ensures LoadPublicKeyFromUri(store, net1, uri) == LoadPublicKeyFromUri(store, net2, uri)
    ensures LoadPublicKeyFromUri(store, net1, uri).Failure?
  {
  }

  /** Only the answer for the document's own key URL matters. */
  lemma OnlyKeyUrlFetched(store: Store, net1: KeyServer, net2: KeyServer, uri: string)
    requires LoadDocument(store, uri).Success?
    requires net1(KeyUrl(LoadDocument(store, uri).value)) == net2(KeyUrl(LoadDocument(store, uri).value))
    ensures LoadPublicKeyFromUri(store, net1, uri) == LoadPublicKeyFromUri(store, net2, uri)
  {
  }
}
