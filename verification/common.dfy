/** The records every party exchanges (`common/common.go`), their
    canonical encodings, and `Slot`: the model of a `*Signature` pointer
    that points INSIDE the record being signed or verified.

    `VerifiableCredential.CredType`, `PresentationRequest` and
    `PresentationField` are used by the protocol files but not declared in
    them; their fields are rebuilt from their uses, and their JSON member
    names are chosen here (`cred_type`, `type`, `service_url`, `entity_name`,
    `description`, `fields`, `issuer`, `entity`; `name` and `type` for a
    field). Only the consistency of encoder and decoder matters to the
    protocol, and that is proved below. */
module Common {
  import opened Wrappers
  import opened Errors
  import opened Json

  /** A detached signature: who signed, and the signature text. The text is
      tagged `omitempty`, so an empty one is left out of the encoding. */
  datatype Signature = Signature(did: string, signature: string) {
    /** The same signer with the signature text cleared. */
    function Clear(): Signature
    {
      this.(signature := "")
    }
  }

  /** A claim set with the holder's (`subject`) and the issuer's signatures. */
  datatype Credential = Credential(
    credType: string,
    claims: map<string, string>,
    subject: Signature,
    issuer: Signature)

  /** One input a request asks for: its name and its HTML input type. */
  datatype PresentationField = PresentationField(name: string, fieldType: string)

  /** What a service offers or asks for, signed by the service (`entity`).
      `requestType` is "iss:form", "iss:cred", or "" for a verifier. */
  datatype PresentationRequest = PresentationRequest(
    requestType: string,
    serviceUrl: string,
    entityName: string,
    credType: string,
    description: string,
    fields: seq<PresentationField>,
    issuer: string,
    entity: Signature)

  /** Go's zero values for the records. */
  const NoSignature := Signature("", "")
  const EmptyCredential := Credential("", map[], NoSignature, NoSignature)

  /** A map lookup as Go reads it: a missing key reads as "". */
  function Get(m: map<string, string>, key: string): string
  {
    if key in m then m[key] else ""
  }

  // ---- Signature ------------------------------------------------------------

  function DecodeSignature(j: Json): Result<Signature, Error>
  {
    var ms :- StructMembers(j, "common.Signature");
    var did :- StringField(ms, "did");
    var signature :- StringField(ms, "signature");
    Success(Signature(did, signature))
  }

  /** The signer's `did` is always written, even when empty; the signature
      text is written only when non-empty, so a cleared signature encodes
      exactly like one that never had text. */
  function EncodeSignature(s: Signature): (j: Json)
    ensures j.JObject? && |j.members| >= 1 && j.members[0] == Member("did", JString(s.did))
    ensures s.signature == "" <==> j == JObject([Member("did", JString(s.did))])
  {
    JObject([Member("did", JString(s.did))]
            + (if s.signature == "" then [] else [Member("signature", JString(s.signature))]))
  }

  /** A struct-typed member: absent or `null` leaves the zero signature. */
  function SignatureField(members: seq<Member>, name: string): Result<Signature, Error>
  {
    match Lookup(members, name)
    case None => Success(NoSignature)
    case Some(v) => DecodeSignature(v)
  }

  // ---- Credential -----------------------------------------------------------

  function DecodeCredential(j: Json): Result<Credential, Error>
  {
    var ms :- StructMembers(j, "common.VerifiableCredential");
    var credType :- StringField(ms, "cred_type");
    var claims :- StringMapField(ms, "credentials");
    var subject :- SignatureField(ms, "subject");
    var issuer :- SignatureField(ms, "issuer");
    Success(Credential(credType, if claims.Some? then claims.value else map[], subject, issuer))
  }

  /** Both signatures are part of a credential's encoding, each as its own
      member, and the encoding decodes back to the credential. */
  function EncodeCredential(c: Credential): (j: Json)
    ensures j.JObject? && |j.members| == 4
    ensures j.members[1] == Member("credentials", JStringMap(c.claims))
    ensures j.members[2] == Member("subject", EncodeSignature(c.subject))
    ensures j.members[3] == Member("issuer", EncodeSignature(c.issuer))
  {
    JObject([
      Member("cred_type", JString(c.credType)),
      Member("credentials", JStringMap(c.claims)),
      Member("subject", EncodeSignature(c.subject)),
      Member("issuer", EncodeSignature(c.issuer))])
  }

  // ---- PresentationRequest ----------------------------------------------------

  function DecodeField(j: Json): Result<PresentationField, Error>
  {
    var ms :- StructMembers(j, "common.PresentationField");
    var name :- StringField(ms, "name");
    var fieldType :- StringField(ms, "type");
    Success(PresentationField(name, fieldType))
  }

  function EncodeField(f: PresentationField): Json
  {
    JObject([Member("name", JString(f.name)), Member("type", JString(f.fieldType))])
  }

  lemma FieldRoundTrip(f: PresentationField)
    ensures DecodeField(EncodeField(f)) == Success(f)
  {
    var ms := EncodeField(f).members;
    assert DistinctNames(ms);
    LookupDistinct(ms, 0);
    LookupDistinct(ms, 1);
  }

  function DecodeFieldList(items: seq<Json>): Result<seq<PresentationField>, Error>
  {
    if |items| == 0 then Success([])
    else
      var init :- DecodeFieldList(items[..|items| - 1]);
      var last :- DecodeField(items[|items| - 1]);
      Success(init + [last])
  }

  function EncodeFieldList(fields: seq<PresentationField>): (items: seq<Json>)
    ensures |items| == |fields|
    ensures forall i :: 0 <= i < |fields| ==> items[i] == EncodeField(fields[i])
  {
    seq(|fields|, i requires 0 <= i < |fields| => EncodeField(fields[i]))
  }

  lemma {:induction false} FieldListRoundTrip(fields: seq<PresentationField>)
    ensures DecodeFieldList(EncodeFieldList(fields)) == Success(fields)
  {
    if |fields| > 0 {
      var init := fields[..|fields| - 1];
      assert EncodeFieldList(fields)[..|fields| - 1] == EncodeFieldList(init);
      FieldListRoundTrip(init);
      FieldRoundTrip(fields[|fields| - 1]);
      assert init + [fields[|fields| - 1]] == fields;
    }
  }

  /** A slice-typed member: absent or `null` leaves the empty slice. */
  function FieldsField(members: seq<Member>, name: string): Result<seq<PresentationField>, Error>
  {
    match Lookup(members, name)
    case None => Success([])
    case Some(JNull) => Success([])
    case Some(JArray(items)) => DecodeFieldList(items)
    case Some(_) => Failure("json: cannot unmarshal " + name + " into Go value of type []common.PresentationField")
  }

  function DecodeRequest(j: Json): Result<PresentationRequest, Error>
  {
    var ms :- StructMembers(j, "common.PresentationRequest");
    var requestType :- StringField(ms, "type");
    var serviceUrl :- StringField(ms, "service_url");
    var entityName :- StringField(ms, "entity_name");
    var credType :- StringField(ms, "cred_type");
    var description :- StringField(ms, "description");
    var fields :- FieldsField(ms, "fields");
    var issuer :- StringField(ms, "issuer");
    var entity :- SignatureField(ms, "entity");
    Success(PresentationRequest(requestType, serviceUrl, entityName, credType, description, fields, issuer, entity))
  }

  /** `fields` and `issuer` are `omitempty`; the entity's signature is the
      last member and the encoding decodes back to the request. */
  function EncodeRequest(p: PresentationRequest): (j: Json)
    ensures j.JObject? && |j.members| >= 6
    ensures j.members[|j.members| - 1] == Member("entity", EncodeSignature(p.entity))
  {
    JObject(
      [ Member("type", JString(p.requestType)),
        Member("service_url", JString(p.serviceUrl)),
        Member("entity_name", JString(p.entityName)),
        Member("cred_type", JString(p.credType)),
        Member("description", JString(p.description)) ]
      + (if |p.fields| == 0 then [] else [Member("fields", JArray(EncodeFieldList(p.fields)))])
      + (if p.issuer == "" then [] else [Member("issuer", JString(p.issuer))])
      + [ Member("entity", EncodeSignature(p.entity)) ])
  }

  /** Decoding reads back exactly the signature that was encoded; in
      particular a missing `signature` member reads as the empty text. */
  lemma SignatureRoundTrip(s: Signature)
    ensures DecodeSignature(EncodeSignature(s)) == Success(s)
  {
    var ms := EncodeSignature(s).members;
    assert DistinctNames(ms);
    LookupDistinct(ms, 0);
    if s.signature != "" {
      LookupDistinct(ms, 1);
    }
  }

  /** Decoding an encoded credential gives the credential back, so two
      credentials with the same encoding are equal. */
  lemma CredentialRoundTrip(c: Credential)
    ensures DecodeCredential(EncodeCredential(c)) == Success(c)
  {
    var ms := EncodeCredential(c).members;
    assert DistinctNames(ms);
    LookupDistinct(ms, 0);
    LookupDistinct(ms, 1);
    LookupDistinct(ms, 2);
    LookupDistinct(ms, 3);
    SignatureRoundTrip(c.subject);
    SignatureRoundTrip(c.issuer);
  }

  /** The members every encoded request starts with. */
  function RequestHead(p: PresentationRequest): seq<Member>
  {
    [ Member("type", JString(p.requestType)),
      Member("service_url", JString(p.serviceUrl)),
      Member("entity_name", JString(p.entityName)),
      Member("cred_type", JString(p.credType)),
      Member("description", JString(p.description)) ]
  }

  /** The `omitempty` members an encoded request may carry. */
  function RequestOptional(p: PresentationRequest): seq<Member>
  {
    (if |p.fields| == 0 then [] else [Member("fields", JArray(EncodeFieldList(p.fields)))])
    + (if p.issuer == "" then [] else [Member("issuer", JString(p.issuer))])
  }

  lemma RequestLayout(p: PresentationRequest)
    ensures EncodeRequest(p).members == RequestHead(p) + RequestOptional(p) + [Member("entity", EncodeSignature(p.entity))]
  {
  }

  lemma HeadLookups(p: PresentationRequest)
    ensures var head := RequestHead(p);
      && Lookup(head, "type") == Some(JString(p.requestType))
      && Lookup(head, "service_url") == Some(JString(p.serviceUrl))
      && Lookup(head, "entity_name") == Some(JString(p.entityName))
      && Lookup(head, "cred_type") == Some(JString(p.credType))
      && Lookup(head, "description") == Some(JString(p.description))
  {
    var head := RequestHead(p);
    assert DistinctNames(head);
    LookupDistinct(head, 0);
    LookupDistinct(head, 1);
    LookupDistinct(head, 2);
    LookupDistinct(head, 3);
    LookupDistinct(head, 4);
  }

  /** A name the optional members and the entity do not use is found in
      the head. */
  lemma LookupPastTail(p: PresentationRequest, name: string)
    requires name !in {"fields", "issuer", "entity"}
    ensures Lookup(EncodeRequest(p).members, name) == Lookup(RequestHead(p), name)
  {
    RequestLayout(p);
    var head := RequestHead(p);
    var fs := if |p.fields| == 0 then [] else [Member("fields", JArray(EncodeFieldList(p.fields)))];
    var iss := if p.issuer == "" then [] else [Member("issuer", JString(p.issuer))];
    var tail := [Member("entity", EncodeSignature(p.entity))];
    assert RequestOptional(p) == fs + iss;
    LookupAppend(head + (fs + iss), tail, name);
    LookupAppend(head, fs + iss, name);
    LookupAppend(fs, iss, name);
  }

  /** The entity is the last member, so it is found. */
  lemma EntityLookup(p: PresentationRequest)
    ensures Lookup(EncodeRequest(p).members, "entity") == Some(EncodeSignature(p.entity))
  {
    RequestLayout(p);
    LookupAppend(RequestHead(p) + RequestOptional(p), [Member("entity", EncodeSignature(p.entity))], "entity");
  }

  /** The issuer is found when it was written, and not otherwise. */
  lemma IssuerLookup(p: PresentationRequest)
    ensures Lookup(EncodeRequest(p).members, "issuer") == (if p.issuer == "" then None else Some(JString(p.issuer)))
  {
    RequestLayout(p);
    LookupAppend(RequestHead(p) + RequestOptional(p), [Member("entity", EncodeSignature(p.entity))], "issuer");
    OptionalIssuer(p);
  }

  lemma OptionalIssuer(p: PresentationRequest)
    ensures Lookup(RequestHead(p) + RequestOptional(p), "issuer") == (if p.issuer == "" then None else Some(JString(p.issuer)))
  {
    var pre := RequestHead(p) + (if |p.fields| == 0 then [] else [Member("fields", JArray(EncodeFieldList(p.fields)))]);
    if p.issuer != "" {
      assert RequestHead(p) + RequestOptional(p) == pre + [Member("issuer", JString(p.issuer))];
    } else {
      assert RequestHead(p) + RequestOptional(p) == pre;
      HeadLacks(p, "issuer");
      if |p.fields| > 0 {
        assert pre[..|pre| - 1] == RequestHead(p);
      }
    }
  }

  /** The field list is found when it was written, and not otherwise. */
  lemma FieldsLookup(p: PresentationRequest)
    ensures Lookup(EncodeRequest(p).members, "fields") == (if |p.fields| == 0 then None else Some(JArray(EncodeFieldList(p.fields))))
  {
    RequestLayout(p);
    LookupAppend(RequestHead(p) + RequestOptional(p), [Member("entity", EncodeSignature(p.entity))], "fields");
    OptionalFields(p);
  }

  lemma OptionalFields(p: PresentationRequest)
    ensures Lookup(RequestHead(p) + RequestOptional(p), "fields") == (if |p.fields| == 0 then None else Some(JArray(EncodeFieldList(p.fields))))
  {
    var fs := if |p.fields| == 0 then [] else [Member("fields", JArray(EncodeFieldList(p.fields)))];
    var iss := if p.issuer == "" then [] else [Member("issuer", JString(p.issuer))];
    assert RequestHead(p) + RequestOptional(p) == (RequestHead(p) + fs) + iss;
    if p.issuer != "" {
      assert ((RequestHead(p) + fs) + iss)[..|RequestHead(p) + fs|] == RequestHead(p) + fs;
    }
    if |p.fields| > 0 {
      assert (RequestHead(p) + fs)[..|RequestHead(p)|] == RequestHead(p);
    } else {
      HeadLacks(p, "fields");
    }
  }

  /** The head holds only the five always-written members. */
  lemma HeadLacks(p: PresentationRequest, name: string)
    requires name !in {"type", "service_url", "entity_name", "cred_type", "description"}
    ensures Lookup(RequestHead(p), name) == None
  {
  }

  /** Where each member of an encoded request is found. */
  lemma RequestLookups(p: PresentationRequest)
    ensures var ms := EncodeRequest(p).members;
      && Lookup(ms, "type") == Some(JString(p.requestType))
      && Lookup(ms, "service_url") == Some(JString(p.serviceUrl))
      && Lookup(ms, "entity_name") == Some(JString(p.entityName))
      && Lookup(ms, "cred_type") == Some(JString(p.credType))
      && Lookup(ms, "description") == Some(JString(p.description))
      && Lookup(ms, "fields") == (if |p.fields| == 0 then None else Some(JArray(EncodeFieldList(p.fields))))
      && Lookup(ms, "issuer") == (if p.issuer == "" then None else Some(JString(p.issuer)))
      && Lookup(ms, "entity") == Some(EncodeSignature(p.entity))
  {
    HeadLookups(p);
    LookupPastTail(p, "type");
    LookupPastTail(p, "service_url");
    LookupPastTail(p, "entity_name");
    LookupPastTail(p, "cred_type");
    LookupPastTail(p, "description");
    FieldsLookup(p);
    IssuerLookup(p);
    EntityLookup(p);
  }

  /** Decoding an encoded request gives the request back, whichever
      `omitempty` members were left out. */
  lemma RequestRoundTrip(p: PresentationRequest)
    ensures DecodeRequest(EncodeRequest(p)) == Success(p)
  {
    RequestLookups(p);
    FieldListRoundTrip(p.fields);
    SignatureRoundTrip(p.entity);
    DecodeFromMembers(EncodeRequest(p).members, p);
  }

  /** Decoding members in which each of the request's fields is found as
      written gives the request. */
  lemma DecodeFromMembers(ms: seq<Member>, p: PresentationRequest)
    requires Lookup(ms, "type") == Some(JString(p.requestType))
    requires Lookup(ms, "service_url") == Some(JString(p.serviceUrl))
    requires Lookup(ms, "entity_name") == Some(JString(p.entityName))
    requires Lookup(ms, "cred_type") == Some(JString(p.credType))
    requires Lookup(ms, "description") == Some(JString(p.description))
    requires Lookup(ms, "fields") == (if |p.fields| == 0 then None else Some(JArray(EncodeFieldList(p.fields))))
    requires Lookup(ms, "issuer") == (if p.issuer == "" then None else Some(JString(p.issuer)))
    requires Lookup(ms, "entity") == Some(EncodeSignature(p.entity))
    requires DecodeFieldList(EncodeFieldList(p.fields)) == Success(p.fields)
    requires DecodeSignature(EncodeSignature(p.entity)) == Success(p.entity)
    ensures DecodeRequest(JObject(ms)) == Success(p)
  {
    StringFieldOf(ms, "type", p.requestType);
    StringFieldOf(ms, "service_url", p.serviceUrl);
    StringFieldOf(ms, "entity_name", p.entityName);
    StringFieldOf(ms, "cred_type", p.credType);
    StringFieldOf(ms, "description", p.description);
    OptionalMembersRead(ms, p);
  }

  /** The `omitempty` members read back as written, absent ones as empty. */
  lemma OptionalMembersRead(ms: seq<Member>, p: PresentationRequest)
    requires Lookup(ms, "fields") == (if |p.fields| == 0 then None else Some(JArray(EncodeFieldList(p.fields))))
    requires Lookup(ms, "issuer") == (if p.issuer == "" then None else Some(JString(p.issuer)))
    requires DecodeFieldList(EncodeFieldList(p.fields)) == Success(p.fields)
    ensures FieldsField(ms, "fields") == Success(p.fields)
    ensures StringField(ms, "issuer") == Success(p.issuer)
  {
  }

  // ---- Slots -------------------------------------------------------------------

  /** A `*Signature` that points into a record of type `R`: how to read the
      signature, how to write it back, and how the whole record encodes. */
  datatype Slot<!R> = Slot(get: R -> Signature, put: (R, Signature) -> R, encode: R -> Json)

  /** The slot behaves as one field of the record: what is written is read
      back, a second write replaces the first, and writing what is there
      changes nothing. */
  ghost predicate Lawful<R(!new)>(slot: Slot<R>)
  {
    && (forall r, s :: slot.get(slot.put(r, s)) == s)
    && (forall r, s, t :: slot.put(slot.put(r, s), t) == slot.put(r, t))
    && (forall r :: slot.put(r, slot.get(r)) == r)
  }

  /** Different records encode differently. */
  ghost predicate Injective<R(!new)>(slot: Slot<R>)
  {
    forall a, b :: slot.encode(a) == slot.encode(b) ==> a == b
  }

  function SubjectSlot(): Slot<Credential>
  {
    Slot((c: Credential) => c.subject, (c: Credential, s) => c.(subject := s), EncodeCredential)
  }

  function IssuerSlot(): Slot<Credential>
  {
    Slot((c: Credential) => c.issuer, (c: Credential, s) => c.(issuer := s), EncodeCredential)
  }

  function EntitySlot(): Slot<PresentationRequest>
  {
    Slot((p: PresentationRequest) => p.entity, (p: PresentationRequest, s) => p.(entity := s), EncodeRequest)
  }

  /** The three pointers the protocol uses are lawful fields of records
      whose encodings tell them apart. */
  lemma SlotsSound()
    ensures Lawful(SubjectSlot()) && Injective(SubjectSlot())
    ensures Lawful(IssuerSlot()) && Injective(IssuerSlot())
    ensures Lawful(EntitySlot()) && Injective(EntitySlot())
  {
    forall a, b | EncodeCredential(a) == EncodeCredential(b) ensures a == b {
      CredentialRoundTrip(a);
      CredentialRoundTrip(b);
    }
    forall a, b | EncodeRequest(a) == EncodeRequest(b) ensures a == b {
      RequestRoundTrip(a);
      RequestRoundTrip(b);
    }
  }

  /** Clearing the subject's signature leaves the issuer's signature, text
      included, inside the encoded credential (and the other way round). */
  lemma ClearingOneKeepsTheOther(c: Credential)
    ensures EncodeCredential(c.(subject := c.subject.Clear())).members[3] == Member("issuer", EncodeSignature(c.issuer))
    ensures EncodeCredential(c.(issuer := c.issuer.Clear())).members[2] == Member("subject", EncodeSignature(c.subject))
  {
  }
}
