/** The canonical encoding. A `Json` value stands for the bytes that Go's
    `json.Marshal` writes for a record: structs become objects whose members
    appear in field order, a `map[string]string` stays a map (Go writes its
    members sorted by key, so the map alone fixes the bytes), and a field
    tagged `omitempty` is left out when it holds its zero value.

    Trees and bytes are not one-to-one in general: `JStringMap` and a
    `JObject` of string members in key order print alike. The trees ONE
    encoder produces are: at each member an encoder always writes the
    same kind of node, so two different encodings of the same record type
    are two different byte strings, and comparing them is comparing the
    hashed bytes. `Crypto.Binding` is stated only within one encoder's
    image for this reason.

    Decoding follows `encoding/json`'s lenient rules for the shapes the
    records use: an absent member or `null` leaves the zero value, and of
    a member repeated with a string value the last one wins. Go decodes a
    repeated member whose value is an object INTO what the earlier ones
    left, merging the two; the model keeps only the last occurrence. No
    encoder writes a member twice. */
module Json {
  import opened Wrappers
  import opened Errors

  datatype Json =
    | JNull
    | JBool(truth: bool)
    | JString(str: string)
    | JArray(items: seq<Json>)
    | JObject(members: seq<Member>)
    | JStringMap(entries: map<string, string>)

  datatype Member = Member(name: string, value: Json)

  /** The object `{"error": message}` that `SendErrorResponse` writes. */
  function ErrorObject(message: string): Json
  {
    JObject([Member("error", JString(message))])
  }

  /** The value of the LAST member called `name`: the one that decides a
      string field when a name is repeated. */
  function Lookup(members: seq<Member>, name: string): (r: Option<Json>)
    ensures r.None? <==> forall i :: 0 <= i < |members| ==> members[i].name != name
  {
    if |members| == 0 then None
    else if members[|members| - 1].name == name then Some(members[|members| - 1].value)
    else Lookup(members[..|members| - 1], name)
  }

  /** The members a struct is decoded from: `null` decodes to the zero
      struct, anything but an object is a type error. */
  function StructMembers(j: Json, goType: string): (r: Result<seq<Member>, Error>)
    ensures j.JObject? ==> r == Success(j.members)
    ensures j.JNull? ==> r == Success([])
    ensures !j.JObject? && !j.JNull? ==> r.Failure?
  {
    match j
    case JObject(ms) => Success(ms)
    case JNull => Success([])
    case _ => Failure("json: cannot unmarshal into Go value of type " + goType)
  }

  /** A `string` field: absent or `null` leaves "". */
  function StringField(members: seq<Member>, name: string): (r: Result<string, Error>)
    ensures r.Success? ==> Lookup(members, name) == Some(JString(r.value)) || (r.value == "" && Lookup(members, name) in {None, Some(JNull)})
    ensures r.Failure? <==> Lookup(members, name).Some? && !Lookup(members, name).value.JString? && !Lookup(members, name).value.JNull?
  {
    match Lookup(members, name)
    case None => Success("")
    case Some(JNull) => Success("")
    case Some(JString(s)) => Success(s)
    case Some(_) => Failure("json: cannot unmarshal " + name + " into Go value of type string")
  }

  /** A JSON object whose members are all strings, read as a Go map; a
      later duplicate key overwrites an earlier one. */
  function MembersToMap(members: seq<Member>): Option<map<string, string>>
  {
    if |members| == 0 then Some(map[])
    else
      var m :- MembersToMap(members[..|members| - 1]);
      var last := members[|members| - 1];
      match last.value
      case JString(s) => Some(m[last.name := s])
      case JNull => Some(m[last.name := ""])
      case _ => None
  }

  /** A `map[string]string` field: absent or `null` leaves the nil map,
      written `None`. */
  function StringMapField(members: seq<Member>, name: string): (r: Result<Option<map<string, string>>, Error>)
    ensures Lookup(members, name) in {None, Some(JNull)} ==> r == Success(None)
    ensures forall m :: Lookup(members, name) == Some(JStringMap(m)) ==> r == Success(Some(m))
  {
    match Lookup(members, name)
    case None => Success(None)
    case Some(JNull) => Success(None)
    case Some(JStringMap(m)) => Success(Some(m))
    case Some(JObject(ms)) =>
      (match MembersToMap(ms)
       case Some(m) => Success(Some(m))
       case None => Failure("json: cannot unmarshal " + name + " into Go value of type map[string]string"))
    case Some(_) => Failure("json: cannot unmarshal " + name + " into Go value of type map[string]string")
  }

  /** No two members share a name, as in every object an encoder writes. */
  ghost predicate DistinctNames(members: seq<Member>)
  {
    forall i, j :: 0 <= i < j < |members| ==> members[i].name != members[j].name
  }

  /** In an object without duplicate names, looking a member's name up
      finds that member. */
  lemma {:induction false} LookupDistinct(members: seq<Member>, i: nat)
    requires DistinctNames(members)
    requires i < |members|
    ensures Lookup(members, members[i].name) == Some(members[i].value)
  {
    if i < |members| - 1 {
      var init := members[..|members| - 1];
      assert init[i] == members[i];
      LookupDistinct(init, i);
    }
  }

  /** Looking a name up in two runs of members: the later run wins. */
  lemma {:induction false} LookupAppend(a: seq<Member>, b: seq<Member>, name: string)
    ensures Lookup(a + b, name) == if Lookup(b, name).Some? then Lookup(b, name) else Lookup(a, name)
    decreases |b|
  {
    if |b| == 0 {
      assert a + b == a;
    } else {
      assert (a + b)[..|a + b| - 1] == a + b[..|b| - 1];
      LookupAppend(a, b[..|b| - 1], name);
    }
  }

  /** A string member is read back as the string. */
  lemma StringFieldOf(members: seq<Member>, name: string, v: string)
    requires Lookup(members, name) == Some(JString(v))
    ensures StringField(members, name) == Success(v)
  {
  }
}
