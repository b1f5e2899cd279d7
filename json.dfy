/** The already-parsed JSON of a record line. Integers and doubles are kept
    apart as the JSON library keeps them; a line that does not parse has no
    document at all. */
module Json {
  import opened Wrappers
  import opened Exceptions

  datatype JsonValue =
    | JNull
    | JBool(b: bool)
    | JInt(i: int)
    | JReal(r: real)
    | JString(s: string)
    | JArray(items: seq<JsonValue>)
    | JObject(members: seq<(string, JsonValue)>)

  /** One line of a record file: its raw text and its parsed document
      (None when the text is not valid JSON). */
  datatype Line = Line(text: string, dom: Option<JsonValue>)

  /** The first member called `name`, as the JSON library's member lookup finds it. */
  function Lookup(members: seq<(string, JsonValue)>, name: string): (r: Option<JsonValue>)
    ensures r.Some? <==> exists k :: 0 <= k < |members| && members[k].0 == name
    ensures r.Some? ==> exists k :: 0 <= k < |members| && members[k] == (name, r.value)
    decreases |members|
  {
    if members == [] then None
    else if members[0].0 == name then Some(members[0].1)
    else
      var r := Lookup(members[1..], name);
      assert forall k :: 0 < k < |members| ==> members[k] == members[1..][k - 1];
      r
  }

  /** Member lookup; a value that is not an object has no members. */
  function Member(v: JsonValue, name: string): Option<JsonValue> {
    if v.JObject? then Lookup(v.members, name) else None
  }

  predicate HasMember(v: JsonValue, name: string) {
    Member(v, name).Some?
  }

  /** `v[name]` for a member known to exist. */
  function Get(v: JsonValue, name: string): JsonValue
    requires HasMember(v, name)
  {
    Member(v, name).value
  }

  /** GetUint(): an integer that fits in 32 unsigned bits. */
  function AsUint(v: JsonValue): (r: Result<nat, Error>)
    ensures r.Success? <==> v.JInt? && 0 <= v.i < UINT32_LIMIT
    ensures r.Success? ==> r.value == v.i
  {
    if v.JInt? && 0 <= v.i < UINT32_LIMIT then Success(v.i) else Failure(Malformed("not an unsigned 32-bit integer"))
  }

  /** GetUint64(). */
  function AsUint64(v: JsonValue): (r: Result<nat, Error>)
    ensures r.Success? <==> v.JInt? && 0 <= v.i < UINT64_LIMIT
    ensures r.Success? ==> r.value == v.i
  {
    if v.JInt? && 0 <= v.i < UINT64_LIMIT then Success(v.i) else Failure(Malformed("not an unsigned 64-bit integer"))
  }

  /** GetInt64(). */
  function AsInt64(v: JsonValue): (r: Result<int, Error>)
    ensures r.Success? <==> v.JInt? && -INT64_LIMIT <= v.i < INT64_LIMIT
    ensures r.Success? ==> r.value == v.i
  {
    if v.JInt? && -INT64_LIMIT <= v.i < INT64_LIMIT then Success(v.i) else Failure(Malformed("not a signed 64-bit integer"))
  }

  /** GetDouble(): any number, integers converted. */
  function AsDouble(v: JsonValue): (r: Result<real, Error>)
    ensures r.Success? <==> v.JInt? || v.JReal?
    ensures v.JReal? ==> r == Success(v.r)
    ensures v.JInt? ==> r == Success(v.i as real)
  {
    match v
    case JInt(i) => Success(i as real)
    case JReal(x) => Success(x)
    case _ => Failure(Malformed("not a number"))
  }

  function AsBool(v: JsonValue): (r: Result<bool, Error>)
    ensures r.Success? <==> v.JBool?
    ensures r.Success? ==> r.value == v.b
  {
    if v.JBool? then Success(v.b) else Failure(Malformed("not a boolean"))
  }

  function AsString(v: JsonValue): (r: Result<string, Error>)
    ensures r.Success? <==> v.JString?
    ensures r.Success? ==> r.value == v.s
  {
    if v.JString? then Success(v.s) else Failure(Malformed("not a string"))
  }

  /** GetArray(). */
  function AsArray(v: JsonValue): (r: Result<seq<JsonValue>, Error>)
    ensures r.Success? <==> v.JArray?
    ensures r.Success? ==> r.value == v.items
  {
    if v.JArray? then Success(v.items) else Failure(Malformed("not an array"))
  }

  /** GetObject(). */
  function AsObject(v: JsonValue): (r: Result<seq<(string, JsonValue)>, Error>)
    ensures r.Success? <==> v.JObject?
    ensures r.Success? ==> r.value == v.members
  {
    if v.JObject? then Success(v.members) else Failure(Malformed("not an object"))
  }

  /** `v[k]` on an array. */
  function Index(v: JsonValue, k: nat): (r: Result<JsonValue, Error>)
    ensures r.Success? <==> v.JArray? && k < |v.items|
    ensures r.Success? ==> r.value == v.items[k]
  {
    if v.JArray? && k < |v.items| then Success(v.items[k]) else Failure(Malformed("index outside the array"))
  }
}
