/** JSON values as the modelled code sees them after `json.load` or
    `response.json()`: Python's None, bool, int, str, list and dict. */
module Json {
  import opened Common
  import opened Strings

  datatype Json =
    | JNull
    | JBool(b: bool)
    | JInt(n: int)
    | JStr(s: string)
    | JArr(items: seq<Json>)
    | JObj(fields: map<string, Json>)

  /** Python truthiness of a decoded value. */
  predicate Truthy(j: Json) {
    match j
    case JNull => false
    case JBool(b) => b
    case JInt(n) => n != 0
    case JStr(s) => s != ""
    case JArr(items) => items != []
    case JObj(fields) => fields != map[]
  }

  /** Truthiness of an optional value, None being falsy. */
  predicate TruthyOpt(j: Option<Json>) {
    j.Some? && Truthy(j.value)
  }

  /** `x[key]` where `x` is an optional decoded value: a KeyError when a dict
      lacks the key, a TypeError when `x` is None or not a dict. */
  function Subscript(x: Option<Json>, key: string): (r: Result<Json>)
    ensures r.Ok? <==> x.Some? && x.value.JObj? && key in x.value.fields
    ensures r.Ok? ==> r.value == x.value.fields[key]
    ensures r.Err? && x.Some? && x.value.JObj? ==> r.error == KeyError(key)
    ensures r.Err? && !(x.Some? && x.value.JObj?) ==> r.error == TypeError
  {
    match x
    case Some(JObj(m)) => if key in m then Ok(m[key]) else Err(KeyError(key))
    case _ => Err(TypeError)
  }

  /** `x.get(key)` on a decoded value: the value, None when absent,
      an AttributeError when `x` is not a dict. */
  function GetKey(x: Json, key: string): (r: Result<Option<Json>>)
    ensures r.Ok? <==> x.JObj?
    ensures r.Ok? ==> (r.value.Some? <==> key in x.fields)
    ensures r.Ok? && key in x.fields ==> r.value == Some(x.fields[key])
  {
    match x
    case JObj(m) => Ok(if key in m then Some(m[key]) else None)
    case _ => Err(AttributeError)
  }

  // ---------------------------------------------------------------------------
  // Identifiers

  /** An identifier of the remote service as the code handles it: an
      integer, or None when the service sent null or no id at all. */
  type Id = Option<int>

  /** The identifier a decoded value denotes; ids that are neither integers
      nor null are outside the model. */
  function IdOf(j: Json): (r: Result<Id>)
    ensures r.Ok? <==> (j.JNull? || j.JInt?)
    ensures r == Ok(None) <==> j.JNull?
    ensures j.JInt? ==> r == Ok(Some(j.n))
  {
    match j
    case JNull => Ok(None)
    case JInt(n) => Ok(Some(n))
    case _ => Err(MalformedId)
  }

  /** The identifier `x.get("id")` yields, None when the key is absent. */
  function OptionalIdOf(x: Option<Json>): (r: Result<Id>)
    ensures x.None? ==> r == Ok(None)
    ensures x.Some? ==> r == IdOf(x.value)
  {
    match x
    case None => Ok(None)
    case Some(j) => IdOf(j)
  }

  /** How an identifier is sent in a JSON body. */
  function IdJson(id: Id): (j: Json)
    ensures IdOf(j) == Ok(id)
  {
    match id
    case None => JNull
    case Some(n) => JInt(n)
  }

  /** How an identifier is rendered into an endpoint (`f"{id}"`). */
  function IdText(id: Id): string {
    match id
    case None => "None"
    case Some(n) => IntToString(n)
  }

  /** The rendering of an integer id reads back as that id, and no integer
      renders as "None". */
  lemma IdTextRoundTrip(id: Id)
    ensures id.Some? ==> ParseInt(IdText(id)) == Some(id.value)
    ensures id.None? ==> ParseInt(IdText(id)) == None
  {
    if id.Some? {
      ParseIntToString(id.value);
    } else {
      assert Strip("None") == "None" by { StripUnpadded("None"); }
      assert !IsDigit('N');
    }
  }
}
