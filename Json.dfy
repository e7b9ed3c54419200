/** The part of org.json's object model that the Cognito client touches: a JSON
    value, an object as a map from key to value, and the typed getters, which
    throw a JSONException when the key is absent or holds another kind of value. */
module Json {
  import opened Wrappers

  datatype Json =
    | JNull
    | JBool(b: bool)
    | JInt(i: int)
    | JString(s: string)
    | JObject(fields: map<string, Json>)

  type JsonObject = map<string, Json>

  /** The JSONException a getter throws. */
  datatype JsonError = NoValue(key: string) | WrongType(key: string)

  function GetString(o: JsonObject, key: string): (r: Result<string, JsonError>)
    ensures r.Success? <==> key in o && o[key].JString?
    ensures r.Success? ==> o[key] == JString(r.value)
  {
    if key !in o then Failure(NoValue(key))
    else if o[key].JString? then Success(o[key].s)
    else Failure(WrongType(key))
  }

  function GetInt(o: JsonObject, key: string): (r: Result<int, JsonError>)
    ensures r.Success? <==> key in o && o[key].JInt?
    ensures r.Success? ==> o[key] == JInt(r.value)
  {
    if key !in o then Failure(NoValue(key))
    else if o[key].JInt? then Success(o[key].i)
    else Failure(WrongType(key))
  }

  function GetBoolean(o: JsonObject, key: string): (r: Result<bool, JsonError>)
    ensures r.Success? <==> key in o && o[key].JBool?
    ensures r.Success? ==> o[key] == JBool(r.value)
  {
    if key !in o then Failure(NoValue(key))
    else if o[key].JBool? then Success(o[key].b)
    else Failure(WrongType(key))
  }

  function GetObject(o: JsonObject, key: string): (r: Result<JsonObject, JsonError>)
    ensures r.Success? <==> key in o && o[key].JObject?
    ensures r.Success? ==> o[key] == JObject(r.value)
  {
    if key !in o then Failure(NoValue(key))
    else if o[key].JObject? then Success(o[key].fields)
    else Failure(WrongType(key))
  }

  /** `JSONObject(map)`: every entry of a string map as a JSON string. */
  function FromStringMap(m: map<string, string>): (r: JsonObject)
    ensures r.Keys == m.Keys
    ensures forall k :: k in r ==> r[k] == JString(m[k])
  {
    map k | k in m :: JString(m[k])
  }

  /** Reads back a JSON object all of whose values are strings. */
  function ToStringMap(o: JsonObject): (r: Option<map<string, string>>)
    ensures r.Some? <==> forall k :: k in o ==> o[k].JString?
    ensures r.Some? ==> r.value.Keys == o.Keys && forall k :: k in o ==> o[k] == JString(r.value[k])
  {
    if forall k :: k in o ==> o[k].JString? then Some(map k | k in o :: o[k].s) else None
  }

  lemma StringMapRoundTrip(m: map<string, string>)
    ensures ToStringMap(FromStringMap(m)) == Some(m)
  {
    var back := ToStringMap(FromStringMap(m));
    assert back.Some?;
    assert back.value.Keys == m.Keys;
    forall k | k in m ensures back.value[k] == m[k] {
      assert FromStringMap(m)[k] == JString(back.value[k]);
    }
    assert back.value == m;
  }
}
