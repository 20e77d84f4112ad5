/** JSON documents as value trees (what `json.load` returns and `json.dump`
    consumes), and the subscripting the modelled code performs on them. */
module JsonValues {
  import opened Results
  import opened Errors

  /** An object is a dictionary from keys to members: as with Python's
      `dict`, a key occurs at most once and member order is immaterial. */
  datatype Json =
    | JObject(fields: map<string, Json>)
    | JArray(items: seq<Json>)
    | JInt(n: int)
    | JString(s: string)

  /** `obj[key]`: a `KeyError` when the key is absent, a type error when the
      value subscripted is not an object. */
  function Field(j: Json, key: string): Result<Json, Error> {
    if !j.JObject? then Err(WrongType(key))
    else if key !in j.fields then Err(MissingKey(key))
    else Ok(j.fields[key])
  }

  function IntField(j: Json, key: string): Result<int, Error> {
    var m :- Field(j, key);
    if m.JInt? then Ok(m.n) else Err(WrongType(key))
  }

  function StringField(j: Json, key: string): Result<string, Error> {
    var m :- Field(j, key);
    if m.JString? then Ok(m.s) else Err(WrongType(key))
  }

  /** The members of the array stored under `key` (what `for x in obj[key]` iterates). */
  function ArrayField(j: Json, key: string): Result<seq<Json>, Error> {
    var m :- Field(j, key);
    if m.JArray? then Ok(m.items) else Err(WrongType(key))
  }
}
