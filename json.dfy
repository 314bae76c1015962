/**
 * Decoded JSON values, as the plugin receives them from the game journal,
 * from the companion API and from the tracking service, together with the
 * two Python operations the plugin applies to them: truthiness (`not x`)
 * and the dictionary key test (`k in x` / `x[k]`).
 */
module Json {
  datatype Json =
    | JNull
    | JBool(b: bool)
    | JInt(i: int)
    | JStr(s: string)
    | JList(items: seq<Json>)
    | JObject(fields: map<string, Json>)

  /** Python's truth value of a decoded JSON value: None, False, 0, "", [] and {} are false. */
  predicate Truthy(j: Json) {
    match j
    case JNull => false
    case JBool(b) => b
    case JInt(i) => i != 0
    case JStr(s) => s != ""
    case JList(items) => items != []
    case JObject(fields) => fields != map[]
  }

  /** `k in j` for a JSON object; any other kind of value is taken to have no keys. */
  predicate HasKey(j: Json, k: string) {
    j.JObject? && k in j.fields
  }

  /** `j[k]` for an object that has the key. */
  function Field(j: Json, k: string): (v: Json)
    requires HasKey(j, k)
    ensures v in j.fields.Values
  {
    j.fields[k]
  }

  /** An object with a key is never falsy, so the `not response` test adds nothing once the key is found. */
  lemma HasKeyIsTruthy(j: Json, k: string)
    requires HasKey(j, k)
    ensures Truthy(j)
  {
    assert k in j.fields.Keys;
  }
}
