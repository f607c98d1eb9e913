/**
  Generic JSON values, the shape `encoding/json` produces when it decodes a
  document into `interface{}`: objects become `map[string]interface{}`, strings
  become `string`, and so on. Numbers are kept as their literal text because
  the handler never computes with them; it only asks whether a value is a
  string.
*/
module JsonValues {
  import opened Options

  datatype Json =
    | JNull
    | JBool(b: bool)
    | JNumber(literal: string)
    | JString(str: string)
    | JArray(items: seq<Json>)
    | JObject(fields: map<string, Json>)

  /** The comma-ok type assertion `obj[key].(string)`: the string stored under
      `key`, or `None` when the key is missing or holds any other kind of value. */
  function StringAt(obj: map<string, Json>, key: string): Option<string> {
    if key in obj then
      match obj[key]
      case JString(s) => Some(s)
      case _ => None
    else
      None
  }

  /** `getStringOrDefault`: a string stored under `key` wins; a missing key and a
      non-string value both give `default`. */
  function StringOrDefault(obj: map<string, Json>, key: string, default: string): (r: string)
    ensures key in obj && obj[key].JString? ==> r == obj[key].str
    ensures !(key in obj && obj[key].JString?) ==> r == default
  {
    StringAt(obj, key).GetOr(default)
  }

  /** A value that is not a string counts exactly as if the key were absent. */
  lemma NonStringCountsAsMissing(obj: map<string, Json>, key: string, default: string)
    requires key in obj && !obj[key].JString?
    ensures StringOrDefault(obj, key, default) == StringOrDefault(obj - {key}, key, default)
    ensures StringOrDefault(obj, key, default) == default
  {
  }

  /** The lookup only depends on the entry under `key`: other entries of the
      object are irrelevant, and a stored string makes the default irrelevant. */
  lemma StringOrDefaultIsLocal(obj: map<string, Json>, key: string, other: string, v: Json, d1: string, d2: string)
    requires other != key
    ensures StringOrDefault(obj[other := v], key, d1) == StringOrDefault(obj, key, d1)
    ensures StringAt(obj, key).Some? ==> StringOrDefault(obj, key, d1) == StringOrDefault(obj, key, d2)
  {
  }
}
