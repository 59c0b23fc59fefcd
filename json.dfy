/**
 * The json-lib values the triggers work with, seen only through the operations
 * the triggers call on them: `names()`, `has(key)`, `getString(key)` and
 * `toString(4)`. Parsing itself (JSONSerializer.toJSON plus the cast to
 * JSONObject) is a parameter of the model, of type Parser.
 */
module Json {
  /** What `toString(4)` returns for an object: never empty (at least "{}"). */
  type Text = s: string | |s| > 0 witness "{}"

  /**
   * A JSONObject: `names` is the order `names()` lists the keys in, `fields`
   * maps each key to what `getString(key)` returns, `text` is `toString(4)`.
   */
  datatype JsonObject = JsonObject(names: seq<string>, fields: map<string, string>, text: Text)
  {
    /** `names()` lists exactly the keys of the object. */
    ghost predicate Valid() {
      && (forall i :: 0 <= i < |names| ==> names[i] in fields)
      && (forall k :: k in fields ==> k in names)
    }
  }

  /**
   * The outcome of `(JSONObject) JSONSerializer.toJSON(s)`: an object; JSON of
   * another kind (an array, `null`), for which the cast throws
   * ClassCastException; or text that is not JSON, for which json-lib throws
   * JSONException.
   */
  datatype Parsed = Object(obj: JsonObject) | NotAnObject | Malformed

  type Parser = string -> Parsed
}
