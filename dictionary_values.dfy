/**
 * The values a Firebase Realtime Database snapshot hands to Swift as `Any`.
 * Only the shapes that the modelled code tests with `as? String` and
 * `as? Int` are told apart; everything else is `OtherValue`.
 */
module DictionaryValues {

  import opened Wrappers

  datatype Value =
    | StringValue(s: string)
    | IntValue(n: int)
    | OtherValue

  /** A `[String: Any]` dictionary. */
  type Dictionary = map<string, Value>

  /** `dict[key] as? String` */
  function StringAt(dict: Dictionary, key: string): (r: Option<string>)
    ensures r.Some? <==> key in dict && dict[key].StringValue?
    ensures r.Some? ==> dict[key] == StringValue(r.value)
  {
    if key in dict && dict[key].StringValue? then Some(dict[key].s) else None
  }
}
