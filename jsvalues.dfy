/** The few JavaScript value semantics the vote relay depends on: the
    truthiness of an optional string, the `||` defaulting idiom, and an
    abstract view of what `JSON.parse` returns. */
module JsValues {
  import opened Wrappers

  /** `!!s` for a string that may be `undefined`: only a present, non-empty
      string is truthy. */
  predicate Truthy(s: Option<string>)
  {
    s.Some? && s.value != ""
  }

  /** `s || fallback` on an optional string. */
  function OrDefault(s: Option<string>, fallback: string): (r: string)
    ensures Truthy(s) ==> r == s.value
    ensures !Truthy(s) ==> r == fallback
    ensures r == "" ==> fallback == ""
  {
    if Truthy(s) then s.value else fallback
  }

  /** A parsed JSON value, abstracted to what the relay reads from it: an
      object with its `status` and `message` members (absent ones are
      `None`) and its other members in their JSON text form, JSON `null`,
      or any other value (number, string, boolean, array), on which both
      member reads give `undefined`. A value is well formed when `members`
      holds neither "status" nor "message", which have their own fields. */
  datatype JsonValue =
    | JNull
    | JObject(status: Option<string>, message: Option<string>, members: map<string, string>)
    | JOther(text: string)

  /** One JSON object has one abstract value: `status` and `message` live in
      their own fields, never among the other members. */
  predicate WellFormed(v: JsonValue)
  {
    v.JObject? ==> "status" !in v.members && "message" !in v.members
  }

  /** The outcome of `JSON.parse` on a response body. */
  datatype Parsed = Parsed(value: JsonValue) | Unparseable
}
