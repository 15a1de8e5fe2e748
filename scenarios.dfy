/** Concrete relay exchanges: an acknowledged vote whose body arrives in two
    chunks, a server error carrying a message, a body that is not JSON, and
    an undeployed URL. */
module Scenarios {
  import opened Wrappers
  import opened JsValues
  import opened WebhookRelay

  const Deployed: Config := Config("https://script.example/exec", "S1")
  const Vote: Payload := Payload("S1", "u1", "Alice", "alice@example.com", Some("farm-7"))

  /** A parser that knows the three bodies used below. */
  function SampleParse(body: string): (r: Parsed)
    ensures r.Parsed? ==> WellFormed(r.value)
  {
    if body == "{\"status\":\"success\",\"echo\":true}" then
      Parsed(JObject(Some("success"), None, map["echo" := "true"]))
    else if body == "{\"message\":\"db down\"}" then
      Parsed(JObject(None, Some("db down"), map[]))
    else Unparseable
  }

  /** An echoing endpoint answering 200: the relay succeeds and hands back
      the parsed body, reassembled from both chunks. */
  lemma EchoSucceeds()
    ensures Relay(Deployed, Vote, Response(200, ["{\"status\":\"success\",", "\"echo\":true}"]), SampleParse)
      == Delivery(Some(Request(Deployed.url, Vote)),
                  Delivered(JObject(Some("success"), None, map["echo" := "true"])))
  {
    var chunks := ["{\"status\":\"success\",", "\"echo\":true}"];
    assert chunks[..1] == ["{\"status\":\"success\","];
    assert Concat(chunks) == "{\"status\":\"success\",\"echo\":true}";
  }

  /** HTTP 500 with a message is a rejection carrying that message. */
  lemma ServerErrorIsRejection()
    ensures Relay(Deployed, Vote, Response(500, ["{\"message\":\"db down\"}"]), SampleParse).result
      == Failed(Rejection("db down"))
  {
  }

  /** HTTP 200 with a body that is not JSON is a parse error. */
  lemma NotJsonIsParseError()
    ensures Relay(Deployed, Vote, Response(200, ["not-json"]), SampleParse).result == Failed(ParseError)
  {
  }

  /** The placeholder URL stops the call before any request. */
  lemma PlaceholderUrlIsConfigurationError(t: Transport)
    ensures Relay(Config(UrlPlaceholder, "S1"), Vote, t, SampleParse) == Delivery(None, Failed(ConfigurationError))
  {
  }
}
