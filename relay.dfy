/** `sendToGoogleSheets`: the checks made before any request is built, the
    accumulation of the response body, and the classification of what came
    back. The HTTPS exchange itself is an input (`Transport`): it is the
    outcome the network would produce if the request were written. */
module WebhookRelay {
  import opened Wrappers
  import opened JsValues

  /** The sentinel an undeployed configuration carries as its URL. */
  const UrlPlaceholder: string := "YOUR_GAS_WEB_APP_URL_HERE"
  /** The rejection text used when the remote body has no truthy `message`. */
  const UnknownError: string := "不明なエラー"
  /** The only HTTP status that can mean success. */
  const HttpOk: int := 200

  /** Process-wide configuration: the spreadsheet endpoint and the shared
      secret, read once and never changed. */
  datatype Config = Config(url: string, secret: string)

  /** The object that is serialised as the request body. `votedFor` copies a
      field of the stored vote, which may be missing. */
  datatype Payload = Payload(
    secret: string,
    userId: string,
    userName: string,
    email: string,
    votedFor: Option<string>)

  /** The POST that is written to the network: destination and body. */
  datatype Request = Request(url: string, body: Payload)

  /** What the network does with a written request. */
  datatype Transport =
    | Response(statusCode: int, chunks: seq<string>)
    | NetworkError(detail: string)
    | Timeout

  /** The ways a relay call can be rejected. */
  datatype RelayError =
    | ConfigurationError
    | AuthenticationError
    | NetworkFailure(detail: string)
    | TimedOut
    | Rejection(message: string)
    | ParseError

  /** A resolved relay call carries the parsed response body. */
  datatype RelayResult = Delivered(body: JsonValue) | Failed(error: RelayError)

  /** One relay call: the request it wrote, if any, and how it ended. */
  datatype Delivery = Delivery(request: Option<Request>, result: RelayResult)

  // ---------------------------------------------------------------------
  // Checks made before any request is built

  /** The destination URL is set and is not the placeholder. */
  predicate UrlConfigured(url: string)
  {
    url != "" && url != UrlPlaceholder
  }

  /** The single point where the payload's secret is compared with the
      configured one; an empty secret never authenticates. */
  predicate Authenticate(cfg: Config, p: Payload)
  {
    p.secret != "" && p.secret == cfg.secret
  }

  /** The error, if any, that stops the call before a request exists. The
      URL is examined first, so a bad URL wins over a bad secret. */
  function Preflight(cfg: Config, p: Payload): (r: Option<RelayError>)
    ensures r.None? <==> UrlConfigured(cfg.url) && Authenticate(cfg, p)
    ensures r == Some(ConfigurationError) <==> !UrlConfigured(cfg.url)
    ensures r == Some(AuthenticationError) <==> UrlConfigured(cfg.url) && !Authenticate(cfg, p)
  {
    if !UrlConfigured(cfg.url) then Some(ConfigurationError)
    else if !Authenticate(cfg, p) then Some(AuthenticationError)
    else None
  }

  // ---------------------------------------------------------------------
  // Response body accumulation

  /** The chunks of a response joined in arrival order. */
  function Concat(chunks: seq<string>): string
  {
    if chunks == [] then "" else Concat(chunks[..|chunks| - 1]) + chunks[|chunks| - 1]
  }

  /** The `data` handler: starting from the empty string, every chunk is
      appended to the body as it arrives. */
  method AccumulateBody(chunks: seq<string>) returns (body: string)
    ensures body == Concat(chunks)
  {
    body := "";
    var i := 0;
    while i < |chunks|
      invariant 0 <= i <= |chunks|
      invariant body == Concat(chunks[..i])
    {
      assert chunks[..i + 1][..i] == chunks[..i];
      body := body + chunks[i];
      i := i + 1;
    }
    assert chunks[..i] == chunks;
  }

  /** Receiving chunks in two batches gives the two bodies joined. */
  lemma {:induction false} ConcatAppend(a: seq<string>, b: seq<string>)
    ensures Concat(a + b) == Concat(a) + Concat(b)
  {
    if b == [] {
      assert a + b == a;
    } else {
      var n := |b| - 1;
      assert (a + b)[..|a + b| - 1] == a + b[..n];
      ConcatAppend(a, b[..n]);
    }
  }

  /** Every chunk appears in the body unchanged, right after everything that
      arrived before it. */
  lemma ChunkAt(chunks: seq<string>, i: nat)
    requires i < |chunks|
    ensures |Concat(chunks[..i])| + |chunks[i]| <= |Concat(chunks)|
    ensures Concat(chunks)[..|Concat(chunks[..i])|] == Concat(chunks[..i])
    ensures Concat(chunks)[|Concat(chunks[..i])|..|Concat(chunks[..i])| + |chunks[i]|] == chunks[i]
  {
    var pre, rest := chunks[..i + 1], chunks[i + 1..];
    assert chunks == pre + rest;
    assert pre[..i] == chunks[..i];
    ConcatAppend(pre, rest);
    assert Concat(chunks) == Concat(chunks[..i]) + chunks[i] + Concat(rest);
  }

  // ---------------------------------------------------------------------
  // Response classification

  /** The remote acknowledged the vote: HTTP 200 and `status` exactly
      "success". */
  predicate IsSuccess(statusCode: int, v: JsonValue)
  {
    statusCode == HttpOk && v.JObject? && v.status == Some("success")
  }

  /** The text a rejection carries: the body's `message` when truthy,
      otherwise the generic text. Reading `message` of JSON `null` throws,
      which is why `null` is excluded. */
  function RejectionMessage(v: JsonValue): (m: string)
    requires v != JNull
    ensures m != ""
    ensures v.JObject? && Truthy(v.message) ==> m == v.message.value
    ensures !(v.JObject? && Truthy(v.message)) ==> m == UnknownError
  {
    match v
    case JObject(_, message, _) => OrDefault(message, UnknownError)
    case JOther(_) => UnknownError
  }

  /** The `end` handler: parse failures, and JSON `null` (whose member reads
      throw inside the same `try`), are parse errors whatever the status;
      otherwise success requires HTTP 200 and `status` "success", and every
      other outcome is a rejection. */
  function Classify(statusCode: int, parsed: Parsed): (r: RelayResult)
    ensures parsed.Unparseable? || parsed.value == JNull ==> r == Failed(ParseError)
    ensures parsed.Parsed? && parsed.value != JNull && IsSuccess(statusCode, parsed.value)
      ==> r == Delivered(parsed.value)
    ensures parsed.Parsed? && parsed.value != JNull && !IsSuccess(statusCode, parsed.value)
      ==> r == Failed(Rejection(RejectionMessage(parsed.value)))
    ensures r.Delivered? <==> parsed.Parsed? && IsSuccess(statusCode, parsed.value)
  {
    match parsed
    case Unparseable => Failed(ParseError)
    case Parsed(JNull) => Failed(ParseError)
    case Parsed(v) =>
      if IsSuccess(statusCode, v) then Delivered(v) else Failed(Rejection(RejectionMessage(v)))
  }

  /** A body that does not parse is a parse error, not a rejection, whatever
      the HTTP status. */
  lemma ParseFailureBeatsStatus(statusCode: int)
    ensures Classify(statusCode, Unparseable) == Failed(ParseError)
    ensures Classify(statusCode, Parsed(JNull)) == Failed(ParseError)
  {
  }

  /** A status other than 200 is never a success, whatever the body says. */
  lemma NonOkStatusNeverSucceeds(statusCode: int, parsed: Parsed)
    requires statusCode != HttpOk
    ensures Classify(statusCode, parsed).Failed?
    ensures parsed.Parsed? && parsed.value != JNull ==>
      Classify(statusCode, parsed) == Failed(Rejection(RejectionMessage(parsed.value)))
  {
  }

  // ---------------------------------------------------------------------
  // The whole relay call

  /** One call of the relay. A request is written only when both pre-send
      checks pass, and then it goes to the configured URL carrying the
      payload unchanged; the body handed to the parser is the concatenation
      of the received chunks. */
  function Relay(cfg: Config, p: Payload, transport: Transport, parse: string -> Parsed): (d: Delivery)
    ensures d.request.None? <==> Preflight(cfg, p).Some?
    ensures d.request.Some? ==> d.request.value == Request(cfg.url, p)
    ensures Preflight(cfg, p).Some? ==> d.result == Failed(Preflight(cfg, p).value)
    ensures d.request.Some? && transport.Response? ==>
      d.result == Classify(transport.statusCode, parse(Concat(transport.chunks)))
    ensures d.request.Some? && transport.NetworkError? ==> d.result == Failed(NetworkFailure(transport.detail))
    ensures d.request.Some? && transport.Timeout? ==> d.result == Failed(TimedOut)
    ensures d.result.Delivered? ==>
      && d.request.Some?
      && transport.Response?
      && transport.statusCode == HttpOk
      && parse(Concat(transport.chunks)) == Parsed(d.result.body)
      && d.result.body.JObject?
      && d.result.body.status == Some("success")
  {
    match Preflight(cfg, p)
    case Some(e) => Delivery(None, Failed(e))
    case None =>
      var result :=
        match transport
        case Response(code, chunks) => Classify(code, parse(Concat(chunks)))
        case NetworkError(detail) => Failed(NetworkFailure(detail))
        case Timeout => Failed(TimedOut);
      Delivery(Some(Request(cfg.url, p)), result)
  }

  /** A bad URL is reported as a configuration error before the secret is
      looked at; a good URL with a bad secret is an authentication error.
      Either way nothing is written and the network plays no part. */
  lemma CheckOrder(cfg: Config, p: Payload, t1: Transport, t2: Transport, parse1: string -> Parsed, parse2: string -> Parsed)
    ensures !UrlConfigured(cfg.url) ==> Relay(cfg, p, t1, parse1) == Delivery(None, Failed(ConfigurationError))
    ensures UrlConfigured(cfg.url) && !Authenticate(cfg, p) ==>
      Relay(cfg, p, t1, parse1) == Delivery(None, Failed(AuthenticationError))
    ensures Preflight(cfg, p).Some? ==> Relay(cfg, p, t1, parse1) == Relay(cfg, p, t2, parse2)
  {
  }
}
