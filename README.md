# Vote relay model

A Dafny model of the vote relay of a Firebase Cloud Function
(`functions/index.js`). When a vote document is created under `votes/{userId}`,
the handler `recordVoteToSpreadsheet` looks up the voter's account, assembles a
payload `{secret, userId, userName, email, votedFor}` with placeholder defaults
for a missing name or e-mail, rejects votes that lack a required field, and
hands the payload to `sendToGoogleSheets`. That function refuses to send when
the spreadsheet URL is unset or still the placeholder, or when the payload's
secret does not match the configured one. Otherwise it POSTs the payload,
accumulates the response body chunk by chunk and classifies the reply as
success, rejection or parse error. Network errors and the 30-second timeout are
further failures. The handler returns the parsed reply on success and `null` on
every failure.

Everything is modelled as pure functions over explicit values, except the body
accumulation, which the source writes as `responseBody += chunk` and which is a
`method` with a loop here. The outside world is made of inputs:

- the identity lookup is a function `string -> Option<UserRecord>`, applied to
  the event's `userId`;
- the configuration (URL and secret) is a `Config` value;
- the network outcome of a written request is a `Transport`: a response with a
  status code and chunks, a network error, or a timeout;
- `JSON.parse` is a function `string -> Parsed` into an abstract JSON value.
  That value is an object with optional `status` and `message`, JSON `null`, any
  other value, or a parse failure.

Files:

- `wrappers.dfy`: `Option`.
- `jsvalues.dfy`: JavaScript truthiness of optional strings, `||` defaulting,
  and the abstract JSON value.
- `relay.dfy` (module `WebhookRelay`): `sendToGoogleSheets`.
- `handler.dfy` (module `Handler`): `recordVoteToSpreadsheet`.
- `scenarios.dfy`: concrete exchanges (echo success, HTTP 500 with a message,
  a body that is not JSON, the placeholder URL).

`Handler.Process` returns a trace of how the invocation ended. The cases are:
no event data, lookup failed, missing field, or relayed together with the
`Delivery`. A `Delivery` records the request written, if any, and the relay
result. `Handler.HandleEvent` reduces the trace to the handler's return value.
"No request is sent" is stated twice: the request field is `None`, and the
outcome is the same for every transport and parser.

## Model

| member | source | states |
|---|---|---|
| `JsValues.OrDefault` | functions/index.js:55-56 | JavaScript's logical or on an optional string yields the string when it is present and non-empty, else the fallback; an empty result needs an empty fallback |
| `WebhookRelay.Preflight` | functions/index.js:89-100 | no error exactly when the URL is set and not the placeholder and the payload secret is non-empty and equal to the configured one; a bad URL gives the configuration error whatever the secret; the authentication error comes only with a good URL |
| `WebhookRelay.AccumulateBody` | functions/index.js:118-122 | the loop that appends each chunk yields the concatenation of all chunks in arrival order |
| `WebhookRelay.ConcatAppend` | functions/index.js:118-122 | the body of chunks received in two batches is the two bodies joined |
| `WebhookRelay.ChunkAt` | functions/index.js:118-124 | each chunk appears unchanged in the body, at the offset given by everything that arrived before it, and that earlier text is a prefix of the body |
| `WebhookRelay.RejectionMessage` | functions/index.js:133 | the rejection text is the body's `message` when it is a truthy string, else "不明なエラー"; never empty; undefined for JSON `null`, whose member read throws |
| `WebhookRelay.Classify` | functions/index.js:124-138 | unparseable bodies and JSON `null` are parse errors; success exactly when the status is 200 and `status` is "success", and it carries the parsed body; everything else is a rejection with the defaulted message |
| `WebhookRelay.ParseFailureBeatsStatus` | functions/index.js:125-137 | a parse failure or JSON `null` is a parse error for every HTTP status |
| `WebhookRelay.NonOkStatusNeverSucceeds` | functions/index.js:128-133 | a status other than 200 never succeeds; with a non-null parsed body it is a rejection |
| `WebhookRelay.Relay` | functions/index.js:86-156 | a request is recorded exactly when the pre-send checks pass, with the configured URL text and the payload unchanged; a failed check is the result; the body given to the parser is the chunks' concatenation; network error and timeout map to their own failures; success implies a written request, HTTP 200 and `status` "success" |
| `WebhookRelay.CheckOrder` | functions/index.js:89-100 | a bad URL gives the configuration error before the secret is examined; a good URL with a bad secret gives the authentication error; either way the outcome does not depend on the network or the parser |
| `Handler.BuildPayload` | functions/index.js:52-58 | the payload carries the configured secret, the account's uid and the vote's `votedFor`; name and e-mail are the account's when non-empty, else "名前未設定" and "メール未設定"; name and e-mail are never empty |
| `Handler.Process` | functions/index.js:26-69 | missing event data ends the run first; a failed lookup of the event's `userId` ends it next; otherwise the payload is built from the account and the vote; the gate rejects it when a required field is missing, and only a payload that passes reaches the relay |
| `Handler.HandleEvent` | functions/index.js:26-80 | the result is non-null exactly when the run was relayed and delivered; it is then the parsed body, a request was written, and the body's `status` is "success" |
| `Handler.RequiredGate` | functions/index.js:52-64 | after defaulting, the gate rejects exactly an empty uid or a missing or empty `votedFor`; the e-mail arm never fires |
| `Handler.AuthenticatesIffSecretSet` | functions/index.js:96-100 | since the payload secret is the configured secret, authentication passes exactly when the configured secret is non-empty |
| `Handler.EmptySecretNeverSends` | functions/index.js:89-100 | with an empty configured secret no request is ever written; a relayed run ends in the authentication error, or the configuration error when the URL is also bad |
| `Handler.EarlyExitsSendNothing` | functions/index.js:31-64 | absent data, failed lookup or a missing field: the run is not relayed, no request is written, the handler returns null, and the run is the same for every transport and parser |
| `Handler.ValidEventSendsPayload` | functions/index.js:52-69 | a valid event with a configured URL and a non-empty secret writes exactly one request, to the configured URL, whose body is `{secret, uid, defaulted name, defaulted e-mail, votedFor}` |
| `Handler.RelayFailureReturnsNull` | functions/index.js:69-80 | every relay failure (configuration, authentication, network, timeout, rejection, parse error) makes the handler return null |
| `Scenarios.EchoSucceeds` | functions/index.js:117-130 | an HTTP 200 reply `{"status":"success","echo":true}` split over two chunks is delivered as the parsed body, after a request to the configured URL |
| `Scenarios.ServerErrorIsRejection` | functions/index.js:128-133 | HTTP 500 with body `{"message":"db down"}` is a rejection carrying "db down" |
| `Scenarios.NotJsonIsParseError` | functions/index.js:124-138 | HTTP 200 with body `not-json` is a parse error, not a rejection |
| `Scenarios.PlaceholderUrlIsConfigurationError` | functions/index.js:89-93 | the placeholder URL gives the configuration error and no request, whatever the network would do |

## Left out

- Firebase plumbing: trigger registration, `admin.initializeApp`, `setGlobalOptions` and `defineString` loading of the parameters (functions/index.js:6-21). These are framework calls. The configuration is a plain `Config` value, so the default secret `METAGRI_HIMITSU_WORD_VOTE` appears only as a possible input.
- The identity service `admin.auth().getUser`: an external call, modelled as the lookup function parameter.
- HTTP transport: `https.request`, headers, `Content-Length`, and `req.write`/`req.end` are I/O. The request written is recorded as destination URL plus payload. `JSON.stringify` is not modelled.
- WebhookRelay.Relay: the request is recorded with the configured URL text as its destination. The source parses that text with `new URL` and passes only the host name and the path with query to `https.request`, so it always connects over HTTPS on port 443; a port or an `http:` scheme in the URL is not honoured, and the model does not capture this. A URL text that `new URL` rejects makes the source throw before any request is created, so nothing is written and the handler returns null. The model has no URL parser: such a URL counts as a written request, and its transport outcome decides the result.
- `JSON.parse`: a library call, so it is a parameter. Only well-formed values (`JsValues.WellFormed`) stand for real JSON objects. JSON values are abstracted to the `status` and `message` members; a non-string `status` is treated as absent, which cannot change `=== "success"`.
- WebhookRelay.RejectionMessage: a non-string `message` (for example a number) is treated as absent. The source would use its string form when truthy, so the model gives "不明なエラー" where the source would show that text.
- Handler.BuildPayload: `displayName`, `email` and `votedFor` are strings or absent. Other falsy JavaScript values (`null`, `0`, `false`) count as absent, like `undefined`; other truthy non-string values are not modelled.
- Chunk decoding: chunks are already-decoded strings. In the source, appending a `Buffer` to a string decodes that chunk alone, which could split a multi-byte UTF-8 character at a chunk boundary. The model does not capture this.
- Timing and races: the 30-second socket timeout, `req.destroy()`, and the races between the timeout, error and end callbacks (a promise settles once) are wall-clock and concurrency concerns. A timeout is one outcome of `Transport`.
- Logging, error message texts and `Date.now()` duration measurement: observability only. Rejections carry the remote message (or the generic text) without the log prefix.
- `vite.config.js`: build and dev-server configuration, with no logic.
