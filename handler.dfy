/** `recordVoteToSpreadsheet`: the trigger handler that resolves the voter,
    assembles the payload with its defaults, gates on required fields and
    hands the payload to the relay. Every failure ends the invocation with a
    `null` result; the identity service, the network and the JSON parser are
    inputs. */
module Handler {
  import opened Wrappers
  import opened JsValues
  import opened WebhookRelay

  /** Placeholder user name for an account without a display name. */
  const NameUnset: string := "名前未設定"
  /** Placeholder e-mail for an account without an e-mail address. */
  const EmailUnset: string := "メール未設定"

  /** What the identity service returns for an account. */
  datatype UserRecord = UserRecord(uid: string, displayName: Option<string>, email: Option<string>)

  /** The fields of the stored vote document. */
  datatype VoteData = VoteData(votedFor: Option<string>)

  /** A creation event: the `userId` path parameter and the document
      snapshot, which may be absent. */
  datatype Event = Event(userId: string, data: Option<VoteData>)

  /** How one invocation ended. */
  datatype Run =
    | NoEventData
    | LookupFailed(userId: string)
    | MissingField(payload: Payload)
    | Relayed(payload: Payload, delivery: Delivery)

  /** The payload sent for a vote: the configured secret, the account's uid,
      and its name and e-mail defaulted with `||`, so that an empty string
      counts as absent. */
  function BuildPayload(cfg: Config, user: UserRecord, vote: VoteData): (p: Payload)
    ensures p.secret == cfg.secret && p.userId == user.uid && p.votedFor == vote.votedFor
    ensures Truthy(user.displayName) ==> p.userName == user.displayName.value
    ensures !Truthy(user.displayName) ==> p.userName == NameUnset
    ensures Truthy(user.email) ==> p.email == user.email.value
    ensures !Truthy(user.email) ==> p.email == EmailUnset
    ensures p.userName != "" && p.email != ""
  {
    Payload(
      cfg.secret,
      user.uid,
      OrDefault(user.displayName, NameUnset),
      OrDefault(user.email, EmailUnset),
      vote.votedFor)
  }

  /** The required-field check on the assembled payload. */
  predicate MissingRequired(p: Payload)
  {
    p.userId == "" || p.email == "" || !Truthy(p.votedFor)
  }

  /** One invocation of the handler, step by step: the snapshot check, the
      identity lookup of the event's `userId`, payload assembly, the
      required-field gate and finally the relay. */
  function Process(cfg: Config, event: Event, lookup: string -> Option<UserRecord>,
                   transport: Transport, parse: string -> Parsed): (run: Run)
    ensures event.data.None? <==> run.NoEventData?
    ensures run.LookupFailed? <==> event.data.Some? && lookup(event.userId).None?
    ensures run.LookupFailed? ==> run.userId == event.userId
    ensures run.MissingField? || run.Relayed? ==>
      && event.data.Some?
      && lookup(event.userId).Some?
      && run.payload == BuildPayload(cfg, lookup(event.userId).value, event.data.value)
    ensures run.MissingField? ==> MissingRequired(run.payload)
    ensures run.Relayed? ==>
      !MissingRequired(run.payload) && run.delivery == Relay(cfg, run.payload, transport, parse)
  {
    match event.data
    case None => NoEventData
    case Some(vote) =>
      match lookup(event.userId)
      case None => LookupFailed(event.userId)
      case Some(user) =>
        var p := BuildPayload(cfg, user, vote);
        if MissingRequired(p) then MissingField(p) else Relayed(p, Relay(cfg, p, transport, parse))
  }

  /** The request an invocation wrote to the network, if any. */
  function RequestOf(run: Run): Option<Request>
  {
    if run.Relayed? then run.delivery.request else None
  }

  /** The handler's return value: the parsed response body on success and
      `null` (here `None`) on every failure; nothing is thrown outward. */
  function HandleEvent(cfg: Config, event: Event, lookup: string -> Option<UserRecord>,
                       transport: Transport, parse: string -> Parsed): (r: Option<JsonValue>)
    ensures var run := Process(cfg, event, lookup, transport, parse);
      r.Some? <==> run.Relayed? && run.delivery.result.Delivered?
    ensures var run := Process(cfg, event, lookup, transport, parse);
      r.Some? ==> r.value == run.delivery.result.body && RequestOf(run).Some?
    ensures r.Some? ==> r.value.JObject? && r.value.status == Some("success")
  {
    var run := Process(cfg, event, lookup, transport, parse);
    if run.Relayed? && run.delivery.result.Delivered? then Some(run.delivery.result.body) else None
  }

  // ---------------------------------------------------------------------
  // Properties of the handler

  /** The e-mail arm of the required-field check can never fire: after
      defaulting, the gate rejects exactly an empty uid or a missing or
      empty `votedFor`. */
  lemma RequiredGate(cfg: Config, user: UserRecord, vote: VoteData)
    ensures MissingRequired(BuildPayload(cfg, user, vote)) <==> user.uid == "" || !Truthy(vote.votedFor)
  {
  }

  /** The payload always carries the configured secret, so the relay's
      authentication passes exactly when that secret is non-empty. */
  lemma AuthenticatesIffSecretSet(cfg: Config, user: UserRecord, vote: VoteData)
    ensures Authenticate(cfg, BuildPayload(cfg, user, vote)) <==> cfg.secret != ""
  {
  }

  /** An empty configured secret turns every relay attempt of the handler
      into an authentication error (or a configuration error, when the URL
      is also unset), and nothing is sent. */
  lemma EmptySecretNeverSends(cfg: Config, event: Event, lookup: string -> Option<UserRecord>,
                              transport: Transport, parse: string -> Parsed)
    requires cfg.secret == ""
    ensures var run := Process(cfg, event, lookup, transport, parse);
      && RequestOf(run).None?
      && (run.Relayed? && UrlConfigured(cfg.url) ==> run.delivery.result == Failed(AuthenticationError))
      && (run.Relayed? && !UrlConfigured(cfg.url) ==> run.delivery.result == Failed(ConfigurationError))
  {
  }

  /** Absent event data, a failed lookup and a missing required field all
      stop the handler before the relay: it returns `null`, writes nothing,
      and its outcome does not depend on the network or the parser. */
  lemma EarlyExitsSendNothing(cfg: Config, event: Event, lookup: string -> Option<UserRecord>,
                              t1: Transport, parse1: string -> Parsed, t2: Transport, parse2: string -> Parsed)
    requires || event.data.None?
             || lookup(event.userId).None?
             || MissingRequired(BuildPayload(cfg, lookup(event.userId).value, event.data.value))
    ensures var run := Process(cfg, event, lookup, t1, parse1);
      && !run.Relayed?
      && RequestOf(run).None?
      && HandleEvent(cfg, event, lookup, t1, parse1).None?
      && run == Process(cfg, event, lookup, t2, parse2)
  {
  }

  /** An event with data, a resolvable account with a non-empty uid, a
      non-empty `votedFor`, a configured URL and a non-empty secret leads to
      exactly one request, to the configured URL, whose body is the payload
      with the defaults applied. */
  lemma ValidEventSendsPayload(cfg: Config, event: Event, lookup: string -> Option<UserRecord>,
                               transport: Transport, parse: string -> Parsed)
    requires event.data.Some? && lookup(event.userId).Some?
    requires lookup(event.userId).value.uid != "" && Truthy(event.data.value.votedFor)
    requires UrlConfigured(cfg.url) && cfg.secret != ""
    ensures var user := lookup(event.userId).value;
      RequestOf(Process(cfg, event, lookup, transport, parse)) ==
        Some(Request(cfg.url, Payload(
          cfg.secret,
          user.uid,
          OrDefault(user.displayName, NameUnset),
          OrDefault(user.email, EmailUnset),
          event.data.value.votedFor)))
  {
  }

  /** Every relay failure (configuration, authentication, network error,
      timeout, rejection, parse error) makes the handler return `null`. */
  lemma RelayFailureReturnsNull(cfg: Config, event: Event, lookup: string -> Option<UserRecord>,
                                transport: Transport, parse: string -> Parsed)
    requires Process(cfg, event, lookup, transport, parse).Relayed?
    requires Process(cfg, event, lookup, transport, parse).delivery.result.Failed?
    ensures HandleEvent(cfg, event, lookup, transport, parse).None?
  {
  }
}
