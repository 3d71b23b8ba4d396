/** Startup configuration and the `/alert/ban` handler as a pure pipeline
    (alert_bot/app.py:11-20, 105-162). */
module Alert {
  import opened Wrappers
  import opened Text
  import opened JsonValue
  import opened Payload
  import opened Timestamps
  import opened Auth
  import opened Embed

  /** The configuration read once at startup, every value stripped. */
  datatype Config = Config(apiKey: string, webhookUrl: string, mentionRoleId: string) {
    /** What startup guarantees: a shared secret and a webhook URL. */
    predicate Valid() {
      apiKey != [] && webhookUrl != []
    }
  }

  /** The `RuntimeError` that aborts startup. */
  datatype StartupError = MissingApiKey | MissingWebhookUrl

  /** `os.getenv(name, "")`. */
  function Getenv(env: map<string, string>, name: string): string {
    if name in env then env[name] else ""
  }

  /** Module start-up: read and strip the variables, and refuse to start
      without a secret or a webhook URL, the secret being checked first. */
  function LoadConfig(env: map<string, string>): (r: Result<Config, StartupError>)
    ensures r.Success? <==> Strip(Getenv(env, "API_KEY")) != [] && Strip(Getenv(env, "DISCORD_WEBHOOK_URL")) != []
    ensures r.Success? ==> r.value == Config(
      Strip(Getenv(env, "API_KEY")),
      Strip(Getenv(env, "DISCORD_WEBHOOK_URL")),
      Strip(Getenv(env, "MENTION_ROLE_ID")))
    ensures r.Success? ==> r.value.Valid() && Strip(r.value.apiKey) == r.value.apiKey
    ensures r == Failure(MissingApiKey) <==> Strip(Getenv(env, "API_KEY")) == []
  {
    var apiKey := Strip(Getenv(env, "API_KEY"));
    var webhookUrl := Strip(Getenv(env, "DISCORD_WEBHOOK_URL"));
    var roleId := Strip(Getenv(env, "MENTION_ROLE_ID"));
    if apiKey == [] then Failure(MissingApiKey)
    else if webhookUrl == [] then Failure(MissingWebhookUrl)
    else StripIdempotent(Getenv(env, "API_KEY")); Success(Config(apiKey, webhookUrl, roleId))
  }

  /** The request body after `json.loads(raw.decode("utf-8"))`. */
  datatype Body =
    | Undecodable                  // unreadable, not UTF-8, or not JSON
    | JsonObject(fields: Object)   // a JSON object
    | JsonNonObject                // valid JSON that is not an object

  /** What the webhook POST came back with. */
  datatype WebhookReply = Replied(status: int) | TransportError

  /** The handler's outcome. */
  datatype Outcome =
    | Unauthorized                                              // 401 invalid api key
    | InvalidJsonBody                                           // 422 invalid JSON body
    | SchemaInvalid                                             // 422 schema error
    | UpstreamFailed(upstreamStatus: int, sent: WebhookMessage) // 502 discord webhook failed
    | Delivered(sent: WebhookMessage)                           // 200 {"ok": true}
    | InternalError                                             // 500, an exception nothing catches

  function StatusCode(o: Outcome): int {
    match o
    case Unauthorized => 401
    case InvalidJsonBody => 422
    case SchemaInvalid => 422
    case UpstreamFailed(_, _) => 502
    case Delivered(_) => 200
    case InternalError => 500
  }

  /** Which status code each outcome carries. */
  lemma StatusCodes(o: Outcome)
    ensures StatusCode(o) == 401 <==> o.Unauthorized?
    ensures StatusCode(o) == 422 <==> o.InvalidJsonBody? || o.SchemaInvalid?
    ensures StatusCode(o) == 502 <==> o.UpstreamFailed?
    ensures StatusCode(o) == 200 <==> o.Delivered?
    ensures StatusCode(o) == 500 <==> o.InternalError?
  {
  }

  /** Posting the message and reading the webhook's answer: a status of 300
      or more becomes 502 carrying that status, a lower one `{"ok": true}`;
      an exception from the HTTP client is not caught. */
  function Forward(message: WebhookMessage, reply: WebhookReply): (o: Outcome)
    ensures o.UpstreamFailed? <==> reply.Replied? && reply.status >= 300
    ensures o.Delivered? <==> reply.Replied? && reply.status < 300
    ensures o.InternalError? <==> reply.TransportError?
    ensures o.UpstreamFailed? ==> o.upstreamStatus == reply.status && o.sent == message
    ensures o.Delivered? ==> o.sent == message
  {
    match reply
    case TransportError => InternalError
    case Replied(status) => if status >= 300 then UpstreamFailed(status, message) else Delivered(message)
  }

  /** The body is a JSON object that one of the two schemas accepts. */
  predicate Accepted(body: Body, now: string) {
    body.JsonObject? && Coerce(body.fields, now).Success?
  }

  /** Everything after authentication: decode, coerce, render, forward. A
      body that is not JSON, or an object neither schema accepts, is 422;
      JSON that is not an object makes `BanPayload(**d)` raise a `TypeError`
      that nothing catches. */
  function Process(cfg: Config, body: Body, now: string, fromIsoFormat: IsoParser, reply: WebhookReply): (o: Outcome)
    ensures !o.Unauthorized?
    ensures o.InvalidJsonBody? <==> body.Undecodable?
    ensures o.SchemaInvalid? <==> body.JsonObject? && !Accepted(body, now)
    ensures body.JsonNonObject? ==> o.InternalError?
    ensures Accepted(body, now) ==>
      o == Forward(BuildMessage(Coerce(body.fields, now).value, cfg.mentionRoleId, fromIsoFormat), reply)
  {
    match body
    case Undecodable => InvalidJsonBody
    case JsonNonObject => InternalError
    case JsonObject(d) =>
      match Coerce(d, now)
      case Failure(_) => SchemaInvalid
      case Success(p) => Forward(BuildMessage(p, cfg.mentionRoleId, fromIsoFormat), reply)
  }

  /** The handler once the key has been extracted, classified by status
      code. Earlier checks win: 401 exactly for a key other than the secret,
      before the body is looked at; then 422 for a body that is not JSON or
      an object neither schema accepts; then the webhook's answer, 502
      carrying its status when that is 300 or more and 200 otherwise; 500
      where the source lets an exception escape. */
  function Respond(cfg: Config, key: string, body: Body, now: string, fromIsoFormat: IsoParser, reply: WebhookReply): (o: Outcome)
    requires cfg.Valid()
    ensures StatusCode(o) == 401 <==> key != cfg.apiKey
    ensures StatusCode(o) == 422 <==>
      key == cfg.apiKey && (body.Undecodable? || (body.JsonObject? && !Accepted(body, now)))
    ensures StatusCode(o) == 502 <==> key == cfg.apiKey && Accepted(body, now) && reply.Replied? && reply.status >= 300
    ensures StatusCode(o) == 200 <==> key == cfg.apiKey && Accepted(body, now) && reply.Replied? && reply.status < 300
    ensures StatusCode(o) == 500 <==>
      key == cfg.apiKey && (body.JsonNonObject? || (Accepted(body, now) && reply.TransportError?))
    ensures o.UpstreamFailed? ==> reply == Replied(o.upstreamStatus)
    ensures o.UpstreamFailed? || o.Delivered? ==>
      o.sent == BuildMessage(Coerce(body.fields, now).value, cfg.mentionRoleId, fromIsoFormat)
  {
    if key != cfg.apiKey then Unauthorized
    else
      var o := Process(cfg, body, now, fromIsoFormat, reply);
      assert Accepted(body, now) ==> o == Forward(BuildMessage(Coerce(body.fields, now).value, cfg.mentionRoleId, fromIsoFormat), reply);
      StatusCodes(o);
      o
  }

  /** `alert_ban`: extract the key, then respond. Authentication comes
      first: the answer is 401 exactly when the extracted key differs from
      the secret, whatever the body; otherwise the body is processed. `now` is
      `datetime.utcnow().isoformat()`, `fromIsoFormat` stands for
      `datetime.fromisoformat`, and `reply` for the webhook's answer to the
      message the handler posts. */
  function HandleAlert(
    cfg: Config,
    xApiKey: Option<string>,
    authorization: Option<string>,
    body: Body,
    now: string,
    fromIsoFormat: IsoParser,
    reply: WebhookReply): (o: Outcome)
    requires cfg.Valid()
    ensures o == Unauthorized <==> ExtractApiKey(xApiKey, authorization) != cfg.apiKey
    ensures ExtractApiKey(xApiKey, authorization) == cfg.apiKey ==>
      o == Process(cfg, body, now, fromIsoFormat, reply)
  {
    Respond(cfg, ExtractApiKey(xApiKey, authorization), body, now, fromIsoFormat, reply)
  }

  /** A request without any usable credential is always rejected, because
      the secret is never empty: a missing or blank `x-api-key`, together
      with an `Authorization` header that is missing, has no space, names
      another scheme (`Basic k`) or carries a blank token (`Bearer `). */
  lemma NoCredentialRejected(
    cfg: Config, xApiKey: Option<string>, authorization: Option<string>, body: Body,
    now: string, fromIsoFormat: IsoParser, reply: WebhookReply)
    requires cfg.Valid()
    requires xApiKey.None? || Strip(xApiKey.value) == []
    requires CarriesNoBearerToken(authorization)
    ensures HandleAlert(cfg, xApiKey, authorization, body, now, fromIsoFormat, reply) == Unauthorized
  {
    if authorization.Some? && SplitAtSpace(authorization.value).Some? {
      var scheme, rest := SplitAtSpace(authorization.value).value.0, SplitAtSpace(authorization.value).value.1;
      BearerKey(xApiKey, scheme, rest);
    } else {
      NoBearerNoKey(xApiKey, authorization);
    }
  }

  /** The secret in the `x-api-key` header, with any whitespace before and
      after it, gets past authentication. The secret is non-empty and
      stripped, as every configuration `LoadConfig` accepts has it. */
  lemma HeaderSecretAccepted(
    cfg: Config, left: string, right: string, authorization: Option<string>, body: Body,
    now: string, fromIsoFormat: IsoParser, reply: WebhookReply)
    requires cfg.Valid() && Strip(cfg.apiKey) == cfg.apiKey
    requires AllSpace(left) && AllSpace(right)
    ensures HandleAlert(cfg, Some(left + cfg.apiKey + right), authorization, body, now, fromIsoFormat, reply) != Unauthorized
  {
    StripPadded(left, cfg.apiKey, right);
    HeaderKeyWins(left + cfg.apiKey + right, authorization);
  }

  /** A legacy body with `ip`, `reason` and `durationMinutes`, sent with the
      right key, is posted with the defaults filled in. */
  lemma LegacyRequestDelivered(
    cfg: Config, now: string, fromIsoFormat: IsoParser, status: int)
    requires cfg.Valid() && Strip(cfg.apiKey) == cfg.apiKey
    requires status < 300
    ensures
      HandleAlert(cfg, Some(cfg.apiKey), None,
        JsonObject(map["ip" := Str("10.0.0.5"), "reason" := Str("abuse"), "durationMinutes" := Int(60)]),
        now, fromIsoFormat, Replied(status))
      == Delivered(BuildMessage(
           BanPayload("10.0.0.5", "abuse", "TEMPORARY", now, None, Some("AUTO_BAN_SYSTEM"), Some(60)),
           cfg.mentionRoleId, fromIsoFormat))
  {
    var d := map["ip" := Str("10.0.0.5"), "reason" := Str("abuse"), "durationMinutes" := Int(60)];
    var p := BanPayload("10.0.0.5", "abuse", "TEMPORARY", now, None, Some("AUTO_BAN_SYSTEM"), Some(60));
    assert ExtractApiKey(Some(cfg.apiKey), None) == cfg.apiKey by {
      HeaderKeyWins(cfg.apiKey, None);
    }
    assert Accepted(JsonObject(d), now) && Coerce(d, now).value == p by {
      LegacyExample(now);
    }
    var o := Respond(cfg, cfg.apiKey, JsonObject(d), now, fromIsoFormat, Replied(status));
    assert HandleAlert(cfg, Some(cfg.apiKey), None, JsonObject(d), now, fromIsoFormat, Replied(status)) == o;
    assert o.Delivered? by {
      StatusCodes(o);
    }
    assert o.sent == BuildMessage(p, cfg.mentionRoleId, fromIsoFormat);
  }
}
