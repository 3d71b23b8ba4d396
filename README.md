# MSG Alert Bot: ban-event normalisation and forwarding, in Dafny

This project models the core of the ban-alert HTTP service in
`alert_bot/app.py`. The service receives a ban event on `POST /alert/ban`
and checks the caller's API key. It accepts the payload in the current
`BanPayload` shape, or in the older shape the backend used to send
(`ip`, `by`, missing fields). It renders the event as a Discord embed,
posts it to the configured webhook and reports the outcome as an HTTP
status.

The source is pure straight-line Python, so the model is made of
datatypes, functions and lemmas:

| file | module | models |
|---|---|---|
| `wrappers.dfy` | `Wrappers` | `Optional[...]` and raised errors (`Option`, `Result`) |
| `text.dfy` | `Text` | `str.strip()`, `str.split(" ", 1)`, `str.lower()`, `str(int)` |
| `json_value.dfy` | `JsonValue` | decoded JSON values, Python truthiness, `dict.get` |
| `payload.dfy` | `Payload` | `BanPayload` / `LegacyBanPayload` validation, `coerce_to_ban_payload` |
| `timestamps.dfy` | `Timestamps` | `iso` |
| `auth.dfy` | `Auth` | `extract_api_key` |
| `embed.dfy` | `Embed` | the embed fields, mention content and webhook message |
| `alert.dfy` | `Alert` | start-up configuration, the `alert_ban` pipeline and its status codes |

The handler is the function `Alert.HandleAlert`. Its inputs are:

- the two credential headers;
- the decoded body (`Undecodable`, a JSON object, or JSON that is not an object);
- the configuration;
- the current time as the string `datetime.utcnow().isoformat()` would give;
- `datetime.fromisoformat(...).isoformat()` as an opaque partial function;
- the webhook's reply (a status code, or an exception from the HTTP client).

Its result is the outcome, and for 502 and 200 the outcome carries the message that was posted.
`Alert.Respond` is the same pipeline once the key has been extracted. Its contract is
the full status-code classification.

Some consequences of the code that a reader might not expect:

- The mapper tries the `BanPayload` schema first and falls back to the legacy mapping; it does not look for a field under alternative names. `ipAddress` is read only by the strict schema and `ip` only by the legacy mapping. An object with `ipAddress` but no `reason` and no string `ip` is rejected (`Payload.CanonicalIpAloneRejected`); one that also carries a string `ip` is accepted by the legacy mapping.
- Timestamps are strings only. A numeric `bannedAt` is a schema error (`Payload.NumericBannedAtRejected`).
- An empty `ip` string is accepted as it is.
- The body is only ever decoded as UTF-8 JSON. A body that is not UTF-8 JSON is 422.
- Valid JSON that is not an object (`[]`, `"x"`, `null`) makes `BanPayload(**d)` raise `TypeError`. `except ValidationError` does not catch it, so the framework answers 500 (`Alert.InternalError`).
- A timeout or connection failure of the webhook POST is not caught either, so it is also 500, not 502.

## Model

| member | source | states |
|---|---|---|
| `Text.TrimLeft` | alert_bot/app.py:88-89 | `lstrip()` is a suffix of the input, everything it drops is whitespace (Python's `isspace` set), and it does not start with whitespace |
| `Text.TrimRight` | alert_bot/app.py:88-89 | `rstrip()` is a prefix of the input, everything it drops is whitespace, and it does not end with whitespace |
| `Text.Strip` | alert_bot/app.py:88-89 | `str.strip()` is an infix of the input with only whitespace before and after it, has no whitespace at either end, and is empty exactly when the input is all whitespace |
| `Text.StripIdempotent` | alert_bot/app.py:88-93 | stripping twice is stripping once |
| `Text.StripPadded` | alert_bot/app.py:88-89 | any whitespace before and any (possibly different) whitespace after a stripped non-blank string strips away to exactly that string |
| `Text.SplitAtSpace` | alert_bot/app.py:91 | `split(" ", 1)` has one part exactly when there is no space; otherwise head + " " + tail rebuilds the input and the head has no space |
| `Text.SplitAtSpaceOfJoin` | alert_bot/app.py:91-92 | splitting `head + " " + tail` (head without space) gives back head and tail: the split is the inverse of the join |
| `Text.Lower` | alert_bot/app.py:92 | lower-casing keeps the length and maps every character independently |
| `Text.NatToDecimal` | alert_bot/app.py:140 | `str(n)` is a non-empty digit string without leading zero |
| `Text.IntToDecimal` | alert_bot/app.py:140 | `str(i)` is canonical (optional minus sign, digits, no leading zero, no "-0"), and starts with "-" exactly for negatives |
| `Text.ParseInt` | alert_bot/app.py:140 | the decimal reader that `str(i)` is checked against: it accepts exactly an optional `-` followed by at least one ASCII digit, and the result's sign follows the sign written |
| `Text.IntToDecimalRoundTrip` | alert_bot/app.py:140 | `int(str(i)) == i` |
| `Text.IntToDecimalUnique` | alert_bot/app.py:140 | a canonical string that parses to `i` is `str(i)`: `str` is the only canonical rendering |
| `JsonValue.OrDefault` | alert_bot/app.py:77-81 | `v or default` keeps a truthy value, and a falsy one (missing, `null`, `""`, 0, `false`, empty container) gives the default |
| `Payload.Validate` | alert_bot/app.py:28-35 | `BanPayload(**d)` succeeds exactly on objects whose four required fields are strings, two optional fields strings or missing, `durationMinutes` int or missing; the result holds the object's own values |
| `Payload.ValidateToObject` | alert_bot/app.py:28-35 | validating a payload's object form gives the payload back |
| `Payload.LegacyMap` | alert_bot/app.py:75-83 | the mapped object validates as `BanPayload` exactly when the legacy mapping applies; `ip`, `expiresAt` and `durationMinutes` are copied, and reason, type and admin are always truthy (ban time too when `now` is non-empty) |
| `Payload.Coerce` | alert_bot/app.py:67-84 | `coerce_to_ban_payload` succeeds exactly when the object fits `BanPayload` or the legacy mapping applies |
| `Payload.StrictFirst` | alert_bot/app.py:69-72 | an object that validates as `BanPayload` is returned as exactly that payload |
| `Payload.LegacyFallback` | alert_bot/app.py:74-84 | after the strict schema fails, coercion succeeds exactly when the legacy mapping applies, and then each field is the legacy value or its default (`-`, `TEMPORARY`, now, `AUTO_BAN_SYSTEM`), IP only from `ip`, admin only from `by` |
| `Payload.LegacyDefaultsFilled` | alert_bot/app.py:77-81 | a legacy-mapped payload always has a non-empty reason, type and admin |
| `Payload.MissingIpRejected` | alert_bot/app.py:76-84 | an object failing the strict schema with no string `ip` is a schema error |
| `Payload.LegacyShapeAccepted` | alert_bot/app.py:39-84 | every object in the `LegacyBanPayload` shape is accepted |
| `Payload.CoerceToObject` | alert_bot/app.py:67-72 | coercing a payload's object form gives the payload back |
| `Payload.LegacyNamesEquivalent` | alert_bot/app.py:74-84 | a record sent under the legacy names `ip`/`by` coerces to the same record as under the canonical names, when its defaulted fields are non-empty |
| `Payload.LegacyExample` | alert_bot/app.py:75-84 | `{"ip": "10.0.0.5", "reason": "abuse", "durationMinutes": 60}` becomes type `TEMPORARY`, banned now, admin `AUTO_BAN_SYSTEM` |
| `Payload.CanonicalIpAloneRejected` | alert_bot/app.py:76-84 | `{"ipAddress": ...}` alone is rejected: the legacy path reads only `ip` |
| `Payload.NumericBannedAtRejected` | alert_bot/app.py:79-84 | a numeric `bannedAt` is truthy, kept, and fails the string field |
| `Timestamps.ReplaceZ` | alert_bot/app.py:59 | `replace("Z", "+00:00")` leaves no `Z`, never shortens, and changes nothing in a string without one |
| `Timestamps.ReplaceZConcat` | alert_bot/app.py:59 | replacing in `a + b` is replacing in `a` followed by replacing in `b` |
| `Timestamps.ReplaceZChar` | alert_bot/app.py:59 | a lone `Z` becomes `+00:00` and any other character stays; with `ReplaceZConcat` this fixes the result for every string |
| `Timestamps.Iso` | alert_bot/app.py:54-64 | never raises: "-" for `None`/"", the parser's rendering when the string parses, the string verbatim when it does not, `isoformat()`/`str()` otherwise |
| `Timestamps.IsoIdempotent` | alert_bot/app.py:54-61 | with a parser whose renderings re-parse to themselves, contain no `Z` and are not "-", displaying a displayed timestamp changes nothing |
| `Auth.ExtractApiKey` | alert_bot/app.py:87-94 | the extracted key is always already stripped |
| `Auth.HeaderKeyWins` | alert_bot/app.py:88-89 | a non-blank `x-api-key` gives its stripped value, whatever `Authorization` holds |
| `Auth.BearerKey` | alert_bot/app.py:90-94 | otherwise `scheme + " " + rest` gives stripped `rest` exactly when the scheme lower-cases to `bearer`, else "" |
| `Auth.NoBearerNoKey` | alert_bot/app.py:90-94 | no usable `x-api-key` and no space-separated `Authorization` gives "" |
| `Auth.BearerExample` | alert_bot/app.py:90-93 | `Bearer s3cret` gives `s3cret` |
| `Auth.BasicSchemeExample` | alert_bot/app.py:90-94 | `Basic s3cret` gives "" |
| `Embed.DurationText` | alert_bot/app.py:140 | "-" exactly when the duration is `None` or 0, otherwise `str(n)`, which parses back to `n` |
| `Embed.OptOr` | alert_bot/app.py:139 | a present non-empty admin is shown as is; a missing or empty one gives the default |
| `Embed.MentionContent` | alert_bot/app.py:143 | `content` is empty exactly without a role id, otherwise `<@&` + id + `>` |
| `Embed.RenderFields` | alert_bot/app.py:133-141 | exactly seven fields labelled IP, type, reason, banned-at, expires-at, admin, duration with fixed inline flags; type shown as is; reason or "-" when empty; admin or `AUTO_BAN_SYSTEM` when missing or empty; `str(duration)` or "-" when `None` or 0 |
| `Embed.BuildMessage` | alert_bot/app.py:143-154 | content is the role mention; exactly one embed with the fixed title, description, colour and footer, holding the payload's fields |
| `Embed.IpFieldRecoversAddress` | alert_bot/app.py:134 | the IP field is the address between two backticks |
| `Embed.TimestampFields` | alert_bot/app.py:137-138 | a missing expiry shows "-", a present one its `iso`; an empty ban time shows "-", an unparseable one verbatim, a parseable one (after `Z` to `+00:00`) as the parser renders it |
| `Alert.LoadConfig` | alert_bot/app.py:11-20 | start-up succeeds exactly when the stripped `API_KEY` and `DISCORD_WEBHOOK_URL` are non-empty (the key checked first), and the configuration kept is the stripped `API_KEY`, `DISCORD_WEBHOOK_URL` and `MENTION_ROLE_ID` |
| `Alert.StatusCodes` | alert_bot/app.py:113-162 | each outcome's HTTP status: 401, 422 (JSON or schema), 502, 200, 500 |
| `Alert.Forward` | alert_bot/app.py:156-162 | a webhook status of 300 or more gives 502 carrying it, a lower one success, a client exception 500; both carry the posted message |
| `Alert.Process` | alert_bot/app.py:116-162 | after authentication: undecodable body is the JSON 422, a rejected object the schema 422, non-object JSON 500, an accepted one is forwarded with its rendered message; never 401 |
| `Alert.Respond` | alert_bot/app.py:112-162 | the classification: 401 iff wrong key; 422 iff right key and bad JSON or schema; 502 iff accepted and webhook >= 300; 200 iff accepted and webhook < 300; 500 iff non-object JSON or client exception; 502 carries the webhook status; what was posted is the message of the coerced payload |
| `Alert.HandleAlert` | alert_bot/app.py:105-162 | `alert_ban` answers 401 exactly when the extracted key differs from `API_KEY`, whatever the body; with the right key the answer is that of processing the body |
| `Alert.NoCredentialRejected` | alert_bot/app.py:87-114 | with a missing or blank `x-api-key` and an `Authorization` that is missing, has no space, names a scheme other than `bearer` or carries a blank token, the request is always 401, because the secret is non-empty |
| `Alert.HeaderSecretAccepted` | alert_bot/app.py:111-114 | for any configuration whose secret is non-empty and stripped (every one `LoadConfig` accepts), the secret in `x-api-key` with any whitespace before and after it passes authentication |
| `Alert.LegacyRequestDelivered` | alert_bot/app.py:105-162 | a legacy body with the right key and a webhook answer below 300 is delivered with the defaulted payload's message |

## Left out

- FastAPI routing, `/healthz` and `uvicorn.run` are framework plumbing.
- The body is read and parsed by `request.body()` and `json.loads`. The model takes the result as an input (`Alert.Body`); what decodes is not modelled.
- The httpx POST is network I/O. The webhook's reply, a status or a client exception, is an input. The error `detail` texts, including the webhook's response body, are not modelled.
- `datetime.utcnow()` is a clock read. It is an input string (`now`).
- `datetime.fromisoformat` is a parameter, so which strings parse is not modelled.
- `DEBUG_LOGS` and the `print` of the raw body are not modelled. The `print` sits inside the `try` whose failure is answered 422, so if printing raises (for example a `UnicodeEncodeError` on a stdout that cannot encode the body), a valid JSON body is answered 422. The model always treats a decodable body as decoded.
- Alert.LoadConfig: does not model `HTTP_TIMEOUT`. It is only the HTTP client's timeout, but a value `int()` cannot parse also aborts start-up.
- Payload.Validate: states the schema as an explicit predicate (required strings, optional strings, optional int). Pydantic's own lax coercions are not modelled, for example a float `60.0` or a bool for an `int` field, or a number for a `str` field under pydantic v1. These values are `JsonValue.Other` or `Int` and are rejected where the predicate says so. The same holds for a numeric string such as `"60"` for `durationMinutes`: pydantic's lax mode turns it into the integer 60 and the source delivers the event, while the model holds it as a `Str` and answers 422.
- Text.ParseInt: reads only what `str(i)` writes (an optional `-`, then ASCII digits). It is narrower than Python's `int()`, which also accepts a `+` sign, surrounding whitespace, `_` separators and non-ASCII digits; the source itself never calls `int()` on request data.
- Text.Lower: maps ASCII letters only. The result is only compared with `bearer`, and no non-ASCII character lower-cases to one of its letters, so the comparison is the same as Python's.
- `JsonValue.Value` keeps only the truthiness of booleans, floats, arrays and nested objects. The code only tests them with `or` and with the schema.
- Header lookup details are not modelled: name case-insensitivity, and duplicate headers. Each credential header is an optional string.
