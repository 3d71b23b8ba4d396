/** The ban-event payload schema and `coerce_to_ban_payload`
    (alert_bot/app.py:28-48, 67-84). */
module Payload {
  import opened Wrappers
  import opened JsonValue

  /** The canonical record, `BanPayload`. */
  datatype BanPayload = BanPayload(
    ipAddress: string,
    reason: string,
    banType: string,
    bannedAt: string,
    expiresAt: Option<string>,
    bannedByAdminLoginId: Option<string>,
    durationMinutes: Option<int>)

  /** The `ValidationError` raised when neither schema fits. */
  datatype SchemaError = SchemaError

  const DefaultReason := "-"
  const DefaultBanType := "TEMPORARY"
  const DefaultAdmin := "AUTO_BAN_SYSTEM"

  /** Fits an `Optional[str]` field: absent, `null` or a string. */
  predicate IsOptStr(v: Value) {
    v.Null? || v.Str?
  }

  /** Fits an `Optional[int]` field: absent, `null` or an integer. */
  predicate IsOptInt(v: Value) {
    v.Null? || v.Int?
  }

  /** Whether `BanPayload(**d)` validates: the four required fields are
      strings, `expiresAt` and `bannedByAdminLoginId` are strings or missing,
      `durationMinutes` is an integer or missing. Other keys are ignored. */
  predicate ConformsToBanPayload(d: Object) {
    && Get(d, "ipAddress").Str?
    && Get(d, "reason").Str?
    && Get(d, "banType").Str?
    && Get(d, "bannedAt").Str?
    && IsOptStr(Get(d, "expiresAt"))
    && IsOptStr(Get(d, "bannedByAdminLoginId"))
    && IsOptInt(Get(d, "durationMinutes"))
  }

  /** Whether `LegacyBanPayload(**d)` would validate: only `ip` is required. */
  predicate ConformsToLegacyBanPayload(d: Object) {
    && IsOptStr(Get(d, "kind"))
    && IsOptStr(Get(d, "environment"))
    && Get(d, "ip").Str?
    && IsOptStr(Get(d, "reason"))
    && IsOptStr(Get(d, "banType"))
    && IsOptStr(Get(d, "bannedAt"))
    && IsOptStr(Get(d, "expiresAt"))
    && IsOptStr(Get(d, "by"))
    && IsOptInt(Get(d, "durationMinutes"))
  }

  function OptStr(v: Value): Option<string>
    requires IsOptStr(v)
  {
    if v.Str? then Some(v.s) else None
  }

  function OptInt(v: Value): Option<int>
    requires IsOptInt(v)
  {
    if v.Int? then Some(v.i) else None
  }

  function FromOptStr(o: Option<string>): Value {
    if o.Some? then Str(o.value) else Null
  }

  function FromOptInt(o: Option<int>): Value {
    if o.Some? then Int(o.value) else Null
  }

  /** The payload as a JSON object, every field present (`None` as `null`). */
  function ToObject(p: BanPayload): Object {
    map[
      "ipAddress" := Str(p.ipAddress),
      "reason" := Str(p.reason),
      "banType" := Str(p.banType),
      "bannedAt" := Str(p.bannedAt),
      "expiresAt" := FromOptStr(p.expiresAt),
      "bannedByAdminLoginId" := FromOptStr(p.bannedByAdminLoginId),
      "durationMinutes" := FromOptInt(p.durationMinutes)]
  }

  /** `BanPayload(**d)`: succeeds exactly on conforming objects, and the
      payload it builds holds the object's own field values. */
  function Validate(d: Object): (r: Option<BanPayload>)
    ensures r.Some? <==> ConformsToBanPayload(d)
    ensures r.Some? ==>
      && Get(d, "ipAddress") == Str(r.value.ipAddress)
      && Get(d, "reason") == Str(r.value.reason)
      && Get(d, "banType") == Str(r.value.banType)
      && Get(d, "bannedAt") == Str(r.value.bannedAt)
      && Get(d, "expiresAt") == FromOptStr(r.value.expiresAt)
      && Get(d, "bannedByAdminLoginId") == FromOptStr(r.value.bannedByAdminLoginId)
      && Get(d, "durationMinutes") == FromOptInt(r.value.durationMinutes)
  {
    if ConformsToBanPayload(d) then
      Some(BanPayload(
        Get(d, "ipAddress").s,
        Get(d, "reason").s,
        Get(d, "banType").s,
        Get(d, "bannedAt").s,
        OptStr(Get(d, "expiresAt")),
        OptStr(Get(d, "bannedByAdminLoginId")),
        OptInt(Get(d, "durationMinutes"))))
    else None
  }

  /** Validating the object form of a payload gives the payload back. */
  lemma ValidateToObject(p: BanPayload)
    ensures Validate(ToObject(p)) == Some(p)
  {
  }

  /** The legacy-to-canonical mapping: `ip` becomes `ipAddress`, `by` becomes
      `bannedByAdminLoginId`, and a falsy `reason`, `banType`, `bannedAt` or
      `by` is replaced by its default; `now` is the current UTC time rendered
      by `datetime.utcnow().isoformat()`. */
  function LegacyMap(d: Object, now: string): (m: Object)
    ensures ConformsToBanPayload(m) <==> LegacyMappable(d)
    ensures Get(m, "ipAddress") == Get(d, "ip")
    ensures Get(m, "expiresAt") == Get(d, "expiresAt")
    ensures Get(m, "durationMinutes") == Get(d, "durationMinutes")
    ensures Truthy(Get(m, "reason")) && Truthy(Get(m, "banType")) && Truthy(Get(m, "bannedByAdminLoginId"))
    ensures now != [] ==> Truthy(Get(m, "bannedAt"))
  {
    var m := map[
      "ipAddress" := Get(d, "ip"),
      "reason" := OrDefault(Get(d, "reason"), DefaultReason),
      "banType" := OrDefault(Get(d, "banType"), DefaultBanType),
      "bannedAt" := OrDefault(Get(d, "bannedAt"), now),
      "expiresAt" := Get(d, "expiresAt"),
      "bannedByAdminLoginId" := OrDefault(Get(d, "by"), DefaultAdmin),
      "durationMinutes" := Get(d, "durationMinutes")];
    assert Get(m, "reason") == OrDefault(Get(d, "reason"), DefaultReason);
    assert Get(m, "banType") == OrDefault(Get(d, "banType"), DefaultBanType);
    assert Get(m, "bannedAt") == OrDefault(Get(d, "bannedAt"), now);
    assert Get(m, "bannedByAdminLoginId") == OrDefault(Get(d, "by"), DefaultAdmin);
    m
  }

  /** `coerce_to_ban_payload(d)`: the new schema first, the legacy mapping
      only when that fails; `Failure` is the `ValidationError` it raises. */
  function Coerce(d: Object, now: string): (r: Result<BanPayload, SchemaError>)
    ensures r.Success? <==> ConformsToBanPayload(d) || LegacyMappable(d)
  {
    match Validate(d)
    case Some(p) => Success(p)
    case None =>
      match Validate(LegacyMap(d, now))
      case Some(p) => Success(p)
      case None => Failure(SchemaError)
  }

  /** A falsy value, or a string: what survives `v or default` as a string. */
  predicate StrOrFalsy(v: Value) {
    !Truthy(v) || v.Str?
  }

  /** What the legacy mapping accepts. */
  predicate LegacyMappable(d: Object) {
    && Get(d, "ip").Str?
    && StrOrFalsy(Get(d, "reason"))
    && StrOrFalsy(Get(d, "banType"))
    && StrOrFalsy(Get(d, "bannedAt"))
    && IsOptStr(Get(d, "expiresAt"))
    && StrOrFalsy(Get(d, "by"))
    && IsOptInt(Get(d, "durationMinutes"))
  }

  /** The string `v or default` yields, for a value that is a string or falsy. */
  function StrOr(v: Value, default: string): string
    requires StrOrFalsy(v)
  {
    if Truthy(v) then v.s else default
  }

  /** Strict first: an object that already validates is taken as it is. */
  lemma StrictFirst(d: Object, now: string, p: BanPayload)
    requires Validate(d) == Some(p)
    ensures Coerce(d, now) == Success(p)
  {
  }

  /** After the new schema fails, coercion succeeds exactly when the legacy
      mapping applies, and then every field is the legacy field or its default. */
  lemma LegacyFallback(d: Object, now: string)
    requires !ConformsToBanPayload(d)
    ensures Coerce(d, now).Success? <==> LegacyMappable(d)
    ensures Coerce(d, now).Success? ==>
      Coerce(d, now).value == BanPayload(
        Get(d, "ip").s,
        StrOr(Get(d, "reason"), DefaultReason),
        StrOr(Get(d, "banType"), DefaultBanType),
        StrOr(Get(d, "bannedAt"), now),
        OptStr(Get(d, "expiresAt")),
        Some(StrOr(Get(d, "by"), DefaultAdmin)),
        OptInt(Get(d, "durationMinutes")))
  {
    var m := LegacyMap(d, now);
    assert Get(m, "ipAddress") == Get(d, "ip");
    assert Get(m, "reason") == OrDefault(Get(d, "reason"), DefaultReason);
    assert Get(m, "banType") == OrDefault(Get(d, "banType"), DefaultBanType);
    assert Get(m, "bannedAt") == OrDefault(Get(d, "bannedAt"), now);
    assert Get(m, "expiresAt") == Get(d, "expiresAt");
    assert Get(m, "bannedByAdminLoginId") == OrDefault(Get(d, "by"), DefaultAdmin);
    assert Get(m, "durationMinutes") == Get(d, "durationMinutes");
  }

  /** A payload that came through the legacy mapping always names an admin,
      and its reason and type are never empty. */
  lemma LegacyDefaultsFilled(d: Object, now: string, p: BanPayload)
    requires !ConformsToBanPayload(d) && Coerce(d, now) == Success(p)
    ensures p.reason != [] && p.banType != []
    ensures p.bannedByAdminLoginId.Some? && p.bannedByAdminLoginId.value != []
    ensures now != [] ==> p.bannedAt != []
  {
    LegacyFallback(d, now);
  }

  /** An object that fails the new schema and has no string `ip` is rejected. */
  lemma MissingIpRejected(d: Object, now: string)
    requires !ConformsToBanPayload(d) && !Get(d, "ip").Str?
    ensures Coerce(d, now) == Failure(SchemaError)
  {
    LegacyFallback(d, now);
  }

  /** Every object in the legacy shape is accepted. */
  lemma LegacyShapeAccepted(d: Object, now: string)
    requires ConformsToLegacyBanPayload(d)
    ensures Coerce(d, now).Success?
  {
    if !ConformsToBanPayload(d) {
      LegacyFallback(d, now);
    }
  }

  /** Coercing the object form of a payload gives the payload back. */
  lemma CoerceToObject(p: BanPayload, now: string)
    ensures Coerce(ToObject(p), now) == Success(p)
  {
    ValidateToObject(p);
  }

  /** The same record in the legacy field names (`ip`, `by`). */
  function ToLegacyObject(p: BanPayload): Object {
    map[
      "ip" := Str(p.ipAddress),
      "reason" := Str(p.reason),
      "banType" := Str(p.banType),
      "bannedAt" := Str(p.bannedAt),
      "expiresAt" := FromOptStr(p.expiresAt),
      "by" := FromOptStr(p.bannedByAdminLoginId),
      "durationMinutes" := FromOptInt(p.durationMinutes)]
  }

  /** A record sent in the legacy field names comes out identical to the
      record itself, provided none of its defaulted fields is empty. */
  lemma LegacyNamesEquivalent(p: BanPayload, now: string)
    requires p.reason != [] && p.banType != [] && p.bannedAt != []
    requires p.bannedByAdminLoginId.Some? && p.bannedByAdminLoginId.value != []
    ensures Coerce(ToLegacyObject(p), now) == Success(p)
  {
    var d := ToLegacyObject(p);
    assert !ConformsToBanPayload(d) by {
      assert "ipAddress" !in d;
    }
    assert Get(d, "ip") == Str(p.ipAddress) && Get(d, "reason") == Str(p.reason);
    assert Get(d, "banType") == Str(p.banType) && Get(d, "bannedAt") == Str(p.bannedAt);
    assert Get(d, "expiresAt") == FromOptStr(p.expiresAt);
    assert Get(d, "by") == FromOptStr(p.bannedByAdminLoginId);
    assert Get(d, "durationMinutes") == FromOptInt(p.durationMinutes);
    LegacyFallback(d, now);
  }

  /** A legacy body carrying `ip`, `reason` and `durationMinutes` only. */
  lemma LegacyExample(now: string)
    ensures
      Coerce(map["ip" := Str("10.0.0.5"), "reason" := Str("abuse"), "durationMinutes" := Int(60)], now)
      == Success(BanPayload("10.0.0.5", "abuse", "TEMPORARY", now, None, Some("AUTO_BAN_SYSTEM"), Some(60)))
  {
    var d := map["ip" := Str("10.0.0.5"), "reason" := Str("abuse"), "durationMinutes" := Int(60)];
    assert "ipAddress" !in d && "banType" !in d && "bannedAt" !in d && "by" !in d && "expiresAt" !in d;
    LegacyFallback(d, now);
  }

  /** The legacy mapping reads the address only from `ip`: an object that
      names it `ipAddress` but lacks another required field is rejected. */
  lemma CanonicalIpAloneRejected(now: string)
    ensures Coerce(map["ipAddress" := Str("10.0.0.5")], now) == Failure(SchemaError)
  {
    var d := map["ipAddress" := Str("10.0.0.5")];
    assert "reason" !in d && "ip" !in d;
    MissingIpRejected(d, now);
  }

  /** A ban time given as a number is not a string, so the object is rejected. */
  lemma NumericBannedAtRejected(now: string)
    ensures Coerce(map["ip" := Str("10.0.0.5"), "bannedAt" := Int(1700000000)], now) == Failure(SchemaError)
  {
    var d := map["ip" := Str("10.0.0.5"), "bannedAt" := Int(1700000000)];
    assert "ipAddress" !in d && Get(d, "bannedAt") == Int(1700000000);
    LegacyFallback(d, now);
  }
}
