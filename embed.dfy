/** The Discord webhook message built for a ban (alert_bot/app.py:131-154). */
module Embed {
  import opened Wrappers
  import opened Text
  import opened Payload
  import opened Timestamps

  datatype EmbedField = EmbedField(name: string, value: string, inline: bool)

  datatype Embed = Embed(
    title: string,
    description: string,
    color: int,
    fields: seq<EmbedField>,
    footer: string)

  /** The JSON body posted to the webhook: `content` plus one embed. */
  datatype WebhookMessage = WebhookMessage(content: string, embeds: seq<Embed>)

  const ColorRed := 0xE11D48
  const Title := "🚫 IP Banned"
  const Description := "자동/수동 차단 이벤트"
  const Footer := "MSG CTF • IPBan"

  /** The field labels, in display order: IP, type, reason, banned-at,
      expires-at, admin, duration in minutes. */
  const FieldNames: seq<string> := ["IP", "타입", "사유", "차단시각", "만료시각", "관리자", "기간(분)"]

  /** Only the reason is shown on a line of its own. */
  const FieldInline: seq<bool> := [true, true, false, true, true, true, true]

  /** `str(p.durationMinutes) if p.durationMinutes else "-"`. */
  function DurationText(d: Option<int>): (r: string)
    ensures r == "-" <==> d.None? || d.value == 0
    ensures d.Some? && d.value != 0 ==> r == IntToDecimal(d.value) && ParseInt(r) == d
  {
    if d.Some? && d.value != 0 then IntToDecimalRoundTrip(d.value); IntToDecimal(d.value) else "-"
  }

  /** `s or default` on an optional string. */
  function OptOr(o: Option<string>, default: string): (r: string)
    ensures o.Some? && o.value != [] ==> r == o.value
    ensures o.None? || o.value == [] ==> r == default
  {
    if o.Some? && o.value != [] then o.value else default
  }

  function ExpiresArg(o: Option<string>): IsoArg {
    if o.Some? then StrArg(o.value) else NoneArg
  }

  /** The seven embed fields of a payload, labelled and laid out in the fixed
      order. The type is shown as it is; an empty reason, a missing or empty
      admin and a missing or zero duration show a placeholder, and a
      duration otherwise shows as `str(n)`. */
  function RenderFields(p: BanPayload, fromIsoFormat: IsoParser): (fs: seq<EmbedField>)
    ensures |fs| == 7
    ensures forall i :: 0 <= i < 7 ==> fs[i].name == FieldNames[i] && fs[i].inline == FieldInline[i]
    ensures fs[1].value == p.banType
    ensures p.reason != [] ==> fs[2].value == p.reason
    ensures p.reason == [] ==> fs[2].value == "-"
    ensures p.bannedByAdminLoginId.Some? && p.bannedByAdminLoginId.value != [] ==>
      fs[5].value == p.bannedByAdminLoginId.value
    ensures p.bannedByAdminLoginId.None? || p.bannedByAdminLoginId.value == [] ==> fs[5].value == DefaultAdmin
    ensures p.durationMinutes.Some? && p.durationMinutes.value != 0 ==>
      fs[6].value == IntToDecimal(p.durationMinutes.value)
    ensures p.durationMinutes.None? || p.durationMinutes.value == 0 ==> fs[6].value == "-"
  {
    [ EmbedField(FieldNames[0], "`" + p.ipAddress + "`", FieldInline[0]),
      EmbedField(FieldNames[1], p.banType, FieldInline[1]),
      EmbedField(FieldNames[2], if p.reason != [] then p.reason else "-", FieldInline[2]),
      EmbedField(FieldNames[3], Iso(StrArg(p.bannedAt), fromIsoFormat), FieldInline[3]),
      EmbedField(FieldNames[4], Iso(ExpiresArg(p.expiresAt), fromIsoFormat), FieldInline[4]),
      EmbedField(FieldNames[5], OptOr(p.bannedByAdminLoginId, DefaultAdmin), FieldInline[5]),
      EmbedField(FieldNames[6], DurationText(p.durationMinutes), FieldInline[6]) ]
  }

  /** `f"<@&{MENTION_ROLE_ID}>" if MENTION_ROLE_ID else ""`. */
  function MentionContent(roleId: string): (content: string)
    ensures content == [] <==> roleId == []
    ensures roleId != [] ==> |content| == |roleId| + 4 && content[..3] == "<@&" && content[3..|content| - 1] == roleId && content[|content| - 1] == '>'
  {
    if roleId != [] then "<@&" + roleId + ">" else ""
  }

  /** The message posted for a payload: the role mention, then one embed
      with the fixed title, description, colour and footer around the
      payload's fields. */
  function BuildMessage(p: BanPayload, roleId: string, fromIsoFormat: IsoParser): (m: WebhookMessage)
    ensures m.content == MentionContent(roleId)
    ensures |m.embeds| == 1
    ensures m.embeds[0].title == Title && m.embeds[0].description == Description
    ensures m.embeds[0].color == ColorRed && m.embeds[0].footer == Footer
    ensures m.embeds[0].fields == RenderFields(p, fromIsoFormat)
  {
    WebhookMessage(
      MentionContent(roleId),
      [Embed(Title, Description, ColorRed, RenderFields(p, fromIsoFormat), Footer)])
  }

  /** The IP field gives back the payload's IP between its backticks. */
  lemma IpFieldRecoversAddress(p: BanPayload, fromIsoFormat: IsoParser)
    ensures var v := RenderFields(p, fromIsoFormat)[0].value;
      |v| >= 2 && v[0] == '`' && v[|v| - 1] == '`' && v[1..|v| - 1] == p.ipAddress
  {
  }

  /** The timestamp fields: "-" when there is nothing to show, otherwise
      `iso` of the payload's string. */
  lemma TimestampFields(p: BanPayload, fromIsoFormat: IsoParser)
    ensures p.expiresAt.None? ==> RenderFields(p, fromIsoFormat)[4].value == "-"
    ensures p.expiresAt.Some? ==> RenderFields(p, fromIsoFormat)[4].value == Iso(StrArg(p.expiresAt.value), fromIsoFormat)
    ensures p.bannedAt == [] ==> RenderFields(p, fromIsoFormat)[3].value == "-"
    ensures p.bannedAt != [] && fromIsoFormat(ReplaceZ(p.bannedAt)).None? ==>
      RenderFields(p, fromIsoFormat)[3].value == p.bannedAt
    ensures p.bannedAt != [] && fromIsoFormat(ReplaceZ(p.bannedAt)).Some? ==>
      RenderFields(p, fromIsoFormat)[3].value == fromIsoFormat(ReplaceZ(p.bannedAt)).value
  {
  }
}
