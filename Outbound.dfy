/**
 * The outbound dispatcher: `send` and the five `send*Msg` payload builders.
 * A payload is the object handed to `JSON.stringify`; a field whose value is
 * `undefined` is dropped by the serialiser, so such fields are `Option` here.
 */
module Outbound {
  import opened Wrappers
  import opened JsText
  import opened Normalizer

  /** Caller-supplied JSON (button and quick-reply definitions), passed through untouched. */
  datatype Json =
    | JNull
    | JBool(b: bool)
    | JNumber(n: real)
    | JString(s: string)
    | JArray(items: seq<Json>)
    | JObject(fields: seq<(string, Json)>)

  /** The Hubot envelope of a send: only `user.id` is read. */
  datatype Envelope = Envelope(user: User)

  /** The `para` argument of `send`. */
  datatype Para = Para(kind: string, text: string, buttons: Option<Json>, quickReplies: Option<Json>)

  datatype Recipient = Recipient(id: string)

  datatype AttachmentPayload =
    | TemplatePayload(templateType: string, text: string, buttons: Option<Json>)
    | UrlPayload(url: string)

  datatype OutAttachment = OutAttachment(attachmentType: string, payload: AttachmentPayload)

  datatype OutMessage = OutMessage(text: Option<string>, attachment: Option<OutAttachment>, quickReplies: Option<Json>)

  datatype Payload = Payload(recipient: Recipient, message: OutMessage)

  /** The platform's limit on free text, applied with `substring(0, 320)`. */
  const TextLimit: nat := 320

  function Truncate(text: string): (r: string)
    ensures |r| == Min(|text|, TextLimit) && r <= text
  {
    Substring0(text, TextLimit)
  }

  function ButtonMsg(envelope: Envelope, text: string, buttons: Option<Json>): (p: Payload)
    ensures p.recipient.id == envelope.user.id && KindOf(p) == Some("button")
    ensures FreeText(p) == Some(Truncate(text)) && p.message.attachment.value.payload.buttons == buttons
  {
    Payload(Recipient(envelope.user.id),
      OutMessage(None, Some(OutAttachment("template", TemplatePayload("button", Truncate(text), buttons))), None))
  }

  function TextMsg(envelope: Envelope, text: string): (p: Payload)
    ensures p.recipient.id == envelope.user.id && KindOf(p) == Some("text")
    ensures FreeText(p) == Some(Truncate(text)) && ImageUrl(p).None?
  {
    Payload(Recipient(envelope.user.id), OutMessage(Some(Truncate(text)), None, None))
  }

  function QuickReplyMsg(envelope: Envelope, text: string, quickReplies: Option<Json>): (p: Payload)
    ensures p.recipient.id == envelope.user.id && KindOf(p) == Some(if quickReplies.Some? then "quick_replies" else "text")
    ensures FreeText(p) == Some(Truncate(text)) && p.message.quickReplies == quickReplies
  {
    Payload(Recipient(envelope.user.id), OutMessage(Some(Truncate(text)), None, quickReplies))
  }

  function ImageQuickReplyMsg(envelope: Envelope, url: string, quickReplies: Option<Json>): (p: Payload)
    ensures p.recipient.id == envelope.user.id && KindOf(p) == Some(if quickReplies.Some? then "image_quick_replies" else "image")
    ensures ImageUrl(p) == Some(url) && FreeText(p).None? && p.message.quickReplies == quickReplies
  {
    Payload(Recipient(envelope.user.id), OutMessage(None, Some(OutAttachment("image", UrlPayload(url))), quickReplies))
  }

  function ImageMsg(envelope: Envelope, url: string): (p: Payload)
    ensures p.recipient.id == envelope.user.id && KindOf(p) == Some("image")
    ensures ImageUrl(p) == Some(url) && FreeText(p).None?
  {
    Payload(Recipient(envelope.user.id), OutMessage(None, Some(OutAttachment("image", UrlPayload(url))), None))
  }

  /** The `type` values `send` recognises. */
  const SendKinds: set<string> := {"button", "text", "image", "quick_replies", "image_quick_replies"}

  predicate IsTextKind(kind: string)
  {
    kind == "button" || kind == "text" || kind == "quick_replies"
  }

  predicate IsImageKind(kind: string)
  {
    kind == "image" || kind == "image_quick_replies"
  }

  /** The free text a payload shows: the message text or the button template's text. */
  function FreeText(p: Payload): Option<string>
  {
    if p.message.text.Some? then p.message.text
    else if p.message.attachment.Some? && p.message.attachment.value.payload.TemplatePayload?
    then Some(p.message.attachment.value.payload.text)
    else None
  }

  /** The image url a payload shows. */
  function ImageUrl(p: Payload): Option<string>
  {
    if p.message.attachment.Some? && p.message.attachment.value.payload.UrlPayload?
    then Some(p.message.attachment.value.payload.url)
    else None
  }

  /**
   * The payload `send` builds and posts, or `None` for an unrecognised type,
   * for which nothing is posted.
   */
  function BuildPayload(envelope: Envelope, para: Para): (r: Option<Payload>)
    ensures r.Some? <==> para.kind in SendKinds
    ensures r.Some? ==> r.value.recipient.id == envelope.user.id
    ensures IsTextKind(para.kind) ==>
      (r.Some? && FreeText(r.value) == Some(Truncate(para.text)) &&
       |FreeText(r.value).value| <= TextLimit && FreeText(r.value).value <= para.text)
    ensures IsImageKind(para.kind) ==> r.Some? && ImageUrl(r.value) == Some(para.text) && FreeText(r.value).None?
    ensures para.kind == "quick_replies" || para.kind == "image_quick_replies" ==>
      (r.Some? && r.value.message.quickReplies == para.quickReplies)
    ensures para.kind == "button" ==>
      (r.Some? && r.value.message.attachment.Some? &&
       r.value.message.attachment.value.payload.TemplatePayload? &&
       r.value.message.attachment.value.payload.buttons == para.buttons)
    ensures para.kind == "text" || para.kind == "button" || para.kind == "image" ==>
      (r.Some? && r.value.message.quickReplies.None?)
  {
    match para.kind
    case "button" => Some(ButtonMsg(envelope, para.text, para.buttons))
    case "text" => Some(TextMsg(envelope, para.text))
    case "image" => Some(ImageMsg(envelope, para.text))
    case "quick_replies" => Some(QuickReplyMsg(envelope, para.text, para.quickReplies))
    case "image_quick_replies" => Some(ImageQuickReplyMsg(envelope, para.text, para.quickReplies))
    case _ => None
  }

  /**
   * Reads back the send type from a payload's shape. The quick-reply variants
   * can be told apart only when they carry `quick_replies`.
   */
  function KindOf(p: Payload): Option<string>
  {
    var m := p.message;
    if m.attachment.Some? then
      var a := m.attachment.value;
      if a.attachmentType == "template" && a.payload.TemplatePayload? && a.payload.templateType == "button" && m.text.None? && m.quickReplies.None? then Some("button")
      else if a.attachmentType == "image" && a.payload.UrlPayload? && m.text.None? then
        (if m.quickReplies.Some? then Some("image_quick_replies") else Some("image"))
      else None
    else if m.text.Some? then
      (if m.quickReplies.Some? then Some("quick_replies") else Some("text"))
    else None
  }

  /** Each recognised type yields a payload of its own shape, so the dispatch is recoverable from its output. */
  lemma DispatchRecoversKind(envelope: Envelope, para: Para)
    requires para.kind in SendKinds
    requires para.kind == "quick_replies" || para.kind == "image_quick_replies" ==> para.quickReplies.Some?
    ensures BuildPayload(envelope, para).Some? && KindOf(BuildPayload(envelope, para).value) == Some(para.kind)
  {
  }

  /**
   * Without `quick_replies` the serialised quick-reply payloads are the plain
   * text and image payloads: `JSON.stringify` drops the undefined field.
   */
  lemma AbsentQuickRepliesCollapse(envelope: Envelope, text: string)
    ensures BuildPayload(envelope, Para("quick_replies", text, None, None)) == BuildPayload(envelope, Para("text", text, None, None))
    ensures BuildPayload(envelope, Para("image_quick_replies", text, None, None)) == BuildPayload(envelope, Para("image", text, None, None))
  {
  }

  /** Text at or under the limit goes out unchanged; longer text is cut to exactly 320 characters. */
  lemma TruncationExact(envelope: Envelope, para: Para)
    requires IsTextKind(para.kind)
    ensures |para.text| <= TextLimit ==> FreeText(BuildPayload(envelope, para).value) == Some(para.text)
    ensures |para.text| > TextLimit ==> |FreeText(BuildPayload(envelope, para).value).value| == TextLimit
  {
  }
}
