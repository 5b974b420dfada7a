/**
 * The inbound event classifier (`processMsg`, `processEcho`) and the three
 * helpers that turn a classified event into a received message
 * (`processTextMsg`, `processAttachmentMsg`, `processPayload`).
 *
 * A webhook event is loosely structured JSON; every field the adapter reads
 * with lodash `get` is an `Option` here, `None` standing for a missing or
 * `null` value.
 */
module Inbound {
  import opened Wrappers
  import opened JsText
  import opened Normalizer

  datatype Party = Party(id: string)

  /** A `delivery` or `read` receipt; as a JSON object it is truthy whenever present. */
  datatype Receipt = Receipt(watermark: int)

  datatype QuickReply = QuickReply(payload: Option<string>)

  datatype Postback = Postback(payload: Option<string>)

  datatype InboundAttachment = InboundAttachment(attachmentType: Option<string>)

  /** The `message` object of an event. */
  datatype InboundMessage = InboundMessage(
    mid: Option<string>,
    text: Option<string>,
    isEcho: Option<bool>,
    quickReply: Option<QuickReply>,
    attachments: Option<seq<InboundAttachment>>)

  /** One element of `entry[0].messaging`. */
  datatype RawEvent = RawEvent(
    sender: Option<Party>,
    recipient: Option<Party>,
    message: Option<InboundMessage>,
    delivery: Option<Receipt>,
    read: Option<Receipt>,
    postback: Option<Postback>)

  // The lodash `get` paths read by `processMsg` and `processEcho`.

  function IsEcho(e: RawEvent): Option<bool>
  {
    if e.message.Some? then e.message.value.isEcho else None
  }

  function MessageText(e: RawEvent): Option<string>
  {
    if e.message.Some? then e.message.value.text else None
  }

  function MessageMid(e: RawEvent): Option<string>
  {
    if e.message.Some? then e.message.value.mid else None
  }

  function QuickReplyPayload(e: RawEvent): Option<string>
  {
    if e.message.Some? && e.message.value.quickReply.Some? then e.message.value.quickReply.value.payload else None
  }

  function PostbackPayload(e: RawEvent): Option<string>
  {
    if e.postback.Some? then e.postback.value.payload else None
  }

  /** `message.attachments[0].type`: absent when the list is missing or empty. */
  function FirstAttachmentType(e: RawEvent): Option<string>
  {
    if e.message.Some? && e.message.value.attachments.Some? && |e.message.value.attachments.value| > 0
    then e.message.value.attachments.value[0].attachmentType
    else None
  }

  // JavaScript truthiness of the values read above.

  predicate TruthyString(o: Option<string>)
  {
    o.Some? && |o.value| > 0
  }

  predicate TruthyFlag(o: Option<bool>)
  {
    o == Some(true)
  }

  /** The branch `processEcho` takes; both branches are unimplemented stubs. */
  datatype EchoKind = EchoText | EchoAttachment | EchoOther

  datatype Action =
    | Echo(echo: EchoKind)
    | Delivery
    | Read
    | QuickReplyPayloadAction(payload: string)
    | PostbackPayloadAction(payload: string)
    | TextAction(text: string)
    | AttachmentAction(attachmentType: string)
    | Ignored

  function ClassifyEcho(e: RawEvent): (k: EchoKind)
    ensures k == EchoText <==> TruthyString(MessageText(e))
    ensures k == EchoAttachment <==> !TruthyString(MessageText(e)) && TruthyString(FirstAttachmentType(e))
  {
    if TruthyString(MessageText(e)) then EchoText
    else if TruthyString(FirstAttachmentType(e)) then EchoAttachment
    else EchoOther
  }

  /**
   * The ordered first-match decision of `processMsg`: a message-bearing action
   * only ever carries a truthy (non-empty) string, and an event is an echo
   * exactly when its `is_echo` is truthy.
   */
  function Classify(e: RawEvent): (r: Action)
    ensures r.Echo? <==> TruthyFlag(IsEcho(e))
    ensures r.Delivery? ==> e.delivery.Some?
    ensures r.Read? ==> e.read.Some? && e.delivery.None?
    ensures EmitsMessage(r) ==> |RawBody(r)| > 0
  {
    if TruthyFlag(IsEcho(e)) then Echo(ClassifyEcho(e))
    else if e.delivery.Some? then Delivery
    else if e.read.Some? then Read
    else if TruthyString(QuickReplyPayload(e)) then QuickReplyPayloadAction(QuickReplyPayload(e).value)
    else if TruthyString(PostbackPayload(e)) then PostbackPayloadAction(PostbackPayload(e).value)
    else if TruthyString(MessageText(e)) then TextAction(MessageText(e).value)
    else if TruthyString(FirstAttachmentType(e)) then AttachmentAction(FirstAttachmentType(e).value)
    else Ignored
  }

  // An independent statement of the priority order: a list of guarded rules,
  // the first one that fires decides.

  /** The seven tests of `processMsg`, in source order; `None` where a test fails. */
  function Rules(e: RawEvent): (rs: seq<Option<Action>>)
    ensures |rs| == 7
  {
    [ if TruthyFlag(IsEcho(e)) then Some(Echo(ClassifyEcho(e))) else None,
      if e.delivery.Some? then Some(Delivery) else None,
      if e.read.Some? then Some(Read) else None,
      if TruthyString(QuickReplyPayload(e)) then Some(QuickReplyPayloadAction(QuickReplyPayload(e).value)) else None,
      if TruthyString(PostbackPayload(e)) then Some(PostbackPayloadAction(PostbackPayload(e).value)) else None,
      if TruthyString(MessageText(e)) then Some(TextAction(MessageText(e).value)) else None,
      if TruthyString(FirstAttachmentType(e)) then Some(AttachmentAction(FirstAttachmentType(e).value)) else None ]
  }

  function FirstMatch(rs: seq<Option<Action>>): Action
  {
    if rs == [] then Ignored
    else if rs[0].Some? then rs[0].value
    else FirstMatch(rs[1..])
  }

  /** The first rule that fires decides, whatever the later rules say. */
  lemma {:induction false} FirstMatchIsEarliest(rs: seq<Option<Action>>, i: nat)
    requires i < |rs| && rs[i].Some?
    requires forall j :: 0 <= j < i ==> rs[j].None?
    ensures FirstMatch(rs) == rs[i].value
  {
    if i > 0 {
      FirstMatchIsEarliest(rs[1..], i - 1);
    }
  }

  /** When no rule fires the event is ignored. */
  lemma {:induction false} FirstMatchNone(rs: seq<Option<Action>>)
    requires forall j :: 0 <= j < |rs| ==> rs[j].None?
    ensures FirstMatch(rs) == Ignored
  {
    if rs != [] {
      FirstMatchNone(rs[1..]);
    }
  }

  /** `processMsg` routes every event by the earliest of its seven tests that holds. */
  lemma ClassifyIsFirstMatch(e: RawEvent)
    ensures Classify(e) == FirstMatch(Rules(e))
  {
    var rs := Rules(e);
    if rs[0].Some? { FirstMatchIsEarliest(rs, 0); }
    else if rs[1].Some? { FirstMatchIsEarliest(rs, 1); }
    else if rs[2].Some? { FirstMatchIsEarliest(rs, 2); }
    else if rs[3].Some? { FirstMatchIsEarliest(rs, 3); }
    else if rs[4].Some? { FirstMatchIsEarliest(rs, 4); }
    else if rs[5].Some? { FirstMatchIsEarliest(rs, 5); }
    else if rs[6].Some? { FirstMatchIsEarliest(rs, 6); }
    else { FirstMatchNone(rs); }
  }

  /** An event that passes test `i` is routed by test `i` or by an earlier one, never a later one. */
  lemma ClassifyPriority(e: RawEvent, i: nat)
    requires i < 7 && Rules(e)[i].Some?
    ensures exists j :: 0 <= j <= i && Rules(e)[j] == Some(Classify(e))
  {
    ClassifyIsFirstMatch(e);
    var rs := Rules(e);
    var j :| 0 <= j <= i && rs[j].Some? && forall k :: 0 <= k < j ==> rs[k].None?;
    FirstMatchIsEarliest(rs, j);
  }

  /** Delivery outranks read: a non-echo event with both receipts is a delivery. */
  lemma DeliveryBeforeRead(e: RawEvent)
    requires !TruthyFlag(IsEcho(e)) && e.delivery.Some? && e.read.Some?
    ensures Classify(e) == Delivery
  {
  }

  /** A quick-reply message also carries its button's text, but the payload wins. */
  lemma QuickReplyBeforeText(e: RawEvent)
    requires !TruthyFlag(IsEcho(e)) && e.delivery.None? && e.read.None?
    requires TruthyString(QuickReplyPayload(e)) && TruthyString(MessageText(e))
    ensures Classify(e) == QuickReplyPayloadAction(QuickReplyPayload(e).value)
  {
  }

  /** An empty text does not count as text: the decision falls through to the attachment test. */
  lemma EmptyTextFallsThrough(e: RawEvent)
    requires !TruthyFlag(IsEcho(e)) && e.delivery.None? && e.read.None?
    requires !TruthyString(QuickReplyPayload(e)) && !TruthyString(PostbackPayload(e))
    requires MessageText(e) == Some("")
    ensures Classify(e) == (if TruthyString(FirstAttachmentType(e)) then AttachmentAction(FirstAttachmentType(e).value) else Ignored)
  {
  }

  // Processing: classification followed by normalisation.

  /** What handling one event does: hand one message to `receive`, do nothing, or throw a TypeError. */
  datatype Outcome = Emitted(msg: TextMessage) | Silent | Threw

  /**
   * `processTextMsg`, `processAttachmentMsg` and `processPayload`: they read
   * `msg.sender.id` and `msg.recipient.id`, which throws when either object is missing.
   */
  function Normalize(e: RawEvent, raw: string, mid: Option<string>): (o: Outcome)
    ensures o.Threw? <==> e.sender.None? || e.recipient.None?
    ensures o.Threw? || o.Emitted?
    ensures o.Emitted? ==> o.msg.text == Trim(raw)
    ensures o.Emitted? ==> o.msg.user == User(e.sender.value.id, "", e.recipient.value.id)
    ensures o.Emitted? ==> o.msg.room == e.recipient.value.id && o.msg.id == mid
  {
    if e.sender.None? || e.recipient.None? then Threw
    else Emitted(NewTextMessage(e.sender.value.id, e.recipient.value.id, raw, mid))
  }

  /** `processMsg` with its handler: echo, delivery and read events are accepted and dropped. */
  function Process(e: RawEvent): (o: Outcome)
    ensures o.Silent? <==> !EmitsMessage(Classify(e))
    ensures o.Emitted? ==> o.msg.text == Trim(RawBody(Classify(e)))
  {
    var a := Classify(e);
    if !EmitsMessage(a) then Silent
    // payloads carry no message id; text and attachment messages carry `message.mid`
    else if a.QuickReplyPayloadAction? || a.PostbackPayloadAction? then Normalize(e, RawBody(a), None)
    else Normalize(e, RawBody(a), MessageMid(e))
  }

  predicate EmitsMessage(a: Action)
  {
    a.QuickReplyPayloadAction? || a.PostbackPayloadAction? || a.TextAction? || a.AttachmentAction?
  }

  /** The raw string a message-bearing action turns into a body. */
  function RawBody(a: Action): string
    requires EmitsMessage(a)
  {
    match a
    case QuickReplyPayloadAction(p) => p
    case PostbackPayloadAction(p) => p
    case TextAction(t) => t
    case AttachmentAction(t) => t
  }

  /** Echo (with text, attachment or neither), delivery, read and unmatched events emit nothing and never throw. */
  lemma SilentIffNoMessageKind(e: RawEvent)
    ensures Process(e).Silent? <==> !EmitsMessage(Classify(e))
    ensures Classify(e).Echo? || Classify(e).Delivery? || Classify(e).Read? || Classify(e).Ignored? ==> Process(e) == Silent
  {
  }

  /** Processing throws exactly for a message-bearing event that lacks a sender or recipient object. */
  lemma ThrowsIff(e: RawEvent)
    ensures Process(e).Threw? <==> EmitsMessage(Classify(e)) && (e.sender.None? || e.recipient.None?)
  {
  }

  /**
   * The shape of every received message: user `{id: sender.id, name: '', room: recipient.id}`,
   * room = recipient.id, body = the trimmed payload, text or attachment type, and the
   * `message.mid` id for text and attachment messages but no id for payload messages.
   */
  lemma EmittedShape(e: RawEvent)
    requires Process(e).Emitted?
    ensures EmitsMessage(Classify(e)) && e.sender.Some? && e.recipient.Some?
    ensures Process(e).msg.user == User(e.sender.value.id, "", e.recipient.value.id)
    ensures Process(e).msg.room == e.recipient.value.id
    ensures Process(e).msg.text == Trim(RawBody(Classify(e)))
    ensures Process(e).msg.id == (if Classify(e).TextAction? || Classify(e).AttachmentAction? then MessageMid(e) else None)
  {
  }

  /** The body is empty only when the string it was taken from was all whitespace. */
  lemma EmptyBodyOnlyFromWhitespace(e: RawEvent)
    requires Process(e).Emitted?
    ensures Process(e).msg.text == [] <==> AllWhitespace(RawBody(Classify(e)))
  {
    EmittedShape(e);
    TrimEmptyIff(RawBody(Classify(e)));
  }

  /** An event carrying only a text (besides its parties) becomes a text message with the trimmed text. */
  lemma TextOnlyEvent(sender: Party, recipient: Party, mid: Option<string>, text: string)
    requires |text| > 0
    ensures var e := RawEvent(Some(sender), Some(recipient), Some(InboundMessage(mid, Some(text), None, None, None)), None, None, None);
            Classify(e) == TextAction(text) &&
            Process(e) == Emitted(TextMessage(User(sender.id, "", recipient.id), Trim(text), mid, recipient.id))
  {
    var e := RawEvent(Some(sender), Some(recipient), Some(InboundMessage(mid, Some(text), None, None, None)), None, None, None);
    assert IsEcho(e) == None && QuickReplyPayload(e) == None && PostbackPayload(e) == None;
    assert MessageText(e) == Some(text) && MessageMid(e) == mid;
    assert Classify(e) == TextAction(text);
  }
}
