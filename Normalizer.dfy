/**
 * The envelope normaliser: the user record built by `createUser` and the
 * Hubot `TextMessage` that the three `process*` helpers hand to `receive`.
 */
module Normalizer {
  import opened Wrappers
  import opened JsText

  /** A Hubot user: the platform id, a display name and the room it talks in. */
  datatype User = User(id: string, name: string, room: string)

  /** A received Hubot `TextMessage` after the adapter has set its `room`. */
  datatype TextMessage = TextMessage(user: User, text: string, id: Option<string>, room: string)

  /** `createUser`: the display name is never looked up and stays empty. */
  function CreateUser(userId: string, roomId: string): (u: User)
    ensures u.id == userId && u.name == "" && u.room == roomId
  {
    User(userId, "", roomId)
  }

  /**
   * `new TextMessage(user, raw.trim(), mid)` followed by `message.room = recipient`,
   * where the user is created from the sender and the recipient.
   */
  function NewTextMessage(senderId: string, recipientId: string, raw: string, mid: Option<string>): (m: TextMessage)
    ensures m.user.id == senderId && m.user.name == "" && m.user.room == recipientId
    ensures m.room == recipientId && m.id == mid
    ensures m.text == Trim(raw)
    ensures m.text == [] <==> AllWhitespace(raw)
  {
    TrimEmptyIff(raw);
    TextMessage(CreateUser(senderId, recipientId), Trim(raw), mid, recipientId)
  }
}
