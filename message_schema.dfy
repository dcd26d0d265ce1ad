/** The `Message` document of src/schemas/message.schema.ts as a data type,
    the defaults Mongoose fills in, and the required/enum constraints as a
    list of failing paths. */
module MessageSchema {
  import opened Common

  /** The values of the `MessageType` enum, in declaration order. */
  const MessageTypes: seq<string> := ["text", "image", "video", "audio", "geolocation"]
  const DefaultMessageType := "text"

  /** `t` is one of text, image, video, audio and geolocation. */
  predicate IsMessageType(t: string)
  {
    t in MessageTypes
  }

  /** A stored message; `chat` is the id of the owning chat. */
  datatype Message = Message(
    id: Id,
    sender: Id,
    recipient: Id,
    messageType: string,
    content: string,
    timestamp: int,
    chat: Id)

  /** The fields a request body supplies; a missing `messageType` or
      `timestamp` is `None`, a missing string is the empty string. */
  datatype MessageDraft = MessageDraft(
    sender: Id,
    recipient: Id,
    messageType: Option<string>,
    content: string,
    timestamp: Option<int>,
    chat: Id)

  /** `new this.messageModel(draft)` at time `now`: `messageType` defaults to
      'text' and `timestamp` to the creation time. */
  function NewMessage(id: Id, d: MessageDraft, now: int): (m: Message)
    ensures m.id == id && m.sender == d.sender && m.recipient == d.recipient
    ensures m.content == d.content && m.chat == d.chat
    ensures m.messageType == (if d.messageType.Some? then d.messageType.value else "text")
    ensures m.timestamp == (if d.timestamp.Some? then d.timestamp.value else now)
  {
    Message(id, d.sender, d.recipient,
            match d.messageType case Some(t) => t case None => DefaultMessageType,
            d.content,
            match d.timestamp case Some(t) => t case None => now,
            d.chat)
  }

  /** The paths whose validators fail when `save` validates `m`, in schema
      order: sender, recipient, content and chat are required (an empty
      value fails `required`), and messageType must be an enum value. */
  function ValidationErrors(m: Message): (paths: seq<string>)
    ensures "sender" in paths <==> m.sender == ""
    ensures "recipient" in paths <==> m.recipient == ""
    ensures "messageType" in paths <==> !IsMessageType(m.messageType)
    ensures "content" in paths <==> m.content == ""
    ensures "chat" in paths <==> m.chat == ""
    ensures paths == [] <==>
            m.sender != "" && m.recipient != "" && m.content != "" && m.chat != "" &&
            IsMessageType(m.messageType)
  {
    (if m.sender != "" then [] else ["sender"]) +
    (if m.recipient != "" then [] else ["recipient"]) +
    (if IsMessageType(m.messageType) then [] else ["messageType"]) +
    (if m.content != "" then [] else ["content"]) +
    (if m.chat != "" then [] else ["chat"])
  }

  /** 'file' and 'voice', which the chat controller treats as media types,
      are not enum values: a message of either type never validates. */
  lemma FileAndVoiceRejected(m: Message)
    requires m.messageType == "file" || m.messageType == "voice"
    ensures "messageType" in ValidationErrors(m)
  {
  }
}
