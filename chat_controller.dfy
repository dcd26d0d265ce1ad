/** src/chat/chat.controller.ts: the `createMessage` route, which picks the
    message content by message type before delegating to the chat service. */
module ChatController {
  import opened Common
  import opened MessageSchema
  import opened Store
  import Chats = ChatService

  /** The types whose content is the first uploaded file's name. */
  predicate IsMediaType(t: string)
  {
    t == "image" || t == "video" || t == "audio" || t == "file" || t == "voice"
  }

  /** The types whose content is taken from the body as sent. */
  predicate IsInlineType(t: string)
  {
    t == "text" || t == "geolocation"
  }

  /** The dispatch on `messageType`: `None` when the route creates nothing,
      the `TypeError` of reading `files[0]` when a media message comes with
      no file, and otherwise the body to create, whose content is the first
      file's name for a media type and unchanged for text and geolocation. */
  function DraftToCreate(files: seq<string>, message: MessageDraft): (r: Option<Result<MessageDraft>>)
    ensures r.None? <==> message.messageType.None? ||
                         (!IsMediaType(message.messageType.value) && !IsInlineType(message.messageType.value))
    ensures r == Some(Err(RuntimeError(UndefinedRead))) <==>
              message.messageType.Some? && IsMediaType(message.messageType.value) && files == []
    ensures r.Some? && r.value.Ok? && IsMediaType(message.messageType.value) ==>
              files != [] && r.value.value == message.(content := files[0])
    ensures r.Some? && r.value.Ok? && IsInlineType(message.messageType.value) ==> r.value.value == message
    ensures r.Some? && r.value.Ok? ==> r.value.value.(content := message.content) == message
  {
    match message.messageType
    case None => None
    case Some(t) =>
      if IsMediaType(t) then
        if files == [] then Some(Err(RuntimeError(UndefinedRead)))
        else Some(Ok(message.(content := files[0])))
      else if IsInlineType(t) then Some(Ok(message))
      else None
  }

  /** A file or voice message never passes validation, whatever was
      uploaded: the route can only fail for it. */
  lemma FileOrVoiceNeverValid(files: seq<string>, message: MessageDraft, chatId: Id, id: Id, now: int)
    requires message.messageType == Some("file") || message.messageType == Some("voice")
    ensures var d := DraftToCreate(files, message);
            d.Some? && (d.value.Ok? ==> ValidationErrors(Chats.MessageFor(d.value.value, chatId, id, now)) != [])
  {
    var d := DraftToCreate(files, message);
    if d.value.Ok? {
      FileAndVoiceRejected(Chats.MessageFor(d.value.value, chatId, id, now));
    }
  }

  /** `createMessage(files, message, chatId)`: creates the body chosen by
      `DraftToCreate`, if any, in the route's chat, with the outcome and the
      state after each failure of `createNewMessage`; every failure is
      rethrown as a 400 whose body carries its message. */
  method CreateMessage(db: Database, files: seq<string>, message: MessageDraft, chatId: Id, id: Id, now: int)
    returns (r: Result<Option<Message>>)
    requires db.Valid()
    modifies db
    ensures db.Valid()
    ensures DraftToCreate(files, message).None? ==>
              r == Ok(None) && db.messages == old(db.messages) && db.chats == old(db.chats)
    ensures DraftToCreate(files, message) == Some(Err(RuntimeError(UndefinedRead))) ==>
              r == Err(HttpBodyError(400, UndefinedRead)) &&
              db.messages == old(db.messages) && db.chats == old(db.chats)
    ensures var d := DraftToCreate(files, message);
            d.Some? && d.value.Ok? ==>
              var m := Chats.MessageFor(d.value.value, chatId, id, now);
              && (ValidationErrors(m) != [] ==>
                    r == Err(HttpBodyError(400, "Validation failed")) &&
                    db.messages == old(db.messages) && db.chats == old(db.chats))
              && (ValidationErrors(m) == [] && !FreshMessageId(old(db.messages), id) ==>
                    r == Err(HttpBodyError(400, "E11000 duplicate key error")) &&
                    db.messages == old(db.messages) && db.chats == old(db.chats))
              && (ValidationErrors(m) == [] && FreshMessageId(old(db.messages), id) ==>
                    db.messages == old(db.messages) + [m])
              && (ValidationErrors(m) == [] && FreshMessageId(old(db.messages), id) &&
                  FindUserById(old(db.users), m.sender).None? ==>
                    r == Err(HttpBodyError(400, NullRead)) && db.chats == old(db.chats))
              && (r.Ok? <==> ValidationErrors(m) == [] && FreshMessageId(old(db.messages), id) &&
                             FindUserById(old(db.users), m.sender).Some?)
              && (r.Ok? ==> r.value == Some(m) && m.chat == chatId &&
                            db.chats == LinkMessage(old(db.chats), chatId, id))
    ensures r.Err? ==> r.failure.HttpBodyError? && r.failure.status == 400
    ensures db.users == old(db.users) && db.requests == old(db.requests)
  {
    var d := DraftToCreate(files, message);
    if d.None? {
      return Ok(None);
    }
    if d.value.Err? {
      return Err(HttpBodyError(400, MessageOf(d.value.failure)));
    }
    var created := Chats.CreateNewMessage(db, d.value.value, chatId, id, now);
    if created.Err? {
      return Err(HttpBodyError(400, MessageOf(created.failure)));
    }
    r := Ok(Some(created.value));
  }
}
