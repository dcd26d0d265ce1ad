/** src/chat/chat.service.ts: chats between users and the messages posted
    in them. */
module ChatService {
  import opened Common
  import opened Seqs
  import opened MessageSchema
  import opened Store

  /** `createChat(participants)`: saves a chat with exactly the given
      participants, in that order (neither deduplicated nor checked), and no
      messages. */
  method CreateChat(db: Database, participants: seq<Id>, id: Id) returns (r: Result<Chat>)
    requires db.Valid()
    modifies db
    ensures db.Valid()
    ensures r.Ok? <==> forall i :: 0 <= i < |old(db.chats)| ==> old(db.chats)[i].id != id
    ensures r.Ok? ==> r.value == Chat(id, participants, []) && db.chats == old(db.chats) + [r.value]
    ensures r.Err? ==> r.failure == DuplicateKey && db.chats == old(db.chats)
    ensures db.users == old(db.users) && db.requests == old(db.requests) && db.messages == old(db.messages)
  {
    var chat := Chat(id, participants, []);
    var saved := db.InsertChat(chat);
    if saved.Err? {
      return Err(saved.failure);
    }
    r := Ok(chat);
  }

  /** The message `createNewMessage(message, chatId)` builds: the body's
      fields with `chat` overwritten by the route's chat id. */
  function MessageFor(draft: MessageDraft, chatId: Id, id: Id, now: int): (m: Message)
    ensures m.chat == chatId && m.id == id
    ensures m.sender == draft.sender && m.recipient == draft.recipient && m.content == draft.content
  {
    NewMessage(id, draft.(chat := chatId), now)
  }

  /** `createNewMessage(message, chatId)`. The message is validated and
      saved first; only then is the sender looked up, so an unknown sender
      fails with the message already stored but not yet linked to its chat.
      Otherwise the message id is appended to the chat's `messages`; a chat
      id that names no chat links nothing and still succeeds. */
  method CreateNewMessage(db: Database, draft: MessageDraft, chatId: Id, id: Id, now: int)
    returns (r: Result<Message>)
    requires db.Valid()
    modifies db
    ensures db.Valid()
    ensures var m := MessageFor(draft, chatId, id, now);
            && (ValidationErrors(m) != [] ==>
                  r == Err(ValidationError(ValidationErrors(m))) && db.messages == old(db.messages))
            && (ValidationErrors(m) == [] && !FreshMessageId(old(db.messages), id) ==>
                  r == Err(DuplicateKey) && db.messages == old(db.messages))
            && (ValidationErrors(m) == [] && FreshMessageId(old(db.messages), id) ==>
                  db.messages == old(db.messages) + [m])
            && (ValidationErrors(m) == [] && FreshMessageId(old(db.messages), id) &&
                FindUserById(old(db.users), m.sender).None? ==>
                  r == Err(RuntimeError(NullRead)))
            && (r.Ok? <==> ValidationErrors(m) == [] && FreshMessageId(old(db.messages), id) &&
                           FindUserById(old(db.users), m.sender).Some?)
            && (r.Ok? ==> r.value == m)
    ensures db.messages == old(db.messages) || db.messages == old(db.messages) + [MessageFor(draft, chatId, id, now)]
    ensures r.Ok? ==> db.messages == old(db.messages) + [r.value] && r.value.chat == chatId
    ensures r.Ok? ==> db.chats == LinkMessage(old(db.chats), chatId, id)
    ensures r.Err? ==> db.chats == old(db.chats)
    ensures db.users == old(db.users) && db.requests == old(db.requests)
  {
    var m := MessageFor(draft, chatId, id, now);
    var errors := ValidationErrors(m);
    if errors != [] {
      return Err(ValidationError(errors));
    }
    var saved := db.InsertMessage(m);
    if saved.Err? {
      return Err(saved.failure);
    }
    var sender := FindUserById(db.users, m.sender);
    if sender.None? {
      return Err(RuntimeError(NullRead));
    }
    db.PushMessage(chatId, id);
    r := Ok(m);
  }

  /** `getAllUserChats(userId)`: the chats the user takes part in, in
      stored order. */
  function GetAllUserChats(chats: seq<Chat>, userId: Id): (r: seq<Chat>)
    ensures forall c :: c in r <==> c in chats && userId in c.participants
    ensures IsSubsequence(r, chats)
  {
    if |chats| == 0 then []
    else if userId in chats[0].participants then [chats[0]] + GetAllUserChats(chats[1..], userId)
    else GetAllUserChats(chats[1..], userId)
  }

  /** `getAllChatMessage(chatId)`: the messages of the chat, in stored
      (insertion) order. */
  function GetAllChatMessage(messages: seq<Message>, chatId: Id): (r: seq<Message>)
    ensures forall m :: m in r <==> m in messages && m.chat == chatId
    ensures IsSubsequence(r, messages)
  {
    if |messages| == 0 then []
    else if messages[0].chat == chatId then [messages[0]] + GetAllChatMessage(messages[1..], chatId)
    else GetAllChatMessage(messages[1..], chatId)
  }

  /** Storing one more message extends the listing of its chat by exactly
      that message, at the end, and leaves every other chat's listing as it
      was. */
  lemma {:induction false} GetAllChatMessageAppend(messages: seq<Message>, m: Message, chatId: Id)
    ensures GetAllChatMessage(messages + [m], chatId) ==
            GetAllChatMessage(messages, chatId) + (if m.chat == chatId then [m] else [])
    decreases |messages|
  {
    if |messages| == 0 {
      assert messages + [m] == [m];
      assert GetAllChatMessage([m][1..], chatId) == [];
    } else {
      assert (messages + [m])[1..] == messages[1..] + [m];
      GetAllChatMessageAppend(messages[1..], m, chatId);
    }
  }

  /** After the `deleteMany` of a chat's messages, the chat lists none. */
  lemma {:induction false} NoMessagesLeft(messages: seq<Message>, chatId: Id)
    ensures GetAllChatMessage(MessagesNotOfChat(messages, chatId), chatId) == []
    decreases |messages|
  {
    if |messages| > 0 {
      NoMessagesLeft(messages[1..], chatId);
      if messages[0].chat != chatId {
        var kept := MessagesNotOfChat(messages, chatId);
        assert kept == [messages[0]] + MessagesNotOfChat(messages[1..], chatId);
        assert kept[1..] == MessagesNotOfChat(messages[1..], chatId);
      }
    }
  }

  /** `deleteChat(firstParticipantId, secondParticipantId)`: rejects a
      missing id; otherwise deletes the first chat holding both ids, failing
      when there is none, and then every message of that chat. */
  method DeleteChat(db: Database, firstParticipantId: Id, secondParticipantId: Id)
    returns (r: Result<bool>)
    requires db.Valid()
    modifies db
    ensures db.Valid()
    ensures firstParticipantId == "" || secondParticipantId == "" ==>
              r == Err(HttpError(401, "Please, provide all data"))
    ensures firstParticipantId != "" && secondParticipantId != "" &&
            ChatIndexWithBoth(old(db.chats), firstParticipantId, secondParticipantId).None? ==>
              r == Err(AppError(403, "Invalid chat"))
    ensures r.Ok? <==> firstParticipantId != "" && secondParticipantId != "" &&
                       ChatIndexWithBoth(old(db.chats), firstParticipantId, secondParticipantId).Some?
    ensures r.Ok? ==> r.value
    ensures r.Ok? ==>
              var k := ChatIndexWithBoth(old(db.chats), firstParticipantId, secondParticipantId).value;
              db.chats == RemoveAt(old(db.chats), k) &&
              db.messages == MessagesNotOfChat(old(db.messages), old(db.chats)[k].id) &&
              GetAllChatMessage(db.messages, old(db.chats)[k].id) == []
    ensures r.Err? ==> db.chats == old(db.chats) && db.messages == old(db.messages)
    ensures db.users == old(db.users) && db.requests == old(db.requests)
  {
    if firstParticipantId == "" || secondParticipantId == "" {
      return Err(HttpError(401, "Please, provide all data"));
    }
    var chat := db.DeleteChatWithBoth(firstParticipantId, secondParticipantId);
    if chat.None? {
      return Err(AppError(403, "Invalid chat"));
    }
    NoMessagesLeft(db.messages, chat.value.id);
    db.DeleteMessagesOfChat(chat.value.id);
    r := Ok(true);
  }

  /** `getChatByParticipants(first, second)`: the first chat holding both
      ids, or an error when the two share no chat. */
  function GetChatByParticipants(chats: seq<Chat>, firstParticipant: Id, secondParticipant: Id)
    : (r: Result<Chat>)
    ensures r.Ok? <==> exists i :: 0 <= i < |chats| && HasBoth(chats[i], firstParticipant, secondParticipant)
    ensures r.Ok? ==> r.value in chats && firstParticipant in r.value.participants &&
                      secondParticipant in r.value.participants
    ensures r.Ok? ==> exists i :: 0 <= i < |chats| && chats[i] == r.value &&
                        forall j :: 0 <= j < i ==> !HasBoth(chats[j], firstParticipant, secondParticipant)
    ensures r.Err? ==> r.failure == AppError(400, "You must be friends to chat with a user")
  {
    match ChatIndexWithBoth(chats, firstParticipant, secondParticipant)
    case None => Err(AppError(400, "You must be friends to chat with a user"))
    case Some(k) => Ok(chats[k])
  }
}
