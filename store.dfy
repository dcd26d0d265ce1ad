/** The document store behind the services: four MongoDB collections held in
    natural (insertion) order, the queries the services issue as functions,
    and the writes they issue as methods of `Database`. A `findOne` or
    `findOneAndUpdate` acts on the first matching document in that order. */
module Store {
  import opened Common
  import opened Seqs
  import opened UserSchema
  import opened MessageSchema

  /** A pending friend request, as the users service reads and writes it. */
  datatype FriendRequest = FriendRequest(senderId: Id, receiverId: Id)

  /** A chat: its participants and the ids of its messages, oldest first. */
  datatype Chat = Chat(id: Id, participants: seq<Id>, messages: seq<Id>)

  // ---------------------------------------------------------------- users

  /** `findOne({ _id: id })` on the users collection, as an index. */
  function UserIndexById(users: seq<User>, id: Id): (r: Option<nat>)
    ensures r.Some? ==> r.value < |users| && users[r.value].id == id
    ensures r.None? ==> forall i :: 0 <= i < |users| ==> users[i].id != id
  {
    FirstIndex(users, (u: User) => u.id == id)
  }

  /** `findOne({ _id: id })` on the users collection. */
  function FindUserById(users: seq<User>, id: Id): (r: Option<User>)
    ensures r.Some? <==> exists i :: 0 <= i < |users| && users[i].id == id
    ensures r.Some? ==> r.value in users && r.value.id == id
  {
    match UserIndexById(users, id)
    case None => None
    case Some(k) => Some(users[k])
  }

  /** `findOne({ email })` on the users collection, as an index. Mongoose
      runs the `lowercase` setter on the filter value, so the lookup is by
      the lower-cased email. */
  function UserIndexByEmail(users: seq<User>, email: string): (r: Option<nat>)
    ensures r.Some? ==> r.value < |users| && users[r.value].email == Lower(email)
    ensures r.None? ==> forall i :: 0 <= i < |users| ==> users[i].email != Lower(email)
  {
    FirstIndex(users, (u: User) => u.email == Lower(email))
  }

  /** `findOne({ email })` on the users collection. */
  function FindUserByEmail(users: seq<User>, email: string): (r: Option<User>)
    ensures r.Some? <==> exists i :: 0 <= i < |users| && users[i].email == Lower(email)
    ensures r.Some? ==> r.value in users && r.value.email == Lower(email)
  {
    match UserIndexByEmail(users, email)
    case None => None
    case Some(k) => Some(users[k])
  }

  predicate UniqueUserIds(users: seq<User>)
  {
    forall i, j :: 0 <= i < j < |users| ==> users[i].id != users[j].id
  }

  /** The unique index on `email`; every stored email went through the
      `lowercase` setter. */
  predicate UniqueLowerEmails(users: seq<User>)
  {
    (forall i :: 0 <= i < |users| ==> IsLower(users[i].email)) &&
    forall i, j :: 0 <= i < j < |users| ==> users[i].email != users[j].email
  }

  /** When ids are unique, the user found by id is the one at any index
      holding that id. */
  lemma FindUserByIdAt(users: seq<User>, i: nat)
    requires UniqueUserIds(users) && i < |users|
    ensures FindUserById(users, users[i].id) == Some(users[i])
  {
  }

  /** When emails are unique and lower-case, the user found by a
      differently-cased spelling of a stored email is the one storing it. */
  lemma FindUserByEmailAt(users: seq<User>, i: nat, email: string)
    requires UniqueLowerEmails(users) && i < |users| && users[i].email == Lower(email)
    ensures FindUserByEmail(users, email) == Some(users[i])
  {
  }

  /** Updates that keep every user's id keep which ids the store knows. */
  lemma SameIdsSameLookup(before: seq<User>, after: seq<User>, id: Id)
    requires |before| == |after|
    requires forall i :: 0 <= i < |before| ==> before[i].id == after[i].id
    ensures FindUserById(before, id).Some? <==> FindUserById(after, id).Some?
  {
    if FindUserById(before, id).Some? {
      var i :| 0 <= i < |before| && before[i].id == id;
      assert after[i].id == id;
    }
    if FindUserById(after, id).Some? {
      var i :| 0 <= i < |after| && after[i].id == id;
      assert before[i].id == id;
    }
  }

  /** `$pull`: every occurrence of `x` removed, the rest kept in order. */
  function RemoveAll(s: seq<Id>, x: Id): (r: seq<Id>)
    ensures x !in r
    ensures forall y :: y != x ==> multiset(r)[y] == multiset(s)[y]
    ensures IsSubsequence(r, s)
  {
    if |s| == 0 then []
    else
      assert s == [s[0]] + s[1..];
      if s[0] == x then RemoveAll(s[1..], x)
      else [s[0]] + RemoveAll(s[1..], x)
  }

  // ------------------------------------------------------ friend requests

  /** `friendRequest.findOne({ receiverId, senderId })`, as an index. */
  function RequestIndex(requests: seq<FriendRequest>, senderId: Id, receiverId: Id): (r: Option<nat>)
    ensures r.Some? ==> r.value < |requests| && requests[r.value] == FriendRequest(senderId, receiverId)
    ensures r.None? <==> FriendRequest(senderId, receiverId) !in requests
  {
    FirstIndex(requests, (q: FriendRequest) => q == FriendRequest(senderId, receiverId))
  }

  /** The requests after `findOneAndDelete({ receiverId, senderId })`: the
      first request from `senderId` to `receiverId` in natural order is
      gone if there was one, the requests are the same otherwise, and the
      others keep their order. */
  function RemoveRequest(requests: seq<FriendRequest>, senderId: Id, receiverId: Id): (r: seq<FriendRequest>)
    ensures FriendRequest(senderId, receiverId) in requests ==>
            multiset(r) == multiset(requests) - multiset{FriendRequest(senderId, receiverId)}
    ensures FriendRequest(senderId, receiverId) !in requests ==> r == requests
    ensures FriendRequest(senderId, receiverId) in requests ==>
            exists k :: 0 <= k < |requests| && requests[k] == FriendRequest(senderId, receiverId) &&
                        FriendRequest(senderId, receiverId) !in requests[..k] &&
                        r == requests[..k] + requests[k + 1..]
    ensures IsSubsequence(r, requests)
  {
    match RequestIndex(requests, senderId, receiverId)
    case None => SubsequenceOfSelf(requests); requests
    case Some(k) =>
      RemoveAtIsSubsequence(requests, k);
      assert FriendRequest(senderId, receiverId) !in requests[..k] by {
        forall j | 0 <= j < k ensures requests[..k][j] != FriendRequest(senderId, receiverId) {
          assert requests[..k][j] == requests[j];
        }
      }
      RemoveAt(requests, k)
  }

  // ---------------------------------------------------------------- chats

  /** A chat matches `{ participants: { $all: [a, b] } }`. */
  predicate HasBoth(c: Chat, a: Id, b: Id)
  {
    a in c.participants && b in c.participants
  }

  /** `chatModel.findOne({ participants: { $all: [a, b] } })`, as an index. */
  function ChatIndexWithBoth(chats: seq<Chat>, a: Id, b: Id): (r: Option<nat>)
    ensures r.Some? ==> r.value < |chats| && HasBoth(chats[r.value], a, b)
    ensures r.Some? ==> forall j :: 0 <= j < r.value ==> !HasBoth(chats[j], a, b)
    ensures r.None? <==> forall j :: 0 <= j < |chats| ==> !HasBoth(chats[j], a, b)
  {
    FirstIndex(chats, (c: Chat) => HasBoth(c, a, b))
  }

  predicate UniqueChatIds(chats: seq<Chat>)
  {
    forall i, j :: 0 <= i < j < |chats| ==> chats[i].id != chats[j].id
  }

  /** The chats after `$push`ing `messageId` onto the `messages` of the
      chat `chatId`: that chat gains the id at the end, every other chat
      and the order of the chats stay as they were. */
  function LinkMessage(chats: seq<Chat>, chatId: Id, messageId: Id): seq<Chat>
  {
    seq(|chats|, i requires 0 <= i < |chats| =>
      if chats[i].id == chatId then chats[i].(messages := chats[i].messages + [messageId]) else chats[i])
  }

  // ------------------------------------------------------------- messages

  /** `messageModel.deleteMany({ chat: chatId })`: every other message
      stays, in its order. */
  function MessagesNotOfChat(messages: seq<Message>, chatId: Id): (r: seq<Message>)
    ensures forall m :: m in r <==> m in messages && m.chat != chatId
    ensures IsSubsequence(r, messages)
  {
    if |messages| == 0 then []
    else if messages[0].chat == chatId then MessagesNotOfChat(messages[1..], chatId)
    else [messages[0]] + MessagesNotOfChat(messages[1..], chatId)
  }

  /** No stored message has the id `id`. */
  predicate FreshMessageId(messages: seq<Message>, id: Id)
  {
    forall i :: 0 <= i < |messages| ==> messages[i].id != id
  }

  predicate UniqueMessageIds(messages: seq<Message>)
  {
    forall i, j :: 0 <= i < j < |messages| ==> messages[i].id != messages[j].id
  }

  /** Deleting messages keeps message ids unique. */
  lemma {:induction false} MessagesNotOfChatUnique(messages: seq<Message>, chatId: Id)
    requires UniqueMessageIds(messages)
    ensures UniqueMessageIds(MessagesNotOfChat(messages, chatId))
    decreases |messages|
  {
    if |messages| > 0 {
      var rest := MessagesNotOfChat(messages[1..], chatId);
      assert UniqueMessageIds(messages[1..]);
      MessagesNotOfChatUnique(messages[1..], chatId);
      if messages[0].chat != chatId {
        forall m | m in rest ensures m.id != messages[0].id {
          var j :| 0 <= j < |messages[1..]| && messages[1..][j] == m;
          assert messages[j + 1] == m;
        }
      }
    }
  }

  // ------------------------------------------------------------ the store

  /** The four collections. The fields are reassigned by the write
      methods below, which mirror the Mongoose calls the services make. */
  class Database {
    var users: seq<User>
    var requests: seq<FriendRequest>
    var chats: seq<Chat>
    var messages: seq<Message>

    /** What MongoDB's unique indexes (on every `_id`, and on the users'
        `email`) and the `lowercase` setter guarantee. */
    ghost predicate Valid()
      reads this
    {
      UniqueUserIds(users) && UniqueLowerEmails(users) &&
      UniqueChatIds(chats) && UniqueMessageIds(messages)
    }

    /** An empty store. */
    constructor ()
      ensures Valid()
      ensures users == [] && requests == [] && chats == [] && messages == []
    {
      users, requests, chats, messages := [], [], [], [];
    }

    /** `save()` of a new user document. The unique indexes on `_id` and
        `email` reject a clash with `DuplicateKey` and store nothing. */
    method InsertUser(u: User) returns (r: Result<()>)
      requires Valid() && IsLower(u.email)
      modifies this
      ensures Valid()
      ensures r.Err? <==> exists i :: 0 <= i < |old(users)| &&
                            (old(users)[i].id == u.id || old(users)[i].email == u.email)
      ensures r.Err? ==> r.failure == DuplicateKey && users == old(users)
      ensures r.Ok? ==> users == old(users) + [u]
      ensures requests == old(requests) && chats == old(chats) && messages == old(messages)
    {
      var clash := FirstIndex(users, (v: User) => v.id == u.id || v.email == u.email);
      if clash.Some? {
        return Err(DuplicateKey);
      }
      users := users + [u];
      r := Ok(());
    }

    /** `save()` of a user document that was read from the collection at
        index `k` and changed in memory (its id and email unchanged). */
    method SaveUser(k: nat, u: User)
      requires Valid() && k < |users| && users[k].id == u.id && users[k].email == u.email
      modifies this
      ensures Valid()
      ensures users == old(users)[k := u]
      ensures requests == old(requests) && chats == old(chats) && messages == old(messages)
    {
      users := users[k := u];
    }

    /** `findOneAndUpdate({ _id: id }, { $push: { friends: friend } })`:
        appends `friend` to the end of that user's friends, duplicates
        allowed, and returns the document as it was before. */
    method PushFriend(id: Id, friend: Id) returns (before: Option<User>)
      requires Valid()
      modifies this
      ensures Valid()
      ensures before == FindUserById(old(users), id)
      ensures |users| == |old(users)|
      ensures forall i :: 0 <= i < |users| ==>
                users[i] == if old(users)[i].id == id
                            then old(users)[i].(friends := old(users)[i].friends + [friend])
                            else old(users)[i]
      ensures requests == old(requests) && chats == old(chats) && messages == old(messages)
    {
      before := FindUserById(users, id);
      var k := UserIndexById(users, id);
      if k.Some? {
        users := users[k.value := users[k.value].(friends := users[k.value].friends + [friend])];
      }
    }

    /** `findOneAndUpdate({ _id: id }, { $pull: { friends: friend } })`:
        removes every occurrence of `friend` from that user's friends. */
    method PullFriend(id: Id, friend: Id) returns (after: Option<User>)
      requires Valid()
      modifies this
      ensures Valid()
      ensures |users| == |old(users)|
      ensures forall i :: 0 <= i < |users| ==>
                users[i] == if old(users)[i].id == id
                            then old(users)[i].(friends := RemoveAll(old(users)[i].friends, friend))
                            else old(users)[i]
      ensures after == FindUserById(users, id)
      ensures requests == old(requests) && chats == old(chats) && messages == old(messages)
    {
      var k := UserIndexById(users, id);
      if k.Some? {
        users := users[k.value := users[k.value].(friends := RemoveAll(users[k.value].friends, friend))];
      }
      after := FindUserById(users, id);
    }

    /** `friendRequest.save()` of a new request. */
    method InsertRequest(q: FriendRequest)
      requires Valid()
      modifies this
      ensures Valid()
      ensures requests == old(requests) + [q]
      ensures users == old(users) && chats == old(chats) && messages == old(messages)
    {
      requests := requests + [q];
    }

    /** `friendRequest.findOneAndDelete({ receiverId, senderId })`. */
    method DeleteRequest(senderId: Id, receiverId: Id) returns (deleted: Option<FriendRequest>)
      requires Valid()
      modifies this
      ensures Valid()
      ensures deleted.Some? <==> FriendRequest(senderId, receiverId) in old(requests)
      ensures deleted.Some? ==> deleted.value == FriendRequest(senderId, receiverId)
      ensures requests == RemoveRequest(old(requests), senderId, receiverId)
      ensures users == old(users) && chats == old(chats) && messages == old(messages)
    {
      deleted := if FriendRequest(senderId, receiverId) in requests
                 then Some(FriendRequest(senderId, receiverId)) else None;
      requests := RemoveRequest(requests, senderId, receiverId);
    }

    /** `save()` of a new chat; the `_id` index rejects a clash. */
    method InsertChat(c: Chat) returns (r: Result<()>)
      requires Valid()
      modifies this
      ensures Valid()
      ensures r.Err? <==> exists i :: 0 <= i < |old(chats)| && old(chats)[i].id == c.id
      ensures r.Err? ==> r.failure == DuplicateKey && chats == old(chats)
      ensures r.Ok? ==> chats == old(chats) + [c]
      ensures users == old(users) && requests == old(requests) && messages == old(messages)
    {
      var clash := FirstIndex(chats, (d: Chat) => d.id == c.id);
      if clash.Some? {
        return Err(DuplicateKey);
      }
      chats := chats + [c];
      r := Ok(());
    }

    /** `findOneAndDelete({ participants: { $all: [a, b] } })` on chats:
        deletes the first chat holding both ids, if any, and returns it. */
    method DeleteChatWithBoth(a: Id, b: Id) returns (deleted: Option<Chat>)
      requires Valid()
      modifies this
      ensures Valid()
      ensures deleted.None? <==> ChatIndexWithBoth(old(chats), a, b).None?
      ensures deleted.None? ==> chats == old(chats)
      ensures deleted.Some? ==>
                var k := ChatIndexWithBoth(old(chats), a, b).value;
                deleted.value == old(chats)[k] && chats == RemoveAt(old(chats), k)
      ensures users == old(users) && requests == old(requests) && messages == old(messages)
    {
      var k := ChatIndexWithBoth(chats, a, b);
      if k.None? {
        return None;
      }
      deleted := Some(chats[k.value]);
      chats := RemoveAt(chats, k.value);
    }

    /** `findOneAndUpdate({ _id: chatId }, { $push: { messages: messageId } })`. */
    method PushMessage(chatId: Id, messageId: Id)
      requires Valid()
      modifies this
      ensures Valid()
      ensures chats == LinkMessage(old(chats), chatId, messageId)
      ensures users == old(users) && requests == old(requests) && messages == old(messages)
    {
      var k := FirstIndex(chats, (c: Chat) => c.id == chatId);
      if k.Some? {
        chats := chats[k.value := chats[k.value].(messages := chats[k.value].messages + [messageId])];
      }
    }

    /** `save()` of a new message; the `_id` index rejects a clash. */
    method InsertMessage(m: Message) returns (r: Result<()>)
      requires Valid()
      modifies this
      ensures Valid()
      ensures r.Err? <==> exists i :: 0 <= i < |old(messages)| && old(messages)[i].id == m.id
      ensures r.Err? ==> r.failure == DuplicateKey && messages == old(messages)
      ensures r.Ok? ==> messages == old(messages) + [m]
      ensures users == old(users) && requests == old(requests) && chats == old(chats)
    {
      var clash := FirstIndex(messages, (n: Message) => n.id == m.id);
      if clash.Some? {
        return Err(DuplicateKey);
      }
      messages := messages + [m];
      r := Ok(());
    }

    /** `messageModel.deleteMany({ chat: chatId })`. */
    method DeleteMessagesOfChat(chatId: Id)
      requires Valid()
      modifies this
      ensures Valid()
      ensures messages == MessagesNotOfChat(old(messages), chatId)
      ensures users == old(users) && requests == old(requests) && chats == old(chats)
    {
      MessagesNotOfChatUnique(messages, chatId);
      messages := MessagesNotOfChat(messages, chatId);
    }
  }
}
