/** Properties of sequences of route and service calls, each stated as a
    client method that makes the calls and promises their combined effect. */
module Scenarios {
  import opened Common
  import opened UserSchema
  import opened MessageSchema
  import opened Store
  import Users = UsersService
  import UsersRoutes = UsersController
  import Chats = ChatService
  import Auth = AuthService

  /** Once a request from A to B has been sent, sending it again is stopped
      by the pending-request check, and the second attempt changes nothing. */
  method SendTwice(db: Database, dto: Users.FriendRequestDto) returns (first: Result<string>, second: Result<string>)
    requires db.Valid()
    modifies db
    ensures first.Ok? ==> second == Err(HttpError(403, "User already has friend request"))
    ensures first.Ok? ==>
              FindUserByEmail(old(db.users), dto.receiverEmail).Some? &&
              db.requests == old(db.requests) +
                             [FriendRequest(dto.senderId, FindUserByEmail(old(db.users), dto.receiverEmail).value.id)]
  {
    first := UsersRoutes.SentFriendRequest(db, dto);
    ghost var afterFirst := db.requests;
    second := UsersRoutes.SentFriendRequest(db, dto);
    if first.Ok? {
      assert db.requests == afterFirst;
    }
  }

  /** From a state where A and B have no friends and A has not asked B yet,
      A sending B a request and B accepting it leaves each in the other's
      friends exactly once, no request from A to B, and one new chat with
      participants `[A, B]`. */
  method SendThenAccept(db: Database, a: Id, b: Id, bEmail: string, chatId: Id)
    returns (sent: Result<string>, accepted: Result<string>)
    requires db.Valid()
    requires a != b && a != "" && bEmail != ""
    requires FindUserById(db.users, a).Some? && FindUserById(db.users, a).value.friends == []
    requires FindUserById(db.users, a).value.email != bEmail
    requires FindUserByEmail(db.users, bEmail).Some? && FindUserByEmail(db.users, bEmail).value.id == b
    requires FindUserByEmail(db.users, bEmail).value.friends == []
    requires FriendRequest(a, b) !in db.requests
    requires forall i :: 0 <= i < |db.chats| ==> db.chats[i].id != chatId
    modifies db
    ensures sent == Ok("Friend request sent!") && accepted == Ok("Successfully added!")
    ensures FindUserById(db.users, a).Some? && FindUserById(db.users, a).value.friends == [b]
    ensures FindUserById(db.users, b).Some? && FindUserById(db.users, b).value.friends == [a]
    ensures FriendRequest(a, b) !in db.requests
    ensures db.chats == old(db.chats) + [Chat(chatId, [a, b], [])]
  {
    ghost var ka := UserIndexById(db.users, a).value;
    ghost var kb := UserIndexByEmail(db.users, bEmail).value;
    FindUserByIdAt(db.users, ka);
    FindUserByEmailAt(db.users, kb, bEmail);
    var dto := Users.FriendRequestDto(a, bEmail);
    assert !Users.AlreadyFriends(db.users, dto);
    sent := UsersRoutes.SentFriendRequest(db, dto);
    assert db.requests == old(db.requests) + [FriendRequest(a, b)];
    ghost var afterSend := db.users;
    accepted := UsersRoutes.AcceptFriend(db, a, b, chatId);
    FriendsAfterAccept(afterSend, db.users, a, b, ka, kb);
    RequestGone(old(db.requests), FriendRequest(a, b));
  }

  /** Accepting between two users with empty friends lists leaves each with
      exactly the other. */
  lemma FriendsAfterAccept(before: seq<User>, after: seq<User>, a: Id, b: Id, ka: nat, kb: nat)
    requires a != b && ka < |before| && kb < |before| && |after| == |before|
    requires before[ka].id == a && before[ka].friends == [] && before[kb].id == b && before[kb].friends == []
    requires forall i :: 0 <= i < |after| ==> after[i] == Users.Befriended(before[i], a, b)
    requires UniqueUserIds(after)
    ensures FindUserById(after, a).Some? && FindUserById(after, a).value.friends == [b]
    ensures FindUserById(after, b).Some? && FindUserById(after, b).value.friends == [a]
  {
    assert after[ka] == Users.Befriended(before[ka], a, b);
    assert after[kb] == Users.Befriended(before[kb], a, b);
    FindUserByIdAt(after, ka);
    FindUserByIdAt(after, kb);
  }

  /** A request sent once and then accepted is gone. */
  lemma RequestGone(requests: seq<FriendRequest>, q: FriendRequest)
    requires q !in requests
    ensures q !in RemoveRequest(requests + [q], q.senderId, q.receiverId)
  {
    var r := RemoveRequest(requests + [q], q.senderId, q.receiverId);
    assert q in requests + [q];
    assert multiset(requests + [q]) == multiset(requests) + multiset{q};
    assert multiset(r)[q] == 0;
  }

  /** When exactly one chat holds both ids, deleting the pair's chat makes
      the lookup of a chat between them fail. */
  method DeleteThenLookup(db: Database, a: Id, b: Id) returns (deleted: Result<bool>, found: Result<Chat>)
    requires db.Valid()
    requires a != "" && b != ""
    requires exists i :: 0 <= i < |db.chats| && HasBoth(db.chats[i], a, b)
    requires forall i, j ::
               0 <= i < |db.chats| && 0 <= j < |db.chats| && HasBoth(db.chats[i], a, b) && HasBoth(db.chats[j], a, b)
               ==> i == j
    modifies db
    ensures deleted == Ok(true)
    ensures found == Err(AppError(400, "You must be friends to chat with a user"))
  {
    ghost var before := db.chats;
    deleted := Chats.DeleteChat(db, a, b);
    ghost var k := ChatIndexWithBoth(before, a, b).value;
    forall j | 0 <= j < |db.chats| ensures !HasBoth(db.chats[j], a, b) {
      if j < k {
        assert db.chats[j] == before[j];
      } else {
        assert db.chats[j] == before[j + 1];
      }
    }
    found := Chats.GetChatByParticipants(db.chats, a, b);
  }

  /** A second Google sign-in with the same email returns the same user and
      creates nobody. */
  method GoogleTwice(db: Database, name: string, email: string, image: Option<string>, id1: Id, id2: Id)
    returns (first: Result<User>, second: Result<User>)
    requires db.Valid()
    modifies db
    ensures first.Ok? ==> second == first
    ensures first.Ok? ==>
              db.users == if FindUserByEmail(old(db.users), email).Some? then old(db.users)
                          else old(db.users) + [first.value]
  {
    first := Auth.ValidateUserForGoogle(db, name, email, image, id1);
    ghost var afterFirst := db.users;
    second := Auth.ValidateUserForGoogle(db, name, email, image, id2);
    if first.Ok? {
      assert db.users == afterFirst;
    }
  }

  /** A successful reset consumes the pending reset: the same call again
      fails. */
  method ResetTwice(db: Database, tokenEmail: Option<string>, newPassword: string, confirmPassword: string, now: int)
    returns (first: Result<()>, second: Result<()>)
    requires db.Valid()
    modifies db
    ensures first.Ok? ==> second == Err(HttpError(400, "Token is invalid or has expired!"))
  {
    first := Auth.ResetPassword(db, tokenEmail, newPassword, confirmPassword, now);
    second := Auth.ResetPassword(db, tokenEmail, newPassword, confirmPassword, now);
  }

  /** When the recovery mail cannot be sent, no reset is possible through
      the email it was meant for. */
  method ResetAfterMailFailure(db: Database, email: string, token: string, now: int,
                               newPassword: string, confirmPassword: string)
    returns (forgot: Result<()>, reset: Result<()>)
    requires db.Valid()
    modifies db
    ensures forgot.Ok? ==> reset == Err(HttpError(400, "Token is invalid or has expired!"))
  {
    forgot := Auth.ForgotPassword(db, email, token, now, false);
    reset := Auth.ResetPassword(db, Some(email), newPassword, confirmPassword, now);
  }

  /** Two messages posted to one chat are listed after what it held, in the
      order they were posted. */
  method PostTwice(db: Database, d1: MessageDraft, d2: MessageDraft, chatId: Id, id1: Id, id2: Id, t1: int, t2: int)
    returns (first: Result<Message>, second: Result<Message>)
    requires db.Valid()
    modifies db
    ensures first.Ok? && second.Ok? ==>
              Chats.GetAllChatMessage(db.messages, chatId) ==
              Chats.GetAllChatMessage(old(db.messages), chatId) + [first.value, second.value]
  {
    ghost var start := db.messages;
    first := Chats.CreateNewMessage(db, d1, chatId, id1, t1);
    ghost var middle := db.messages;
    second := Chats.CreateNewMessage(db, d2, chatId, id2, t2);
    if first.Ok? && second.Ok? {
      ListingGrows(start, middle, db.messages, first.value, second.value, chatId);
    }
  }

  /** Two appended messages of the chat extend its listing by both, in
      order. */
  lemma ListingGrows(start: seq<Message>, middle: seq<Message>, end: seq<Message>, m1: Message, m2: Message, chatId: Id)
    requires middle == start + [m1] && end == middle + [m2] && m1.chat == chatId && m2.chat == chatId
    ensures Chats.GetAllChatMessage(end, chatId) == Chats.GetAllChatMessage(start, chatId) + [m1, m2]
  {
    Chats.GetAllChatMessageAppend(start, m1, chatId);
    Chats.GetAllChatMessageAppend(middle, m2, chatId);
  }

  /** The self check compares the stored email with the address as typed,
      while the lookups lower-case it: a user whose typed address differs
      from their stored one only in case gets a request to themselves
      through. */
  method SelfRequestThroughCase(db: Database, a: Id, typed: string) returns (r: Result<string>)
    requires db.Valid()
    requires a != "" && typed != ""
    requires FindUserById(db.users, a).Some?
    requires FindUserById(db.users, a).value.email == Lower(typed) && Lower(typed) != typed
    requires FindUserById(db.users, a).value.friends == []
    requires FriendRequest(a, a) !in db.requests
    modifies db
    ensures r == Ok("Friend request sent!")
    ensures db.requests == old(db.requests) + [FriendRequest(a, a)]
  {
    ghost var k := UserIndexById(db.users, a).value;
    FindUserByIdAt(db.users, k);
    FindUserByEmailAt(db.users, k, typed);
    r := UsersRoutes.SentFriendRequest(db, Users.FriendRequestDto(a, typed));
  }
}
