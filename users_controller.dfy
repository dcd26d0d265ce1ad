/** src/users/users.controller.ts: the friend-list routes, each a fixed
    sequence of service calls with the failures of some of them rewrapped. */
module UsersController {
  import opened Common
  import opened Store
  import Users = UsersService
  import Chats = ChatService

  /** `POST /users/add`: the four checks in the order self, exists,
      already-friends, pending, then `addFriend`; the first failure stops the
      chain. Only the already-friends check writes anything (it may delete
      the sender's pending request), and only `addFriend` adds a request. */
  method SentFriendRequest(db: Database, dto: Users.FriendRequestDto) returns (r: Result<string>)
    requires db.Valid()
    modifies db
    ensures db.Valid()
    ensures var self := Users.CheckIsUser(old(db.users), dto);
            var exists_ := Users.CheckIsUserExists(old(db.users), dto);
            var pending := Users.CheckUserIsAlreadyHasRequest(old(db.users), old(db.requests), dto);
            var receiver := FindUserByEmail(old(db.users), dto.receiverEmail);
            && (self.Err? ==> r == Err(self.failure) && db.requests == old(db.requests))
            && (self.Ok? && exists_.Err? ==> r == Err(exists_.failure) && db.requests == old(db.requests))
            && (self.Ok? && exists_.Ok? && Users.AlreadyFriends(old(db.users), dto) ==>
                  r == Err(HttpError(403, "You are already friends!")) &&
                  db.requests == RemoveRequest(old(db.requests), dto.senderId, receiver.value.id))
            && (self.Ok? && exists_.Ok? && !Users.AlreadyFriends(old(db.users), dto) && pending.Err? ==>
                  r == Err(pending.failure) && db.requests == old(db.requests))
            && (self.Ok? && exists_.Ok? && !Users.AlreadyFriends(old(db.users), dto) && pending.Ok? &&
                (dto.senderId == "" || dto.receiverEmail == "") ==>
                  r == Err(AppError(400, "Both sender and receiver must be registered")) &&
                  db.requests == old(db.requests))
            && (r.Ok? <==> self.Ok? && exists_.Ok? && !Users.AlreadyFriends(old(db.users), dto) &&
                           pending.Ok? && dto.senderId != "" && dto.receiverEmail != "")
            && (r.Ok? ==> r.value == "Friend request sent!" &&
                          db.requests == old(db.requests) + [FriendRequest(dto.senderId, receiver.value.id)])
    ensures db.users == old(db.users) && db.chats == old(db.chats) && db.messages == old(db.messages)
  {
    var self := Users.CheckIsUser(db.users, dto);
    if self.Err? {
      return Err(self.failure);
    }
    var exists_ := Users.CheckIsUserExists(db.users, dto);
    if exists_.Err? {
      return Err(exists_.failure);
    }
    var friends := Users.CheckUserInFriends(db, dto);
    if friends.Err? {
      return Err(friends.failure);
    }
    var pending := Users.CheckUserIsAlreadyHasRequest(db.users, db.requests, dto);
    if pending.Err? {
      return Err(pending.failure);
    }
    var added := Users.AddFriend(db, dto);
    if added.Err? {
      return Err(added.failure);
    }
    r := Ok("Friend request sent!");
  }

  /** `DELETE /users/remove`: unfriends first and deletes the pair's chat
      second, so when the pair has no chat the friend lists are already
      pulled when the call fails. Every failure is rethrown as a 400 whose
      body carries the failure's message. */
  method RemoveFromFriends(db: Database, senderId: Id, receiverId: Id) returns (r: Result<string>)
    requires db.Valid()
    modifies db
    ensures db.Valid()
    ensures senderId == "" || receiverId == "" || senderId == receiverId ==>
              r == Err(HttpBodyError(400, "Http Exception")) &&
              db.users == old(db.users) && db.chats == old(db.chats) && db.messages == old(db.messages)
    ensures senderId != "" && receiverId != "" && senderId != receiverId ==>
              |db.users| == |old(db.users)| &&
              forall i :: 0 <= i < |db.users| ==>
                db.users[i] == Users.Unfriended(old(db.users)[i], senderId, receiverId)
    ensures senderId != "" && receiverId != "" && senderId != receiverId &&
            ChatIndexWithBoth(old(db.chats), senderId, receiverId).None? ==>
              r == Err(HttpBodyError(400, "Invalid chat")) &&
              db.chats == old(db.chats) && db.messages == old(db.messages)
    ensures r.Ok? <==> senderId != "" && receiverId != "" && senderId != receiverId &&
                       ChatIndexWithBoth(old(db.chats), senderId, receiverId).Some?
    ensures r.Ok? ==>
              var k := ChatIndexWithBoth(old(db.chats), senderId, receiverId).value;
              r.value == "Successfully deleted!" &&
              db.chats == Seqs.RemoveAt(old(db.chats), k) &&
              db.messages == MessagesNotOfChat(old(db.messages), old(db.chats)[k].id)
    ensures db.requests == old(db.requests)
  {
    var unfriended := Users.DeleteFromFriends(db, senderId, receiverId);
    if unfriended.Err? {
      return Err(HttpBodyError(400, MessageOf(unfriended.failure)));
    }
    var deleted := Chats.DeleteChat(db, senderId, receiverId);
    if deleted.Err? {
      return Err(HttpBodyError(400, MessageOf(deleted.failure)));
    }
    r := Ok("Successfully deleted!");
  }

  /** `POST /users/accept-friend`: accepts, and only after that succeeds
      creates the chat `[senderId, receiverId]`; every failure is rethrown
      as a 403. */
  method AcceptFriend(db: Database, senderId: Id, receiverId: Id, chatId: Id) returns (r: Result<string>)
    requires db.Valid()
    modifies db
    ensures db.Valid()
    ensures |db.users| == |old(db.users)|
    ensures forall i :: 0 <= i < |db.users| ==>
              db.users[i] == Users.Befriended(old(db.users)[i], senderId, receiverId)
    ensures FindUserById(old(db.users), receiverId).None? ==>
              r == Err(HttpBodyError(403, "User is not found!"))
    ensures FindUserById(old(db.users), receiverId).Some? && FindUserById(old(db.users), senderId).None? ==>
              r == Err(HttpBodyError(403, "Friend is not found!"))
    ensures r.Ok? <==> FindUserById(old(db.users), receiverId).Some? &&
                       FindUserById(old(db.users), senderId).Some? &&
                       forall i :: 0 <= i < |old(db.chats)| ==> old(db.chats)[i].id != chatId
    ensures r.Ok? ==> r.value == "Successfully added!" &&
                      db.chats == old(db.chats) + [Chat(chatId, [senderId, receiverId], [])]
    ensures r.Err? ==> r.failure.HttpBodyError? && r.failure.status == 403 && db.chats == old(db.chats)
    ensures FindUserById(old(db.users), receiverId).Some? && FindUserById(old(db.users), senderId).Some? ==>
              db.requests == RemoveRequest(old(db.requests), senderId, receiverId)
    ensures FindUserById(old(db.users), receiverId).None? || FindUserById(old(db.users), senderId).None? ==>
              db.requests == old(db.requests)
    ensures db.messages == old(db.messages)
  {
    var accepted := Users.AcceptFriend(db, senderId, receiverId);
    if accepted.Err? {
      return Err(HttpBodyError(403, MessageOf(accepted.failure)));
    }
    var chat := Chats.CreateChat(db, [senderId, receiverId], chatId);
    if chat.Err? {
      return Err(HttpBodyError(403, MessageOf(chat.failure)));
    }
    r := Ok("Successfully added!");
  }

  /** `DELETE /users/decline-friend`: the receiver declines the request
      sent to them by `senderId`. */
  method DeclineFriend(db: Database, senderId: Id, receiverId: Id) returns (r: Result<string>)
    requires db.Valid()
    modifies db
    ensures db.Valid()
    ensures r == Ok("User friend request declined")
    ensures db.requests == RemoveRequest(old(db.requests), senderId, receiverId)
    ensures db.users == old(db.users) && db.chats == old(db.chats) && db.messages == old(db.messages)
  {
    var _ := Users.DeclineFriendRequest(db, senderId, receiverId);
    r := Ok("User friend request declined");
  }

  /** `DELETE /users/decline-request`: passes the two ids swapped, so it
      deletes the request sent from `receiverId` to `senderId`, the mirror
      of `DeclineFriend`; it returns no body. */
  method DeclineRequest(db: Database, senderId: Id, receiverId: Id) returns (r: Result<()>)
    requires db.Valid()
    modifies db
    ensures db.Valid()
    ensures r == Ok(())
    ensures db.requests == RemoveRequest(old(db.requests), receiverId, senderId)
    ensures db.users == old(db.users) && db.chats == old(db.chats) && db.messages == old(db.messages)
  {
    var _ := Users.DeclineFriendRequest(db, receiverId, senderId);
    r := Ok(());
  }
}
