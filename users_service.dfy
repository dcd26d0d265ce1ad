/** src/users/users.service.ts: registration, the friend-request checks and
    state machine (send, accept, decline, unfriend), profile updates, and
    the merge-dedupe helper of the user search. */
module UsersService {
  import opened Common
  import opened Seqs
  import opened UserSchema
  import opened Store

  /** The `{ senderId, receiverEmail }` body of a send-request call. */
  datatype FriendRequestDto = FriendRequestDto(senderId: Id, receiverEmail: string)

  // ------------------------------------------------------- registration

  /** `registration(createUserDto)`: rejects a missing body, an email that is
      already registered and a confirmation that differs from the password,
      in that order; then `save` validates the new document and inserts it. */
  method Registration(db: Database, dto: Option<UserDraft>, id: Id, isEmail: string -> bool)
    returns (r: Result<User>)
    requires db.Valid()
    modifies db
    ensures db.Valid()
    ensures dto.None? ==> r == Err(AppError(400, "Provide all needed data"))
    ensures dto.Some? && FindUserByEmail(old(db.users), dto.value.email).Some? ==>
              r == Err(AppError(400, "User with this email:" + dto.value.email + " exists"))
    ensures dto.Some? && FindUserByEmail(old(db.users), dto.value.email).None? &&
            dto.value.password != dto.value.confirmPassword ==>
              r == Err(AppError(400, "Password do not corresponds"))
    ensures dto.Some? && FindUserByEmail(old(db.users), dto.value.email).None? &&
            dto.value.password == dto.value.confirmPassword &&
            ValidationErrors(NewUser(id, dto.value), isEmail) != [] ==>
              r == Err(ValidationError(ValidationErrors(NewUser(id, dto.value), isEmail)))
    ensures dto.Some? && FindUserByEmail(old(db.users), dto.value.email).None? &&
            dto.value.password == dto.value.confirmPassword &&
            ValidationErrors(NewUser(id, dto.value), isEmail) == [] &&
            FindUserById(old(db.users), id).Some? ==>
              r == Err(DuplicateKey)
    ensures r.Ok? <==>
              dto.Some? && FindUserByEmail(old(db.users), dto.value.email).None? &&
              dto.value.password == dto.value.confirmPassword &&
              ValidationErrors(NewUser(id, dto.value), isEmail) == [] &&
              FindUserById(old(db.users), id).None?
    ensures r.Ok? ==> r.value == NewUser(id, dto.value) && db.users == old(db.users) + [r.value]
    ensures r.Err? ==> db.users == old(db.users)
    ensures db.requests == old(db.requests) && db.chats == old(db.chats) && db.messages == old(db.messages)
  {
    if dto.None? {
      return Err(AppError(400, "Provide all needed data"));
    }
    var d := dto.value;
    if FindUserByEmail(db.users, d.email).Some? {
      return Err(AppError(400, "User with this email:" + d.email + " exists"));
    }
    if d.password != d.confirmPassword {
      return Err(AppError(400, "Password do not corresponds"));
    }
    var created := NewUser(id, d);
    var errors := ValidationErrors(created, isEmail);
    if errors != [] {
      return Err(ValidationError(errors));
    }
    var saved := db.InsertUser(created);
    if saved.Err? {
      return Err(saved.failure);
    }
    r := Ok(created);
  }

  /** `createUser({ name, email, image })`: a document with `friends: []`,
      saved without validation; only the unique indexes can reject it. */
  method CreateUser(db: Database, name: string, email: string, image: Option<string>, id: Id)
    returns (r: Result<User>)
    requires db.Valid()
    modifies db
    ensures db.Valid()
    ensures r.Ok? <==> FindUserById(old(db.users), id).None? && FindUserByEmail(old(db.users), email).None?
    ensures r.Ok? ==> r.value == NewUser(id, UserDraft(name, email, image, "", "")) &&
                      r.value.friends == [] && db.users == old(db.users) + [r.value]
    ensures r.Err? ==> r.failure == DuplicateKey && db.users == old(db.users)
    ensures db.requests == old(db.requests) && db.chats == old(db.chats) && db.messages == old(db.messages)
  {
    var created := NewUser(id, UserDraft(name, email, image, "", ""));
    var saved := db.InsertUser(created);
    if saved.Err? {
      return Err(saved.failure);
    }
    r := Ok(created);
  }

  // ------------------------------------------------- sending a request

  /** `addFriend(dto)`: rejects an empty sender id or receiver email and an
      unknown receiver; otherwise stores exactly one request from the sender
      to the receiver's id and returns it. */
  method AddFriend(db: Database, dto: FriendRequestDto) returns (r: Result<FriendRequest>)
    requires db.Valid()
    modifies db
    ensures db.Valid()
    ensures dto.senderId == "" || dto.receiverEmail == "" ==>
              r == Err(AppError(400, "Both sender and receiver must be registered"))
    ensures dto.senderId != "" && dto.receiverEmail != "" &&
            FindUserByEmail(old(db.users), dto.receiverEmail).None? ==>
              r == Err(AppError(400, "There is no user with such email"))
    ensures r.Ok? <==> dto.senderId != "" && dto.receiverEmail != "" &&
                       FindUserByEmail(old(db.users), dto.receiverEmail).Some?
    ensures r.Ok? ==>
              r.value == FriendRequest(dto.senderId, FindUserByEmail(old(db.users), dto.receiverEmail).value.id) &&
              db.requests == old(db.requests) + [r.value]
    ensures r.Err? ==> db.requests == old(db.requests)
    ensures db.users == old(db.users) && db.chats == old(db.chats) && db.messages == old(db.messages)
  {
    if dto.senderId == "" || dto.receiverEmail == "" {
      return Err(AppError(400, "Both sender and receiver must be registered"));
    }
    var receiver := FindUserByEmail(db.users, dto.receiverEmail);
    if receiver.None? {
      return Err(AppError(400, "There is no user with such email"));
    }
    var request := FriendRequest(dto.senderId, receiver.value.id);
    db.InsertRequest(request);
    r := Ok(request);
  }

  /** `checkIsUserExists(dto)`: passes exactly when some user has the
      receiver email. */
  function CheckIsUserExists(users: seq<User>, dto: FriendRequestDto): (r: Result<bool>)
    ensures r.Ok? <==> exists i :: 0 <= i < |users| && users[i].email == Lower(dto.receiverEmail)
    ensures r.Ok? ==> r.value
    ensures r.Err? ==> r.failure == HttpError(403, "This email is not using that service")
  {
    if FindUserByEmail(users, dto.receiverEmail).None? then
      Err(HttpError(403, "This email is not using that service"))
    else Ok(true)
  }

  /** `checkIsUser(dto)`: rejects exactly when the sender's stored email is
      the receiver email as typed (a strict string comparison, without the
      lower-casing that lookups get); an unknown sender is a `TypeError`. */
  function CheckIsUser(users: seq<User>, dto: FriendRequestDto): (r: Result<bool>)
    ensures FindUserById(users, dto.senderId).None? ==> r == Err(RuntimeError(NullRead))
    ensures FindUserById(users, dto.senderId).Some? ==>
              (r.Err? <==> FindUserById(users, dto.senderId).value.email == dto.receiverEmail)
    ensures FindUserById(users, dto.senderId).Some? && r.Err? ==>
              r.failure == HttpError(403, "You can`t add yourself")
    ensures r.Ok? ==> r.value
  {
    match FindUserById(users, dto.senderId)
    case None => Err(RuntimeError(NullRead))
    case Some(user) =>
      if user.email == dto.receiverEmail then Err(HttpError(403, "You can`t add yourself"))
      else Ok(true)
  }

  /** The condition under which `checkUserInFriends` reports "already
      friends": both users exist, neither friends list is empty, and one of
      them lists the other. */
  predicate AlreadyFriends(users: seq<User>, dto: FriendRequestDto)
  {
    var sender := FindUserById(users, dto.senderId);
    var receiver := FindUserByEmail(users, dto.receiverEmail);
    sender.Some? && receiver.Some? &&
    sender.value.friends != [] && receiver.value.friends != [] &&
    (receiver.value.id in sender.value.friends || dto.senderId in receiver.value.friends)
  }

  /** `checkUserInFriends(dto)`: passes as soon as either friends list is
      empty (the sender's is read first); otherwise, when one lists the
      other, deletes the request from the sender to the receiver, if any,
      and then rejects. */
  method CheckUserInFriends(db: Database, dto: FriendRequestDto) returns (r: Result<bool>)
    requires db.Valid()
    modifies db
    ensures db.Valid()
    ensures var sender := FindUserById(old(db.users), dto.senderId);
            var receiver := FindUserByEmail(old(db.users), dto.receiverEmail);
            && (sender.None? ==> r == Err(RuntimeError(NullRead)))
            && (sender.Some? && sender.value.friends == [] ==> r == Ok(true))
            && (sender.Some? && sender.value.friends != [] && receiver.None? ==> r == Err(RuntimeError(NullRead)))
            && (sender.Some? && receiver.Some? && receiver.value.friends == [] ==> r == Ok(true))
            && (AlreadyFriends(old(db.users), dto) ==>
                  r == Err(HttpError(403, "You are already friends!")) &&
                  db.requests == RemoveRequest(old(db.requests), dto.senderId, receiver.value.id))
            && (sender.Some? && receiver.Some? && !AlreadyFriends(old(db.users), dto) ==> r == Ok(true))
    ensures !AlreadyFriends(old(db.users), dto) ==> db.requests == old(db.requests)
    ensures db.users == old(db.users) && db.chats == old(db.chats) && db.messages == old(db.messages)
  {
    var sender := FindUserById(db.users, dto.senderId);
    var receiver := FindUserByEmail(db.users, dto.receiverEmail);
    if sender.None? {
      return Err(RuntimeError(NullRead));
    }
    if sender.value.friends == [] {
      return Ok(true);
    }
    if receiver.None? {
      return Err(RuntimeError(NullRead));
    }
    if receiver.value.friends == [] {
      return Ok(true);
    }
    if receiver.value.id in sender.value.friends || dto.senderId in receiver.value.friends {
      var _ := db.DeleteRequest(dto.senderId, receiver.value.id);
      return Err(HttpError(403, "You are already friends!"));
    }
    r := Ok(true);
  }

  /** `checkUserIsAlreadyHasRequest(dto)`: rejects exactly when a request
      from the sender to the receiver is pending; a request in the other
      direction does not count. An unknown receiver is a `TypeError`. */
  function CheckUserIsAlreadyHasRequest(users: seq<User>, requests: seq<FriendRequest>, dto: FriendRequestDto)
    : (r: Result<bool>)
    ensures FindUserByEmail(users, dto.receiverEmail).None? ==> r == Err(RuntimeError(NullRead))
    ensures FindUserByEmail(users, dto.receiverEmail).Some? ==>
              (r.Err? <==>
               FriendRequest(dto.senderId, FindUserByEmail(users, dto.receiverEmail).value.id) in requests)
    ensures FindUserByEmail(users, dto.receiverEmail).Some? && r.Err? ==>
              r.failure == HttpError(403, "User already has friend request")
    ensures r.Ok? ==> r.value
  {
    match FindUserByEmail(users, dto.receiverEmail)
    case None => Err(RuntimeError(NullRead))
    case Some(receiver) =>
      if RequestIndex(requests, dto.senderId, receiver.id).Some? then
        Err(HttpError(403, "User already has friend request"))
      else Ok(true)
  }

  // ----------------------------------------------------- listing requests

  /** `getAllIncomingFriendsRequests(userId)`: the requests addressed to the
      user, in stored order. */
  function GetAllIncomingFriendsRequests(requests: seq<FriendRequest>, userId: Id): (r: seq<FriendRequest>)
    ensures forall q :: q in r <==> q in requests && q.receiverId == userId
    ensures forall q :: multiset(r)[q] == if q.receiverId == userId then multiset(requests)[q] else 0
    ensures IsSubsequence(r, requests)
  {
    if |requests| == 0 then []
    else
      assert requests == [requests[0]] + requests[1..];
      if requests[0].receiverId == userId then
        [requests[0]] + GetAllIncomingFriendsRequests(requests[1..], userId)
      else GetAllIncomingFriendsRequests(requests[1..], userId)
  }

  /** `getAllOutComingFriendsRequests(userId)`: the requests the user sent,
      in stored order. */
  function GetAllOutComingFriendsRequests(requests: seq<FriendRequest>, userId: Id): (r: seq<FriendRequest>)
    ensures forall q :: q in r <==> q in requests && q.senderId == userId
    ensures forall q :: multiset(r)[q] == if q.senderId == userId then multiset(requests)[q] else 0
    ensures IsSubsequence(r, requests)
  {
    if |requests| == 0 then []
    else
      assert requests == [requests[0]] + requests[1..];
      if requests[0].senderId == userId then
        [requests[0]] + GetAllOutComingFriendsRequests(requests[1..], userId)
      else GetAllOutComingFriendsRequests(requests[1..], userId)
  }

  // ------------------------------------------- accepting and declining

  /** A user record after `acceptFriend(senderId, receiverId)`: the receiver
      gains `senderId` at the end of its friends, the sender gains
      `receiverId`, and both happen to one user who is both. */
  function Befriended(u: User, senderId: Id, receiverId: Id): User
  {
    u.(friends := u.friends + (if u.id == receiverId then [senderId] else [])
                            + (if u.id == senderId then [receiverId] else []))
  }

  /** Pushing `senderId` onto the receiver's friends and then `receiverId`
      onto the sender's gives `Befriended` on every user, and the first push
      does not change which users exist. */
  lemma TwoPushesBefriend(before: seq<User>, middle: seq<User>, after: seq<User>, senderId: Id, receiverId: Id)
    requires |middle| == |before| && |after| == |middle|
    requires forall i :: 0 <= i < |middle| ==>
               middle[i] == if before[i].id == receiverId
                            then before[i].(friends := before[i].friends + [senderId]) else before[i]
    requires forall i :: 0 <= i < |after| ==>
               after[i] == if middle[i].id == senderId
                           then middle[i].(friends := middle[i].friends + [receiverId]) else middle[i]
    ensures forall i :: 0 <= i < |after| ==> after[i] == Befriended(before[i], senderId, receiverId)
    ensures FindUserById(before, senderId).Some? <==> FindUserById(middle, senderId).Some?
  {
    forall i | 0 <= i < |after| ensures after[i] == Befriended(before[i], senderId, receiverId) {
      assert middle[i].id == before[i].id;
    }
    SameIdsSameLookup(before, middle, senderId);
  }

  /** `acceptFriend(senderId, receiverId)`: both `$push` updates run before
      either result is checked, so every existing user of the two is
      extended even when the call then fails; on success the request from
      the sender to the receiver is deleted. A pending request is not
      required, and entries already present are pushed again. */
  method AcceptFriend(db: Database, senderId: Id, receiverId: Id) returns (r: Result<()>)
    requires db.Valid()
    modifies db
    ensures db.Valid()
    ensures |db.users| == |old(db.users)|
    ensures forall i :: 0 <= i < |db.users| ==>
              db.users[i] == Befriended(old(db.users)[i], senderId, receiverId)
    ensures FindUserById(old(db.users), receiverId).None? ==> r == Err(AppError(400, "User is not found!"))
    ensures FindUserById(old(db.users), receiverId).Some? && FindUserById(old(db.users), senderId).None? ==>
              r == Err(AppError(400, "Friend is not found!"))
    ensures r.Ok? <==> FindUserById(old(db.users), receiverId).Some? && FindUserById(old(db.users), senderId).Some?
    ensures r.Ok? ==> db.requests == RemoveRequest(old(db.requests), senderId, receiverId)
    ensures r.Err? ==> db.requests == old(db.requests)
    ensures db.chats == old(db.chats) && db.messages == old(db.messages)
  {
    ghost var before := db.users;
    var user := db.PushFriend(receiverId, senderId);
    ghost var middle := db.users;
    var friend := db.PushFriend(senderId, receiverId);
    TwoPushesBefriend(before, middle, db.users, senderId, receiverId);
    if user.None? {
      return Err(AppError(400, "User is not found!"));
    }
    if friend.None? {
      return Err(AppError(400, "Friend is not found!"));
    }
    var _ := db.DeleteRequest(senderId, receiverId);
    r := Ok(());
  }

  /** `declineFriendRequest(senderId, receiverId)`: deletes the request from
      `senderId` to `receiverId` if there is one, and never fails. */
  method DeclineFriendRequest(db: Database, senderId: Id, receiverId: Id) returns (r: Result<()>)
    requires db.Valid()
    modifies db
    ensures db.Valid()
    ensures r == Ok(())
    ensures db.requests == RemoveRequest(old(db.requests), senderId, receiverId)
    ensures db.users == old(db.users) && db.chats == old(db.chats) && db.messages == old(db.messages)
  {
    var _ := db.DeleteRequest(senderId, receiverId);
    r := Ok(());
  }

  // ------------------------------------------------------------ unfriend

  /** A user record after `deleteFromFriends(senderId, receiverId)` with two
      distinct ids: each of the two loses every occurrence of the other. */
  function Unfriended(u: User, senderId: Id, receiverId: Id): User
  {
    if u.id == senderId then u.(friends := RemoveAll(u.friends, receiverId))
    else if u.id == receiverId then u.(friends := RemoveAll(u.friends, senderId))
    else u
  }

  /** `deleteFromFriends(senderId, receiverId)`: rejects an empty or repeated
      id before changing anything; otherwise
      pulls each id from the other's friends, missing users included. */
  method DeleteFromFriends(db: Database, senderId: Id, receiverId: Id) returns (r: Result<()>)
    requires db.Valid()
    modifies db
    ensures db.Valid()
    ensures senderId == "" || receiverId == "" || senderId == receiverId ==>
              r == Err(HttpBodyError(400, "Please provide all data")) && db.users == old(db.users)
    ensures senderId != "" && receiverId != "" && senderId != receiverId ==>
              r == Ok(()) && |db.users| == |old(db.users)| &&
              forall i :: 0 <= i < |db.users| ==> db.users[i] == Unfriended(old(db.users)[i], senderId, receiverId)
    ensures db.requests == old(db.requests) && db.chats == old(db.chats) && db.messages == old(db.messages)
  {
    if senderId == "" || receiverId == "" {
      return Err(HttpBodyError(400, "Please provide all data"));
    }
    if senderId == receiverId {
      return Err(HttpBodyError(400, "Please provide all data"));
    }
    var _ := db.PullFriend(senderId, receiverId);
    var _ := db.PullFriend(receiverId, senderId);
    r := Ok(());
  }

  // ------------------------------------------------------------- profile

  /** `changeBio(userId, newBio)`: sets the bio and returns it; an unknown
      user makes `user.bio` a `TypeError`. */
  method ChangeBio(db: Database, userId: Id, newBio: string) returns (r: Result<string>)
    requires db.Valid()
    modifies db
    ensures db.Valid()
    ensures r.Ok? <==> FindUserById(old(db.users), userId).Some?
    ensures r.Err? ==> r.failure == RuntimeError(NullRead) && db.users == old(db.users)
    ensures r.Ok? ==> r.value == newBio && |db.users| == |old(db.users)|
    ensures r.Ok? ==>
              forall i :: 0 <= i < |db.users| ==>
                db.users[i] == if old(db.users)[i].id == userId
                               then old(db.users)[i].(bio := Some(newBio)) else old(db.users)[i]
    ensures db.requests == old(db.requests) && db.chats == old(db.chats) && db.messages == old(db.messages)
  {
    var k := UserIndexById(db.users, userId);
    if k.None? {
      return Err(RuntimeError(NullRead));
    }
    var updated := db.users[k.value].(bio := Some(newBio));
    db.SaveUser(k.value, updated);
    r := Ok(newBio);
  }

  /** `changeName(userId, newName)`: the update runs the `lowercase` setter
      but no validators, so the stored name is the lower-cased input
      whatever its length or characters. */
  method ChangeName(db: Database, userId: Id, newName: string) returns (r: Result<string>)
    requires db.Valid()
    modifies db
    ensures db.Valid()
    ensures r.Ok? <==> FindUserById(old(db.users), userId).Some?
    ensures r.Err? ==> r.failure == RuntimeError(NullRead) && db.users == old(db.users)
    ensures r.Ok? ==> r.value == Lower(newName) && |db.users| == |old(db.users)|
    ensures r.Ok? ==>
              forall i :: 0 <= i < |db.users| ==>
                db.users[i] == if old(db.users)[i].id == userId
                               then old(db.users)[i].(name := Lower(newName)) else old(db.users)[i]
    ensures db.requests == old(db.requests) && db.chats == old(db.chats) && db.messages == old(db.messages)
  {
    var k := UserIndexById(db.users, userId);
    if k.None? {
      return Err(RuntimeError(NullRead));
    }
    var updated := db.users[k.value].(name := Lower(newName));
    db.SaveUser(k.value, updated);
    r := Ok(Lower(newName));
  }

  // ------------------------------------------------ search merge-dedupe

  /** `self.findIndex((o) => o.id === key)` as an option. */
  function FindIndexOfId<T, K(==)>(self: seq<T>, id: T -> K, key: K): (r: Option<nat>)
    ensures r.Some? ==> r.value < |self| && id(self[r.value]) == key
    ensures r.Some? ==> forall j :: 0 <= j < r.value ==> id(self[j]) != key
    ensures r.None? ==> forall j :: 0 <= j < |self| ==> id(self[j]) != key
  {
    FirstIndex(self, (o: T) => id(o) == key)
  }

  /** `index === self.findIndex((o) => o.id === self[index].id)`. */
  predicate IsFirstOccurrence<T, K(==)>(self: seq<T>, id: T -> K, index: nat)
    requires index < |self|
  {
    FindIndexOfId(self, id, id(self[index])) == Some(index)
  }

  /** The `filter((obj, index, self) => index === self.findIndex(...))` pass,
      from index `from` on. */
  function KeepFirstOccurrences<T(==), K(==)>(self: seq<T>, id: T -> K, from: nat): (r: seq<T>)
    requires from <= |self|
    ensures |r| <= |self| - from
    ensures forall x :: x in r ==> x in self[from..]
    decreases |self| - from
  {
    if from == |self| then []
    else (if IsFirstOccurrence(self, id, from) then [self[from]] else []) +
         KeepFirstOccurrences(self, id, from + 1)
  }

  /** `mergeAndRemoveDuplicateObjects(arr1, arr2)`: the concatenation with
      every element dropped whose id occurred earlier. */
  function MergeAndRemoveDuplicateObjects<T(==), K(==)>(arr1: seq<T>, arr2: seq<T>, id: T -> K): (r: seq<T>)
    ensures |r| <= |arr1| + |arr2|
    ensures forall x :: x in r ==> x in arr1 || x in arr2
  {
    KeepFirstOccurrences(arr1 + arr2, id, 0)
  }

  /** Every kept element is the first element of `self` with its id, found
      at or after `from`. */
  lemma {:induction false} KeptAreFirst<T, K>(self: seq<T>, id: T -> K, from: nat)
    requires from <= |self|
    ensures forall x :: x in KeepFirstOccurrences(self, id, from) ==>
              FindIndexOfId(self, id, id(x)).Some? &&
              from <= FindIndexOfId(self, id, id(x)).value &&
              self[FindIndexOfId(self, id, id(x)).value] == x
    decreases |self| - from
  {
    if from < |self| {
      KeptAreFirst(self, id, from + 1);
    }
  }

  /** Every first occurrence at or after `from` is kept. */
  lemma {:induction false} FirstsAreKept<T, K>(self: seq<T>, id: T -> K, from: nat)
    requires from <= |self|
    ensures forall j :: from <= j < |self| && IsFirstOccurrence(self, id, j) ==>
              self[j] in KeepFirstOccurrences(self, id, from)
    decreases |self| - from
  {
    if from < |self| {
      FirstsAreKept(self, id, from + 1);
      var r := KeepFirstOccurrences(self, id, from);
      var rest := KeepFirstOccurrences(self, id, from + 1);
      if IsFirstOccurrence(self, id, from) {
        assert r == [self[from]] + rest;
      } else {
        assert r == rest;
      }
      forall j | from < j < |self| && IsFirstOccurrence(self, id, j)
        ensures self[j] in r
      {
        assert self[j] in rest;
      }
    }
  }

  /** No two elements of `r` share an id. */
  ghost predicate DistinctIds<T, K>(r: seq<T>, id: T -> K)
  {
    forall i, j :: 0 <= i < j < |r| ==> id(r[i]) != id(r[j])
  }

  lemma {:induction false} KeptHaveDistinctIds<T, K>(self: seq<T>, id: T -> K, from: nat)
    requires from <= |self|
    ensures DistinctIds(KeepFirstOccurrences(self, id, from), id)
    decreases |self| - from
  {
    if from < |self| {
      var rest := KeepFirstOccurrences(self, id, from + 1);
      var r := KeepFirstOccurrences(self, id, from);
      KeptHaveDistinctIds(self, id, from + 1);
      if IsFirstOccurrence(self, id, from) {
        KeptAreFirst(self, id, from + 1);
        assert r == [self[from]] + rest;
        forall i, j | 0 <= i < j < |r| ensures id(r[i]) != id(r[j]) {
          assert r[j] == rest[j - 1] && rest[j - 1] in rest;
          if i == 0 {
            var f := FindIndexOfId(self, id, id(rest[j - 1]));
            assert f.Some? && from + 1 <= f.value;
            assert id(r[0]) == id(self[from]);
          } else {
            assert r[i] == rest[i - 1];
          }
        }
      } else {
        assert r == rest;
      }
    }
  }

  lemma {:induction false} KeptIsSubsequence<T, K>(self: seq<T>, id: T -> K, from: nat)
    requires from <= |self|
    ensures IsSubsequence(KeepFirstOccurrences(self, id, from), self[from..])
    decreases |self| - from
  {
    if from < |self| {
      var rest := KeepFirstOccurrences(self, id, from + 1);
      var r := KeepFirstOccurrences(self, id, from);
      KeptIsSubsequence(self, id, from + 1);
      var s := self[from..];
      assert |s| > 0 && s[0] == self[from] && s[1..] == self[from + 1..];
      if IsFirstOccurrence(self, id, from) {
        assert r == [self[from]] + rest;
        assert |r| > 0 && r[0] == s[0] && r[1..] == rest;
        assert IsSubsequence(r[1..], s[1..]);
      } else {
        assert r == rest;
        assert IsSubsequence(r, s[1..]);
      }
    }
  }

  /** No two elements of the merged result share an id. */
  lemma MergeHasDistinctIds<T, K>(arr1: seq<T>, arr2: seq<T>, id: T -> K)
    ensures DistinctIds(MergeAndRemoveDuplicateObjects(arr1, arr2, id), id)
  {
    KeptHaveDistinctIds(arr1 + arr2, id, 0);
  }

  /** The merged result keeps elements of `arr1 ++ arr2` in their order. */
  lemma MergeIsSubsequence<T, K>(arr1: seq<T>, arr2: seq<T>, id: T -> K)
    ensures IsSubsequence(MergeAndRemoveDuplicateObjects(arr1, arr2, id), arr1 + arr2)
  {
    KeptIsSubsequence(arr1 + arr2, id, 0);
    assert (arr1 + arr2)[0..] == arr1 + arr2;
  }

  /** Each element of the result is the first element of `arr1 ++ arr2`
      carrying its id. */
  lemma MergeKeepsFirstOccurrence<T, K>(arr1: seq<T>, arr2: seq<T>, id: T -> K)
    ensures var merged := arr1 + arr2;
            forall x :: x in MergeAndRemoveDuplicateObjects(arr1, arr2, id) ==>
              FindIndexOfId(merged, id, id(x)).Some? &&
              merged[FindIndexOfId(merged, id, id(x)).value] == x
  {
    KeptAreFirst(arr1 + arr2, id, 0);
  }

  /** Every id of either input is kept, through its first element. */
  lemma MergeKeepsEveryId<T, K>(arr1: seq<T>, arr2: seq<T>, id: T -> K)
    ensures var merged := arr1 + arr2;
            forall x :: x in arr1 || x in arr2 ==>
              FindIndexOfId(merged, id, id(x)).Some? &&
              merged[FindIndexOfId(merged, id, id(x)).value] in MergeAndRemoveDuplicateObjects(arr1, arr2, id)
  {
    var merged := arr1 + arr2;
    FirstsAreKept(merged, id, 0);
    forall x | x in arr1 || x in arr2
      ensures FindIndexOfId(merged, id, id(x)).Some? &&
              merged[FindIndexOfId(merged, id, id(x)).value] in MergeAndRemoveDuplicateObjects(arr1, arr2, id)
    {
      assert x in merged;
      var j :| 0 <= j < |merged| && merged[j] == x;
      var f := FindIndexOfId(merged, id, id(x));
      assert f.Some? && f.value <= j;
      assert IsFirstOccurrence(merged, id, f.value);
    }
  }
}
