# Messenger backend: friend graph, chats and password reset, in Dafny

This project models the core of a NestJS/Mongoose messenger backend: user
registration, the friend-request state machine (send, accept, decline,
unfriend), chats and their messages, the password-reset flow, the Google
find-or-create sign-in, the registration guard, and the validators and
defaults the User and Message schemas apply.

The MongoDB store is `Store.Database`, a class with four sequence fields
(`users`, `requests`, `chats`, `messages`) kept in natural (insertion)
order. `findOne`-style queries are functions that return the first match.
Writes are methods of the class, and `Valid()` states what the unique
indexes guarantee (unique ids, unique lower-cased emails). Service and
controller operations that write are module-level methods over a
`Database`, each stating its whole new state. Read-only operations are
functions. What a thrown exception is becomes a `Failure` value
(`HttpError`, `HttpBodyError`, `AppError`, `ValidationError`,
`DuplicateKey`, `RuntimeError`). Failures the code raises itself carry its
status and message word for word. Failures raised by Mongoose or the
JavaScript runtime carry an abbreviated message (see "## Left out").

Values the code gets from outside are parameters:
- new ObjectIds (`id`, `chatId`);
- the clock (`now`);
- the issued JWT (`token`);
- the email a reset token names (`tokenEmail`);
- whether the recovery mail was sent (`mailSent`);
- the uploaded file names (`files`);
- `validator.isEmail` (`isEmail`).

Modules, one per source file plus shared ones:
- `Common`: ids, results and failures, lower-casing.
- `Seqs`: first-match search, subsequences, removal at an index.
- `UserSchema` and `MessageSchema`: the two schemas.
- `Store`: the collections and their queries and writes.
- `UsersService`, `UsersController`, `ChatService`, `ChatController`,
  `AuthService`, `RegistrationGuard`: the source files of the same names.
- `Scenarios`: properties of sequences of calls.

Behaviours of the code worth noting:
- `createChat` always inserts, so a second chat for the same pair can exist.
- Accepting pushes with `$push`, so friend lists can hold duplicates.
- An unknown email makes `forgotPassword` throw a 400; it does not succeed silently.
- The message-type enum has no `file` or `voice`, so such messages never validate.
- The self-request check compares the stored email with the address as
  typed, so a differently-cased address gets a request to oneself through
  (`Scenarios.SelfRequestThroughCase`).

## Model

| member | source | states |
|---|---|---|
| Common.Lower | src/schemas/user.schema.ts:16 | the `lowercase` setter keeps the length, turns each upper-case ASCII letter into its lower-case partner (code point + 32), and changes no other character |
| Common.MessageOf | src/users/users.controller.ts:58 | `e.message`: the message an exception built from a string carries is that string; an `HttpException` built from an object body has Nest's generic "Http Exception" |
| Seqs.FirstIndex | src/users/users.service.ts:77 | a `findOne` in natural order: the index found satisfies the filter and no earlier element does; `None` only when no element does |
| Seqs.RemoveAt | src/users/users.service.ts:203 | deleting one document removes exactly that element (multiset minus one) and shifts the later ones down |
| Seqs.RemoveAtIsSubsequence | src/users/users.service.ts:203 | deleting one document keeps the order of the others |
| UserSchema.NewUser | src/schemas/user.schema.ts:12-88 | a new user has name and email lower-cased, image `default.jpg` unless given, friends `[]`, loginAttempts 0 and no reset fields |
| UserSchema.ValidationErrors | src/schemas/user.schema.ts:12-66 | `save` reports name exactly when it breaks the 20-character or en-US-letters-and-spaces rule, email exactly when isEmail fails, password exactly when empty, confirmPassword exactly when empty or different from password |
| UserSchema.RemoveSpaces | src/schemas/user.schema.ts:18 | the `ignore: ' '` step: exactly the characters of the input other than spaces remain |
| UserSchema.IsAlphaIgnoringSpaces | src/schemas/user.schema.ts:18 | `isAlpha` after removing spaces holds exactly when the name has a non-space and nothing but spaces and en-US letters |
| UserSchema.StoredNameShape | src/schemas/user.schema.ts:12-21 | a stored name that validates is lower-case, at most 20 characters, and only letters a-z and spaces |
| UserSchema.CreatePasswordResetToken | src/schemas/user.schema.ts:112-118 | returns the token and stores it, sets the expiry to `now` + 600000 ms, and changes no other field |
| MessageSchema.NewMessage | src/schemas/message.schema.ts:35-42 | messageType defaults to `text` and timestamp to the creation time; every other field is taken from the body |
| MessageSchema.ValidationErrors | src/schemas/message.schema.ts:6-45 | sender, recipient, content and chat are reported exactly when empty, messageType exactly when outside the enum; no error exactly when all hold |
| MessageSchema.FileAndVoiceRejected | src/schemas/message.schema.ts:6-12 | a `file` or `voice` message always fails the enum check |
| Store.UserIndexById | src/users/users.service.ts:106 | `findOne({ _id })` as an index: the user found has that id; none means no user has it |
| Store.FindUserById | src/users/users.service.ts:106 | `findOne({ _id })` finds a user exactly when one has that id, and returns a stored user with that id |
| Store.UserIndexByEmail | src/users/users.service.ts:98 | `findOne({ email })` compares with the lower-cased filter value; none means no stored email equals it |
| Store.FindUserByEmail | src/users/users.service.ts:98 | finds a user exactly when one has the lower-cased email, and returns a stored user with it |
| Store.FindUserByIdAt | src/schemas/user.schema.ts:10 | with unique ids, looking up a stored user's id finds that user |
| Store.FindUserByEmailAt | src/schemas/user.schema.ts:26 | with unique emails, looking up a stored user's email finds that user |
| Store.SameIdsSameLookup | src/users/users.service.ts:167-188 | an update that keeps every id keeps which ids the store knows |
| Store.RemoveAll | src/users/users.service.ts:232-238 | `$pull` removes every occurrence of the value, keeps the count of every other value, and keeps their order |
| Store.RequestIndex | src/users/users.service.ts:138-141 | the request lookup finds the ordered (sender, receiver) pair exactly when it is stored |
| Store.RemoveRequest | src/users/users.service.ts:203 | `findOneAndDelete` removes the first copy of the request in natural order when present (the rest exactly as before, around the gap), changes nothing when absent |
| Store.ChatIndexWithBoth | src/chat/chat.service.ts:71-75 | `$all: [a, b]` finds the first chat whose participants contain both ids; none means no chat contains both |
| Store.MessagesNotOfChat | src/chat/chat.service.ts:80 | `deleteMany({ chat })` keeps exactly the messages of other chats, in order |
| Store.MessagesNotOfChatUnique | src/chat/chat.service.ts:80 | deleting messages keeps message ids unique |
| Store.Database.InsertUser | src/schemas/user.schema.ts:26 | an insert fails with a duplicate key exactly when the id or the email is taken, and otherwise appends the user; uniqueness is preserved |
| Store.Database.SaveUser | src/auth/auth.service.ts:138 | saving a loaded user replaces exactly that document |
| Store.Database.PushFriend | src/users/users.service.ts:167-177 | `$push` appends the id to the end of that user's friends, duplicates allowed, and returns the user as it was before |
| Store.Database.PullFriend | src/users/users.service.ts:232-238 | `$pull` applies `RemoveAll` to that user's friends only |
| Store.Database.InsertRequest | src/users/users.service.ts:83-94 | saving a request appends it |
| Store.Database.DeleteRequest | src/users/users.service.ts:203 | the request collection becomes `RemoveRequest` of the old one |
| Store.Database.InsertChat | src/chat/chat.service.ts:23-26 | a chat insert fails exactly on an id clash, otherwise appends |
| Store.Database.DeleteChatWithBoth | src/chat/chat.service.ts:71-75 | deletes and returns the first chat holding both ids, or changes nothing |
| Store.Database.PushMessage | src/chat/chat.service.ts:43-47 | the chats become `LinkMessage` of the old ones: the message id appended to the end of that chat's messages, other chats unchanged |
| Store.Database.InsertMessage | src/chat/chat.service.ts:33-35 | a message insert fails exactly on an id clash, otherwise appends |
| Store.Database.DeleteMessagesOfChat | src/chat/chat.service.ts:80 | the messages become `MessagesNotOfChat` of the old ones |
| UsersService.Registration | src/users/users.service.ts:41-57 | rejects a missing body, a taken email and mismatched passwords in that order, then `save` fails with the validation errors of the new document or with a duplicate key on a taken id; succeeds exactly when all pass and then stores the new user |
| UsersService.CreateUser | src/users/users.service.ts:67-71 | stores a user with friends `[]` without validation; fails only on a taken id or email |
| UsersService.AddFriend | src/users/users.service.ts:73-95 | rejects an empty sender or email and an unknown receiver; otherwise appends exactly one request (sender, receiver's id) and nothing else changes |
| UsersService.CheckIsUserExists | src/users/users.service.ts:97-103 | passes exactly when some user has the receiver email |
| UsersService.CheckIsUser | src/users/users.service.ts:105-111 | rejects exactly when the sender's stored email equals the address as typed; an unknown sender is a null read |
| UsersService.CheckUserInFriends | src/users/users.service.ts:113-131 | passes whenever either friends list is empty; when one lists the other, deletes the sender-to-receiver request if any and rejects; otherwise passes with nothing changed |
| UsersService.CheckUserIsAlreadyHasRequest | src/users/users.service.ts:133-149 | rejects exactly when the ordered (sender, receiver) request is stored; the reverse direction does not count |
| UsersService.GetAllIncomingFriendsRequests | src/users/users.service.ts:151-156 | exactly the requests addressed to the user, each as many times as it is stored, in stored order |
| UsersService.GetAllOutComingFriendsRequests | src/users/users.service.ts:158-164 | exactly the requests the user sent, each as many times as it is stored, in stored order |
| UsersService.TwoPushesBefriend | src/users/users.service.ts:166-188 | the two `$push` updates together append each id to the end of the other's friends and nothing else |
| UsersService.AcceptFriend | src/users/users.service.ts:166-204 | both pushes happen first, even when the call then fails; fails for an unknown receiver, then for an unknown sender, leaving the request; on success removes the request |
| UsersService.DeclineFriendRequest | src/users/users.service.ts:206-210 | removes the ordered request if present and never fails |
| UsersService.DeleteFromFriends | src/users/users.service.ts:212-254 | rejects empty or equal ids before any change; otherwise each of the two loses every occurrence of the other and other users are untouched |
| UsersService.ChangeBio | src/users/users.service.ts:282-285 | sets and returns the bio of that user only; an unknown user is a null read with nothing changed |
| UsersService.ChangeName | src/users/users.service.ts:287-290 | stores and returns the lower-cased name, without the name validators |
| UsersService.KeepFirstOccurrences | src/users/users.service.ts:275 | the `filter` pass keeps at most as many elements as it scans, all taken from the scanned part |
| UsersService.MergeAndRemoveDuplicateObjects | src/users/users.service.ts:273-277 | concatenates and filters: no more elements than both inputs, each from one of them (ids, order and first occurrences in the Merge lemmas) |
| UsersService.FindIndexOfId | src/users/users.service.ts:275 | `findIndex` by id: the first index carrying the id, if any |
| UsersService.KeptAreFirst | src/users/users.service.ts:275 | the filter keeps only first occurrences of their ids |
| UsersService.FirstsAreKept | src/users/users.service.ts:275 | the filter keeps every first occurrence |
| UsersService.KeptHaveDistinctIds | src/users/users.service.ts:275 | what the filter keeps has pairwise distinct ids |
| UsersService.KeptIsSubsequence | src/users/users.service.ts:275 | the filter keeps the order of the input |
| UsersService.MergeHasDistinctIds | src/users/users.service.ts:273-277 | the merged result has no two elements with the same id |
| UsersService.MergeIsSubsequence | src/users/users.service.ts:273-277 | the merged result is a subsequence of `arr1 ++ arr2` |
| UsersService.MergeKeepsFirstOccurrence | src/users/users.service.ts:273-277 | each kept element is the first element of `arr1 ++ arr2` with its id |
| UsersService.MergeKeepsEveryId | src/users/users.service.ts:273-277 | every id of either input is in the result, through its first element |
| UsersController.SentFriendRequest | src/users/users.controller.ts:32-42 | runs the self, exists, already-friends and pending checks in that order, then `addFriend`; the first failure is returned with no request added (an empty sender or email gets `addFriend`'s 400); a request is added exactly when all pass |
| UsersController.RemoveFromFriends | src/users/users.controller.ts:46-64 | unfriends before deleting the chat, so with no chat the lists are already pulled when it reports 400; on success the chat and its messages are gone |
| UsersController.AcceptFriend | src/users/users.controller.ts:94-111 | creates the chat `[sender, receiver]` only after acceptance succeeds; every failure is a 403 and creates no chat |
| UsersController.DeclineFriend | src/users/users.controller.ts:115-120 | removes the request from sender to receiver |
| UsersController.DeclineRequest | src/users/users.controller.ts:124-126 | passes the ids swapped, so it removes the request from receiver to sender |
| ChatService.CreateChat | src/chat/chat.service.ts:22-30 | always appends a fresh chat with exactly the given participants and no messages, even when the pair already has one |
| ChatService.MessageFor | src/chat/chat.service.ts:33-34 | the new message belongs to the route's chat id whatever the body says |
| ChatService.CreateNewMessage | src/chat/chat.service.ts:32-50 | fails on validation or an id clash with nothing stored; otherwise stores the message, then fails on an unknown sender with the message kept but unlinked; succeeds exactly when all pass, and then links the id to the chat (`LinkMessage`) |
| ChatService.GetAllUserChats | src/chat/chat.service.ts:52-55 | exactly the chats whose participants contain the user, in stored order |
| ChatService.GetAllChatMessage | src/chat/chat.service.ts:57-59 | exactly the messages of the chat, in stored order |
| ChatService.GetAllChatMessageAppend | src/chat/chat.service.ts:57-59 | storing a message appends it to the end of its own chat's listing and leaves other listings alone |
| ChatService.NoMessagesLeft | src/chat/chat.service.ts:80 | after the cascade delete the chat lists no message |
| ChatService.DeleteChat | src/chat/chat.service.ts:66-83 | rejects an empty id, fails when no chat holds both ids, otherwise removes the first such chat and exactly its messages |
| ChatService.GetChatByParticipants | src/chat/chat.service.ts:85-95 | returns the first chat containing both ids, and fails with "You must be friends…" exactly when none does |
| ChatController.DraftToCreate | src/chat/chat.controller.ts:77-91 | media types take the first file's name as content (no file is a read of undefined), text and geolocation pass unchanged, any other type creates nothing |
| ChatController.FileOrVoiceNeverValid | src/chat/chat.controller.ts:81-82 | the `file` and `voice` branches can never produce a valid message |
| ChatController.CreateMessage | src/chat/chat.controller.ts:71-102 | creates the chosen body in the route's chat with each outcome of `createNewMessage` (validation, id clash, unknown sender with the message kept), succeeding exactly when it does and then linking the message to the chat; another type returns nothing and changes nothing; every failure is a 400 |
| AuthService.ValidateUser | src/auth/auth.service.ts:25-31 | fails exactly when no user has the email, otherwise returns that user |
| AuthService.ValidateUserForGoogle | src/auth/auth.service.ts:33-38 | returns a known user unchanged, otherwise creates one with friends `[]` |
| AuthService.ForgotPassword | src/auth/auth.service.ts:89-118 | an unknown email fails with nothing changed; otherwise the token and now + 600000 are stamped, and both are cleared when the mail fails |
| AuthService.ResetPassword | src/auth/auth.service.ts:120-139 | checks a stored token, then the expiry (equal to now passes), then the passwords; the supplied token is never compared; success sets both passwords and clears the reset fields, so the reset cannot be repeated |
| AuthService.ResetWindow | src/auth/auth.service.ts:126-128 | a fresh stamp passes the checks exactly until ten minutes after it was made |
| RegistrationGuard.CanActivate | src/auth/guards/registration.guard.ts:15-23 | always throws: the validateUser error for an unknown email, the "exists" 401 for a known one; it only reads |
| Scenarios.SendTwice | src/users/users.controller.ts:32-42 | after a successful send, the same send is stopped by the pending-request check |
| Scenarios.SendThenAccept | src/users/users.controller.ts:94-111 | send then accept from a clean state: each id appears exactly once in the other's list, no request remains, one new chat `[A, B]` |
| Scenarios.FriendsAfterAccept | src/users/users.service.ts:166-188 | accepting between two users with empty lists leaves each with exactly the other |
| Scenarios.RequestGone | src/users/users.service.ts:203 | a request sent once is gone after the delete |
| Scenarios.DeleteThenLookup | src/chat/chat.service.ts:66-95 | when exactly one chat holds both ids, deleting it makes the lookup fail |
| Scenarios.GoogleTwice | src/auth/auth.service.ts:33-38 | a second Google sign-in with the same email returns the same user and creates nobody: the users are as before, plus the first call's user only when it was new |
| Scenarios.ResetTwice | src/auth/auth.service.ts:120-139 | a second reset after a successful one fails with "invalid or has expired" |
| Scenarios.ResetAfterMailFailure | src/auth/auth.service.ts:113-117 | after a failed recovery mail, a reset for that email fails |
| Scenarios.PostTwice | src/chat/chat.service.ts:32-59 | two posted messages are listed after what the chat held, in posting order |
| Scenarios.ListingGrows | src/chat/chat.service.ts:57-59 | two appended messages of the chat extend its listing by both, in order |
| Scenarios.SelfRequestThroughCase | src/users/users.service.ts:105-111 | a user typing their own address in another case sends a request to themselves |

## Left out

- JWT signing and verification, `parseJwt`, bcrypt, the reset-token generator: cryptography and decoding in libraries; tokens are opaque strings, and the email a token names is a parameter.
- The several messages `parseJwt` can throw are one `RuntimeError(MalformedToken)`.
- Pusher notifications: every `trigger` is assumed to succeed. An awaited trigger that throws would stop the writes after it, so these outcomes are not modelled:
  - src/users/users.service.ts:85: the request is never saved;
  - src/users/users.service.ts:198-203: the friends are pushed but the request is never deleted;
  - src/chat/chat.service.ts:37-38: the message is saved but not linked to its chat;
  - src/users/users.service.ts:249: remove answers 400 after the pulls, and the chat is not deleted;
  - src/chat/chat.service.ts:28: accept answers 403 with the chat already stored.
- Mail transport: only its success or failure matters, which is the `mailSent` parameter.
- Multer storage and file-name callbacks: uploaded file names are given strings.
- The regular-expression queries of `searchForUsers`: only its merge-dedupe helper is modelled.
- `findOneUserByEmail` and `findOneUserById` are thin wrappers of `findOne`; they are modelled as the lookups `Store.FindUserByEmail` and `Store.FindUserById` that the other members use.
- `login`, `getChatInfo` and `getAllUsersFiles`: they are not part of this model.
- Mongoose `populate`: chats list participant ids rather than user documents.
- Mongoose strict mode: `bio` is stored even though the schema does not declare it. The stored field names of a friend request follow the service (`senderId`, `receiverId`).
- `chat.messages` is declared as subdocuments; the model stores message ids, as the service pushes them.
- ObjectId casting: ids are strings throughout. `UsersService.CheckUserInFriends` compares `receiver._id` as if it were the stored string, so the ObjectId-against-string comparison in `friends.includes` is not modelled.
- `undefined` and the empty string are the same missing value. Mongoose's skipping of custom validators on `undefined`, and `findOne` dropping an `undefined` filter, are therefore not modelled.
- Lower-casing covers ASCII letters only.
- Error texts from libraries and the runtime are abbreviated:
  - `NullRead` and `UndefinedRead` leave out V8's "(reading '…')" suffix;
  - `MessageOf` gives "Validation failed" for Mongoose's "<Model> validation failed: <path>: <message>, …";
  - "E11000 duplicate key error" leaves out the collection and key.
  The failures themselves, and the texts the code writes, are exact.
- Concurrency: the un-awaited `save` in `forgotPassword` and `Promise.all`. Every operation runs sequentially.
- `loginBanExpires` and its `Date.now() - 1` default: no modelled operation reads it.
- `UserSchema.CreatePasswordResetToken` returns the updated user as a value instead of assigning `this`, since no modelled operation calls it. `AuthService.ForgotPassword` is proved to stamp the same fields.
- `validator.isEmail` is a parameter, and `isStrongPassword` has no effect (its result is discarded).
