# Chat back-end core, modelled in Dafny

This project models the server side of a real-time chat application built on NestJS, Prisma and
socket.io. It covers:

- registration and login;
- users and profiles;
- contacts, with blocking;
- friend requests;
- one-to-one chats and messages;
- 24-hour statuses, with viewers and privacy rules;
- voice and video calls;
- notification and privacy settings, and login sessions;
- media records;
- the two socket gateways, which keep a user-to-socket registry and push events to connected
  users;
- the validation of the environment configuration at start-up.

The modules follow the services one to one:

| module | role |
|---|---|
| `Store` | the database tables, as map fields of one object |
| `Common` | errors, `Option`, `Result` |
| `Query` | ordered `findMany` selections |
| `Sockets` | clients, event delivery, fan-out |
| `AuthService`, `UserService`, `ProfileService`, `SettingsService`, `ContactService`, `FriendRequestService`, `ChatService`, `MessageService`, `StatusService`, `CallService`, `MediaService` | one service each |
| `ChatGateway.ChatGateway`, `CallGateway.CallGateway` | the two socket gateways |
| `CallController` | the call REST controller, which pairs each call operation with its socket event |
| `EnvConfig` | start-up configuration |

Each service operation appears twice:

- as a pure step function from the old tables to a result and the new tables;
- as a method on the `Store` that reassigns exactly the tables it `modifies`, and ensures that the
  new state is what the step function computes.

The lemmas state what the services promise across calls, in terms of the step functions. Examples:

- a request is processed once;
- blocking then unblocking restores the contacts;
- a status is visible for one day;
- every fan-out reaches each connected target exactly once;
- the Cloudinary public id is the part of the URL before the extension.

Some inputs are parameters of the model rather than effects:

| in the running system | in the model |
|---|---|
| fresh row ids | parameters, required to be unused |
| clock readings | a `now` parameter |
| bcrypt hashing | a `hash` function parameter |
| JWT verification | a `verifyToken` function parameter |
| the outcome of the Cloudinary destroy call | a parameter; the delete step returns the destroy request it would issue |

Socket emissions are appended to an `outbox` sequence on the gateway object.

Several behaviours of the code as written are easy to miss when reading it. The model keeps them,
and a lemma or a contract makes each one explicit:

- `endCall` and `rejectCall` check who the caller is, but not the call's status
  (`src/modules/call/call.service.ts:132-138` and `:175-181`). An ended or rejected call can be
  ended or rejected again (`CallService.TerminalStatusIsOverwritten`). `answerCall`, by contrast,
  does check the status (`:87-93`; `CallService.AnsweredOnlyOnce`).
- `createMessage` refuses a sender who is not a participant of the chat
  (`src/modules/message/message.service.ts:14-25`). The socket handler `message:send` stores the
  message without that check (`src/modules/chat/gateway/chat.gateway.ts:197-256`;
  `ChatGateway.SocketPathSkipsParticipantCheck`).
- `checkStatusPrivacy` has branches for no privacy row, `ALL`, `CONTACTS` and `EXCEPT`, and none
  for the `ONLY` type, so that type admits every viewer
  (`src/modules/status/status.service.ts:355-401`; `StatusService.OnlyAdmitsEveryone`). The
  `onlyUserIds` list is accepted (`src/modules/status/dto/update-status-privacy.dto.ts:21-24`) and
  stored (`src/modules/status/status.service.ts:306`, `:311`), but never read.
- `removeContact` deletes both contact rows but not the accepted friend request
  (`src/modules/contact/contact.service.ts:94-119`). `sendRequest` refuses while an accepted
  request joins the two users (`src/modules/friend-request/friend-request.service.ts:44-66`). So
  after a removal neither side can send a new request
  (`FriendRequestService.RemovedFriendCannotBeAskedAgain`).
- `updateUsername` refuses any username some user holds, the caller's own included
  (`src/modules/user/user.service.ts:99-113`; `UserService.KeepingOwnUsernameIsRefused`).
- Disconnecting deletes the user's registry entry whatever socket it names, even one opened after
  the closing socket (`src/modules/chat/gateway/chat.gateway.ts:155-158`,
  `src/modules/call/gateway/call.gateway.ts:116-119`). See the contracts of
  `ChatGateway.ChatGateway.HandleDisconnect` and `CallGateway.CallGateway.HandleDisconnect`.
- The `user:online` and `user:offline` fan-outs go to the owner of every contact row that names
  the user, blocked rows included (`src/modules/chat/gateway/chat.gateway.ts:132-145` and
  `:165-179`; `ChatGateway.ChatGateway.ContactOwners`).
- `message:read` is emitted to every connected socket, not only to the chat's participants
  (`src/modules/chat/gateway/chat.gateway.ts:315`; `ChatGateway.ChatGateway.HandleMessageRead`).
- `getContactsStatuses` lists the statuses of unblocked contacts without consulting their privacy
  rows (`src/modules/status/status.service.ts:82-119`; `StatusService.GetContactsStatuses`).
- `markAsViewed` checks neither the status's expiry nor its privacy
  (`src/modules/status/status.service.ts:193-243`; `StatusService.MarkViewed`).
- At the instant a status expires, `getStatusById` still returns it, because it refuses only
  `expiresAt < now` (`:182`). The listings omit it, because they require `expiresAt > now`
  (`:96`, `:125`). See `StatusService.GetStatusById` and `StatusService.GetMyStatuses`.
- The URL pattern treats one `v<digits>/` segment right after `/upload/` as an optional version
  and skips it. A public id that itself starts with such a segment therefore loses it
  (`src/modules/media/media.service.ts:23`; `MediaService.VersionedUrlRoundTrip`).

## Model

| member | source | states |
|---|---|---|
| EnvConfig.Missing | src/config/env.config.ts:5-15 | a name is reported missing exactly when it is one of the listed names and is unset or empty in the environment |
| EnvConfig.MissingKeepsOrder | src/config/env.config.ts:13-15 | the missing names appear in the order of the required list, without repetition when that list has none |
| EnvConfig.NothingMissingIff | src/config/env.config.ts:13-21 | no required variable is missing exactly when all five are set to non-empty values |
| EnvConfig.Load | src/config/env.config.ts:3-48 | start-up fails with the list of missing names when any is missing; otherwise it fails exactly when the secret is shorter than 32 characters; on success the five required values are copied and the four optional ones take their defaults when absent |
| EnvConfig.Defaults | src/config/env.config.ts:28-47 | with every required variable set and no optional one, the configuration is development mode on port 8000, the local front-end origin and a 7d token lifetime |
| EnvConfig.DefaultPort | src/config/env.config.ts:30 | the default port text parses to 8000 |
| EnvConfig.MissingListedInOrder | src/config/env.config.ts:13-21 | with only the secret set, the error names the other four variables in declaration order, comma-separated |
| EnvConfig.OnlySecretSet | src/config/env.config.ts:5-15 | with only the secret set, exactly the other four names are missing, in order |
| EnvConfig.NothingMissing | src/config/env.config.ts:13-15 | when every listed name is set and non-empty, nothing is missing |
| EnvConfig.MissingAllUnset | src/config/env.config.ts:13-15 | when no listed name is set, every name is missing |
| EnvConfig.TrimStart | src/config/env.config.ts:30 | integer parsing drops leading white space and keeps the rest unchanged |
| EnvConfig.DigitPrefix | src/config/env.config.ts:30 | parsing reads the longest run of decimal digits |
| EnvConfig.ParseInt | src/config/env.config.ts:30 | parsing fails (NaN) exactly when no digit follows the optional white space and sign |
| EnvConfig.Decimal | src/config/env.config.ts:30 | the decimal text of a number is a non-empty run of digits |
| EnvConfig.DecimalValue | src/config/env.config.ts:30 | reading the decimal text of n gives back n |
| EnvConfig.ParseIntRoundTrip | src/config/env.config.ts:30 | parsing the decimal text of n, followed by anything that is not a digit, gives n |
| EnvConfig.DigitPrefixOf | src/config/env.config.ts:30 | the digit run of digits followed by a non-digit is exactly those digits |
| Query.InsertBy | src/modules/contact/contact.service.ts:12-40 | inserting a row key into an ordered result keeps it ordered by the sort column and adds exactly that key |
| Query.HeadIsLeast | src/modules/contact/contact.service.ts:12-40 | the first key of an ordered result has the least sort value |
| Query.SelectOrdered | src/modules/contact/contact.service.ts:12-40 | a filtered, ordered `findMany`: exactly the rows that satisfy the filter, each once, in order of the sort column |
| Query.Select | src/modules/user/user.service.ts:8-32 | a filtered `findMany`: exactly the rows that satisfy the filter, each once |
| Sockets.Client.constructor | src/modules/chat/gateway/chat.gateway.ts:74-81 | a new connection carries its socket id and handshake token and no user yet |
| Sockets.Authenticate | src/modules/chat/gateway/chat.gateway.ts:74-120 | a connection is accepted exactly when it has a non-empty token that verifies to an existing user; every refusal is an authorisation error |
| Sockets.Deliver | src/modules/chat/gateway/chat.gateway.ts:325-331 | an event for a user is emitted once, to that user's registered socket, and not at all when the user has no socket |
| Sockets.Fanout | src/modules/chat/gateway/chat.gateway.ts:267-272 | a fan-out emits only the given event and at most one emission per target |
| Sockets.FanoutTargets | src/modules/chat/gateway/chat.gateway.ts:137-145 | every emission of a fan-out goes to the socket of a listed, connected user |
| Sockets.FanoutExactlyOnce | src/modules/chat/gateway/chat.gateway.ts:267-272 | with distinct targets and one socket per user, a connected user receives the event exactly once if listed, otherwise never |
| Sockets.DistinctInit | src/modules/chat/gateway/chat.gateway.ts:267-272 | a list of distinct targets stays distinct without its last element, and that element is not among the others |
| AuthService.Register | src/modules/auth/auth.service.ts:24-62 | registration succeeds exactly when the email is unused and the username, if given, is free; on success one row is added, holding the hash of the password; a taken email is refused; email and username uniqueness are preserved |
| AuthService.RegisterUser | src/modules/auth/auth.service.ts:24-62 | the store's users table becomes what registration computes |
| AuthService.Login | src/modules/auth/auth.service.ts:64-90 | login succeeds only for a user with that email whose stored hash matches the password, and returns that user without the password; when emails are unique it succeeds exactly then; every failure is the same "Invalid credentials" error |
| AuthService.SecondRegistrationRefused | src/modules/auth/auth.service.ts:24-31 | once an email has registered, a second registration with it is refused and changes nothing |
| AuthService.StoredPasswordIsTheHash | src/modules/auth/auth.service.ts:33-40 | the plain password is not what is stored |
| AuthService.RegisterThenLogin | src/modules/auth/auth.service.ts:24-90 | right after registering, logging in with the same email and password returns the new user |
| UserService.SetOnline | src/modules/user/user.service.ts:80-88 | only the user's presence changes; going offline stamps the last-seen time, going online clears it; a missing user is an error |
| UserService.StampLastSeen | src/modules/user/user.service.ts:90-97 | only the user's last-seen time changes; a missing user is an error |
| UserService.Rename | src/modules/user/user.service.ts:107-134 | a username already held by anyone is refused; otherwise only that user's username changes; unique usernames stay unique |
| UserService.GetAllUsers | src/modules/user/user.service.ts:8-32 | every user except the caller, each once |
| UserService.SearchUser | src/modules/user/user.service.ts:56-78 | the result is a user whose username or id equals the query, and is empty exactly when no user matches |
| UserService.UpdateOnlineStatus | src/modules/user/user.service.ts:80-88 | the users table becomes what the presence update computes |
| UserService.UpdateLastSeen | src/modules/user/user.service.ts:90-97 | the users table becomes what the last-seen update computes |
| UserService.IsUsernameAvailable | src/modules/user/user.service.ts:99-105 | a username is available exactly when no user holds it |
| UserService.UpdateUsername | src/modules/user/user.service.ts:107-134 | the users table becomes what the rename computes |
| UserService.KeepingOwnUsernameIsRefused | src/modules/user/user.service.ts:99-113 | renaming a user to their own current username is refused as taken |
| UserService.RenamedUserIsFoundByName | src/modules/user/user.service.ts:56-134 | after a successful rename, the new name is taken and a search for it finds only that user, or the user whose id equals the name |
| UserService.OfflineThenOnline | src/modules/user/user.service.ts:80-88 | going offline and then online leaves the user online with no last-seen time |
| ProfileService.GetProfile | src/modules/profile/profile.service.ts:16-40 | the profile of an existing user is its row under its id with the password left out and every other column kept; a missing user is "User not found" |
| ProfileService.ApplyProfile | src/modules/profile/profile.service.ts:42-69 | fields present in the update replace the stored ones; all others, and the email, password and username, are unchanged |
| ProfileService.ChangePasswordStep | src/modules/profile/profile.service.ts:71-97 | a missing user and a wrong current password are refused without change; otherwise the stored hash becomes the hash of the new password, which then matches |
| ProfileService.ApplyPrivacy | src/modules/profile/profile.service.ts:99-122 | the privacy flags given replace the stored ones; the notification settings are unchanged |
| ProfileService.UpdateProfile | src/modules/profile/profile.service.ts:42-69 | an existing user's row becomes the applied update and is returned without the password; a missing user fails and nothing changes |
| ProfileService.ChangePassword | src/modules/profile/profile.service.ts:71-97 | the users table becomes what the password change computes |
| ProfileService.UpdatePrivacy | src/modules/profile/profile.service.ts:99-122 | the user's settings row, created with defaults if absent, gets the privacy update |
| ProfileService.ProfileHidesPassword | src/modules/profile/profile.service.ts:16-40 | the profile does not depend on the stored password |
| ProfileService.OldPasswordStopsMatching | src/modules/profile/profile.service.ts:71-97 | after a change, the old password no longer matches and cannot be used to change it again |
| ProfileService.PrivacyAndNotificationsAreIndependent | src/modules/profile/profile.service.ts:99-122 | privacy and notification updates commute |
| SettingsService.GetOrCreate | src/modules/settings/settings.service.ts:9-21 | an existing settings row is returned unchanged; a missing one is created with the defaults and returned |
| SettingsService.ApplyNotifications | src/modules/settings/settings.service.ts:23-51 | the notification fields given replace the stored ones; the privacy flags are unchanged |
| SettingsService.Revoke | src/modules/settings/settings.service.ts:66-81 | a session is revoked only by its owner, which marks it inactive; otherwise "Session not found" and nothing changes |
| SettingsService.GetSettings | src/modules/settings/settings.service.ts:9-21 | the settings table becomes what get-or-create computes |
| SettingsService.UpdateNotificationSettings | src/modules/settings/settings.service.ts:23-51 | the user's settings row, created with defaults if absent, gets the notification update |
| SettingsService.GetActiveSessions | src/modules/settings/settings.service.ts:53-64 | exactly the user's active, unexpired sessions, each once, most recently active first |
| SettingsService.RevokeSession | src/modules/settings/settings.service.ts:66-81 | the sessions table becomes what revocation computes |
| SettingsService.GetOrCreateIdempotent | src/modules/settings/settings.service.ts:9-21 | a second get-or-create returns the same row and changes nothing |
| SettingsService.GetOrCreateTouchesOnlyItsUser | src/modules/settings/settings.service.ts:9-21 | get-or-create leaves every other user's settings as they were |
| SettingsService.RevokedSessionIsInactive | src/modules/settings/settings.service.ts:66-81 | a revoked session is inactive, and revoking it again succeeds without change |
| ContactService.IsBlocked | src/modules/contact/contact.service.ts:193-204 | two users are blocked exactly when a contact row between them, in either direction, is marked blocked |
| ContactService.Block | src/modules/contact/contact.service.ts:42-68 | blocking oneself is refused; a missing row is not found; blocking succeeds exactly on an unblocked row, and then only that row changes, to blocked |
| ContactService.Unblock | src/modules/contact/contact.service.ts:70-92 | unblocking succeeds exactly on a blocked row, and then only that row changes, to unblocked |
| ContactService.Remove | src/modules/contact/contact.service.ts:94-119 | removal succeeds exactly when the caller's row exists, and then deletes both directions and nothing else |
| ContactService.SetNickname | src/modules/contact/contact.service.ts:151-191 | renaming succeeds exactly on an existing row, and then only that row's nickname changes |
| ContactService.BlockContact | src/modules/contact/contact.service.ts:42-68 | the contacts table becomes what blocking computes |
| ContactService.UnblockContact | src/modules/contact/contact.service.ts:70-92 | the contacts table becomes what unblocking computes |
| ContactService.RemoveContact | src/modules/contact/contact.service.ts:94-119 | the contacts table becomes what removal computes |
| ContactService.UpdateNickname | src/modules/contact/contact.service.ts:151-191 | the contacts table becomes what the nickname update computes |
| ContactService.GetContacts | src/modules/contact/contact.service.ts:12-40 | exactly the caller's unblocked contact rows, each once, newest first |
| ContactService.GetBlockedContacts | src/modules/contact/contact.service.ts:121-149 | exactly the caller's blocked contact rows, each once, newest first |
| ContactService.IsBlockedSymmetric | src/modules/contact/contact.service.ts:193-204 | being blocked does not depend on the order of the two users |
| ContactService.ListingsPartition | src/modules/contact/contact.service.ts:12-149 | each of a user's rows is in exactly one of the contact and blocked listings |
| ContactService.BlockIsDirected | src/modules/contact/contact.service.ts:42-68 | blocking changes only the blocker's row, yet the pair counts as blocked from both sides |
| ContactService.BlockThenUnblockRestores | src/modules/contact/contact.service.ts:42-92 | unblocking right after blocking succeeds and restores the contacts exactly |
| ContactService.BlockTwiceRefused | src/modules/contact/contact.service.ts:56-58 | a second block of the same contact is refused as already blocked and changes nothing |
| FriendRequestService.Accept | src/modules/friend-request/friend-request.service.ts:115-191 | only the receiver can accept, and only a pending request between two users who are not yet contacts; acceptance marks it accepted and adds the two contact rows, unblocked, changing no existing row; otherwise nothing changes |
| FriendRequestService.Reject | src/modules/friend-request/friend-request.service.ts:193-255 | only the receiver can reject, and only a pending request; only that request changes, to rejected |
| FriendRequestService.Cancel | src/modules/friend-request/friend-request.service.ts:257-279 | only the sender can cancel, and only a pending request; the request is deleted and nothing else changes |
| FriendRequestService.SendRequest | src/modules/friend-request/friend-request.service.ts:18-113 | requests to oneself or to a missing user are refused; otherwise a request is created exactly when the users are not contacts and no pending or accepted request joins them (each a conflict error otherwise); the receiver is notified |
| FriendRequestService.AcceptRequest | src/modules/friend-request/friend-request.service.ts:115-191 | the tables become what acceptance computes, and the sender is notified on success only |
| FriendRequestService.RejectRequest | src/modules/friend-request/friend-request.service.ts:193-255 | the requests table becomes what rejection computes, and the sender is notified on success only |
| FriendRequestService.CancelRequest | src/modules/friend-request/friend-request.service.ts:257-279 | the requests table becomes what cancelling computes |
| FriendRequestService.GetPendingRequests | src/modules/friend-request/friend-request.service.ts:281-309 | exactly the pending requests the user received, each once, newest first |
| FriendRequestService.GetSentRequests | src/modules/friend-request/friend-request.service.ts:311-339 | exactly the pending requests the user sent, each once, newest first |
| FriendRequestService.CheckFriendStatus | src/modules/friend-request/friend-request.service.ts:341-385 | friends exactly when a contact row links them; a request may be sent exactly when the send rules allow it; otherwise the active request between them, and its status, are reported |
| FriendRequestService.AcceptMakesFriends | src/modules/friend-request/friend-request.service.ts:115-191 | after acceptance the two users are linked, unblocked, and no new request between them is possible |
| FriendRequestService.ProcessedOnce | src/modules/friend-request/friend-request.service.ts:115-279 | an accepted or rejected request cannot be accepted, rejected or cancelled again, by anyone |
| FriendRequestService.RemovedFriendCannotBeAskedAgain | src/modules/friend-request/friend-request.service.ts:18-113 | after acceptance and then removal of the contact, neither side may send a new request |
| ChatService.CreateChatCheck | src/modules/chat/chat.service.ts:14-52 | a chat with oneself is refused, a missing participant is not found, and otherwise the participant must be an unblocked contact of the caller (forbidden otherwise) |
| ChatService.NewChat | src/modules/chat/chat.service.ts:90-96 | a new chat is a direct chat of exactly the two users, created by the caller |
| ChatService.GetChatById | src/modules/chat/chat.service.ts:168-205 | a chat is returned exactly to its participants, and is otherwise "Chat not found" |
| ChatService.Delete | src/modules/chat/chat.service.ts:207-226 | only a participant can delete a chat; only that chat is removed |
| ChatService.CreateChat | src/modules/chat/chat.service.ts:14-122 | a refused check changes nothing; an existing direct chat of the two users is returned unchanged; otherwise one new direct chat is added under the fresh id |
| ChatService.GetUserChats | src/modules/chat/chat.service.ts:124-166 | exactly the chats the user takes part in, each once, most recently updated first |
| ChatService.DeleteChat | src/modules/chat/chat.service.ts:207-226 | the chats table becomes what deletion computes |
| ChatService.CreateChatTwice | src/modules/chat/chat.service.ts:14-122 | creating the same chat twice adds at most one chat, and both calls return it |
| MessageService.Create | src/modules/message/message.service.ts:13-51 | only a participant can post; the new message is unread, has the given content and a type defaulting to text, and the chat's update time becomes the post time |
| MessageService.Delete | src/modules/message/message.service.ts:84-102 | a missing message is not found, another user's message is forbidden, and only the sender's own message is removed |
| MessageService.MarkRead | src/modules/message/message.service.ts:104-134 | a participant of the message's chat marks it read; only that message changes |
| MessageService.CreateMessage | src/modules/message/message.service.ts:13-51 | the chats and messages tables become what posting computes |
| MessageService.GetChatMessages | src/modules/message/message.service.ts:53-82 | a participant gets exactly the chat's messages, each once, oldest first; anyone else gets "Chat not found" |
| MessageService.DeleteMessage | src/modules/message/message.service.ts:84-102 | the messages table becomes what deletion computes |
| MessageService.MarkAsRead | src/modules/message/message.service.ts:104-134 | the messages table becomes what marking read computes |
| MessageService.MarkAsReadIdempotent | src/modules/message/message.service.ts:104-134 | marking a message read twice has the effect and result of doing it once |
| MessageService.OnlySenderDeletes | src/modules/message/message.service.ts:84-102 | a new message can be deleted by its sender and by no one else |
| MessageService.CreatedMessageIsInItsChat | src/modules/message/message.service.ts:13-51 | a posted message is stored in the chat it names, and the poster is a participant of it |
| StatusService.NewStatus | src/modules/status/status.service.ts:45-80 | a new status belongs to its author, has no views, expires one day after creation, and has a black background unless one is given |
| StatusService.PrivacyAllows | src/modules/status/status.service.ts:355-401 | without a privacy row only the owner's contacts see a status; ALL admits everyone, CONTACTS the owner's contacts, EXCEPT everyone not excluded, and ONLY everyone |
| StatusService.GetStatusById | src/modules/status/status.service.ts:149-191 | a status is returned exactly when it exists, has not expired, and the caller owns it or its privacy admits them; missing or expired is not found, otherwise forbidden |
| StatusService.MarkViewed | src/modules/status/status.service.ts:193-243 | viewing one's own status is forbidden; a first view is recorded and increments the count by one; a repeated view returns the earlier record and changes nothing |
| StatusService.MarkViewedKeepsCounts | src/modules/status/status.service.ts:193-243 | each status's view count stays equal to the number of its recorded viewers |
| StatusService.ViewersAfterInsert | src/modules/status/status.service.ts:219-240 | recording a view adds exactly that viewer to that status's viewers and to no other status's |
| StatusService.SetPrivacy | src/modules/status/status.service.ts:281-330 | only the owner can set a status's privacy, which replaces its privacy row (missing lists become empty) and leaves the other rows unchanged |
| StatusService.Delete | src/modules/status/status.service.ts:332-353 | only the owner can delete a status; only that status is removed |
| StatusService.DeleteExpired | src/modules/status/status.service.ts:404-412 | exactly the statuses that expired before now are removed |
| StatusService.CreateStatus | src/modules/status/status.service.ts:45-80 | the new status is added under the fresh id, and view counts still match the recorded views |
| StatusService.MarkAsViewed | src/modules/status/status.service.ts:193-243 | the statuses and views tables become what viewing computes |
| StatusService.GetStatusViews | src/modules/status/status.service.ts:245-279 | only the owner gets the views of a status: all of them, each once, most recent first |
| StatusService.UpdatePrivacy | src/modules/status/status.service.ts:281-330 | the privacy table becomes what setting privacy computes |
| StatusService.DeleteStatus | src/modules/status/status.service.ts:332-353 | the statuses table becomes what deletion computes |
| StatusService.DeleteExpiredStatuses | src/modules/status/status.service.ts:404-412 | the statuses table loses exactly its expired statuses |
| StatusService.GetContactsStatuses | src/modules/status/status.service.ts:82-119 | exactly the unexpired statuses of the user's unblocked contacts, each once, newest first |
| StatusService.GetMyStatuses | src/modules/status/status.service.ts:121-147 | exactly the user's own unexpired statuses, each once, newest first |
| StatusService.MarkAsViewedIdempotent | src/modules/status/status.service.ts:193-243 | viewing a status twice has the effect and result of viewing it once |
| StatusService.ExpiryAgreement | src/modules/status/status.service.ts:149-191 | the owner can fetch a status exactly when the expiry clean-up would keep it |
| StatusService.FreshStatusLivesOneDay | src/modules/status/status.service.ts:45-80 | the author can fetch a new status until exactly one day after it was created |
| StatusService.BlockHidesContactsStatus | src/modules/status/status.service.ts:355-401 | once the owner blocks a viewer, a contacts-only status is hidden from that viewer |
| StatusService.OnlyAdmitsEveryone | src/modules/status/status.service.ts:376-401 | the ONLY privacy admits even a viewer who is not on its list |
| CallService.Initiate | src/modules/call/call.service.ts:15-71 | a call can be placed only to a non-blocked contact who has not blocked the caller; it starts ringing, with no start, end or duration |
| CallService.Answer | src/modules/call/call.service.ts:73-125 | only the receiver can answer, and only a call that is initiated or ringing; answering sets the start time; well-formed calls stay well-formed |
| CallService.End | src/modules/call/call.service.ts:127-168 | either party can end a call, whatever its status; ending sets the end time and the duration (zero if not given) |
| CallService.Reject | src/modules/call/call.service.ts:170-210 | only the receiver can reject a call, whatever its status; rejection sets the end time |
| CallService.DeleteLog | src/modules/call/call.service.ts:244-262 | either party can delete a call log; only that call is removed |
| CallService.InitiateCall | src/modules/call/call.service.ts:15-71 | the calls table becomes what placing a call computes |
| CallService.AnswerCall | src/modules/call/call.service.ts:73-125 | the calls table becomes what answering computes |
| CallService.EndCall | src/modules/call/call.service.ts:127-168 | the calls table becomes what ending computes |
| CallService.RejectCall | src/modules/call/call.service.ts:170-210 | the calls table becomes what rejection computes |
| CallService.GetCallHistory | src/modules/call/call.service.ts:212-242 | at most 100 of the user's calls, each once, newest first; a call is left out only when 100 newer or equal ones are listed |
| CallService.DeleteCallLog | src/modules/call/call.service.ts:244-262 | the calls table becomes what log deletion computes |
| CallService.AnsweredOnlyOnce | src/modules/call/call.service.ts:73-125 | an answered call cannot be answered again |
| CallService.TerminalStatusIsOverwritten | src/modules/call/call.service.ts:127-210 | an ended or rejected call can still be rejected or ended again |
| CallService.VideoCallScenario | src/modules/call/call.service.ts:15-168 | between mutual contacts, a video call can be placed, answered and ended, and the final row records both times and the duration |
| CallGateway.MarkOffline | src/modules/call/gateway/call.gateway.ts:116-130 | only the user's online flag changes, to offline |
| CallGateway.CallGateway.constructor | src/modules/call/gateway/call.gateway.ts:50-56 | a new gateway has no registered sockets and has emitted nothing |
| CallGateway.CallGateway.HandleConnection | src/modules/call/gateway/call.gateway.ts:57-113 | an authenticated connection binds the user to the socket; a refused one receives the error event and is disconnected, with no other change; one socket per user is kept |
| CallGateway.CallGateway.HandleDisconnect | src/modules/call/gateway/call.gateway.ts:116-130 | a bound user's registry entry is removed and the user goes offline; an unbound socket changes nothing |
| CallGateway.CallGateway.EmitIncomingCall | src/modules/call/gateway/call.gateway.ts:132-146 | the incoming-call event goes to the receiver's socket only |
| CallGateway.CallGateway.EmitCallAnswered | src/modules/call/gateway/call.gateway.ts:148-157 | the answered event goes to the caller's socket only |
| CallGateway.CallGateway.EmitCallRejected | src/modules/call/gateway/call.gateway.ts:159-168 | the rejected event goes to the caller's socket only |
| CallGateway.CallGateway.EmitCallEnded | src/modules/call/gateway/call.gateway.ts:170-179 | the ended event goes to the given user's socket only |
| CallGateway.CallGateway.HandleSignal | src/modules/call/gateway/call.gateway.ts:182-255 | a WebRTC offer, answer or ICE candidate is relayed unchanged, under its own event name, to the addressed user's socket only |
| CallController.OtherParty | src/modules/call/call.controller.ts:82-83 | the other party of a call is a party of it, and differs from the actor when caller and receiver differ |
| CallController.InitiateCall | src/modules/call/call.controller.ts:34-52 | placing a call changes the calls table as the service does and, on success only, notifies the receiver |
| CallController.AnswerCall | src/modules/call/call.controller.ts:55-71 | answering changes the calls table as the service does and, on success only, notifies the caller |
| CallController.EndCall | src/modules/call/call.controller.ts:74-93 | ending changes the calls table as the service does and, on success only, notifies the other party |
| CallController.RejectCall | src/modules/call/call.controller.ts:96-112 | rejection changes the calls table as the service does and, on success only, notifies the caller |
| CallController.DeleteCallLog | src/modules/call/call.controller.ts:126-136 | log deletion changes the calls table as the service does and emits nothing |
| CallController.EndNotifiesTheOtherParty | src/modules/call/call.controller.ts:74-93 | the end notification goes to the party who did not end the call |
| ChatGateway.SetPresence | src/modules/chat/gateway/chat.gateway.ts:125-128 | only the user's online flag and last-seen time change |
| ChatGateway.NewMessage | src/modules/chat/gateway/chat.gateway.ts:197-205 | a socket message is unread, from the sender, with the given content, a type defaulting to text, the given image and reply when non-empty and null otherwise, and a creation time equal to the current time |
| ChatGateway.ChatGateway.constructor | src/modules/chat/gateway/chat.gateway.ts:65-71 | a new gateway has no registered sockets and has emitted nothing |
| ChatGateway.ChatGateway.EmitToEach | src/modules/chat/gateway/chat.gateway.ts:267-272 | the emissions are the fan-out of the event to the listed users, in order |
| ChatGateway.ChatGateway.ContactOwners | src/modules/chat/gateway/chat.gateway.ts:132-135 | exactly the users whose contact list holds the given user, each once |
| ChatGateway.ChatGateway.HandleConnection | src/modules/chat/gateway/chat.gateway.ts:72-153 | an authenticated connection binds the user to the socket, marks them online, and tells every user who has them as a contact; a refused one receives the error event and is disconnected, with no other change; one socket per user is kept |
| ChatGateway.ChatGateway.HandleDisconnect | src/modules/chat/gateway/chat.gateway.ts:155-183 | a bound user's registry entry is removed, they go offline with the last-seen time, and the users who have them as a contact are told; an unbound socket changes nothing |
| ChatGateway.ChatGateway.HandleMessage | src/modules/chat/gateway/chat.gateway.ts:186-282 | when the store accepts the message, it is stored, the chat's update time is bumped, and every connected participant receives it; otherwise an error and no change |
| ChatGateway.ChatGateway.HandleMessageRead | src/modules/chat/gateway/chat.gateway.ts:305-323 | an existing message becomes read and the read event is broadcast; a missing one is an error with no change |
| ChatGateway.ChatGateway.EmitFriendRequestReceived | src/modules/chat/gateway/chat.gateway.ts:325-331 | the event goes to the receiver's socket only |
| ChatGateway.ChatGateway.EmitFriendRequestAccepted | src/modules/chat/gateway/chat.gateway.ts:333-341 | the event goes to the sender's socket only |
| ChatGateway.ChatGateway.EmitFriendRequestRejected | src/modules/chat/gateway/chat.gateway.ts:343-351 | the event goes to the sender's socket only |
| ChatGateway.SocketPathSkipsParticipantCheck | src/modules/chat/gateway/chat.gateway.ts:186-261 | a user outside a chat can post to it over the socket, although the REST path refuses the same post as "Chat not found" |
| MediaService.LastDotBefore | src/modules/media/media.service.ts:23 | the position of the last dot before a bound, or none when there is no dot before it |
| MediaService.LastDot | src/modules/media/media.service.ts:23 | the position of the last dot of the text, after which no dot follows, or none when there is no dot |
| MediaService.DigitRun | src/modules/media/media.service.ts:23 | the end of the run of digits starting at a position |
| MediaService.VersionLength | src/modules/media/media.service.ts:23 | a version prefix is either absent or `v`, digits and a slash |
| MediaService.NameBeforeExtension | src/modules/media/media.service.ts:23 | the captured name is the non-empty text before the last dot, which must be followed by at least one character, and holds no line terminator |
| MediaService.MatchFrom | src/modules/media/media.service.ts:23 | a match from a position is a non-empty name with no line terminator |
| MediaService.PublicIdFromUrl | src/modules/media/media.service.ts:20-29 | an extracted public id is non-empty and holds no line terminator |
| MediaService.LastDotIs | src/modules/media/media.service.ts:23 | a dot with no dot after it is the last dot |
| MediaService.SkipTo | src/modules/media/media.service.ts:23 | positions without an upload marker can be skipped when searching for the leftmost match |
| MediaService.NameThenExtension | src/modules/media/media.service.ts:23 | the name before the extension of `id.ext` is `id` |
| MediaService.DigitRunReaches | src/modules/media/media.service.ts:23 | a run of digits ends at the first non-digit |
| MediaService.VersionPrefix | src/modules/media/media.service.ts:23 | `v<digits>/` is recognised as a version prefix and skipped |
| MediaService.NoVersionWithoutV | src/modules/media/media.service.ts:23 | text not starting with `v` has no version prefix |
| MediaService.FirstUpload | src/modules/media/media.service.ts:23 | the first upload marker that can start a match decides the public id |
| MediaService.VersionedUrlRoundTrip | src/modules/media/media.service.ts:20-29 | the public id of `…/upload/v<digits>/id.ext` is `id` |
| MediaService.UnversionedUrlRoundTrip | src/modules/media/media.service.ts:20-29 | the public id of `…/upload/id.ext` is `id` |
| MediaService.NoSlashUHasNoUpload | src/modules/media/media.service.ts:23 | a base without `/u`, not ending in a slash, holds no upload marker before the appended one |
| MediaService.UploadStartsWithSlashU | src/modules/media/media.service.ts:23 | an upload marker starts with `/u` |
| MediaService.NoUploadNoId | src/modules/media/media.service.ts:20-29 | a URL without an upload marker has no public id |
| MediaService.NoDotNoId | src/modules/media/media.service.ts:20-29 | a URL without a dot has no public id |
| MediaService.LastDotOfSuffix | src/modules/media/media.service.ts:23 | the last dot of a suffix is the last dot of the whole text |
| MediaService.CaptureInSuffix | src/modules/media/media.service.ts:23 | a name captured in a suffix ends at the last dot of the whole URL |
| MediaService.HitSound | src/modules/media/media.service.ts:23 | a match after an upload marker is the text just before the URL's last dot, which has at least one character after it |
| MediaService.MatchSound | src/modules/media/media.service.ts:23 | a match from a position follows an upload marker and ends at the URL's last dot |
| MediaService.PublicIdIsBeforeTheExtension | src/modules/media/media.service.ts:20-29 | an extracted public id follows an upload marker and is the text just before the URL's final extension |
| MediaService.ResourceType | src/modules/media/media.service.ts:86-88 | the resource type is video exactly for a MIME type starting with `video/`, and image otherwise |
| MediaService.GetMediaById | src/modules/media/media.service.ts:52-62 | a media row is returned when it exists, and is otherwise "Media not found" |
| MediaService.Delete | src/modules/media/media.service.ts:65-105 | a missing row is not found and another user's row is forbidden, without change; the owner's row is deleted, and a destroy request with the public id and resource type is issued exactly when an id can be extracted |
| MediaService.UploadMedia | src/modules/media/media.service.ts:32-49 | the new row holds the upload's fields under the fresh id, and can then be fetched |
| MediaService.DeleteMedia | src/modules/media/media.service.ts:65-105 | the media table becomes what deletion computes, whatever the outcome of the destroy call |
| MediaService.GetUserMedia | src/modules/media/media.service.ts:108-115 | exactly the user's media, each once, newest first |
| MediaService.DeletedMediaIsGone | src/modules/media/media.service.ts:65-105 | deleted media cannot be fetched, and deleting it again is not found |
| MediaService.OnlyOwnerDeletes | src/modules/media/media.service.ts:73-79 | the media table changes only when the owner deletes an existing row |

## Left out

- Typing indicators (`typing:start` and `typing:stop`, `src/modules/chat/gateway/chat.gateway.ts:285-302`) are not modelled: they only relay an event and change no state.
- JWT signing and verification, and bcrypt hashing and salting, are not modelled. Token verification and hashing are function parameters. `generateToken` and `getUserById` are not modelled, since they only read or sign.
- The services run asynchronously and may interleave. The model runs each operation on its own, from start to finish.
- Prisma relations, projections (`select`/`include`) and cascading deletes are not modelled. Rows carry only the columns the rules read or write.
- The database schema is not part of the source set, yet the services rely on it. The model assumes the following schema facts and states them in its types and constants:
  - contact rows are unique per `(userId, contactId)` (the `ContactKey` map key); accepting a request between users who already have a row fails in the store;
  - status views are unique per `(statusId, viewerId)` (the `ViewKey` map key);
  - settings rows are unique per user, emails are unique (`AuthService.UniqueEmails`) and usernames are unique (`UserService.UniqueUsernames`);
  - creation defaults: a new status has a view count of 0, a new message is unread, a new chat is not a group, and every new row's `createdAt` is the current time.
- The default values of a new settings row (`Store.DEFAULT_SETTINGS`) and of a new user's presence columns (`AuthService.NEW_USER_ONLINE`, `AuthService.NEW_USER_LAST_SEEN`) are schema defaults. Their values are left unspecified.
- Failures raised by the store or by the JavaScript runtime (a missing row, a broken constraint, a property read on null) are one `Common.STORE_FAILURE` error. Their texts come from outside the services and are not modelled.
- Cloudinary upload and destroy I/O are not modelled. The destroy outcome is a parameter, and deletion goes ahead whatever it is.
- The TURN service, `main.ts`, the application module, and the REST controllers other than the call controller are not modelled; they are wiring.
- Logging and the server-side `Logger` are not modelled.
- Fresh ids and clock readings are parameters, not generated.
- Time is modelled as integer milliseconds. The day of a status is a fixed 86 400 000 ms, and daylight-saving changes are not modelled.
- `parseInt` of the port: the round-trip lemma covers non-negative values only, and the model ignores numeric precision above 2^53 and `-0`.
- The secret length is counted in characters of the modelled string. JavaScript counts UTF-16 code units.
- The seed script is not part of this model.
- MediaService.UnversionedUrlRoundTrip: requires that the id does not start with `v`. This is stronger than needed: an id like `v1x` does not form a version prefix either. The versioned case is covered by MediaService.VersionedUrlRoundTrip.
