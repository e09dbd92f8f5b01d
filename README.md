# Syncro Chat — a Dafny model of the chat core

Syncro Chat is a chat application. An Express/Prisma backend stores users, chats, participant rows and messages. A socket.io server relays realtime events to *rooms*, one per chat. A React client joins the general room (chat id 1), shows its messages and sends new ones.

This project models the core of both sides and proves properties of the model:

- **Store** (`persistence.dfy`): the Prisma database, modelled as a class.
  - Users have a unique username and email. There are chats, a set of `(chatId, userId)` participant rows, and messages in creation order.
  - Ids are fresh and creation times are monotone.
  - A store call either takes effect as a whole or throws and changes nothing. It throws when the caller injects a fault, or when it would break a unique or foreign-key constraint.
- **Services** (`chat_service.dfy`, `message_service.dfy`, `auth_service.dfy`, `google_service.dfy`): each is a guard chain over the store that returns `(status, message, data?)`.
  - A `Fault` parameter names the awaited call that throws, by its position in the function's text (0 = first). Every `catch` path is therefore reachable.
- **Realtime gateway** (`realtime.dfy`, `socket_handler.dfy`, `socket_utils.dfy`): the socket.io server as a class.
  - Connections carry the identity fixed at the handshake, and rooms are sets of connections.
  - The outbox records each emit with exactly the set of connections it went to.
  - The process-wide io handle is null until it is set.
- **Membership middleware** (`chat_middleware.dfy`): a pure decision from the request to 401 / 400 / 403 / 500 / next.
- **Start-up** (`startup.dfy`): ensures the general room exists, then creates the server and configures the socket handlers, then publishes the io handle. Each of these steps records itself on a ghost start-up trace, so the order is part of the contract.
- **Client** (`use_socket.dfy`, `chat_page.dfy`, `message_bubble.dfy`, `protected_route.dfy`):
  - the socket hook, with its per-event callback lists, dispatch and emit guards;
  - the chat page's state updates, render filter and input handlers;
  - the avatar initials;
  - the route guard.
- **JavaScript built-ins** (`js_text.dfy`): `trim`, `split`, `join`, `toUpperCase` and `parseInt`.

The general room (id 1) follows the rules exactly as the code writes them:

- Sending a message, listing messages and `join_chat` exempt it from the membership check.
- Reading a chat, reading one message and the middleware do not exempt it.

Foreign calls are function-typed parameters: `bcrypt.hash`/`compare`, `jwt.sign`/`verify` and `jwtDecode`. The store's failures and the clock are explicit state or parameters.

## Model

| member | source | states |
|---|---|---|
| Types.OrNull | backend/src/services/chat.service.ts:12 | `dto.name \|\| null`: a missing or empty name becomes null, any other is kept |
| Types.OrElse | backend/src/services/message.service.ts:29 | `x \|\| fallback` on optional text: the fallback exactly when the text is missing or empty |
| Types.Public | backend/src/services/auth.service.ts:43-47 | the user projection has the id, username and email of the row and nothing else |
| Types.JwtSecret | backend/src/services/auth.service.ts:9 | the secret is `JWT_SECRET` when set and non-empty, otherwise "holaMundo2025" |
| Persistence.UserById | backend/src/services/message.service.ts:33-40 | the lookup finds a row exactly when one has the id, and the row it returns has that id |
| Persistence.UserByEmail | backend/src/services/auth.service.ts:66-70 | the lookup finds a row exactly when one has the email, and the row it returns has that email |
| Persistence.MessagesOf | backend/src/services/message.service.ts:88-103 | the chat's messages: every one and only those with that chatId |
| Persistence.WithoutChat | backend/src/services/chat.service.ts:217-221 | after `deleteMany({ chatId })` exactly the messages of other chats remain |
| Persistence.MessageIndex | backend/src/services/message.service.ts:186-190 | returns a position holding the id, or None when no message has it |
| Persistence.Newest | backend/src/services/chat.service.ts:71-76 | `take: 1`: at most one message |
| Persistence.MessagesOfOrdered | backend/src/services/chat.service.ts:127-131 | in a table kept in creation order, one chat's messages come in ascending createdAt |
| Persistence.NewestIsLatest | backend/src/services/chat.service.ts:71-76 | the message attached is one of the chat's own messages, none of them is later, and it is missing only when the chat has no message |
| Persistence.MessagesOfAppend | backend/src/services/message.service.ts:26-41 | a new message extends exactly its own chat's list, at the end |
| Persistence.WithoutChatOrdered | backend/src/services/chat.service.ts:217-221 | bulk deletion keeps the remaining messages in creation order |
| Persistence.WithoutChatEffect | backend/src/services/chat.service.ts:217-221 | after the bulk deletion the chat has no message left and every other chat keeps exactly its list |
| Persistence.Store.FindMessage | backend/src/services/message.service.ts:132-145 | `findUnique({ id })`: a stored message with that id, or None when there is none |
| Persistence.Store.ParticipantsOf | backend/src/services/chat.service.ts:20-31 | the participant views of a chat: one for each of its rows whose user exists, and only for those rows |
| Persistence.Store.CreateUser | backend/src/services/auth.service.ts:37-48 | the insert succeeds iff nothing throws and username and email are free; the new row gets the next id and is appended; a failure changes nothing |
| Persistence.Store.CreateChat | backend/src/services/chat.service.ts:10-33 | the chat and one row per member are created iff nothing throws and every member is a user; otherwise nothing changes |
| Persistence.Store.CreateChatWithId | backend/src/index.ts:25-31 | the insert with an explicit id succeeds iff nothing throws and the id is free |
| Persistence.Store.UpdateChatName | backend/src/services/chat.service.ts:173-180 | succeeds iff the row exists and nothing throws; only the name changes |
| Persistence.Store.DeleteMessagesOfChat | backend/src/services/chat.service.ts:217-221 | the chat's messages are removed and nothing else changes |
| Persistence.Store.DeleteParticipantsOfChat | backend/src/services/chat.service.ts:224-228 | the chat's participant rows are removed and nothing else changes |
| Persistence.Store.DeleteChat | backend/src/services/chat.service.ts:231-235 | succeeds iff the chat exists and nothing references it; only the chat row goes |
| Persistence.Store.CreateParticipant | backend/src/services/chat.service.ts:282-296 | succeeds iff the row is new and nothing throws; exactly that row is added, with its user expanded |
| Persistence.Store.CreateMessage | backend/src/services/message.service.ts:26-41 | succeeds iff the chat and the sender exist; the row with the next id and the current time is appended |
| Persistence.Store.UpdateMessageContent | backend/src/services/message.service.ts:207-222 | succeeds iff the id exists; only that row's content changes |
| Persistence.Store.DeleteMessage | backend/src/services/message.service.ts:267-271 | succeeds iff the id exists; exactly that row is removed, the others keep their order |
| Realtime.Received | backend/src/sockets/socket.handler.ts:39-42 | the events one connection has been sent, in order, are at most the emits made |
| Realtime.ReceivedAfterEmit | backend/src/sockets/socket.handler.ts:113 | a connection receives a new emit exactly when it is one of that emit's targets |
| Realtime.ReceivedAfterEmits | backend/src/sockets/socket.handler.ts:70-77 | what a connection receives from a sequence of emits is what it receives from each part, in order |
| Realtime.Server.constructor | backend/src/index.ts:48-60 | a server with no connection, no room and no emit |
| Realtime.Server.Emit | backend/src/sockets/socket.handler.ts:60 | an emit appends one delivery with exactly its targets; connections and rooms are unchanged |
| Realtime.Server.Join | backend/src/sockets/socket.handler.ts:66 | `socket.join`: the connection is added to that room only |
| Realtime.Server.Leave | backend/src/sockets/socket.handler.ts:86 | `socket.leave`: the connection is removed from that room only |
| Realtime.Server.Register | backend/src/sockets/socket.handler.ts:26-28 | the connection is stored with the identity taken from the token |
| Realtime.Server.Drop | backend/src/sockets/socket.handler.ts:184-192 | a closed connection leaves the server and every room |
| Realtime.Server.ConfigureHandlers | backend/src/sockets/socket.handler.ts:15-194 | installing the handlers changes no connection, room or emit, and records the step on the start-up trace |
| Realtime.IoRegistry.constructor | backend/src/sockets/socket.handler.ts:197 | the handle starts null |
| Realtime.IoRegistry.SetIOInstance | backend/src/sockets/socket.handler.ts:199-201 | after `setIOInstance(io)` the handle is `io`; the step is recorded with whether `io`'s handlers were already installed |
| Realtime.StartTrace.constructor | backend/src/index.ts:41-44 | start-up begins with no step recorded |
| SocketUtils.Publish | backend/src/sockets/socket.utils.ts:4-9 | with no instance nothing happens; with one, exactly one delivery goes to exactly the chat's room |
| SocketUtils.EmitNewMessage | backend/src/sockets/socket.utils.ts:4-9 | `new_message` with the message, to the chat's room only |
| SocketUtils.EmitChatUpdated | backend/src/sockets/socket.utils.ts:12-17 | `chat_updated` with the chat, to the chat's room only |
| SocketUtils.EmitMessageUpdated | backend/src/sockets/socket.utils.ts:20-25 | `message_updated` with the message, to the chat's room only |
| SocketUtils.EmitMessageDeleted | backend/src/sockets/socket.utils.ts:28-33 | `message_deleted` with payload `{messageId, chatId}`, to the chat's room only |
| SocketUtils.EmitParticipantAdded | backend/src/sockets/socket.utils.ts:36-41 | `participant_added` with payload `{chatId, participant}`, to the chat's room only |
| ChatService.Members | backend/src/services/chat.service.ts:8 | `new Set([creatorId, ...ids])`: a user is a member iff it is the creator or listed |
| ChatService.OneToOneMembers | backend/src/services/chat.service.ts:8 | a creator and one other user give exactly two members |
| ChatService.CreatorListedOnce | backend/src/services/chat.service.ts:8 | listing the creator again adds no member |
| ChatService.CrearChat | backend/src/services/chat.service.ts:5-47 | 201 iff nothing throws and every member is a user; then the new chat has a row exactly for each member and its name is `name \|\| null`; otherwise 500 with the fixed message and nothing changes |
| ChatService.ObtenerChatsDelUsuario | backend/src/services/chat.service.ts:49-92 | exactly the chats with a participant row for the user, each with its participants and at most one message, the chat's latest; 500 on failure |
| ChatService.ObtenerChatPorId | backend/src/services/chat.service.ts:94-154 | 403 iff the user has no row, even in chat 1, checked before existence; 500 iff a store call throws; 200 iff neither lookup throws and the user has a row (a row implies the chat exists, so the 404 branch is only reached without one); on 200 the chat with its messages in ascending createdAt |
| ChatService.ActualizarChat | backend/src/services/chat.service.ts:156-197 | 403 for a non-member, with nothing updated or emitted; on 200 the name becomes `name \|\| null` and then `chat_updated` goes to that chat's room; a failed update emits nothing |
| ChatService.EliminarChat | backend/src/services/chat.service.ts:199-248 | 403 for a non-member and a failing membership lookup both leave the store unchanged; 200 iff all three deletions pass, leaving no message, no row and no chat; deletions run messages, then rows, then chat, and a failure keeps what was already deleted |
| ChatService.AgregarParticipante | backend/src/services/chat.service.ts:250-313 | 403 for a non-member; 400 when the target already has a row, with nothing changed; otherwise exactly that row is added, `participant_added` is emitted and 201 returned |
| MessageService.Flatten | backend/src/services/message.service.ts:44-51 | the flat shape: the same id, content, chatId and createdAt; `userId` is the sender; `username` is the sender's |
| MessageService.FlattenAll | backend/src/services/message.service.ts:106-113 | one flat message per row, in order |
| MessageService.FlattenAllAppend | backend/src/services/message.service.ts:106-113 | flattening a list with one more row adds that row's flat message at the end |
| MessageService.Listing | backend/src/services/message.service.ts:88-113 | the listing has one entry per message of the chat |
| MessageService.SentMessageListedLast | backend/src/services/message.service.ts:26-57 | a new message shows up last in its own chat's listing and leaves every other listing unchanged |
| MessageService.CrearMensaje | backend/src/services/message.service.ts:6-65 | 403 iff the chat is not 1 and the sender has no row; on 201 one message is stored with type `messageType \|\| "text"`, the flat shape is returned, and the chat's listing becomes the old one plus that entry; a failure changes nothing |
| MessageService.ObtenerMensajesDelChat | backend/src/services/message.service.ts:68-127 | the same chat-1 exemption; 200 with exactly the chat's messages, flattened, in strictly ascending createdAt |
| MessageService.ObtenerMensajePorId | backend/src/services/message.service.ts:130-181 | 404 iff the id is missing, before any membership check; 500 iff the message lookup or the membership lookup throws; then 403 for a non-participant with no chat-1 exemption; 200 with the message, its sender's id and username, and its chat |
| MessageService.ActualizarMensaje | backend/src/services/message.service.ts:184-239 | 404, then 403 for a non-sender, both with nothing changed or emitted; 500 iff the lookup or the update throws; on 200 only that message's content changes and `message_updated` goes to its chat's room |
| MessageService.EliminarMensaje | backend/src/services/message.service.ts:242-287 | 404/403 with nothing removed; 500 iff the lookup or the delete throws; on 200 exactly that message is gone and `message_deleted(messageId, chatId)` goes to its chat's room |
| MessageService.DeletedMessageGone | backend/src/services/message.service.ts:267-271 | ids are unique, so no lookup finds a deleted message |
| MessageService.EditedMessageFound | backend/src/services/message.service.ts:207-213 | after an edit the lookup by id finds the edited row |
| MessageService.EarliestIndex | backend/src/services/message.service.ts:186-190 | with distinct ids the lookup returns the one position carrying the id |
| JsText.TrimStart | frontend/syncro-chat-front/src/hooks/useSocket.ts:137 | the suffix after the leading white space, which starts with no white space |
| JsText.TrimEnd | frontend/syncro-chat-front/src/hooks/useSocket.ts:137 | the prefix before the trailing white space, which ends with no white space |
| JsText.Trim | frontend/syncro-chat-front/src/hooks/useSocket.ts:140 | trimming never lengthens the text |
| JsText.TrimIsSlice | frontend/syncro-chat-front/src/hooks/useSocket.ts:140 | the trimmed text is a slice of the input with only white space around it and none at its ends |
| JsText.TrimEmptyIffBlank | frontend/syncro-chat-front/src/pages/ChatPage.tsx:158 | `s.trim()` is falsy exactly when s is all white space |
| JsText.TrimIdempotent | frontend/syncro-chat-front/src/hooks/useSocket.ts:137-140 | trimming twice is trimming once |
| JsText.Split | frontend/syncro-chat-front/src/components/MessageBubble.tsx:8 | `split(" ")`: at least one piece, and no piece contains the separator |
| JsText.JoinSplit | backend/src/sockets/socket.handler.ts:19 | joining the pieces with the separator gives back the text |
| JsText.SplitWord | backend/src/sockets/socket.handler.ts:19 | a word followed by the separator splits off as its own first piece |
| JsText.SplitNoSeparator | backend/src/sockets/socket.handler.ts:19 | text without the separator is a single piece |
| JsText.UpperChar | frontend/syncro-chat-front/src/components/MessageBubble.tsx:12 | a-z map to A-Z; every other character stays |
| JsText.ToUpper | frontend/syncro-chat-front/src/components/MessageBubble.tsx:12 | the same length, upper-cased character by character |
| JsText.ToUpperHasNoLower | frontend/syncro-chat-front/src/components/MessageBubble.tsx:12 | upper-cased text has no a-z left |
| JsText.DigitValue | backend/src/middlewares/chat.middleware.ts:9 | a digit's value is below its radix |
| JsText.LeadingDigits | backend/src/middlewares/chat.middleware.ts:9 | the longest run of digits at the front |
| JsText.DecimalDigit | backend/src/middlewares/chat.middleware.ts:9 | the character written for a digit value below 10 reads back as that value |
| JsText.DecimalText | backend/src/middlewares/chat.middleware.ts:9 | the decimal text of n is all digits and denotes n |
| JsText.LeadingDigitsOfDigits | backend/src/middlewares/chat.middleware.ts:9 | the digit run stops exactly where the digits stop |
| JsText.ParseIntUnprefixed | backend/src/middlewares/chat.middleware.ts:9 | text starting with a decimal digit and no 0x prefix is read as its leading digits |
| JsText.ParseIntDecimal | backend/src/middlewares/chat.middleware.ts:9 | `parseInt` reads back the decimal text of a number, also with non-digit text after it |
| JsText.DecimalIsDigit | backend/src/middlewares/chat.middleware.ts:9 | a decimal digit is one of 0-9 |
| JsText.ParseIntNoDigits | backend/src/middlewares/chat.middleware.ts:9 | text that starts with no digit, sign or white space gives NaN |
| SocketHandler.ExtractToken | backend/src/sockets/socket.handler.ts:19 | `auth.token` when truthy; otherwise the second word of the authorization header, present iff the header has at least two words; nothing without either |
| SocketHandler.BearerHeader | backend/src/sockets/socket.handler.ts:19 | `Bearer <t>` yields t when `auth.token` is missing or empty |
| SocketHandler.OneWordHeader | backend/src/sockets/socket.handler.ts:19 | a header without a space carries no token |
| SocketHandler.Authenticate | backend/src/sockets/socket.handler.ts:17-33 | "token no encontrado" iff no token; accepted iff the token verifies, with the payload's id and username; "token invalido" otherwise |
| SocketHandler.Connect | backend/src/sockets/socket.handler.ts:35-42 | a rejected handshake changes nothing; an accepted one registers the connection and sends `user_connected` to every other connection, not to the new one |
| SocketHandler.JoinChat | backend/src/sockets/socket.handler.ts:45-82 | not signed in: nothing; for a chat other than 1, a throwing lookup sends `error` "error al unirse al chat" and a missing row sends `error` "no tienes acceso a este chat", to the sender only, with rooms unchanged; allowed (chat 1, or a row): join, then `user_joined` to the others in the room, then `joined_chat` to the sender only |
| SocketHandler.LeaveChat | backend/src/sockets/socket.handler.ts:85-95 | the connection leaves the room unconditionally, so a second call leaves the room as it was; `user_left` goes to the remaining members |
| SocketHandler.SendMessage | backend/src/sockets/socket.handler.ts:98-121 | 201 iff the message service would accept it (chat 1 or a member, chat exists, sender known, no throw); on 201 exactly one message from the socket's user, with type defaulting to "text", is appended and `new_message` with its flat shape goes to the chat's room, so the sender receives it only if it is in the room; otherwise `error` with the service message to the sender only and the store unchanged; users, chats and rows never change |
| SocketHandler.Typing | backend/src/sockets/socket.handler.ts:124-131 | `user_typing` to the room members other than the sender; no check, nothing stored |
| SocketHandler.MarkAsRead | backend/src/sockets/socket.handler.ts:134-145 | `message_read` to the room members other than the sender; nothing stored |
| SocketHandler.GetMessages | backend/src/sockets/socket.handler.ts:148-163 | the sender alone gets `messages_loaded` with the chat's listing on 200, otherwise `error` with the service message |
| SocketHandler.GetChatInfo | backend/src/sockets/socket.handler.ts:166-181 | 200 iff neither lookup throws and the user has a row, exactly as `obtenerChatPorId`; then the sender alone gets `chat_info` with the chat, its participants and its messages; otherwise `error` with the service's message (the 403 text for a non-participant, even in chat 1, and the 500 text on a throw) |
| SocketHandler.Disconnect | backend/src/sockets/socket.handler.ts:184-192 | the connection leaves every room and the server and every room keeps its other members; `user_disconnected` goes to every other connection |
| ChatMiddleware.ChatIdOf | backend/src/middlewares/chat.middleware.ts:8-9 | the route parameter when truthy, parsed with `parseInt`; otherwise the body's value; null when both are missing |
| ChatMiddleware.RouteParamNamesChat | backend/src/middlewares/chat.middleware.ts:8-9 | a route parameter holding the decimal text of a positive id names that chat |
| ChatMiddleware.VerificarMiembroDelChat | backend/src/middlewares/chat.middleware.ts:5-48 | 401 iff no user; else 400 iff chatId is missing, 0 or NaN; else 500 iff the lookup throws; else `next()` iff a row exists, and 403 iff it does not |
| ChatMiddleware.GeneralRoomNotExempt | backend/src/middlewares/chat.middleware.ts:26-38 | chat 1 without a row is refused with 403 like any other chat |
| AuthService.Registro | backend/src/services/auth.service.ts:11-63 | 400 iff the username or the email is taken, creating nothing; 201 stores `hash(password, salt)`, not the text, and returns only `{id, username, email}`; 500 on any failure, changing nothing |
| AuthService.StoredHashText | backend/src/services/auth.service.ts:79 | `String(user.password)`: the hash, or "null" for an account without one |
| AuthService.Login | backend/src/services/auth.service.ts:65-106 | 404 iff the email is unknown; 401 iff the email is known and the password does not match the stored hash; otherwise `{id, username, email}` and a token signed over that payload for 3600 s; a throwing lookup or compare rejects |
| AuthService.UserByEmailAppend | backend/src/services/auth.service.ts:66-70 | a new email appended is found by the lookup |
| AuthService.UserByEmailUnique | backend/src/services/auth.service.ts:66-70 | with unique emails the lookup returns the one row with the email |
| AuthService.RegisteredUserCanLogIn | backend/src/services/auth.service.ts:33-48 | after registering, the same email and password log in with the new user's session |
| AuthService.GoogleAccountRejectsPasswords | backend/src/services/auth.service.ts:79-85 | an account without a password logs in only if "null" compares equal to the password |
| GoogleService.GenerarTokenGoogle | backend/src/services/google.service.ts:99-118 | only `{id, username, email}`, plus a token signed over that payload for 3600 s; the same session as a password login |
| GoogleService.GoogleLogin | backend/src/services/google.service.ts:10-40 | an existing email returns that user with nothing written; otherwise the user is created with `password = null`; no participant row is ever added; any failure throws the fixed error |
| GoogleService.GoogleLoginFromToken | backend/src/services/google.service.ts:43-96 | an existing user: nothing written; a missing token, a failing lookup or a refused insert: nothing written and the fixed error; a new user is created without a password and enrolled in chat 1 iff chat 1 exists and the enrolment does not throw; a failed enrolment is swallowed; a failing room lookup throws after the user was added |
| Startup.WithGeneralChat | backend/src/index.ts:19-32 | an existing chat 1 is kept as it is; otherwise chat 1 "General", a group chat, is added and nothing else changes |
| Startup.WithGeneralChatIdempotent | backend/src/index.ts:17-39 | ensuring twice is ensuring once |
| Startup.EnsureGeneralChatExists | backend/src/index.ts:17-39 | without a failure the chats become `WithGeneralChat(chats)`; with chat 1 present the store is unchanged; errors are swallowed; the step is recorded with whether chat 1 then exists |
| Startup.Start | backend/src/index.ts:41-96 | the start-up trace, which each step appends to itself, grows by exactly: room ensured, handlers installed, handle published with the handlers already installed; the room exists iff it existed or its creation did not fail; the new server has no connection, room or emit |
| UseSocket.ChannelOf | frontend/syncro-chat-front/src/hooks/useSocket.ts:88-110 | every listened event has its callback list; the others have none |
| UseSocket.Without | frontend/syncro-chat-front/src/hooks/useSocket.ts:179 | the filter removes every entry equal to the callback and keeps all the others |
| UseSocket.WithoutAppend | frontend/syncro-chat-front/src/hooks/useSocket.ts:177-179 | filtering keeps the order: a pushed callback is filtered like the rest |
| UseSocket.WithoutAbsent | frontend/syncro-chat-front/src/hooks/useSocket.ts:179 | removing a callback that is not registered changes nothing |
| UseSocket.SubscribeThenUnsubscribe | frontend/syncro-chat-front/src/hooks/useSocket.ts:176-181 | subscribing a new callback and then unsubscribing it gives back the original list |
| UseSocket.Invocations | frontend/syncro-chat-front/src/hooks/useSocket.ts:89 | one call per registered callback |
| UseSocket.UnsubscribedNotCalled | frontend/syncro-chat-front/src/hooks/useSocket.ts:176-181 | after subscribe and unsubscribe an event calls exactly the callbacks it called before, never the removed one |
| UseSocket.SocketClient.constructor | frontend/syncro-chat-front/src/hooks/useSocket.ts:35-55 | no socket; empty callback lists; zero attempts |
| UseSocket.SocketClient.Mount | frontend/syncro-chat-front/src/hooks/useSocket.ts:57-69 | an empty token creates no socket and changes nothing; otherwise a socket not yet connected, opened with the token |
| UseSocket.SocketClient.Cleanup | frontend/syncro-chat-front/src/hooks/useSocket.ts:112-116 | the socket is disconnected |
| UseSocket.SocketClient.OnConnect | frontend/syncro-chat-front/src/hooks/useSocket.ts:71-75 | connected, and the attempt counter reset to 0 |
| UseSocket.SocketClient.OnConnectError | frontend/syncro-chat-front/src/hooks/useSocket.ts:77-80 | the attempt counter goes up by one |
| UseSocket.SocketClient.OnDisconnect | frontend/syncro-chat-front/src/hooks/useSocket.ts:82-85 | `isConnected` becomes false |
| UseSocket.SocketClient.EmitIfConnected | frontend/syncro-chat-front/src/hooks/useSocket.ts:121 | one emit when connected, none otherwise |
| UseSocket.SocketClient.JoinChat | frontend/syncro-chat-front/src/hooks/useSocket.ts:120-125 | `join_chat` only when connected |
| UseSocket.SocketClient.LeaveChat | frontend/syncro-chat-front/src/hooks/useSocket.ts:128-133 | `leave_chat` only when connected |
| UseSocket.SocketClient.SendMessage | frontend/syncro-chat-front/src/hooks/useSocket.ts:136-145 | an emit iff connected and the trimmed content is non-empty, carrying the trimmed content and type "text" |
| UseSocket.SocketClient.SetTyping | frontend/syncro-chat-front/src/hooks/useSocket.ts:148-155 | `typing` only when connected |
| UseSocket.SocketClient.GetMessages | frontend/syncro-chat-front/src/hooks/useSocket.ts:158-163 | `get_messages` only when connected |
| UseSocket.SocketClient.MarkAsRead | frontend/syncro-chat-front/src/hooks/useSocket.ts:166-173 | `mark_as_read` only when connected |
| UseSocket.SocketClient.Subscribe | frontend/syncro-chat-front/src/hooks/useSocket.ts:176-221 | the callback goes at the end of that event's list; the other lists are unchanged |
| UseSocket.SocketClient.Unsubscribe | frontend/syncro-chat-front/src/hooks/useSocket.ts:178-180 | every entry equal to the callback leaves that list; the other lists are unchanged |
| UseSocket.SocketClient.OnPresence | frontend/syncro-chat-front/src/hooks/useSocket.ts:224-235 | a presence callback is registered only when a socket exists |
| UseSocket.SocketClient.Receive | frontend/syncro-chat-front/src/hooks/useSocket.ts:88-110 | every registered callback of the event is called with the payload, in registration order; unlistened events call nothing |
| ChatPage.CurrentUserId | frontend/syncro-chat-front/src/pages/ChatPage.tsx:29 | the stored user's id, or 0 when there is no user |
| ChatPage.Visible | frontend/syncro-chat-front/src/pages/ChatPage.tsx:190-195 | exactly the messages whose id, username, content and createdAt are all truthy |
| ChatPage.VisibleAppend | frontend/syncro-chat-front/src/pages/ChatPage.tsx:190-195 | the filter goes message by message, keeping list order |
| ChatPage.VisibleIdempotent | frontend/syncro-chat-front/src/pages/ChatPage.tsx:192-195 | filtering twice is filtering once |
| ChatPage.NewMessageShownLast | frontend/syncro-chat-front/src/pages/ChatPage.tsx:80-83 | an arriving message is drawn last iff it passes the guard; the earlier ones stay as they were |
| ChatPage.TypingAfter | frontend/syncro-chat-front/src/pages/ChatPage.tsx:99-108 | `isTyping` sets or overwrites that user's entry, and false deletes it; the other entries are unchanged |
| ChatPage.TypingLastWins | frontend/syncro-chat-front/src/pages/ChatPage.tsx:99-108 | of two notices from one user the later decides |
| ChatPage.TypingCommutes | frontend/syncro-chat-front/src/pages/ChatPage.tsx:99-108 | notices from different users commute |
| ChatPage.ChatView.constructor | frontend/syncro-chat-front/src/pages/ChatPage.tsx:31-35 | no messages, empty input, not typing, no typists, loading |
| ChatPage.ChatView.OnNewMessage | frontend/syncro-chat-front/src/pages/ChatPage.tsx:80-83 | appends the message at the end; the drawn list gains it last iff it passes the guard |
| ChatPage.ChatView.OnMessagesLoaded | frontend/syncro-chat-front/src/pages/ChatPage.tsx:89-93 | replaces the whole list and ends loading |
| ChatPage.ChatView.OnUserTyping | frontend/syncro-chat-front/src/pages/ChatPage.tsx:99-108 | the typing map after `TypingAfter` |
| ChatPage.ChatView.ConnectEffect | frontend/syncro-chat-front/src/pages/ChatPage.tsx:65-70 | once connected: `join_chat(1)` then `get_messages(1)` |
| ChatPage.ChatView.ConnectCleanup | frontend/syncro-chat-front/src/pages/ChatPage.tsx:71-75 | `leave_chat(1)` |
| ChatPage.ChatView.HandleInputChange | frontend/syncro-chat-front/src/pages/ChatPage.tsx:135-142 | the input takes the new text; `typing true` goes out only on the transition from not typing |
| ChatPage.ChatView.HandleSubmit | frontend/syncro-chat-front/src/pages/ChatPage.tsx:156-164 | a blank input does nothing; otherwise the trimmed message is sent, then `typing false`, and the input is cleared |
| MessageBubble.FirstChars | frontend/syncro-chat-front/src/components/MessageBubble.tsx:9-10 | at most one character per word |
| MessageBubble.WordStarts | frontend/syncro-chat-front/src/components/MessageBubble.tsx:8-10 | the word-start characters: never a space, at most one per character |
| MessageBubble.FirstCharsAreWordStarts | frontend/syncro-chat-front/src/components/MessageBubble.tsx:8-10 | split, first characters and join give exactly the characters that start a word; empty words add nothing |
| MessageBubble.TakeTwo | frontend/syncro-chat-front/src/components/MessageBubble.tsx:11 | `slice(0, 2)`: the first two characters, or fewer |
| MessageBubble.GetInitials | frontend/syncro-chat-front/src/components/MessageBubble.tsx:5-13 | "??" for a non-string or an empty name; otherwise the first two word starts, upper-cased: at most two characters and no space |
| MessageBubble.WordStartsOfWord | frontend/syncro-chat-front/src/components/MessageBubble.tsx:8-10 | a word followed by a space contributes only its first character |
| MessageBubble.WordStartsInside | frontend/syncro-chat-front/src/components/MessageBubble.tsx:8-10 | inside a word nothing is a word start until the next space |
| MessageBubble.FirstTwoWords | frontend/syncro-chat-front/src/components/MessageBubble.tsx:8-12 | a name of two or more words gives the upper-cased first characters of the first two |
| MessageBubble.WordStartsPrefix | frontend/syncro-chat-front/src/components/MessageBubble.tsx:8-10 | a text not starting with a space begins with a word start |
| MessageBubble.OneWord | frontend/syncro-chat-front/src/components/MessageBubble.tsx:8-12 | a one-word name gives its upper-cased first character alone |
| MessageBubble.WordStartsNone | frontend/syncro-chat-front/src/components/MessageBubble.tsx:8-10 | the rest of a word has no word start |
| MessageBubble.OnlySpaces | frontend/syncro-chat-front/src/components/MessageBubble.tsx:6-12 | a name made only of spaces passes the "??" guard and gets empty initials |
| MessageBubble.AllSpacesNoStarts | frontend/syncro-chat-front/src/components/MessageBubble.tsx:8-10 | spaces start no word |
| ProtectedRoute.LoadingFlag | frontend/syncro-chat-front/src/components/ProtectedRoute.tsx:10 | `isLoading` defaults to false |
| ProtectedRoute.Guard | frontend/syncro-chat-front/src/components/ProtectedRoute.tsx:10-27 | loading iff `isLoading`, whatever the user; otherwise a redirect to "/" with replace iff there is no user; otherwise the element itself |

## Left out

- Prisma query semantics: the nested `include`/`select` shapes are represented by projection datatypes. Chat lists are maps keyed by chat id, not arrays in database order. Cascades are not modelled: a chat row cannot be deleted while rows reference it.
- Persistence.Store.CreateChatWithId: inserting an explicit id is assumed to move the id sequence past it, so later chats never collide with chat 1. A real PostgreSQL sequence would not move.
- Message order: messages are kept in insertion order with strictly increasing times, so ties in `createdAt` do not occur and sorting by time is the insertion order.
- Store and library failures: any awaited call may throw, and the `Fault` parameter says which one. Errors' texts, `console.log` output and the caught error objects are not modelled.
- Numbers: ids are unbounded integers, and `parseInt` is modelled on decimal and `0x` text. Floating-point values, `Infinity` and non-integer body values are not modelled.
- JsText.ToUpper: upper-cases a-z only, because Unicode case mapping is not modelled. MessageBubble.GetInitials inherits this choice. JavaScript strings are modelled as sequences of code points, not UTF-16 units, so `word[0]` of a word that starts with a surrogate pair is not modelled.
- SocketHandler.Disconnect: the connection is assumed to leave every room before the handler runs. socket.io does this itself, not the modelled code.
- The outer `catch` blocks of `send_message`, `get_messages`, `get_chat_info` and `mark_as_read`: nothing in their modelled bodies can throw, because every service catches its own errors and returns a result. Their messages are therefore not modelled. The `catch` of `join_chat` is reachable, because its lookup can throw, and it is modelled.
- Concurrency and async interleaving: every handler and service is one atomic step. Two requests racing on the same data are not modelled.
- Transport: socket.io's reconnection timing and its limit of 5 attempts are enforced by the library. The hook only counts attempts, and the model keeps the constant. CORS and HTTP are not modelled.
- Foreign calls: `bcrypt.genSalt` is a `salt` parameter; `bcrypt.hash`/`compare`, `jwt.sign`/`verify` and `jwtDecode` are function parameters. Their properties are assumptions of the lemmas that need them (`RegisteredUserCanLogIn`, `GoogleAccountRejectsPasswords`).
- `googleLogin`'s `profile.emails[0].value` on a profile without emails throws, and is modelled as the fixed Google error. A missing `displayName` is not modelled (the name is text).
- Client callbacks are identities. The client model records which callback is called with which payload. What each ChatPage callback then does is modelled separately, as the `ChatView` methods.
- The ChatPage typing timeout (1000 ms), scrolling, JSX rendering, toasts and the "is typing" label: these are timers and rendering, not state logic.
- MessageBubble's time formatting (`toLocaleTimeString`, `Date` parsing): it depends on the locale and the clock.
- The controllers, `auth.middleware.ts`, routes, passport configuration, Express start-up (`listen`, CORS) and the other pages: these are wiring or browser I/O.
- ProtectedRoute's loading and redirect views are constructors of `View`; their markup is not modelled.
