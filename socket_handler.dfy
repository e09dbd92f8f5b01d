// The socket gateway: the handshake middleware that authenticates each
// connection with its JWT, and the per-connection event handlers. Each
// handler is one method on the server state; the ones that reach the store
// delegate to the services and relay the outcome to the caller.

module SocketHandler {
  import opened Types
  import opened Persistence
  import opened Realtime
  import opened JsText
  import ChatService
  import MessageService

  /** The token of a handshake: `auth.token`, or else the second word of the
      `authorization` header. */
  function ExtractToken(authToken: Option<string>, authorization: Option<string>): (r: Option<string>)
    ensures TruthyText(authToken) ==> r == authToken
    ensures !TruthyText(authToken) && authorization.None? ==> r.None?
    ensures r.Some? && !TruthyText(authToken) ==>
              authorization.Some? && r.value in Split(authorization.value, ' ')
    // no `auth.token`: a header of two or more words yields its second word
    ensures !TruthyText(authToken) && authorization.Some? ==>
              && (r.Some? <==> |Split(authorization.value, ' ')| >= 2)
              && (r.Some? ==> r.value == Split(authorization.value, ' ')[1])
  {
    if TruthyText(authToken) then authToken
    else if authorization.None? then None
    else
      var words := Split(authorization.value, ' ');
      if |words| < 2 then None else Some(words[1])
  }

  /** `Authorization: Bearer <t>` yields `t` when no token is in `auth`. */
  lemma BearerHeader(t: string)
    requires ' ' !in t
    ensures ExtractToken(None, Some("Bearer " + t)) == Some(t)
    ensures ExtractToken(Some(""), Some("Bearer " + t)) == Some(t)
  {
    assert "Bearer " + t == "Bearer" + [' '] + t;
    SplitWord("Bearer", ' ', t);
    SplitNoSeparator(t, ' ');
  }

  /** A header with no space in it carries no token. */
  lemma OneWordHeader(h: string)
    requires ' ' !in h
    ensures ExtractToken(None, Some(h)).None?
  {
    SplitNoSeparator(h, ' ');
  }

  datatype Handshake = Accepted(id: Identity) | Rejected(reason: string)

  /** The `io.use` middleware. `verify(token, secret)` stands for
      `jwt.verify`: the payload, or None when it throws. */
  function Authenticate(authToken: Option<string>, authorization: Option<string>, secretEnv: Option<string>,
                        verify: (string, string) -> Option<TokenPayload>): (h: Handshake)
    ensures h.Rejected? ==> h.reason == "token no encontrado" || h.reason == "token invalido"
    ensures h == Rejected("token no encontrado") <==> !TruthyText(ExtractToken(authToken, authorization))
    ensures h.Accepted? <==>
              && TruthyText(ExtractToken(authToken, authorization))
              && verify(ExtractToken(authToken, authorization).value, JwtSecret(secretEnv)).Some?
    ensures h.Accepted? ==>
              var p := verify(ExtractToken(authToken, authorization).value, JwtSecret(secretEnv)).value;
              h.id == Identity(p.id, p.username)
  {
    var token := ExtractToken(authToken, authorization);
    if !TruthyText(token) then Rejected("token no encontrado")
    else match verify(token.value, JwtSecret(secretEnv))
      case None => Rejected("token invalido")
      case Some(p) => Accepted(Identity(p.id, p.username))
  }

  /** `if (!socket.userId) return;`: a zero id counts as not signed in. */
  predicate SignedIn(id: Identity)
  {
    id.userId != 0
  }

  /** A new connection: the handshake, then `user_connected` to every other
      connection. A rejected handshake leaves the server untouched. */
  method Connect(io: Server, c: ConnId, authToken: Option<string>, authorization: Option<string>,
                 secretEnv: Option<string>, verify: (string, string) -> Option<TokenPayload>)
    returns (h: Handshake)
    requires io.Valid() && c !in io.sockets
    modifies io
    ensures io.Valid()
    ensures h == Authenticate(authToken, authorization, secretEnv, verify)
    ensures h.Rejected? ==> unchanged(io)
    ensures h.Accepted? ==>
              && io.sockets == old(io.sockets)[c := h.id]
              && io.rooms == old(io.rooms)
              && io.outbox == old(io.outbox) + [Delivery(old(io.sockets).Keys, UserConnected(h.id.username, h.id.userId))]
  {
    h := Authenticate(authToken, authorization, secretEnv, verify);
    if h.Accepted? {
      io.Register(c, h.id);
      assert io.Others(c) == old(io.sockets).Keys;
      io.Emit(io.Others(c), UserConnected(h.id.username, h.id.userId));
    }
  }

  /** `join_chat`: store call 0 is the membership lookup, skipped for the
      general room. On success the caller joins the room, the rest of the
      room hears `user_joined`, then the caller gets `joined_chat`. */
  method JoinChat(io: Server, st: Store, c: ConnId, chatId: int, fail: Fault)
    requires io.Valid() && st.Valid() && c in io.sockets
    modifies io
    ensures io.Valid()
    ensures io.sockets == old(io.sockets)
    ensures !SignedIn(io.sockets[c]) ==> unchanged(io)
    ensures SignedIn(io.sockets[c]) && chatId != GeneralChatId && Throws(fail, 0) ==>
              io.rooms == old(io.rooms) && io.outbox == old(io.outbox) + [Delivery({c}, Error("error al unirse al chat"))]
    ensures SignedIn(io.sockets[c]) && (chatId == GeneralChatId || !Throws(fail, 0)) && !st.OpenTo(chatId, io.sockets[c].userId) ==>
              io.rooms == old(io.rooms) && io.outbox == old(io.outbox) + [Delivery({c}, Error("no tienes acceso a este chat"))]
    ensures SignedIn(io.sockets[c]) && (chatId == GeneralChatId || !Throws(fail, 0)) && st.OpenTo(chatId, io.sockets[c].userId) ==>
              var id := io.sockets[c];
              && io.rooms == old(io.rooms)[chatId := old(io.Room(chatId)) + {c}]
              && io.outbox == old(io.outbox) + [Delivery(old(io.Room(chatId)) - {c}, UserJoined(id.userId, id.username, chatId)),
                                                Delivery({c}, JoinedChat(chatId))]
  {
    var id := io.sockets[c];
    if !SignedIn(id) {
      return;
    }
    if chatId != GeneralChatId {
      if Throws(fail, 0) {
        io.Emit({c}, Error("error al unirse al chat"));
        return;
      }
      if !st.IsParticipant(chatId, id.userId) {
        io.Emit({c}, Error("no tienes acceso a este chat"));
        return;
      }
    }
    io.Join(c, chatId);
    assert io.Room(chatId) - {c} == old(io.Room(chatId)) - {c};
    io.Emit(io.Room(chatId) - {c}, UserJoined(id.userId, id.username, chatId));
    io.Emit({c}, JoinedChat(chatId));
  }

  /** `leave_chat`: no sign-in check; the rest of the room hears `user_left`. */
  method LeaveChat(io: Server, c: ConnId, chatId: int)
    requires io.Valid() && c in io.sockets
    modifies io
    ensures io.Valid()
    ensures io.sockets == old(io.sockets)
    ensures io.rooms == old(io.rooms)[chatId := old(io.Room(chatId)) - {c}]
    // unconditional, hence idempotent: leaving a room one is not in keeps
    // its membership as it was
    ensures c !in io.Room(chatId)
    ensures c !in old(io.Room(chatId)) ==> io.Room(chatId) == old(io.Room(chatId))
    ensures io.outbox == old(io.outbox) +
              [Delivery(old(io.Room(chatId)) - {c}, UserLeft(io.sockets[c].userId, io.sockets[c].username, chatId))]
  {
    var id := io.sockets[c];
    io.Leave(c, chatId);
    assert io.Room(chatId) - {c} == old(io.Room(chatId)) - {c};
    io.Emit(io.Room(chatId) - {c}, UserLeft(id.userId, id.username, chatId));
  }

  /** `send_message`: the message goes through `crearMensaje`; a created
      message is sent to the whole room, the sender included, any other
      outcome to the sender alone as an `error`. `served` is the service's
      response, None when the handler returned before calling it. */
  method SendMessage(io: Server, st: Store, c: ConnId, chatId: int, content: string,
                     messageType: Option<string>, fail: Fault)
    returns (ghost served: Option<Response<FlatMessage>>)
    requires io.Valid() && st.Valid() && c in io.sockets
    modifies io, st
    ensures io.Valid() && st.Valid()
    ensures io.sockets == old(io.sockets) && io.rooms == old(io.rooms)
    ensures served.None? <==> !SignedIn(io.sockets[c])
    ensures served.None? ==> unchanged(io) && unchanged(st)
    ensures st.users == old(st.users) && st.chats == old(st.chats) && st.participants == old(st.participants)
    ensures served.Some? ==>
              (served.value.status == 201 <==>
                 && (chatId == GeneralChatId || !Throws(fail, 0)) && old(st.OpenTo(chatId, io.sockets[c].userId))
                 && !Throws(fail, 1) && chatId in old(st.chats) && HasUser(old(st.users), io.sockets[c].userId))
    ensures served.Some? && served.value.status == 201 ==>
              var m := Message(old(st.nextMessageId), io.sockets[c].userId, chatId, content,
                               OrElse(messageType, "text"), old(st.clock));
              && st.messages == old(st.messages) + [m]
              && HasUser(st.users, m.senderId)
              && served.value.data == Some(MessageService.Flatten(st.users, m))
              && io.outbox == old(io.outbox) + [Delivery(io.Room(chatId), NewMessage(served.value.data.value))]
    ensures served.Some? && served.value.status != 201 ==>
              && io.outbox == old(io.outbox) + [Delivery({c}, Error(served.value.message))]
              && unchanged(st)
    ensures served.Some? ==>
              (served.value.status == 403 <==>
                 chatId != GeneralChatId && !Throws(fail, 0) && (chatId, io.sockets[c].userId) !in old(st.participants))
  {
    var id := io.sockets[c];
    if !SignedIn(id) {
      return None;
    }
    var dto := MessageService.CreateMessageDto(content, chatId, Some(OrElse(messageType, "text")));
    var resultado := MessageService.CrearMensaje(st, dto, id.userId, fail);
    served := Some(resultado);
    if resultado.status == 201 {
      io.Emit(io.Room(chatId), NewMessage(resultado.data.value));
    } else {
      io.Emit({c}, Error(resultado.message));
    }
  }

  /** `typing`: the rest of the room hears `user_typing`. */
  method Typing(io: Server, c: ConnId, chatId: int, isTyping: bool)
    requires io.Valid() && c in io.sockets
    modifies io
    ensures io.sockets == old(io.sockets) && io.rooms == old(io.rooms)
    ensures io.outbox == old(io.outbox) +
              [Delivery(io.Room(chatId) - {c}, UserTyping(io.sockets[c].userId, io.sockets[c].username, chatId, isTyping))]
  {
    var id := io.sockets[c];
    io.Emit(io.Room(chatId) - {c}, UserTyping(id.userId, id.username, chatId, isTyping));
  }

  /** `mark_as_read`: the rest of the room hears `message_read`; nothing is
      stored. */
  method MarkAsRead(io: Server, c: ConnId, chatId: int, messageId: int)
    requires io.Valid() && c in io.sockets
    modifies io
    ensures io.sockets == old(io.sockets) && io.rooms == old(io.rooms)
    ensures io.outbox == old(io.outbox) +
              [Delivery(io.Room(chatId) - {c}, MessageRead(io.sockets[c].userId, chatId, messageId))]
  {
    var id := io.sockets[c];
    io.Emit(io.Room(chatId) - {c}, MessageRead(id.userId, chatId, messageId));
  }

  /** `get_messages`: the listing of `obtenerMensajesDelChat`, to the caller
      alone. */
  method GetMessages(io: Server, st: Store, c: ConnId, chatId: int, fail: Fault)
    returns (ghost served: Option<Response<seq<FlatMessage>>>)
    requires io.Valid() && st.Valid() && c in io.sockets
    modifies io
    ensures io.sockets == old(io.sockets) && io.rooms == old(io.rooms)
    ensures served.None? <==> !SignedIn(io.sockets[c])
    ensures served.None? ==> unchanged(io)
    ensures served.Some? && served.value.status == 200 ==>
              && served.value.data == Some(MessageService.Listing(st, chatId))
              && io.outbox == old(io.outbox) + [Delivery({c}, MessagesLoaded(MessageService.Listing(st, chatId)))]
    ensures served.Some? && served.value.status != 200 ==>
              io.outbox == old(io.outbox) + [Delivery({c}, Error(served.value.message))]
    ensures served.Some? ==>
              (served.value.status == 200 <==>
                 (chatId == GeneralChatId || !Throws(fail, 0)) && st.OpenTo(chatId, io.sockets[c].userId) && !Throws(fail, 1))
  {
    var id := io.sockets[c];
    if !SignedIn(id) {
      return None;
    }
    var resultado := MessageService.ObtenerMensajesDelChat(st, chatId, id.userId, fail);
    served := Some(resultado);
    if resultado.status == 200 {
      io.Emit({c}, MessagesLoaded(resultado.data.value));
    } else {
      io.Emit({c}, Error(resultado.message));
    }
  }

  /** `get_chat_info`: the chat of `obtenerChatPorId`, to the caller alone;
      the general room gets no exemption here. */
  method GetChatInfo(io: Server, st: Store, c: ConnId, chatId: int, fail: Fault)
    returns (ghost served: Option<Response<ChatDetail>>)
    requires io.Valid() && st.Valid() && c in io.sockets
    modifies io
    ensures io.sockets == old(io.sockets) && io.rooms == old(io.rooms)
    ensures served.None? <==> !SignedIn(io.sockets[c])
    ensures served.None? ==> unchanged(io)
    ensures served.Some? ==>
              (served.value.status == 200 <==>
                 !Throws(fail, 0) && (chatId, io.sockets[c].userId) in st.participants && !Throws(fail, 1))
    ensures served.Some? && served.value.status == 200 ==>
              && chatId in st.chats
              && served.value.data ==
                   Some(ChatDetail(st.chats[chatId], st.ParticipantsOf(chatId), MessagesOf(st.messages, chatId)))
              && io.outbox == old(io.outbox) + [Delivery({c}, ChatInfo(served.value.data.value))]
    ensures served.Some? && served.value.status == 500 ==> served.value == Err(500, "error al obtener el chat")
    ensures served.Some? && served.value.status != 200 ==>
              io.outbox == old(io.outbox) + [Delivery({c}, Error(served.value.message))]
    ensures served.Some? && !Throws(fail, 0) && (chatId, io.sockets[c].userId) !in st.participants ==>
              served.value == Err(403, "no tienes acceso a este chat")
  {
    var id := io.sockets[c];
    if !SignedIn(id) {
      return None;
    }
    var resultado := ChatService.ObtenerChatPorId(st, chatId, id.userId, fail);
    served := Some(resultado);
    if resultado.status == 200 {
      io.Emit({c}, ChatInfo(resultado.data.value));
    } else {
      io.Emit({c}, Error(resultado.message));
    }
  }

  /** `disconnect`: the connection leaves the server and every room, then
      every remaining connection hears `user_disconnected`. */
  method Disconnect(io: Server, c: ConnId)
    requires io.Valid() && c in io.sockets
    modifies io
    ensures io.Valid()
    ensures io.sockets == old(io.sockets) - {c}
    ensures io.rooms.Keys == old(io.rooms).Keys
    ensures forall r :: r in io.rooms ==> io.rooms[r] == old(io.rooms)[r] - {c}
    ensures io.handlersConfigured == old(io.handlersConfigured)
    ensures io.outbox == old(io.outbox) +
              [Delivery(io.sockets.Keys, UserDisconnected(old(io.sockets)[c].username, old(io.sockets)[c].userId))]
  {
    var id := io.sockets[c];
    io.Drop(c);
    assert io.Others(c) == io.sockets.Keys;
    io.Emit(io.Others(c), UserDisconnected(id.username, id.userId));
  }
}
