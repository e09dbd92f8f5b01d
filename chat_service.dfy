// The chat service: create, list, read, rename and delete chats and add
// participants. Every operation is a guard chain over the store ending in a
// status-tagged result; a store call that throws is caught and turned into a
// 500 with a fixed message. None of these checks exempt the general room.

module ChatService {
  import opened Types
  import opened Persistence
  import opened Realtime
  import opened SocketUtils

  datatype CreateChatDto = CreateChatDto(name: Option<string>, isGroupChat: bool, participantIds: seq<int>)
  datatype UpdateChatDto = UpdateChatDto(name: Option<string>)
  datatype AddParticipantDto = AddParticipantDto(userId: int)

  /** `[...new Set([creatorId, ...participantIds])]`, as a set. */
  function Members(creatorId: int, participantIds: seq<int>): (r: set<int>)
    ensures forall u :: u in r <==> u == creatorId || u in participantIds
  {
    {creatorId} + set u | u in participantIds
  }

  /** A one-to-one chat between distinct users has exactly those two members. */
  lemma OneToOneMembers(a: int, b: int)
    requires a != b
    ensures Members(a, [b]) == {a, b} && |Members(a, [b])| == 2
  {
    assert Members(a, [b]) == {a, b};
  }

  /** A creator listed among the participants is counted once. */
  lemma CreatorListedOnce(a: int, ids: seq<int>)
    requires a in ids
    ensures Members(a, ids) == set u | u in ids
  {
  }

  /** `crearChat` (POST /chats): one participant row per distinct member. */
  method CrearChat(st: Store, dto: CreateChatDto, creatorId: int, fail: Fault)
    returns (r: Response<ChatWithParticipants>)
    requires st.Valid()
    modifies st
    ensures st.Valid()
    ensures r.status == 201 || r.status == 500
    ensures r.status == 201 <==>
              !Throws(fail, 0) && forall u :: u in Members(creatorId, dto.participantIds) ==> HasUser(st.users, u)
    ensures r.status == 201 ==>
              var id := old(st.nextChatId);
              && id !in old(st.chats)
              && st.chats == old(st.chats)[id := Chat(id, OrNull(dto.name), dto.isGroupChat)]
              && st.participants == old(st.participants) + (set u | u in Members(creatorId, dto.participantIds) :: (id, u))
              && (forall u :: (id, u) in st.participants <==> u in Members(creatorId, dto.participantIds))
              && r == Response(201, "chat creado exitosamente",
                               Some(ChatWithParticipants(st.chats[id], st.ParticipantsOf(id))))
    ensures r.status == 500 ==> r == Err(500, "error al crear el chat") && unchanged(st)
    ensures st.users == old(st.users) && st.messages == old(st.messages)
  {
    var members := Members(creatorId, dto.participantIds);
    var chat := st.CreateChat(OrNull(dto.name), dto.isGroupChat, members, Throws(fail, 0));
    if chat.None? {
      return Err(500, "error al crear el chat");
    }
    var id := chat.value.id;
    r := Response(201, "chat creado exitosamente", Some(ChatWithParticipants(chat.value, st.ParticipantsOf(id))));
  }

  /** A chat in the user's list: the chat, its participants and at most its
      newest message. */
  function Summary(st: Store, chatId: int): ChatDetail
    reads st
    requires chatId in st.chats
  {
    ChatDetail(st.chats[chatId], st.ParticipantsOf(chatId), Newest(MessagesOf(st.messages, chatId)))
  }

  /** `obtenerChatsDelUsuario` (GET /chats): exactly the chats with a
      participant row for the user, keyed by chat id. */
  method ObtenerChatsDelUsuario(st: Store, userId: int, fail: Fault)
    returns (r: Response<map<int, ChatDetail>>)
    requires st.Valid()
    ensures r.status == 200 || r.status == 500
    ensures r.status == 500 <==> Throws(fail, 0)
    ensures r.status == 500 ==> r == Err(500, "error al obtener los chats")
    ensures r.status == 200 ==>
              && r.message == "chats obtenidos exitosamente" && r.data.Some?
              && (forall c :: c in r.data.value <==> c in st.chats && (c, userId) in st.participants)
              && (forall c :: c in r.data.value ==> r.data.value[c] == Summary(st, c))
    // each entry carries the newest message of its chat, none when it has none
    ensures r.status == 200 ==>
              && (forall c :: c in r.data.value ==>
                    (r.data.value[c].messages == [] <==> forall m :: m in st.messages ==> m.chatId != c))
              && (forall c, last :: c in r.data.value && last in r.data.value[c].messages ==>
                    && last in st.messages && last.chatId == c
                    && forall m :: m in st.messages && m.chatId == c ==> m.createdAt <= last.createdAt)
  {
    if Throws(fail, 0) {
      return Err(500, "error al obtener los chats");
    }
    var chats := map c | c in st.chats && (c, userId) in st.participants :: Summary(st, c);
    forall c | c in chats {
      NewestIsLatest(st.messages, c);
    }
    r := Response(200, "chats obtenidos exitosamente", Some(chats));
  }

  /** `obtenerChatPorId`: the membership check comes before the existence
      check and has no general-room exemption; messages oldest first. */
  method ObtenerChatPorId(st: Store, chatId: int, userId: int, fail: Fault)
    returns (r: Response<ChatDetail>)
    requires st.Valid()
    ensures r.status in {200, 403, 404, 500}
    ensures r.status == 403 <==> !Throws(fail, 0) && (chatId, userId) !in st.participants
    ensures r.status == 403 ==> r == Err(403, "no tienes acceso a este chat")
    ensures r.status == 404 ==> r == Err(404, "chat no encontrado")
    ensures r.status == 200 <==> !Throws(fail, 0) && (chatId, userId) in st.participants && !Throws(fail, 1)
    ensures r.status == 500 <==> Throws(fail, 0) || ((chatId, userId) in st.participants && Throws(fail, 1))
    ensures r.status == 500 ==> r == Err(500, "error al obtener el chat")
    ensures r.status == 200 ==>
              && r.message == "chat obtenido exitosamente"
              && r.data == Some(ChatDetail(st.chats[chatId], st.ParticipantsOf(chatId), MessagesOf(st.messages, chatId)))
              && AscendingByCreation(r.data.value.messages)
  {
    if Throws(fail, 0) {
      return Err(500, "error al obtener el chat");
    }
    if !st.IsParticipant(chatId, userId) {
      return Err(403, "no tienes acceso a este chat");
    }
    if Throws(fail, 1) {
      return Err(500, "error al obtener el chat");
    }
    if chatId !in st.chats {
      return Err(404, "chat no encontrado");
    }
    MessagesOfOrdered(st.messages, chatId);
    r := Response(200, "chat obtenido exitosamente",
                  Some(ChatDetail(st.chats[chatId], st.ParticipantsOf(chatId), MessagesOf(st.messages, chatId))));
  }

  /** `actualizarChat` (PUT /chats/:chatId): a member renames the chat, then
      the room hears `chat_updated`; nothing is emitted on any failure. */
  method ActualizarChat(st: Store, reg: IoRegistry, chatId: int, dto: UpdateChatDto, userId: int, fail: Fault)
    returns (r: Response<Chat>)
    requires st.Valid()
    modifies st, reg.instance
    ensures st.Valid()
    ensures r.status in {200, 403, 500}
    ensures r.status == 403 <==> !Throws(fail, 0) && (chatId, userId) !in old(st.participants)
    ensures r.status == 200 <==> !Throws(fail, 0) && (chatId, userId) in old(st.participants) && !Throws(fail, 1)
    ensures r.status == 403 ==> r == Err(403, "no tienes acceso a este chat")
    ensures r.status == 500 ==> r == Err(500, "error al actualizar el chat")
    ensures r.status == 200 ==>
              && chatId in old(st.chats)
              && st.chats == old(st.chats)[chatId := old(st.chats)[chatId].(name := OrNull(dto.name))]
              && r == Response(200, "chat actualizado exitosamente", Some(st.chats[chatId]))
              && Published(reg.instance, chatId, ChatUpdated(st.chats[chatId]))
    ensures r.status != 200 ==> unchanged(st) && Quiet(reg.instance)
    ensures st.users == old(st.users) && st.participants == old(st.participants) && st.messages == old(st.messages)
  {
    if Throws(fail, 0) {
      return Err(500, "error al actualizar el chat");
    }
    if !st.IsParticipant(chatId, userId) {
      return Err(403, "no tienes acceso a este chat");
    }
    var chat := st.UpdateChatName(chatId, OrNull(dto.name), Throws(fail, 1));
    if chat.None? {
      return Err(500, "error al actualizar el chat");
    }
    EmitChatUpdated(reg, chatId, chat.value);
    r := Response(200, "chat actualizado exitosamente", Some(chat.value));
  }

  /** `eliminarChat` (DELETE /chats/:chatId): a member deletes the chat's
      messages, then its participant rows, then the chat. A store failure
      part-way is not rolled back: the steps already done stay done. */
  method EliminarChat(st: Store, chatId: int, userId: int, fail: Fault) returns (r: Response<()>)
    requires st.Valid()
    modifies st
    ensures st.Valid()
    ensures r.status in {200, 403, 500}
    ensures r.status == 403 <==> !Throws(fail, 0) && (chatId, userId) !in old(st.participants)
    ensures r.status == 403 ==> r == Err(403, "no tienes acceso a este chat") && unchanged(st)
    ensures r.status == 500 ==> r == Err(500, "error al eliminar el chat")
    ensures r.status == 200 <==>
              && (chatId, userId) in old(st.participants)
              && !Throws(fail, 0) && !Throws(fail, 1) && !Throws(fail, 2) && !Throws(fail, 3)
    ensures r.status == 200 ==>
              && r == Response(200, "chat eliminado exitosamente", None)
              && st.messages == WithoutChat(old(st.messages), chatId)
              && st.participants == (set p | p in old(st.participants) && p.0 != chatId)
              && st.chats == old(st.chats) - {chatId}
    // a failure after the membership check leaves exactly the earlier steps applied
    ensures Throws(fail, 0) || ((chatId, userId) in old(st.participants) && Throws(fail, 1)) ==> unchanged(st)
    ensures (chatId, userId) in old(st.participants) && Throws(fail, 2) ==>
              && st.messages == WithoutChat(old(st.messages), chatId)
              && st.participants == old(st.participants) && st.chats == old(st.chats)
    ensures (chatId, userId) in old(st.participants) && Throws(fail, 3) ==>
              && st.messages == WithoutChat(old(st.messages), chatId)
              && st.participants == (set p | p in old(st.participants) && p.0 != chatId)
              && st.chats == old(st.chats)
    ensures st.users == old(st.users)
  {
    if Throws(fail, 0) {
      return Err(500, "error al eliminar el chat");
    }
    if !st.IsParticipant(chatId, userId) {
      return Err(403, "no tienes acceso a este chat");
    }
    var ok := st.DeleteMessagesOfChat(chatId, Throws(fail, 1));
    if !ok {
      return Err(500, "error al eliminar el chat");
    }
    ok := st.DeleteParticipantsOfChat(chatId, Throws(fail, 2));
    if !ok {
      return Err(500, "error al eliminar el chat");
    }
    assert forall m :: m in st.messages ==> m.chatId != chatId;
    ok := st.DeleteChat(chatId, Throws(fail, 3));
    if !ok {
      return Err(500, "error al eliminar el chat");
    }
    r := Response(200, "chat eliminado exitosamente", None);
  }

  /** `agregarParticipante` (POST /chats/:chatId/participants): a member
      adds a user who is not yet in the chat; the room hears
      `participant_added`. */
  method AgregarParticipante(st: Store, reg: IoRegistry, chatId: int, dto: AddParticipantDto, userId: int, fail: Fault)
    returns (r: Response<ParticipantView>)
    requires st.Valid()
    modifies st, reg.instance
    ensures st.Valid()
    ensures r.status in {201, 400, 403, 500}
    ensures r.status == 403 <==> !Throws(fail, 0) && (chatId, userId) !in old(st.participants)
    ensures r.status == 400 <==>
              && !Throws(fail, 0) && (chatId, userId) in old(st.participants)
              && !Throws(fail, 1) && (chatId, dto.userId) in old(st.participants)
    ensures r.status == 201 <==>
              && !Throws(fail, 0) && (chatId, userId) in old(st.participants)
              && !Throws(fail, 1) && (chatId, dto.userId) !in old(st.participants)
              && !Throws(fail, 2) && HasUser(st.users, dto.userId)
    ensures r.status == 403 ==> r == Err(403, "no tienes acceso a este chat")
    ensures r.status == 400 ==> r == Err(400, "el usuario ya es participante del chat")
    ensures r.status == 500 ==> r == Err(500, "error al agregar participante")
    ensures r.status == 201 ==>
              var added := ParticipantView(chatId, dto.userId, Public(UserById(st.users, dto.userId).value));
              && st.participants == old(st.participants) + {(chatId, dto.userId)}
              && r == Response(201, "participante agregado exitosamente", Some(added))
              && Published(reg.instance, chatId, ParticipantAdded(chatId, added))
    ensures r.status != 201 ==> unchanged(st) && Quiet(reg.instance)
    ensures st.users == old(st.users) && st.chats == old(st.chats) && st.messages == old(st.messages)
  {
    if Throws(fail, 0) {
      return Err(500, "error al agregar participante");
    }
    if !st.IsParticipant(chatId, userId) {
      return Err(403, "no tienes acceso a este chat");
    }
    if Throws(fail, 1) {
      return Err(500, "error al agregar participante");
    }
    if st.IsParticipant(chatId, dto.userId) {
      return Err(400, "el usuario ya es participante del chat");
    }
    var added := st.CreateParticipant(chatId, dto.userId, Throws(fail, 2));
    if added.None? {
      return Err(500, "error al agregar participante");
    }
    EmitParticipantAdded(reg, chatId, added.value);
    r := Response(201, "participante agregado exitosamente", Some(added.value));
  }
}
