// The message service: send, list, read, edit and delete messages. Sending
// and listing exempt the general room from the membership check; reading one
// message does not. Editing and deleting are reserved to the sender and are
// announced to the message's chat room.

module MessageService {
  import opened Types
  import opened Persistence
  import opened Realtime
  import opened SocketUtils

  datatype CreateMessageDto = CreateMessageDto(content: string, chatId: int, messageType: Option<string>)
  datatype UpdateMessageDto = UpdateMessageDto(content: string)

  /** The flat shape sent to clients: the sender id becomes `userId` and the
      sender's username is copied in. */
  function Flatten(us: seq<User>, m: Message): (f: FlatMessage)
    requires HasUser(us, m.senderId)
    ensures f.id == m.id && f.content == m.content && f.userId == m.senderId
    ensures f.chatId == m.chatId && f.createdAt == m.createdAt
    ensures exists u :: u in us && u.id == m.senderId && f.username == u.username
  {
    var u := UserById(us, m.senderId).value;
    FlatMessage(m.id, m.content, m.senderId, u.username, m.chatId, m.createdAt)
  }

  ghost predicate SendersKnown(us: seq<User>, ms: seq<Message>)
  {
    forall i :: 0 <= i < |ms| ==> HasUser(us, ms[i].senderId)
  }

  /** `mensajes.map(msg => ({ … }))`: one flat message per row, in order. */
  function FlattenAll(us: seq<User>, ms: seq<Message>): (r: seq<FlatMessage>)
    requires SendersKnown(us, ms)
    ensures |r| == |ms|
    ensures forall i :: 0 <= i < |ms| ==> r[i] == Flatten(us, ms[i])
  {
    if ms == [] then [] else [Flatten(us, ms[0])] + FlattenAll(us, ms[1..])
  }

  lemma {:induction false} FlattenAllAppend(us: seq<User>, ms: seq<Message>, m: Message)
    requires SendersKnown(us, ms) && HasUser(us, m.senderId)
    ensures SendersKnown(us, ms + [m])
    ensures FlattenAll(us, ms + [m]) == FlattenAll(us, ms) + [Flatten(us, m)]
  {
    var l, r := FlattenAll(us, ms + [m]), FlattenAll(us, ms) + [Flatten(us, m)];
    assert |l| == |r|;
    forall i | 0 <= i < |l| ensures l[i] == r[i] {
      if i < |ms| {
        assert (ms + [m])[i] == ms[i];
      }
    }
  }

  /** The flattened listing of a chat in a well-formed store. */
  function Listing(st: Store, chatId: int): (r: seq<FlatMessage>)
    reads st
    requires st.Valid()
    ensures |r| == |MessagesOf(st.messages, chatId)|
  {
    var ms := MessagesOf(st.messages, chatId);
    assert SendersKnown(st.users, ms) by {
      forall i | 0 <= i < |ms| ensures HasUser(st.users, ms[i].senderId) {
        var j :| 0 <= j < |st.messages| && st.messages[j] == ms[i];
      }
    }
    FlattenAll(st.users, ms)
  }

  /** A message sent to a chat shows up as the last entry of that chat's
      listing, and every other chat's listing is unchanged. */
  lemma SentMessageListedLast(us: seq<User>, ms: seq<Message>, m: Message, chatId: int)
    requires SendersKnown(us, MessagesOf(ms, chatId)) && HasUser(us, m.senderId)
    ensures SendersKnown(us, MessagesOf(ms + [m], chatId))
    ensures m.chatId == chatId ==>
              FlattenAll(us, MessagesOf(ms + [m], chatId)) == FlattenAll(us, MessagesOf(ms, chatId)) + [Flatten(us, m)]
    ensures m.chatId != chatId ==>
              FlattenAll(us, MessagesOf(ms + [m], chatId)) == FlattenAll(us, MessagesOf(ms, chatId))
  {
    MessagesOfAppend(ms, m, chatId);
    if m.chatId == chatId {
      FlattenAllAppend(us, MessagesOf(ms, chatId), m);
    } else {
      assert MessagesOf(ms + [m], chatId) == MessagesOf(ms, chatId);
    }
  }

  /** `crearMensaje`: store call 0 is the membership lookup (skipped for the
      general room), call 1 the insert. */
  method CrearMensaje(st: Store, dto: CreateMessageDto, senderId: int, fail: Fault)
    returns (r: Response<FlatMessage>)
    requires st.Valid()
    modifies st
    ensures st.Valid()
    ensures r.status in {201, 403, 500}
    ensures r.status == 403 <==>
              dto.chatId != GeneralChatId && !Throws(fail, 0) && (dto.chatId, senderId) !in old(st.participants)
    ensures r.status == 403 ==> r == Err(403, "no perteneces a este chat")
    ensures r.status == 201 <==>
              && (dto.chatId == GeneralChatId || !Throws(fail, 0)) && old(st.OpenTo(dto.chatId, senderId))
              && !Throws(fail, 1) && dto.chatId in old(st.chats) && HasUser(old(st.users), senderId)
    ensures r.status == 500 ==> r == Err(500, "error al enviar el mensaje")
    ensures r.status != 201 ==> unchanged(st)
    ensures r.status == 201 ==>
              var m := Message(old(st.nextMessageId), senderId, dto.chatId, dto.content,
                               OrElse(dto.messageType, "text"), old(st.clock));
              && st.messages == old(st.messages) + [m]
              && HasUser(st.users, senderId)
              && r == Response(201, "mensaje enviado exitosamente", Some(Flatten(st.users, m)))
              && Listing(st, dto.chatId) == old(Listing(st, dto.chatId)) + [r.data.value]
    ensures st.users == old(st.users) && st.chats == old(st.chats) && st.participants == old(st.participants)
  {
    if dto.chatId != GeneralChatId {
      if Throws(fail, 0) {
        return Err(500, "error al enviar el mensaje");
      }
      if !st.IsParticipant(dto.chatId, senderId) {
        return Err(403, "no perteneces a este chat");
      }
    }
    ghost var before := st.messages;
    var created := st.CreateMessage(dto.chatId, senderId, dto.content, OrElse(dto.messageType, "text"), Throws(fail, 1));
    if created.None? {
      return Err(500, "error al enviar el mensaje");
    }
    var flat := Flatten(st.users, created.value);
    SentMessageListedLast(st.users, before, created.value, dto.chatId);
    r := Response(201, "mensaje enviado exitosamente", Some(flat));
  }

  /** `obtenerMensajesDelChat`: store call 0 is the membership lookup
      (skipped for the general room), call 1 the query. */
  method ObtenerMensajesDelChat(st: Store, chatId: int, userId: int, fail: Fault)
    returns (r: Response<seq<FlatMessage>>)
    requires st.Valid()
    ensures r.status in {200, 403, 500}
    ensures r.status == 403 <==>
              chatId != GeneralChatId && !Throws(fail, 0) && (chatId, userId) !in st.participants
    ensures r.status == 403 ==> r == Err(403, "no tienes acceso a este chat")
    ensures r.status == 200 <==>
              (chatId == GeneralChatId || !Throws(fail, 0)) && st.OpenTo(chatId, userId) && !Throws(fail, 1)
    ensures r.status == 500 ==> r == Err(500, "error al obtener los mensajes")
    ensures r.status == 200 ==>
              && r == Response(200, "mensajes obtenidos exitosamente", Some(Listing(st, chatId)))
              && (forall i :: 0 <= i < |r.data.value| ==> r.data.value[i].chatId == chatId)
              && (forall i, j :: 0 <= i < j < |r.data.value| ==> r.data.value[i].createdAt < r.data.value[j].createdAt)
  {
    if chatId != GeneralChatId {
      if Throws(fail, 0) {
        return Err(500, "error al obtener los mensajes");
      }
      if !st.IsParticipant(chatId, userId) {
        return Err(403, "no tienes acceso a este chat");
      }
    }
    if Throws(fail, 1) {
      return Err(500, "error al obtener los mensajes");
    }
    MessagesOfOrdered(st.messages, chatId);
    var listing := Listing(st, chatId);
    r := Response(200, "mensajes obtenidos exitosamente", Some(listing));
  }

  /** `obtenerMensajePorId`: existence before membership, and no exemption
      for the general room. Store call 0 is the lookup, call 1 the
      membership check. */
  method ObtenerMensajePorId(st: Store, messageId: int, userId: int, fail: Fault)
    returns (r: Response<MessageDetail>)
    requires st.Valid()
    ensures r.status in {200, 403, 404, 500}
    ensures r.status == 404 <==> !Throws(fail, 0) && st.FindMessage(messageId).None?
    ensures r.status == 404 ==> r == Err(404, "mensaje no encontrado")
    ensures r.status == 403 <==>
              && !Throws(fail, 0) && st.FindMessage(messageId).Some? && !Throws(fail, 1)
              && (st.FindMessage(messageId).value.chatId, userId) !in st.participants
    ensures r.status == 403 ==> r == Err(403, "no tienes acceso a este mensaje")
    ensures r.status == 500 <==> Throws(fail, 0) || (st.FindMessage(messageId).Some? && Throws(fail, 1))
    ensures r.status == 500 ==> r == Err(500, "error al obtener el mensaje")
    ensures r.status == 200 ==>
              && r.message == "mensaje obtenido exitosamente" && r.data.Some?
              && var d := r.data.value;
                 && d.message in st.messages && d.message.id == messageId
                 && (d.message.chatId, userId) in st.participants
                 && HasUser(st.users, d.message.senderId) && d.sender == st.SenderOf(d.message)
                 && d.message.chatId in st.chats && d.chat == st.chats[d.message.chatId]
  {
    if Throws(fail, 0) {
      return Err(500, "error al obtener el mensaje");
    }
    var found := st.FindMessage(messageId);
    if found.None? {
      return Err(404, "mensaje no encontrado");
    }
    var m := found.value;
    if Throws(fail, 1) {
      return Err(500, "error al obtener el mensaje");
    }
    if !st.IsParticipant(m.chatId, userId) {
      return Err(403, "no tienes acceso a este mensaje");
    }
    r := Response(200, "mensaje obtenido exitosamente", Some(MessageDetail(m, st.SenderOf(m), st.chats[m.chatId])));
  }

  /** `actualizarMensaje`: only the sender may edit; the room of the
      message's chat hears `message_updated`. Store call 0 is the lookup,
      call 1 the update. */
  method ActualizarMensaje(st: Store, reg: IoRegistry, messageId: int, dto: UpdateMessageDto, userId: int, fail: Fault)
    returns (r: Response<MessageWithSender>)
    requires st.Valid()
    modifies st, reg.instance
    ensures st.Valid()
    ensures r.status in {200, 403, 404, 500}
    ensures r.status == 404 <==> !Throws(fail, 0) && old(st.FindMessage(messageId)).None?
    ensures r.status == 404 ==> r == Err(404, "mensaje no encontrado")
    ensures r.status == 403 <==>
              !Throws(fail, 0) && old(st.FindMessage(messageId)).Some? && old(st.FindMessage(messageId)).value.senderId != userId
    ensures r.status == 403 ==> r == Err(403, "solo puedes editar tus propios mensajes")
    ensures r.status == 500 <==>
              || Throws(fail, 0)
              || (old(st.FindMessage(messageId)).Some? && old(st.FindMessage(messageId)).value.senderId == userId
                  && Throws(fail, 1))
    ensures r.status == 500 ==> r == Err(500, "error al actualizar el mensaje")
    ensures r.status != 200 ==> unchanged(st) && Quiet(reg.instance)
    ensures r.status == 200 ==>
              && old(st.FindMessage(messageId)).Some?
              && var existing := old(st.FindMessage(messageId)).value;
                 var i := MessageIndex(old(st.messages), messageId).value;
                 var edited := existing.(content := dto.content);
                 && existing.senderId == userId
                 && st.messages == old(st.messages)[i := edited]
                 && st.FindMessage(messageId) == Some(edited)
                 && HasUser(st.users, edited.senderId)
                 && r == Response(200, "mensaje actualizado exitosamente",
                                  Some(MessageWithSender(edited, st.SenderOf(edited))))
                 && Published(reg.instance, existing.chatId, MessageUpdated(r.data.value))
    ensures st.users == old(st.users) && st.chats == old(st.chats) && st.participants == old(st.participants)
  {
    if Throws(fail, 0) {
      return Err(500, "error al actualizar el mensaje");
    }
    var found := st.FindMessage(messageId);
    if found.None? {
      return Err(404, "mensaje no encontrado");
    }
    var existing := found.value;
    if existing.senderId != userId {
      return Err(403, "solo puedes editar tus propios mensajes");
    }
    var updated := st.UpdateMessageContent(messageId, dto.content, Throws(fail, 1));
    if updated.None? {
      return Err(500, "error al actualizar el mensaje");
    }
    EditedMessageFound(old(st.messages), MessageIndex(old(st.messages), messageId).value, dto.content);
    var payload := MessageWithSender(updated.value, st.SenderOf(updated.value));
    EmitMessageUpdated(reg, existing.chatId, payload);
    r := Response(200, "mensaje actualizado exitosamente", Some(payload));
  }

  /** `eliminarMensaje`: only the sender may delete; the room of the
      message's chat hears `message_deleted`. Store call 0 is the lookup,
      call 1 the delete. */
  method EliminarMensaje(st: Store, reg: IoRegistry, messageId: int, userId: int, fail: Fault)
    returns (r: Response<()>)
    requires st.Valid()
    modifies st, reg.instance
    ensures st.Valid()
    ensures r.status in {200, 403, 404, 500}
    ensures r.status == 404 <==> !Throws(fail, 0) && old(st.FindMessage(messageId)).None?
    ensures r.status == 404 ==> r == Err(404, "mensaje no encontrado")
    ensures r.status == 403 <==>
              !Throws(fail, 0) && old(st.FindMessage(messageId)).Some? && old(st.FindMessage(messageId)).value.senderId != userId
    ensures r.status == 403 ==> r == Err(403, "solo puedes eliminar tus propios mensajes")
    ensures r.status == 500 <==>
              || Throws(fail, 0)
              || (old(st.FindMessage(messageId)).Some? && old(st.FindMessage(messageId)).value.senderId == userId
                  && Throws(fail, 1))
    ensures r.status == 500 ==> r == Err(500, "error al eliminar el mensaje")
    ensures r.status != 200 ==> unchanged(st) && Quiet(reg.instance)
    ensures r.status == 200 ==>
              && old(st.FindMessage(messageId)).Some?
              && var existing := old(st.FindMessage(messageId)).value;
                 var i := MessageIndex(old(st.messages), messageId).value;
                 && existing.senderId == userId
                 && st.messages == old(st.messages)[..i] + old(st.messages)[i + 1..]
                 && st.FindMessage(messageId).None?
                 && r == Response(200, "mensaje eliminado exitosamente", None)
                 && Published(reg.instance, existing.chatId, MessageDeleted(messageId, existing.chatId))
    ensures st.users == old(st.users) && st.chats == old(st.chats) && st.participants == old(st.participants)
  {
    if Throws(fail, 0) {
      return Err(500, "error al eliminar el mensaje");
    }
    var found := st.FindMessage(messageId);
    if found.None? {
      return Err(404, "mensaje no encontrado");
    }
    var existing := found.value;
    if existing.senderId != userId {
      return Err(403, "solo puedes eliminar tus propios mensajes");
    }
    var chatId := existing.chatId;
    ghost var before := st.messages;
    var ok := st.DeleteMessage(messageId, Throws(fail, 1));
    if !ok {
      return Err(500, "error al eliminar el mensaje");
    }
    DeletedMessageGone(before, MessageIndex(before, messageId).value);
    EmitMessageDeleted(reg, chatId, messageId);
    r := Response(200, "mensaje eliminado exitosamente", None);
  }

  /** Ids are unique, so once a message is removed no lookup finds it. */
  lemma DeletedMessageGone(ms: seq<Message>, i: nat)
    requires Ordered(ms) && i < |ms|
    ensures MessageIndex(ms[..i] + ms[i + 1..], ms[i].id).None?
  {
    var rest := ms[..i] + ms[i + 1..];
    forall k | 0 <= k < |rest| ensures rest[k].id != ms[i].id {
      if k < i {
        assert rest[k] == ms[k] && Before(ms[k], ms[i]);
      } else {
        assert rest[k] == ms[k + 1] && Before(ms[i], ms[k + 1]);
      }
    }
  }

  /** Ids are unique, so after an edit the lookup finds the edited row. */
  lemma EditedMessageFound(ms: seq<Message>, i: nat, content: string)
    requires Ordered(ms) && i < |ms|
    ensures MessageIndex(ms[i := ms[i].(content := content)], ms[i].id) == Some(i)
  {
    var e := ms[i := ms[i].(content := content)];
    EarliestIndex(e, i);
  }

  /** In a table with distinct ids the lookup returns the one position that
      carries the id. */
  lemma {:induction false} EarliestIndex(ms: seq<Message>, i: nat)
    requires i < |ms|
    requires forall k :: 0 <= k < |ms| && k != i ==> ms[k].id != ms[i].id
    ensures MessageIndex(ms, ms[i].id) == Some(i)
  {
    if i > 0 {
      EarliestIndex(ms[1..], i - 1);
    }
  }
}
