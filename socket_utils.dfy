// The notification bridge: five emitters that let the request/response
// services push an event into one chat's room through the process-wide io
// handle. Before the handle is set every emitter does nothing.

module SocketUtils {
  import opened Types
  import opened Realtime

  /** What an emitter does to the server `io` it finds (null: none): one
      delivery of `e` to exactly the connections in the room of `chatId`,
      appended to the outbox; connections and rooms are untouched. */
  twostate predicate Published(io: Server?, chatId: int, e: Event)
    reads io
  {
    io != null ==> && io.outbox == old(io.outbox) + [Delivery(io.Room(chatId), e)]
                   && io.sockets == old(io.sockets) && io.rooms == old(io.rooms)
                   && io.handlersConfigured == old(io.handlersConfigured)
  }

  /** Nothing was emitted and the server is untouched. */
  twostate predicate Quiet(io: Server?)
    reads io
  {
    io != null ==> unchanged(io)
  }

  method Publish(reg: IoRegistry, chatId: int, e: Event)
    modifies reg.instance
    ensures Published(reg.instance, chatId, e)
  {
    var io := reg.GetIOInstance();
    if io != null {
      io.Emit(io.Room(chatId), e);
    }
  }

  method EmitNewMessage(reg: IoRegistry, chatId: int, message: FlatMessage)
    modifies reg.instance
    ensures Published(reg.instance, chatId, NewMessage(message))
  {
    Publish(reg, chatId, NewMessage(message));
  }

  method EmitChatUpdated(reg: IoRegistry, chatId: int, chat: Chat)
    modifies reg.instance
    ensures Published(reg.instance, chatId, ChatUpdated(chat))
  {
    Publish(reg, chatId, ChatUpdated(chat));
  }

  method EmitMessageUpdated(reg: IoRegistry, chatId: int, message: MessageWithSender)
    modifies reg.instance
    ensures Published(reg.instance, chatId, MessageUpdated(message))
  {
    Publish(reg, chatId, MessageUpdated(message));
  }

  /** The payload is `{ messageId, chatId }`. */
  method EmitMessageDeleted(reg: IoRegistry, chatId: int, messageId: int)
    modifies reg.instance
    ensures Published(reg.instance, chatId, MessageDeleted(messageId, chatId))
  {
    Publish(reg, chatId, MessageDeleted(messageId, chatId));
  }

  /** The payload is `{ chatId, participant }`. */
  method EmitParticipantAdded(reg: IoRegistry, chatId: int, participant: ParticipantView)
    modifies reg.instance
    ensures Published(reg.instance, chatId, ParticipantAdded(chatId, participant))
  {
    Publish(reg, chatId, ParticipantAdded(chatId, participant));
  }
}
