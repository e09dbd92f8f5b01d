// The socket server's state: the live connections with the identity fixed at
// their handshake, the rooms (one per chat, named `chat_${chatId}` in the
// wire protocol and keyed here by the chat id), and everything emitted so
// far. Also the process-wide handle through which non-socket code reaches
// the server.

module Realtime {
  import opened Types

  type ConnId = nat

  /** `socket.userId` / `socket.username`, set once by the handshake. */
  datatype Identity = Identity(userId: int, username: string)

  /** Every outbound event with its payload. */
  datatype Event =
    | UserConnected(username: string, userId: int)
    | UserDisconnected(username: string, userId: int)
    | JoinedChat(chatId: int)
    | UserJoined(userId: int, username: string, chatId: int)
    | UserLeft(userId: int, username: string, chatId: int)
    | NewMessage(flat: FlatMessage)
    | UserTyping(userId: int, username: string, chatId: int, isTyping: bool)
    | MessageRead(userId: int, chatId: int, messageId: int)
    | MessagesLoaded(messages: seq<FlatMessage>)
    | ChatInfo(detail: ChatDetail)
    | Error(message: string)
    | ChatUpdated(chat: Chat)
    | MessageUpdated(updated: MessageWithSender)
    | MessageDeleted(messageId: int, deletedFrom: int)
    | ParticipantAdded(addedTo: int, participant: ParticipantView)

  /** The wire name of each event. */
  function Name(e: Event): string
  {
    match e
    case UserConnected(_, _) => "user_connected"
    case UserDisconnected(_, _) => "user_disconnected"
    case JoinedChat(_) => "joined_chat"
    case UserJoined(_, _, _) => "user_joined"
    case UserLeft(_, _, _) => "user_left"
    case NewMessage(_) => "new_message"
    case UserTyping(_, _, _, _) => "user_typing"
    case MessageRead(_, _, _) => "message_read"
    case MessagesLoaded(_) => "messages_loaded"
    case ChatInfo(_) => "chat_info"
    case Error(_) => "error"
    case ChatUpdated(_) => "chat_updated"
    case MessageUpdated(_) => "message_updated"
    case MessageDeleted(_, _) => "message_deleted"
    case ParticipantAdded(_, _) => "participant_added"
  }

  /** One emit call: the event and exactly the connections it is sent to. */
  datatype Delivery = Delivery(to: set<ConnId>, event: Event)

  /** The events connection `c` has been sent, in emission order. */
  function Received(outbox: seq<Delivery>, c: ConnId): (r: seq<Event>)
    ensures |r| <= |outbox|
  {
    if outbox == [] then []
    else Received(outbox[..|outbox| - 1], c) +
         (if c in outbox[|outbox| - 1].to then [outbox[|outbox| - 1].event] else [])
  }

  /** A connection receives a new emit exactly when it is one of its targets. */
  lemma ReceivedAfterEmit(outbox: seq<Delivery>, d: Delivery, c: ConnId)
    ensures Received(outbox + [d], c) == Received(outbox, c) + (if c in d.to then [d.event] else [])
  {
    assert (outbox + [d])[..|outbox + [d]| - 1] == outbox;
  }

  lemma {:induction false} ReceivedAfterEmits(outbox: seq<Delivery>, ds: seq<Delivery>, c: ConnId)
    ensures Received(outbox + ds, c) == Received(outbox, c) + Received(ds, c)
    decreases |ds|
  {
    if ds == [] {
      assert outbox + ds == outbox;
    } else {
      var front, last := ds[..|ds| - 1], ds[|ds| - 1];
      assert ds == front + [last];
      assert outbox + ds == (outbox + front) + [last];
      ReceivedAfterEmit(outbox + front, last, c);
      ReceivedAfterEmits(outbox, front, c);
      ReceivedAfterEmit(front, last, c);
    }
  }

  class Server {
    /** The connected sockets and the identity each was given. */
    var sockets: map<ConnId, Identity>
    /** Which connections are in each chat's room. */
    var rooms: map<int, set<ConnId>>
    var outbox: seq<Delivery>
    /** `configurarSocketIO(io)` has installed the handlers. */
    var handlersConfigured: bool

    /** Only connected sockets are in rooms. */
    ghost predicate Valid()
      reads this
    {
      forall r :: r in rooms ==> rooms[r] <= sockets.Keys
    }

    constructor ()
      ensures Valid()
      ensures sockets == map[] && rooms == map[] && outbox == [] && !handlersConfigured
    {
      sockets, rooms, outbox, handlersConfigured := map[], map[], [], false;
    }

    /** The connections currently in a chat's room. */
    function Room(chatId: int): set<ConnId>
      reads this
    {
      if chatId in rooms then rooms[chatId] else {}
    }

    /** Every connection other than `c` (`socket.broadcast`). */
    function Others(c: ConnId): set<ConnId>
      reads this
    {
      sockets.Keys - {c}
    }

    method Emit(to: set<ConnId>, e: Event)
      modifies this
      ensures outbox == old(outbox) + [Delivery(to, e)]
      ensures sockets == old(sockets) && rooms == old(rooms) && handlersConfigured == old(handlersConfigured)
    {
      outbox := outbox + [Delivery(to, e)];
    }

    /** `socket.join(room)` */
    method Join(c: ConnId, chatId: int)
      requires Valid() && c in sockets
      modifies this
      ensures Valid()
      ensures rooms == old(rooms)[chatId := old(Room(chatId)) + {c}]
      ensures sockets == old(sockets) && outbox == old(outbox) && handlersConfigured == old(handlersConfigured)
    {
      rooms := rooms[chatId := Room(chatId) + {c}];
    }

    /** `socket.leave(room)`; leaving a room one is not in changes nothing
        that can be observed. */
    method Leave(c: ConnId, chatId: int)
      requires Valid()
      modifies this
      ensures Valid()
      ensures rooms == old(rooms)[chatId := old(Room(chatId)) - {c}]
      ensures sockets == old(sockets) && outbox == old(outbox) && handlersConfigured == old(handlersConfigured)
    {
      rooms := rooms[chatId := Room(chatId) - {c}];
    }

    /** Registers an authenticated connection. */
    method Register(c: ConnId, id: Identity)
      requires Valid() && c !in sockets
      modifies this
      ensures Valid()
      ensures sockets == old(sockets)[c := id]
      ensures rooms == old(rooms) && outbox == old(outbox) && handlersConfigured == old(handlersConfigured)
    {
      sockets := sockets[c := id];
    }

    /** Drops a closed connection from the server and from every room
        (socket.io does this before it runs the `disconnect` handler). */
    method Drop(c: ConnId)
      requires Valid()
      modifies this
      ensures Valid()
      ensures sockets == old(sockets) - {c}
      ensures rooms.Keys == old(rooms).Keys
      ensures forall r :: r in rooms ==> rooms[r] == old(rooms)[r] - {c}
      ensures outbox == old(outbox) && handlersConfigured == old(handlersConfigured)
    {
      sockets := sockets - {c};
      rooms := map r | r in rooms :: rooms[r] - {c};
    }

    /** `configurarSocketIO(io)`; the step is recorded on `trace`. */
    method ConfigureHandlers(trace: StartTrace)
      modifies this, trace
      ensures handlersConfigured
      ensures sockets == old(sockets) && rooms == old(rooms) && outbox == old(outbox)
      ensures trace.log == old(trace.log) + [HandlersInstalled]
    {
      handlersConfigured := true;
      trace.log := trace.log + [HandlersInstalled];
    }
  }

  /** A step of process start-up, with what the state showed when it ran. */
  datatype Phase =
    | RoomEnsured(roomExists: bool)
    | HandlersInstalled
    | HandlePublished(handlersConfigured: bool)

  /** The order in which the start-up steps ran; each step appends itself. */
  class StartTrace {
    ghost var log: seq<Phase>

    constructor ()
      ensures log == []
    {
      log := [];
    }
  }

  /** The module-level `ioInstance`: null until `setIOInstance` runs. */
  class IoRegistry {
    var instance: Server?

    constructor ()
      ensures instance == null
    {
      instance := null;
    }

    /** `setIOInstance(io)`; the step is recorded on `trace` with whether
        the handlers were already installed on `io`. */
    method SetIOInstance(io: Server, trace: StartTrace)
      modifies this, trace
      ensures instance == io
      ensures trace.log == old(trace.log) + [HandlePublished(io.handlersConfigured)]
    {
      instance := io;
      trace.log := trace.log + [HandlePublished(io.handlersConfigured)];
    }

    function GetIOInstance(): Server?
      reads this
    {
      instance
    }
  }
}
