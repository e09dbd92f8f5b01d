// Process start: make sure the general room exists, install the socket
// handlers on the server, then publish the server through the process-wide
// handle the notification bridge reads.

module Startup {
  import opened Types
  import opened Persistence
  import opened Realtime

  const GeneralChat := Chat(GeneralChatId, Some("General"), true)

  /** The chat table once the general room is ensured: a room already under
      id 1 is kept as it is, otherwise the default one is added. */
  function WithGeneralChat(chats: map<int, Chat>): (r: map<int, Chat>)
    ensures GeneralChatId in r
    ensures GeneralChatId in chats ==> r == chats
    ensures GeneralChatId !in chats ==> r[GeneralChatId] == GeneralChat && r - {GeneralChatId} == chats
  {
    if GeneralChatId in chats then chats else chats[GeneralChatId := GeneralChat]
  }

  /** Ensuring twice is ensuring once. */
  lemma WithGeneralChatIdempotent(chats: map<int, Chat>)
    ensures WithGeneralChat(WithGeneralChat(chats)) == WithGeneralChat(chats)
  {
  }

  /** `ensureGeneralChatExists`. Store calls: 0 the lookup of id 1, 1 the
      insert. Errors are logged and swallowed, so start-up goes on without
      the room. */
  method EnsureGeneralChatExists(st: Store, fail: Fault, trace: StartTrace)
    requires st.Valid()
    modifies st, trace
    ensures st.Valid()
    ensures trace.log == old(trace.log) + [RoomEnsured(GeneralChatId in st.chats)]
    ensures !Throws(fail, 0) && !Throws(fail, 1) ==> st.chats == WithGeneralChat(old(st.chats))
    ensures Throws(fail, 0) || Throws(fail, 1) ==> st.chats == old(st.chats)
    ensures GeneralChatId in old(st.chats) ==> unchanged(st)
    ensures st.users == old(st.users) && st.participants == old(st.participants) && st.messages == old(st.messages)
  {
    if !Throws(fail, 0) && GeneralChatId !in st.chats {
      var ok := st.CreateChatWithId(GeneralChatId, GeneralChat.name, GeneralChat.isGroupChat, Throws(fail, 1));
    }
    trace.log := trace.log + [RoomEnsured(GeneralChatId in st.chats)];
  }

  /** `start`: the room is ensured before the server is created, the
      handlers are installed on the new server, and the handle is published
      only after that. Each step appends itself to `trace`, so the trace
      gives the order in which the steps ran. */
  method Start(st: Store, reg: IoRegistry, fail: Fault, trace: StartTrace) returns (io: Server)
    requires st.Valid()
    modifies st, reg, trace
    ensures st.Valid() && io.Valid() && fresh(io)
    ensures reg.instance == io && io.handlersConfigured
    ensures io.sockets == map[] && io.rooms == map[] && io.outbox == []
    ensures !Throws(fail, 0) && !Throws(fail, 1) ==> st.chats == WithGeneralChat(old(st.chats))
    ensures Throws(fail, 0) || Throws(fail, 1) ==> st.chats == old(st.chats)
    ensures st.users == old(st.users) && st.participants == old(st.participants) && st.messages == old(st.messages)
    ensures var room := GeneralChatId in st.chats;
            && (room <==> GeneralChatId in old(st.chats) || (!Throws(fail, 0) && !Throws(fail, 1)))
            && trace.log == old(trace.log) + [RoomEnsured(room), HandlersInstalled, HandlePublished(true)]
  {
    EnsureGeneralChatExists(st, fail, trace);
    io := new Server();
    io.ConfigureHandlers(trace);
    reg.SetIOInstance(io, trace);
  }
}
