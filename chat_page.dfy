// The chat page: the state the socket callbacks update (message list,
// loading flag, who is typing), which messages it renders and as whose, and
// the input handlers that drive the socket client. The page always talks
// about the general room.

module ChatPage {
  import opened Types
  import opened JsText
  import opened UseSocket

  /** The page's hard-coded chat. */
  const PageChatId := 1

  /** `currentUser?.id || 0`: no stored user, and a stored id of 0, both
      give 0. */
  function CurrentUserId(storedId: Option<int>): (id: int)
    ensures storedId.Some? ==> id == storedId.value
    ensures storedId.None? ==> id == 0
  {
    if storedId.Some? && storedId.value != 0 then storedId.value else 0
  }

  /** The guard in the render: number 0 and empty texts are falsy. */
  predicate Renderable(m: ClientMessage)
  {
    m.id != 0 && m.username != [] && m.content != [] && m.createdAt != []
  }

  /** The messages the list draws, in list order. */
  function Visible(ms: seq<ClientMessage>): (r: seq<ClientMessage>)
    ensures |r| <= |ms|
    ensures forall m :: m in r <==> m in ms && Renderable(m)
  {
    if ms == [] then []
    else (if Renderable(ms[0]) then [ms[0]] else []) + Visible(ms[1..])
  }

  /** The filter works message by message, so it distributes over
      concatenation. */
  lemma {:induction false} VisibleAppend(a: seq<ClientMessage>, b: seq<ClientMessage>)
    ensures Visible(a + b) == Visible(a) + Visible(b)
  {
    if a == [] {
      assert a + b == b;
    } else {
      assert (a + b)[0] == a[0] && (a + b)[1..] == a[1..] + b;
      VisibleAppend(a[1..], b);
    }
  }

  /** Filtering what is already filtered changes nothing. */
  lemma {:induction false} VisibleIdempotent(ms: seq<ClientMessage>)
    ensures Visible(Visible(ms)) == Visible(ms)
  {
    if ms != [] {
      var head := if Renderable(ms[0]) then [ms[0]] else [];
      assert Visible(head) == head by {
        if Renderable(ms[0]) {
          assert [ms[0]][1..] == [];
        }
      }
      VisibleAppend(head, Visible(ms[1..]));
      VisibleIdempotent(ms[1..]);
    }
  }

  /** A message that arrives is drawn last exactly when it passes the guard;
      the messages drawn before it stay as they were. */
  lemma NewMessageShownLast(ms: seq<ClientMessage>, m: ClientMessage)
    ensures Visible(ms + [m]) == Visible(ms) + (if Renderable(m) then [m] else [])
  {
    VisibleAppend(ms, [m]);
    assert [m][1..] == [];
  }

  /** `msg.userId === currentUserId`: with no stored user only messages
      from user 0 are drawn as one's own. */
  predicate IsOwnMessage(m: ClientMessage, storedId: Option<int>)
  {
    m.userId == CurrentUserId(storedId)
  }

  /** The `user_typing` reducer: a copy of the map with that user's entry
      set or deleted. */
  function TypingAfter(prev: map<int, TypingData>, data: TypingData): (r: map<int, TypingData>)
    ensures data.isTyping ==> data.userId in r && r[data.userId] == data
    ensures !data.isTyping ==> data.userId !in r
    ensures forall k :: k != data.userId ==> (k in r <==> k in prev)
    ensures forall k :: k != data.userId && k in r ==> r[k] == prev[k]
  {
    if data.isTyping then prev[data.userId := data] else prev - {data.userId}
  }

  /** Of two notices from the same user, the later one alone decides. */
  lemma TypingLastWins(prev: map<int, TypingData>, a: TypingData, b: TypingData)
    requires a.userId == b.userId
    ensures TypingAfter(TypingAfter(prev, a), b) == TypingAfter(prev, b)
  {
  }

  /** Two notices from different users commute. */
  lemma TypingCommutes(prev: map<int, TypingData>, a: TypingData, b: TypingData)
    requires a.userId != b.userId
    ensures TypingAfter(TypingAfter(prev, a), b) == TypingAfter(TypingAfter(prev, b), a)
  {
    var x := TypingAfter(TypingAfter(prev, a), b);
    var y := TypingAfter(TypingAfter(prev, b), a);
    assert forall k :: k in x <==> k in y;
    assert forall k :: k in x ==> x[k] == y[k];
  }

  class ChatView {
    var messages: seq<ClientMessage>
    var messageInput: string
    var isTyping: bool
    var typingUsers: map<int, TypingData>
    var isLoading: bool

    /** The page's initial state. */
    constructor ()
      ensures messages == [] && messageInput == [] && !isTyping && typingUsers == map[] && isLoading
    {
      messages, messageInput, isTyping, typingUsers, isLoading := [], [], false, map[], true;
    }

    /** The `new_message` listener. */
    method OnNewMessage(m: ClientMessage)
      modifies this
      ensures messages == old(messages) + [m]
      ensures Visible(messages) == Visible(old(messages)) + (if Renderable(m) then [m] else [])
      ensures messageInput == old(messageInput) && isTyping == old(isTyping)
      ensures typingUsers == old(typingUsers) && isLoading == old(isLoading)
    {
      NewMessageShownLast(messages, m);
      messages := messages + [m];
    }

    /** The `messages_loaded` listener: the list is replaced and loading
        ends. */
    method OnMessagesLoaded(loaded: seq<ClientMessage>)
      modifies this
      ensures messages == loaded && !isLoading
      ensures messageInput == old(messageInput) && isTyping == old(isTyping) && typingUsers == old(typingUsers)
    {
      messages, isLoading := loaded, false;
    }

    /** The `user_typing` listener. */
    method OnUserTyping(data: TypingData)
      modifies this
      ensures typingUsers == TypingAfter(old(typingUsers), data)
      ensures messages == old(messages) && messageInput == old(messageInput)
      ensures isTyping == old(isTyping) && isLoading == old(isLoading)
    {
      typingUsers := TypingAfter(typingUsers, data);
    }

    /** The connection effect: once connected, join the room and ask for its
        history, in that order. */
    method ConnectEffect(client: SocketClient)
      requires client.Valid()
      modifies client
      ensures client.Valid()
      ensures client.sent == old(client.sent) +
                (if client.isConnected then [JoinChatReq(PageChatId), GetMessagesReq(PageChatId)] else [])
      ensures client.connected == old(client.connected) && client.callbacks == old(client.callbacks)
      ensures client.calls == old(client.calls)
    {
      if client.isConnected {
        client.JoinChat(PageChatId);
        client.GetMessages(PageChatId);
      }
    }

    /** The connection effect's cleanup: leave the room. */
    method ConnectCleanup(client: SocketClient)
      requires client.Valid()
      modifies client
      ensures client.Valid()
      ensures client.sent == old(client.sent) + (if client.connected then [LeaveChatReq(PageChatId)] else [])
      ensures client.connected == old(client.connected) && client.callbacks == old(client.callbacks)
      ensures client.calls == old(client.calls)
    {
      client.LeaveChat(PageChatId);
    }

    /** `handleInputChange`: the input takes the new text; a typing notice
        goes out only when typing starts. */
    method HandleInputChange(value: string, client: SocketClient)
      requires client.Valid()
      modifies this, client
      ensures client.Valid()
      ensures messageInput == value && isTyping
      ensures client.sent == old(client.sent) +
                (if !old(isTyping) && client.connected then [TypingReq(PageChatId, true)] else [])
      ensures messages == old(messages) && typingUsers == old(typingUsers) && isLoading == old(isLoading)
      ensures client.connected == old(client.connected) && client.callbacks == old(client.callbacks)
      ensures client.calls == old(client.calls)
    {
      messageInput := value;
      if !isTyping {
        isTyping := true;
        client.SetTyping(PageChatId, true);
      }
    }

    /** `handleSubmit`: a blank input does nothing; otherwise the message
        goes out (trimmed by the client), the input is cleared and typing
        stops. */
    method HandleSubmit(client: SocketClient)
      requires client.Valid()
      modifies this, client
      ensures client.Valid()
      ensures Trim(old(messageInput)) == [] ==> unchanged(this) && client.sent == old(client.sent)
      ensures Trim(old(messageInput)) != [] ==>
                && messageInput == [] && !isTyping
                && client.sent == old(client.sent) +
                     (if client.connected
                      then [SendMessageReq(PageChatId, Trim(old(messageInput)), "text"), TypingReq(PageChatId, false)]
                      else [])
      ensures messages == old(messages) && typingUsers == old(typingUsers) && isLoading == old(isLoading)
      ensures client.connected == old(client.connected) && client.callbacks == old(client.callbacks)
      ensures client.calls == old(client.calls)
    {
      if Trim(messageInput) != [] {
        client.SendMessage(PageChatId, messageInput);
        messageInput, isTyping := [], false;
        client.SetTyping(PageChatId, false);
      }
    }
  }
}
