// The client's socket hook: one connection per token, per-event callback
// lists that components subscribe to and unsubscribe from, dispatch of each
// incoming event to its list in registration order, and emit helpers that do
// nothing while the socket is not connected.

module UseSocket {
  import opened Types
  import opened JsText

  /** A message as the client receives it (JSON: the time is text). */
  datatype ClientMessage = ClientMessage(id: int, content: string, userId: int, username: string,
                                         chatId: int, createdAt: string)

  datatype TypingData = TypingData(userId: int, username: string, chatId: int, isTyping: bool)
  datatype UserData = UserData(userId: int, username: string, chatId: int)

  /** An event arriving from the server, decoded. Events the hook has no
      listener for are `Unlistened`. */
  datatype Incoming =
    | InNewMessage(message: ClientMessage)
    | InMessagesLoaded(messages: seq<ClientMessage>)
    | InUserTyping(typing: TypingData)
    | InError(error: string)
    | InUserJoined(joined: UserData)
    | InUserLeft(left: UserData)
    | InUserConnected(connectedName: string, connectedId: int)
    | InUserDisconnected(disconnectedName: string, disconnectedId: int)
    | Unlistened(name: string)

  /** The callback lists: the six kept by the hook, and the two presence
      events whose callbacks go straight onto the socket. */
  datatype Channel =
    | NewMessageCh | MessagesLoadedCh | UserTypingCh | ErrorCh | UserJoinedCh | UserLeftCh
    | UserConnectedCh | UserDisconnectedCh

  /** The lists an `onX` subscription with an unsubscriber goes to. */
  predicate Subscribable(ch: Channel)
  {
    !ch.UserConnectedCh? && !ch.UserDisconnectedCh?
  }

  function ChannelOf(e: Incoming): (ch: Option<Channel>)
    ensures ch.None? <==> e.Unlistened?
  {
    match e
    case InNewMessage(_) => Some(NewMessageCh)
    case InMessagesLoaded(_) => Some(MessagesLoadedCh)
    case InUserTyping(_) => Some(UserTypingCh)
    case InError(_) => Some(ErrorCh)
    case InUserJoined(_) => Some(UserJoinedCh)
    case InUserLeft(_) => Some(UserLeftCh)
    case InUserConnected(_, _) => Some(UserConnectedCh)
    case InUserDisconnected(_, _) => Some(UserDisconnectedCh)
    case Unlistened(_) => None
  }

  /** What the client emits to the server. */
  datatype Outgoing =
    | JoinChatReq(chatId: int)
    | LeaveChatReq(chatId: int)
    | SendMessageReq(chatId: int, content: string, messageType: string)
    | TypingReq(chatId: int, isTyping: bool)
    | GetMessagesReq(chatId: int)
    | MarkAsReadReq(chatId: int, messageId: int)

  /** A callback, by identity: unsubscribing compares callbacks with `!==`. */
  type Callback = nat

  const MaxReconnectAttempts: nat := 5

  /** `list.filter(cb => cb !== callback)` */
  function Without(cbs: seq<Callback>, cb: Callback): (r: seq<Callback>)
    ensures |r| <= |cbs|
    ensures cb !in r
    ensures forall x :: x in r <==> x in cbs && x != cb
  {
    if cbs == [] then []
    else if cbs[0] == cb then Without(cbs[1..], cb)
    else [cbs[0]] + Without(cbs[1..], cb)
  }

  /** The filter keeps the order of the callbacks it keeps: removing
      before or after appending another callback is the same. */
  lemma {:induction false} WithoutAppend(cbs: seq<Callback>, x: Callback, cb: Callback)
    ensures Without(cbs + [x], cb) == Without(cbs, cb) + (if x == cb then [] else [x])
  {
    if cbs == [] {
      assert [x][1..] == [];
    } else {
      assert (cbs + [x])[1..] == cbs[1..] + [x];
      WithoutAppend(cbs[1..], x, cb);
    }
  }

  /** Removing a callback that is not registered changes nothing. */
  lemma {:induction false} WithoutAbsent(cbs: seq<Callback>, cb: Callback)
    requires cb !in cbs
    ensures Without(cbs, cb) == cbs
  {
    if cbs != [] {
      assert cbs[0] != cb && cb !in cbs[1..];
      WithoutAbsent(cbs[1..], cb);
    }
  }

  /** Subscribing a new callback and calling its unsubscriber gives back the
      list as it was. */
  lemma SubscribeThenUnsubscribe(cbs: seq<Callback>, cb: Callback)
    requires cb !in cbs
    ensures Without(cbs + [cb], cb) == cbs
  {
    WithoutAppend(cbs, cb, cb);
    WithoutAbsent(cbs, cb);
  }

  /** `cbs.forEach(cb => cb(payload))`: one call per registered callback. */
  function Invocations(cbs: seq<Callback>, e: Incoming): (r: seq<(Callback, Incoming)>)
    ensures |r| == |cbs|
  {
    seq(|cbs|, k requires 0 <= k < |cbs| => (cbs[k], e))
  }

  class SocketClient {
    /** `socketRef.current` has been assigned. */
    var socketCreated: bool
    /** `socket.connected` */
    var connected: bool
    /** The `isConnected` state the hook returns. */
    var isConnected: bool
    var reconnectAttempts: nat
    /** The token the socket was opened with (`auth.token`). */
    var authToken: string
    var callbacks: map<Channel, seq<Callback>>
    /** Everything the client has emitted, in order. */
    var sent: seq<Outgoing>
    /** Every callback call made so far, with its payload, in order. */
    var calls: seq<(Callback, Incoming)>

    ghost predicate Valid()
      reads this
    {
      && (forall ch: Channel :: ch in callbacks)
      && (connected ==> socketCreated)
      && isConnected == connected
    }

    /** The hook before its effect has run. */
    constructor ()
      ensures Valid()
      ensures !socketCreated && !connected && reconnectAttempts == 0 && sent == [] && calls == []
      ensures forall ch :: callbacks[ch] == []
    {
      socketCreated, connected, isConnected, reconnectAttempts, authToken := false, false, false, 0, "";
      callbacks := map[NewMessageCh := [], MessagesLoadedCh := [], UserTypingCh := [], ErrorCh := [],
                       UserJoinedCh := [], UserLeftCh := [], UserConnectedCh := [], UserDisconnectedCh := []];
      sent, calls := [], [];
      new;
      forall ch: Channel ensures ch in callbacks && callbacks[ch] == [] {
        match ch
        case NewMessageCh =>
        case MessagesLoadedCh =>
        case UserTypingCh =>
        case ErrorCh =>
        case UserJoinedCh =>
        case UserLeftCh =>
        case UserConnectedCh =>
        case UserDisconnectedCh =>
      }
    }

    /** The effect: no socket without a token; otherwise a new socket that
      is not yet connected and has no presence listeners of its own. */
    method Mount(token: Option<string>)
      requires Valid()
      modifies this
      ensures Valid()
      ensures !TruthyText(token) ==> unchanged(this)
      ensures TruthyText(token) ==>
                && socketCreated && !connected && authToken == token.value
                && callbacks == old(callbacks)[UserConnectedCh := []][UserDisconnectedCh := []]
                && reconnectAttempts == old(reconnectAttempts) && sent == old(sent) && calls == old(calls)
    {
      if !TruthyText(token) {
        return;
      }
      socketCreated, connected, isConnected, authToken := true, false, false, token.value;
      callbacks := callbacks[UserConnectedCh := []][UserDisconnectedCh := []];
    }

    /** The effect's cleanup: `socket.disconnect()`. */
    method Cleanup()
      requires Valid()
      modifies this
      ensures Valid()
      ensures !connected
      ensures socketCreated == old(socketCreated) && callbacks == old(callbacks)
      ensures reconnectAttempts == old(reconnectAttempts) && sent == old(sent) && calls == old(calls)
    {
      connected, isConnected := false, false;
    }

    /** The `connect` event. */
    method OnConnect()
      requires Valid() && socketCreated
      modifies this
      ensures Valid()
      ensures connected && isConnected && reconnectAttempts == 0
      ensures socketCreated && callbacks == old(callbacks) && sent == old(sent) && calls == old(calls)
    {
      connected, isConnected := true, true;
      reconnectAttempts := 0;
    }

    /** The `connect_error` event. */
    method OnConnectError()
      requires Valid()
      modifies this
      ensures Valid()
      ensures reconnectAttempts == old(reconnectAttempts) + 1
      ensures connected == old(connected) && socketCreated == old(socketCreated)
      ensures callbacks == old(callbacks) && sent == old(sent) && calls == old(calls)
    {
      reconnectAttempts := reconnectAttempts + 1;
    }

    /** The `disconnect` event. */
    method OnDisconnect()
      requires Valid()
      modifies this
      ensures Valid()
      ensures !connected && !isConnected
      ensures reconnectAttempts == old(reconnectAttempts) && socketCreated == old(socketCreated)
      ensures callbacks == old(callbacks) && sent == old(sent) && calls == old(calls)
    {
      connected, isConnected := false, false;
    }

    /** The guard every emit helper shares: emit only while connected. */
    method EmitIfConnected(out: Outgoing)
      requires Valid()
      modifies this
      ensures Valid()
      ensures sent == old(sent) + (if connected then [out] else [])
      ensures connected == old(connected) && socketCreated == old(socketCreated)
      ensures reconnectAttempts == old(reconnectAttempts) && callbacks == old(callbacks) && calls == old(calls)
    {
      if connected {
        sent := sent + [out];
      }
    }

    method JoinChat(cId: int)
      requires Valid()
      modifies this
      ensures Valid()
      ensures sent == old(sent) + (if connected then [JoinChatReq(cId)] else [])
      ensures connected == old(connected) && socketCreated == old(socketCreated)
      ensures reconnectAttempts == old(reconnectAttempts) && callbacks == old(callbacks) && calls == old(calls)
    {
      EmitIfConnected(JoinChatReq(cId));
    }

    method LeaveChat(cId: int)
      requires Valid()
      modifies this
      ensures Valid()
      ensures sent == old(sent) + (if connected then [LeaveChatReq(cId)] else [])
      ensures connected == old(connected) && socketCreated == old(socketCreated)
      ensures reconnectAttempts == old(reconnectAttempts) && callbacks == old(callbacks) && calls == old(calls)
    {
      EmitIfConnected(LeaveChatReq(cId));
    }

    /** `sendMessage`: also refuses blank content, and sends it trimmed. */
    method SendMessage(cId: int, content: string)
      requires Valid()
      modifies this
      ensures Valid()
      ensures connected && Trim(content) != [] ==> sent == old(sent) + [SendMessageReq(cId, Trim(content), "text")]
      ensures !connected || Trim(content) == [] ==> sent == old(sent)
      ensures connected == old(connected) && socketCreated == old(socketCreated)
      ensures reconnectAttempts == old(reconnectAttempts) && callbacks == old(callbacks) && calls == old(calls)
    {
      if connected && Trim(content) != [] {
        sent := sent + [SendMessageReq(cId, Trim(content), "text")];
      }
    }

    method SetTyping(cId: int, isTyping: bool)
      requires Valid()
      modifies this
      ensures Valid()
      ensures sent == old(sent) + (if connected then [TypingReq(cId, isTyping)] else [])
      ensures connected == old(connected) && socketCreated == old(socketCreated)
      ensures reconnectAttempts == old(reconnectAttempts) && callbacks == old(callbacks) && calls == old(calls)
    {
      EmitIfConnected(TypingReq(cId, isTyping));
    }

    method GetMessages(cId: int)
      requires Valid()
      modifies this
      ensures Valid()
      ensures sent == old(sent) + (if connected then [GetMessagesReq(cId)] else [])
      ensures connected == old(connected) && socketCreated == old(socketCreated)
      ensures reconnectAttempts == old(reconnectAttempts) && callbacks == old(callbacks) && calls == old(calls)
    {
      EmitIfConnected(GetMessagesReq(cId));
    }

    method MarkAsRead(cId: int, messageId: int)
      requires Valid()
      modifies this
      ensures Valid()
      ensures sent == old(sent) + (if connected then [MarkAsReadReq(cId, messageId)] else [])
      ensures connected == old(connected) && socketCreated == old(socketCreated)
      ensures reconnectAttempts == old(reconnectAttempts) && callbacks == old(callbacks) && calls == old(calls)
    {
      EmitIfConnected(MarkAsReadReq(cId, messageId));
    }

    /** `onNewMessage`, `onMessagesLoaded`, `onUserTyping`, `onError`,
        `onUserJoined`, `onUserLeft`: append to that event's list only. */
    method Subscribe(ch: Channel, cb: Callback)
      requires Valid() && Subscribable(ch)
      modifies this
      ensures Valid()
      ensures callbacks == old(callbacks)[ch := old(callbacks)[ch] + [cb]]
      ensures connected == old(connected) && socketCreated == old(socketCreated)
      ensures reconnectAttempts == old(reconnectAttempts) && sent == old(sent) && calls == old(calls)
    {
      callbacks := callbacks[ch := callbacks[ch] + [cb]];
    }

    /** The unsubscriber those return: every entry equal to the callback
        leaves that list. */
    method Unsubscribe(ch: Channel, cb: Callback)
      requires Valid() && Subscribable(ch)
      modifies this
      ensures Valid()
      ensures callbacks == old(callbacks)[ch := Without(old(callbacks)[ch], cb)]
      ensures connected == old(connected) && socketCreated == old(socketCreated)
      ensures reconnectAttempts == old(reconnectAttempts) && sent == old(sent) && calls == old(calls)
    {
      callbacks := callbacks[ch := Without(callbacks[ch], cb)];
    }

    /** `onUserConnected` / `onUserDisconnected`: straight onto the socket if
        there is one, with no way to remove it. */
    method OnPresence(ch: Channel, cb: Callback)
      requires Valid() && !Subscribable(ch)
      modifies this
      ensures Valid()
      ensures callbacks == if socketCreated then old(callbacks)[ch := old(callbacks)[ch] + [cb]] else old(callbacks)
      ensures connected == old(connected) && socketCreated == old(socketCreated)
      ensures reconnectAttempts == old(reconnectAttempts) && sent == old(sent) && calls == old(calls)
    {
      if socketCreated {
        callbacks := callbacks[ch := callbacks[ch] + [cb]];
      }
    }

    /** An event from the server: every callback of its list is called with
        the payload, in registration order; unlistened events call nothing. */
    method Receive(e: Incoming)
      requires Valid()
      modifies this
      ensures Valid()
      ensures calls == old(calls) + (if ChannelOf(e).Some? then Invocations(callbacks[ChannelOf(e).value], e) else [])
      ensures connected == old(connected) && socketCreated == old(socketCreated)
      ensures reconnectAttempts == old(reconnectAttempts) && callbacks == old(callbacks) && sent == old(sent)
    {
      var ch := ChannelOf(e);
      if ch.None? {
        return;
      }
      var cbs := callbacks[ch.value];
      var i := 0;
      while i < |cbs|
        invariant 0 <= i <= |cbs|
        invariant calls == old(calls) + Invocations(cbs[..i], e)
        invariant Valid() && callbacks == old(callbacks) && sent == old(sent)
        invariant connected == old(connected) && socketCreated == old(socketCreated)
        invariant reconnectAttempts == old(reconnectAttempts)
      {
        assert Invocations(cbs[..i + 1], e) == Invocations(cbs[..i], e) + [(cbs[i], e)];
        calls := calls + [(cbs[i], e)];
        i := i + 1;
      }
      assert cbs[..i] == cbs;
    }
  }

  /** Subscribing a fresh callback and unsubscribing it again leaves the
      calls an event makes exactly as they were. */
  lemma UnsubscribedNotCalled(cbs: seq<Callback>, cb: Callback, e: Incoming)
    requires cb !in cbs
    ensures Invocations(Without(cbs + [cb], cb), e) == Invocations(cbs, e)
    ensures forall k :: 0 <= k < |cbs| ==> Invocations(Without(cbs + [cb], cb), e)[k].0 != cb
  {
    SubscribeThenUnsubscribe(cbs, cb);
  }
}
