// The relational store behind every service, as an in-memory object: users
// with unique username and email, chats, participant rows (chatId, userId),
// and messages in creation order. Every method is one store call; it either
// takes effect as a whole or throws and changes nothing. A call throws when
// the caller says so (an outage) or when it would break a unique or
// foreign-key constraint.

module Persistence {
  import opened Types

  // ---------------------------------------------------------------------
  // Queries over the tables
  // ---------------------------------------------------------------------

  predicate HasUser(us: seq<User>, id: int)
  {
    exists i :: 0 <= i < |us| && us[i].id == id
  }

  /** `user.findUnique({ where: { id } })` */
  function UserById(us: seq<User>, id: int): (r: Option<User>)
    ensures r.Some? <==> HasUser(us, id)
    ensures r.Some? ==> r.value in us && r.value.id == id
  {
    if us == [] then None
    else if us[0].id == id then Some(us[0])
    else
      var r := UserById(us[1..], id);
      assert HasUser(us[1..], id) ==> HasUser(us, id) by {
        if HasUser(us[1..], id) {
          var i :| 0 <= i < |us[1..]| && us[1..][i].id == id;
          assert us[i + 1].id == id;
        }
      }
      assert HasUser(us, id) && us[0].id != id ==> HasUser(us[1..], id) by {
        if HasUser(us, id) && us[0].id != id {
          var i :| 0 <= i < |us| && us[i].id == id;
          assert us[1..][i - 1].id == id;
        }
      }
      r
  }

  predicate HasEmail(us: seq<User>, email: string)
  {
    exists i :: 0 <= i < |us| && us[i].email == email
  }

  /** `user.findUnique({ where: { email } })` */
  function UserByEmail(us: seq<User>, email: string): (r: Option<User>)
    ensures r.Some? <==> HasEmail(us, email)
    ensures r.Some? ==> r.value in us && r.value.email == email
  {
    if us == [] then None
    else if us[0].email == email then Some(us[0])
    else
      var r := UserByEmail(us[1..], email);
      assert HasEmail(us[1..], email) ==> HasEmail(us, email) by {
        if HasEmail(us[1..], email) {
          var i :| 0 <= i < |us[1..]| && us[1..][i].email == email;
          assert us[i + 1].email == email;
        }
      }
      assert HasEmail(us, email) && us[0].email != email ==> HasEmail(us[1..], email) by {
        if HasEmail(us, email) && us[0].email != email {
          var i :| 0 <= i < |us| && us[i].email == email;
          assert us[1..][i - 1].email == email;
        }
      }
      r
  }

  /** `user.findFirst({ where: { OR: [{ username }, { email }] } })` finds a row. */
  predicate NameOrEmailTaken(us: seq<User>, username: string, email: string)
  {
    exists i :: 0 <= i < |us| && (us[i].username == username || us[i].email == email)
  }

  /** The messages of one chat, oldest first (`where: { chatId }`,
      `orderBy: { createdAt: 'asc' }` on a table kept in creation order). */
  function MessagesOf(ms: seq<Message>, chatId: int): (r: seq<Message>)
    ensures |r| <= |ms|
    ensures forall i :: 0 <= i < |r| ==> r[i] in ms && r[i].chatId == chatId
    ensures forall m :: m in ms && m.chatId == chatId ==> m in r
  {
    if ms == [] then []
    else if ms[0].chatId == chatId then [ms[0]] + MessagesOf(ms[1..], chatId)
    else MessagesOf(ms[1..], chatId)
  }

  /** The table after `message.deleteMany({ where: { chatId } })`. */
  function WithoutChat(ms: seq<Message>, chatId: int): (r: seq<Message>)
    ensures |r| <= |ms|
    ensures forall i :: 0 <= i < |r| ==> r[i] in ms && r[i].chatId != chatId
    ensures forall m :: m in ms && m.chatId != chatId ==> m in r
  {
    if ms == [] then []
    else if ms[0].chatId != chatId then [ms[0]] + WithoutChat(ms[1..], chatId)
    else WithoutChat(ms[1..], chatId)
  }

  /** The position of the message with the given id. */
  function MessageIndex(ms: seq<Message>, id: int): (r: Option<nat>)
    ensures r.Some? ==> r.value < |ms| && ms[r.value].id == id
    ensures r.None? ==> forall i :: 0 <= i < |ms| ==> ms[i].id != id
  {
    if ms == [] then None
    else if ms[0].id == id then Some(0)
    else match MessageIndex(ms[1..], id)
      case None => None
      case Some(k) => Some(k + 1)
  }

  /** `take: 1, orderBy: { createdAt: 'desc' }` over a list oldest first. */
  function Newest(ms: seq<Message>): (r: seq<Message>)
    ensures |r| <= 1
  {
    if ms == [] then [] else [ms[|ms| - 1]]
  }

  /** `a` was created before `b`: smaller id and earlier creation time. */
  predicate Before(a: Message, b: Message)
  {
    a.id < b.id && a.createdAt < b.createdAt
  }

  /** Ids and creation times strictly increase along the table. */
  ghost predicate Ordered(ms: seq<Message>)
  {
    forall i, j :: 0 <= i < j < |ms| ==> Before(ms[i], ms[j])
  }

  /** Ascending creation time, the order every message list is returned in. */
  ghost predicate AscendingByCreation(ms: seq<Message>)
  {
    forall i, j :: 0 <= i < j < |ms| ==> ms[i].createdAt < ms[j].createdAt
  }

  // ---------------------------------------------------------------------
  // Lemmas about the queries
  // ---------------------------------------------------------------------

  lemma OrderedTail(ms: seq<Message>)
    requires Ordered(ms) && ms != []
    ensures Ordered(ms[1..])
    ensures forall m :: m in ms[1..] ==> Before(ms[0], m)
  {
    forall i, j | 0 <= i < j < |ms[1..]| ensures Before(ms[1..][i], ms[1..][j]) {
      assert ms[1..][i] == ms[i + 1] && ms[1..][j] == ms[j + 1];
    }
    forall m | m in ms[1..] ensures Before(ms[0], m) {
      var j :| 0 <= j < |ms[1..]| && ms[1..][j] == m;
      assert ms[j + 1] == m;
    }
  }

  lemma OrderedCons(x: Message, t: seq<Message>)
    requires Ordered(t)
    requires forall k :: 0 <= k < |t| ==> Before(x, t[k])
    ensures Ordered([x] + t)
  {
    var r := [x] + t;
    forall i, j | 0 <= i < j < |r| ensures Before(r[i], r[j]) {
      assert r[j] == t[j - 1];
      if 0 < i {
        assert r[i] == t[i - 1];
      }
    }
  }

  /** A chat's messages come back in ascending creation time. */
  lemma {:induction false} MessagesOfOrdered(ms: seq<Message>, chatId: int)
    requires Ordered(ms)
    ensures Ordered(MessagesOf(ms, chatId))
    ensures AscendingByCreation(MessagesOf(ms, chatId))
  {
    if ms != [] {
      OrderedTail(ms);
      MessagesOfOrdered(ms[1..], chatId);
      if ms[0].chatId == chatId {
        OrderedCons(ms[0], MessagesOf(ms[1..], chatId));
      }
    }
    var r := MessagesOf(ms, chatId);
    assert forall i, j :: 0 <= i < j < |r| ==> Before(r[i], r[j]);
  }

  /** The message attached to a chat in the chat list is the newest of that
      chat: there is one exactly when the chat has messages, it belongs to
      the chat, and no message of the chat is newer. */
  lemma NewestIsLatest(ms: seq<Message>, chatId: int)
    requires Ordered(ms)
    ensures Newest(MessagesOf(ms, chatId)) == [] <==> forall m :: m in ms ==> m.chatId != chatId
    ensures forall last :: last in Newest(MessagesOf(ms, chatId)) ==>
              && last in ms && last.chatId == chatId
              && forall m :: m in ms && m.chatId == chatId ==> m.createdAt <= last.createdAt
  {
    var r := MessagesOf(ms, chatId);
    MessagesOfOrdered(ms, chatId);
    if r != [] {
      var last := r[|r| - 1];
      assert Newest(r) == [last];
      forall m | m in ms && m.chatId == chatId
        ensures m.createdAt <= last.createdAt
      {
        var k :| 0 <= k < |r| && r[k] == m;
        if k < |r| - 1 {
          assert r[k].createdAt < r[|r| - 1].createdAt;
        }
      }
    }
  }

  /** Appending a message extends exactly that chat's list, at its end. */
  lemma {:induction false} MessagesOfAppend(ms: seq<Message>, m: Message, chatId: int)
    ensures MessagesOf(ms + [m], chatId) ==
              MessagesOf(ms, chatId) + (if m.chatId == chatId then [m] else [])
  {
    if ms == [] {
      assert [m][1..] == [];
    } else {
      assert (ms + [m])[1..] == ms[1..] + [m];
      MessagesOfAppend(ms[1..], m, chatId);
    }
  }

  /** Removing one chat's messages keeps the others in order. */
  lemma {:induction false} WithoutChatOrdered(ms: seq<Message>, chatId: int)
    requires Ordered(ms)
    ensures Ordered(WithoutChat(ms, chatId))
  {
    if ms != [] {
      OrderedTail(ms);
      WithoutChatOrdered(ms[1..], chatId);
      if ms[0].chatId != chatId {
        OrderedCons(ms[0], WithoutChat(ms[1..], chatId));
      }
    }
  }

  /** After removing a chat's messages, none of that chat remains and every
      other chat keeps exactly its list. */
  lemma {:induction false} WithoutChatEffect(ms: seq<Message>, chatId: int, other: int)
    ensures MessagesOf(WithoutChat(ms, chatId), chatId) == []
    ensures other != chatId ==> MessagesOf(WithoutChat(ms, chatId), other) == MessagesOf(ms, other)
  {
    if ms != [] {
      WithoutChatEffect(ms[1..], chatId, other);
      if ms[0].chatId != chatId {
        var t := WithoutChat(ms[1..], chatId);
        assert ([ms[0]] + t)[0] == ms[0] && ([ms[0]] + t)[1..] == t;
      }
    }
  }

  // ---------------------------------------------------------------------
  // The store
  // ---------------------------------------------------------------------

  ghost predicate UsersWellFormed(us: seq<User>, nextId: int)
  {
    && (forall i :: 0 <= i < |us| ==> 0 < us[i].id < nextId)
    && (forall i, j :: 0 <= i < j < |us| ==>
          us[i].id < us[j].id && us[i].username != us[j].username && us[i].email != us[j].email)
  }

  class Store {
    var users: seq<User>
    var chats: map<int, Chat>
    /** Participant rows as (chatId, userId) pairs; the pair is unique. */
    var participants: set<(int, int)>
    var messages: seq<Message>
    var nextUserId: int
    var nextChatId: int
    var nextMessageId: int
    /** The `createdAt` the next message gets; creation times are distinct
        and increase with insertion. */
    var clock: int

    /** Uniqueness and referential integrity of the rows. */
    ghost predicate Valid()
      reads this
    {
      && 0 < nextUserId && 0 < nextChatId && 0 < nextMessageId
      && UsersWellFormed(users, nextUserId)
      && (forall c :: c in chats ==> chats[c].id == c && 0 < c < nextChatId)
      && (forall p :: p in participants ==> p.0 in chats && HasUser(users, p.1))
      && Ordered(messages)
      && (forall i :: 0 <= i < |messages| ==>
            && 0 < messages[i].id < nextMessageId
            && messages[i].createdAt < clock
            && messages[i].chatId in chats
            && HasUser(users, messages[i].senderId))
    }

    constructor ()
      ensures Valid()
      ensures users == [] && chats == map[] && participants == {} && messages == []
    {
      users, chats, participants, messages := [], map[], {}, [];
      nextUserId, nextChatId, nextMessageId, clock := 1, 1, 1, 0;
    }

    // ---- reads ----

    /** `chatParticipant.findFirst({ where: { chatId, userId } })` finds a row. */
    predicate IsParticipant(chatId: int, userId: int)
      reads this
    {
      (chatId, userId) in participants
    }

    /** The membership check of the operations that exempt the general
        room: everyone may use it, other chats only their participants. */
    predicate OpenTo(chatId: int, userId: int)
      reads this
    {
      chatId == GeneralChatId || (chatId, userId) in participants
    }

    /** `message.findUnique({ where: { id } })` */
    function FindMessage(id: int): (r: Option<Message>)
      reads this
      ensures r.Some? ==> r.value in messages && r.value.id == id
      ensures r.None? ==> forall m :: m in messages ==> m.id != id
    {
      match MessageIndex(messages, id)
      case None => None
      case Some(i) => Some(messages[i])
    }

    /** The participants of a chat with their users expanded
        (`include: { participants: { include: { user: { select … } } } }`). */
    function ParticipantsOf(chatId: int): (r: set<ParticipantView>)
      reads this
      ensures forall v :: v in r ==> v.chatId == chatId && (chatId, v.userId) in participants
      ensures forall u :: (chatId, u) in participants && HasUser(users, u) ==>
                exists v :: v in r && v.userId == u
    {
      var r := set p | p in participants && p.0 == chatId && HasUser(users, p.1) ::
                 ParticipantView(p.0, p.1, Public(UserById(users, p.1).value));
      assert forall u :: (chatId, u) in participants && HasUser(users, u) ==>
               ParticipantView(chatId, u, Public(UserById(users, u).value)) in r;
      r
    }

    /** The sender's username, for the `include: { sender }` projections. */
    function SenderOf(m: Message): Sender
      reads this
      requires HasUser(users, m.senderId)
    {
      Sender(m.senderId, UserById(users, m.senderId).value.username)
    }

    // ---- writes ----

    /** `user.create(...)`; fails on a taken username or email. */
    method CreateUser(username: string, email: string, password: Option<string>, throws: bool)
      returns (r: Option<User>)
      requires Valid()
      modifies this
      ensures Valid()
      ensures r.None? ==> unchanged(this)
      ensures r.Some? <==> !throws && !NameOrEmailTaken(old(users), username, email)
      ensures r.Some? ==> r.value == User(old(nextUserId), username, email, password)
      ensures users == if r.Some? then old(users) + [r.value] else old(users)
      ensures chats == old(chats) && participants == old(participants) && messages == old(messages)
    {
      if throws || NameOrEmailTaken(users, username, email) {
        return None;
      }
      var u := User(nextUserId, username, email, password);
      var us := users + [u];
      assert forall i :: 0 <= i < |users| ==> users[i].username != username && users[i].email != email;
      assert forall i :: 0 <= i < |us| - 1 ==> us[i] == users[i];
      forall id | HasUser(users, id) ensures HasUser(us, id) {
        var i :| 0 <= i < |users| && users[i].id == id;
        assert us[i].id == id;
      }
      users := us;
      nextUserId := nextUserId + 1;
      r := Some(u);
    }

    /** `chat.create` with one nested participant row per member; fails when a
        member is not a user. */
    method CreateChat(name: Option<string>, isGroupChat: bool, members: set<int>, throws: bool)
      returns (r: Option<Chat>)
      requires Valid()
      modifies this
      ensures Valid()
      ensures r.None? ==> unchanged(this)
      ensures r.Some? <==> !throws && forall u :: u in members ==> HasUser(users, u)
      ensures r.Some? ==> r.value == Chat(old(nextChatId), name, isGroupChat) && r.value.id !in old(chats)
      ensures chats == if r.Some? then old(chats)[r.value.id := r.value] else old(chats)
      ensures participants ==
                if r.Some? then old(participants) + (set u | u in members :: (r.value.id, u))
                else old(participants)
      ensures users == old(users) && messages == old(messages)
    {
      if throws || exists u :: u in members && !HasUser(users, u) {
        return None;
      }
      var c := Chat(nextChatId, name, isGroupChat);
      chats := chats[c.id := c];
      participants := participants + (set u | u in members :: (c.id, u));
      nextChatId := nextChatId + 1;
      r := Some(c);
    }

    /** `chat.create` with an explicit id; fails when the id is taken. */
    method CreateChatWithId(id: int, name: Option<string>, isGroupChat: bool, throws: bool)
      returns (ok: bool)
      requires Valid()
      requires 0 < id
      modifies this
      ensures Valid()
      ensures !ok ==> unchanged(this)
      ensures ok <==> !throws && id !in old(chats)
      ensures chats == if ok then old(chats)[id := Chat(id, name, isGroupChat)] else old(chats)
      ensures users == old(users) && participants == old(participants) && messages == old(messages)
    {
      if throws || id in chats {
        return false;
      }
      chats := chats[id := Chat(id, name, isGroupChat)];
      if nextChatId <= id {
        nextChatId := id + 1;
      }
      ok := true;
    }

    /** `chat.update({ where: { id }, data: { name } })`; fails on a missing row. */
    method UpdateChatName(id: int, name: Option<string>, throws: bool) returns (r: Option<Chat>)
      requires Valid()
      modifies this
      ensures Valid()
      ensures r.None? ==> unchanged(this)
      ensures r.Some? <==> !throws && id in old(chats)
      ensures r.Some? ==> r.value == old(chats)[id].(name := name)
      ensures chats == if r.Some? then old(chats)[id := r.value] else old(chats)
      ensures users == old(users) && participants == old(participants) && messages == old(messages)
    {
      if throws || id !in chats {
        return None;
      }
      var c := chats[id].(name := name);
      chats := chats[id := c];
      r := Some(c);
    }

    /** `message.deleteMany({ where: { chatId } })` */
    method DeleteMessagesOfChat(chatId: int, throws: bool) returns (ok: bool)
      requires Valid()
      modifies this
      ensures Valid()
      ensures !ok ==> unchanged(this)
      ensures ok <==> !throws
      ensures messages == if ok then WithoutChat(old(messages), chatId) else old(messages)
      ensures users == old(users) && chats == old(chats) && participants == old(participants)
    {
      if throws {
        return false;
      }
      WithoutChatOrdered(messages, chatId);
      messages := WithoutChat(messages, chatId);
      ok := true;
    }

    /** `chatParticipant.deleteMany({ where: { chatId } })` */
    method DeleteParticipantsOfChat(chatId: int, throws: bool) returns (ok: bool)
      requires Valid()
      modifies this
      ensures Valid()
      ensures !ok ==> unchanged(this)
      ensures ok <==> !throws
      ensures participants ==
                if ok then set p | p in old(participants) && p.0 != chatId else old(participants)
      ensures users == old(users) && chats == old(chats) && messages == old(messages)
    {
      if throws {
        return false;
      }
      participants := set p | p in participants && p.0 != chatId;
      ok := true;
    }

    /** `chat.delete({ where: { id } })`; fails on a missing row and, since
        rows refer to their chat, while a message or participant row of that
        chat remains. */
    method DeleteChat(id: int, throws: bool) returns (ok: bool)
      requires Valid()
      modifies this
      ensures Valid()
      ensures !ok ==> unchanged(this)
      ensures ok <==> && !throws && id in old(chats)
                      && (forall m :: m in old(messages) ==> m.chatId != id)
                      && (forall p :: p in old(participants) ==> p.0 != id)
      ensures chats == if ok then old(chats) - {id} else old(chats)
      ensures users == old(users) && participants == old(participants) && messages == old(messages)
    {
      if throws || id !in chats || (exists m :: m in messages && m.chatId == id)
         || (exists p :: p in participants && p.0 == id) {
        return false;
      }
      chats := chats - {id};
      ok := true;
    }

    /** `chatParticipant.create(...)` with its user expanded; fails when the
        row exists or the chat or the user is missing. */
    method CreateParticipant(chatId: int, userId: int, throws: bool) returns (r: Option<ParticipantView>)
      requires Valid()
      modifies this
      ensures Valid()
      ensures r.None? ==> unchanged(this)
      ensures r.Some? <==> && !throws && (chatId, userId) !in old(participants)
                           && chatId in chats && HasUser(users, userId)
      ensures r.Some? ==> r == Some(ParticipantView(chatId, userId, Public(UserById(users, userId).value)))
      ensures participants == if r.Some? then old(participants) + {(chatId, userId)} else old(participants)
      ensures users == old(users) && chats == old(chats) && messages == old(messages)
    {
      if throws || (chatId, userId) in participants || chatId !in chats || !HasUser(users, userId) {
        return None;
      }
      participants := participants + {(chatId, userId)};
      r := Some(ParticipantView(chatId, userId, Public(UserById(users, userId).value)));
    }

    /** `message.create(...)`; the new row gets a fresh id and the newest
        creation time; fails when the chat or the sender is missing. */
    method CreateMessage(chatId: int, senderId: int, content: string, messageType: string, throws: bool)
      returns (r: Option<Message>)
      requires Valid()
      modifies this
      ensures Valid()
      ensures r.None? ==> unchanged(this)
      ensures r.Some? <==> !throws && chatId in chats && HasUser(users, senderId)
      ensures r.Some? ==> && r.value == Message(old(nextMessageId), senderId, chatId, content, messageType, old(clock))
                          && (forall m :: m in old(messages) ==> m.id < r.value.id && m.createdAt < r.value.createdAt)
      ensures messages == if r.Some? then old(messages) + [r.value] else old(messages)
      ensures users == old(users) && chats == old(chats) && participants == old(participants)
    {
      if throws || chatId !in chats || !HasUser(users, senderId) {
        return None;
      }
      var m := Message(nextMessageId, senderId, chatId, content, messageType, clock);
      messages := messages + [m];
      nextMessageId := nextMessageId + 1;
      clock := clock + 1;
      r := Some(m);
    }

    /** `message.update({ where: { id }, data: { content } })`; fails on a
        missing row. */
    method UpdateMessageContent(id: int, content: string, throws: bool) returns (r: Option<Message>)
      requires Valid()
      modifies this
      ensures Valid()
      ensures r.None? ==> unchanged(this)
      ensures r.Some? <==> !throws && MessageIndex(old(messages), id).Some?
      ensures r.Some? ==>
                var i := MessageIndex(old(messages), id).value;
                r.value == old(messages)[i].(content := content) && messages == old(messages)[i := r.value]
      ensures r.None? ==> messages == old(messages)
      ensures users == old(users) && chats == old(chats) && participants == old(participants)
    {
      var idx := MessageIndex(messages, id);
      if throws || idx.None? {
        return None;
      }
      var i := idx.value;
      var m := messages[i].(content := content);
      messages := messages[i := m];
      r := Some(m);
    }

    /** `message.delete({ where: { id } })`; fails on a missing row. */
    method DeleteMessage(id: int, throws: bool) returns (ok: bool)
      requires Valid()
      modifies this
      ensures Valid()
      ensures !ok ==> unchanged(this)
      ensures ok <==> !throws && MessageIndex(old(messages), id).Some?
      ensures ok ==> var i := MessageIndex(old(messages), id).value;
                     messages == old(messages)[..i] + old(messages)[i + 1..]
      ensures !ok ==> messages == old(messages)
      ensures users == old(users) && chats == old(chats) && participants == old(participants)
    {
      var idx := MessageIndex(messages, id);
      if throws || idx.None? {
        return false;
      }
      var i := idx.value;
      var ms := messages[..i] + messages[i + 1..];
      assert forall k :: 0 <= k < |ms| ==> ms[k] == if k < i then messages[k] else messages[k + 1];
      messages := ms;
      ok := true;
    }
  }
}
