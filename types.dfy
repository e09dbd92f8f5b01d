// Shared value types of the chat backend: the rows of the relational store,
// the projections the services hand back, and the status-tagged result that
// every service returns.

module Types {

  /** The well-known id of the general room, open to every authenticated user
      wherever the code exempts it from the membership check. */
  const GeneralChatId: int := 1

  datatype Option<T> = None | Some(value: T)

  /** Which store call throws, if any. `FailAt(k)` means that the k-th store
      call site in the text of the service (counted from 0) raises when it is
      reached; calls before it succeed and calls after it are never made. */
  datatype Fault = NoFault | FailAt(step: nat)

  predicate Throws(f: Fault, k: nat)
  {
    f == FailAt(k)
  }

  /** The `{ message, status, data? }` object every service returns. */
  datatype Response<T> = Response(status: int, message: string, data: Option<T>)

  function Err<T>(status: int, message: string): Response<T>
  {
    Response(status, message, None)
  }

  /** JavaScript truthiness of an optional string (`undefined` and "" are falsy). */
  predicate TruthyText(s: Option<string>)
  {
    s.Some? && s.value != ""
  }

  /** `x || null` for an optional string field. */
  function OrNull(s: Option<string>): (r: Option<string>)
    ensures r.Some? <==> TruthyText(s)
    ensures r.Some? ==> r == s
  {
    if TruthyText(s) then s else None
  }

  /** `x || fallback` for an optional string field. */
  function OrElse(s: Option<string>, fallback: string): (r: string)
    ensures TruthyText(s) ==> r == s.value
    ensures !TruthyText(s) ==> r == fallback
  {
    if TruthyText(s) then s.value else fallback
  }

  // ---- rows of the store ----

  /** A user row; `password` is the bcrypt hash, or null for accounts created
      through Google. */
  datatype User = User(id: int, username: string, email: string, password: Option<string>)

  datatype Chat = Chat(id: int, name: Option<string>, isGroupChat: bool)

  datatype Message = Message(id: int, senderId: int, chatId: int, content: string,
                             messageType: string, createdAt: int)

  // ---- projections ----

  /** `select { id, username, email }`: the only user fields ever returned,
      and the JWT payload. */
  datatype PublicUser = PublicUser(id: int, username: string, email: string)

  type TokenPayload = PublicUser

  function Public(u: User): (p: PublicUser)
    ensures p.id == u.id && p.username == u.username && p.email == u.email
  {
    PublicUser(u.id, u.username, u.email)
  }

  /** `sender: { id, username }` */
  datatype Sender = Sender(id: int, username: string)

  /** A participant row with its user expanded. */
  datatype ParticipantView = ParticipantView(chatId: int, userId: int, user: PublicUser)

  /** A chat with its participants expanded. */
  datatype ChatWithParticipants = ChatWithParticipants(chat: Chat, participants: set<ParticipantView>)

  /** A chat with its participants and (some of) its messages. */
  datatype ChatDetail = ChatDetail(chat: Chat, participants: set<ParticipantView>, messages: seq<Message>)

  /** The flat message shape sent to clients, decoupled from the row. */
  datatype FlatMessage = FlatMessage(id: int, content: string, userId: int, username: string,
                                     chatId: int, createdAt: int)

  /** A message row with its sender expanded. */
  datatype MessageWithSender = MessageWithSender(message: Message, sender: Sender)

  /** A message row with its sender and its chat expanded. */
  datatype MessageDetail = MessageDetail(message: Message, sender: Sender, chat: Chat)

  /** The `{ user, token }` pair handed out after a login. */
  datatype AuthResponse = AuthResponse(user: PublicUser, token: string)

  /** Seconds in the "1h" expiry passed to every `jwt.sign`. */
  const TokenLifetimeSeconds: nat := 3600

  /** `process.env.JWT_SECRET || "holaMundo2025"` */
  function JwtSecret(env: Option<string>): (s: string)
    ensures TruthyText(env) ==> s == env.value
    ensures !TruthyText(env) ==> s == "holaMundo2025"
  {
    OrElse(env, "holaMundo2025")
  }
}
